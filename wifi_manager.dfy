// The Wi-Fi manager (wifi_manager.py): parsing of `nmcli -t` output for the
// network list and the connection status, the on-screen keyboard and the
// password field it edits, and the friendly text shown when a connection
// fails.  The nmcli runs are inputs: their standard output, standard error and
// return code, and whether running them raised.

module Wifi {
  import opened Wrappers
  import opened Text

  // ------------------------------------------------------------------ scanning

  /** One entry of the scan result list. */
  datatype Network = Network(ssid: string, signal: nat, security: string, secured: bool)

  /** `int(signal) if signal.isdigit() else 0` */
  function SignalOf(field: string): (n: nat)
    ensures |field| > 0 && AllDigits(field) ==> n == DecNumber(field)
    ensures !(|field| > 0 && AllDigits(field)) ==> n == 0
  {
    match ParseDec(field)
      case Some(v) => v
      case None => 0
  }

  /** A signal strength written by nmcli is read back as itself. */
  lemma SignalOfDec(n: nat)
    ensures SignalOf(DecOf(n)) == n
  {
    DecRoundTrip(n);
  }

  /** `'WPA' in security or 'WEP' in security` */
  predicate Secured(security: string) {
    Contains(security, "WPA") || Contains(security, "WEP")
  }

  /**
   * The network a scan line describes, if it is kept at all: a non-empty line
   * with at least three ':'-separated fields whose first (the SSID) is not
   * empty.  Repeats are dropped later, by `Collect`.
   */
  function Entry(line: string): (r: Option<Network>)
    ensures r.Some? ==> r.value.ssid != [] && ':' !in r.value.ssid && ':' !in r.value.security
    ensures r.Some? ==> r.value.secured == Secured(r.value.security)
  {
    if line == [] then None
    else
      var parts := Split(line, ':');
      if |parts| < 3 || parts[0] == [] then None
      else Some(Network(parts[0], SignalOf(parts[1]), parts[2], Secured(parts[2])))
  }

  /** A scan line as `nmcli -t -f SSID,SIGNAL,SECURITY` writes it for fields without ':'. */
  function ScanLine(ssid: string, signal: nat, security: string): string {
    ssid + ":" + DecOf(signal) + ":" + security
  }

  /** A line written for a named network is read back as that network. */
  lemma EntryOfScanLine(ssid: string, signal: nat, security: string)
    requires ssid != [] && ':' !in ssid && ':' !in security
    ensures Entry(ScanLine(ssid, signal, security)) == Some(Network(ssid, signal, security, Secured(security)))
  {
    var digits := DecOf(signal);
    assert ':' !in digits;
    var parts := [ssid, digits, security];
    var line := ScanLine(ssid, signal, security);
    assert Join(parts, ':') == line by {
      assert parts[1..] == [digits, security];
      assert parts[1..][1..] == [security];
      assert Join([security], ':') == security;
      assert Join([digits, security], ':') == digits + [':'] + security;
      assert Join(parts, ':') == ssid + [':'] + (digits + [':'] + security);
    }
    SplitJoinSuffix(parts, ':', "");
    assert Join(parts, ':') + "" == line;
    assert parts[2] + "" == security;
    assert parts[..2] == [ssid, digits];
    assert parts[..2] + [parts[2] + ""] == parts;
    assert Split(line, ':') == parts;
    assert line != [] by { assert |line| >= |ssid|; }
    SignalOfDec(signal);
  }

  function Ssids(networks: seq<Network>): set<string> {
    set k | 0 <= k < |networks| :: networks[k].ssid
  }

  /**
   * The networks kept from the scan lines, in the order first seen: the
   * `seen_ssids` filter of `WiFiScanner.run`.
   */
  function Collect(lines: seq<string>): seq<Network>
    decreases |lines|
  {
    if |lines| == 0 then []
    else
      var prev := Collect(lines[..|lines| - 1]);
      match Entry(lines[|lines| - 1])
        case None => prev
        case Some(n) => if n.ssid in Ssids(prev) then prev else prev + [n]
  }

  predicate DistinctSsids(networks: seq<Network>) {
    forall i, j | 0 <= i < j < |networks| :: networks[i].ssid != networks[j].ssid
  }

  /** Appending a network adds its SSID. */
  lemma SsidsAppend(networks: seq<Network>, n: Network)
    ensures Ssids(networks + [n]) == Ssids(networks) + {n.ssid}
  {
    var all := networks + [n];
    assert forall k | 0 <= k < |networks| :: all[k] == networks[k];
    assert all[|networks|] == n;
  }

  /** `Collect` never keeps an SSID twice. */
  lemma {:induction false} CollectDistinct(lines: seq<string>)
    ensures DistinctSsids(Collect(lines))
    decreases |lines|
  {
    if |lines| > 0 {
      var init := lines[..|lines| - 1];
      CollectDistinct(init);
      var prev := Collect(init);
      match Entry(lines[|lines| - 1])
        case None =>
        case Some(n) =>
          if n.ssid !in Ssids(prev) {
            var all := prev + [n];
            forall i, j | 0 <= i < j < |all|
              ensures all[i].ssid != all[j].ssid
            {
              assert all[i] == prev[i];
              if j == |prev| {
                assert prev[i].ssid in Ssids(prev);
              } else {
                assert all[j] == prev[j];
              }
            }
          }
    }
  }

  /** Every network `Collect` keeps is the entry of one of the lines. */
  lemma {:induction false} CollectFromLines(lines: seq<string>)
    ensures forall k | 0 <= k < |Collect(lines)| ::
      exists i | 0 <= i < |lines| :: Entry(lines[i]) == Some(Collect(lines)[k])
    decreases |lines|
  {
    if |lines| > 0 {
      var init := lines[..|lines| - 1];
      CollectFromLines(init);
      var prev := Collect(init);
      var last := |lines| - 1;
      assert Collect(lines) == prev || (Entry(lines[last]).Some? && Collect(lines) == prev + [Entry(lines[last]).value]);
      forall k | 0 <= k < |Collect(lines)|
        ensures exists i | 0 <= i < |lines| :: Entry(lines[i]) == Some(Collect(lines)[k])
      {
        if k < |prev| {
          assert Collect(lines)[k] == prev[k];
          var i :| 0 <= i < |init| && Entry(init[i]) == Some(prev[k]);
          assert lines[i] == init[i];
          assert Entry(lines[i]) == Some(Collect(lines)[k]);
        } else {
          assert Entry(lines[last]) == Some(Collect(lines)[k]);
        }
      }
    } else {
      assert Collect(lines) == [];
    }
  }

  /** Every line's SSID is represented among the networks `Collect` keeps. */
  lemma {:induction false} CollectCovers(lines: seq<string>)
    ensures forall i | 0 <= i < |lines| && Entry(lines[i]).Some? :: Entry(lines[i]).value.ssid in Ssids(Collect(lines))
    decreases |lines|
  {
    if |lines| > 0 {
      var init := lines[..|lines| - 1];
      CollectCovers(init);
      var prev := Collect(init);
      assert Ssids(prev) <= Ssids(Collect(lines)) by {
        match Entry(lines[|lines| - 1])
          case None =>
          case Some(n) => SsidsAppend(prev, n);
      }
      forall i | 0 <= i < |lines| && Entry(lines[i]).Some?
        ensures Entry(lines[i]).value.ssid in Ssids(Collect(lines))
      {
        if i < |init| {
          assert lines[i] == init[i];
        } else {
          var n := Entry(lines[i]).value;
          if n.ssid !in Ssids(prev) {
            SsidsAppend(prev, n);
          }
        }
      }
    }
  }

  /**
   * What `Collect` keeps: no SSID twice, every network is the entry of some
   * line, and every line's SSID is represented.
   */
  lemma CollectSound(lines: seq<string>)
    ensures DistinctSsids(Collect(lines))
    ensures forall k | 0 <= k < |Collect(lines)| ::
      exists i | 0 <= i < |lines| :: Entry(lines[i]) == Some(Collect(lines)[k])
    ensures forall i | 0 <= i < |lines| && Entry(lines[i]).Some? :: Entry(lines[i]).value.ssid in Ssids(Collect(lines))
  {
    CollectDistinct(lines);
    CollectFromLines(lines);
    CollectCovers(lines);
  }

  /** The network kept for an SSID is the one on the first line that names it. */
  lemma {:induction false} CollectKeepsFirst(lines: seq<string>, i: nat)
    requires i < |lines| && Entry(lines[i]).Some?
    requires forall j | 0 <= j < i :: Entry(lines[j]).None? || Entry(lines[j]).value.ssid != Entry(lines[i]).value.ssid
    ensures Entry(lines[i]).value in Collect(lines)
    decreases |lines|
  {
    var n := Entry(lines[i]).value;
    var init := lines[..|lines| - 1];
    var prev := Collect(init);
    if i < |lines| - 1 {
      assert forall j | 0 <= j <= i :: init[j] == lines[j];
      CollectKeepsFirst(init, i);
    } else {
      assert n.ssid !in Ssids(prev) by {
        CollectFromLines(init);
        assert forall j | 0 <= j < |init| :: init[j] == lines[j];
      }
      assert Collect(lines) == prev + [n];
    }
  }

  predicate SortedBySignal(networks: seq<Network>) {
    forall i, j | 0 <= i < j < |networks| :: networks[i].signal >= networks[j].signal
  }

  /** The networks with a given signal strength, in order. */
  function WithSignal(networks: seq<Network>, v: nat): seq<Network>
    decreases |networks|
  {
    if |networks| == 0 then []
    else (if networks[0].signal == v then [networks[0]] else []) + WithSignal(networks[1..], v)
  }

  /** Insertion after every network at least as strong, which keeps ties in arrival order. */
  function InsertBySignal(sorted: seq<Network>, n: Network): seq<Network>
    decreases |sorted|
  {
    if |sorted| == 0 then [n]
    else if sorted[0].signal >= n.signal then [sorted[0]] + InsertBySignal(sorted[1..], n)
    else [n] + sorted
  }

  /** `networks.sort(key=lambda x: x['signal'], reverse=True)`: Python's sort is stable. */
  function SortBySignal(networks: seq<Network>): seq<Network>
    decreases |networks|
  {
    if |networks| == 0 then []
    else InsertBySignal(SortBySignal(networks[..|networks| - 1]), networks[|networks| - 1])
  }

  lemma {:induction false} WithSignalAppend(a: seq<Network>, b: seq<Network>, v: nat)
    ensures WithSignal(a + b, v) == WithSignal(a, v) + WithSignal(b, v)
    decreases |a|
  {
    if |a| > 0 {
      var head := if a[0].signal == v then [a[0]] else [];
      assert (a + b)[0] == a[0];
      assert (a + b)[1..] == a[1..] + b;
      WithSignalAppend(a[1..], b, v);
      assert WithSignal(a + b, v) == head + WithSignal(a[1..] + b, v);
      assert WithSignal(a, v) == head + WithSignal(a[1..], v);
    } else {
      assert a + b == b;
    }
  }

  lemma {:induction false} WithSignalWeaker(s: seq<Network>, v: nat)
    requires forall k | 0 <= k < |s| :: s[k].signal < v
    ensures WithSignal(s, v) == []
    decreases |s|
  {
    if |s| > 0 {
      WithSignalWeaker(s[1..], v);
    }
  }

  /** Where `InsertBySignal` puts a network of strength `v`: after the leading ones at least as strong. */
  function Position(sorted: seq<Network>, v: nat): (p: nat)
    ensures p <= |sorted|
    ensures forall k | 0 <= k < p :: sorted[k].signal >= v
    ensures p < |sorted| ==> sorted[p].signal < v
    decreases |sorted|
  {
    if |sorted| == 0 || sorted[0].signal < v then 0
    else 1 + Position(sorted[1..], v)
  }

  lemma {:induction false} InsertAtPosition(sorted: seq<Network>, n: Network)
    ensures var p := Position(sorted, n.signal);
      InsertBySignal(sorted, n) == sorted[..p] + [n] + sorted[p..]
    decreases |sorted|
  {
    if |sorted| > 0 && sorted[0].signal >= n.signal {
      var tail := sorted[1..];
      InsertAtPosition(tail, n);
      var p := Position(tail, n.signal);
      assert sorted[..p + 1] == [sorted[0]] + tail[..p];
      assert sorted[p + 1..] == tail[p..];
    }
  }

  /** Everything after the insertion point is weaker than the inserted network. */
  lemma WeakerAfterPosition(sorted: seq<Network>, v: nat)
    requires SortedBySignal(sorted)
    ensures forall k | Position(sorted, v) <= k < |sorted| :: sorted[k].signal < v
  {
    var p := Position(sorted, v);
    forall k | p <= k < |sorted|
      ensures sorted[k].signal < v
    {
      assert sorted[p].signal >= sorted[k].signal;
    }
  }

  /** A network placed between the stronger-or-equal and the weaker ones keeps the order. */
  lemma SortedInsertAt(sorted: seq<Network>, n: Network, p: nat)
    requires SortedBySignal(sorted) && p <= |sorted|
    requires forall k | 0 <= k < p :: sorted[k].signal >= n.signal
    requires forall k | p <= k < |sorted| :: sorted[k].signal < n.signal
    ensures SortedBySignal(sorted[..p] + [n] + sorted[p..])
  {
    var r := sorted[..p] + [n] + sorted[p..];
    forall i, j | 0 <= i < j < |r|
      ensures r[i].signal >= r[j].signal
    {
      var si := if i < p then sorted[i].signal else if i == p then n.signal else sorted[i - 1].signal;
      var sj := if j < p then sorted[j].signal else if j == p then n.signal else sorted[j - 1].signal;
      assert r[i].signal == si && r[j].signal == sj;
    }
  }

  lemma InsertKeepsSorted(sorted: seq<Network>, n: Network)
    requires SortedBySignal(sorted)
    ensures SortedBySignal(InsertBySignal(sorted, n))
  {
    InsertAtPosition(sorted, n);
    WeakerAfterPosition(sorted, n.signal);
    SortedInsertAt(sorted, n, Position(sorted, n.signal));
  }

  /** Nothing after the insertion point for `v` has strength `v`. */
  lemma NoTiesAfterPosition(sorted: seq<Network>, v: nat)
    requires SortedBySignal(sorted)
    ensures WithSignal(sorted[Position(sorted, v)..], v) == []
  {
    var p := Position(sorted, v);
    var back := sorted[p..];
    WeakerAfterPosition(sorted, v);
    assert forall k | 0 <= k < |back| :: back[k] == sorted[p + k];
    WithSignalWeaker(back, v);
  }

  lemma WithSignalSingle(n: Network, v: nat)
    ensures WithSignal([n], v) == if n.signal == v then [n] else []
  {
    assert [n][0] == n && [n][1..] == [];
  }

  /** Inserting at `p` adds `n` to the networks of its own strength, after those before `p`. */
  lemma InsertTiesAt(sorted: seq<Network>, n: Network, v: nat, p: nat)
    requires p <= |sorted|
    requires n.signal == v ==> WithSignal(sorted[p..], v) == []
    ensures WithSignal(sorted[..p] + [n] + sorted[p..], v) == WithSignal(sorted, v) + WithSignal([n], v)
  {
    var front, back := sorted[..p], sorted[p..];
    var wf, wn, wb := WithSignal(front, v), WithSignal([n], v), WithSignal(back, v);
    assert WithSignal(sorted, v) == wf + wb by {
      assert sorted == front + back;
      WithSignalAppend(front, back, v);
    }
    calc {
      WithSignal(front + [n] + back, v);
    == { WithSignalAppend(front, [n], v); WithSignalAppend(front + [n], back, v); }
      wf + wn + wb;
    == { WithSignalSingle(n, v); }
      wf + wb + wn;
    }
  }

  lemma InsertKeepsTies(sorted: seq<Network>, n: Network, v: nat)
    requires SortedBySignal(sorted)
    ensures WithSignal(InsertBySignal(sorted, n), v) == WithSignal(sorted, v) + WithSignal([n], v)
  {
    var p := Position(sorted, n.signal);
    InsertAtPosition(sorted, n);
    if n.signal == v {
      NoTiesAfterPosition(sorted, v);
    }
    InsertTiesAt(sorted, n, v, p);
  }

  lemma InsertBySignalProperties(sorted: seq<Network>, n: Network)
    requires SortedBySignal(sorted)
    ensures SortedBySignal(InsertBySignal(sorted, n))
    ensures multiset(InsertBySignal(sorted, n)) == multiset(sorted) + multiset{n}
    ensures forall v: nat :: WithSignal(InsertBySignal(sorted, n), v) == WithSignal(sorted, v) + WithSignal([n], v)
  {
    InsertKeepsSorted(sorted, n);
    var p := Position(sorted, n.signal);
    InsertAtPosition(sorted, n);
    assert sorted == sorted[..p] + sorted[p..];
    forall v: nat
      ensures WithSignal(InsertBySignal(sorted, n), v) == WithSignal(sorted, v) + WithSignal([n], v)
    {
      InsertKeepsTies(sorted, n, v);
    }
  }

  /**
   * The sort puts the strongest first, loses and adds nothing, and keeps
   * networks of equal strength in the order they were found.
   */
  lemma {:induction false} SortBySignalCorrect(networks: seq<Network>)
    ensures SortedBySignal(SortBySignal(networks))
    ensures multiset(SortBySignal(networks)) == multiset(networks)
    ensures forall v: nat :: WithSignal(SortBySignal(networks), v) == WithSignal(networks, v)
    decreases |networks|
  {
    if |networks| > 0 {
      var init := networks[..|networks| - 1];
      var last := networks[|networks| - 1];
      SortBySignalCorrect(init);
      InsertBySignalProperties(SortBySignal(init), last);
      assert networks == init + [last];
      forall v: nat
        ensures WithSignal(SortBySignal(networks), v) == WithSignal(networks, v)
      {
        WithSignalAppend(init, [last], v);
      }
    }
  }

  /** The `seen_ssids` loop of `WiFiScanner.run`. */
  method KeepFirstSeen(lines: seq<string>) returns (networks: seq<Network>)
    ensures networks == Collect(lines)
  {
    networks := [];
    var seen: set<string> := {};
    for i := 0 to |lines|
      invariant networks == Collect(lines[..i])
      invariant seen == Ssids(networks)
    {
      assert lines[..i + 1][..i] == lines[..i];
      match Entry(lines[i])
        case None =>
        case Some(n) =>
          if n.ssid !in seen {
            SsidsAppend(networks, n);
            seen := seen + {n.ssid};
            networks := networks + [n];
          }
    }
    assert lines[..|lines|] == lines;
  }

  /**
   * `WiFiScanner.run` after the two nmcli runs: `failed` says whether either
   * raised, in which case the list is empty.
   */
  method Scan(failed: bool, stdout: string) returns (networks: seq<Network>)
    ensures failed ==> networks == []
    ensures !failed ==> networks == SortBySignal(Collect(Split(Strip(stdout), '\n')))
  {
    if failed {
      return [];
    }
    networks := KeepFirstSeen(Split(Strip(stdout), '\n'));
    networks := SortBySignal(networks);
  }

  // ------------------------------------------------------------- list display

  const BARS: string := "▂▄▆█"

  /** `"▂▄▆█"[:int(signal / 25)]`: one bar for every full 25 %, at most four. */
  function Bars(signal: nat): (r: string)
    ensures |r| == if signal / 25 < 4 then signal / 25 else 4
    ensures r == BARS[..|r|]
  {
    if signal / 25 < 4 then BARS[..signal / 25] else BARS
  }

  /** A stronger signal never shows fewer bars, and all four show from 100 % on. */
  lemma BarsMonotone(weaker: nat, stronger: nat)
    requires weaker <= stronger
    ensures |Bars(weaker)| <= |Bars(stronger)|
    ensures Bars(weaker) == Bars(stronger)[..|Bars(weaker)|]
    ensures stronger >= 100 ==> Bars(stronger) == BARS
  {
  }

  const EMPTY_LIST_TEXT: string := "未找到可用網路"

  /** One list row: lock or antenna icon, SSID, bars and strength. */
  function ItemText(n: Network): string {
    (if n.secured then "🔒" else "📶") + " " + n.ssid + "  " + Bars(n.signal) + " " + DecOf(n.signal) + "%"
  }

  /** `on_scan_completed`: the rows shown, one per network, or the placeholder for none. */
  function ListItems(networks: seq<Network>): (items: seq<string>)
    ensures networks == [] ==> items == [EMPTY_LIST_TEXT]
    ensures networks != [] ==> |items| == |networks| && forall k | 0 <= k < |networks| :: items[k] == ItemText(networks[k])
  {
    if networks == [] then [EMPTY_LIST_TEXT]
    else seq(|networks|, k requires 0 <= k < |networks| => ItemText(networks[k]))
  }

  // ------------------------------------------------------------------ keyboard

  /** `keyboard_layout`, row by row: each key's normal and Caps characters. */
  const LAYOUT: seq<(string, string)> := [
    ("1", "!"), ("2", "@"), ("3", "#"), ("4", "$"), ("5", "%"),
    ("6", "^"), ("7", "&"), ("8", "*"), ("9", "("), ("0", ")"),
    ("-", "_"), ("=", "+"),
    ("q", "Q"), ("w", "W"), ("e", "E"), ("r", "R"), ("t", "T"),
    ("y", "Y"), ("u", "U"), ("i", "I"), ("o", "O"), ("p", "P"),
    ("[", "{"), ("]", "}"),
    ("a", "A"), ("s", "S"), ("d", "D"), ("f", "F"), ("g", "G"),
    ("h", "H"), ("j", "J"), ("k", "K"), ("l", "L"), (";", ":"),
    ("'", "\""),
    ("z", "Z"), ("x", "X"), ("c", "C"), ("v", "V"), ("b", "B"),
    ("n", "N"), ("m", "M"), (",", "<"), (".", ">"), ("/", "?")]

  const BACKSPACE: string := "BACKSPACE"
  const CLEAR: string := "CLEAR"

  /** The text on every key button for a Caps state. */
  function Labels(keys: seq<(string, string)>, caps: bool): (r: seq<string>)
    ensures |r| == |keys|
    ensures forall k | 0 <= k < |keys| :: r[k] == if caps then keys[k].1 else keys[k].0
  {
    seq(|keys|, k requires 0 <= k < |keys| => if caps then keys[k].1 else keys[k].0)
  }

  /** The Caps button's text after a toggle. */
  function CapsLabel(caps: bool): string {
    if caps then "⇪ SHIFT ON" else "⇪ Shift"
  }

  class VirtualKeyboard {
    const keys: seq<(string, string)>
    var capsLock: bool
    var labels: seq<string>
    var capsText: string

    constructor()
      ensures keys == LAYOUT && !capsLock && labels == Labels(LAYOUT, false) && capsText == "⇪ Caps Lock"
    {
      keys := LAYOUT;
      capsLock := false;
      labels := Labels(LAYOUT, false);
      capsText := "⇪ Caps Lock";
    }

    /** `on_key_click`: the Caps character exactly when Caps is on. */
    method OnKeyClick(pair: (string, string)) returns (emitted: string)
      ensures capsLock ==> emitted == pair.1
      ensures !capsLock ==> emitted == pair.0
    {
      emitted := if capsLock then pair.1 else pair.0;
    }

    /** `toggle_caps`: flip Caps and relabel every key and the Caps button. */
    method ToggleCaps()
      modifies this
      ensures capsLock == !old(capsLock)
      ensures labels == Labels(keys, capsLock) && |labels| == |old(labels)|
      ensures capsText == CapsLabel(capsLock)
      requires |labels| == |keys|
    {
      capsLock := !capsLock;
      var i := 0;
      while i < |labels|
        invariant 0 <= i <= |labels| == |keys|
        invariant capsLock == !old(capsLock)
        invariant labels[..i] == Labels(keys, capsLock)[..i]
      {
        labels := labels[i := if capsLock then keys[i].1 else keys[i].0];
        i := i + 1;
      }
      assert labels == labels[..|labels|];
      capsText := CapsLabel(capsLock);
    }
  }

  // ------------------------------------------------------------ password entry

  /** `on_virtual_key`: remove the last character, clear, or append the key. */
  function Edit(text: string, key: string): (r: string)
    ensures key == BACKSPACE ==> r == text[..if |text| > 0 then |text| - 1 else 0]
    ensures key == CLEAR ==> r == []
    ensures key != BACKSPACE && key != CLEAR ==> r == text + key
  {
    if key == BACKSPACE then (if |text| > 0 then text[..|text| - 1] else text)
    else if key == CLEAR then []
    else text + key
  }

  /** The text after a run of key presses. */
  function Typed(text: string, keys: seq<string>): string
    decreases |keys|
  {
    if |keys| == 0 then text else Typed(Edit(text, keys[0]), keys[1..])
  }

  function Concat(keys: seq<string>): string
    decreases |keys|
  {
    if |keys| == 0 then [] else keys[0] + Concat(keys[1..])
  }

  /** Pressing keys that are neither Back nor Clear appends exactly what they say. */
  lemma {:induction false} TypingAppends(text: string, keys: seq<string>)
    requires forall k | 0 <= k < |keys| :: keys[k] != BACKSPACE && keys[k] != CLEAR
    ensures Typed(text, keys) == text + Concat(keys)
    decreases |keys|
  {
    if |keys| > 0 {
      TypingAppends(text + keys[0], keys[1..]);
      assert text + keys[0] + Concat(keys[1..]) == text + (keys[0] + Concat(keys[1..]));
    }
  }

  function Repeat(key: string, n: nat): (r: seq<string>)
    ensures |r| == n && forall k | 0 <= k < n :: r[k] == key
  {
    seq(n, k requires 0 <= k < n => key)
  }

  /** n presses of Back drop the last n characters, and stop at the empty text. */
  lemma {:induction false} BackspacesTrim(text: string, n: nat)
    ensures Typed(text, Repeat(BACKSPACE, n)) == text[..if n <= |text| then |text| - n else 0]
    decreases n
  {
    if n > 0 {
      assert Repeat(BACKSPACE, n)[1..] == Repeat(BACKSPACE, n - 1);
      BackspacesTrim(Edit(text, BACKSPACE), n - 1);
    }
  }

  /** A character key followed by Back leaves the text as it was. */
  lemma BackspaceUndoes(text: string, c: char)
    ensures Typed(text, [[c], BACKSPACE]) == text
  {
    assert [c] != BACKSPACE && [c] != CLEAR;
    assert [[c], BACKSPACE][1..] == [BACKSPACE];
    assert [BACKSPACE][1..] == [];
    assert |BACKSPACE| == 9 && |CLEAR| == 5;
    assert Edit(text, [c]) == text + [c];
    assert Typed(text, [[c], BACKSPACE]) == Typed(text + [c], [BACKSPACE]);
    assert (text + [c])[..|text|] == text;
    assert Typed(text + [c], [BACKSPACE]) == Typed(text, []);
  }

  class PasswordDialog {
    const ssid: string
    var text: string
    var password: string
    var remember: bool
    var accepted: bool
    var warned: bool

    constructor(ssid: string)
      ensures this.ssid == ssid && text == [] && password == [] && !remember && !accepted && !warned
    {
      this.ssid := ssid;
      text := [];
      password := [];
      remember := false;
      accepted := false;
      warned := false;
    }

    method OnVirtualKey(key: string)
      modifies this
      ensures text == Edit(old(text), key)
      ensures password == old(password) && accepted == old(accepted) && warned == old(warned)
    {
      if key == BACKSPACE {
        text := if |text| > 0 then text[..|text| - 1] else text;
      } else if key == CLEAR {
        text := [];
      } else {
        text := text + key;
      }
    }

    /** `accept_password`: the dialog closes with the password only when it is not empty. */
    method AcceptPassword(checked: bool)
      modifies this
      ensures password == text && remember == checked && text == old(text)
      ensures accepted <==> old(accepted) || text != []
      ensures warned <==> old(warned) || text == []
    {
      password := text;
      remember := checked;
      if password != [] {
        accepted := true;
      } else {
        warned := true;
      }
    }
  }

  // --------------------------------------------------------------- connecting

  /** What an nmcli run returned. */
  datatype Output = Output(returnCode: int, stdout: string, stderr: string)

  const DEFAULT_FAILURE: string := "連線失敗"
  const WRONG_PASSWORD: string := "密碼錯誤，請重新輸入"
  const TIMED_OUT: string := "連線逾時，請檢查網路是否在範圍內"
  const NOT_FOUND: string := "找不到此網路，請重新掃描"

  /**
   * The result `do_connect` judges when a password is given: the plain
   * `wifi connect`, or, when that failed over key management, the
   * `con add` result if it failed and the `con up` result if it did not.
   */
  function PasswordConnect(first: Output, add: Output, up: Output): (r: Output)
    ensures first.returnCode == 0 || !Contains(Lower(first.stderr), "key-mgmt") ==> r == first
    ensures first.returnCode != 0 && Contains(Lower(first.stderr), "key-mgmt") ==>
      r == if add.returnCode == 0 then up else add
  {
    if first.returnCode != 0 && Contains(Lower(first.stderr), "key-mgmt") then
      if add.returnCode == 0 then up else add
    else first
  }

  /** `result.stderr or result.stdout or "連線失敗"` */
  function ErrorMessage(result: Output): (m: string)
    ensures m != []
    ensures result.stderr != [] ==> m == result.stderr
    ensures result.stderr == [] && result.stdout != [] ==> m == result.stdout
    ensures result.stderr == [] && result.stdout == [] ==> m == DEFAULT_FAILURE
  {
    if result.stderr != [] then result.stderr
    else if result.stdout != [] then result.stdout
    else DEFAULT_FAILURE
  }

  datatype Failure = WrongPassword | TimedOut | NoNetwork | Other(message: string)

  /** The friendly classification of a failure message, first matching keyword wins. */
  function Classify(message: string): Failure {
    var lower := Lower(message);
    if Contains(lower, "password") || Contains(lower, "psk") then WrongPassword
    else if Contains(lower, "timeout") then TimedOut
    else if Contains(lower, "no network") then NoNetwork
    else Other(message)
  }

  function FriendlyText(f: Failure): string {
    match f
      case WrongPassword => WRONG_PASSWORD
      case TimedOut => TIMED_OUT
      case NoNetwork => NOT_FOUND
      case Other(m) => m
  }

  lemma LowerUpperChar(c: char)
    ensures LowerChar(UpperChar(c)) == LowerChar(c)
  {
  }

  /** Upper-casing the message does not change its classification, only the raw text kept. */
  lemma ClassifyIgnoresCase(message: string)
    ensures Classify(Upper(message)).Other? <==> Classify(message).Other?
    ensures !Classify(message).Other? ==> Classify(Upper(message)) == Classify(message)
  {
    forall k | 0 <= k < |message|
      ensures Lower(Upper(message))[k] == Lower(message)[k]
    {
      LowerUpperChar(message[k]);
    }
    assert Lower(Upper(message)) == Lower(message);
  }

  /** A message naming the password is reported as a wrong password whatever else it says. */
  lemma PasswordWins(before: string, after: string)
    ensures Classify(before + "PSK" + after) == WrongPassword
  {
    var m := before + "PSK" + after;
    var lower := Lower(m);
    assert lower[|before|..|before| + 3] == "psk";
    ContainsAt(lower, "psk", |before|);
  }

  /** A message with none of the keywords is shown as it came. */
  lemma RawKept(message: string)
    requires !Contains(Lower(message), "password") && !Contains(Lower(message), "psk")
    requires !Contains(Lower(message), "timeout") && !Contains(Lower(message), "no network")
    ensures FriendlyText(Classify(message)) == message
  {
  }

  /** What a connection attempt ends in: connected, or a failure with its friendly text. */
  datatype ConnectOutcome = Connected(ssid: string) | Failed(friendly: string)

  function JudgeConnect(ssid: string, result: Output): (r: ConnectOutcome)
    ensures r.Connected? <==> result.returnCode == 0
    ensures r.Connected? ==> r.ssid == ssid
    ensures r.Failed? ==> r.friendly == FriendlyText(Classify(ErrorMessage(result)))
  {
    if result.returnCode == 0 then Connected(ssid)
    else Failed(FriendlyText(Classify(ErrorMessage(result))))
  }

  // ---------------------------------------------------------------- status

  /** The SSID an `ACTIVE,SSID` line reports, if it is active and names one. */
  function ActiveSsid(line: string): (r: Option<string>)
    ensures r.Some? ==> r.value != [] && (StartsWith(line, "yes:") || StartsWith(line, "是:"))
  {
    if StartsWith(line, "yes:") || StartsWith(line, "是:") then
      assert ':' in line by {
        if StartsWith(line, "yes:") { assert line[3] == ':'; } else { assert line[1] == ':'; }
      }
      var after := SplitOnce(line, ':').1;
      if after != [] then Some(after) else None
    else None
  }

  /** An active line is read back as the SSID it names, even one holding ':'. */
  lemma ActiveSsidOf(ssid: string)
    requires ssid != []
    ensures ActiveSsid("yes:" + ssid) == Some(ssid)
    ensures ActiveSsid("是:" + ssid) == Some(ssid)
  {
    IndexOfAfter("yes", ':', ssid);
    assert "yes:" + ssid == "yes" + [':'] + ssid;
    IndexOfAfter("是", ':', ssid);
    assert "是:" + ssid == "是" + [':'] + ssid;
  }

  /** The first line that reports an active SSID. */
  function FirstActive(lines: seq<string>): (r: Option<string>)
    ensures r.None? <==> forall i | 0 <= i < |lines| :: ActiveSsid(lines[i]).None?
    decreases |lines|
  {
    if |lines| == 0 then None
    else match ActiveSsid(lines[0])
      case Some(s) => Some(s)
      case None =>
        assert forall i | 0 < i < |lines| :: lines[i] == lines[1..][i - 1];
        FirstActive(lines[1..])
  }

  /** What `FirstActive` finds is the SSID of an active line with none before it. */
  lemma {:induction false} FirstActiveIsFirst(lines: seq<string>)
    requires FirstActive(lines).Some?
    ensures exists i | 0 <= i < |lines| ::
      ActiveSsid(lines[i]) == FirstActive(lines) && forall j | 0 <= j < i :: ActiveSsid(lines[j]).None?
    decreases |lines|
  {
    if ActiveSsid(lines[0]).Some? {
      assert ActiveSsid(lines[0]) == FirstActive(lines);
    } else {
      var tail := lines[1..];
      assert FirstActive(lines) == FirstActive(tail);
      FirstActiveIsFirst(tail);
      var i :| 0 <= i < |tail| && ActiveSsid(tail[i]) == FirstActive(tail) &&
        forall j | 0 <= j < i :: ActiveSsid(tail[j]).None?;
      assert lines[i + 1] == tail[i];
      forall j | 0 <= j < i + 1
        ensures ActiveSsid(lines[j]).None?
      {
        if j > 0 { assert lines[j] == tail[j - 1]; }
      }
    }
  }

  class WifiManager {
    const testMode: bool
    var currentSsid: Option<string>
    var connectionSignals: seq<(bool, string)>

    constructor(testMode: bool)
      ensures this.testMode == testMode && currentSsid == None && connectionSignals == []
    {
      this.testMode := testMode;
      currentSsid := None;
      connectionSignals := [];
    }

    /**
     * `update_connection_status` over the status run's output: in test mode
     * nothing is read; otherwise the first active line wins, and without one
     * there is no current network.
     */
    method UpdateConnectionStatus(stdout: string)
      modifies this
      ensures testMode ==> currentSsid == old(currentSsid)
      ensures !testMode ==> currentSsid == FirstActive(Split(Strip(stdout), '\n'))
      ensures connectionSignals == old(connectionSignals)
    {
      if testMode {
        return;
      }
      var lines := Split(Strip(stdout), '\n');
      for i := 0 to |lines|
        invariant FirstActive(lines) == FirstActive(lines[i..])
        invariant connectionSignals == old(connectionSignals)
      {
        assert lines[i..][1..] == lines[i + 1..];
        var line := lines[i];
        if StartsWith(line, "yes:") || StartsWith(line, "是:") {
          var found := ActiveSsid(line);
          if found.Some? {
            currentSsid := found;
            return;
          }
        }
      }
      currentSsid := None;
    }

    /** `do_connect` once nmcli (or, in test mode, the stand-in) has answered. */
    method DoConnect(ssid: string, result: Output) returns (outcome: ConnectOutcome)
      modifies this
      ensures outcome == JudgeConnect(ssid, if testMode then Output(0, [], []) else result)
      ensures outcome.Connected? ==> currentSsid == Some(ssid) && connectionSignals == old(connectionSignals) + [(true, ssid)]
      ensures outcome.Failed? ==> currentSsid == old(currentSsid) && connectionSignals == old(connectionSignals)
    {
      var judged := if testMode then Output(0, [], []) else result;
      outcome := JudgeConnect(ssid, judged);
      if judged.returnCode == 0 {
        currentSsid := Some(ssid);
        connectionSignals := connectionSignals + [(true, ssid)];
      }
    }
  }
}
