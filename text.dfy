// Shared value types and the small string operations the dashboard code relies on
// (Python's str.startswith, `in`, split, strip, lower/upper, f"{n:0wX}", str(n),
// int(s, 16), int(c)).  Only the ASCII behaviour of those operations is modelled.

module Wrappers {
  datatype Option<T> = None | Some(value: T)
}

module Text {
  import opened Wrappers

  /** A CAN payload byte. */
  type byte = x: int | 0 <= x < 256

  // ---------------------------------------------------------------- searching

  predicate StartsWith(s: string, p: string) {
    |p| <= |s| && s[..|p|] == p
  }

  /** Python `p in s` for strings. */
  predicate Contains(s: string, p: string)
    decreases |s|
  {
    StartsWith(s, p) || (|s| > 0 && Contains(s[1..], p))
  }

  lemma {:induction false} ContainsAt(s: string, p: string, i: nat)
    requires i + |p| <= |s| && s[i..i + |p|] == p
    ensures Contains(s, p)
    decreases i
  {
    if i == 0 {
      assert s[..|p|] == s[i..i + |p|];
    } else {
      assert s[1..][i - 1..i - 1 + |p|] == s[i..i + |p|];
      ContainsAt(s[1..], p, i - 1);
    }
  }

  /** Every occurrence of a pattern that has `q` inside it is an occurrence of `q`. */
  lemma {:induction false} ContainsInner(s: string, p: string, q: string, k: nat)
    requires k + |q| <= |p| && p[k..k + |q|] == q
    requires Contains(s, p)
    ensures Contains(s, q)
    decreases |s|
  {
    if StartsWith(s, p) {
      assert s[k..k + |q|] == p[k..k + |q|];
      ContainsAt(s, q, k);
    } else {
      ContainsInner(s[1..], p, q, k);
      assert Contains(s[1..], q);
    }
  }

  /** Python `s.find(p)`, None for -1: the first place `p` occurs at. */
  function Find(s: string, p: string): (r: Option<nat>)
    ensures r.Some? ==> r.value + |p| <= |s| && s[r.value..r.value + |p|] == p
    ensures r.Some? <==> Contains(s, p)
    decreases |s|
  {
    if StartsWith(s, p) then Some(0)
    else if |s| == 0 then None
    else match Find(s[1..], p)
      case None => None
      case Some(i) => assert s[1..][i..i + |p|] == s[i + 1..i + 1 + |p|]; Some(i + 1)
  }

  function IndexOf(s: string, c: char): (r: Option<nat>)
    ensures r.Some? ==> r.value < |s| && s[r.value] == c && c !in s[..r.value]
    ensures r.None? <==> c !in s
    decreases |s|
  {
    if |s| == 0 then None
    else if s[0] == c then Some(0)
    else match IndexOf(s[1..], c)
      case None => None
      case Some(i) => assert s[1..][..i] == s[1..i + 1]; Some(i + 1)
  }

  /** The first `c` in `a + [c] + b` is the one after `a` when `a` has none. */
  lemma {:induction false} IndexOfAfter(a: string, c: char, b: string)
    requires c !in a
    ensures IndexOf(a + [c] + b, c) == Some(|a|)
    decreases |a|
  {
    var s := a + [c] + b;
    if |a| > 0 {
      assert s[1..] == a[1..] + [c] + b;
      IndexOfAfter(a[1..], c, b);
    }
  }

  // ------------------------------------------------------------ split and join

  /** Python `s.split(c)` for a one-character separator. */
  function Split(s: string, c: char): (parts: seq<string>)
    ensures |parts| >= 1
    ensures forall k :: 0 <= k < |parts| ==> c !in parts[k]
    decreases |s|
  {
    match IndexOf(s, c)
      case None => [s]
      case Some(i) => [s[..i]] + Split(s[i + 1..], c)
  }

  /** Python `c.join(parts)`. */
  function Join(parts: seq<string>, c: char): string
    decreases |parts|
  {
    if |parts| == 0 then ""
    else if |parts| == 1 then parts[0]
    else parts[0] + [c] + Join(parts[1..], c)
  }

  lemma {:induction false} JoinSplit(s: string, c: char)
    ensures Join(Split(s, c), c) == s
    decreases |s|
  {
    match IndexOf(s, c)
      case None =>
      case Some(i) =>
        var rest := Split(s[i + 1..], c);
        JoinSplit(s[i + 1..], c);
        assert Split(s, c) == [s[..i]] + rest;
        assert ([s[..i]] + rest)[1..] == rest;
        assert Join(Split(s, c), c) == s[..i] + [c] + Join(rest, c);
        assert s == s[..i] + [c] + s[i + 1..];
  }

  /** Python `s.split(c, 1)` when `c` occurs in `s`: the text before and after its first occurrence. */
  function SplitOnce(s: string, c: char): (r: (string, string))
    requires c in s
    ensures s == r.0 + [c] + r.1 && c !in r.0
  {
    var i := IndexOf(s, c).value;
    assert s == s[..i] + [c] + s[i + 1..];
    (s[..i], s[i + 1..])
  }

  /** Splitting at the first separator after a separator-free head. */
  lemma SplitAfterHead(head: string, c: char, rest: string)
    requires c !in head
    ensures Split(head + [c] + rest, c) == [head] + Split(rest, c)
  {
    var s := head + [c] + rest;
    IndexOfAfter(head, c, rest);
    assert s[..|head|] == head;
    assert s[|head| + 1..] == rest;
  }

  /** Splitting parts joined by a separator none of them holds gives the parts back; a
      separator-free suffix stays attached to the last part. */
  lemma {:induction false} SplitJoinSuffix(parts: seq<string>, c: char, suffix: string)
    requires |parts| >= 1 && c !in suffix
    requires forall k :: 0 <= k < |parts| ==> c !in parts[k]
    ensures Split(Join(parts, c) + suffix, c) == parts[..|parts| - 1] + [parts[|parts| - 1] + suffix]
    decreases |parts|
  {
    if |parts| == 1 {
      assert c !in parts[0] + suffix;
    } else {
      var head, tail := parts[0], parts[1..];
      var rest := Join(tail, c) + suffix;
      assert Join(parts, c) + suffix == head + [c] + rest;
      assert c !in head;
      SplitAfterHead(head, c, rest);
      assert Split(rest, c) == tail[..|tail| - 1] + [tail[|tail| - 1] + suffix] by {
        forall k | 0 <= k < |tail| ensures c !in tail[k] {
          assert tail[k] == parts[k + 1];
        }
        SplitJoinSuffix(tail, c, suffix);
      }
      assert parts[..|parts| - 1] == [head] + tail[..|tail| - 1];
    }
  }

  // ----------------------------------------------------- whitespace and case

  /** ASCII characters for which Python's str.isspace holds. */
  predicate IsSpace(c: char) {
    c == ' ' || 9 <= c as int <= 13 || 28 <= c as int <= 31
  }

  function StripLeft(s: string): (r: string)
    ensures |r| <= |s| && r == s[|s| - |r|..]
    ensures |r| > 0 ==> !IsSpace(r[0])
    decreases |s|
  {
    if |s| > 0 && IsSpace(s[0]) then StripLeft(s[1..]) else s
  }

  function StripRight(s: string): (r: string)
    ensures |r| <= |s| && r == s[..|r|]
    ensures |r| > 0 ==> !IsSpace(r[|r| - 1])
    decreases |s|
  {
    if |s| > 0 && IsSpace(s[|s| - 1]) then StripRight(s[..|s| - 1]) else s
  }

  /** Python `s.strip()`. */
  function Strip(s: string): string {
    StripRight(StripLeft(s))
  }

  /** A line that starts and ends with printable text loses exactly its CR LF to `strip()`. */
  lemma StripCrLf(s: string)
    requires |s| > 0 && !IsSpace(s[0]) && !IsSpace(s[|s| - 1])
    ensures Strip(s + "\r\n") == s
  {
    var x := s + "\r\n";
    assert StripLeft(x) == x;
    assert x[..|x| - 1] == s + "\r";
    assert (s + "\r")[..|s|] == s;
    assert StripRight(x) == StripRight(s + "\r") == StripRight(s) == s;
  }

  /** Python `s.replace(c, "")`. */
  function Remove(s: string, c: char): (r: string)
    ensures c !in r && |r| <= |s|
    decreases |s|
  {
    if |s| == 0 then "" else (if s[0] == c then "" else [s[0]]) + Remove(s[1..], c)
  }

  function LowerChar(c: char): char {
    if 'A' <= c <= 'Z' then (c as int + 32) as char else c
  }

  function UpperChar(c: char): char {
    if 'a' <= c <= 'z' then (c as int - 32) as char else c
  }

  /** Python `s.lower()` on ASCII letters. */
  function Lower(s: string): (r: string)
    ensures |r| == |s|
    ensures forall k :: 0 <= k < |s| ==> r[k] == LowerChar(s[k])
  {
    seq(|s|, k requires 0 <= k < |s| => LowerChar(s[k]))
  }

  /** Python `s.upper()` on ASCII letters. */
  function Upper(s: string): (r: string)
    ensures |r| == |s|
    ensures forall k :: 0 <= k < |s| ==> r[k] == UpperChar(s[k])
  {
    seq(|s|, k requires 0 <= k < |s| => UpperChar(s[k]))
  }

  // ------------------------------------------------------------- hexadecimal

  predicate IsHexChar(c: char) {
    '0' <= c <= '9' || 'a' <= c <= 'f' || 'A' <= c <= 'F'
  }

  function HexValue(c: char): nat
    requires IsHexChar(c)
  {
    if '0' <= c <= '9' then c as int - '0' as int
    else if 'a' <= c <= 'f' then c as int - 'a' as int + 10
    else c as int - 'A' as int + 10
  }

  /** The upper-case digit that `{n:X}` prints for a digit value. */
  function HexDigit(n: nat): (c: char)
    requires n < 16
    ensures IsHexChar(c) && HexValue(c) == n
    ensures !('a' <= c <= 'z') && c != '\r' && c != '\n'
  {
    if n < 10 then ('0' as int + n) as char else ('A' as int + n - 10) as char
  }

  predicate AllHex(s: string) {
    forall k :: 0 <= k < |s| ==> IsHexChar(s[k])
  }

  /** The value of a string of hex digits, most significant first. */
  function HexNumber(s: string): nat
    requires AllHex(s)
    decreases |s|
  {
    if |s| == 0 then 0 else HexNumber(s[..|s| - 1]) * 16 + HexValue(s[|s| - 1])
  }

  /** Python `int(s, 16)`, restricted to plain hex digits: None where Python raises. */
  function ParseHex(s: string): (r: Option<nat>)
    ensures r.Some? <==> |s| > 0 && AllHex(s)
  {
    if |s| > 0 && AllHex(s) then Some(HexNumber(s)) else None
  }

  /** Upper-case hexadecimal digits of n with no leading zero ("0" for zero). */
  function HexOf(n: nat): (s: string)
    ensures |s| >= 1 && AllHex(s)
    ensures forall k :: 0 <= k < |s| ==> !('a' <= s[k] <= 'z') && s[k] != '\r' && s[k] != '\n'
    decreases n
  {
    if n < 16 then [HexDigit(n)] else HexOf(n / 16) + [HexDigit(n % 16)]
  }

  function Zeros(k: nat): (s: string)
    ensures |s| == k && forall j :: 0 <= j < k ==> s[j] == '0'
  {
    seq(k, _ => '0')
  }

  /** Python `f"{n:0{w}X}"`: upper-case hex, zero-padded to width w, sign first. */
  function FormatHex(n: int, w: nat): string {
    if n >= 0 then
      var d := HexOf(n);
      (if |d| < w then Zeros(w - |d|) else "") + d
    else
      var d := HexOf(-n);
      "-" + (if |d| + 1 < w then Zeros(w - 1 - |d|) else "") + d
  }

  lemma {:induction false} HexNumberOf(n: nat)
    ensures HexNumber(HexOf(n)) == n
    decreases n
  {
    if n >= 16 {
      HexNumberOf(n / 16);
      var s := HexOf(n);
      assert s[..|s| - 1] == HexOf(n / 16);
    }
  }

  lemma {:induction false} HexNumberZeros(k: nat, s: string)
    requires AllHex(s)
    ensures AllHex(Zeros(k) + s) && HexNumber(Zeros(k) + s) == HexNumber(s)
    decreases |s|
  {
    var t := Zeros(k) + s;
    assert AllHex(t) by {
      forall j | 0 <= j < |t| ensures IsHexChar(t[j]) {
        if j >= k { assert t[j] == s[j - k]; }
      }
    }
    if |s| == 0 {
      HexNumberAllZeros(k);
      assert t == Zeros(k);
    } else {
      HexNumberZeros(k, s[..|s| - 1]);
      assert t[..|t| - 1] == Zeros(k) + s[..|s| - 1];
    }
  }

  lemma {:induction false} HexNumberAllZeros(k: nat)
    ensures AllHex(Zeros(k)) && HexNumber(Zeros(k)) == 0
    decreases k
  {
    if k > 0 {
      HexNumberAllZeros(k - 1);
      assert Zeros(k)[..k - 1] == Zeros(k - 1);
    }
  }

  function Pow16(k: nat): (p: nat)
    ensures p >= 1
  {
    if k == 0 then 1 else 16 * Pow16(k - 1)
  }

  lemma {:induction false} HexOfLength(n: nat, k: nat)
    requires k >= 1 && n < Pow16(k)
    ensures |HexOf(n)| <= k
    decreases k
  {
    if n >= 16 {
      HexOfLength(n / 16, k - 1);
    }
  }

  /** For 0 <= n < 16^w, `{n:0wX}` is exactly w hex digits and `int(_, 16)` reads n back. */
  lemma FormatHexRoundTrip(n: int, w: nat)
    requires w >= 1 && 0 <= n < Pow16(w)
    ensures |FormatHex(n, w)| == w
    ensures ParseHex(FormatHex(n, w)) == Some(n)
    ensures forall k :: 0 <= k < w ==> FormatHex(n, w)[k] != '\r' && FormatHex(n, w)[k] != '\n'
  {
    var d := HexOf(n);
    HexOfLength(n, w);
    HexNumberOf(n);
    HexNumberZeros(w - |d|, d);
    assert FormatHex(n, w) == Zeros(w - |d|) + d;
  }

  /** A string of k hex digits denotes a number below 16^k. */
  lemma {:induction false} HexNumberBound(s: string)
    requires AllHex(s)
    ensures HexNumber(s) < Pow16(|s|)
    decreases |s|
  {
    if |s| > 0 {
      HexNumberBound(s[..|s| - 1]);
    }
  }

  // ----------------------------------------------------------------- decimal

  function DecDigit(n: nat): (c: char)
    requires n < 10
    ensures '0' <= c <= '9' && c as int - '0' as int == n
  {
    ('0' as int + n) as char
  }

  /** Python `str(n)` for a natural number. */
  function DecOf(n: nat): (s: string)
    ensures |s| >= 1 && forall k :: 0 <= k < |s| ==> '0' <= s[k] <= '9'
    decreases n
  {
    if n < 10 then [DecDigit(n)] else DecOf(n / 10) + [DecDigit(n % 10)]
  }

  predicate AllDigits(s: string) {
    forall k :: 0 <= k < |s| ==> '0' <= s[k] <= '9'
  }

  function DecNumber(s: string): nat
    requires AllDigits(s)
    decreases |s|
  {
    if |s| == 0 then 0 else DecNumber(s[..|s| - 1]) * 10 + (s[|s| - 1] as int - '0' as int)
  }

  /** Python `int(s)` restricted to ASCII digits: None where Python raises. */
  function ParseDec(s: string): (r: Option<nat>)
    ensures r.Some? <==> |s| > 0 && AllDigits(s)
  {
    if |s| > 0 && AllDigits(s) then Some(DecNumber(s)) else None
  }

  lemma {:induction false} DecNumberOf(n: nat)
    ensures DecNumber(DecOf(n)) == n
    decreases n
  {
    if n >= 10 {
      DecNumberOf(n / 10);
      var s := DecOf(n);
      assert s[..|s| - 1] == DecOf(n / 10);
    }
  }

  /** `int(str(n)) == n`. */
  lemma DecRoundTrip(n: nat)
    ensures ParseDec(DecOf(n)) == Some(n)
  {
    DecNumberOf(n);
  }

  // ------------------------------------------------------------------ ascii

  /** `decode('ascii', errors='ignore')`: bytes above 0x7F are dropped. */
  function AsciiIgnore(chunk: seq<byte>): (s: string)
    ensures |s| <= |chunk|
    decreases |chunk|
  {
    if |chunk| == 0 then ""
    else AsciiIgnore(chunk[..|chunk| - 1]) + (if chunk[|chunk| - 1] < 128 then [chunk[|chunk| - 1] as char] else "")
  }

  predicate IsAscii(s: string) {
    forall j :: 0 <= j < |s| ==> s[j] as int < 128
  }

  lemma AsciiConcat(a: string, b: string)
    requires IsAscii(a) && IsAscii(b)
    ensures IsAscii(a + b)
  {
    forall j | 0 <= j < |a + b| ensures (a + b)[j] as int < 128 {
      if j >= |a| { assert (a + b)[j] == b[j - |a|]; }
    }
  }

  /** The bytes of an ASCII string. */
  function Ascii(s: string): (b: seq<byte>)
    requires IsAscii(s)
    ensures |b| == |s|
    decreases |s|
  {
    if |s| == 0 then [] else Ascii(s[..|s| - 1]) + [s[|s| - 1] as int]
  }

  lemma {:induction false} AsciiRoundTrip(s: string)
    requires IsAscii(s)
    ensures AsciiIgnore(Ascii(s)) == s
    decreases |s|
  {
    if |s| > 0 {
      AsciiRoundTrip(s[..|s| - 1]);
      var b := Ascii(s);
      assert b[..|b| - 1] == Ascii(s[..|s| - 1]);
    }
  }

  // ------------------------------------------------------------------ reals

  /** Python `int(x)` for a float: truncation toward zero. */
  function Trunc(x: real): (r: int)
    ensures x >= 0.0 ==> r >= 0 && r as real <= x < r as real + 1.0
    ensures x < 0.0 ==> r <= 0 && r as real - 1.0 < x <= r as real
  {
    if x >= 0.0 then x.Floor else -((-x).Floor)
  }

  /** Python `x % 100` on a float: the floored remainder, in [0, 100). */
  function FloorMod100(x: real): (r: real)
    ensures 0.0 <= r < 100.0
    ensures x - r == (x / 100.0).Floor as real * 100.0
  {
    var q := (x / 100.0).Floor;
    assert q as real <= x / 100.0 < q as real + 1.0;
    x - q as real * 100.0
  }
}
