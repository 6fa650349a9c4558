// The 0x340 investigative decoder (test_hex_parser.py): a hex dump of one
// frame is turned into the gear mode of byte 0 and an engine speed whose
// formula depends on that mode.  The printed report is left out; the function
// returns what it prints.

module HexParser {
  import opened Wrappers
  import opened Text
  import SimpleSimulator
  import CanReceiver

  /** The ASCII whitespace `bytes.fromhex` skips: space, tab, LF, VT, FF and CR. */
  predicate IsAsciiSpace(c: char) {
    c == ' ' || 9 <= c as int <= 13
  }

  predicate NoAsciiSpace(s: string) {
    forall k :: 0 <= k < |s| ==> !IsAsciiSpace(s[k])
  }

  /** The text with its ASCII whitespace dropped. */
  function Unspaced(s: string): (r: string)
    ensures |r| <= |s| && NoAsciiSpace(r)
    decreases |s|
  {
    if |s| == 0 then ""
    else (if IsAsciiSpace(s[0]) then "" else [s[0]]) + Unspaced(s[1..])
  }

  /**
   * `bytes.fromhex`: whitespace before each pair of hex digits is skipped, a
   * pair gives one byte, and anything else (an odd digit, a non-hex
   * character, whitespace inside a pair) gives None, where Python raises.
   */
  function FromHex(s: string): Option<seq<byte>>
    decreases |s|
  {
    if |s| == 0 then Some([])
    else if IsAsciiSpace(s[0]) then FromHex(s[1..])
    else if |s| == 1 || !IsHexChar(s[0]) || !IsHexChar(s[1]) then None
    else
      match FromHex(s[2..])
        case None => None
        case Some(rest) => Some([HexValue(s[0]) * 16 + HexValue(s[1])] + rest)
  }

  lemma AllHexConcat(a: string, b: string)
    ensures AllHex(a + b) <==> AllHex(a) && AllHex(b)
  {
    var x := a + b;
    if AllHex(a) && AllHex(b) {
      forall k | 0 <= k < |x| ensures IsHexChar(x[k]) {
        if k >= |a| { assert x[k] == b[k - |a|]; } else { assert x[k] == a[k]; }
      }
    }
    if AllHex(x) {
      forall k | 0 <= k < |a| ensures IsHexChar(a[k]) { assert a[k] == x[k]; }
      forall k | 0 <= k < |b| ensures IsHexChar(b[k]) { assert b[k] == x[|a| + k]; }
    }
  }

  /** An accepted text is hex digits once its whitespace is dropped, at one byte per two digits. */
  lemma {:induction false} FromHexDigits(s: string)
    ensures FromHex(s).Some? ==> AllHex(Unspaced(s)) && 2 * |FromHex(s).value| == |Unspaced(s)|
    decreases |s|
  {
    if |s| > 0 && IsAsciiSpace(s[0]) {
      FromHexDigits(s[1..]);
      assert Unspaced(s) == "" + Unspaced(s[1..]);
    } else if |s| >= 2 && IsHexChar(s[0]) && IsHexChar(s[1]) {
      var t := s[2..];
      FromHexDigits(t);
      assert s[1..][1..] == t;
      assert !IsAsciiSpace(s[1]);
      assert Unspaced(s) == [s[0]] + ([s[1]] + Unspaced(t));
      assert Unspaced(s) == [s[0], s[1]] + Unspaced(t);
      AllHexConcat([s[0], s[1]], Unspaced(t));
    }
  }

  /** A text without whitespace is accepted exactly when it is an even number of hex digits. */
  lemma {:induction false} FromHexUnspaced(s: string)
    requires NoAsciiSpace(s)
    ensures FromHex(s).Some? <==> |s| % 2 == 0 && AllHex(s)
    decreases |s|
  {
    if |s| >= 2 {
      var t := s[2..];
      assert NoAsciiSpace(t) by {
        forall k | 0 <= k < |t| ensures !IsAsciiSpace(t[k]) { assert t[k] == s[k + 2]; }
      }
      FromHexUnspaced(t);
      assert s == [s[0], s[1]] + t;
      AllHexConcat([s[0], s[1]], t);
    }
  }

  /**
   * An accepted text is hex digits once its whitespace is dropped, at one
   * byte per two digits; a text without whitespace is accepted exactly when
   * it has an even number of characters, all hex digits.
   */
  lemma FromHexDefined(s: string)
    ensures FromHex(s).Some? ==> AllHex(Unspaced(s)) && 2 * |FromHex(s).value| == |Unspaced(s)|
    ensures NoAsciiSpace(s) ==> (FromHex(s).Some? <==> |s| % 2 == 0 && AllHex(s))
  {
    FromHexDigits(s);
    if NoAsciiSpace(s) {
      FromHexUnspaced(s);
    }
  }

  /** One step of `FromHex` on a text that does not start with whitespace. */
  lemma FromHexStep(s: string)
    requires |s| >= 1 && !IsAsciiSpace(s[0])
    requires FromHex(s).Some? || (|s| >= 2 && IsHexChar(s[0]) && IsHexChar(s[1]) && FromHex(s[2..]).Some?)
    ensures |s| >= 2 && IsHexChar(s[0]) && IsHexChar(s[1]) && FromHex(s[2..]).Some?
    ensures FromHex(s) == Some([HexValue(s[0]) * 16 + HexValue(s[1])] + FromHex(s[2..]).value)
  {
  }

  /** An accepted prefix decodes independently of what follows it. */
  lemma {:induction false} FromHexConcat(p: string, q: string)
    requires FromHex(p).Some? && FromHex(q).Some?
    ensures FromHex(p + q) == Some(FromHex(p).value + FromHex(q).value)
    decreases |p|
  {
    var s := p + q;
    if |p| == 0 {
      assert s == q;
      assert FromHex(p).value + FromHex(q).value == FromHex(q).value;
    } else if IsAsciiSpace(p[0]) {
      assert s[0] == p[0] && s[1..] == p[1..] + q;
      FromHexConcat(p[1..], q);
    } else {
      FromHexStep(p);
      var head := [HexValue(p[0]) * 16 + HexValue(p[1])];
      var rest := FromHex(p[2..]).value;
      assert s[0] == p[0] && s[1] == p[1] && s[2..] == p[2..] + q;
      FromHexConcat(p[2..], q);
      FromHexStep(s);
      assert FromHex(s) == Some(head + (rest + FromHex(q).value));
      assert head + (rest + FromHex(q).value) == (head + rest) + FromHex(q).value;
    }
  }

  /** Whitespace between two accepted texts is skipped: the pairs around it decode as if it were absent. */
  lemma FromHexSkipsSeparator(p: string, w: char, q: string)
    requires FromHex(p).Some? && FromHex(q).Some? && IsAsciiSpace(w)
    ensures FromHex(p + [w] + q) == FromHex(p + q)
  {
    assert FromHex([w] + q) == FromHex(q) by {
      assert ([w] + q)[1..] == q;
    }
    FromHexConcat(p, [w] + q);
    FromHexConcat(p, q);
    assert p + [w] + q == p + ([w] + q);
  }

  /** Whitespace inside a pair is rejected. */
  lemma FromHexSplitPair(c: char, w: char, q: string)
    requires IsHexChar(c) && IsAsciiSpace(w)
    ensures FromHex([c, w] + q) == None
  {
    var s := [c, w] + q;
    assert s[0] == c && s[1] == w;
  }

  /** Two upper-case digits read back as the byte they print. */
  lemma FromHexPair(b: int)
    requires 0 <= b < 256
    ensures FromHex(FormatHex(b, 2)) == Some([b])
  {
    var f := FormatHex(b, 2);
    FormatHexRoundTrip(b, 2);
    assert |f| == 2 && HexNumber(f) == b;
    assert f[..|f| - 1] == f[..1];
    assert f[..1][..0] == [] && f[..1][0] == f[0];
    assert HexNumber(f[..1]) == HexValue(f[0]);
    assert HexNumber(f) == HexNumber(f[..1]) * 16 + HexValue(f[1]);
    assert IsHexChar(f[0]) && IsHexChar(f[1]);
    assert f[2..] == [];
    assert FromHex(f) == Some([HexValue(f[0]) * 16 + HexValue(f[1])] + []);
    assert [HexValue(f[0]) * 16 + HexValue(f[1])] + [] == [b];
  }

  /** The simulator's hex text of a frame's data reads back as exactly those bytes. */
  lemma {:induction false} FromHexBytes(data: seq<int>)
    requires SimpleSimulator.Bytes(data)
    ensures FromHex(SimpleSimulator.HexBytes(data)) == Some(data)
    decreases |data|
  {
    if |data| > 0 {
      var init := data[..|data| - 1];
      var d := data[|data| - 1];
      var h := SimpleSimulator.HexBytes(init);
      var last := FormatHex(d, 2);
      assert SimpleSimulator.Bytes(init) by {
        forall k | 0 <= k < |init| ensures 0 <= init[k] < 256 { assert init[k] == data[k]; }
      }
      FromHexBytes(init);
      assert FromHex(last) == Some([d]) by { FromHexPair(d); }
      assert SimpleSimulator.HexBytes(data) == h + last;
      FromHexConcat(h, last);
      assert data == init + [d];
    }
  }

  /** The gear modes the investigative map knows; any other byte 0 is reported as unknown. */
  datatype LuxGear = ParkNeutral | Drive | Reverse | UnknownMode(code: byte)

  datatype Reading = Reading(gear: LuxGear, rpm: real)

  /** `gear_map.get(trans_mode, ...)` */
  function GearOf(mode: byte): (g: LuxGear)
    ensures g == ParkNeutral <==> mode == 0
    ensures g == Drive <==> mode == 1
    ensures g == Reverse <==> mode == 7
    ensures g.UnknownMode? ==> g.code == mode
  {
    if mode == 0 then ParkNeutral else if mode == 1 then Drive else if mode == 7 then Reverse else UnknownMode(mode)
  }

  /** A dump as the recorded test cases write it: two upper-case digits per byte, separated by spaces. */
  function Dump(data: seq<int>): string
    decreases |data|
  {
    if |data| == 0 then ""
    else if |data| == 1 then FormatHex(data[0], 2)
    else Dump(data[..|data| - 1]) + " " + FormatHex(data[|data| - 1], 2)
  }

  /** Removing a character distributes over concatenation. */
  lemma {:induction false} RemoveConcat(a: string, b: string, c: char)
    ensures Remove(a + b, c) == Remove(a, c) + Remove(b, c)
    decreases |a|
  {
    if |a| == 0 {
      assert a + b == b;
    } else {
      var x := a + b;
      assert x[0] == a[0] && x[1..] == a[1..] + b;
      RemoveConcat(a[1..], b, c);
      var h := if a[0] == c then "" else [a[0]];
      assert Remove(x, c) == h + Remove(a[1..] + b, c);
      assert Remove(a, c) == h + Remove(a[1..], c);
      assert h + (Remove(a[1..], c) + Remove(b, c)) == (h + Remove(a[1..], c)) + Remove(b, c);
    }
  }

  /** Removing a character the text does not hold changes nothing. */
  lemma {:induction false} RemoveAbsent(s: string, c: char)
    requires c !in s
    ensures Remove(s, c) == s
    decreases |s|
  {
    if |s| > 0 {
      RemoveAbsent(s[1..], c);
    }
  }

  /** Removing spaces across one separating space. */
  lemma RemoveAcrossSpace(a: string, b: string)
    requires ' ' !in b
    ensures Remove(a + " " + b, ' ') == Remove(a, ' ') + b
  {
    RemoveConcat(a + " ", b, ' ');
    RemoveConcat(a, " ", ' ');
    assert Remove(" ", ' ') == "" + Remove("", ' ');
    assert Remove(a, ' ') + "" == Remove(a, ' ');
    RemoveAbsent(b, ' ');
  }

  /** A space-separated dump without its spaces is the simulator's unseparated hex text. */
  lemma {:induction false} RemoveDump(data: seq<int>)
    requires SimpleSimulator.Bytes(data)
    ensures Remove(Dump(data), ' ') == SimpleSimulator.HexBytes(data)
    decreases |data|
  {
    if |data| > 0 {
      var d := data[|data| - 1];
      var last := FormatHex(d, 2);
      assert ' ' !in last by {
        FormatHexRoundTrip(d, 2);
        assert AllHex(last);
      }
      RemoveAbsent(last, ' ');
      if |data| == 1 {
        assert SimpleSimulator.HexBytes(data) == SimpleSimulator.HexBytes([]) + last;
      } else {
        var init := data[..|data| - 1];
        assert SimpleSimulator.Bytes(init) by {
          forall k | 0 <= k < |init| ensures 0 <= init[k] < 256 { assert init[k] == data[k]; }
        }
        RemoveDump(init);
        assert Dump(data) == Dump(init) + " " + last;
        RemoveAcrossSpace(Dump(init), last);
        assert SimpleSimulator.HexBytes(data) == SimpleSimulator.HexBytes(init) + last;
      }
    }
  }

  /** The reading eight bytes give: the gear mode of byte 0 and its engine-speed formula. */
  function Decode(data: seq<byte>): (r: Option<Reading>)
    ensures r.Some? <==> |data| == 8
    ensures r.Some? ==> r.value.gear == GearOf(data[0])
    ensures r.Some? && data[0] == 0 ==> r.value.rpm == ((data[6] as int * 256 + data[7] as int) * 2) as real
    ensures r.Some? && (data[0] == 1 || data[0] == 7) ==>
      r.value.rpm == (data[2] as int * 256 + data[3] as int) as real + 6.0 * data[7] as real
    ensures r.Some? && data[0] != 0 && data[0] != 1 && data[0] != 7 ==>
      r.value.rpm == (data[2] as int * 256 + data[3] as int) as real
  {
    if |data| != 8 then None
    else
      var mode := data[0];
      var base := data[2] as int * 256 + data[3] as int;
      var rpm :=
        if mode == 0 then ((data[6] as int * 256 + data[7] as int) * 2) as real
        else if mode == 1 || mode == 7 then base as real + data[7] as real * 6.0
        else base as real;
      Some(Reading(GearOf(mode), rpm))
  }

  /** `parse_luxgen_hex`: spaces removed, then eight bytes of hex, or no result. */
  function ParseLuxgenHex(text: string): Option<Reading> {
    match FromHex(Remove(text, ' '))
      case None => None
      case Some(data) => Decode(data)
  }

  /** A space-separated dump of eight bytes decodes to exactly those bytes' reading. */
  lemma ParseDump(data: seq<int>)
    requires |data| == 8 && SimpleSimulator.Bytes(data)
    ensures ParseLuxgenHex(Dump(data)) == Decode(data)
  {
    RemoveDump(data);
    FromHexBytes(data);
  }

  /**
   * A character that is neither a hex digit nor whitespace, or a number of
   * hex digits other than sixteen, gives no reading.
   */
  lemma ParseRejects(text: string)
    ensures var digits := Unspaced(Remove(text, ' '));
      (!AllHex(digits) || |digits| != 16) ==> ParseLuxgenHex(text).None?
  {
    FromHexDefined(Remove(text, ' '));
  }

  /** Byte 0 is read unmasked: 0x21 is an unknown mode here while the receiver's `& 0x1F` reads it as D. */
  lemma UnmaskedMode()
    ensures Decode([0x21, 0, 0, 0, 0, 0, 0, 0]).value.gear == UnknownMode(0x21)
    ensures CanReceiver.Gear340([0x21, 0, 0, 0, 0, 0, 0, 0]) == Some("D")
  {
  }

  /** The four recorded dumps decode to P 800, R 767, N 794 and D 767. */
  lemma Vectors()
    ensures Decode([0x00, 0x80, 0x02, 0xFF, 0x61, 0x00, 0x01, 0x90]) == Some(Reading(ParkNeutral, 800.0))
    ensures Decode([0x07, 0x87, 0x02, 0xFF, 0x61, 0x00, 0xE0, 0x00]) == Some(Reading(Reverse, 767.0))
    ensures Decode([0x00, 0x84, 0x02, 0xFF, 0x61, 0x00, 0x01, 0x8D]) == Some(Reading(ParkNeutral, 794.0))
    ensures Decode([0x01, 0x85, 0x02, 0xFF, 0x61, 0x00, 0x20, 0x00]) == Some(Reading(Drive, 767.0))
  {
  }
}
