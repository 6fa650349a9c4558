// The shutdown-time location report (location_notifier.py): a GGA or RMC line
// from the GPS receiver is read as decimal-degree coordinates and a fix flag,
// the wait for a fix keeps the last unfixed position as a fallback, and the
// Telegram message is only built with usable credentials.  The serial ports,
// the clock, the configuration file and the HTTP request are inputs or left out.

module Location {
  import opened Wrappers
  import opened Text
  import Nmea

  // ------------------------------------------------------------ numbers

  /** Ten to the power `k`, the place value of a digit `k` places behind the point. */
  function Pow10(k: nat): (p: nat)
    ensures p >= 1
  {
    if k == 0 then 1 else 10 * Pow10(k - 1)
  }

  /** Python `float(s)` on plain decimal text: digits with at most one '.', at least one digit. */
  function Unsigned(s: string): Option<real> {
    if '.' in s then
      var (whole, frac) := SplitOnce(s, '.');
      if (|whole| > 0 || |frac| > 0) && AllDigits(whole) && AllDigits(frac) then
        Some(DecNumber(whole) as real + DecNumber(frac) as real / Pow10(|frac|) as real)
      else None
    else if |s| > 0 && AllDigits(s) then Some(DecNumber(s) as real)
    else None
  }

  /** The same with an optional leading sign; None where Python raises ValueError. */
  function Decimal(s: string): Option<real> {
    if |s| > 0 && (s[0] == '-' || s[0] == '+') then
      match Unsigned(s[1..])
        case None => None
        case Some(v) => Some(if s[0] == '-' then -v else v)
    else Unsigned(s)
  }

  /** DDMM.MMMM to degrees: `int(x / 100) + (x % 100) / 60`, with Python's truncation and
      floored remainder. */
  function Degrees(x: real): real {
    Trunc(x / 100.0) as real + FloorMod100(x) / 60.0
  }

  function Signed(d: real, negate: bool): real {
    if negate then -d else d
  }

  /** Whole degrees times 100 plus minutes below 100 read back as degrees plus minutes / 60. */
  lemma DegreesOfDdmm(deg: nat, minutes: real)
    requires 0.0 <= minutes < 100.0
    ensures Degrees(deg as real * 100.0 + minutes) == deg as real + minutes / 60.0
  {
    var x := deg as real * 100.0 + minutes;
    assert x / 100.0 == deg as real + minutes / 100.0;
    assert deg as real <= x / 100.0 < deg as real + 1.0;
    assert (x / 100.0).Floor == deg;
    assert Trunc(x / 100.0) == deg;
    assert FloorMod100(x) == minutes;
  }

  /** The DDMM.MMMM number `format_lat_lon` writes for a non-negative angle (before rounding it
      to text). */
  function Ddmm(a: real): real
    requires a >= 0.0
  {
    var whole := Trunc(a);
    whole as real * 100.0 + (a - whole as real) * 60.0
  }

  /** The simulator's DDMM value and hemisphere letter give the parser's formula its angle back. */
  lemma HemisphereRoundTrip(lat: real, lon: real)
    ensures var (ns, ew) := Nmea.Hemispheres(lat, lon);
      Signed(Degrees(Ddmm(if lat >= 0.0 then lat else -lat)), ns == "S") == lat &&
      Signed(Degrees(Ddmm(if lon >= 0.0 then lon else -lon)), ew == "W") == lon
  {
    var a := if lat >= 0.0 then lat else -lat;
    var b := if lon >= 0.0 then lon else -lon;
    DegreesOfDdmm(Trunc(a), (a - Trunc(a) as real) * 60.0);
    DegreesOfDdmm(Trunc(b), (b - Trunc(b) as real) * 60.0);
  }

  // ------------------------------------------------------------ one line

  /** Decimal degrees and whether the receiver reported a fix. */
  datatype Coords = Coords(lat: real, lon: real, fixed: bool)

  /** The common tail of `parse_nmea_coords`: empty, zero or non-numeric text gives None. */
  function Coordinates(latRaw: string, ns: string, lonRaw: string, ew: string, fixed: bool): (r: Option<Coords>)
    ensures r.Some? <==> (latRaw != "" && lonRaw != "" && Decimal(latRaw).Some? && Decimal(lonRaw).Some? &&
                          Decimal(latRaw).value != 0.0 && Decimal(lonRaw).value != 0.0)
    ensures r.Some? ==> r.value.fixed == fixed
    ensures r.Some? ==> r.value.lat == Signed(Degrees(Decimal(latRaw).value), ns == "S")
    ensures r.Some? ==> r.value.lon == Signed(Degrees(Decimal(lonRaw).value), ew == "W")
  {
    if latRaw == "" || lonRaw == "" then None
    else match (Decimal(latRaw), Decimal(lonRaw))
      case (Some(lat), Some(lon)) =>
        if lat == 0.0 || lon == 0.0 then None
        else Some(Coords(Signed(Degrees(lat), ns == "S"), Signed(Degrees(lon), ew == "W"), fixed))
      case _ => None
  }

  predicate IsGga(text: string) {
    StartsWith(text, "$GNGGA") || StartsWith(text, "$GPGGA")
  }

  predicate IsRmc(text: string) {
    StartsWith(text, "$GNRMC") || StartsWith(text, "$GPRMC")
  }

  /** `parse_nmea_coords` after decoding and stripping the line. */
  function ParseText(text: string): Option<Coords> {
    if !StartsWith(text, "$") then None
    else
      var parts := Split(text, ',');
      if IsGga(text) then
        if |parts| < 6 then None
        else if |parts| == 6 then None  // parts[6] raises IndexError, caught by the outer handler
        else Coordinates(parts[2], parts[3], parts[4], parts[5], parts[6] != "0")
      else if IsRmc(text) then
        if |parts| < 7 then None
        else Coordinates(parts[3], parts[4], parts[5], parts[6], parts[2] == "A")
      else None
  }

  /** `parse_nmea_coords(line)` on the bytes the port returned. */
  function ParseNmeaCoords(line: seq<byte>): Option<Coords> {
    ParseText(Strip(AsciiIgnore(line)))
  }

  /** Only a '$' line of type GGA or RMC with at least seven comma fields gives coordinates. */
  lemma ParseRejects(line: seq<byte>)
    ensures var text := Strip(AsciiIgnore(line));
      ParseNmeaCoords(line).Some? ==>
        StartsWith(text, "$") && (IsGga(text) || IsRmc(text)) && |Split(text, ',')| >= 7
  {
  }

  /** How a GGA or RMC line's fields feed the coordinates and the fix flag. */
  lemma ParseFields(text: string)
    requires StartsWith(text, "$") && |Split(text, ',')| >= 7
    ensures var p := Split(text, ',');
      IsGga(text) ==> ParseText(text) == Coordinates(p[2], p[3], p[4], p[5], p[6] != "0")
    ensures var p := Split(text, ',');
      !IsGga(text) && IsRmc(text) ==> ParseText(text) == Coordinates(p[3], p[4], p[5], p[6], p[2] == "A")
  {
  }

  // ------------------------------------------------ simulator sentences

  /** Fields a simulator writes: ASCII, without commas. */
  predicate PlainFields(fields: seq<string>) {
    forall k :: 0 <= k < |fields| ==> ',' !in fields[k] && IsAscii(fields[k])
  }

  /** Plain fields joined by commas are ASCII. */
  lemma {:induction false} JoinAscii(fields: seq<string>)
    requires PlainFields(fields)
    ensures IsAscii(Join(fields, ','))
    decreases |fields|
  {
    if |fields| > 1 {
      JoinAscii(fields[1..]);
      AsciiConcat(fields[0], [',']);
      AsciiConcat(fields[0] + [','], Join(fields[1..], ','));
    }
  }

  /** A sentence payload of an ASCII type and plain fields is ASCII. */
  lemma PayloadAscii(t: string, fields: seq<string>)
    requires PlainFields(fields) && IsAscii(t)
    ensures IsAscii(Nmea.Payload(t, fields))
  {
    JoinAscii(fields);
    AsciiConcat(t, ",");
    AsciiConcat(t + ",", Join(fields, ','));
  }

  /** Hex digits are ASCII and neither commas nor white space. */
  lemma HexPlain(c: string)
    requires AllHex(c)
    ensures IsAscii(c) && ',' !in c && forall k :: 0 <= k < |c| ==> !IsSpace(c[k])
  {
    forall k | 0 <= k < |c| ensures c[k] as int < 128 && c[k] != ',' && !IsSpace(c[k]) {
      assert IsHexChar(c[k]);
    }
  }

  /** The text before the CR LF: "$", the payload, "*" and the checksum. */
  function Body(t: string, fields: seq<string>): string {
    var p := Nmea.Payload(t, fields);
    "$" + p + "*" + Nmea.ChecksumText(p)
  }

  /** A simulator sentence is ASCII, is its body plus CR LF, and its body has no white space at either end. */
  lemma BodyAscii(t: string, fields: seq<string>)
    requires PlainFields(fields) && IsAscii(t)
    ensures IsAscii(Body(t, fields)) && Nmea.Sentence(t, fields) == Body(t, fields) + "\r\n"
    ensures IsAscii(Nmea.Sentence(t, fields))
    ensures |Body(t, fields)| > 0 && !IsSpace(Body(t, fields)[0]) && !IsSpace(Body(t, fields)[|Body(t, fields)| - 1])
  {
    var p := Nmea.Payload(t, fields);
    var c := Nmea.ChecksumText(p);
    PayloadAscii(t, fields);
    Nmea.ChecksumDigits(p);
    HexPlain(c);
    AsciiConcat("*", c);
    AsciiConcat("$", p);
    AsciiConcat("$" + p, "*" + c);
    AsciiConcat(Body(t, fields), "\r\n");
    assert Body(t, fields)[|Body(t, fields)| - 1] == c[1];
  }

  /** The body is the comma join of "$" + type and the fields, with "*" and the checksum after the last one. */
  lemma BodyParts(t: string, fields: seq<string>)
    requires |fields| >= 1 && ',' !in t && PlainFields(fields) && IsAscii(t)
    ensures var parts := ["$" + t] + fields;
      var c := Nmea.ChecksumText(Nmea.Payload(t, fields));
      (forall k :: 0 <= k < |parts| ==> ',' !in parts[k]) && ',' !in "*" + c &&
      Body(t, fields) == Join(parts, ',') + ("*" + c)
  {
    var p := Nmea.Payload(t, fields);
    var c := Nmea.ChecksumText(p);
    assert ',' !in "*" + c by {
      PayloadAscii(t, fields);
      Nmea.ChecksumDigits(p);
      HexPlain(c);
    }
    var parts := ["$" + t] + fields;
    forall k | 0 <= k < |parts| ensures ',' !in parts[k] {
      if k > 0 { assert parts[k] == fields[k - 1]; }
    }
    assert parts[1..] == fields;
    assert Join(parts, ',') == "$" + p;
  }

  /** The body splits into "$" + type, the fields, and the last field glued to "*" and the checksum. */
  lemma BodySplit(t: string, fields: seq<string>)
    requires |fields| >= 1 && ',' !in t && PlainFields(fields) && IsAscii(t)
    ensures var c := Nmea.ChecksumText(Nmea.Payload(t, fields));
      Split(Body(t, fields), ',') == ["$" + t] + fields[..|fields| - 1] + [fields[|fields| - 1] + "*" + c]
  {
    var c := Nmea.ChecksumText(Nmea.Payload(t, fields));
    var parts := ["$" + t] + fields;
    var last := fields[|fields| - 1];
    calc {
      Split(Body(t, fields), ',');
    == { BodyParts(t, fields); }
      Split(Join(parts, ',') + ("*" + c), ',');
    == { BodyParts(t, fields); SplitJoinSuffix(parts, ',', "*" + c); }
      parts[..|parts| - 1] + [parts[|parts| - 1] + ("*" + c)];
    == { assert parts[..|parts| - 1] == ["$" + t] + fields[..|fields| - 1]; assert parts[|parts| - 1] == last; }
      ["$" + t] + fields[..|fields| - 1] + [last + ("*" + c)];
    == { assert last + ("*" + c) == last + "*" + c; }
      ["$" + t] + fields[..|fields| - 1] + [last + "*" + c];
    }
  }

  /** The body starts with "$" and the sentence type. */
  lemma BodyType(t: string, fields: seq<string>)
    ensures StartsWith(Body(t, fields), "$" + t)
  {
    var rest := "," + Join(fields, ',') + "*" + Nmea.ChecksumText(Nmea.Payload(t, fields));
    assert Body(t, fields) == ("$" + t) + rest;
  }

  /** Decoding and stripping the sentence's bytes leaves its body. */
  lemma BodyStrip(t: string, fields: seq<string>)
    requires PlainFields(fields) && IsAscii(t)
    ensures IsAscii(Nmea.Sentence(t, fields)) && Strip(AsciiIgnore(Ascii(Nmea.Sentence(t, fields)))) == Body(t, fields)
  {
    BodyAscii(t, fields);
    AsciiRoundTrip(Nmea.Sentence(t, fields));
    StripCrLf(Body(t, fields));
  }

  /** Fields 2-6 of the split body are the sentence's fields 1-5. */
  lemma BodyFields(t: string, fields: seq<string>)
    requires |fields| >= 7 && ',' !in t && PlainFields(fields) && IsAscii(t)
    ensures var parts := Split(Body(t, fields), ',');
      |parts| >= 7 && parts[2] == fields[1] && parts[3] == fields[2] && parts[4] == fields[3] &&
      parts[5] == fields[4] && parts[6] == fields[5]
  {
    var c := Nmea.ChecksumText(Nmea.Payload(t, fields));
    var init := fields[..|fields| - 1];
    var pre := ["$" + t] + init;
    BodySplit(t, fields);
    assert Split(Body(t, fields), ',') == pre + [fields[|fields| - 1] + "*" + c];
    assert |pre| == |fields|;
    assert forall k | 1 <= k <= 6 :: pre[k] == init[k - 1] == fields[k - 1];
  }

  /** A GGA or RMC line whose comma fields 2-6 are given reads as those fields say. */
  lemma ParseLine(text: string, f1: string, f2: string, f3: string, f4: string, f5: string)
    requires StartsWith(text, "$") && |Split(text, ',')| >= 7
    requires var p := Split(text, ',');
      p[2] == f1 && p[3] == f2 && p[4] == f3 && p[5] == f4 && p[6] == f5
    ensures IsGga(text) ==> ParseText(text) == Coordinates(f1, f2, f3, f4, f5 != "0")
    ensures !IsGga(text) && IsRmc(text) ==> ParseText(text) == Coordinates(f2, f3, f4, f5, f1 == "A")
  {
    ParseFields(text);
  }

  /** The GGA and RMC type names are recognised by the parser's prefix tests, GGA first. */
  lemma TypePrefix(s: string, t: string)
    requires StartsWith(s, "$" + t)
    ensures t == "GPGGA" || t == "GNGGA" ==> IsGga(s)
    ensures t == "GPRMC" || t == "GNRMC" ==> !IsGga(s) && IsRmc(s)
  {
    var p := s[..|t| + 1];
    assert p == "$" + t;
    if t == "GPGGA" || t == "GNGGA" || t == "GPRMC" || t == "GNRMC" {
      assert |p| == 6 && p[0] == '$' && p[1] == t[0] && p[2] == t[1] && p[3] == t[2] && p[4] == t[3] && p[5] == t[4];
    }
  }

  /** Any sentence a simulator builds is ASCII and parses as its body does. */
  lemma ReadsSentence(t: string, fields: seq<string>)
    requires ',' !in t && IsAscii(t)
    requires |fields| >= 7 && PlainFields(fields)
    ensures var s := Nmea.Sentence(t, fields);
      IsAscii(s) && StartsWith(Body(t, fields), "$" + t) &&
      (IsGga(Body(t, fields)) ==>
         ParseNmeaCoords(Ascii(s)) == Coordinates(fields[1], fields[2], fields[3], fields[4], fields[5] != "0")) &&
      (!IsGga(Body(t, fields)) && IsRmc(Body(t, fields)) ==>
         ParseNmeaCoords(Ascii(s)) == Coordinates(fields[2], fields[3], fields[4], fields[5], fields[1] == "A"))
  {
    BodyStrip(t, fields);
    BodyFields(t, fields);
    BodyType(t, fields);
    ParseLine(Body(t, fields), fields[1], fields[2], fields[3], fields[4], fields[5]);
  }

  /** A GGA sentence as the simulators build it is read back field for field: latitude, NS,
      longitude and EW from fields 1-4 after the time, and the fix from the quality field. */
  lemma ReadsGga(t: string, fields: seq<string>)
    requires t == "GPGGA" || t == "GNGGA"
    requires |fields| >= 7 && PlainFields(fields)
    ensures var s := Nmea.Sentence(t, fields);
      IsAscii(s) && ParseNmeaCoords(Ascii(s)) == Coordinates(fields[1], fields[2], fields[3], fields[4], fields[5] != "0")
  {
    ReadsSentence(t, fields);
    TypePrefix(Body(t, fields), t);
  }

  /** An RMC sentence is read back likewise, with the fix from the status field. */
  lemma ReadsRmc(t: string, fields: seq<string>)
    requires t == "GPRMC" || t == "GNRMC"
    requires |fields| >= 7 && PlainFields(fields)
    ensures var s := Nmea.Sentence(t, fields);
      IsAscii(s) && ParseNmeaCoords(Ascii(s)) == Coordinates(fields[2], fields[3], fields[4], fields[5], fields[1] == "A")
  {
    ReadsSentence(t, fields);
    TypePrefix(Body(t, fields), t);
  }

  /** The simulators' status and quality flags are read as a fix exactly when no_fix is off. */
  lemma SimulatorFlagsRead(noFix: bool, rmc: seq<string>, gga: seq<string>)
    requires |rmc| >= 7 && PlainFields(rmc) && rmc[1] == Nmea.Flags(noFix).0
    requires |gga| >= 7 && PlainFields(gga) && gga[5] == Nmea.Flags(noFix).1
    ensures var s := Nmea.Sentence("GNRMC", rmc);
      IsAscii(s) && (ParseNmeaCoords(Ascii(s)).Some? ==> ParseNmeaCoords(Ascii(s)).value.fixed == !noFix)
    ensures var s := Nmea.Sentence("GPGGA", gga);
      IsAscii(s) && (ParseNmeaCoords(Ascii(s)).Some? ==> ParseNmeaCoords(Ascii(s)).value.fixed == !noFix)
  {
    ReadsRmc("GNRMC", rmc);
    ReadsGga("GPGGA", gga);
  }

  // ----------------------------------------------------- waiting for a fix

  /** A line with the basic NMEA signature the port probe looks for. */
  predicate Signature(line: seq<byte>) {
    var text := Strip(AsciiIgnore(line));
    StartsWith(text, "$") && '*' in text
  }

  /** How many of the lines read carry the signature. */
  function SignatureCount(lines: seq<seq<byte>>): (n: nat)
    ensures n <= |lines|
    decreases |lines|
  {
    if |lines| == 0 then 0
    else SignatureCount(lines[..|lines| - 1]) + (if Signature(lines[|lines| - 1]) then 1 else 0)
  }

  /** One probe of a port and baud rate over the lines it read: locked on the second signature line. */
  method Probe(lines: seq<seq<byte>>) returns (locked: bool)
    ensures locked <==> SignatureCount(lines) >= 2
  {
    var valid := 0;
    var i := 0;
    locked := false;
    while i < |lines|
      invariant 0 <= i <= |lines|
      invariant valid == SignatureCount(lines[..i]) && valid < 2
    {
      assert lines[..i + 1][..i] == lines[..i];
      ghost var next := SignatureCount(lines[..i + 1]);
      var signed := Signature(lines[i]);
      assert next == valid + (if signed then 1 else 0);
      if signed {
        valid := valid + 1;
        if valid >= 2 {
          locked := true;
          SignatureGrows(lines, i + 1);
          return;
        }
      }
      i := i + 1;
    }
    assert lines[..|lines|] == lines;
  }

  /** The count over a prefix of the lines is at most the count over all of them. */
  lemma {:induction false} SignatureGrows(lines: seq<seq<byte>>, i: nat)
    requires i <= |lines|
    ensures SignatureCount(lines[..i]) <= SignatureCount(lines)
    decreases |lines| - i
  {
    if i < |lines| {
      SignatureGrows(lines, i + 1);
      assert lines[..i + 1][..i] == lines[..i];
    } else {
      assert lines[..i] == lines;
    }
  }

  /** The time left for the wait: what the timeout leaves, but at least 5 seconds. */
  function WaitBudget(timeout: real, spent: real): (r: real)
    ensures r >= 5.0 && r >= timeout - spent
    ensures r == timeout - spent || r == 5.0
  {
    if timeout - spent < 5.0 then 5.0 else timeout - spent
  }

  /** The result of `find_gps_and_get_location`: is_approx marks an unfixed position. */
  datatype Location = Location(lat: real, lon: real, approx: bool)

  /** The rest of the wait, given the lines still to come and the last unfixed position. */
  function Decide(lines: seq<seq<byte>>, last: Option<(real, real)>): Option<Location>
    decreases |lines|
  {
    if |lines| == 0 then
      match last
        case None => None
        case Some((lat, lon)) => Some(Location(lat, lon, true))
    else
      match ParseNmeaCoords(lines[0])
        case None => Decide(lines[1..], last)
        case Some(c) =>
          if c.fixed then Some(Location(c.lat, c.lon, false)) else Decide(lines[1..], Some((c.lat, c.lon)))
  }

  /** The second pass over the lines read before the wait ran out. */
  method WaitForFix(lines: seq<seq<byte>>) returns (r: Option<Location>)
    ensures r == Decide(lines, None)
  {
    var lastApprox: Option<(real, real)> := None;
    var i := 0;
    while i < |lines|
      invariant 0 <= i <= |lines|
      invariant Decide(lines, None) == Decide(lines[i..], lastApprox)
    {
      assert lines[i..][1..] == lines[i + 1..];
      var line := lines[i];
      if |line| > 0 {
        var result := ParseNmeaCoords(line);
        if result.Some? {
          var c := result.value;
          if c.fixed {
            return Some(Location(c.lat, c.lon, false));
          }
          lastApprox := Some((c.lat, c.lon));
        }
      }
      i := i + 1;
    }
    if lastApprox.Some? {
      return Some(Location(lastApprox.value.0, lastApprox.value.1, true));
    }
    return None;
  }

  /** The first fixed line decides: its coordinates, not approximate. */
  lemma {:induction false} FirstFixWins(lines: seq<seq<byte>>, k: nat, last: Option<(real, real)>)
    requires k < |lines| && ParseNmeaCoords(lines[k]).Some? && ParseNmeaCoords(lines[k]).value.fixed
    requires forall j :: 0 <= j < k ==> ParseNmeaCoords(lines[j]).None? || !ParseNmeaCoords(lines[j]).value.fixed
    ensures var c := ParseNmeaCoords(lines[k]).value;
      Decide(lines, last) == Some(Location(c.lat, c.lon, false))
    decreases k
  {
    if k > 0 {
      var rest := lines[1..];
      forall j | 0 <= j < k - 1
        ensures ParseNmeaCoords(rest[j]).None? || !ParseNmeaCoords(rest[j]).value.fixed
      {
        assert rest[j] == lines[j + 1];
      }
      assert rest[k - 1] == lines[k];
      var c0 := ParseNmeaCoords(lines[0]);
      FirstFixWins(rest, k - 1, if c0.Some? then Some((c0.value.lat, c0.value.lon)) else last);
    }
  }

  /** Lines that give no coordinates at all leave the fallback as it was. */
  lemma {:induction false} NothingParsed(lines: seq<seq<byte>>, last: Option<(real, real)>)
    requires forall j :: 0 <= j < |lines| ==> ParseNmeaCoords(lines[j]).None?
    ensures Decide(lines, last) == if last.None? then None else Some(Location(last.value.0, last.value.1, true))
    decreases |lines|
  {
    if |lines| > 0 {
      assert forall j :: 0 <= j < |lines| - 1 ==> lines[1..][j] == lines[j + 1];
      NothingParsed(lines[1..], last);
    }
  }

  /** A first line without a fix passes the decision on to the rest, remembering its position. */
  lemma DecideUnfixed(lines: seq<seq<byte>>, last: Option<(real, real)>)
    requires |lines| > 0
    requires ParseNmeaCoords(lines[0]).None? || !ParseNmeaCoords(lines[0]).value.fixed
    ensures var c0 := ParseNmeaCoords(lines[0]);
      Decide(lines, last) == Decide(lines[1..], if c0.Some? then Some((c0.value.lat, c0.value.lon)) else last)
  {
  }

  /** Without any fix, the last line that gave coordinates is returned as approximate. */
  lemma {:induction false} LastApproxOnTimeout(lines: seq<seq<byte>>, k: nat, last: Option<(real, real)>)
    requires k < |lines| && ParseNmeaCoords(lines[k]).Some?
    requires forall j :: 0 <= j < |lines| ==> ParseNmeaCoords(lines[j]).None? || !ParseNmeaCoords(lines[j]).value.fixed
    requires forall j :: k < j < |lines| ==> ParseNmeaCoords(lines[j]).None?
    ensures var c := ParseNmeaCoords(lines[k]).value;
      Decide(lines, last) == Some(Location(c.lat, c.lon, true))
    decreases k
  {
    var rest := lines[1..];
    var c0 := ParseNmeaCoords(lines[0]);
    var next := if c0.Some? then Some((c0.value.lat, c0.value.lon)) else last;
    DecideUnfixed(lines, last);
    if k == 0 {
      forall j | 0 <= j < |rest| ensures ParseNmeaCoords(rest[j]).None? {
        assert rest[j] == lines[j + 1];
      }
      NothingParsed(rest, next);
    } else {
      forall j | 0 <= j < |rest|
        ensures ParseNmeaCoords(rest[j]).None? || !ParseNmeaCoords(rest[j]).value.fixed
        ensures k - 1 < j ==> ParseNmeaCoords(rest[j]).None?
      {
        assert rest[j] == lines[j + 1];
      }
      assert rest[k - 1] == lines[k];
      LastApproxOnTimeout(rest, k - 1, next);
    }
  }

  /** `find_gps_and_get_location`: no locked probe means no result; then the wait decides. */
  function FindLocation(probes: seq<seq<seq<byte>>>, wait: seq<seq<byte>>): (r: Option<Location>)
    ensures (forall p :: 0 <= p < |probes| ==> SignatureCount(probes[p]) < 2) ==> r.None?
  {
    if exists p :: 0 <= p < |probes| && SignatureCount(probes[p]) >= 2 then Decide(wait, None) else None
  }

  // ---------------------------------------------------------- notification

  const APPROX_NOTE: string := " (約略位置)"

  /** Usable Telegram credentials: both present and non-empty, and no "YOUR_" placeholder. */
  predicate CredentialsValid(token: Option<string>, chatId: Option<string>) {
    token.Some? && token.value != "" && chatId.Some? && chatId.value != "" && !Contains(token.value, "YOUR_")
  }

  /** The message `notify_current_location` sends: position and the approximate-position note. */
  datatype Telegram = Telegram(token: string, chatId: string, lat: real, lon: real, note: string)

  /** `notify_current_location`: the search runs only with valid credentials, and a found position
      becomes one message. */
  function Notify(token: Option<string>, chatId: Option<string>, probes: seq<seq<seq<byte>>>, wait: seq<seq<byte>>): (r: Option<Telegram>)
    ensures r.Some? <==> CredentialsValid(token, chatId) && FindLocation(probes, wait).Some?
    ensures r.Some? ==> var found := FindLocation(probes, wait).value;
      r.value.token == token.value && r.value.chatId == chatId.value &&
      r.value.lat == found.lat && r.value.lon == found.lon &&
      (r.value.note == APPROX_NOTE <==> found.approx) && (r.value.note == "" <==> !found.approx)
  {
    if !CredentialsValid(token, chatId) then None
    else
      match FindLocation(probes, wait)
        case None => None
        case Some(found) =>
          Some(Telegram(token.value, chatId.value, found.lat, found.lon, if found.approx then APPROX_NOTE else ""))
  }

  /** A placeholder token never gets a message out, whatever the GPS reports. */
  lemma PlaceholderAborts(token: string, chatId: Option<string>, probes: seq<seq<seq<byte>>>, wait: seq<seq<byte>>)
    requires Contains(token, "YOUR_")
    ensures Notify(Some(token), chatId, probes, wait).None?
  {
  }
}
