// NMEA 0183 sentences as the two GPS simulators build them (gps_simulator.py and
// virtual_gps.py): the XOR checksum, the "$payload*hh\r\n" frame, the hemisphere
// letters, the fixed speed profile and the fix flags, and virtual_gps.py's
// elapsed-time driving schedule with its once-a-second loop.  The pseudo-tty,
// the wall clock and the time and coordinate text are inputs or left out.

module Nmea {
  import opened Wrappers
  import opened Text

  // -------------------------------------------------------------- checksum

  /** Python `ord(c)`, as a 32-bit word (every code point fits). */
  function Code(c: char): bv32 {
    c as int as bv32
  }

  /** The XOR of the character codes of `s`. */
  function XorAll(s: string): bv32
    decreases |s|
  {
    if |s| == 0 then 0 else XorAll(s[..|s| - 1]) ^ Code(s[|s| - 1])
  }

  /** The checksum text: the XOR rendered as `f"{value:02X}"`. */
  function ChecksumText(s: string): string {
    FormatHex(XorAll(s) as int, 2)
  }

  /** `checksum` (both simulators): XOR every character code into an accumulator. */
  method Checksum(sentence: string) returns (r: string)
    ensures r == FormatHex(XorAll(sentence) as int, 2)
  {
    var value: bv32 := 0;
    for i := 0 to |sentence|
      invariant value == XorAll(sentence[..i])
    {
      assert sentence[..i + 1][..i] == sentence[..i];
      value := value ^ Code(sentence[i]);
    }
    assert sentence[..|sentence|] == sentence;
    r := FormatHex(value as int, 2);
  }

  /** The checksum distributes over concatenation. */
  lemma {:induction false} XorConcat(a: string, b: string)
    ensures XorAll(a + b) == XorAll(a) ^ XorAll(b)
    decreases |b|
  {
    if |b| == 0 {
      assert a + b == a;
    } else {
      var init := b[..|b| - 1];
      XorConcat(a, init);
      assert (a + b)[..|a + b| - 1] == a + init;
      assert (a + b)[|a + b| - 1] == b[|b| - 1];
      XorAssoc(XorAll(a), XorAll(init), Code(b[|b| - 1]));
    }
  }

  lemma XorAssoc(x: bv32, y: bv32, z: bv32)
    ensures (x ^ y) ^ z == x ^ (y ^ z)
  {
  }

  lemma CodeBelow(c: char)
    requires c as int < 128
    ensures Code(c) < 128
  {
  }

  lemma XorBelow(x: bv32, y: bv32)
    requires x < 128 && y < 128
    ensures x ^ y < 128
  {
  }

  /** The empty payload has checksum "00". */
  lemma ChecksumEmpty()
    ensures ChecksumText("") == "00"
  {
    assert HexOf(0) == "0";
  }

  lemma {:induction false} XorAscii(s: string)
    requires IsAscii(s)
    ensures XorAll(s) < 128
    decreases |s|
  {
    if |s| > 0 {
      var init := s[..|s| - 1];
      assert IsAscii(init) by {
        forall k | 0 <= k < |init| ensures init[k] == s[k] { }
      }
      XorAscii(init);
      CodeBelow(s[|s| - 1]);
      XorBelow(XorAll(init), Code(s[|s| - 1]));
    }
  }

  /** For an ASCII payload the checksum is exactly two hex digits, and it reads back as the XOR. */
  lemma ChecksumDigits(s: string)
    requires IsAscii(s)
    ensures |ChecksumText(s)| == 2 && AllHex(ChecksumText(s))
    ensures ParseHex(ChecksumText(s)) == Some(XorAll(s) as int)
  {
    XorAscii(s);
    assert Pow16(2) == 256;
    FormatHexRoundTrip(XorAll(s) as int, 2);
  }

  // -------------------------------------------------------------- sentences

  /** What the checksum covers: the type, a comma, then the fields joined by commas. */
  function Payload(msgType: string, fields: seq<string>): string {
    msgType + "," + Join(fields, ',')
  }

  /** `nmea` (gps_simulator.py): "$" + payload + "*" + checksum + CR LF. */
  function Sentence(msgType: string, fields: seq<string>): string {
    var p := Payload(msgType, fields);
    "$" + p + "*" + ChecksumText(p) + "\r\n"
  }

  /** `format_nmea` (virtual_gps.py), arguments already text: the same frame, built in another order. */
  function FormatNmea(msgType: string, args: seq<string>): string {
    var content := Join(args, ',');
    var csum := ChecksumText(msgType + "," + content);
    "$" + msgType + "," + content + "*" + csum + "\r\n"
  }

  lemma SameFrame(msgType: string, args: seq<string>)
    ensures FormatNmea(msgType, args) == Sentence(msgType, args)
  {
  }

  /** The first '*' ends the payload, the two characters after it are the payload's checksum,
      and CR LF closes the line. */
  lemma ChecksumCoversPayload(msgType: string, fields: seq<string>)
    requires '*' !in Payload(msgType, fields) && IsAscii(Payload(msgType, fields))
    ensures var s := Sentence(msgType, fields);
      var p := Payload(msgType, fields);
      IndexOf(s, '*') == Some(|p| + 1) && |s| == |p| + 6 &&
      s[1..|p| + 1] == p && ParseHex(s[|p| + 2..|p| + 4]) == Some(XorAll(s[1..|p| + 1]) as int)
  {
    var p := Payload(msgType, fields);
    var s := Sentence(msgType, fields);
    var c := ChecksumText(p);
    ChecksumDigits(p);
    assert s == ("$" + p) + ['*'] + (c + "\r\n");
    IndexOfAfter("$" + p, '*', c + "\r\n");
    assert s[1..|p| + 1] == p;
    assert s[|p| + 2..|p| + 4] == c;
  }

  /** Splitting the payload on commas gives the type and the fields back, when none holds a comma. */
  lemma PayloadFields(msgType: string, fields: seq<string>)
    requires |fields| >= 1 && ',' !in msgType
    requires forall k :: 0 <= k < |fields| ==> ',' !in fields[k]
    ensures Split(Payload(msgType, fields), ',') == [msgType] + fields
  {
    var parts := [msgType] + fields;
    assert parts[1..] == fields;
    forall k | 0 <= k < |parts| ensures ',' !in parts[k] {
      if k > 0 { assert parts[k] == fields[k - 1]; }
    }
    var joined := Join(parts, ',');
    assert joined == Payload(msgType, fields);
    SplitJoinSuffix(parts, ',', "");
    assert joined + "" == joined;
    var last := parts[|parts| - 1];
    assert last + "" == last;
    assert parts[..|parts| - 1] + [last] == parts;
  }

  // ------------------------------------------------------ simulator details

  /** The hemisphere letters of `format_lat_lon`. */
  function Hemispheres(lat: real, lon: real): (r: (string, string))
    ensures r.0 in {"N", "S"} && (r.0 == "N" <==> lat >= 0.0)
    ensures r.1 in {"E", "W"} && (r.1 == "E" <==> lon >= 0.0)
  {
    (if lat >= 0.0 then "N" else "S", if lon >= 0.0 then "E" else "W")
  }

  /** The non-sine branch of `speed_profile`: the base speed, floored at zero. */
  function FixedSpeed(base: real): (r: real)
    ensures r >= 0.0 && r >= base && (r == base || r == 0.0)
  {
    if base > 0.0 then base else 0.0
  }

  /** RMC status and GGA quality: "V"/"0" without a fix, "A"/"1" with one. */
  function Flags(noFix: bool): (r: (string, string))
    ensures r.0 == "A" <==> !noFix
    ensures r.1 == "0" <==> noFix
    ensures r.0 in {"A", "V"} && r.1 in {"0", "1"}
  {
    if noFix then ("V", "0") else ("A", "1")
  }

  // ------------------------------------------- virtual_gps driving schedule

  datatype Phase = FixedStop | Accel | Decel

  /** The phase and speed for an elapsed time as written in the loop; None past 60 s, where
      the loop rewinds its clock instead of sending. */
  function ScheduleAsWritten(elapsed: real): (r: Option<(Phase, real)>)
    ensures r.None? <==> elapsed >= 60.0
    ensures r.Some? ==> -50.0 <= r.value.1 <= 100.0
    ensures r.Some? && r.value.1 < 0.0 ==> r.value.0 == Accel && 10.0 <= elapsed < 20.0
    ensures r.Some? ==> (r.value.1 > 0.0 <==> 20.0 < elapsed)
  {
    if elapsed < 10.0 then Some((FixedStop, 0.0))
    else if elapsed < 40.0 then Some((Accel, (elapsed - 20.0) / 20.0 * 100.0))
    else if elapsed < 60.0 then Some((Decel, 100.0 * (1.0 - (elapsed - 40.0) / 20.0)))
    else None
  }

  /** As written, the ACCEL phase sends a negative speed for its first ten seconds. */
  lemma NegativeAccel(elapsed: real)
    requires 10.0 <= elapsed < 20.0
    ensures ScheduleAsWritten(elapsed).Some? && ScheduleAsWritten(elapsed).value.0 == Accel
    ensures ScheduleAsWritten(elapsed).value.1 < 0.0
    ensures ScheduleAsWritten(10.0) == Some((Accel, -50.0))
  {
  }

  /** The schedule with the ACCEL speed floored at zero: 0 km/h until 20 s, then up to 100 and back. */
  function Schedule(elapsed: real): (r: Option<(Phase, real)>)
    ensures r.None? <==> elapsed >= 60.0
    ensures r.Some? ==> 0.0 <= r.value.1 <= 100.0
    ensures r.Some? ==> (r.value.1 > 0.0 <==> 20.0 < elapsed)
  {
    if elapsed < 10.0 then Some((FixedStop, 0.0))
    else if elapsed < 40.0 then Some((Accel, if elapsed < 20.0 then 0.0 else (elapsed - 20.0) / 20.0 * 100.0))
    else if elapsed < 60.0 then Some((Decel, 100.0 * (1.0 - (elapsed - 40.0) / 20.0)))
    else None
  }

  /** Outside the ten seconds where the written speed is negative, both schedules agree. */
  lemma ScheduleAgrees(elapsed: real)
    ensures ScheduleAsWritten(elapsed).Some? <==> Schedule(elapsed).Some?
    ensures !(10.0 <= elapsed < 20.0) ==> Schedule(elapsed) == ScheduleAsWritten(elapsed)
    ensures 10.0 <= elapsed < 20.0 ==> Schedule(elapsed) == Some((Accel, 0.0))
  {
  }

  const LAT_STEP: real := 0.00001

  /** What one pass of the loop sends: the phase, the speed, the latitude and the fix flags. */
  datatype Tick = Tick(phase: Phase, speed: real, lat: real, status: string, quality: string)

  /** The loop's state: the clock origin, the latitude and the passes sent so far. */
  datatype Sim = Sim(start: real, lat: real, ticks: seq<Tick>)

  /** One pass given the time it reads, as written: rewind past 60 s, otherwise drift north
      while moving and send. */
  function Advance(s: Sim, now: real): Sim {
    match ScheduleAsWritten(now - s.start)
      case None => Sim(now - 10.0, s.lat, s.ticks)
      case Some((phase, speed)) =>
        var lat := if speed > 0.0 then s.lat + LAT_STEP else s.lat;
        var (status, quality) := Flags(false);
        Sim(s.start, lat, s.ticks + [Tick(phase, speed, lat, status, quality)])
  }

  function Replay(s: Sim, clock: seq<real>): Sim
    decreases |clock|
  {
    if |clock| == 0 then s else Advance(Replay(s, clock[..|clock| - 1]), clock[|clock| - 1])
  }

  /** `main`'s loop over the clock readings it takes, one per pass. */
  method Run(start: real, lat0: real, clock: seq<real>) returns (sim: Sim)
    ensures sim == Replay(Sim(start, lat0, []), clock)
  {
    var startTime := start;
    var lat := lat0;
    var ticks: seq<Tick> := [];
    for i := 0 to |clock|
      invariant Sim(startTime, lat, ticks) == Replay(Sim(start, lat0, []), clock[..i])
    {
      assert clock[..i + 1][..i] == clock[..i];
      var elapsed := clock[i] - startTime;
      var phase: Phase;
      var isFixed: bool;
      var speed: real;
      if elapsed < 10.0 {
        phase, isFixed, speed := FixedStop, true, 0.0;
      } else if elapsed < 40.0 {
        phase, isFixed := Accel, true;
        var progress := (elapsed - 20.0) / 20.0;
        speed := progress * 100.0;
      } else if elapsed < 60.0 {
        phase, isFixed := Decel, true;
        var progress := (elapsed - 40.0) / 20.0;
        speed := 100.0 * (1.0 - progress);
      } else {
        startTime := clock[i] - 10.0;
        continue;
      }
      var status := if isFixed then "A" else "V";
      if speed > 0.0 {
        lat := lat + LAT_STEP;
      }
      var quality := if isFixed then "1" else "0";
      ticks := ticks + [Tick(phase, speed, lat, status, quality)];
    }
    assert clock[..|clock|] == clock;
    sim := Sim(startTime, lat, ticks);
  }

  /** A tick's speed as written: within [-50, 100], and negative only while accelerating. */
  predicate SpeedSent(t: Tick) {
    -50.0 <= t.speed <= 100.0 && (t.speed < 0.0 ==> t.phase == Accel)
  }

  /** What every pass sends: a fix, a speed as `SpeedSent` bounds it, and a latitude that moved
      by one step exactly when the speed is positive. */
  ghost predicate Sent(s: Sim) {
    (forall k :: 0 <= k < |s.ticks| ==>
       s.ticks[k].status == "A" && s.ticks[k].quality == "1" && SpeedSent(s.ticks[k])) &&
    (|s.ticks| > 0 ==> s.ticks[|s.ticks| - 1].lat == s.lat) &&
    (forall k :: 0 < k < |s.ticks| ==>
       s.ticks[k].lat == s.ticks[k - 1].lat + (if s.ticks[k].speed > 0.0 then LAT_STEP else 0.0))
  }

  /** One pass keeps `Sent` and only appends. */
  lemma AdvanceSent(s: Sim, now: real)
    requires Sent(s)
    ensures Sent(Advance(s, now))
    ensures |Advance(s, now).ticks| >= |s.ticks| && Advance(s, now).ticks[..|s.ticks|] == s.ticks
  {
    var next := Advance(s, now);
    match ScheduleAsWritten(now - s.start)
      case None =>
        assert next.ticks[..|s.ticks|] == s.ticks;
      case Some((phase, speed)) =>
        var n := |s.ticks|;
        var t := next.ticks[n];
        assert next.ticks == s.ticks + [t];
        assert t.status == "A" && t.quality == "1" && SpeedSent(t);
        assert t.lat == next.lat == s.lat + (if t.speed > 0.0 then LAT_STEP else 0.0);
        forall k | 0 <= k < |next.ticks|
          ensures next.ticks[k].status == "A" && next.ticks[k].quality == "1" && SpeedSent(next.ticks[k])
        {
          if k < n { assert next.ticks[k] == s.ticks[k]; }
        }
        forall k | 0 < k < |next.ticks|
          ensures next.ticks[k].lat == next.ticks[k - 1].lat + (if next.ticks[k].speed > 0.0 then LAT_STEP else 0.0)
        {
          assert next.ticks[k - 1] == s.ticks[k - 1];
          if k < n { assert next.ticks[k] == s.ticks[k]; }
        }
        assert next.ticks[..n] == s.ticks;
  }

  lemma {:induction false} ReplaySent(s: Sim, clock: seq<real>)
    requires Sent(s)
    ensures Sent(Replay(s, clock))
    ensures |Replay(s, clock).ticks| >= |s.ticks| && Replay(s, clock).ticks[..|s.ticks|] == s.ticks
    decreases |clock|
  {
    if |clock| > 0 {
      var prev := Replay(s, clock[..|clock| - 1]);
      ReplaySent(s, clock[..|clock| - 1]);
      AdvanceSent(prev, clock[|clock| - 1]);
      var next := Advance(prev, clock[|clock| - 1]);
      assert next.ticks[..|s.ticks|] == next.ticks[..|prev.ticks|][..|s.ticks|];
    }
  }

  /** A rewind puts the clock at 10 s: the next ten seconds are ACCEL, not FIXED_STOP, at a
      negative speed as written and at 0 km/h in the corrected schedule. */
  lemma RewindLandsInAccel(s: Sim, now: real, later: real)
    requires now - s.start >= 60.0 && now <= later < now + 10.0
    ensures Advance(s, now) == Sim(now - 10.0, s.lat, s.ticks)
    ensures ScheduleAsWritten(later - Advance(s, now).start) == Some((Accel, (later - now - 10.0) * 5.0))
    ensures (later - now - 10.0) * 5.0 < 0.0
    ensures Schedule(later - Advance(s, now).start) == Some((Accel, 0.0))
  {
  }
}
