// The RPM candidate scanner (rpm_scanner.py): while an OBD-II engine-speed
// reply gives a baseline, every adjacent byte pair of every other frame is read
// big- and little-endian, scaled by five factors, and each reading within 50 rpm
// of the baseline scores one point for its (ID, offset, endianness, factor)
// key.  The bus is an input (one optional message per receive); the console
// report is returned as a list of hits.

module RpmScanner {
  import opened Wrappers
  import opened Text
  import CanReceiver

  datatype Endian = BE | LE

  /** The scale factors tried: 1, 0.5, 0.25, 2 and 4. */
  datatype Factor = One | Half | Quarter | Two | Four

  function FactorValue(f: Factor): real {
    match f
      case One => 1.0
      case Half => 0.5
      case Quarter => 0.25
      case Two => 2.0
      case Four => 4.0
  }

  /** `val * factor`, written per factor so that it stays linear. */
  function Scale(val: nat, f: Factor): real {
    match f
      case One => val as real
      case Half => val as real / 2.0
      case Quarter => val as real / 4.0
      case Two => 2.0 * val as real
      case Four => 4.0 * val as real
  }

  lemma ScaleIsProduct(val: nat, f: Factor)
    ensures Scale(val, f) == val as real * FactorValue(f)
  {
  }

  /** A candidate encoding: frame ID, first byte of the pair, byte order and scale factor. */
  datatype Key = Key(id: nat, start: nat, endian: Endian, factor: Factor)

  /** A console report: the first confirmation (`first`) or a tracking line. */
  datatype Hit = Hit(key: Key, count: nat, reading: real, first: bool)

  /** The counters and the hits reported so far. */
  datatype Tally = Tally(counts: map<Key, nat>, hits: seq<Hit>)

  const FACTORS: seq<Factor> := [One, Half, Quarter, Two, Four]
  const ENDIANS: seq<Endian> := [BE, LE]
  const MIN_BASELINE: real := 300.0
  const TOLERANCE: real := 50.0
  const FIRST_REPORT: nat := 10
  const REPORT_EVERY: nat := 50

  /** The query `obd_query_thread` sends: Service $01, PID $0C on 0x7DF. */
  const QUERY: CanReceiver.Message := CanReceiver.Message(0x7DF, [0x02, 0x01, 0x0C, 0, 0, 0, 0, 0])

  lemma QueryIsEngineSpeedRequest()
    ensures QUERY == CanReceiver.ObdRequest(CanReceiver.PID_ENGINE_RPM)
  {
  }

  function Count(counts: map<Key, nat>, key: Key): nat {
    if key in counts then counts[key] else 0
  }

  /** The 16-bit reading of bytes i and i+1 in the given byte order. */
  function PairValue(data: seq<byte>, i: nat, endian: Endian): (v: nat)
    requires i + 1 < |data|
    ensures v < 65536
  {
    if endian == BE then data[i] as int * 256 + data[i + 1] as int else data[i + 1] as int * 256 + data[i] as int
  }

  predicate Near(scaled: real, baseline: real) {
    -TOLERANCE < scaled - baseline < TOLERANCE
  }

  /** One test of one key: a reading near the baseline scores a point and may be reported. */
  function Trial(t: Tally, key: Key, val: nat, baseline: real): Tally {
    var scaled := Scale(val, key.factor);
    if Near(scaled, baseline) then
      var count := Count(t.counts, key) + 1;
      var counts := t.counts[key := count];
      if count == FIRST_REPORT then Tally(counts, t.hits + [Hit(key, count, scaled, true)])
      else if count % REPORT_EVERY == 0 then Tally(counts, t.hits + [Hit(key, count, scaled, false)])
      else Tally(counts, t.hits)
    else t
  }

  /** A trial adds one point to its own key when the scaled reading is within 50 of the baseline, and touches no other key. */
  lemma TrialCount(t: Tally, key: Key, val: nat, baseline: real, k: Key)
    ensures Count(Trial(t, key, val, baseline).counts, k) ==
      Count(t.counts, k) + (if k == key && Near(Scale(val, key.factor), baseline) then 1 else 0)
  {
  }

  /** A hit is appended exactly when a point brings the count to 10 or to a multiple of 50; it carries the new count. */
  lemma TrialHits(t: Tally, key: Key, val: nat, baseline: real)
    ensures var r := Trial(t, key, val, baseline);
      |t.hits| <= |r.hits| <= |t.hits| + 1 && r.hits[..|t.hits|] == t.hits &&
      (|r.hits| == |t.hits| + 1 <==>
        Near(Scale(val, key.factor), baseline) &&
        (Count(r.counts, key) == FIRST_REPORT || Count(r.counts, key) % REPORT_EVERY == 0)) &&
      (|r.hits| == |t.hits| + 1 ==>
        r.hits[|t.hits|].key == key && r.hits[|t.hits|].count == Count(r.counts, key) &&
        r.hits[|t.hits|].reading == Scale(val, key.factor) &&
        (r.hits[|t.hits|].first <==> r.hits[|t.hits|].count == FIRST_REPORT))
  {
  }

  /** The first f factors tried on one reading. */
  function Factors(t: Tally, id: nat, i: nat, endian: Endian, val: nat, baseline: real, f: nat): (r: Tally)
    requires f <= |FACTORS|
    decreases f
  {
    if f == 0 then t
    else Trial(Factors(t, id, i, endian, val, baseline, f - 1), Key(id, i, endian, FACTORS[f - 1]), val, baseline)
  }

  /** Both byte orders of the pair at i, as far as the first e of them. */
  function Endians(t: Tally, id: nat, data: seq<byte>, i: nat, baseline: real, e: nat): (r: Tally)
    requires i + 1 < |data| && e <= |ENDIANS|
    decreases e
  {
    if e == 0 then t
    else
      var endian := ENDIANS[e - 1];
      Factors(Endians(t, id, data, i, baseline, e - 1), id, i, endian, PairValue(data, i, endian), baseline, |FACTORS|)
  }

  /** The pairs starting at offsets 0 .. n-1. */
  function Pairs(t: Tally, id: nat, data: seq<byte>, baseline: real, n: nat): (r: Tally)
    requires n < |data|
    decreases n
  {
    if n == 0 then t else Endians(Pairs(t, id, data, baseline, n - 1), id, data, n - 1, baseline, |ENDIANS|)
  }

  /** Whether a frame scores a point for a key. */
  predicate Scores(key: Key, id: nat, data: seq<byte>, baseline: real) {
    key.id == id && key.start + 1 < |data| &&
    Near(Scale(PairValue(data, key.start, key.endian), key.factor), baseline)
  }

  lemma {:induction false} FactorsCount(t: Tally, id: nat, i: nat, endian: Endian, val: nat, baseline: real, f: nat, key: Key)
    requires f <= |FACTORS|
    ensures var r := Factors(t, id, i, endian, val, baseline, f);
      Count(r.counts, key) == Count(t.counts, key) +
        (if key.id == id && key.start == i && key.endian == endian && key.factor in FACTORS[..f] &&
            Near(Scale(val, key.factor), baseline) then 1 else 0)
    decreases f
  {
    if f > 0 {
      FactorsCount(t, id, i, endian, val, baseline, f - 1, key);
      TrialCount(Factors(t, id, i, endian, val, baseline, f - 1), Key(id, i, endian, FACTORS[f - 1]), val, baseline, key);
      assert FACTORS[..f] == FACTORS[..f - 1] + [FACTORS[f - 1]];
      assert FACTORS[f - 1] !in FACTORS[..f - 1];
    }
  }

  lemma {:induction false} EndiansCount(t: Tally, id: nat, data: seq<byte>, i: nat, baseline: real, e: nat, key: Key)
    requires i + 1 < |data| && e <= |ENDIANS|
    ensures var r := Endians(t, id, data, i, baseline, e);
      Count(r.counts, key) == Count(t.counts, key) +
        (if key.start == i && key.endian in ENDIANS[..e] && Scores(key, id, data, baseline) then 1 else 0)
    decreases e
  {
    if e > 0 {
      var prev := Endians(t, id, data, i, baseline, e - 1);
      var endian := ENDIANS[e - 1];
      var val := PairValue(data, i, endian);
      EndiansCount(t, id, data, i, baseline, e - 1, key);
      FactorsCount(prev, id, i, endian, val, baseline, |FACTORS|, key);
      assert FACTORS[..|FACTORS|] == FACTORS;
      assert key.factor in FACTORS by {
        assert key.factor == FACTORS[0] || key.factor == FACTORS[1] || key.factor == FACTORS[2] ||
          key.factor == FACTORS[3] || key.factor == FACTORS[4];
      }
      assert ENDIANS[..e] == ENDIANS[..e - 1] + [endian];
      assert endian !in ENDIANS[..e - 1];
      if key.start == i && key.endian == endian {
        assert key.id == id && Near(Scale(val, key.factor), baseline) <==>
          Scores(key, id, data, baseline);
      }
    }
  }

  lemma {:induction false} PairsCount(t: Tally, id: nat, data: seq<byte>, baseline: real, n: nat, key: Key)
    requires n < |data|
    ensures Count(Pairs(t, id, data, baseline, n).counts, key) ==
      Count(t.counts, key) + (if key.start < n && Scores(key, id, data, baseline) then 1 else 0)
    decreases n
  {
    if n > 0 {
      PairsCount(t, id, data, baseline, n - 1, key);
      EndiansCount(Pairs(t, id, data, baseline, n - 1), id, data, n - 1, baseline, |ENDIANS|, key);
      assert ENDIANS[..|ENDIANS|] == ENDIANS;
      assert key.endian == ENDIANS[0] || key.endian == ENDIANS[1];
    }
  }

  /** Scanning one frame scores exactly one point for each key the frame matches and none for any other key. */
  lemma ScanCount(t: Tally, id: nat, data: seq<byte>, baseline: real, key: Key)
    requires |data| >= 2
    ensures Count(Pairs(t, id, data, baseline, |data| - 1).counts, key) ==
      Count(t.counts, key) + (if Scores(key, id, data, baseline) then 1 else 0)
  {
    PairsCount(t, id, data, baseline, |data| - 1, key);
  }

  // ------------------------------------------------------------ receive step

  /** After one receive: the new counters, baseline and hits, or the crash an out-of-range index causes. */
  datatype Outcome = Scanned(counts: map<Key, nat>, baseline: real, hits: seq<Hit>) | Crash

  /** Frames the scan never scores: the IDs it skips. */
  predicate Skipped(id: nat) {
    id == CanReceiver.ECU_REPLY_ID || id == CanReceiver.OBD_REQUEST_ID || id == CanReceiver.ENGINE_RPM1_ID
  }

  /** One pass of the `while True` loop in `scanner_main`. */
  function Step(counts: map<Key, nat>, baseline: real, msg: Option<CanReceiver.Message>): Outcome {
    match msg
      case None => Scanned(counts, baseline, [])
      case Some(m) =>
        if m.id == CanReceiver.ECU_REPLY_ID && |m.data| < 3 then Crash
        else if m.id == CanReceiver.ECU_REPLY_ID && m.data[2] == CanReceiver.PID_ENGINE_RPM then
          if |m.data| < 5 then Crash
          else Scanned(counts, (m.data[3] as int * 256 + m.data[4] as int) as real / 4.0, [])
        else if baseline < MIN_BASELINE || |m.data| < 2 || Skipped(m.id) then Scanned(counts, baseline, [])
        else
          var t := Pairs(Tally(counts, []), m.id, m.data, baseline, |m.data| - 1);
          Scanned(t.counts, baseline, t.hits)
  }

  /** An engine-speed reply of five bytes or more sets the baseline to (256·A + B)/4 and scores nothing. */
  lemma BaselineUpdate(counts: map<Key, nat>, baseline: real, data: seq<byte>)
    requires |data| >= 5 && data[2] == 0x0C
    ensures Step(counts, baseline, Some(CanReceiver.Message(0x7E8, data))) ==
      Scanned(counts, CanReceiver.RawRpm(data[3], data[4]), [])
  {
  }

  /** Nothing scores before a baseline of 300 rpm, on frames under two bytes, or on the skipped IDs. */
  lemma NoScore(counts: map<Key, nat>, baseline: real, m: CanReceiver.Message)
    requires m.id != CanReceiver.ECU_REPLY_ID
    requires baseline < MIN_BASELINE || |m.data| < 2 || Skipped(m.id)
    ensures Step(counts, baseline, Some(m)) == Scanned(counts, baseline, [])
  {
  }

  /** Counts never decrease, and a scanned frame adds exactly the point it scores for each key. */
  lemma StepCounts(counts: map<Key, nat>, baseline: real, msg: Option<CanReceiver.Message>, key: Key)
    requires Step(counts, baseline, msg).Scanned?
    ensures var r := Step(counts, baseline, msg);
      Count(r.counts, key) >= Count(counts, key) &&
      (msg.Some? && !Skipped(msg.value.id) && baseline >= MIN_BASELINE ==>
        Count(r.counts, key) == Count(counts, key) + (if Scores(key, msg.value.id, msg.value.data, baseline) then 1 else 0))
  {
    if msg.Some? {
      var m := msg.value;
      if !Skipped(m.id) && baseline >= MIN_BASELINE && |m.data| >= 2 {
        ScanCount(Tally(counts, []), m.id, m.data, baseline, key);
      } else if !Skipped(m.id) && baseline >= MIN_BASELINE {
        assert !Scores(key, m.id, m.data, baseline);
      }
    }
  }

  /** A short reply on 0x7E8 stops the scanner: the index error is not caught. */
  lemma ShortReplyCrashes(counts: map<Key, nat>, baseline: real, data: seq<byte>)
    requires |data| < 3 || (data[2] == 0x0C && |data| < 5)
    ensures Step(counts, baseline, Some(CanReceiver.Message(0x7E8, data))) == Crash
  {
  }

  // ------------------------------------------------------------ the scanner

  class Scanner {
    /** `candidates` */
    var counts: map<Key, nat>
    /** `current_obd_rpm` */
    var baseline: real

    constructor()
      ensures counts == map[] && baseline == 0.0
    {
      counts := map[];
      baseline := 0.0;
    }

    /** One receive, with the nested candidate loops of the source. */
    method Receive(msg: Option<CanReceiver.Message>) returns (crashed: bool, hits: seq<Hit>)
      modifies this
      ensures crashed <==> Step(old(counts), old(baseline), msg).Crash?
      ensures !crashed ==> Step(old(counts), old(baseline), msg) == Scanned(counts, baseline, hits)
    {
      hits := [];
      crashed := false;
      if msg.None? {
        return;
      }
      var m := msg.value;
      if m.id == CanReceiver.ECU_REPLY_ID {
        if |m.data| < 3 {
          crashed := true;
          return;
        }
        if m.data[2] == CanReceiver.PID_ENGINE_RPM {
          if |m.data| < 5 {
            crashed := true;
            return;
          }
          baseline := (m.data[3] as int * 256 + m.data[4] as int) as real / 4.0;
          return;
        }
      }
      if baseline < MIN_BASELINE {
        return;
      }
      var data := m.data;
      var dlc := |data|;
      if dlc < 2 {
        return;
      }
      if m.id == CanReceiver.ECU_REPLY_ID || m.id == CanReceiver.OBD_REQUEST_ID {
        return;
      }
      if m.id == CanReceiver.ENGINE_RPM1_ID {
        return;
      }
      ghost var start := Tally(counts, []);
      for i := 0 to dlc - 1
        invariant baseline == old(baseline)
        invariant Tally(counts, hits) == Pairs(start, m.id, data, baseline, i)
      {
        hits := ScanPair(m.id, data, i, hits);
      }
    }

    /** Both byte orders of the pair at offset i. */
    method ScanPair(id: nat, data: seq<byte>, i: nat, hitsIn: seq<Hit>) returns (hits: seq<Hit>)
      requires i + 1 < |data|
      modifies this`counts
      ensures Tally(counts, hits) == Endians(Tally(old(counts), hitsIn), id, data, i, baseline, |ENDIANS|)
    {
      hits := hitsIn;
      var valBe := data[i] as int * 256 + data[i + 1] as int;
      var valLe := data[i + 1] as int * 256 + data[i] as int;
      var readings := [valBe, valLe];
      ghost var before := Tally(counts, hits);
      for e := 0 to 2
        invariant Tally(counts, hits) == Endians(before, id, data, i, baseline, e)
      {
        assert readings[e] == PairValue(data, i, ENDIANS[e]);
        hits := ScanReading(id, i, ENDIANS[e], readings[e], hits);
      }
    }

    /** The five factors tried on one reading. */
    method ScanReading(id: nat, i: nat, endian: Endian, val: nat, hitsIn: seq<Hit>) returns (hits: seq<Hit>)
      modifies this`counts
      ensures Tally(counts, hits) == Factors(Tally(old(counts), hitsIn), id, i, endian, val, baseline, |FACTORS|)
    {
      hits := hitsIn;
      ghost var inner := Tally(counts, hits);
      for f := 0 to 5
        invariant Tally(counts, hits) == Factors(inner, id, i, endian, val, baseline, f)
      {
        hits := TryFactor(Key(id, i, endian, FACTORS[f]), val, hits);
      }
    }

    /** One factor tried on one reading: the body of the innermost loop. */
    method TryFactor(key: Key, val: nat, hitsIn: seq<Hit>) returns (hits: seq<Hit>)
      modifies this`counts
      ensures Tally(counts, hits) == Trial(Tally(old(counts), hitsIn), key, val, baseline)
    {
      hits := hitsIn;
      var scaled := Scale(val, key.factor);
      if -TOLERANCE < scaled - baseline < TOLERANCE {
        var count := (if key in counts then counts[key] else 0) + 1;
        counts := counts[key := count];
        if count == FIRST_REPORT {
          hits := hits + [Hit(key, count, scaled, true)];
        } else if count % REPORT_EVERY == 0 {
          hits := hits + [Hit(key, count, scaled, false)];
        }
      }
    }
  }
}
