// The dashboard's CAN receive thread (`unified_receiver` in datagrab.py) and its
// OBD-II query thread (`obd_query`).  One pass of the receive loop is the pure
// function Step; the loop itself is the method Receive, proved against Run.
// Bus reception, the DBC decoder and the wall clock are inputs: each event
// carries what `bus.recv` produced, what the DBC file decodes from the frame,
// and the time at which it was handled.

module CanReceiver {
  import opened Wrappers
  import opened Text

  // Arbitration IDs (11-bit) and OBD-II constants of SAE J1979 / ISO 15765-4.
  const OBD_REQUEST_ID: nat := 0x7DF
  const ECU_REPLY_ID: nat := 0x7E8
  const TCM_REPLY_ID: nat := 0x7E9
  const ENGINE_RPM1_ID: nat := 0x340
  const THROTTLE_STATUS_ID: nat := 0x335
  const WHEEL_SPEEDS_ID: nat := 0x38A
  const BODY_ECU_STATUS_ID: nat := 0x420
  const SERVICE_CURRENT_DATA: byte := 0x01
  const PID_ENGINE_RPM: byte := 0x0C
  const PID_COOLANT_TEMP: byte := 0x05

  const MAX_CONSECUTIVE_ERRORS: nat := 100
  const RPM_ALPHA: real := 0.25
  /** The largest engine speed PID $0C can carry: 0xFFFF / 4. */
  const MAX_OBD_RPM: real := 16383.75

  /** The BODY_ECU_STATUS signals the DBC file yields; None is a signal absent from the decode. */
  datatype BodySignals = BodySignals(
    left: Option<int>, right: Option<int>,
    doorFl: Option<int>, doorFr: Option<int>, doorRl: Option<int>, doorRr: Option<int>, doorBk: Option<int>)

  /** What the DBC decoder yields for a frame; None where decoding raised (caught in the branch). */
  datatype Decoded = Decoded(fuel: Option<real>, speed: Option<real>, body: Option<BodySignals>)

  datatype Frame = Frame(id: nat, data: seq<byte>, dbc: Decoded)

  /** One outcome of `bus.recv`: a timeout, a frame, or the exception it raised. */
  datatype Event =
    | Timeout
    | Received(frame: Frame, now: real)
    | ValueError
    | CanError
    | OtherError

  /** A Qt signal emitted towards the dashboard. */
  datatype Emission =
    | UpdateRpm(krpm: real)
    | UpdateTemp(percent: real)
    | UpdateGear(gear: string)
    | UpdateFuel(fuel: real)
    | UpdateSpeed(speed: real)
    | UpdateTurnSignal(turn: string)
    | UpdateDoorStatus(door: string, closed: bool)

  /** The fields of the global `data_store` that the receive loop writes. */
  datatype Store = Store(
    canHz: nat, canFuel: real, canSpeed: real,
    obdRpm: real, obdTemp: int, obdLastUpdate: real)

  datatype State = State(
    smoothed: real, errorCount: nat, canCount: nat, lastHzCalc: real, store: Store)

  datatype StepResult = StepResult(state: State, out: seq<Emission>, stop: bool)

  datatype Outcome = Outcome(state: State, out: seq<Emission>, stopped: bool)

  function InitialStore(): Store {
    Store(0, 0.0, 0.0, 0.0, 0, 0.0)
  }

  /** Loop-local variables as the thread starts at time `start`. */
  function Init(start: real): State {
    State(0.0, 0, 0, start, InitialStore())
  }

  // ------------------------------------------------------------ OBD replies

  /** PID $0C: engine speed (256·A + B) / 4 from the bytes after the PID. */
  function RawRpm(a: byte, b: byte): (r: real)
    ensures 0.0 <= r <= MAX_OBD_RPM
    ensures r * 4.0 == (a * 256 + b) as real
  {
    (a * 256 + b) as real / 4.0
  }

  /** The exponential moving average with alpha 0.25; a zero average is replaced outright. */
  function Smooth(prev: real, raw: real): (r: real)
    ensures prev == 0.0 ==> r == raw
    ensures prev != 0.0 ==> (prev <= r <= raw || raw <= r <= prev)
    ensures prev != 0.0 ==> r - prev == RPM_ALPHA * (raw - prev)
  {
    if prev == 0.0 then raw else prev * (1.0 - RPM_ALPHA) + raw * RPM_ALPHA
  }

  /** The coolant temperature as a gauge percentage: 40 °C is 0 %, 120 °C is 100 %. */
  function TempPercent(temp: int): (p: real)
    ensures 0.0 <= p <= 100.0
    ensures temp <= 40 ==> p == 0.0
    ensures temp >= 120 ==> p == 100.0
    ensures 40 <= temp <= 120 ==> p * 80.0 == (temp - 40) as real * 100.0
  {
    var x := ((temp - 40) as real / 80.0) * 100.0;
    if x < 0.0 then 0.0 else if x > 100.0 then 100.0 else x
  }

  /** The ECU/TCM reply branch; a short frame leaves everything unchanged. */
  function ObdReply(s: State, id: nat, data: seq<byte>, now: real): (State, seq<Emission>)
    requires id == ECU_REPLY_ID || id == TCM_REPLY_ID
  {
    if |data| < 3 then (s, [])
    else if data[2] == PID_ENGINE_RPM then
      if |data| < 5 then (s, [])
      else
        var raw := RawRpm(data[3], data[4]);
        var sm := Smooth(s.smoothed, raw);
        (s.(smoothed := sm, store := s.store.(obdRpm := raw, obdLastUpdate := now)),
         [UpdateRpm(sm / 1000.0)])
    else if data[2] == PID_COOLANT_TEMP && id == ECU_REPLY_ID then
      if |data| < 4 then (s, [])
      else
        var temp := data[3] as int - 40;
        (s.(store := s.store.(obdTemp := temp)), [UpdateTemp(TempPercent(temp))])
    else (s, [])
  }

  // ----------------------------------------------------------- gear (0x340)

  /** The transmission mode: the low five bits of byte 0. */
  function TransMode(d0: byte): (m: nat)
    ensures m < 32 && m == d0 % 32
  {
    d0 % 32
  }

  /** The gear label for a transmission mode; byte 1 tells P from N in mode 0. */
  function GearLabel(mode: nat, d1: byte): string {
    if mode == 0 then (if d1 % 16 == 4 then "N" else "P")
    else if mode == 1 then "D"
    else if mode == 7 then "R"
    else DecOf(mode)
  }

  /** The gear a 0x340 frame yields; None where indexing raises (caught in the branch). */
  function Gear340(data: seq<byte>): Option<string> {
    if |data| == 0 then None
    else
      var mode := TransMode(data[0]);
      if mode == 0 && |data| < 2 then None
      else Some(GearLabel(mode, if mode == 0 then data[1] else 0))
  }

  /** The statistics counter after one more 0x340 frame at time `now`. */
  function CountHz(s: State, now: real): State {
    var c := s.canCount + 1;
    if now - s.lastHzCalc >= 1.0 then s.(canCount := 0, lastHzCalc := now, store := s.store.(canHz := c))
    else s.(canCount := c)
  }

  // -------------------------------------------------- turn signals and doors

  /** The turn-signal state sent for the decoded left/right indicator pair. */
  function TurnSignalState(left: int, right: int): string {
    if left == 1 && right == 1 then "both_on"
    else if left == 1 && right == 0 then "left_on"
    else if left == 0 && right == 1 then "right_on"
    else "off"
  }

  function OrZero(v: Option<int>): int {
    if v.Some? then v.value else 0
  }

  const DOOR_NAMES: seq<string> := ["FL", "FR", "RL", "RR", "BK"]

  function DoorValues(b: BodySignals): seq<int> {
    [OrZero(b.doorFl), OrZero(b.doorFr), OrZero(b.doorRl), OrZero(b.doorRr), OrZero(b.doorBk)]
  }

  function DoorEmissions(b: BodySignals): seq<Emission> {
    var v := DoorValues(b);
    seq(5, k requires 0 <= k < 5 => UpdateDoorStatus(DOOR_NAMES[k], v[k] == 0))
  }

  function BodyEmissions(b: BodySignals): seq<Emission> {
    [UpdateTurnSignal(TurnSignalState(OrZero(b.left), OrZero(b.right)))] + DoorEmissions(b)
  }

  // --------------------------------------------------------- one loop pass

  /** The branch chosen by arbitration ID, after the error counter was reset. */
  function Dispatch(s: State, f: Frame, now: real): (State, seq<Emission>) {
    if f.id == ECU_REPLY_ID || f.id == TCM_REPLY_ID then ObdReply(s, f.id, f.data, now)
    else if f.id == ENGINE_RPM1_ID then
      match Gear340(f.data)
        case None => (s, [])
        case Some(g) => (CountHz(s, now), [UpdateGear(g)])
    else if f.id == THROTTLE_STATUS_ID then
      match f.dbc.fuel
        case None => (s, [])
        case Some(v) => (s.(store := s.store.(canFuel := v)), [UpdateFuel(v)])
    else if f.id == WHEEL_SPEEDS_ID then
      match f.dbc.speed
        case None => (s, [])
        case Some(v) => (s.(store := s.store.(canSpeed := v)), [UpdateSpeed(v)])
    else if f.id == BODY_ECU_STATUS_ID then
      match f.dbc.body
        case None => (s, [])
        case Some(b) => (s, BodyEmissions(b))
    else (s, [])
  }

  /** A receive error: the counter grows; a CAN or unexpected error stops the loop at the limit. */
  function Failure(s: State, fatal: bool): StepResult {
    var c := s.errorCount + 1;
    StepResult(s.(errorCount := c), [], fatal && c >= MAX_CONSECUTIVE_ERRORS)
  }

  /** One pass of the receive loop's body. */
  function Step(s: State, e: Event): StepResult {
    match e
      case Timeout => StepResult(s, [], false)
      case Received(f, now) =>
        var (s', out) := Dispatch(s.(errorCount := 0), f, now);
        StepResult(s', out, false)
      case ValueError => Failure(s, false)
      case CanError => Failure(s, true)
      case OtherError => Failure(s, true)
  }

  /** The receive loop over a finite run of events, up to the `break`. */
  function Run(s: State, events: seq<Event>): Outcome
    decreases |events|
  {
    if |events| == 0 then Outcome(s, [], false)
    else
      var r := Step(s, events[0]);
      if r.stop then Outcome(r.state, r.out, true)
      else
        var rest := Run(r.state, events[1..]);
        Outcome(rest.state, r.out + rest.out, rest.stopped)
  }

  /** `unified_receiver`: the `while not stop_threads` loop fed with `events`. */
  method Receive(events: seq<Event>, start: real) returns (s: State, out: seq<Emission>, stopped: bool)
    ensures Run(Init(start), events) == Outcome(s, out, stopped)
  {
    s := Init(start);
    out := [];
    stopped := false;
    var i := 0;
    while i < |events|
      invariant 0 <= i <= |events|
      invariant var r := Run(s, events[i..]); Run(Init(start), events) == Outcome(r.state, out + r.out, r.stopped)
    {
      var r := Step(s, events[i]);
      assert events[i..][1..] == events[i + 1..];
      out := out + r.out;
      s := r.state;
      if r.stop {
        stopped := true;
        return;
      }
      i := i + 1;
    }
  }

  // ------------------------------------------------------------- properties

  /** A received frame always resets the error counter; a timeout leaves the state as it was. */
  lemma StepErrorCounter(s: State, e: Event)
    ensures e.Timeout? ==> Step(s, e) == StepResult(s, [], false)
    ensures e.Received? ==> Step(s, e).state.errorCount == 0 && !Step(s, e).stop
    ensures e.ValueError? ==> Step(s, e).state.errorCount == s.errorCount + 1 && !Step(s, e).stop
    ensures (e.CanError? || e.OtherError?) ==>
      Step(s, e).state.errorCount == s.errorCount + 1 &&
      (Step(s, e).stop <==> s.errorCount + 1 >= MAX_CONSECUTIVE_ERRORS)
    ensures !e.Received? ==> Step(s, e).out == []
  {
  }

  /** The receive failures since the last received frame; a timeout neither counts nor resets. */
  function TrailingFailures(events: seq<Event>): nat
    decreases |events|
  {
    if |events| == 0 then 0
    else
      var e := events[|events| - 1];
      if e.Received? then 0
      else TrailingFailures(events[..|events| - 1]) + (if e.Timeout? then 0 else 1)
  }

  predicate AnyReceived(events: seq<Event>) {
    exists i :: 0 <= i < |events| && events[i].Received?
  }

  lemma AnyReceivedSnoc(p: seq<Event>, e: Event)
    requires !e.Received?
    ensures AnyReceived(p + [e]) <==> AnyReceived(p)
  {
    var q := p + [e];
    if AnyReceived(q) {
      var i :| 0 <= i < |q| && q[i].Received?;
      assert i < |p| && p[i] == q[i];
    }
    if AnyReceived(p) {
      var i :| 0 <= i < |p| && p[i].Received?;
      assert q[i] == p[i];
    }
  }

  /** Once the loop has stopped, later events change nothing. */
  lemma {:induction false} RunStoppedExtends(s: State, p: seq<Event>, q: seq<Event>)
    requires Run(s, p).stopped
    ensures Run(s, p + q) == Run(s, p)
    decreases |p|
  {
    var r := Step(s, p[0]);
    assert (p + q)[0] == p[0];
    if !r.stop {
      assert (p + q)[1..] == p[1..] + q;
      RunStoppedExtends(r.state, p[1..], q);
    }
  }

  /** One more event after a run that did not stop is one more pass of the loop. */
  lemma {:induction false} RunSnoc(s: State, p: seq<Event>, e: Event)
    requires !Run(s, p).stopped
    ensures var r := Step(Run(s, p).state, e);
      Run(s, p + [e]) == Outcome(r.state, Run(s, p).out + r.out, r.stop)
    decreases |p|
  {
    if |p| == 0 {
      assert p + [e] == [e] && [e][1..] == [];
      var r := Step(s, e);
      assert r.out + [] == r.out;
    } else {
      var r0 := Step(s, p[0]);
      var q := p + [e];
      assert q[0] == p[0] && q[1..] == p[1..] + [e];
      RunSnoc(r0.state, p[1..], e);
      var mid := Run(r0.state, p[1..]);
      var r := Step(mid.state, e);
      assert r0.out + (mid.out + r.out) == (r0.out + mid.out) + r.out;
    }
  }

  /** The error counter after a run that did not stop: the failures since the last frame, on
      top of the starting counter when no frame arrived. */
  lemma {:induction false} RunErrorCount(s: State, events: seq<Event>)
    requires !Run(s, events).stopped
    ensures Run(s, events).state.errorCount ==
      TrailingFailures(events) + (if AnyReceived(events) then 0 else s.errorCount)
    decreases |events|
  {
    if |events| > 0 {
      var p := events[..|events| - 1];
      var e := events[|events| - 1];
      assert events == p + [e];
      if Run(s, p).stopped {
        RunStoppedExtends(s, p, [e]);
        assert false;
      }
      RunErrorCount(s, p);
      RunSnoc(s, p, e);
      if e.Received? {
        assert AnyReceived(events) by { assert events[|events| - 1].Received?; }
      } else {
        AnyReceivedSnoc(p, e);
      }
    }
  }

  /** The event at which a stopped run stops, after a prefix that did not. */
  lemma {:induction false} StopIndex(s: State, events: seq<Event>) returns (k: nat)
    requires Run(s, events).stopped
    ensures k < |events| && !Run(s, events[..k]).stopped
    ensures Step(Run(s, events[..k]).state, events[k]).stop
    decreases |events|
  {
    var r := Step(s, events[0]);
    if r.stop {
      k := 0;
      assert events[..0] == [];
    } else {
      var j := StopIndex(r.state, events[1..]);
      k := j + 1;
      assert events[..k][0] == events[0] && events[..k][1..] == events[1..][..j];
      assert events[k] == events[1..][j];
    }
  }

  /**
   * The loop stops only at a CAN or unexpected error that brings the consecutive
   * failures to 100: those since the last received frame, counted on top of the
   * starting counter when no frame arrived; so at least 100 events must be seen.
   */
  lemma {:induction false} RunStopNeedsErrors(s: State, events: seq<Event>)
    requires Run(s, events).stopped
    ensures s.errorCount + |events| >= MAX_CONSECUTIVE_ERRORS
    ensures exists k ::
              0 <= k < |events| && (events[k].CanError? || events[k].OtherError?) &&
              !Run(s, events[..k]).stopped &&
              TrailingFailures(events[..k + 1]) + (if AnyReceived(events[..k + 1]) then 0 else s.errorCount)
                >= MAX_CONSECUTIVE_ERRORS
    decreases |events|
  {
    var r := Step(s, events[0]);
    if !r.stop {
      RunStopNeedsErrors(r.state, events[1..]);
      assert r.state.errorCount <= s.errorCount + 1;
    }
    var k := StopIndex(s, events);
    RunErrorCount(s, events[..k]);
    var e := events[k];
    assert e.CanError? || e.OtherError?;
    assert events[..k + 1] == events[..k] + [e];
    assert events[..k + 1][..k] == events[..k];
    AnyReceivedSnoc(events[..k], e);
  }

  /** The smoothed engine speed stays within what PID $0C can express. */
  lemma {:induction false} RunKeepsSmoothedInRange(s: State, events: seq<Event>)
    requires 0.0 <= s.smoothed <= MAX_OBD_RPM
    ensures 0.0 <= Run(s, events).state.smoothed <= MAX_OBD_RPM
    decreases |events|
  {
    if |events| > 0 {
      var r := Step(s, events[0]);
      if !r.stop {
        RunKeepsSmoothedInRange(r.state, events[1..]);
      }
    }
  }

  /** A PID $0C reply of at least five bytes from the ECU or TCM publishes the smoothed speed in thousands. */
  lemma ObdRpmReply(s: State, id: nat, data: seq<byte>, now: real)
    requires id == ECU_REPLY_ID || id == TCM_REPLY_ID
    requires |data| >= 5 && data[2] == PID_ENGINE_RPM
    ensures var (s', out) := Dispatch(s, Frame(id, data, Decoded(None, None, None)), now);
      s'.store.obdRpm * 4.0 == (256 * data[3] as int + data[4]) as real &&
      s'.smoothed == Smooth(s.smoothed, s'.store.obdRpm) &&
      out == [UpdateRpm(s'.smoothed / 1000.0)] &&
      s'.errorCount == s.errorCount && s'.canCount == s.canCount
  {
  }

  /** OBD frames shorter than the PID needs, or from any other ID than ECU/TCM, never update RPM or temperature. */
  lemma ObdIgnored(s: State, f: Frame, now: real)
    requires f.id == ECU_REPLY_ID || f.id == TCM_REPLY_ID
    requires |f.data| < 3
      || (f.data[2] == PID_ENGINE_RPM && |f.data| < 5)
      || (f.data[2] == PID_COOLANT_TEMP && (f.id == TCM_REPLY_ID || |f.data| < 4))
      || (f.data[2] != PID_ENGINE_RPM && f.data[2] != PID_COOLANT_TEMP)
    ensures Dispatch(s, f, now) == (s, [])
  {
  }

  /** A PID $05 reply from the ECU publishes the clamped coolant percentage of A − 40. */
  lemma ObdTempReply(s: State, data: seq<byte>, now: real, dbc: Decoded)
    requires |data| >= 4 && data[2] == PID_COOLANT_TEMP
    ensures var (s', out) := Dispatch(s, Frame(ECU_REPLY_ID, data, dbc), now);
      s'.store.obdTemp == data[3] as int - 40 && s'.smoothed == s.smoothed &&
      out == [UpdateTemp(TempPercent(data[3] as int - 40))]
  {
  }

  /** Every 0x340 frame long enough to index emits exactly one gear; a shorter one emits nothing. */
  lemma GearFrame(s: State, f: Frame, now: real)
    requires f.id == ENGINE_RPM1_ID
    ensures var (_, out) := Dispatch(s, f, now);
      (|f.data| >= 2 || (|f.data| == 1 && f.data[0] % 32 != 0)) <==> (|out| == 1 && out[0].UpdateGear?)
    ensures var (_, out) := Dispatch(s, f, now); |out| <= 1
  {
  }

  /** The gear letters for the four modes the dashboard knows, and the decimal mode for the rest. */
  lemma {:induction false} GearLabels(mode: nat, d1: byte)
    requires mode < 32
    ensures mode == 0 ==> GearLabel(mode, d1) == (if d1 % 16 == 4 then "N" else "P")
    ensures mode == 1 ==> GearLabel(mode, d1) == "D"
    ensures mode == 7 ==> GearLabel(mode, d1) == "R"
    ensures GearLabel(mode, d1) in {"P", "N", "D", "R"} <==> mode in {0, 1, 7}
    ensures mode !in {0, 1, 7} ==> ParseDec(GearLabel(mode, d1)) == Some(mode)
  {
    if mode !in {0, 1, 7} {
      DecRoundTrip(mode);
      var g := DecOf(mode);
      assert '0' <= g[0] <= '9';
      assert g != "P" && g != "N" && g != "D" && g != "R";
    }
  }

  /** The indicator mapping in both directions, including the hazard case. */
  lemma TurnSignalMapping(left: int, right: int)
    ensures TurnSignalState(left, right) == "both_on" <==> left == 1 && right == 1
    ensures TurnSignalState(left, right) == "left_on" <==> left == 1 && right == 0
    ensures TurnSignalState(left, right) == "right_on" <==> left == 0 && right == 1
    ensures TurnSignalState(left, right) == "off" <==>
      !((left == 1 && right == 1) || (left == 1 && right == 0) || (left == 0 && right == 1))
  {
  }

  /** The expected table of the turn-signal logic test. */
  lemma TurnSignalTable()
    ensures TurnSignalState(0, 0) == "off"
    ensures TurnSignalState(1, 0) == "left_on"
    ensures TurnSignalState(0, 1) == "right_on"
    ensures TurnSignalState(1, 1) == "both_on"
  {
  }

  /** A body frame emits the turn state, then FL, FR, RL, RR, BK with closed iff the value is 0 (absent reads 0). */
  lemma BodyFrame(s: State, f: Frame, now: real)
    requires f.id == BODY_ECU_STATUS_ID && f.dbc.body.Some?
    ensures var (s', out) := Dispatch(s, f, now); var b := f.dbc.body.value;
      s' == s && |out| == 6 &&
      out[0] == UpdateTurnSignal(TurnSignalState(OrZero(b.left), OrZero(b.right))) &&
      (forall k :: 1 <= k < 6 ==> out[k].UpdateDoorStatus? && out[k].door == DOOR_NAMES[k - 1]) &&
      (out[1].closed <==> b.doorFl.None? || b.doorFl.value == 0) &&
      (out[2].closed <==> b.doorFr.None? || b.doorFr.value == 0) &&
      (out[3].closed <==> b.doorRl.None? || b.doorRl.value == 0) &&
      (out[4].closed <==> b.doorRr.None? || b.doorRr.value == 0) &&
      (out[5].closed <==> b.doorBk.None? || b.doorBk.value == 0)
  {
  }

  // ------------------------------------------------------------- OBD query

  datatype Message = Message(id: nat, data: seq<byte>)

  /** An ISO 15765-2 single frame carrying a two-byte Service $01 request for `pid`, padded to 8 bytes. */
  function ObdRequest(pid: byte): Message {
    Message(OBD_REQUEST_ID, [0x02, SERVICE_CURRENT_DATA, pid, 0, 0, 0, 0, 0])
  }

  /** The frames one `obd_query` cycle sends, in order. */
  function QueryCycle(mode: string): (msgs: seq<Message>)
    ensures mode == "CAN_ONLY" <==> msgs == []
    ensures forall k :: 0 <= k < |msgs| ==>
      msgs[k].id == OBD_REQUEST_ID && |msgs[k].data| == 8 &&
      msgs[k].data[0] == 2 && msgs[k].data[1] == SERVICE_CURRENT_DATA &&
      forall j :: 3 <= j < 8 ==> msgs[k].data[j] == 0
    ensures mode != "CAN_ONLY" ==>
      |msgs| == 2 && msgs[0].data[2] == PID_ENGINE_RPM && msgs[1].data[2] == PID_COOLANT_TEMP
  {
    if mode == "CAN_ONLY" then [] else [ObdRequest(PID_ENGINE_RPM), ObdRequest(PID_COOLANT_TEMP)]
  }
}
