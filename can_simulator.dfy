// The python-can vehicle simulator (can_simulator.py): how the gear selects the
// TRANS_MODE signal and the RPM fields sent with it, and how OBD-II requests
// are answered.  The vehicle's engine speed and coolant temperature are inputs.

module CanSimulator {
  import opened Wrappers
  import opened Text
  import CanReceiver

  type Message = CanReceiver.Message

  const RESPONSE_SERVICE: byte := 0x41

  /** The TRANS_MODE value sent for the simulated gear (7 is R, 1 is D, anything else P/N). */
  function TransModeFor(gear: int): (m: nat)
    ensures m in {0, 1, 7}
    ensures m == 7 <==> gear == 7
    ensures m == 1 <==> gear == 1
  {
    if gear == 7 then 7 else if gear == 1 then 1 else 0
  }

  /** The GEAR_RPM_SPEED_STATUS signals `send_vehicle_data` assembles. */
  function RpmSignals(gear: int, rpm: real): (sig: map<string, int>)
    ensures "TRANS_MODE" in sig && sig["TRANS_MODE"] == TransModeFor(gear)
    ensures sig["TRANS_MODE"] == 0 ==> sig.Keys == {"TRANS_MODE", "ENGINE_RPM_PN"} && sig["ENGINE_RPM_PN"] == Trunc(rpm)
    ensures sig["TRANS_MODE"] == 1 ==>
      sig.Keys == {"TRANS_MODE", "ENGINE_RPM_BASE", "ENGINE_RPM_DELTA"} &&
      sig["ENGINE_RPM_BASE"] == Trunc(rpm) && sig["ENGINE_RPM_DELTA"] == 0
    ensures sig["TRANS_MODE"] == 7 ==>
      sig.Keys == {"TRANS_MODE", "ENGINE_RPM_BASE_R", "ENGINE_RPM_DELTA_R"} &&
      sig["ENGINE_RPM_BASE_R"] == Trunc(rpm) && sig["ENGINE_RPM_DELTA_R"] == 0
  {
    var mode := TransModeFor(gear);
    var sig := map["TRANS_MODE" := mode];
    if mode == 0 then sig["ENGINE_RPM_PN" := Trunc(rpm)]
    else if mode == 1 then sig["ENGINE_RPM_BASE" := Trunc(rpm)]["ENGINE_RPM_DELTA" := 0]
    else sig["ENGINE_RPM_BASE_R" := Trunc(rpm)]["ENGINE_RPM_DELTA_R" := 0]
  }

  /** The reply payload for a PID, or None for an unknown PID or a value python-can cannot pack. */
  function ReplyData(pid: byte, rpm: real, coolant: real): Option<seq<byte>> {
    if pid == CanReceiver.PID_ENGINE_RPM then
      var v := Trunc(rpm * 4.0);
      Some([0x04, RESPONSE_SERVICE, CanReceiver.PID_ENGINE_RPM, (v / 256) % 256, v % 256, 0, 0, 0])
    else if pid == CanReceiver.PID_COOLANT_TEMP then
      var t := Trunc(coolant + 40.0);
      if 0 <= t < 256 then Some([0x03, RESPONSE_SERVICE, CanReceiver.PID_COOLANT_TEMP, t, 0, 0, 0, 0])
      else None
    else None
  }

  /** The reply to one received frame, if any: only a Service $01 request on 0x7DF is answered. */
  function Answer(msg: Message, rpm: real, coolant: real): (reply: Option<Message>)
    ensures reply.Some? ==>
      msg.id == CanReceiver.OBD_REQUEST_ID && |msg.data| >= 3 && msg.data[1] == CanReceiver.SERVICE_CURRENT_DATA
    ensures reply.Some? ==>
      reply.value.id == CanReceiver.ECU_REPLY_ID && |reply.value.data| == 8 &&
      reply.value.data[1] == RESPONSE_SERVICE && reply.value.data[2] == msg.data[2] &&
      reply.value.data[0] == (if msg.data[2] == CanReceiver.PID_ENGINE_RPM then 4 else 3)
    ensures (reply.None? && msg.id == CanReceiver.OBD_REQUEST_ID && |msg.data| >= 3 &&
             msg.data[1] == CanReceiver.SERVICE_CURRENT_DATA) ==>
      msg.data[2] != CanReceiver.PID_ENGINE_RPM &&
      (msg.data[2] == CanReceiver.PID_COOLANT_TEMP ==> !(0 <= Trunc(coolant + 40.0) < 256))
  {
    if msg.id == CanReceiver.OBD_REQUEST_ID && |msg.data| >= 3 && msg.data[1] == CanReceiver.SERVICE_CURRENT_DATA then
      match ReplyData(msg.data[2], rpm, coolant)
        case None => None
        case Some(d) => Some(CanReceiver.Message(CanReceiver.ECU_REPLY_ID, d))
    else None
  }

  /** What the bus delivers to the request thread, with the vehicle's values at that moment. */
  datatype Received = Received(msg: Option<Message>, rpm: real, coolant: real)

  function Replies(rx: seq<Received>): seq<Message>
    decreases |rx|
  {
    if |rx| == 0 then []
    else
      var r := rx[|rx| - 1];
      var sent := if r.msg.None? then None else Answer(r.msg.value, r.rpm, r.coolant);
      Replies(rx[..|rx| - 1]) + (if sent.Some? then [sent.value] else [])
  }

  /** `handle_obd_requests`: sends the replies in order of the requests; a timeout sends nothing. */
  method HandleObdRequests(rx: seq<Received>) returns (sent: seq<Message>)
    ensures sent == Replies(rx)
  {
    sent := [];
    var i := 0;
    while i < |rx|
      invariant 0 <= i <= |rx|
      invariant sent == Replies(rx[..i])
    {
      assert rx[..i + 1][..i] == rx[..i];
      var r := rx[i];
      if r.msg.Some? {
        var reply := Answer(r.msg.value, r.rpm, r.coolant);
        if reply.Some? {
          sent := sent + [reply.value];
        }
      }
      i := i + 1;
    }
    assert rx[..|rx|] == rx;
  }

  /** Both requests of a query cycle are answered, each with its own PID. */
  lemma QueriesAnswered(mode: string, rpm: real, coolant: real)
    requires mode != "CAN_ONLY" && 0 <= Trunc(coolant + 40.0) < 256
    ensures var q := CanReceiver.QueryCycle(mode);
      Answer(q[0], rpm, coolant).Some? && Answer(q[0], rpm, coolant).value.data[2] == CanReceiver.PID_ENGINE_RPM &&
      Answer(q[1], rpm, coolant).Some? && Answer(q[1], rpm, coolant).value.data[2] == CanReceiver.PID_COOLANT_TEMP
  {
  }

  /** The receiver reads back v / 4 from the engine-speed reply whenever v = int(rpm·4) fits in 16 bits. */
  lemma RpmRoundTrip(rpm: real, coolant: real, s: CanReceiver.State, now: real)
    requires 0 <= Trunc(rpm * 4.0) < 65536
    ensures var reply := Answer(CanReceiver.ObdRequest(CanReceiver.PID_ENGINE_RPM), rpm, coolant);
      reply.Some? &&
      var (s', out) := CanReceiver.Dispatch(s, CanReceiver.Frame(reply.value.id, reply.value.data, CanReceiver.Decoded(None, None, None)), now);
      s'.store.obdRpm * 4.0 == Trunc(rpm * 4.0) as real && |out| == 1
  {
    var v := Trunc(rpm * 4.0);
    assert (v / 256) % 256 * 256 + v % 256 == v;
  }

  /** The receiver reads back int(temp + 40) − 40 from the coolant reply. */
  lemma CoolantRoundTrip(rpm: real, coolant: real, s: CanReceiver.State, now: real)
    requires 0 <= Trunc(coolant + 40.0) < 256
    ensures var reply := Answer(CanReceiver.ObdRequest(CanReceiver.PID_COOLANT_TEMP), rpm, coolant);
      reply.Some? &&
      var (s', out) := CanReceiver.Dispatch(s, CanReceiver.Frame(reply.value.id, reply.value.data, CanReceiver.Decoded(None, None, None)), now);
      s'.store.obdTemp == Trunc(coolant + 40.0) - 40 &&
      out == [CanReceiver.UpdateTemp(CanReceiver.TempPercent(Trunc(coolant + 40.0) - 40))]
  {
  }
}
