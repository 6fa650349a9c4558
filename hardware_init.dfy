// Start-up hardware detection (hardware_init.py).  On a Raspberry Pi the
// initializer keeps probing the CAN bus, the GPS receiver and the GPIO buttons
// until the required ones are ready, the timeout passes or a stop is
// requested; elsewhere it skips detection.  What the probes see (the `ip link`
// output, the serial ports, whether a bus opens, the NMEA lines a port
// yields, the clock) is given as input.

module Hardware {
  import opened Wrappers
  import opened Text

  /** `HardwareStatus` */
  datatype HardwareStatus = HardwareStatus(
    canReady: bool, gpsReady: bool, gpioReady: bool,
    canError: string, gpsError: string, gpioError: string,
    canInterface: string, gpsPort: string)

  /** The dataclass defaults: nothing ready, every text empty. */
  const INITIAL_STATUS := HardwareStatus(false, false, false, "", "", "", "", "")

  datatype Component = Can | Gps | Gpio

  /** The components whose ready flag is set. */
  function ReadySet(s: HardwareStatus): set<Component> {
    (if s.canReady then {Can} else {}) + (if s.gpsReady then {Gps} else {}) + (if s.gpioReady then {Gpio} else {})
  }

  /** `all_ready` */
  function AllReady(s: HardwareStatus): (r: bool)
    ensures r <==> ReadySet(s) == {Can, Gps, Gpio}
  {
    assert Can in ReadySet(s) <==> s.canReady;
    assert Gps in ReadySet(s) <==> s.gpsReady;
    assert Gpio in ReadySet(s) <==> s.gpioReady;
    s.canReady && s.gpsReady && s.gpioReady
  }

  function Flag(b: bool): nat {
    if b then 1 else 0
  }

  /** The ready set has one member per ready flag. */
  lemma ReadySetSize(s: HardwareStatus)
    ensures |ReadySet(s)| == Flag(s.canReady) + Flag(s.gpsReady) + Flag(s.gpioReady)
  {
    var a: set<Component> := if s.canReady then {Can} else {};
    var b: set<Component> := if s.gpsReady then {Gps} else {};
    var c: set<Component> := if s.gpioReady then {Gpio} else {};
    assert a * b == {} && (a + b) * c == {};
    assert |a + b| == |a| + |b|;
    assert |(a + b) + c| == |a + b| + |c|;
  }

  /** `ready_count`: the number of ready components. */
  method ReadyCount(s: HardwareStatus) returns (count: int)
    ensures count == |ReadySet(s)|
    ensures 0 <= count <= 3
    ensures count == 3 <==> AllReady(s)
  {
    count := 0;
    if s.canReady {
      count := count + 1;
    }
    if s.gpsReady {
      count := count + 1;
    }
    if s.gpioReady {
      count := count + 1;
    }
    ReadySetSize(s);
  }

  // ------------------------------------------------------- what a probe finds

  /** The outcome of one probe: where the device was found, or why not. */
  datatype Probe = Found(place: string) | Missing(error: string)

  /** `ip -details link show type can` gives its lines when it succeeds with output. */
  function LinkLines(returnCode: int, stdout: string): (lines: seq<string>)
    ensures returnCode != 0 || Strip(stdout) == "" ==> lines == []
    ensures returnCode == 0 && Strip(stdout) != "" ==> lines == Split(Strip(stdout), '\n')
  {
    if returnCode == 0 && Strip(stdout) != "" then Split(Strip(stdout), '\n') else []
  }

  /** An interface's header line: it holds ": " and does not start with a space. */
  predicate IsHeader(line: string) {
    Contains(line, ": ") && !StartsWith(line, " ")
  }

  /** `line.split(': ')[1]`: the text between the first ": " and the next one (or the end). */
  function SecondField(line: string): string
    requires Contains(line, ": ")
  {
    var i := Find(line, ": ").value;
    var rest := line[i + 2..];
    match Find(rest, ": ")
      case None => rest
      case Some(j) => rest[..j]
  }

  /** `parts[1].split('@')[0]`: the interface name, without its parent device. */
  function InterfaceName(line: string): (name: string)
    requires Contains(line, ": ")
    ensures '@' !in name
    ensures '@' !in SecondField(line) ==> name == SecondField(line)
  {
    Split(SecondField(line), '@')[0]
  }

  /** `'UP' in line and 'LOWER_UP' in line` */
  predicate IsUp(line: string) {
    Contains(line, "UP") && Contains(line, "LOWER_UP")
  }

  /** The first test adds nothing: a line with LOWER_UP always holds UP. */
  lemma UpIsLowerUp(line: string)
    ensures IsUp(line) <==> Contains(line, "LOWER_UP")
  {
    if Contains(line, "LOWER_UP") {
      assert "LOWER_UP"[6..8] == "UP";
      ContainsInner(line, "LOWER_UP", "UP", 6);
    }
  }

  /** A SocketCAN interface is taken when its header line says it is up and the bus opens on it. */
  predicate Usable(line: string, opens: set<string>) {
    IsHeader(line) && IsUp(line) && InterfaceName(line) in opens
  }

  /** The interface of the first usable line. */
  function FirstSocketCan(lines: seq<string>, opens: set<string>): (r: Option<string>)
    ensures r.None? <==> forall i | 0 <= i < |lines| :: !Usable(lines[i], opens)
    ensures r.Some? ==> exists i :: FirstUsableAt(lines, opens, i) && r.value == InterfaceName(lines[i])
    decreases |lines|
  {
    if |lines| == 0 then None
    else if Usable(lines[0], opens) then
      assert FirstUsableAt(lines, opens, 0);
      Some(InterfaceName(lines[0]))
    else
      var r := FirstSocketCan(lines[1..], opens);
      UsableTail(lines, opens);
      if r.Some? then
        var i :| FirstUsableAt(lines[1..], opens, i) && r.value == InterfaceName(lines[1..][i]);
        assert lines[1..][i] == lines[i + 1];
        r
      else r
  }

  /** Past an unusable first line, the first usable line is the first usable one of the rest. */
  lemma UsableTail(lines: seq<string>, opens: set<string>)
    requires |lines| > 0 && !Usable(lines[0], opens)
    ensures (forall i | 0 <= i < |lines| :: !Usable(lines[i], opens)) <==>
      (forall i | 0 <= i < |lines[1..]| :: !Usable(lines[1..][i], opens))
    ensures forall i | FirstUsableAt(lines[1..], opens, i) :: FirstUsableAt(lines, opens, i + 1)
  {
    var tail := lines[1..];
    assert forall i | 1 <= i < |lines| :: lines[i] == tail[i - 1];
    forall i | FirstUsableAt(tail, opens, i)
      ensures FirstUsableAt(lines, opens, i + 1)
    {
      forall j | 0 <= j < i + 1 ensures !Usable(lines[j], opens) {
        if j > 0 { assert lines[j] == tail[j - 1]; }
      }
    }
  }

  predicate FirstUsableAt(lines: seq<string>, opens: set<string>, i: int) {
    0 <= i < |lines| && Usable(lines[i], opens) && forall j | 0 <= j < i :: !Usable(lines[j], opens)
  }

  /** The SocketCAN loop of `_check_can`. */
  method FindSocketCan(lines: seq<string>, opens: set<string>) returns (r: Option<string>)
    ensures r == FirstSocketCan(lines, opens)
  {
    for i := 0 to |lines|
      invariant FirstSocketCan(lines, opens) == FirstSocketCan(lines[i..], opens)
    {
      assert lines[i..][1..] == lines[i + 1..];
      var line := lines[i];
      if Contains(line, ": ") && !StartsWith(line, " ") {
        var iface := InterfaceName(line);
        var isUp := Contains(line, "UP") && Contains(line, "LOWER_UP");
        if isUp && iface in opens {
          return Some(iface);
        }
      }
    }
    r := None;
  }

  /** A serial port as pyserial lists it. */
  datatype Port = Port(device: string, description: string)

  /** A port is tried as SLCAN iff its lowercased description contains "canable". */
  predicate IsCanable(p: Port) {
    Contains(Lower(p.description), "canable")
  }

  /** The device of the first CANable port the bus opens on. */
  function FirstSlcan(ports: seq<Port>, opens: set<string>): (r: Option<string>)
    ensures r.None? <==> forall i | 0 <= i < |ports| :: !(IsCanable(ports[i]) && ports[i].device in opens)
    ensures r.Some? ==> exists i | 0 <= i < |ports| :: IsCanable(ports[i]) && ports[i].device == r.value
    decreases |ports|
  {
    if |ports| == 0 then None
    else if IsCanable(ports[0]) && ports[0].device in opens then Some(ports[0].device)
    else
      assert forall i | 1 <= i < |ports| :: ports[i] == ports[1..][i - 1];
      FirstSlcan(ports[1..], opens)
  }

  /** The SLCAN loop of `_check_can`. */
  method FindSlcan(ports: seq<Port>, opens: set<string>) returns (r: Option<string>)
    ensures r == FirstSlcan(ports, opens)
  {
    for i := 0 to |ports|
      invariant FirstSlcan(ports, opens) == FirstSlcan(ports[i..], opens)
    {
      assert ports[i..][1..] == ports[i + 1..];
      if Contains(Lower(ports[i].description), "canable") && ports[i].device in opens {
        return Some(ports[i].device);
      }
    }
    r := None;
  }

  /** `_check_can` without its import and subprocess failures: SocketCAN first (on Linux), then SLCAN. */
  method CheckCan(linux: bool, returnCode: int, stdout: string, socketOpens: set<string>,
                  ports: seq<Port>, slcanOpens: set<string>) returns (p: Probe)
    ensures var socket := if linux then FirstSocketCan(LinkLines(returnCode, stdout), socketOpens) else None;
      var slcan := FirstSlcan(ports, slcanOpens);
      (socket.Some? ==> p == Found("SocketCAN (" + socket.value + ")")) &&
      (socket.None? && slcan.Some? ==> p == Found("SLCAN (" + slcan.value + ")")) &&
      (socket.None? && slcan.None? ==> p == Missing("未找到 CAN 裝置"))
  {
    if linux {
      var iface := FindSocketCan(LinkLines(returnCode, stdout), socketOpens);
      if iface.Some? {
        return Found("SocketCAN (" + iface.value + ")");
      }
    }
    var device := FindSlcan(ports, slcanOpens);
    if device.Some? {
      return Found("SLCAN (" + device.value + ")");
    }
    p := Missing("未找到 CAN 裝置");
  }

  /** A GPS is recognised by a line that starts with "$GP" or "$GN". */
  predicate IsNmeaLine(line: string) {
    StartsWith(line, "$GP") || StartsWith(line, "$GN")
  }

  /** One serial port at one baud rate, and the lines read from it within the two seconds. */
  datatype Trial = Trial(port: string, baud: nat, lines: seq<string>)

  predicate HeardNmea(t: Trial) {
    exists j | 0 <= j < |t.lines| :: IsNmeaLine(t.lines[j])
  }

  /** The reading loop of `_check_gps` on one trial: does an NMEA line arrive? */
  method ReadsNmea(lines: seq<string>) returns (found: bool)
    ensures found <==> exists j | 0 <= j < |lines| :: IsNmeaLine(lines[j])
  {
    for j := 0 to |lines|
      invariant forall k | 0 <= k < j :: !IsNmeaLine(lines[k])
    {
      if StartsWith(lines[j], "$GP") || StartsWith(lines[j], "$GN") {
        return true;
      }
    }
    found := false;
  }

  /** The first trial that hears NMEA, given as `port @ baud`. */
  function FirstGps(trials: seq<Trial>): (r: Option<string>)
    ensures r.None? <==> forall i | 0 <= i < |trials| :: !HeardNmea(trials[i])
    ensures r.Some? ==> exists i | 0 <= i < |trials| :: HeardNmea(trials[i]) && r.value == trials[i].port + " @ " + DecOf(trials[i].baud)
    decreases |trials|
  {
    if |trials| == 0 then None
    else if HeardNmea(trials[0]) then Some(trials[0].port + " @ " + DecOf(trials[0].baud))
    else
      assert forall i | 1 <= i < |trials| :: trials[i] == trials[1..][i - 1];
      FirstGps(trials[1..])
  }

  /**
   * `_check_gps`: the trials, in the order of the candidate ports and the
   * baud rates 9600, 115200 and 38400; no candidate port is its own error.
   */
  method CheckGps(trials: seq<Trial>) returns (p: Probe)
    ensures |trials| == 0 ==> p == Missing("未找到串口裝置")
    ensures |trials| > 0 && FirstGps(trials).Some? ==> p == Found(FirstGps(trials).value)
    ensures |trials| > 0 && FirstGps(trials).None? ==> p == Missing("未收到 NMEA 數據")
  {
    if |trials| == 0 {
      return Missing("未找到串口裝置");
    }
    for i := 0 to |trials|
      invariant FirstGps(trials) == FirstGps(trials[i..])
    {
      assert trials[i..][1..] == trials[i + 1..];
      var heard := ReadsNmea(trials[i].lines);
      if heard {
        return Found(trials[i].port + " @ " + DecOf(trials[i].baud));
      }
    }
    p := Missing("未收到 NMEA 數據");
  }

  // -------------------------------------------------------- the decision loop

  /** The outcome of each probe on one pass of the loop, the time it starts at and whether `stop` came before it. */
  datatype Attempt = Attempt(elapsed: real, stopRequested: bool, can: Probe, gps: Probe, gpio: Probe)

  datatype Config = Config(timeout: real, requireGps: bool, requireGpio: bool)

  /** A finished probe: ready with its place and no error, or not ready with its error. */
  function ApplyCan(s: HardwareStatus, p: Probe): HardwareStatus {
    match p
      case Found(place) => s.(canReady := true, canInterface := place, canError := "")
      case Missing(e) => s.(canError := e)
  }

  function ApplyGps(s: HardwareStatus, p: Probe): HardwareStatus {
    match p
      case Found(place) => s.(gpsReady := true, gpsPort := place, gpsError := "")
      case Missing(e) => s.(gpsError := e)
  }

  function ApplyGpio(s: HardwareStatus, p: Probe): HardwareStatus {
    match p
      case Found(_) => s.(gpioReady := true, gpioError := "")
      case Missing(e) => s.(gpioError := e)
  }

  /** One pass of probes: only components not yet ready are probed, and none is ever un-readied. */
  function Probed(s: HardwareStatus, a: Attempt): (r: HardwareStatus)
    ensures ReadySet(s) <= ReadySet(r)
    ensures s.canReady ==> r.canInterface == s.canInterface && r.canError == s.canError
    ensures s.gpsReady ==> r.gpsPort == s.gpsPort && r.gpsError == s.gpsError
    ensures s.gpioReady ==> r.gpioError == s.gpioError
    ensures !s.canReady ==> (r.canReady <==> a.can.Found?)
    ensures !s.gpsReady ==> (r.gpsReady <==> a.gps.Found?)
    ensures !s.gpioReady ==> (r.gpioReady <==> a.gpio.Found?)
  {
    var s1 := if s.canReady then s else ApplyCan(s, a.can);
    var s2 := if s1.gpsReady then s1 else ApplyGps(s1, a.gps);
    if s2.gpioReady then s2 else ApplyGpio(s2, a.gpio)
  }

  /** `required_ready`: CAN always, GPS and GPIO only when required. */
  function RequiredReady(c: Config, s: HardwareStatus): (r: bool)
    ensures r <==> s.canReady && (c.requireGps ==> s.gpsReady) && (c.requireGpio ==> s.gpioReady)
  {
    var ready := s.canReady;
    var ready := if c.requireGps then ready && s.gpsReady else ready;
    if c.requireGpio then ready && s.gpioReady else ready
  }

  /** The loop's result and how many passes it made. */
  datatype Outcome = Outcome(ok: bool, status: HardwareStatus, passes: nat)

  predicate Expired(c: Config, a: Attempt) {
    c.timeout > 0.0 && a.elapsed >= c.timeout
  }

  /**
   * The `while` loop of `initialize` on a Pi; running out of attempts is read
   * as a stop request.  Whichever way it ends, it succeeds exactly when CAN is
   * ready at that moment.
   */
  function Loop(c: Config, s: HardwareStatus, attempts: seq<Attempt>): (r: Outcome)
    ensures r.ok <==> r.status.canReady
    ensures ReadySet(s) <= ReadySet(r.status)
    ensures r.passes <= |attempts|
    decreases |attempts|
  {
    if |attempts| == 0 || attempts[0].stopRequested then Outcome(s.canReady, s, 0)
    else if Expired(c, attempts[0]) then Outcome(s.canReady, s, 0)
    else
      var next := Probed(s, attempts[0]);
      if RequiredReady(c, next) then Outcome(true, next, 1)
      else
        var r := Loop(c, next, attempts[1..]);
        Outcome(r.ok, r.status, r.passes + 1)
  }

  /** `initialize`: off a Pi, detection is skipped and the result is always a failure. */
  function Initialization(c: Config, isPi: bool, s: HardwareStatus, attempts: seq<Attempt>): (r: (bool, HardwareStatus))
    ensures !isPi ==> !r.0 && !r.1.canReady && r.1.gpsReady && r.1.gpioReady
    ensures isPi ==> (r.0 <==> r.1.canReady)
  {
    if !isPi then
      (false, s.(canReady := false, gpsReady := true, gpioReady := true,
                 canError := "開發環境", gpsError := "開發環境 (模擬)", gpioError := "開發環境 (鍵盤模擬)"))
    else
      var o := Loop(c, s, attempts);
      (o.ok, o.status)
  }

  /** With a timeout that is not positive and no stop, the loop only ends early by succeeding. */
  lemma {:induction false} NoTimeoutRunsOn(c: Config, s: HardwareStatus, attempts: seq<Attempt>)
    requires c.timeout <= 0.0
    requires forall k | 0 <= k < |attempts| :: !attempts[k].stopRequested
    ensures var r := Loop(c, s, attempts);
      r.passes == |attempts| || (RequiredReady(c, r.status) && r.ok)
    decreases |attempts|
  {
    if |attempts| > 0 {
      assert !Expired(c, attempts[0]);
      var next := Probed(s, attempts[0]);
      if !RequiredReady(c, next) {
        assert forall k | 0 <= k < |attempts| - 1 :: attempts[1..][k] == attempts[k + 1];
        NoTimeoutRunsOn(c, next, attempts[1..]);
      }
    }
  }

  /** No pass starts at or after an expired attempt. */
  lemma {:induction false} ExpiryStops(c: Config, s: HardwareStatus, attempts: seq<Attempt>, k: nat)
    requires k < |attempts| && Expired(c, attempts[k])
    ensures Loop(c, s, attempts).passes <= k
    decreases k
  {
    if k > 0 && !attempts[0].stopRequested && !Expired(c, attempts[0]) {
      var next := Probed(s, attempts[0]);
      if !RequiredReady(c, next) {
        assert attempts[1..][k - 1] == attempts[k];
        ExpiryStops(c, next, attempts[1..], k - 1);
      }
    }
  }

  /** Once a component is ready, no later pass probes it or touches its fields. */
  lemma {:induction false} ReadyStaysReady(c: Config, s: HardwareStatus, attempts: seq<Attempt>)
    ensures var r := Loop(c, s, attempts).status;
      (s.canReady ==> r.canReady && r.canInterface == s.canInterface && r.canError == s.canError) &&
      (s.gpsReady ==> r.gpsReady && r.gpsPort == s.gpsPort && r.gpsError == s.gpsError) &&
      (s.gpioReady ==> r.gpioReady && r.gpioError == s.gpioError)
    decreases |attempts|
  {
    if |attempts| > 0 && !attempts[0].stopRequested && !Expired(c, attempts[0]) {
      var next := Probed(s, attempts[0]);
      if !RequiredReady(c, next) {
        ReadyStaysReady(c, next, attempts[1..]);
      }
    }
  }

  class HardwareInitializer {
    const config: Config
    var status: HardwareStatus
    var stopRequested: bool

    constructor(timeout: real, requireGps: bool, requireGpio: bool)
      ensures config == Config(timeout, requireGps, requireGpio)
      ensures status == INITIAL_STATUS && !stopRequested
    {
      config := Config(timeout, requireGps, requireGpio);
      status := INITIAL_STATUS;
      stopRequested := false;
    }

    /** `stop` */
    method Stop()
      modifies this
      ensures stopRequested && status == old(status)
    {
      stopRequested := true;
    }

    /** `initialize`; each attempt says whether `stop` was called before that pass. */
    method Initialize(isPi: bool, attempts: seq<Attempt>) returns (ok: bool, result: HardwareStatus)
      modifies this
      ensures (ok, result) == Initialization(config, isPi, old(status), attempts)
      ensures status == result
    {
      stopRequested := false;
      if !isPi {
        status := status.(canReady := false, gpsReady := true, gpioReady := true,
                          canError := "開發環境", gpsError := "開發環境 (模擬)", gpioError := "開發環境 (鍵盤模擬)");
        return false, status;
      }
      ghost var goal := Loop(config, status, attempts);
      var i := 0;
      var attempt := 0;
      while i < |attempts|
        invariant 0 <= i <= |attempts| && attempt == i
        invariant Loop(config, status, attempts[i..]).ok == goal.ok
        invariant Loop(config, status, attempts[i..]).status == goal.status
      {
        if attempts[i].stopRequested {
          break;
        }
        attempt := attempt + 1;
        var a := attempts[i];
        if config.timeout > 0.0 && a.elapsed >= config.timeout {
          break;
        }
        if !status.canReady {
          status := ApplyCan(status, a.can);
        }
        if !status.gpsReady {
          status := ApplyGps(status, a.gps);
        }
        if !status.gpioReady {
          status := ApplyGpio(status, a.gpio);
        }
        var ready := status.canReady;
        if config.requireGps {
          ready := ready && status.gpsReady;
        }
        if config.requireGpio {
          ready := ready && status.gpioReady;
        }
        if ready {
          return true, status;
        }
        assert attempts[i..][1..] == attempts[i + 1..];
        i := i + 1;
      }
      ok, result := status.canReady, status;
    }
  }
}
