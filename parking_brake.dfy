// The parking-brake monitor (parking_brake_monitor.py).  An ESP32 drives one
// GPIO line; the monitor polls it and reports a change only when a second
// read, taken after the debounce delay, confirms the first.  The polling
// thread is one method over the reads it makes; each poll is a pair of reads,
// the second of which is only looked at when the first differs.

module ParkingBrake {
  import opened Wrappers

  /** `GPIO.LOW` and `GPIO.HIGH` */
  const LOW: int := 0
  const HIGH: int := 1

  /** `_read_state`: false without GPIO, otherwise the level that means "engaged". */
  function ReadState(gpioAvailable: bool, activeLow: bool, raw: int): (engaged: bool)
    ensures !gpioAvailable ==> !engaged
    ensures gpioAvailable && activeLow ==> (engaged <==> raw == LOW)
    ensures gpioAvailable && !activeLow ==> (engaged <==> raw == HIGH)
  {
    if !gpioAvailable then false
    else if activeLow then raw == LOW
    else raw == HIGH
  }

  /** One poll: a read, and the confirming read taken after the debounce delay. */
  datatype Poll = Poll(first: bool, second: bool)

  /**
   * The state after one poll, and the value it reports if any: it changes
   * only when both reads differ from the stored state.
   */
  function Debounce(last: bool, p: Poll): (r: (bool, Option<bool>))
    ensures r.1.Some? <==> p.first != last && p.second != last
    ensures r.1.Some? ==> r.0 == r.1.value == !last
    ensures r.1.None? ==> r.0 == last
  {
    if p.first != last then
      if p.second != last then (p.second, Some(p.second)) else (last, None)
    else (last, None)
  }

  /** The state after a run of polls and the values reported, in order. */
  function Debounced(last: bool, polls: seq<Poll>): (bool, seq<bool>)
    decreases |polls|
  {
    if |polls| == 0 then (last, [])
    else
      var (mid, reported) := Debounced(last, polls[..|polls| - 1]);
      var (next, change) := Debounce(mid, polls[|polls| - 1]);
      (next, if change.Some? then reported + [change.value] else reported)
  }

  predicate Alternates(s: seq<bool>) {
    forall k | 0 < k < |s| :: s[k] != s[k - 1]
  }

  /**
   * The values reported after a starting state alternate, the first one
   * differs from the start, and the final state is the last value reported.
   */
  lemma {:induction false} DebouncedAlternates(last: bool, polls: seq<Poll>)
    ensures var (state, reported) := Debounced(last, polls);
      Alternates([last] + reported) &&
      state == ([last] + reported)[|reported|]
    decreases |polls|
  {
    if |polls| > 0 {
      var (mid, reported) := Debounced(last, polls[..|polls| - 1]);
      DebouncedAlternates(last, polls[..|polls| - 1]);
      var (next, change) := Debounce(mid, polls[|polls| - 1]);
      if change.Some? {
        var all := [last] + reported;
        assert [last] + (reported + [change.value]) == all + [change.value];
      }
    }
  }

  /** Each poll's two raw levels, read as states. */
  function Reads(gpioAvailable: bool, activeLow: bool, polls: seq<(int, int)>): (r: seq<Poll>)
    ensures |r| == |polls|
    ensures forall k | 0 <= k < |polls| ::
      r[k] == Poll(ReadState(gpioAvailable, activeLow, polls[k].0), ReadState(gpioAvailable, activeLow, polls[k].1))
  {
    seq(|polls|, k requires 0 <= k < |polls| =>
      Poll(ReadState(gpioAvailable, activeLow, polls[k].0), ReadState(gpioAvailable, activeLow, polls[k].1)))
  }

  class ParkingBrakeMonitor {
    const gpioPin: int
    const activeLow: bool
    const gpioAvailable: bool
    var isEngaged: bool
    var running: bool
    var hasCallback: bool

    /** `__init__`; whether GPIO set-up succeeds is the input `gpioAvailable`. */
    constructor(gpioPin: int, activeLow: bool, gpioAvailable: bool)
      ensures this.gpioPin == gpioPin && this.activeLow == activeLow && this.gpioAvailable == gpioAvailable
      ensures !isEngaged && !running && !hasCallback
    {
      this.gpioPin := gpioPin;
      this.activeLow := activeLow;
      this.gpioAvailable := gpioAvailable;
      isEngaged := false;
      running := false;
      hasCallback := false;
    }

    method SetCallback()
      modifies this
      ensures hasCallback && isEngaged == old(isEngaged) && running == old(running)
    {
      hasCallback := true;
    }

    /** `start`: a second start while running launches nothing. */
    method Start() returns (launched: bool)
      modifies this
      ensures launched <==> !old(running)
      ensures running && isEngaged == old(isEngaged) && hasCallback == old(hasCallback)
    {
      if running {
        return false;
      }
      running := true;
      launched := true;
    }

    /** `stop`, without joining the thread. */
    method Stop()
      modifies this
      ensures !running && isEngaged == old(isEngaged) && hasCallback == old(hasCallback)
    {
      running := false;
    }

    /** `cleanup`: stop, then release the pin. */
    method Cleanup()
      modifies this
      ensures !running && isEngaged == old(isEngaged) && hasCallback == old(hasCallback)
    {
      Stop();
    }

    /**
     * `_monitor_loop` over the raw levels it reads: the initial read, then a
     * pair of raw reads per poll.  The callback sees the initial state and
     * then every confirmed change.
     */
    method MonitorLoop(initialRaw: int, polls: seq<(int, int)>) returns (reports: seq<bool>)
      modifies this
      ensures var start := ReadState(gpioAvailable, activeLow, initialRaw);
        var result := Debounced(start, Reads(gpioAvailable, activeLow, polls));
        isEngaged == result.0 &&
        reports == (if hasCallback then [start] + result.1 else [])
      ensures hasCallback == old(hasCallback) && running == old(running)
    {
      var lastState := ReadState(gpioAvailable, activeLow, initialRaw);
      isEngaged := lastState;
      reports := if hasCallback then [lastState] else [];
      ghost var start := lastState;
      ghost var observed := Reads(gpioAvailable, activeLow, polls);
      ghost var changes: seq<bool> := [];
      for i := 0 to |polls|
        invariant hasCallback == old(hasCallback) && running == old(running)
        invariant isEngaged == lastState
        invariant (lastState, changes) == Debounced(start, observed[..i])
        invariant reports == if hasCallback then [start] + changes else []
      {
        assert observed[..i + 1][..i] == observed[..i];
        var current := ReadState(gpioAvailable, activeLow, polls[i].0);
        if current != lastState {
          current := ReadState(gpioAvailable, activeLow, polls[i].1);
          if current != lastState {
            lastState := current;
            isEngaged := current;
            changes := changes + [current];
            if hasCallback {
              reports := reports + [current];
            }
          }
        }
      }
      assert observed[..|polls|] == observed;
    }
  }

  /** The module's `_monitor` instance. */
  class Registry {
    var monitor: ParkingBrakeMonitor?

    constructor()
      ensures monitor == null
    {
      monitor := null;
    }

    /**
     * `start_monitoring`: an existing monitor is cleaned up before a new one is
     * created, given a callback when there is a dashboard, and started.
     */
    method StartMonitoring(gpioPin: int, gpioAvailable: bool, dashboard: bool)
      modifies this, monitor
      ensures old(monitor) != null ==> !old(monitor).running
      ensures monitor != null && fresh(monitor) && monitor.running
      ensures monitor.gpioPin == gpioPin && !monitor.activeLow && monitor.hasCallback == dashboard
    {
      if monitor != null {
        monitor.Cleanup();
        monitor := null;
      }
      var m := new ParkingBrakeMonitor(gpioPin, false, gpioAvailable);
      if dashboard {
        m.SetCallback();
      }
      var _ := m.Start();
      monitor := m;
    }

    /** `stop_monitoring` */
    method StopMonitoring()
      modifies this, monitor
      ensures old(monitor) != null ==> !old(monitor).running
      ensures monitor == null
    {
      if monitor != null {
        monitor.Cleanup();
        monitor := null;
      }
    }
  }
}
