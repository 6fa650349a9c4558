// The GPIO button handler (gpio_buttons.py).  Two push buttons each give a
// short press or a long press: gpiozero calls the "held" handler once the
// button has been down for the hold time and the "released" handler when it
// comes up, and a release after a hold is not a short press.  The handler
// also retries GPIO set-up in the background and polls the parking-brake line
// with the same two-read debounce as the stand-alone monitor.  Threads are one
// method per loop; what GPIO set-up and the sensor return are inputs.

module GpioButtons {
  import opened Wrappers
  import ParkingBrake

  datatype Button = A | B

  datatype Signal = Pressed(button: Button) | LongPressed(button: Button) | BrakeChanged(engaged: bool)

  /** `_max_retries` */
  const MAX_RETRIES: nat := 10

  /** The "held" handler: set the button's flag and emit its long press. */
  function Held(b: Button): (r: (bool, seq<Signal>))
    ensures r.0 && r.1 == [LongPressed(b)]
  {
    (true, [LongPressed(b)])
  }

  /** The "released" handler: a release after a hold clears the flag silently; any other is a short press. */
  function Released(b: Button, held: bool): (r: (bool, seq<Signal>))
    ensures !r.0
    ensures held ==> r.1 == []
    ensures !held ==> r.1 == [Pressed(b)]
  {
    if held then (false, []) else (false, [Pressed(b)])
  }

  /**
   * One press: down, optionally held past the hold time, then up.  From a
   * clear flag it emits exactly one signal, long if it was held and short
   * otherwise, and leaves the flag clear.
   */
  function Press(b: Button, held: bool, wasHeld: bool): (bool, seq<Signal>)
  {
    if wasHeld then
      var (flag, long) := Held(b);
      var (flag2, short) := Released(b, flag);
      (flag2, long + short)
    else Released(b, held)
  }

  /** The signals of a run of presses on one button, and its flag after them. */
  function Presses(b: Button, held: bool, cycles: seq<bool>): (bool, seq<Signal>)
    decreases |cycles|
  {
    if |cycles| == 0 then (held, [])
    else
      var (mid, s) := Presses(b, held, cycles[..|cycles| - 1]);
      var (next, t) := Press(b, mid, cycles[|cycles| - 1]);
      (next, s + t)
  }

  /** Every press gives exactly one signal, long exactly for the presses that were held. */
  lemma {:induction false} OneSignalPerPress(b: Button, cycles: seq<bool>)
    requires |cycles| > 0
    ensures var (flag, s) := Presses(b, false, cycles);
      !flag && |s| == |cycles| &&
      forall k | 0 <= k < |cycles| :: s[k] == if cycles[k] then LongPressed(b) else Pressed(b)
    decreases |cycles|
  {
    var init := cycles[..|cycles| - 1];
    var (mid, s) := Presses(b, false, init);
    if |init| > 0 {
      OneSignalPerPress(b, init);
    }
    assert !mid;
    var (next, t) := Press(b, mid, cycles[|cycles| - 1]);
    assert |t| == 1 && t[0] == if cycles[|cycles| - 1] then LongPressed(b) else Pressed(b);
    forall k | 0 <= k < |cycles|
      ensures (s + t)[k] == if cycles[k] then LongPressed(b) else Pressed(b)
    {
      if k < |init| {
        assert cycles[k] == init[k];
      }
    }
  }

  /** The retry loop's result: how many attempts it made and whether one succeeded. */
  datatype RetryOutcome = RetryOutcome(count: nat, succeeded: bool)

  /**
   * `_retry_gpio_init` from `count` attempts: `outcomes[k]` says whether
   * attempt k+1 succeeds (missing ones fail), and `stopAt` is the attempt
   * before which `stop_retry` is called, if it is.
   */
  function Retry(count: nat, outcomes: seq<bool>, stopAt: Option<nat>): (r: RetryOutcome)
    ensures count <= MAX_RETRIES ==> r.count <= MAX_RETRIES
    ensures r.count >= count
    ensures r.succeeded ==> r.count >= 1 && r.count - 1 < |outcomes| && outcomes[r.count - 1]
    ensures forall k | count <= k < r.count - 1 && k < |outcomes| :: !outcomes[k]
    decreases MAX_RETRIES - count
  {
    if count >= MAX_RETRIES then RetryOutcome(count, false)
    else if stopAt == Some(count + 1) then RetryOutcome(count, false)
    else
      var next := count + 1;
      if count < |outcomes| && outcomes[count] then RetryOutcome(next, true)
      else Retry(next, outcomes, stopAt)
  }

  /** Without a stop, the loop gives up only after all ten attempts fail. */
  lemma {:induction false} RetryExhausts(count: nat, outcomes: seq<bool>)
    requires count <= MAX_RETRIES
    ensures var r := Retry(count, outcomes, None);
      r.succeeded || r.count == MAX_RETRIES
    decreases MAX_RETRIES - count
  {
    if count < MAX_RETRIES && !(count < |outcomes| && outcomes[count]) {
      RetryExhausts(count + 1, outcomes);
    }
  }

  /** A success stops the loop at once: it succeeds on the first attempt that would. */
  lemma {:induction false} RetryStopsAtFirstSuccess(count: nat, outcomes: seq<bool>, k: nat)
    requires count <= k < MAX_RETRIES && k < |outcomes| && outcomes[k]
    requires forall j | count <= j < k :: !outcomes[j]
    ensures Retry(count, outcomes, None) == RetryOutcome(k + 1, true)
    decreases k - count
  {
    if count < k {
      RetryStopsAtFirstSuccess(count + 1, outcomes, k);
    }
  }

  class GpioButtonHandler {
    var aHeld: bool
    var bHeld: bool
    var initialized: bool
    var retryRunning: bool
    var retryCount: nat
    var brakeState: bool
    var brakeRunning: bool
    /** Whether the button and sensor handles are open. */
    var buttonsOpen: bool
    var sensorOpen: bool

    /** The handler before `_init_gpio` runs. */
    constructor()
      ensures !aHeld && !bHeld && !initialized && !retryRunning && retryCount == 0
      ensures !brakeState && !brakeRunning && !buttonsOpen && !sensorOpen
    {
      aHeld := false;
      bHeld := false;
      initialized := false;
      retryRunning := false;
      retryCount := 0;
      brakeState := false;
      brakeRunning := false;
      buttonsOpen := false;
      sensorOpen := false;
    }

    function HeldFlag(b: Button): bool
      reads this
    {
      if b == A then aHeld else bHeld
    }

    /** `_on_button_a_held` and `_on_button_b_held` */
    method OnHeld(b: Button) returns (signals: seq<Signal>)
      modifies this
      ensures (HeldFlag(b), signals) == Held(b)
      ensures b == A ==> bHeld == old(bHeld)
      ensures b == B ==> aHeld == old(aHeld)
      ensures initialized == old(initialized) && brakeState == old(brakeState)
    {
      if b == A {
        aHeld := true;
      } else {
        bHeld := true;
      }
      signals := [LongPressed(b)];
    }

    /** `_on_button_a_released` and `_on_button_b_released` */
    method OnReleased(b: Button) returns (signals: seq<Signal>)
      modifies this
      ensures (HeldFlag(b), signals) == Released(b, old(HeldFlag(b)))
      ensures b == A ==> bHeld == old(bHeld)
      ensures b == B ==> aHeld == old(aHeld)
      ensures initialized == old(initialized) && brakeState == old(brakeState)
    {
      var held := if b == A then aHeld else bHeld;
      if held {
        if b == A {
          aHeld := false;
        } else {
          bHeld := false;
        }
        signals := [];
      } else {
        signals := [Pressed(b)];
      }
    }

    /** `_init_gpio` with its outcome and the sensor's first read given. */
    method InitGpio(succeeds: bool, brakeActive: bool) returns (ok: bool)
      modifies this
      ensures ok == succeeds
      ensures succeeds ==> initialized && buttonsOpen && sensorOpen && brakeRunning && brakeState == brakeActive
      ensures !succeeds ==> initialized == old(initialized) && brakeState == old(brakeState)
      ensures retryRunning == old(retryRunning) && retryCount == old(retryCount)
    {
      if !succeeds {
        return false;
      }
      buttonsOpen := true;
      sensorOpen := true;
      brakeState := brakeActive;
      brakeRunning := true;
      initialized := true;
      ok := true;
    }

    /** `_start_retry_thread`: nothing while a retry runs; otherwise a fresh count. */
    method StartRetry() returns (launched: bool)
      modifies this
      ensures launched <==> !old(retryRunning)
      ensures retryRunning
      ensures launched ==> retryCount == 0
      ensures !launched ==> retryCount == old(retryCount)
    {
      if retryRunning {
        return false;
      }
      retryRunning := true;
      retryCount := 0;
      launched := true;
    }

    /** `_retry_gpio_init`, with the five-second sleeps left out. */
    method RetryGpioInit(outcomes: seq<bool>, stopAt: Option<nat>, brakeActive: bool)
      modifies this
      requires retryRunning && retryCount <= MAX_RETRIES
      ensures var r := Retry(old(retryCount), outcomes, stopAt);
        retryCount == r.count && (r.succeeded ==> initialized)
      ensures retryCount <= MAX_RETRIES
      ensures !retryRunning
    {
      ghost var goal := Retry(retryCount, outcomes, stopAt);
      while retryRunning && retryCount < MAX_RETRIES
        invariant retryCount <= MAX_RETRIES
        invariant retryRunning ==> Retry(retryCount, outcomes, stopAt) == goal
        invariant !retryRunning ==> retryCount == goal.count && (goal.succeeded ==> initialized)
        decreases MAX_RETRIES - retryCount, retryRunning
      {
        if stopAt == Some(retryCount + 1) {
          retryRunning := false;
          break;
        }
        retryCount := retryCount + 1;
        var ok := InitGpio(retryCount - 1 < |outcomes| && outcomes[retryCount - 1], brakeActive);
        if ok {
          retryRunning := false;
          return;
        }
      }
      retryRunning := false;
    }

    /** `stop_retry` */
    method StopRetry()
      modifies this
      ensures !retryRunning && retryCount == old(retryCount) && initialized == old(initialized)
    {
      retryRunning := false;
    }

    /**
     * `_monitor_parking_brake` over the polls it makes: each confirmed change
     * is stored and emitted; with the sensor closed nothing is read.
     */
    method MonitorParkingBrake(polls: seq<ParkingBrake.Poll>) returns (signals: seq<Signal>)
      modifies this
      ensures sensorOpen == old(sensorOpen)
      ensures !sensorOpen ==> brakeState == old(brakeState) && signals == []
      ensures sensorOpen ==>
        var result := ParkingBrake.Debounced(old(brakeState), polls);
        brakeState == result.0 &&
        signals == seq(|result.1|, k requires 0 <= k < |result.1| => BrakeChanged(result.1[k]))
    {
      signals := [];
      if !sensorOpen {
        return;
      }
      ghost var changes: seq<bool> := [];
      for i := 0 to |polls|
        invariant sensorOpen == old(sensorOpen)
        invariant (brakeState, changes) == ParkingBrake.Debounced(old(brakeState), polls[..i])
        invariant signals == seq(|changes|, k requires 0 <= k < |changes| => BrakeChanged(changes[k]))
      {
        assert polls[..i + 1][..i] == polls[..i];
        var current := polls[i].first;
        if current != brakeState {
          current := polls[i].second;
          if current != brakeState {
            brakeState := current;
            changes := changes + [current];
            signals := signals + [BrakeChanged(current)];
          }
        }
      }
      assert polls[..|polls|] == polls;
    }

    /** `cleanup`: both loops are told to stop and every handle is dropped. */
    method Cleanup()
      modifies this
      ensures !retryRunning && !brakeRunning && !buttonsOpen && !sensorOpen && !initialized
      ensures aHeld == old(aHeld) && bHeld == old(bHeld) && brakeState == old(brakeState)
    {
      retryRunning := false;
      brakeRunning := false;
      buttonsOpen := false;
      sensorOpen := false;
      initialized := false;
    }
  }
}
