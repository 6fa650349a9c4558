// The power monitor and its shutdown countdown (shutdown_monitor.py).  The
// monitor watches the battery voltage reported over OBD: a drop to near zero
// after a normal reading, or fifteen seconds without any reading, means the
// engine is off; three minutes without any reading means the car was never
// started.  The dialog counts down once a second and then powers off (or, in
// test mode, quits).  Clocks and timers are inputs: every event carries the
// time it happens at, and each timer firing is one event.  Emitted Qt signals
// are returned as lists.

module Shutdown {
  import opened Wrappers

  /** `NO_VOLTAGE_SIGNAL_TIMEOUT`, in seconds. */
  const NO_VOLTAGE_SIGNAL_TIMEOUT: real := 180.0
  /** `QUICK_POWER_LOSS_TIMEOUT`, in seconds. */
  const QUICK_POWER_LOSS_TIMEOUT: real := 15.0
  /** The countdown `show_shutdown_dialog` creates its dialog with. */
  const DIALOG_COUNTDOWN: int := 30

  datatype Signal = PowerLost | PowerRestored | NoSignalTimeout | ShutdownCancelled | ShutdownConfirmed | ExitApp

  // ---------------------------------------------------------------------------
  // The dialog
  // ---------------------------------------------------------------------------

  /** The dialog's countdown, its visibility and whether its one-second timer runs. */
  datatype DialogState = DialogState(countdown: int, initial: int, testMode: bool, visible: bool, timerRunning: bool)

  function NewDialog(seconds: int, testMode: bool): (d: DialogState)
    ensures d.countdown == d.initial == seconds && d.testMode == testMode
    ensures !d.visible && !d.timerRunning
  {
    DialogState(seconds, seconds, testMode, false, false)
  }

  /** `show` and its `showEvent`: the countdown starts again from the initial value. */
  function ShowDialog(d: DialogState): (r: DialogState)
    ensures r.visible && r.timerRunning && r.countdown == d.initial
    ensures r.initial == d.initial && r.testMode == d.testMode
  {
    d.(countdown := d.initial, visible := true, timerRunning := true)
  }

  /** `close`, whose `hideEvent` stops the timer. */
  function CloseDialog(d: DialogState): (r: DialogState)
    ensures !r.visible && !r.timerRunning
    ensures r.countdown == d.countdown && r.initial == d.initial && r.testMode == d.testMode
  {
    d.(visible := false, timerRunning := false)
  }

  /** `_do_shutdown`: exit in test mode, power off otherwise; either way the dialog closes. */
  function ShutdownOutcome(d: DialogState): (r: (DialogState, seq<Signal>))
    ensures r.0 == CloseDialog(d)
    ensures r.1 == [if d.testMode then ExitApp else ShutdownConfirmed]
  {
    (CloseDialog(d), [if d.testMode then ExitApp else ShutdownConfirmed])
  }

  /** `_on_tick`; a stopped timer delivers no tick, so then nothing happens. */
  function TickDialog(d: DialogState): (r: (DialogState, seq<Signal>))
    ensures !d.timerRunning ==> r == (d, [])
    ensures d.timerRunning && d.countdown - 1 > 0 ==> r == (d.(countdown := d.countdown - 1), [])
    ensures d.timerRunning && d.countdown - 1 <= 0 ==>
      r.0 == CloseDialog(d.(countdown := d.countdown - 1)) && r.1 == ShutdownOutcome(d).1
  {
    if !d.timerRunning then (d, [])
    else
      var next := d.(countdown := d.countdown - 1);
      if next.countdown <= 0 then ShutdownOutcome(next.(timerRunning := false)) else (next, [])
  }

  /** `_on_cancel`: the timer stops, `shutdown_cancelled` is emitted and the dialog closes. */
  function CancelDialog(d: DialogState): (r: (DialogState, seq<Signal>))
    ensures r.0 == CloseDialog(d) && r.1 == [ShutdownCancelled]
  {
    (CloseDialog(d), [ShutdownCancelled])
  }

  /** `_on_shutdown`: the timer stops and the shutdown happens at once. */
  function ShutdownNowDialog(d: DialogState): (r: (DialogState, seq<Signal>))
    ensures r.0 == CloseDialog(d) && r.1 == ShutdownOutcome(d).1
  {
    ShutdownOutcome(d.(timerRunning := false))
  }

  /** `n` timer ticks. */
  function Ticks(d: DialogState, n: nat): (DialogState, seq<Signal>)
    decreases n
  {
    if n == 0 then (d, [])
    else
      var (p, s) := Ticks(d, n - 1);
      var (q, t) := TickDialog(p);
      (q, s + t)
  }

  /** While more than `n` seconds remain, `n` ticks only count down. */
  lemma {:induction false} CountingDown(d: DialogState, n: nat)
    requires d.timerRunning && d.countdown > n
    ensures Ticks(d, n) == (d.(countdown := d.countdown - n), [])
    decreases n
  {
    if n > 0 {
      CountingDown(d, n - 1);
      var p := d.(countdown := d.countdown - (n - 1));
      assert TickDialog(p) == (d.(countdown := d.countdown - n), []);
      assert Ticks(d, n) == (TickDialog(p).0, [] + TickDialog(p).1);
      assert [] + TickDialog(p).1 == [];
    } else {
      assert Ticks(d, 0) == (d, []);
    }
  }

  /** A stopped countdown stays where it is, however many seconds pass. */
  lemma {:induction false} StoppedStays(d: DialogState, n: nat)
    requires !d.timerRunning
    ensures Ticks(d, n) == (d, [])
    decreases n
  {
    if n > 0 {
      StoppedStays(d, n - 1);
      assert Ticks(d, n) == (TickDialog(d).0, [] + TickDialog(d).1);
      assert [] + TickDialog(d).1 == [];
    }
  }

  /**
   * Once shown, the dialog shuts down on exactly its `initial`-th tick (on the
   * first tick when `initial` is not positive), closes, and stays silent after.
   */
  lemma ShutdownAfterInitial(d: DialogState, later: nat)
    ensures var start := ShowDialog(d);
      var at := if d.initial >= 1 then d.initial else 1;
      (forall k: nat | k < at :: Ticks(start, k).1 == []) &&
      Ticks(start, at).1 == ShutdownOutcome(d).1 &&
      !Ticks(start, at).0.visible &&
      Ticks(start, at + later).1 == ShutdownOutcome(d).1
  {
    var start := ShowDialog(d);
    var at := if d.initial >= 1 then d.initial else 1;
    forall k: nat | k < at ensures Ticks(start, k).1 == [] {
      if k > 0 {
        CountingDown(start, k);
      }
    }
    if d.initial >= 1 {
      CountingDown(start, at - 1);
    }
    var (end, s) := Ticks(start, at);
    assert !end.timerRunning;
    StoppedStays(end, later);
    TicksSplit(start, at, later);
  }

  lemma {:induction false} TicksSplit(d: DialogState, n: nat, m: nat)
    ensures Ticks(d, n + m).0 == Ticks(Ticks(d, n).0, m).0
    ensures Ticks(d, n + m).1 == Ticks(d, n).1 + Ticks(Ticks(d, n).0, m).1
    decreases m
  {
    if m > 0 {
      TicksSplit(d, n, m - 1);
      var mid := Ticks(d, n);
      var more := Ticks(mid.0, m - 1);
      var t := TickDialog(more.0);
      assert Ticks(d, n + m) == (t.0, Ticks(d, n + m - 1).1 + t.1);
      assert Ticks(mid.0, m) == (t.0, more.1 + t.1);
      assert mid.1 + more.1 + t.1 == mid.1 + (more.1 + t.1);
    } else {
      assert Ticks(d, n).1 + [] == Ticks(d, n).1;
    }
  }

  /** Cancelling before the end stops the countdown for good. */
  lemma CancelStopsCountdown(d: DialogState, n: nat)
    ensures Ticks(CancelDialog(d).0, n).1 == []
  {
    StoppedStays(CancelDialog(d).0, n);
  }

  // ---------------------------------------------------------------------------
  // The monitor
  // ---------------------------------------------------------------------------

  /** The monitor's fields; `dialog` is None until the dialog is first shown. */
  datatype MonitorState = MonitorState(
    voltageThreshold: real, lowThreshold: real, debounce: int, testMode: bool,
    lastVoltage: real, wasPowered: bool, lowCount: nat, powerLostTriggered: bool,
    lastReceipt: Option<real>, noSignalTriggered: bool, quickTriggered: bool,
    dialog: Option<DialogState>)

  /** `shutdown_dialog and shutdown_dialog.isVisible()` */
  predicate DialogVisible(m: MonitorState) {
    m.dialog.Some? && m.dialog.value.visible
  }

  /** The configuration a monitor keeps for its whole life. */
  predicate SameConfig(m: MonitorState, n: MonitorState) {
    n.voltageThreshold == m.voltageThreshold && n.lowThreshold == m.lowThreshold &&
    n.debounce == m.debounce && n.testMode == m.testMode
  }

  /** `__init__` (defaults 10.0 V, 1.0 V and 3 readings). */
  function InitialMonitor(voltageThreshold: real, lowThreshold: real, debounce: int, testMode: bool): (m: MonitorState)
    ensures m.lastVoltage == 0.0 && !m.wasPowered && m.lowCount == 0 && !m.powerLostTriggered
    ensures m.lastReceipt.None? && !m.noSignalTriggered && !m.quickTriggered && m.dialog.None?
  {
    MonitorState(voltageThreshold, lowThreshold, debounce, testMode, 0.0, false, 0, false, None, false, false, None)
  }

  /** `update_voltage` at time `now`. */
  function AfterVoltage(m: MonitorState, voltage: real, now: real): (r: (MonitorState, seq<Signal>))
    ensures SameConfig(m, r.0)
    ensures r.0.lastVoltage == voltage && r.0.lastReceipt == Some(now)
    ensures !r.0.noSignalTriggered && !r.0.quickTriggered
    ensures r.0.wasPowered <==> m.wasPowered || voltage >= m.voltageThreshold
    ensures r.0.lowCount ==
      if voltage >= m.voltageThreshold then 0
      else if m.wasPowered && voltage < m.lowThreshold then m.lowCount + 1
      else m.lowCount
    ensures PowerLost in r.1 <==>
      voltage < m.voltageThreshold && m.wasPowered && voltage < m.lowThreshold &&
      m.lowCount + 1 >= m.debounce && !m.powerLostTriggered
    ensures r.0.powerLostTriggered <==> voltage < m.voltageThreshold && (m.powerLostTriggered || PowerLost in r.1)
    ensures PowerRestored in r.1 <==> voltage >= m.voltageThreshold && DialogVisible(m)
    ensures |r.1| <= 1
    ensures voltage >= m.voltageThreshold ==> !DialogVisible(r.0)
    ensures voltage >= m.voltageThreshold ==>
      r.0.dialog == if DialogVisible(m) then Some(CloseDialog(m.dialog.value)) else m.dialog
    ensures voltage < m.voltageThreshold ==> r.0.dialog == m.dialog
  {
    var heard := m.(lastReceipt := Some(now), noSignalTriggered := false, quickTriggered := false);
    if voltage >= m.voltageThreshold then
      var normal := heard.(wasPowered := true, lowCount := 0, powerLostTriggered := false, lastVoltage := voltage);
      if DialogVisible(m) then (normal.(dialog := Some(CloseDialog(m.dialog.value))), [PowerRestored])
      else (normal, [])
    else if m.wasPowered && voltage < m.lowThreshold then
      var count := m.lowCount + 1;
      var fire := count >= m.debounce && !m.powerLostTriggered;
      (heard.(lowCount := count, powerLostTriggered := m.powerLostTriggered || fire, lastVoltage := voltage),
       if fire then [PowerLost] else [])
    else
      (heard.(lastVoltage := voltage), [])
  }

  /** The conditions under which `_check_quick_power_loss` fires at time `now`. */
  predicate QuickLossDue(m: MonitorState, now: real) {
    m.wasPowered && m.lastReceipt.Some? && !m.quickTriggered && !m.powerLostTriggered &&
    !DialogVisible(m) && now - m.lastReceipt.value >= QUICK_POWER_LOSS_TIMEOUT
  }

  /** `_check_quick_power_loss`: on firing it sets both flags and emits `power_lost`. */
  function AfterQuickCheck(m: MonitorState, now: real): (r: (MonitorState, seq<Signal>))
    ensures QuickLossDue(m, now) ==> r == (m.(quickTriggered := true, powerLostTriggered := true), [PowerLost])
    ensures !QuickLossDue(m, now) ==> r == (m, [])
  {
    if !m.wasPowered || m.lastReceipt.None? then (m, [])
    else if m.quickTriggered || m.powerLostTriggered then (m, [])
    else if DialogVisible(m) then (m, [])
    else if now - m.lastReceipt.value >= QUICK_POWER_LOSS_TIMEOUT then
      (m.(quickTriggered := true, powerLostTriggered := true), [PowerLost])
    else (m, [])
  }

  /** The conditions under which `_check_no_signal_timeout` fires at time `now`. */
  predicate NoSignalDue(m: MonitorState, now: real) {
    m.lastReceipt.Some? && !m.noSignalTriggered && !m.quickTriggered && !m.powerLostTriggered &&
    !DialogVisible(m) && now - m.lastReceipt.value >= NO_VOLTAGE_SIGNAL_TIMEOUT
  }

  /** `_check_no_signal_timeout`: on firing it sets its own flag and emits `no_signal_timeout`, never `power_lost`. */
  function AfterNoSignalCheck(m: MonitorState, now: real): (r: (MonitorState, seq<Signal>))
    ensures NoSignalDue(m, now) ==> r == (m.(noSignalTriggered := true), [NoSignalTimeout])
    ensures !NoSignalDue(m, now) ==> r == (m, [])
  {
    if m.lastReceipt.None? || m.noSignalTriggered then (m, [])
    else if m.quickTriggered || m.powerLostTriggered then (m, [])
    else if DialogVisible(m) then (m, [])
    else if now - m.lastReceipt.value >= NO_VOLTAGE_SIGNAL_TIMEOUT then
      (m.(noSignalTriggered := true), [NoSignalTimeout])
    else (m, [])
  }

  /** `start_no_signal_monitoring`: the reference time is now and both timeout flags are clear. */
  function StartMonitoring(m: MonitorState, now: real): (r: MonitorState)
    ensures r.lastReceipt == Some(now) && !r.noSignalTriggered && !r.quickTriggered
    ensures r.wasPowered == m.wasPowered && r.lowCount == m.lowCount && r.powerLostTriggered == m.powerLostTriggered
  {
    m.(lastReceipt := Some(now), noSignalTriggered := false, quickTriggered := false)
  }

  /**
   * `_on_shutdown_cancelled`: power loss may be detected again and the
   * three-minute wait starts over; `was_powered` and the quick-loss flag stay.
   */
  function Cancelled(m: MonitorState, now: real): (r: MonitorState)
    ensures !r.powerLostTriggered && r.lowCount == 0 && !r.noSignalTriggered && r.lastReceipt == Some(now)
    ensures r.wasPowered == m.wasPowered && r.quickTriggered == m.quickTriggered
    ensures SameConfig(m, r) && r.lastVoltage == m.lastVoltage && r.dialog == m.dialog
  {
    m.(powerLostTriggered := false, lowCount := 0, noSignalTriggered := false, lastReceipt := Some(now))
  }

  /** `show_shutdown_dialog`: create the 30-second dialog once, and show it if it is hidden. */
  function WithDialogShown(m: MonitorState): (r: MonitorState)
    ensures DialogVisible(r)
    ensures DialogVisible(m) ==> r == m
    ensures !DialogVisible(m) ==> r.dialog.value.countdown == r.dialog.value.initial
    ensures m.dialog.None? ==> r.dialog.value.initial == DIALOG_COUNTDOWN && r.dialog.value.testMode == m.testMode
    ensures r.(dialog := m.dialog) == m
  {
    var d := if m.dialog.None? then NewDialog(DIALOG_COUNTDOWN, m.testMode) else m.dialog.value;
    if d.visible then m.(dialog := Some(d)) else m.(dialog := Some(ShowDialog(d)))
  }

  /** Everything that can happen to the monitor, each at the time it happens. */
  datatype Event =
    | Voltage(voltage: real, at: real)
    | QuickCheck(at: real)
    | NoSignalCheck(at: real)
    | Start(at: real)
    | ShowDialogEvent
    | DialogTick
    | CancelPressed(at: real)
    | ShutdownPressed

  /**
   * One event.  The dialog's buttons can only be pressed while it is visible;
   * its `shutdown_cancelled` is wired to the monitor's cancel handler.
   */
  function Step(m: MonitorState, e: Event): (r: (MonitorState, seq<Signal>))
    ensures SameConfig(m, r.0)
  {
    match e
      case Voltage(v, now) => AfterVoltage(m, v, now)
      case QuickCheck(now) => AfterQuickCheck(m, now)
      case NoSignalCheck(now) => AfterNoSignalCheck(m, now)
      case Start(now) => (StartMonitoring(m, now), [])
      case ShowDialogEvent => (WithDialogShown(m), [])
      case DialogTick =>
        if m.dialog.None? then (m, [])
        else
          var (d, s) := TickDialog(m.dialog.value);
          (m.(dialog := Some(d)), s)
      case CancelPressed(now) =>
        if !DialogVisible(m) then (m, [])
        else
          var (d, s) := CancelDialog(m.dialog.value);
          (Cancelled(m.(dialog := Some(d)), now), s)
      case ShutdownPressed =>
        if !DialogVisible(m) then (m, [])
        else
          var (d, s) := ShutdownNowDialog(m.dialog.value);
          (m.(dialog := Some(d)), s)
  }

  function Run(m: MonitorState, events: seq<Event>): (MonitorState, seq<Signal>)
    decreases |events|
  {
    if |events| == 0 then (m, [])
    else
      var (p, s) := Run(m, events[..|events| - 1]);
      var (q, t) := Step(p, events[|events| - 1]);
      (q, s + t)
  }

  lemma {:induction false} RunKeepsConfig(m: MonitorState, events: seq<Event>)
    ensures SameConfig(m, Run(m, events).0)
    decreases |events|
  {
    if |events| > 0 {
      RunKeepsConfig(m, events[..|events| - 1]);
    }
  }

  /** The two events that re-arm power-loss detection: a normal voltage and a cancel. */
  predicate Rearms(threshold: real, e: Event) {
    (e.Voltage? && e.voltage >= threshold) || e.CancelPressed?
  }

  /**
   * Between re-arming events `power_lost` is emitted at most once, by the
   * voltage drop or the quick-loss check, and not at all once it has been
   * triggered.
   */
  lemma {:induction false} PowerLostOnce(m: MonitorState, events: seq<Event>)
    requires forall k | 0 <= k < |events| :: !Rearms(m.voltageThreshold, events[k])
    ensures var (n, s) := Run(m, events);
      multiset(s)[PowerLost] <= (if m.powerLostTriggered then 0 else 1) &&
      (n.powerLostTriggered <==> m.powerLostTriggered || PowerLost in s)
    decreases |events|
  {
    if |events| > 0 {
      var init := events[..|events| - 1];
      PowerLostOnce(m, init);
      RunKeepsConfig(m, init);
      var (p, s) := Run(m, init);
      var e := events[|events| - 1];
      StepPowerLost(p, e);
      var (q, t) := Step(p, e);
      assert multiset(s + t) == multiset(s) + multiset(t);
    }
  }

  /** One event that does not re-arm emits `power_lost` only when the trigger is clear, and sets it. */
  lemma StepPowerLost(m: MonitorState, e: Event)
    requires !Rearms(m.voltageThreshold, e)
    ensures var (n, s) := Step(m, e);
      (PowerLost in s ==> !m.powerLostTriggered && s == [PowerLost]) &&
      (PowerLost !in s ==> multiset(s)[PowerLost] == 0) &&
      (n.powerLostTriggered <==> m.powerLostTriggered || PowerLost in s)
  {
    match e
      case DialogTick => {
        if m.dialog.Some? {
          var (d, s) := TickDialog(m.dialog.value);
          assert PowerLost !in s;
        }
      }
      case ShutdownPressed => { }
      case _ => { }
  }

  /** One event that does not restart the wait emits `no_signal_timeout` only when its flag is clear, and sets it. */
  lemma StepNoSignal(m: MonitorState, e: Event)
    requires !RestartsWait(e)
    ensures var (n, s) := Step(m, e);
      (NoSignalTimeout in s ==> !m.noSignalTriggered && s == [NoSignalTimeout]) &&
      (NoSignalTimeout !in s ==> multiset(s)[NoSignalTimeout] == 0) &&
      (n.noSignalTriggered <==> m.noSignalTriggered || NoSignalTimeout in s)
  {
    match e
      case DialogTick => {
        if m.dialog.Some? {
          var (d, s) := TickDialog(m.dialog.value);
          assert NoSignalTimeout !in s;
        }
      }
      case _ => { }
  }

  /** The events that give the three-minute wait another chance: a voltage reading, a restart of monitoring and a cancel. */
  predicate RestartsWait(e: Event) {
    e.Voltage? || e.Start? || e.CancelPressed?
  }

  /** Without a reading, a restart or a cancel, `no_signal_timeout` is emitted at most once. */
  lemma {:induction false} NoSignalOnce(m: MonitorState, events: seq<Event>)
    requires forall k | 0 <= k < |events| :: !RestartsWait(events[k])
    ensures var (n, s) := Run(m, events);
      multiset(s)[NoSignalTimeout] <= (if m.noSignalTriggered then 0 else 1) &&
      (n.noSignalTriggered <==> m.noSignalTriggered || NoSignalTimeout in s)
    decreases |events|
  {
    if |events| > 0 {
      var init := events[..|events| - 1];
      NoSignalOnce(m, init);
      var (p, s) := Run(m, init);
      var e := events[|events| - 1];
      StepNoSignal(p, e);
      var (q, t) := Step(p, e);
      assert multiset(s + t) == multiset(s) + multiset(t);
    }
  }

  /** Readings only, all at or below the low threshold and below the normal one. */
  predicate AllLow(m: MonitorState, events: seq<Event>) {
    forall k | 0 <= k < |events| ::
      events[k].Voltage? && events[k].voltage < m.lowThreshold && events[k].voltage < m.voltageThreshold
  }

  /**
   * After a normal reading, `k` low readings in a row count up by `k` and
   * emit `power_lost` once exactly when the count reaches the debounce limit
   * with the trigger clear.
   */
  lemma {:induction false} LowReadingsTrigger(m: MonitorState, events: seq<Event>)
    requires m.wasPowered && AllLow(m, events)
    ensures var (n, s) := Run(m, events);
      var fires := |events| >= 1 && !m.powerLostTriggered && m.lowCount + |events| >= m.debounce;
      n.lowCount == m.lowCount + |events| &&
      n.wasPowered &&
      multiset(s)[PowerLost] == (if fires then 1 else 0) &&
      (n.powerLostTriggered <==> m.powerLostTriggered || fires)
    decreases |events|
  {
    if |events| > 0 {
      var init := events[..|events| - 1];
      assert AllLow(m, init) by {
        forall k | 0 <= k < |init| ensures init[k] == events[k] { }
      }
      LowReadingsTrigger(m, init);
      RunKeepsConfig(m, init);
      var (p, s) := Run(m, init);
      var e := events[|events| - 1];
      var (q, t) := AfterVoltage(p, e.voltage, e.at);
      assert multiset(s + t) == multiset(s) + multiset(t);
      assert PowerLost !in t ==> multiset(t)[PowerLost] == 0;
    }
  }

  /** Before the first normal reading, readings below the normal threshold never count, trigger or emit. */
  lemma {:induction false} UnpoweredIgnoresLow(m: MonitorState, events: seq<Event>)
    requires !m.wasPowered
    requires forall k | 0 <= k < |events| :: events[k].Voltage? && events[k].voltage < m.voltageThreshold
    ensures var (n, s) := Run(m, events);
      !n.wasPowered && n.lowCount == m.lowCount && n.powerLostTriggered == m.powerLostTriggered && s == []
    decreases |events|
  {
    if |events| > 0 {
      var init := events[..|events| - 1];
      UnpoweredIgnoresLow(m, init);
      RunKeepsConfig(m, init);
    }
  }

  /** A reading between the two thresholds leaves the low count and the trigger as they were. */
  lemma MidVoltageKeepsCount(m: MonitorState, voltage: real, now: real)
    requires m.lowThreshold <= voltage < m.voltageThreshold
    ensures var (n, s) := AfterVoltage(m, voltage, now);
      n == m.(lastVoltage := voltage, lastReceipt := Some(now), noSignalTriggered := false, quickTriggered := false) &&
      s == []
  {
  }

  // ---------------------------------------------------------------------------
  // The Qt objects
  // ---------------------------------------------------------------------------

  class ShutdownDialog {
    var countdown: int
    var initial: int
    var testMode: bool
    var visible: bool
    var timerRunning: bool

    function State(): DialogState
      reads this
    {
      DialogState(countdown, initial, testMode, visible, timerRunning)
    }

    constructor(seconds: int, testMode: bool)
      ensures State() == NewDialog(seconds, testMode)
    {
      countdown := seconds;
      initial := seconds;
      this.testMode := testMode;
      visible := false;
      timerRunning := false;
    }

    method Show()
      modifies this
      ensures State() == ShowDialog(old(State()))
    {
      visible := true;
      countdown := initial;
      timerRunning := true;
    }

    method Close()
      modifies this
      ensures State() == CloseDialog(old(State()))
    {
      visible := false;
      timerRunning := false;
    }

    method DoShutdown() returns (signals: seq<Signal>)
      modifies this
      ensures (State(), signals) == ShutdownOutcome(old(State()))
    {
      if testMode {
        signals := [ExitApp];
      } else {
        signals := [ShutdownConfirmed];
      }
      Close();
    }

    method OnTick() returns (signals: seq<Signal>)
      modifies this
      ensures (State(), signals) == TickDialog(old(State()))
    {
      signals := [];
      if !timerRunning {
        return;
      }
      countdown := countdown - 1;
      if countdown <= 0 {
        timerRunning := false;
        signals := DoShutdown();
      }
    }

    method OnCancel() returns (signals: seq<Signal>)
      modifies this
      ensures (State(), signals) == CancelDialog(old(State()))
    {
      timerRunning := false;
      signals := [ShutdownCancelled];
      Close();
    }

    method OnShutdown() returns (signals: seq<Signal>)
      modifies this
      ensures (State(), signals) == ShutdownNowDialog(old(State()))
    {
      timerRunning := false;
      signals := DoShutdown();
    }
  }

  class ShutdownMonitor {
    const voltageThreshold: real
    const lowThreshold: real
    const debounce: int
    const testMode: bool
    var lastVoltage: real
    var wasPowered: bool
    var lowCount: nat
    var powerLostTriggered: bool
    var lastReceipt: Option<real>
    var noSignalTriggered: bool
    var quickTriggered: bool
    var dialog: ShutdownDialog?

    function State(): MonitorState
      reads this, dialog
    {
      MonitorState(voltageThreshold, lowThreshold, debounce, testMode,
        lastVoltage, wasPowered, lowCount, powerLostTriggered,
        lastReceipt, noSignalTriggered, quickTriggered,
        if dialog == null then None else Some(dialog.State()))
    }

    constructor(voltageThreshold: real, lowThreshold: real, debounce: int, testMode: bool)
      ensures State() == InitialMonitor(voltageThreshold, lowThreshold, debounce, testMode)
    {
      this.voltageThreshold := voltageThreshold;
      this.lowThreshold := lowThreshold;
      this.debounce := debounce;
      this.testMode := testMode;
      lastVoltage := 0.0;
      wasPowered := false;
      lowCount := 0;
      powerLostTriggered := false;
      lastReceipt := None;
      noSignalTriggered := false;
      quickTriggered := false;
      dialog := null;
    }

    method UpdateVoltage(voltage: real, now: real) returns (signals: seq<Signal>)
      modifies this, dialog
      ensures dialog == old(dialog)
      ensures (State(), signals) == AfterVoltage(old(State()), voltage, now)
    {
      signals := [];
      lastReceipt := Some(now);
      noSignalTriggered := false;
      quickTriggered := false;
      if voltage >= voltageThreshold {
        wasPowered := true;
        lowCount := 0;
        powerLostTriggered := false;
        quickTriggered := false;
        if dialog != null && dialog.visible {
          dialog.Close();
          signals := [PowerRestored];
        }
      } else if wasPowered && voltage < lowThreshold {
        lowCount := lowCount + 1;
        if lowCount >= debounce && !powerLostTriggered {
          powerLostTriggered := true;
          signals := [PowerLost];
        }
      }
      lastVoltage := voltage;
    }

    method CheckQuickPowerLoss(now: real) returns (signals: seq<Signal>)
      modifies this
      ensures (State(), signals) == AfterQuickCheck(old(State()), now)
    {
      signals := [];
      if !wasPowered || lastReceipt == None {
        return;
      }
      if quickTriggered || powerLostTriggered {
        return;
      }
      if dialog != null && dialog.visible {
        return;
      }
      if now - lastReceipt.value >= QUICK_POWER_LOSS_TIMEOUT {
        quickTriggered := true;
        powerLostTriggered := true;
        signals := [PowerLost];
      }
    }

    method CheckNoSignalTimeout(now: real) returns (signals: seq<Signal>)
      modifies this
      ensures (State(), signals) == AfterNoSignalCheck(old(State()), now)
    {
      signals := [];
      if lastReceipt == None || noSignalTriggered {
        return;
      }
      if quickTriggered || powerLostTriggered {
        return;
      }
      if dialog != null && dialog.visible {
        return;
      }
      if now - lastReceipt.value >= NO_VOLTAGE_SIGNAL_TIMEOUT {
        noSignalTriggered := true;
        signals := [NoSignalTimeout];
      }
    }

    method StartNoSignalMonitoring(now: real)
      modifies this
      ensures State() == StartMonitoring(old(State()), now)
    {
      lastReceipt := Some(now);
      noSignalTriggered := false;
      quickTriggered := false;
    }

    method OnShutdownCancelled(now: real)
      modifies this
      ensures State() == Cancelled(old(State()), now)
    {
      powerLostTriggered := false;
      lowCount := 0;
      noSignalTriggered := false;
      lastReceipt := Some(now);
    }

    method ShowShutdownDialog()
      modifies this, dialog
      ensures dialog != null && (old(dialog) == null ==> fresh(dialog)) && (old(dialog) != null ==> dialog == old(dialog))
      ensures State() == WithDialogShown(old(State()))
    {
      if dialog == null {
        dialog := new ShutdownDialog(DIALOG_COUNTDOWN, testMode);
      }
      if !dialog.visible {
        dialog.Show();
      }
    }
  }
}
