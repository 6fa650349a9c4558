// The start-up progress window (startup_progress.py): a status line, a detail
// line and a progress bar driven either step by step or by messages sent over
// a Unix socket from the boot scripts.  Qt's QProgressBar is part of the
// model because the window relies on its range rule: a value outside
// [minimum, maximum] is ignored.  The socket, JSON text and timers are inputs.

module StartupProgress {
  import opened Wrappers

  // ---------------------------------------------------------------- the bar

  /** The QProgressBar fields the window touches. */
  datatype Bar = Bar(minimum: int, maximum: int, value: int)

  /**
   * `QProgressBar::setValue`: a value outside the range is ignored, except
   * when the range is 0..0 (the busy indicator), which takes any value.
   */
  function SetBarValue(b: Bar, v: int): (r: Bar)
    ensures r.minimum == b.minimum && r.maximum == b.maximum
    ensures b.minimum <= v <= b.maximum ==> r.value == v
    ensures (v < b.minimum || v > b.maximum) && (b.minimum != 0 || b.maximum != 0) ==> r.value == b.value
  {
    if (v > b.maximum || v < b.minimum) && (b.maximum != 0 || b.minimum != 0) then b
    else b.(value := v)
  }

  /**
   * `QProgressBar::setMaximum`, that is `setRange(min(minimum, m), m)`: a
   * changed range resets a value outside it to minimum - 1.
   */
  function SetBarMaximum(b: Bar, m: int): (r: Bar)
    ensures r.maximum == m && r.minimum <= m
    ensures r.minimum - 1 <= r.value <= r.maximum || r == b
  {
    var lo := if b.minimum < m then b.minimum else m;
    if lo == b.minimum && m == b.maximum then b
    else if b.value < lo - 1 || b.value > m then Bar(lo, m, lo - 1)
    else Bar(lo, m, b.value)
  }

  /** The bar as `_init_ui` leaves it: range 0..100, value 0. */
  const INITIAL_BAR: Bar := Bar(0, 100, 0)

  // ------------------------------------------------------------- the window

  /** A step: its name and its default detail text. */
  type Step = (string, string)

  datatype Window = Window(steps: seq<Step>, currentStep: nat, status: string, detail: string,
                           bar: Bar, closing: bool, finished: bool)

  const DONE_TEXT: string := "完成"
  const COMPLETE_STATUS: string := "✅ 啟動完成"
  const COMPLETE_DETAIL: string := "正在載入儀表板..."

  const INITIAL_WINDOW: Window := Window([], 0, "正在初始化...", "", INITIAL_BAR, false, false)

  /** Python `text or fallback` for an optional argument: None and "" fall back. */
  function Or(text: Option<string>, fallback: string): (r: string)
    ensures text.Some? && text.value != [] ==> r == text.value
    ensures text.None? || text.value == [] ==> r == fallback
  {
    if text.Some? && text.value != [] then text.value else fallback
  }

  /** `int((step_index + 1) / len(self.steps) * 100) if self.steps else 0`, in exact arithmetic. */
  function Percent(index: nat, count: nat): (p: nat)
    ensures count == 0 ==> p == 0
    ensures count > 0 ==> p * count <= (index + 1) * 100 < (p + 1) * count
  {
    if count == 0 then 0 else (index + 1) * 100 / count
  }

  lemma MulLe(a: int, b: int, c: nat)
    requires a <= b
    ensures a * c <= b * c
  {
    assert b * c - a * c == (b - a) * c;
  }

  /** The percentage of a step inside the list is at most 100, and the last step's is exactly 100. */
  lemma PercentBounds(index: nat, count: nat)
    requires index < count
    ensures Percent(index, count) <= 100
    ensures index == count - 1 ==> Percent(index, count) == 100
  {
    var p := Percent(index, count);
    MulLe(index + 1, count, 100);
    assert (index + 1) * 100 <= count * 100;
    if p >= 101 {
      MulLe(101, p, count);
      assert false;
    }
    if index == count - 1 && p + 1 <= 100 {
      MulLe(p + 1, 100, count);
      assert false;
    }
  }

  /** A later step never shows less progress. */
  lemma PercentMonotone(i: nat, j: nat, count: nat)
    requires i <= j
    ensures Percent(i, count) <= Percent(j, count)
  {
    if count > 0 {
      var p, q := Percent(i, count), Percent(j, count);
      MulLe(i + 1, j + 1, 100);
      if p >= q + 1 {
        MulLe(q + 1, p, count);
        assert false;
      }
    }
  }

  /** `min(100, max(0, progress))` */
  function Clamp(v: int): (r: int)
    ensures 0 <= r <= 100
    ensures 0 <= v <= 100 ==> r == v
    ensures v < 0 ==> r == 0
    ensures v > 100 ==> r == 100
  {
    if v < 0 then 0 else if v > 100 then 100 else v
  }

  /** `set_steps` as written: the bar's maximum becomes the number of steps. */
  function SetStepsAsWritten(w: Window, steps: seq<Step>): (r: Window)
    ensures r.steps == steps && r.currentStep == 0
    ensures r.bar.maximum == |steps| && r.bar.minimum == (if w.bar.minimum < |steps| then w.bar.minimum else |steps|)
    ensures r.bar.minimum <= 0 ==> r.bar.value == 0
    ensures r.status == w.status && r.detail == w.detail && r.closing == w.closing && r.finished == w.finished
  {
    w.(steps := steps, currentStep := 0, bar := SetBarValue(SetBarMaximum(w.bar, |steps|), 0))
  }

  /** `set_steps` with the bar left on its 0..100 percentage range, as every other writer of the bar expects. */
  function SetSteps(w: Window, steps: seq<Step>): (r: Window)
    ensures r.steps == steps && r.currentStep == 0
    ensures r.bar.minimum == w.bar.minimum && r.bar.maximum == w.bar.maximum
    ensures w.bar.minimum <= 0 <= w.bar.maximum ==> r.bar.value == 0
    ensures r.status == w.status && r.detail == w.detail
  {
    w.(steps := steps, currentStep := 0, bar := SetBarValue(w.bar, 0))
  }

  /** The status and detail texts `show_step` shows. */
  function StepTexts(steps: seq<Step>, index: nat, statusText: Option<string>, detailText: Option<string>): (r: (string, string))
    ensures index < |steps| ==> r == (Or(statusText, steps[index].0), Or(detailText, steps[index].1))
    ensures index >= |steps| ==> r == (Or(statusText, DONE_TEXT), Or(detailText, ""))
  {
    if index < |steps| then (Or(statusText, steps[index].0), Or(detailText, steps[index].1))
    else (Or(statusText, DONE_TEXT), Or(detailText, ""))
  }

  /** `show_step` */
  function ShowStep(w: Window, index: nat, statusText: Option<string>, detailText: Option<string>): Window {
    var texts := StepTexts(w.steps, index, statusText, detailText);
    w.(currentStep := index, status := texts.0, detail := texts.1,
       bar := SetBarValue(w.bar, Percent(index, |w.steps|)))
  }

  /** `update_progress` */
  function UpdateProgress(w: Window, message: string, detail: string, progress: int): Window {
    w.(status := message, detail := detail, bar := SetBarValue(w.bar, Clamp(progress)))
  }

  /** `advance_step` */
  function AdvanceStep(w: Window, statusText: Option<string>, detailText: Option<string>): Window {
    ShowStep(w, w.currentStep + 1, statusText, detailText)
  }

  /** `complete`: the bar to 100, the fixed texts, and the close timer started. */
  function Complete(w: Window): Window {
    w.(bar := SetBarValue(w.bar, 100), status := COMPLETE_STATUS, detail := COMPLETE_DETAIL, closing := true)
  }

  /** `_finish_and_close`, when the close timer fires. */
  function FinishAndClose(w: Window): Window {
    w.(finished := true)
  }

  /** The bar on its percentage range with a value inside it. */
  predicate PercentBar(w: Window) {
    w.bar.minimum == 0 && w.bar.maximum == 100 && 0 <= w.bar.value <= 100
  }

  /**
   * On the percentage range `show_step` shows the step's percentage for a
   * step in the list; a percentage above 100 is ignored.
   */
  lemma ShowStepBar(w: Window, index: nat, statusText: Option<string>, detailText: Option<string>)
    requires PercentBar(w)
    ensures var s := ShowStep(w, index, statusText, detailText);
      PercentBar(s) && (index < |w.steps| ==> s.bar.value == Percent(index, |w.steps|)) &&
      (Percent(index, |w.steps|) > 100 ==> s.bar.value == w.bar.value)
  {
    if index < |w.steps| {
      PercentBounds(index, |w.steps|);
    }
  }

  /** On the percentage range `update_progress` shows the clamped value and `complete` shows 100. */
  lemma UpdateAndCompleteBar(w: Window, message: string, detail: string, progress: int)
    requires PercentBar(w)
    ensures var u := UpdateProgress(w, message, detail, progress);
      PercentBar(u) && u.bar.value == Clamp(progress)
    ensures PercentBar(Complete(w)) && Complete(w).bar.value == 100
  {
  }

  /** `advance_step` applied k times. */
  function Advanced(w: Window, k: nat): Window
    decreases k
  {
    if k == 0 then w else AdvanceStep(Advanced(w, k - 1), None, None)
  }

  /**
   * The `--test` walk: after `set_steps` and `show_step(0)`, k calls of
   * `advance_step` reach step k and show its percentage while it lies in the list.
   */
  lemma {:induction false} WalkShowsPercent(w: Window, steps: seq<Step>, k: nat)
    requires PercentBar(w) && k < |steps|
    ensures var r := Advanced(ShowStep(SetSteps(w, steps), 0, None, None), k);
      r.currentStep == k && r.steps == steps && PercentBar(r) && r.bar.value == Percent(k, |steps|)
    decreases k
  {
    var start := ShowStep(SetSteps(w, steps), 0, None, None);
    ShowStepBar(SetSteps(w, steps), 0, None, None);
    if k > 0 {
      WalkShowsPercent(w, steps, k - 1);
      ShowStepBar(Advanced(start, k - 1), k, None, None);
    }
  }

  /**
   * `set_steps` as written sets the range to 0..len(steps) while `show_step`
   * writes a percentage: with nine steps or fewer every step's percentage is
   * above the maximum and Qt ignores it, and so it ignores `complete`'s 100.
   * The bar never leaves 0.
   */
  lemma AsWrittenBarStuck(w: Window, steps: seq<Step>, index: nat)
    requires PercentBar(w) && 1 <= |steps| <= 9
    ensures var s := SetStepsAsWritten(w, steps);
      s.bar.value == 0 && ShowStep(s, index, None, None).bar.value == 0 &&
      Complete(ShowStep(s, index, None, None)).bar.value == 0
  {
    var n := |steps|;
    var s := SetStepsAsWritten(w, steps);
    assert s.bar.maximum == n && s.bar.minimum == 0;
    var p := Percent(index, n);
    assert (p + 1) * n > (index + 1) * 100 >= 100;
    if p <= n {
      MulLe(p + 1, 10, n);
      assert false;
    }
    assert ShowStep(s, index, None, None).bar == s.bar;
  }

  class StartupProgressWindow {
    var steps: seq<Step>
    var currentStep: nat
    var status: string
    var detail: string
    var bar: Bar
    var closing: bool
    var finished: bool

    function State(): Window
      reads this
    {
      Window(steps, currentStep, status, detail, bar, closing, finished)
    }

    constructor()
      ensures State() == INITIAL_WINDOW
    {
      steps := [];
      currentStep := 0;
      status := "正在初始化...";
      detail := "";
      bar := INITIAL_BAR;
      closing := false;
      finished := false;
    }

    method SetStepsOf(newSteps: seq<Step>)
      modifies this
      ensures State() == SetStepsAsWritten(old(State()), newSteps)
    {
      steps := newSteps;
      currentStep := 0;
      bar := SetBarMaximum(bar, |newSteps|);
      bar := SetBarValue(bar, 0);
    }

    method ShowStepAt(index: nat, statusText: Option<string>, detailText: Option<string>)
      modifies this
      ensures State() == ShowStep(old(State()), index, statusText, detailText)
    {
      currentStep := index;
      if index < |steps| {
        var (name, defaultDetail) := steps[index];
        status := Or(statusText, name);
        detail := Or(detailText, defaultDetail);
      } else {
        status := Or(statusText, DONE_TEXT);
        detail := Or(detailText, "");
      }
      var progress := if |steps| > 0 then (index + 1) * 100 / |steps| else 0;
      bar := SetBarValue(bar, progress);
    }

    method UpdateProgressTo(message: string, detailText: string, progress: int)
      modifies this
      ensures State() == UpdateProgress(old(State()), message, detailText, progress)
    {
      status := message;
      detail := detailText;
      bar := SetBarValue(bar, if 100 < (if 0 < progress then progress else 0) then 100 else (if 0 < progress then progress else 0));
    }

    method Advance(statusText: Option<string>, detailText: Option<string>)
      modifies this
      ensures State() == AdvanceStep(old(State()), statusText, detailText)
    {
      ShowStepAt(currentStep + 1, statusText, detailText);
    }

    /** `complete`, also reached by Escape and by the thirty-second timer. */
    method CompleteNow()
      modifies this
      ensures State() == Complete(old(State()))
    {
      bar := SetBarValue(bar, 100);
      status := COMPLETE_STATUS;
      detail := COMPLETE_DETAIL;
      closing := true;
    }

    method OnCloseTimer()
      modifies this
      ensures State() == FinishAndClose(old(State()))
    {
      finished := true;
    }
  }

  // ------------------------------------------------------------------- IPC

  /** A decoded JSON value, as far as the dispatch looks at it. */
  datatype Json = JObject(fields: map<string, Json>) | JString(text: string) | JInt(number: int) | JOther

  /** What one pass of the accept loop gets: nothing before the timeout, a failure, or a payload. */
  datatype Incoming = Timeout | Failure | Payload(data: string, decoded: Option<Json>)

  datatype Signal = UpdateReceived(message: string, detail: string, progress: int) | CloseReceived

  /** `msg.get(key, fallback)` */
  function Get(fields: map<string, Json>, key: string, fallback: Json): Json {
    if key in fields then fields[key] else fallback
  }

  /**
   * The dispatch of one decoded message.  An update whose fields have the
   * wrong types fails in the signal's emit, which the loop's outer handler
   * swallows; anything but an object fails in `msg.get` the same way.
   */
  function Dispatch(msg: Json): (r: Option<Signal>)
    ensures r == Some(CloseReceived) <==> msg.JObject? && Get(msg.fields, "cmd", JString("")) == JString("close")
    ensures r.Some? && r.value.UpdateReceived? ==> msg.JObject? && Get(msg.fields, "cmd", JString("")) == JString("update")
  {
    match msg
      case JObject(fields) =>
        var cmd := Get(fields, "cmd", JString(""));
        if cmd == JString("update") then
          match (Get(fields, "message", JString("")), Get(fields, "detail", JString("")), Get(fields, "progress", JInt(0)))
            case (JString(m), JString(d), JInt(p)) => Some(UpdateReceived(m, d, p))
            case _ => None
        else if cmd == JString("close") then Some(CloseReceived)
        else None
      case _ => None
  }

  /** What one pass does: a signal, or nothing for a timeout, a failure, empty data or bad JSON. */
  function Receive(e: Incoming): Option<Signal> {
    match e
      case Payload(data, Some(msg)) => if data == [] then None else Dispatch(msg)
      case _ => None
  }

  /** The signals of the accept loop over what it receives, and how many passes it makes. */
  function Serve(events: seq<Incoming>): (r: (seq<Signal>, nat))
    ensures r.1 <= |events|
    decreases |events|
  {
    if |events| == 0 then ([], 0)
    else match Receive(events[0])
      case Some(CloseReceived) => ([CloseReceived], 1)
      case Some(update) =>
        var rest := Serve(events[1..]);
        ([update] + rest.0, rest.1 + 1)
      case None =>
        var rest := Serve(events[1..]);
        (rest.0, rest.1 + 1)
  }

  /** A first pass that is not a close adds at most one update in front of the rest. */
  lemma ServeStep(events: seq<Incoming>)
    requires |events| > 0 && Receive(events[0]) != Some(CloseReceived)
    ensures Receive(events[0]).None? ==> Serve(events) == (Serve(events[1..]).0, Serve(events[1..]).1 + 1)
    ensures Receive(events[0]).Some? ==>
      (Receive(events[0]).value.UpdateReceived? &&
       Serve(events) == ([Receive(events[0]).value] + Serve(events[1..]).0, Serve(events[1..]).1 + 1))
  {
  }

  /**
   * A close is the last thing the loop emits: it stops there, and every
   * signal before it is an update.
   */
  /** Only the last signal can be a close. */
  lemma {:induction false} UpdatesBeforeLast(events: seq<Incoming>)
    ensures forall k | 0 <= k < |Serve(events).0| - 1 :: Serve(events).0[k].UpdateReceived?
    decreases |events|
  {
    if |events| > 0 && Receive(events[0]) != Some(CloseReceived) {
      var tail := events[1..];
      ServeStep(events);
      UpdatesBeforeLast(tail);
      var other := Receive(events[0]);
      var rest := Serve(tail).0;
      if other.Some? {
        var signals := [other.value] + rest;
        forall k | 0 <= k < |signals| - 1
          ensures signals[k].UpdateReceived?
        {
          if k >= 1 { assert signals[k] == rest[k - 1]; }
        }
      }
    }
  }

  /** A final close came from the last pass the loop made. */
  lemma {:induction false} CloseFromLastPass(events: seq<Incoming>)
    ensures var signals := Serve(events).0;
      |signals| > 0 && signals[|signals| - 1] == CloseReceived ==>
        Serve(events).1 >= 1 && Receive(events[Serve(events).1 - 1]) == Some(CloseReceived)
    decreases |events|
  {
    if |events| > 0 && Receive(events[0]) != Some(CloseReceived) {
      var tail := events[1..];
      ServeStep(events);
      CloseFromLastPass(tail);
      var rest := Serve(tail);
      var signals := Serve(events).0;
      if |signals| > 0 && signals[|signals| - 1] == CloseReceived {
        assert |rest.0| > 0 && signals[|signals| - 1] == rest.0[|rest.0| - 1];
        assert events[rest.1] == tail[rest.1 - 1];
      }
    }
  }

  /** The loop stops early only at a close. */
  lemma {:induction false} StopsAtClose(events: seq<Incoming>)
    ensures var signals := Serve(events).0;
      Serve(events).1 < |events| ==> |signals| > 0 && signals[|signals| - 1] == CloseReceived
    decreases |events|
  {
    if |events| > 0 && Receive(events[0]) != Some(CloseReceived) {
      var tail := events[1..];
      ServeStep(events);
      StopsAtClose(tail);
      var rest := Serve(tail).0;
      var signals := Serve(events).0;
      if |rest| > 0 {
        assert signals[|signals| - 1] == rest[|rest| - 1];
      }
    }
  }

  /**
   * A close is the last thing the loop emits: it stops there, and every
   * signal before it is an update.
   */
  lemma CloseIsLast(events: seq<Incoming>)
    ensures forall k | 0 <= k < |Serve(events).0| - 1 :: Serve(events).0[k].UpdateReceived?
    ensures var signals := Serve(events).0;
      |signals| > 0 && signals[|signals| - 1] == CloseReceived ==>
        Serve(events).1 >= 1 && Receive(events[Serve(events).1 - 1]) == Some(CloseReceived)
    ensures var signals := Serve(events).0;
      Serve(events).1 < |events| ==> |signals| > 0 && signals[|signals| - 1] == CloseReceived
  {
    UpdatesBeforeLast(events);
    CloseFromLastPass(events);
    StopsAtClose(events);
  }

  /** `run_update_command`'s message. */
  function UpdateRequest(message: string, detail: string, progress: int): Json {
    JObject(map["cmd" := JString("update"), "message" := JString(message), "detail" := JString(detail), "progress" := JInt(progress)])
  }

  /** `run_close_command`'s message. */
  const CLOSE_REQUEST: Json := JObject(map["cmd" := JString("close")])

  /** The server hands on exactly what `run_update_command` sent, and closes on `run_close_command`. */
  lemma RequestsRoundTrip(message: string, detail: string, progress: int)
    ensures Dispatch(UpdateRequest(message, detail, progress)) == Some(UpdateReceived(message, detail, progress))
    ensures Dispatch(CLOSE_REQUEST) == Some(CloseReceived)
  {
    var f := UpdateRequest(message, detail, progress).fields;
    assert Get(f, "cmd", JString("")) == JString("update");
    assert Get(f, "message", JString("")) == JString(message);
    assert Get(f, "detail", JString("")) == JString(detail);
    assert Get(f, "progress", JInt(0)) == JInt(progress);
    assert Get(CLOSE_REQUEST.fields, "cmd", JString("")) == JString("close");
  }

  /** An update without its optional fields is forwarded with the defaults. */
  lemma UpdateDefaults()
    ensures Dispatch(JObject(map["cmd" := JString("update")])) == Some(UpdateReceived("", "", 0))
  {
    var f := map["cmd" := JString("update")];
    assert "message" !in f && "detail" !in f && "progress" !in f;
  }

  class IpcServer {
    var running: bool

    constructor()
      ensures running
    {
      running := true;
    }

    method Stop()
      modifies this
      ensures !running
    {
      running := false;
    }

    /**
     * `IPCServer.run` over what each pass of its accept loop receives: it
     * runs until a close arrives, `stop` was called first, or the input ends.
     */
    method Run(events: seq<Incoming>) returns (signals: seq<Signal>, passes: nat)
      modifies this
      ensures old(running) ==> (signals, passes) == Serve(events)
      ensures !old(running) ==> signals == [] && passes == 0
      ensures running <==> old(running) && !(CloseReceived in signals)
    {
      signals := [];
      passes := 0;
      if !running {
        return;
      }
      assert events[0..] == events;
      assert [] + Serve(events).0 == Serve(events).0;
      while running && passes < |events|
        invariant passes <= |events|
        invariant running ==> CloseReceived !in signals && Serve(events) == (signals + Serve(events[passes..]).0, passes + Serve(events[passes..]).1)
        invariant !running ==> Serve(events) == (signals, passes) && CloseReceived in signals
        decreases |events| - passes, running
      {
        var e := events[passes];
        assert events[passes..][0] == e && events[passes..][1..] == events[passes + 1..];
        ghost var before := signals;
        ghost var rest := Serve(events[passes + 1..]);
        var received := Receive(e);
        passes := passes + 1;
        match received
          case Some(CloseReceived) =>
            signals := signals + [CloseReceived];
            running := false;
          case Some(u) =>
            signals := signals + [u];
            assert before + ([u] + rest.0) == signals + rest.0;
          case None =>
      }
      if running {
        assert events[passes..] == [];
        assert signals + [] == signals;
      }
    }
  }
}
