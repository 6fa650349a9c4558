// The stand-alone turn-signal test window (test_turn_signal_simple.py): two
// indicator flags driven by the same state strings the CAN receiver sends,
// buttons that toggle them, and an automatic sequence that walks through
// every state.  The Qt widgets are reduced to the status text and whether
// each indicator is lit.

module TurnSignalTest {
  import opened Wrappers
  import CanReceiver

  datatype Flags = Flags(left: bool, right: bool)

  const STATUS_LEFT: string := "方向燈狀態: 左轉"
  const STATUS_RIGHT: string := "方向燈狀態: 右轉"
  const STATUS_HAZARD: string := "方向燈狀態: 雙閃 (警示燈)"
  const STATUS_OFF: string := "方向燈狀態: 關閉"

  /** The flags `set_turn_signal` leaves and the status text it shows; `None` for a state it does not know. */
  function Apply(f: Flags, state: string): (r: (Flags, Option<string>))
    ensures state == "left_on" ==> r == (Flags(true, false), Some(STATUS_LEFT))
    ensures state == "right_on" ==> r == (Flags(false, true), Some(STATUS_RIGHT))
    ensures state == "both_on" ==> r == (Flags(true, true), Some(STATUS_HAZARD))
    ensures state == "off" || state == "both_off" ==> r == (Flags(false, false), Some(STATUS_OFF))
    ensures state == "left_off" ==> r == (f.(left := false), Some(STATUS_OFF))
    ensures state == "right_off" ==> r == (f.(right := false), Some(STATUS_OFF))
    ensures !(state in KNOWN_STATES) ==> r == (f, None)
  {
    if state == "left_on" then (Flags(true, false), Some(STATUS_LEFT))
    else if state == "left_off" then (f.(left := false), Some(STATUS_OFF))
    else if state == "right_on" then (Flags(false, true), Some(STATUS_RIGHT))
    else if state == "right_off" then (f.(right := false), Some(STATUS_OFF))
    else if state == "both_on" then (Flags(true, true), Some(STATUS_HAZARD))
    else if state == "both_off" || state == "off" then (Flags(false, false), Some(STATUS_OFF))
    else (f, None)
  }

  /** The states `set_turn_signal` recognises. */
  const KNOWN_STATES: set<string> := {"left_on", "left_off", "right_on", "right_off", "both_on", "both_off", "off"}

  /** The command `toggle_signal` issues for a direction; an unknown direction issues none. */
  function ToggleCommand(f: Flags, direction: string): (c: Option<string>)
    ensures direction == "left" ==> c == Some(if f.left then "left_off" else "left_on")
    ensures direction == "right" ==> c == Some(if f.right then "right_off" else "right_on")
    ensures direction == "both" ==> c == Some(if f.left && f.right then "off" else "both_on")
    ensures direction != "left" && direction != "right" && direction != "both" ==> c == None
  {
    if direction == "left" then Some(if f.left then "left_off" else "left_on")
    else if direction == "right" then Some(if f.right then "right_off" else "right_on")
    else if direction == "both" then Some(if f.left && f.right then "off" else "both_on")
    else None
  }

  /** The flags after `toggle_signal`. */
  function Toggle(f: Flags, direction: string): Flags {
    match ToggleCommand(f, direction)
      case None => f
      case Some(c) => Apply(f, c).0
  }

  /**
   * A toggle flips the chosen side; switching a side on switches the other
   * off, switching it off leaves the other alone; the hazard button turns
   * both off when both are on and both on otherwise.
   */
  lemma ToggleFlips(f: Flags)
    ensures Toggle(f, "left").left == !f.left && Toggle(f, "right").right == !f.right
    ensures !f.left ==> !Toggle(f, "left").right
    ensures f.left ==> Toggle(f, "left").right == f.right
    ensures !f.right ==> !Toggle(f, "right").left
    ensures f.right ==> Toggle(f, "right").left == f.left
    ensures Toggle(f, "both") == (if f.left && f.right then Flags(false, false) else Flags(true, true))
  {
  }

  /** Hazard is its own inverse from the all-off state. */
  lemma HazardTwice()
    ensures Toggle(Toggle(Flags(false, false), "both"), "both") == Flags(false, false)
  {
  }

  /**
   * Every state the CAN receiver can send lights exactly the indicators its
   * left/right bits say, whatever was lit before.
   */
  lemma ReceiverStatesShown(f: Flags, left: int, right: int)
    ensures var shown := Apply(f, CanReceiver.TurnSignalState(left, right)).0;
      shown == Flags(left == 1 && (right == 1 || right == 0), right == 1 && (left == 1 || left == 0))
  {
  }

  /** `test_sequence` of the automatic test. */
  const AUTO_TEST: seq<string> := ["off", "left_on", "left_off", "right_on", "right_off", "both_on", "off"]

  /** The flags after each state of a sequence, starting from `f`. */
  function Replay(f: Flags, states: seq<string>): (r: seq<Flags>)
    ensures |r| == |states|
    decreases |states|
  {
    if |states| == 0 then []
    else
      var init := Replay(f, states[..|states| - 1]);
      var last := if |init| == 0 then f else init[|init| - 1];
      init + [Apply(last, states[|states| - 1]).0]
  }

  /** One more state appends the flags it leaves after the last ones shown. */
  lemma ReplayNext(f: Flags, states: seq<string>, i: nat, last: Flags)
    requires i < |states|
    requires last == (if i == 0 then f else Replay(f, states[..i])[i - 1])
    ensures Replay(f, states[..i + 1]) == Replay(f, states[..i]) + [Apply(last, states[i]).0]
  {
    assert states[..i + 1][..i] == states[..i];
  }

  /** The first three ticks of the automatic test: off, left, off. */
  lemma AutoTestStart(f: Flags)
    ensures Replay(f, AUTO_TEST[..3]) == [Flags(false, false), Flags(true, false), Flags(false, false)]
  {
    var s := AUTO_TEST;
    assert s[..0] == [];
    assert s[..1][..0] == s[..0];
    assert Replay(f, s[..1]) == [Flags(false, false)];
    assert s[..2][..1] == s[..1];
    assert Replay(f, s[..2]) == [Flags(false, false), Flags(true, false)];
    assert s[..3][..2] == s[..2];
  }

  /** The automatic test shows left, right and hazard in turn, with all off between them and at the end. */
  lemma AutoTestSequence(f: Flags)
    ensures Replay(f, AUTO_TEST) ==
      [Flags(false, false), Flags(true, false), Flags(false, false), Flags(false, true),
       Flags(false, false), Flags(true, true), Flags(false, false)]
  {
    var s := AUTO_TEST;
    var off, left, right, both := Flags(false, false), Flags(true, false), Flags(false, true), Flags(true, true);
    AutoTestStart(f);
    assert s[..4][..3] == s[..3];
    assert Replay(f, s[..4]) == [off, left, off, right];
    assert s[..5][..4] == s[..4];
    assert Replay(f, s[..5]) == [off, left, off, right, off];
    assert s[..6][..5] == s[..5];
    assert Replay(f, s[..6]) == [off, left, off, right, off, both];
    assert s[..6] == s[..|s| - 1];
  }

  /** The status text depends only on the state sent, not on the flags before. */
  lemma StatusIgnoresFlags(f: Flags, g: Flags, state: string)
    requires state in KNOWN_STATES
    ensures Apply(f, state).1 == Apply(g, state).1 && Apply(f, state).1.Some?
  {
  }

  lemma AutoTestKnown(i: nat)
    requires i < |AUTO_TEST|
    ensures AUTO_TEST[i] in KNOWN_STATES
  {
  }

  class SimpleDashboard {
    var leftOn: bool
    var rightOn: bool
    var status: string
    /** Whether each indicator has the lit style. */
    var leftLit: bool
    var rightLit: bool

    function FlagsOf(): Flags
      reads this
    {
      Flags(leftOn, rightOn)
    }

    /** Both flags off, the status "off", both indicators dark. */
    constructor()
      ensures FlagsOf() == Flags(false, false) && status == STATUS_OFF && !leftLit && !rightLit
    {
      leftOn, rightOn := false, false;
      status := STATUS_OFF;
      leftLit, rightLit := false, false;
    }

    /** `update_indicators` */
    method UpdateIndicators()
      modifies this
      ensures leftLit == leftOn && rightLit == rightOn
      ensures FlagsOf() == old(FlagsOf()) && status == old(status)
    {
      leftLit := leftOn;
      rightLit := rightOn;
    }

    /** `set_turn_signal` */
    method SetTurnSignal(state: string)
      modifies this
      ensures FlagsOf() == Apply(old(FlagsOf()), state).0
      ensures status == (match Apply(old(FlagsOf()), state).1 case Some(t) => t case None => old(status))
      ensures leftLit == leftOn && rightLit == rightOn
    {
      if state == "left_on" {
        leftOn, rightOn, status := true, false, STATUS_LEFT;
      } else if state == "left_off" {
        leftOn, status := false, STATUS_OFF;
      } else if state == "right_on" {
        rightOn, leftOn, status := true, false, STATUS_RIGHT;
      } else if state == "right_off" {
        rightOn, status := false, STATUS_OFF;
      } else if state == "both_on" {
        leftOn, rightOn, status := true, true, STATUS_HAZARD;
      } else if state == "both_off" || state == "off" {
        leftOn, rightOn, status := false, false, STATUS_OFF;
      }
      UpdateIndicators();
    }

    /** `toggle_signal` */
    method ToggleSignal(direction: string)
      modifies this
      ensures FlagsOf() == Toggle(old(FlagsOf()), direction)
      ensures direction in {"left", "right", "both"} ==> leftLit == leftOn && rightLit == rightOn
      ensures !(direction in {"left", "right", "both"}) ==> leftLit == old(leftLit) && rightLit == old(rightLit) && status == old(status)
    {
      if direction == "left" {
        if leftOn {
          SetTurnSignal("left_off");
        } else {
          SetTurnSignal("left_on");
        }
      } else if direction == "right" {
        if rightOn {
          SetTurnSignal("right_off");
        } else {
          SetTurnSignal("right_on");
        }
      } else if direction == "both" {
        if leftOn && rightOn {
          SetTurnSignal("off");
        } else {
          SetTurnSignal("both_on");
        }
      }
    }

    /** One timer tick of `run_auto_test`: the next state of the sequence. */
    method AutoTestTick(ghost start: Flags, ghost seen: seq<Flags>, i: nat)
      requires i < |AUTO_TEST| && seen == Replay(start, AUTO_TEST[..i])
      requires FlagsOf() == (if i == 0 then start else seen[i - 1])
      modifies this
      ensures Replay(start, AUTO_TEST[..i + 1]) == seen + [FlagsOf()]
      ensures Some(status) == Apply(start, AUTO_TEST[i]).1
    {
      var state := AUTO_TEST[i];
      ReplayNext(start, AUTO_TEST, i, FlagsOf());
      AutoTestKnown(i);
      StatusIgnoresFlags(FlagsOf(), start, state);
      SetTurnSignal(state);
    }

    /** `run_auto_test`: one state per timer tick; the flags after each tick. */
    method RunAutoTest() returns (seen: seq<Flags>)
      modifies this
      ensures seen == Replay(old(FlagsOf()), AUTO_TEST)
      ensures FlagsOf() == Flags(false, false) && status == STATUS_OFF
    {
      ghost var start := FlagsOf();
      seen := [];
      for i := 0 to |AUTO_TEST|
        invariant seen == Replay(start, AUTO_TEST[..i])
        invariant FlagsOf() == (if i == 0 then start else seen[i - 1])
        invariant i > 0 ==> Some(status) == Apply(start, AUTO_TEST[i - 1]).1
      {
        AutoTestTick(start, seen, i);
        seen := seen + [FlagsOf()];
      }
      assert AUTO_TEST[..|AUTO_TEST|] == AUTO_TEST;
      AutoTestSequence(start);
      assert Apply(start, "off").1 == Some(STATUS_OFF);
    }
  }
}
