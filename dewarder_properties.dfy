/** What the handlers of the earlier library version promise, and the state
    sequences its instrumented tests observe. */
module DewarderProperties {
  import opened Java
  import opened ButtonCommon
  import opened DewarderMachine

  predicate Expanding(s: State) {
    s == StartExpanding || s == Expanded
  }

  /** The settings no handler changes. */
  predicate SameSettings(a: Machine, b: Machine) {
    && a.mode == b.mode && a.collapseAction == b.collapseAction && a.enabled == b.enabled
    && a.listeners == b.listeners
    && a.expandDuration == b.expandDuration && a.collapseDuration == b.collapseDuration
    && a.expandDelay == b.expandDelay && a.holdDuration == b.holdDuration
  }

  /** A down on an enabled button inside the collapsed square is consumed and
      lights the button. With a release-collapse armed while (re)expanding
      nothing else happens; otherwise the button becomes PRESSED, and an
      expand message is queued exactly when the mode allows holds. */
  lemma DownInside(m: Machine, inExpanded: bool)
    requires m.enabled
    ensures var r := OnTouchEvent(m, Down, true, inExpanded);
      && r.1 && r.0.hovered
      && (m.shouldCollapseOnNextRelease && Expanding(m.state) ==> r.0 == m.(hovered := true))
      && (!(m.shouldCollapseOnNextRelease && Expanding(m.state)) ==>
            && r.0.state == Pressed
            && r.0.events == Add(m.events, StateEvent(m, Pressed))
            && (m.mode.IsHoldAllowed() ==>
                  r.0.expandMessage.current == ExpandMessageDelay(m)
                  && r.0.expandMessage.Instances() == m.expandMessage.Instances() + 1)
            && (!m.mode.IsHoldAllowed() ==> r.0.expandMessage == m.expandMessage)
            && r.0.expandAnimator == m.expandAnimator
            && r.0.collapseAnimator == m.collapseAnimator
            && r.0.progressAnimator == m.progressAnimator)
  {
  }

  /** A down that misses the collapsed square, or reaches a disabled button, is
      handled as a move. */
  lemma DownOutsideIsMove(m: Machine, inCollapsed: bool, inExpanded: bool)
    requires !(m.enabled && inCollapsed)
    ensures OnTouchEvent(m, Down, inCollapsed, inExpanded) == OnTouchEvent(m, Move, inCollapsed, inExpanded)
    ensures OnTouchEvent(m, Down, inCollapsed, inExpanded).1
    ensures OnTouchEvent(m, Down, inCollapsed, inExpanded).0.state == m.state
  {
  }

  /** An up while PRESSED withdraws the expand message and returns to DEFAULT,
      which is a tap when the mode allows taps; an up in DEFAULT or
      START_COLLAPSING changes nothing and is not consumed. */
  lemma UpPolicy(m: Machine, inCollapsed: bool, inExpanded: bool)
    ensures m.state == Pressed ==>
      var r := OnTouchEvent(m, Up, inCollapsed, inExpanded);
      && r.1 && r.0.state == Default && !r.0.hovered
      && r.0.expandMessage == Slot(None, m.expandMessage.orphans)
      && r.0.events == Add(Add(m.events, StateEvent(m, Default)), if TapOn(m) then Some(Tap) else None)
    ensures m.state == Default || m.state == StartCollapsing ==>
      OnTouchEvent(m, Up, inCollapsed, inExpanded) == (m, false)
  {
  }

  /** Under the CLICK action, the first release while (re)expanding only arms
      the collapse; once armed, a release outside the expanded square is
      ignored and one inside starts the collapse. */
  lemma ClickCollapsePolicy(m: Machine, inCollapsed: bool, inExpanded: bool)
    requires m.collapseAction == CLICK && Expanding(m.state)
    ensures var r := OnTouchEvent(m, Up, inCollapsed, inExpanded);
      && r.1
      && (!m.shouldCollapseOnNextRelease ==> r.0 == m.(shouldCollapseOnNextRelease := true, hovered := false))
      && (m.shouldCollapseOnNextRelease && !inExpanded ==> r.0 == m)
      && (m.shouldCollapseOnNextRelease && inExpanded ==>
            r.0.state == StartCollapsing && r.0.collapseAnimator.current == Some(m.collapseDuration as int))
  {
  }

  /** Under RELEASE the first release while (re)expanding collapses the button;
      a click collapses it under CLICK while (re)expanding, and does nothing
      otherwise. */
  lemma ReleaseAndClickPolicy(m: Machine, inCollapsed: bool, inExpanded: bool)
    ensures m.collapseAction == RELEASE && Expanding(m.state) ==>
      var r := OnTouchEvent(m, Up, inCollapsed, inExpanded);
      r.1 && r.0.state == StartCollapsing && r.0.collapseAnimator.current == Some(m.collapseDuration as int)
    ensures m.collapseAction == CLICK && Expanding(m.state) ==>
      PerformClick(m).state == StartCollapsing
    ensures !(m.collapseAction == CLICK && Expanding(m.state)) ==> PerformClick(m) == m
  {
  }

  /** The collapse animator's start: the armed flag is cleared, the expand and
      progress animators are cancelled, hover is cleared and START_COLLAPSING is
      dispatched; a hold ends with onFinish and a collapse straight from
      START_EXPANDING is a tap. Its end resets the progress and dispatches
      DEFAULT. */
  lemma CollapseStartAndEnd(m: Machine)
    ensures var r := StartCollapsingAnimator(m);
      && !r.shouldCollapseOnNextRelease && !r.hovered
      && r.expandAnimator == Slot(None, m.expandAnimator.orphans)
      && r.progressAnimator == Slot(None, m.progressAnimator.orphans)
      && r.collapseAnimator.current == Some(m.collapseDuration as int)
      && r.state == StartCollapsing
      && (m.state == Expanded ==>
            r.events == Add(Add(m.events, StateEvent(m, StartCollapsing)), if HoldOn(m) then Some(HoldFinish) else None))
      && (m.state == StartExpanding ==>
            r.events == Add(Add(m.events, StateEvent(m, StartCollapsing)), if TapOn(m) then Some(Tap) else None))
      && (!Expanding(m.state) ==> r.events == Add(m.events, StateEvent(m, StartCollapsing)))
    ensures m.state == StartCollapsing ==>
      var r := OnCollapsingEnd(m);
      r.progressFactor == 0.0 && r.state == Default && r.events == Add(m.events, StateEvent(m, Default))
  {
  }

  /** The expand animator's start dispatches START_EXPANDING and cancels the
      progress and collapse animators; its end starts the progress animator
      and dispatches EXPANDED, which the hold listener hears as onStart. The
      progress animator's end starts the collapse. */
  lemma ExpandStartAndEnd(m: Machine)
    ensures var r := StartExpandingAnimator(m);
      && r.state == StartExpanding
      && r.expandAnimator == Schedule(m.expandAnimator, m.expandDuration as int)
      && r.progressAnimator == Slot(None, m.progressAnimator.orphans)
      && r.collapseAnimator == Slot(None, m.collapseAnimator.orphans)
      && r.events == Add(m.events, StateEvent(m, StartExpanding))
    ensures var r := OnExpandingEnd(m);
      && r.state == Expanded
      && r.progressAnimator == Schedule(m.progressAnimator, m.holdDuration as int)
      && r.events == Add(Add(m.events, StateEvent(m, Expanded)), if HoldOn(m) then Some(HoldStart) else None)
    ensures OnProgressEnd(m).state == StartCollapsing
    ensures OnProgressEnd(m).collapseAnimator.current == Some(m.collapseDuration as int)
  {
  }

  /** A cancelled animator lost its listeners: reporting its end changes nothing. */
  lemma CancelledAnimatorsNeverEnd(m: Machine)
    ensures var c := CancelExpandingAnimatorIfNeeded(m); Step(c, ExpandAnimatorEnds(Current)) == c
    ensures var c := CancelCollapsingAnimatorIfNeeded(m); Step(c, CollapseAnimatorEnds(Current)) == c
    ensures var c := CancelProgressAnimatorIfNeeded(m); Step(c, ProgressAnimatorEnds(Current)) == c
  {
  }

  /** Whatever happens, this version never tells the hold listener onCancel:
      no input adds it to the log. */
  lemma {:induction false} NeverCancels(m: Machine, inputs: seq<Input>)
    requires !InLog(m.events, HoldCancel)
    ensures !InLog(Run(m, inputs).events, HoldCancel)
    decreases |inputs|
  {
    if inputs != [] {
      StepNeverCancels(m, inputs[0]);
      NeverCancels(Step(m, inputs[0]), inputs[1..]);
    }
  }

  /** The callback `e` was delivered at some point. */
  predicate InLog(log: Log, e: Event) {
    match log
    case Nil => false
    case Snoc(before, last) => last == e || InLog(before, e)
  }

  lemma DispatchNeverCancels(m: Machine, s: State)
    requires !InLog(m.events, HoldCancel)
    ensures !InLog(Dispatch(m, s).events, HoldCancel)
  {
    DispatchedCallbacks(m, s);
  }

  lemma StepNeverCancels(m: Machine, i: Input)
    requires !InLog(m.events, HoldCancel)
    ensures !InLog(Step(m, i).events, HoldCancel)
  {
    if CanOccur(m, i) {
      match i
      case Touch(a, c, e) => TouchNeverCancels(m, a, c, e);
      case Click => CollapseNeverCancels(m);
      case ExpandMessageRuns(w) =>
        DispatchNeverCancels(m.(expandMessage := Complete(m.expandMessage, w), progressFactor := 0.0,
                                expandAnimator := Schedule(m.expandAnimator, m.expandDuration as int)),
                             StartExpanding);
      case ExpandAnimatorEnds(w) =>
        var c := m.(expandAnimator := Complete(m.expandAnimator, w));
        DispatchNeverCancels(c.(progressAnimator := Schedule(c.progressAnimator, c.holdDuration as int)), Expanded);
      case CollapseAnimatorEnds(w) =>
        DispatchNeverCancels(m.(collapseAnimator := Complete(m.collapseAnimator, w), progressFactor := 0.0), Default);
      case ProgressAnimatorEnds(w) => CollapseNeverCancels(m.(progressAnimator := Complete(m.progressAnimator, w)));
      case _ =>
    }
  }

  lemma TouchNeverCancels(m: Machine, a: MotionAction, c: bool, e: bool)
    requires !InLog(m.events, HoldCancel)
    ensures !InLog(OnTouchEvent(m, a, c, e).0.events, HoldCancel)
  {
    if a == Down && m.enabled && c && !(m.shouldCollapseOnNextRelease && Expanding(m.state)) {
      DispatchNeverCancels(PostExpandingMessageIfNeeded(MakePaintColorsHovered(m, true)), Pressed);
    } else if a == Up && Expanding(m.state) {
      CollapseNeverCancels(m);
    } else if a == Up && m.state == Pressed {
      DispatchNeverCancels(m.(expandMessage := Cancel(m.expandMessage)), Default);
    }
  }

  lemma CollapseNeverCancels(m: Machine)
    requires !InLog(m.events, HoldCancel)
    ensures !InLog(StartCollapsingAnimator(m).events, HoldCancel)
  {
    var s := m.(collapseAnimator := Schedule(m.collapseAnimator, m.collapseDuration as int));
    var disarmed := s.(shouldCollapseOnNextRelease := false);
    var cancelled := CancelProgressAnimatorIfNeeded(CancelExpandingAnimatorIfNeeded(disarmed));
    DispatchNeverCancels(MakePaintColorsHovered(cancelled, false), StartCollapsing);
  }

  // ---------------------------------------------------------------------------
  // Traces.

  const Down_ := Touch(Down, true, true)
  const Up_ := Touch(Up, true, true)

  /** A press and the expand message. */
  const Press: seq<Input> := [Down_] + [ExpandMessageRuns(Current)]

  /** A press, the expand message and the expand animator's end. */
  const Hold: seq<Input> := Press + [ExpandAnimatorEnds(Current)]

  /** A press on an idle button, as a one-input run. */
  lemma {:induction false} PressRun(m: Machine)
    requires m.enabled && m.state == Default && m.mode == ALL
    ensures var r := Run(m, [Down_]);
      && SameSettings(r, m) && r.state == Pressed
      && r.expandMessage.current.Some?
      && r.events == Add(m.events, StateEvent(m, Pressed))
  {
    RunSteps(m, [Down_]);
  }

  /** The expand message runs, as a one-input run. */
  lemma {:induction false} MessageRun(m: Machine)
    requires m.expandMessage.current.Some?
    ensures var r := Run(m, [ExpandMessageRuns(Current)]);
      && SameSettings(r, m) && r.state == StartExpanding
      && r.expandAnimator.current.Some?
      && r.collapseAnimator.current.None?
      && r.events == Add(m.events, StateEvent(m, StartExpanding))
  {
    RunSteps(m, [ExpandMessageRuns(Current)]);
    ExpandStartAndEnd(m.(expandMessage := Complete(m.expandMessage, Current), progressFactor := 0.0));
  }

  /** The expand animator ends, as a one-input run. */
  lemma {:induction false} ExpandEndRun(m: Machine)
    requires m.expandAnimator.current.Some?
    ensures var r := Run(m, [ExpandAnimatorEnds(Current)]);
      && SameSettings(r, m) && r.state == Expanded
      && r.collapseAnimator == m.collapseAnimator
      && r.shouldCollapseOnNextRelease == m.shouldCollapseOnNextRelease
      && r.events == Add(Add(m.events, StateEvent(m, Expanded)), if HoldOn(m) then Some(HoldStart) else None)
  {
    RunSteps(m, [ExpandAnimatorEnds(Current)]);
  }

  /** A release, as a one-input run: PRESSED returns to DEFAULT, EXPANDED
      under RELEASE starts the collapse and ends the hold with onFinish. */
  lemma {:induction false} UpRun(m: Machine)
    requires m.state == Pressed || (m.state == Expanded && m.collapseAction == RELEASE)
    ensures var r := Run(m, [Up_]);
      && SameSettings(r, m)
      && (m.state == Pressed ==> r.state == Default)
      && (m.state == Expanded ==>
            && r.state == StartCollapsing && r.collapseAnimator.current.Some?
            && r.events == Add(Add(m.events, StateEvent(m, StartCollapsing)),
                               if HoldOn(m) then Some(HoldFinish) else None))
  {
    RunSteps(m, [Up_]);
  }

  /** The collapse animator ends, as a one-input run. */
  lemma {:induction false} CollapseEndRun(m: Machine)
    requires m.state == StartCollapsing && m.collapseAnimator.current.Some?
    ensures var r := Run(m, [CollapseAnimatorEnds(Current)]);
      SameSettings(r, m) && r.state == Default && r.events == Add(m.events, StateEvent(m, Default))
  {
    RunSteps(m, [CollapseAnimatorEnds(Current)]);
  }

  /** In ALL mode a press holds the button PRESSED, the delay takes it to
      START_EXPANDING and the expand duration to EXPANDED; a release before
      the delay brings it back to DEFAULT, a release once EXPANDED starts the
      collapse, and the collapse ends in DEFAULT. */
  lemma {:induction false} ModeAllStates(m: Machine)
    requires m.enabled && m.state == Default && m.mode == ALL && m.collapseAction == RELEASE
    ensures Run(m, [Down_]).state == Pressed
    ensures Run(m, Press).state == StartExpanding
    ensures Run(m, Hold).state == Expanded
    ensures Run(m, [Down_] + [Up_]).state == Default
    ensures Run(m, Hold + [Up_]).state == StartCollapsing
    ensures Run(m, Hold + [Up_] + [CollapseAnimatorEnds(Current)]).state == Default
  {
    PressRun(m);
    var m1 := Run(m, [Down_]);
    MessageRun(m1);
    RunConcat(m, [Down_], [ExpandMessageRuns(Current)]);
    var m2 := Run(m, Press);
    ExpandEndRun(m2);
    RunConcat(m, Press, [ExpandAnimatorEnds(Current)]);
    UpRun(m1);
    RunConcat(m, [Down_], [Up_]);
    var m3 := Run(m, Hold);
    UpRun(m3);
    RunConcat(m, Hold, [Up_]);
    CollapseEndRun(Run(m3, [Up_]));
    RunConcat(m, Hold + [Up_], [CollapseAnimatorEnds(Current)]);
  }

  const HoldListenerOnly := Listeners(false, false, true, false)

  /** A hold and release in HOLD mode tells the hold listener onStart and then
      onFinish, and nothing else. */
  lemma {:induction false} HoldAndReleaseCallbacks(m: Machine)
    requires m.enabled && m.state == Default && m.mode == HOLD && m.collapseAction == RELEASE
    requires m.listeners == HoldListenerOnly
    ensures Run(m, Hold + [Up_]).events == Snoc(Snoc(m.events, HoldStart), HoldFinish)
  {
    RunSteps(m, [Down_]);
    var m1 := Run(m, [Down_]);
    MessageRun(m1);
    RunConcat(m, [Down_], [ExpandMessageRuns(Current)]);
    var m2 := Run(m, Press);
    ExpandEndRun(m2);
    RunConcat(m, Press, [ExpandAnimatorEnds(Current)]);
    UpRun(Run(m, Hold));
    RunConcat(m, Hold, [Up_]);
  }

  /** Running two sequences one after the other is running their concatenation. */
  lemma {:induction false} RunConcat(m: Machine, a: seq<Input>, b: seq<Input>)
    ensures Run(m, a + b) == Run(Run(m, a), b)
    decreases |a|
  {
    if a == [] {
      assert a + b == b;
    } else {
      assert (a + b)[1..] == a[1..] + b;
      RunConcat(Step(m, a[0]), a[1..], b);
    }
  }

  /** Unfolds a run of up to two inputs into its steps. */
  lemma {:induction false} RunSteps(m: Machine, inputs: seq<Input>)
    requires |inputs| <= 2
    ensures |inputs| == 0 ==> Run(m, inputs) == m
    ensures |inputs| == 1 ==> Run(m, inputs) == Step(m, inputs[0])
    ensures |inputs| == 2 ==> Run(m, inputs) == Step(Step(m, inputs[0]), inputs[1])
    decreases |inputs|
  {
    if |inputs| > 0 {
      RunSteps(Step(m, inputs[0]), inputs[1..]);
    }
  }
}
