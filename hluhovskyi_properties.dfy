/** What the handlers of the latest library version promise, one handler at a
    time, and the traces its instrumented tests observe. */
module HluhovskyiProperties {
  import opened Java
  import opened ButtonCommon
  import opened HluhovskyiMachine

  /** The states in which the button is (being) expanded. */
  predicate Expanding(s: State) {
    s == StartExpanding || s == Expanded
  }

  /** The settings no handler changes. */
  predicate SameSettings(a: Machine, b: Machine) {
    && a.mode == b.mode && a.collapseAction == b.collapseAction && a.enabled == b.enabled
    && a.listeners == b.listeners
    && a.expandDuration == b.expandDuration && a.collapseDuration == b.collapseDuration
    && a.expandDelay == b.expandDelay && a.videoDuration == b.videoDuration
  }

  /** A down on an enabled button inside the collapsed square is consumed and
      lights the button. With a click-collapse armed while (re)expanding nothing
      else happens; otherwise the button becomes PRESSED (only the state
      listener hears of it), an expand message is queued exactly when the mode
      is expandable, and no animator is touched, even a running collapse. */
  lemma DownInside(m: Machine, inExpanded: bool)
    requires m.enabled
    ensures var r := OnTouchEvent(m, Down, true, inExpanded);
      && r.1 && r.0.hovered
      && (m.shouldCollapseOnNextClick && Expanding(m.state) ==> r.0 == m.(hovered := true))
      && (!(m.shouldCollapseOnNextClick && Expanding(m.state)) ==>
            && r.0.state == Pressed
            && r.0.events == Add(m.events, StateEvent(m, Pressed))
            && (IsExpandable(m.mode) ==> r.0.expandMessage.current == ExpandMessageDelay(m)
                                         && r.0.expandMessage.Instances() == m.expandMessage.Instances() + 1)
            && (!IsExpandable(m.mode) ==> r.0.expandMessage == m.expandMessage)
            && r.0.expandAnimator == m.expandAnimator
            && r.0.collapseAnimator == m.collapseAnimator
            && r.0.progressAnimator == m.progressAnimator)
  {
  }

  /** A down that misses the collapsed square, or reaches a disabled button, is
      handled as a move: it is still consumed, and neither the state nor the log
      change. */
  lemma DownOutsideIsMove(m: Machine, inCollapsed: bool, inExpanded: bool)
    requires !(m.enabled && inCollapsed)
    ensures OnTouchEvent(m, Down, inCollapsed, inExpanded) == OnTouchEvent(m, Move, inCollapsed, inExpanded)
    ensures OnTouchEvent(m, Down, inCollapsed, inExpanded).1
    ensures OnTouchEvent(m, Down, inCollapsed, inExpanded).0.state == m.state
    ensures OnTouchEvent(m, Down, inCollapsed, inExpanded).0.events == m.events
  {
  }

  /** An up while PRESSED withdraws the pending expand message, returns to
      DEFAULT, which is a photo when the mode allows photos, clears hover and
      is consumed. */
  lemma UpWhilePressed(m: Machine, inCollapsed: bool, inExpanded: bool)
    requires m.state == Pressed
    ensures var r := OnTouchEvent(m, Up, inCollapsed, inExpanded);
      && r.1
      && r.0.state == Default
      && !r.0.hovered
      && r.0.expandMessage == Slot(None, m.expandMessage.orphans)
      && r.0.events == Add(Add(m.events, StateEvent(m, Default)), if PhotoOn(m) then Some(Tap) else None)
  {
  }

  /** An up in DEFAULT or START_COLLAPSING changes nothing and is not consumed. */
  lemma UpWhileIdle(m: Machine, inCollapsed: bool, inExpanded: bool)
    requires m.state == Default || m.state == StartCollapsing
    ensures OnTouchEvent(m, Up, inCollapsed, inExpanded) == (m, false)
  {
  }

  /** Under the CLICK action, the first release while (re)expanding only arms
      the click-collapse; once armed, a release outside the expanded square is
      ignored and only a release inside it starts the collapse. */
  lemma ClickCollapsePolicy(m: Machine, inCollapsed: bool, inExpanded: bool)
    requires m.collapseAction == CLICK && Expanding(m.state)
    ensures var r := OnTouchEvent(m, Up, inCollapsed, inExpanded);
      && r.1
      && (!m.shouldCollapseOnNextClick ==> r.0 == m.(shouldCollapseOnNextClick := true, hovered := false))
      && (m.shouldCollapseOnNextClick && !inExpanded ==> r.0 == m)
      && (m.shouldCollapseOnNextClick && inExpanded ==>
            r.0.state == StartCollapsing && r.0.collapseAnimator.current == Some(m.collapseDuration as int))
  {
  }

  /** Under any other action value the first release while (re)expanding
      collapses the button. */
  lemma ReleaseCollapsePolicy(m: Machine, inCollapsed: bool, inExpanded: bool)
    requires m.collapseAction != CLICK && Expanding(m.state)
    ensures var r := OnTouchEvent(m, Up, inCollapsed, inExpanded);
      && r.1 && !r.0.hovered
      && r.0.state == StartCollapsing
      && r.0.collapseAnimator.current == Some(m.collapseDuration as int)
  {
  }

  /** A click collapses the button under the CLICK action while (re)expanding,
      and does nothing otherwise. */
  lemma PerformClickPolicy(m: Machine)
    ensures var r := PerformClick(m);
      && (m.collapseAction == CLICK && Expanding(m.state) ==>
            r.state == StartCollapsing && r.collapseAnimator.current == Some(m.collapseDuration as int))
      && (!(m.collapseAction == CLICK && Expanding(m.state)) ==> r == m)
  {
  }

  /** The collapse animator's start: the armed flag is cleared, the expand and
      progress animators are cancelled, hover is cleared and START_COLLAPSING is
      dispatched. A recording in progress ends with onCancel or onFinish, a
      collapse straight from START_EXPANDING is a photo, and from any other
      state only the state listener hears of it. */
  lemma CollapseStart(m: Machine)
    ensures var r := StartCollapsingAnimator(m);
      && !r.shouldCollapseOnNextClick && !r.hovered
      && r.expandAnimator == Slot(None, m.expandAnimator.orphans)
      && r.progressAnimator == Slot(None, m.progressAnimator.orphans)
      && r.collapseAnimator.current == Some(m.collapseDuration as int)
      && r.state == StartCollapsing
      && r.progressFactor == m.progressFactor
      && (m.state == Expanded ==>
            r.events == Add(Add(m.events, StateEvent(m, StartCollapsing)),
                            if !VideoOn(m) then None else if m.isCanceling then Some(HoldCancel) else Some(HoldFinish)))
      && (m.state == StartExpanding ==>
            r.events == Add(Add(m.events, StateEvent(m, StartCollapsing)), if PhotoOn(m) then Some(Tap) else None))
      && (!Expanding(m.state) ==> r.events == Add(m.events, StateEvent(m, StartCollapsing)))
  {
  }

  /** The collapse animator's end resets the progress and returns to DEFAULT;
      only the state listener hears of it. */
  lemma CollapseEnd(m: Machine)
    requires m.state == StartCollapsing
    ensures var r := OnCollapsingEnd(m);
      r.progressFactor == 0.0 && r.state == Default && r.events == Add(m.events, StateEvent(m, Default))
  {
  }

  /** The expand animator's start dispatches START_EXPANDING, which only the
      state listener hears, and cancels the progress and collapse animators;
      its end starts the progress animator and dispatches EXPANDED, which
      starts a recording when the mode allows. */
  lemma ExpandStartAndEnd(m: Machine)
    ensures var r := StartExpandingAnimator(m);
      && r.state == StartExpanding
      && r.expandAnimator == Schedule(m.expandAnimator, m.expandDuration as int)
      && r.progressAnimator == Slot(None, m.progressAnimator.orphans)
      && r.collapseAnimator == Slot(None, m.collapseAnimator.orphans)
      && r.events == Add(m.events, StateEvent(m, StartExpanding))
    ensures var r := OnExpandingEnd(m);
      && r.state == Expanded
      && r.progressAnimator == Schedule(m.progressAnimator, m.videoDuration as int)
      && r.events == Add(Add(m.events, StateEvent(m, Expanded)), if VideoOn(m) then Some(HoldStart) else None)
  {
  }

  /** The progress animator's end collapses the button on its own. */
  lemma ProgressEndCollapses(m: Machine)
    ensures OnProgressEnd(m).state == StartCollapsing
    ensures OnProgressEnd(m).collapseAnimator.current == Some(m.collapseDuration as int)
  {
  }

  /** A cancelled animator lost its listeners: its end callback never runs, so
      reporting its end changes nothing. */
  lemma CancelledAnimatorsNeverEnd(m: Machine)
    ensures var c := CancelExpandingAnimatorIfNeeded(m); Step(c, ExpandAnimatorEnds(Current)) == c
    ensures var c := CancelCollapsingAnimatorIfNeeded(m); Step(c, CollapseAnimatorEnds(Current)) == c
    ensures var c := CancelProgressAnimatorIfNeeded(m); Step(c, ProgressAnimatorEnds(Current)) == c
  {
  }

  /** An animated cancel while recording collapses the button and delivers
      onCancel, never onFinish; the canceling flag stays set only when no video
      listener heard it. */
  lemma CancelAnimatedWhileRecording(m: Machine)
    requires m.state == Expanded
    ensures var r := CancelRecording(m, true);
      && r.state == StartCollapsing
      && r.expandAnimator.current.None? && r.progressAnimator.current.None?
      && r.events == Add(Add(m.events, StateEvent(m, StartCollapsing)), if VideoOn(m) then Some(HoldCancel) else None)
      && r.isCanceling == !VideoOn(m)
  {
  }

  /** `cancel(false)` while recording dispatches DEFAULT, which is not a video
      edge: no onCancel is delivered, despite what its documentation says, and
      the canceling flag stays set. */
  lemma CancelUnanimatedWhileRecording(m: Machine)
    requires m.state == Expanded
    ensures var r := CancelRecording(m, false);
      && r.state == Default
      && r.events == Add(m.events, StateEvent(m, Default))
      && r.isCanceling
      && !r.shouldCollapseOnNextClick && r.expandingFactor == 0.0 && r.progressFactor == 0.0
      && r.expandAnimator.current.None? && r.progressAnimator.current.None?
  {
  }

  // ---------------------------------------------------------------------------
  // Traces. Each phase is a lemma about a short run; the traces compose them.

  /** A press and the expand message. */
  const Press: seq<Input> := [Touch(Down, true, true)] + [ExpandMessageRuns(Current)]

  /** A press, the expand message and the expand animator's end. */
  const Hold: seq<Input> := Press + [ExpandAnimatorEnds(Current)]

  /** A press inside the collapsed square, as a one-input run. */
  lemma {:induction false} PressRun(m: Machine)
    requires m.enabled && IsExpandable(m.mode) && !(m.shouldCollapseOnNextClick && Expanding(m.state))
    ensures var r := Run(m, [Touch(Down, true, true)]);
      && SameSettings(r, m) && r.state == Pressed
      && r.isCanceling == m.isCanceling && r.shouldCollapseOnNextClick == m.shouldCollapseOnNextClick
      && r.expandMessage.current == ExpandMessageDelay(m)
      && r.expandAnimator == m.expandAnimator && r.progressAnimator == m.progressAnimator
      && r.collapseAnimator == m.collapseAnimator
      && r.events == Add(m.events, StateEvent(m, Pressed))
  {
    RunSteps(m, [Touch(Down, true, true)]);
    DownInside(m, true);
  }

  /** The queued expand message runs, as a one-input run: START_EXPANDING, which
      only the state listener hears, with a new expand animator assigned over
      whatever the field held. */
  lemma {:induction false} MessageRun(m: Machine)
    requires m.expandMessage.current.Some?
    ensures var r := Run(m, [ExpandMessageRuns(Current)]);
      && SameSettings(r, m) && r.state == StartExpanding
      && r.isCanceling == m.isCanceling && r.shouldCollapseOnNextClick == m.shouldCollapseOnNextClick
      && r.expandAnimator == Schedule(m.expandAnimator, m.expandDuration as int)
      && r.progressAnimator == Slot(None, m.progressAnimator.orphans)
      && r.collapseAnimator == Slot(None, m.collapseAnimator.orphans)
      && r.events == Add(m.events, StateEvent(m, StartExpanding))
  {
    RunSteps(m, [ExpandMessageRuns(Current)]);
    ExpandStartAndEnd(m.(expandMessage := Complete(m.expandMessage, Current), progressFactor := 0.0));
  }

  /** A press on an enabled button in ALL or VIDEO mode, unless a click-collapse
      is armed, followed by the expand message: PRESSED, then START_EXPANDING
      with a new expand animator assigned over whatever the field held. */
  lemma {:induction false} PressStartsExpanding(m: Machine)
    requires m.enabled && IsExpandable(m.mode) && !(m.shouldCollapseOnNextClick && Expanding(m.state))
    ensures var r := Run(m, Press);
      && SameSettings(r, m) && r.state == StartExpanding
      && r.isCanceling == m.isCanceling && r.shouldCollapseOnNextClick == m.shouldCollapseOnNextClick
      && r.expandAnimator == Schedule(m.expandAnimator, m.expandDuration as int)
      && r.progressAnimator == Slot(None, m.progressAnimator.orphans)
      && r.collapseAnimator == Slot(None, m.collapseAnimator.orphans)
      && r.events == Add(Add(m.events, StateEvent(m, Pressed)), StateEvent(m, StartExpanding))
  {
    PressRun(m);
    MessageRun(Run(m, [Touch(Down, true, true)]));
    RunConcat(m, [Touch(Down, true, true)], [ExpandMessageRuns(Current)]);
  }

  /** Holding an idle, enabled button in ALL or VIDEO mode takes it through
      PRESSED and START_EXPANDING to EXPANDED and starts a recording. */
  lemma {:induction false} HoldExpands(m: Machine)
    requires m.enabled && m.state == Default && IsExpandable(m.mode)
    ensures var r := Run(m, Hold);
      && SameSettings(r, m) && r.state == Expanded && r.isCanceling == m.isCanceling
      && r.shouldCollapseOnNextClick == m.shouldCollapseOnNextClick
      && r.collapseAnimator.current.None?
      && r.events == Add(Add(Add(Add(m.events, StateEvent(m, Pressed)), StateEvent(m, StartExpanding)),
                             StateEvent(m, Expanded)), if VideoOn(m) then Some(HoldStart) else None)
  {
    PressStartsExpanding(m);
    ExpandEndRun(Run(m, Press), Current);
    RunConcat(m, Press, [ExpandAnimatorEnds(Current)]);
  }

  /** One instance of the expand animator ends, as a one-input run. */
  lemma {:induction false} ExpandEndRun(m: Machine, which: Instance)
    requires m.expandAnimator.Has(which)
    ensures var r := Run(m, [ExpandAnimatorEnds(which)]);
      && SameSettings(r, m) && r.state == Expanded
      && r.expandAnimator == Complete(m.expandAnimator, which)
      && r.progressAnimator == Schedule(m.progressAnimator, m.videoDuration as int)
      && r.events == Add(Add(m.events, StateEvent(m, Expanded)), if VideoOn(m) then Some(HoldStart) else None)
  {
    RunSteps(m, [ExpandAnimatorEnds(which)]);
  }

  /** A release inside the expanded square, as a one-input run: under the
      RELEASE action it ends the recording, with onCancel while the canceling
      flag is set and with onFinish otherwise. */
  lemma {:induction false} ReleaseRun(m: Machine)
    requires m.state == Expanded && m.collapseAction == RELEASE
    ensures var r := Run(m, [Touch(Up, true, true)]);
      && SameSettings(r, m) && r.state == StartCollapsing
      && r.collapseAnimator.current.Some?
      && r.events == Add(Add(m.events, StateEvent(m, StartCollapsing)),
                         if !VideoOn(m) then None else if m.isCanceling then Some(HoldCancel) else Some(HoldFinish))
  {
    RunSteps(m, [Touch(Up, true, true)]);
  }

  /** The collapse animator's end, as a one-input run. */
  lemma {:induction false} CollapseEndRun(m: Machine)
    requires m.state == StartCollapsing && m.collapseAnimator.current.Some?
    ensures var r := Run(m, [CollapseAnimatorEnds(Current)]);
      && SameSettings(r, m) && r.state == Default && r.events == Add(m.events, StateEvent(m, Default))
  {
    RunSteps(m, [CollapseAnimatorEnds(Current)]);
  }

  const StateListenerOnly := Listeners(true, false, false, false)

  /** The state sequence of a hold and release in ALL mode: PRESSED,
      START_EXPANDING, EXPANDED, START_COLLAPSING and, once the collapse
      animator ends, DEFAULT. */
  lemma HoldAndReleaseStates(m: Machine)
    requires m.enabled && m.state == Default && m.mode == ALL && m.collapseAction == RELEASE
    requires m.listeners == StateListenerOnly
    ensures Run(m, Hold + [Touch(Up, true, true)] + [CollapseAnimatorEnds(Current)]).events
      == Snoc(Snoc(Snoc(Snoc(Snoc(m.events,
           StateChanged(Pressed)), StateChanged(StartExpanding)), StateChanged(Expanded)),
           StateChanged(StartCollapsing)), StateChanged(Default))
  {
    HoldExpands(m);
    var m3 := Run(m, Hold);
    ReleaseRun(m3);
    var m4 := Run(m3, [Touch(Up, true, true)]);
    CollapseEndRun(m4);
    RunConcat(m, Hold, [Touch(Up, true, true)]);
    RunConcat(m, Hold + [Touch(Up, true, true)], [CollapseAnimatorEnds(Current)]);
  }

  /** `cancel(false)` while recording, as a one-input run. */
  lemma {:induction false} CancelQuietlyRun(m: Machine)
    requires m.state == Expanded
    ensures var r := Run(m, [CancelCall(false)]);
      && SameSettings(r, m) && r.state == Default && r.isCanceling
      && r.events == Add(m.events, StateEvent(m, Default))
  {
    RunSteps(m, [CancelCall(false)]);
    CancelUnanimatedWhileRecording(m);
  }

  const VideoListenerOnly := Listeners(false, false, true, false)

  /** The stale canceling flag: after `cancel(false)` during a recording, the
      next recording, ended by an ordinary release, is reported to the video
      listener with onCancel instead of onFinish. */
  lemma StaleCancelFlag(m: Machine)
    requires m.enabled && m.state == Default && m.mode == VIDEO && m.collapseAction == RELEASE
    requires m.listeners == VideoListenerOnly && !m.isCanceling
    ensures Run(m, Hold + [CancelCall(false)] + Hold + [Touch(Up, true, true)]).events
            == Snoc(Snoc(Snoc(m.events, HoldStart), HoldStart), HoldCancel)
  {
    HoldExpands(m);
    var m3 := Run(m, Hold);
    CancelQuietlyRun(m3);
    var m4 := Run(m3, [CancelCall(false)]);
    HoldExpands(m4);
    var m7 := Run(m4, Hold);
    ReleaseRun(m7);
    RunConcat(m, Hold, [CancelCall(false)]);
    RunConcat(m, Hold + [CancelCall(false)], Hold);
    RunConcat(m, Hold + [CancelCall(false)] + Hold, [Touch(Up, true, true)]);
  }

  /** The first release while EXPANDED under the CLICK action, as a run. */
  lemma {:induction false} ArmRun(m: Machine)
    requires m.state == Expanded && m.collapseAction == CLICK && !m.shouldCollapseOnNextClick
    ensures var r := Run(m, [Touch(Up, true, true)]);
      SameSettings(r, m) && r.state == Expanded && r.shouldCollapseOnNextClick
  {
    RunSteps(m, [Touch(Up, true, true)]);
  }

  /** A press while EXPANDED and armed, as a run. */
  lemma {:induction false} ArmedPressRun(m: Machine)
    requires m.state == Expanded && m.enabled && m.shouldCollapseOnNextClick
    ensures var r := Run(m, [Touch(Down, true, true)]);
      SameSettings(r, m) && r.state == Expanded && r.shouldCollapseOnNextClick
  {
    RunSteps(m, [Touch(Down, true, true)]);
  }

  /** A release inside the expanded square while EXPANDED and armed, as a run. */
  lemma {:induction false} ArmedReleaseRun(m: Machine)
    requires m.state == Expanded && m.collapseAction == CLICK && m.shouldCollapseOnNextClick
    ensures Run(m, [Touch(Up, true, true)]).state == StartCollapsing
  {
    RunSteps(m, [Touch(Up, true, true)]);
  }

  /** Under the CLICK action: a hold and release leaves the button EXPANDED and
      armed, a second press keeps it EXPANDED, and only the second release
      inside the expanded square starts the collapse. */
  lemma ClickCollapseTrace(m: Machine)
    requires m.enabled && m.state == Default && m.mode == ALL && m.collapseAction == CLICK
    requires !m.shouldCollapseOnNextClick
    ensures Run(m, Hold + [Touch(Up, true, true)]).state == Expanded
    ensures Run(m, Hold + [Touch(Up, true, true)] + [Touch(Down, true, true)]).state == Expanded
    ensures Run(m, Hold + [Touch(Up, true, true)] + [Touch(Down, true, true)] + [Touch(Up, true, true)]).state
            == StartCollapsing
  {
    HoldExpands(m);
    var m3 := Run(m, Hold);
    ArmRun(m3);
    var m4 := Run(m3, [Touch(Up, true, true)]);
    ArmedPressRun(m4);
    var m5 := Run(m4, [Touch(Down, true, true)]);
    ArmedReleaseRun(m5);
    RunConcat(m, Hold, [Touch(Up, true, true)]);
    RunConcat(m, Hold + [Touch(Up, true, true)], [Touch(Down, true, true)]);
    RunConcat(m, Hold + [Touch(Up, true, true)] + [Touch(Down, true, true)], [Touch(Up, true, true)]);
  }

  /** A gesture the platform cancels (ACTION_CANCEL) leaves everything as it is. */
  lemma {:induction false} GestureCancelRun(m: Machine)
    ensures Run(m, [Touch(Other, true, true)]) == m
  {
    RunSteps(m, [Touch(Other, true, true)]);
  }

  /** The expand race in VIDEO mode: a press whose gesture the platform cancels
      during START_EXPANDING, then a second press, lets the second expand message
      assign a new expand animator over the running one. Two expand animators
      then run, and when both end the video listener hears onStart twice for a
      single recording, with two progress animators running. */
  lemma DoublePressRace(m: Machine)
    requires m.enabled && m.state == Default && m.mode == VIDEO && !m.shouldCollapseOnNextClick
    requires m.listeners == VideoListenerOnly && m.expandAnimator == EmptySlot && m.progressAnimator == EmptySlot
    ensures Run(m, Press + [Touch(Other, true, true)] + Press).expandAnimator.Instances() == 2
    ensures var r := Run(m, Press + [Touch(Other, true, true)] + Press
                            + [ExpandAnimatorEnds(Orphan)] + [ExpandAnimatorEnds(Current)]);
      && r.state == Expanded
      && r.events == Snoc(Snoc(m.events, HoldStart), HoldStart)
      && r.progressAnimator.Instances() == 2
  {
    PressStartsExpanding(m);
    var m2 := Run(m, Press);
    GestureCancelRun(m2);
    PressStartsExpanding(m2);
    var m4 := Run(m2, Press);
    ExpandEndRun(m4, Orphan);
    var m5 := Run(m4, [ExpandAnimatorEnds(Orphan)]);
    ExpandEndRun(m5, Current);
    RunConcat(m, Press, [Touch(Other, true, true)]);
    RunConcat(m, Press + [Touch(Other, true, true)], Press);
    RunConcat(m, Press + [Touch(Other, true, true)] + Press, [ExpandAnimatorEnds(Orphan)]);
    RunConcat(m, Press + [Touch(Other, true, true)] + Press + [ExpandAnimatorEnds(Orphan)], [ExpandAnimatorEnds(Current)]);
  }

  /** Running two sequences one after the other is running their concatenation. */
  lemma {:induction false} RunConcat(m: Machine, a: seq<Input>, b: seq<Input>)
    ensures Run(m, a + b) == Run(Run(m, a), b)
    decreases |a|
  {
    if a == [] {
      assert a + b == b;
    } else {
      assert (a + b)[1..] == a[1..] + b;
      RunConcat(Step(m, a[0]), a[1..], b);
    }
  }

  /** Unfolds a run of up to three inputs into its steps. */
  lemma {:induction false} RunSteps(m: Machine, inputs: seq<Input>)
    requires |inputs| <= 3
    ensures |inputs| == 0 ==> Run(m, inputs) == m
    ensures |inputs| == 1 ==> Run(m, inputs) == Step(m, inputs[0])
    ensures |inputs| == 2 ==> Run(m, inputs) == Step(Step(m, inputs[0]), inputs[1])
    ensures |inputs| == 3 ==> Run(m, inputs) == Step(Step(Step(m, inputs[0]), inputs[1]), inputs[2])
    decreases |inputs|
  {
    if |inputs| > 0 {
      RunSteps(Step(m, inputs[0]), inputs[1..]);
    }
  }
}
