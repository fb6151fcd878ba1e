/** What the handlers of the prototype promise, and the callback sequences a
    tap, a hold, and a press during a recording produce. */
module PrototypeProperties {
  import opened Java
  import opened ButtonCommon
  import opened PrototypeMachine

  predicate Expanding(s: State) {
    s == StartExpanding || s == Expanded
  }

  /** The settings no handler changes. */
  predicate SameSettings(a: Machine, b: Machine) {
    && a.listeners == b.listeners
    && a.expandDuration == b.expandDuration && a.collapseDuration == b.collapseDuration
    && a.expandDelay == b.expandDelay && a.holdDuration == b.holdDuration
  }

  /** Every down, in every state, queues a new expand message delayed by
      `expandDelay`, lights the button and dispatches PRESSED, and leaves the
      animators alone. Only downs and ups are consumed. */
  lemma DownAlwaysPresses(m: Machine)
    ensures var r := OnTouchEvent(m, Down);
      && r.1 && r.0.hovered && r.0.state == Pressed
      && r.0.expandMessage == Schedule(m.expandMessage, m.expandDelay as int)
      && r.0.events == Add(m.events, StateEvent(m, Pressed))
      && r.0.expandAnimator == m.expandAnimator
      && r.0.collapseAnimator == m.collapseAnimator
      && r.0.progressAnimator == m.progressAnimator
    ensures OnTouchEvent(m, Up).1
    ensures OnTouchEvent(m, Move) == (m, false) && OnTouchEvent(m, Other) == (m, false)
  {
  }

  /** An up while (re)expanding cancels the expand animator and starts the
      collapse; an up while PRESSED removes the expand message and dispatches
      DEFAULT, which is a tap; any other up only clears hover. */
  lemma UpPolicy(m: Machine)
    ensures !OnUp(m).hovered
    ensures Expanding(m.state) ==>
      && OnUp(m).state == StartCollapsing
      && OnUp(m).expandAnimator == Slot(None, m.expandAnimator.orphans)
      && OnUp(m).collapseAnimator.current == Some(m.collapseDuration as int)
    ensures m.state == Pressed ==>
      && OnUp(m).state == Default
      && OnUp(m).expandMessage == Slot(None, m.expandMessage.orphans)
      && OnUp(m).events == Add(Add(m.events, StateEvent(m, Default)), if m.listeners.tap then Some(Tap) else None)
    ensures m.state == Default || m.state == StartCollapsing ==> OnUp(m) == m.(hovered := false)
  {
  }

  /** The collapse animator's start cancels the progress animator, resets the
      progress, clears hover and dispatches START_COLLAPSING, which ends a
      recording with onFinish; its end dispatches DEFAULT and leaves the
      progress alone. */
  lemma CollapseStartAndEnd(m: Machine)
    ensures var r := StartCollapsingAnimator(m);
      && r.progressAnimator == Slot(None, m.progressAnimator.orphans)
      && r.progressFactor == 0.0 && !r.hovered && r.state == StartCollapsing
      && r.expandAnimator == m.expandAnimator
      && r.collapseAnimator.current == Some(m.collapseDuration as int)
      && r.events == Add(Add(m.events, StateEvent(m, StartCollapsing)),
                         if m.listeners.hold && m.state == Expanded then Some(HoldFinish) else None)
    ensures var r := OnCollapsingEnd(m);
      && r.state == Default && r.progressFactor == m.progressFactor
      && r.events == Add(Add(Add(m.events, StateEvent(m, Default)), HoldEvent(m, Default)), TapEvent(m, Default))
  {
  }

  /** The expand animator's start only dispatches START_EXPANDING; its end
      starts the progress animator and dispatches EXPANDED, which is onStart;
      the progress animator's end starts the collapse. */
  lemma ExpandStartAndEnd(m: Machine)
    ensures var r := StartExpandingAnimator(m);
      && r.state == StartExpanding
      && r.expandAnimator == Schedule(m.expandAnimator, m.expandDuration as int)
      && r.collapseAnimator == m.collapseAnimator && r.progressAnimator == m.progressAnimator
    ensures var r := OnExpandingEnd(m);
      && r.state == Expanded
      && r.progressAnimator == Schedule(m.progressAnimator, m.holdDuration as int)
      && r.events == Add(Add(m.events, StateEvent(m, Expanded)), if m.listeners.hold then Some(HoldStart) else None)
    ensures OnProgressEnd(m).state == StartCollapsing
  {
  }

  /** An up while START_EXPANDING cancels the expand animator, so EXPANDED is
      never reached through it: reporting its end afterwards changes nothing. */
  lemma CancelledExpandNeverExpands(m: Machine)
    requires m.state == StartExpanding && m.expandAnimator.current.Some?
    ensures var r := Step(m, Touch(Up));
      r.expandAnimator.current.None? && Step(r, ExpandAnimatorEnds(Current)) == r
  {
  }

  // ---------------------------------------------------------------------------
  // Traces.

  const Press: seq<Input> := [Touch(Down)] + [ExpandMessageRuns(Current)]
  const Hold: seq<Input> := Press + [ExpandAnimatorEnds(Current)]

  const TapAndHoldListeners := Listeners(false, true, true, false)

  /** One down, as a run. */
  lemma {:induction false} DownRun(m: Machine)
    ensures var r := Run(m, [Touch(Down)]);
      && SameSettings(r, m) && r.state == Pressed
      && r.expandMessage.current == Some(m.expandDelay as int)
      && r.expandAnimator == m.expandAnimator && r.collapseAnimator == m.collapseAnimator
      && r.progressAnimator == m.progressAnimator
      && r.events == Add(m.events, StateEvent(m, Pressed))
  {
    RunSteps(m, [Touch(Down)]);
  }

  /** One up, as a run. */
  lemma {:induction false} UpRun(m: Machine)
    ensures var r := Run(m, [Touch(Up)]);
      && SameSettings(r, m)
      && (m.state == Pressed ==>
            && r.state == Default && r.progressAnimator == m.progressAnimator
            && r.events == Add(Add(m.events, StateEvent(m, Default)), if m.listeners.tap then Some(Tap) else None))
      && (m.state == Expanded ==>
            && r.state == StartCollapsing && r.collapseAnimator.current.Some?
            && r.events == Add(Add(m.events, StateEvent(m, StartCollapsing)),
                               if m.listeners.hold then Some(HoldFinish) else None))
  {
    RunSteps(m, [Touch(Up)]);
  }

  /** The queued expand message runs, as a run. */
  lemma {:induction false} MessageRun(m: Machine)
    requires m.expandMessage.current.Some?
    ensures var r := Run(m, [ExpandMessageRuns(Current)]);
      && SameSettings(r, m) && r.state == StartExpanding
      && r.expandAnimator.current.Some?
      && r.progressAnimator == m.progressAnimator
      && r.events == Add(m.events, StateEvent(m, StartExpanding))
  {
    RunSteps(m, [ExpandMessageRuns(Current)]);
    ExpandStartAndEnd(m.(expandMessage := Complete(m.expandMessage, Current), progressFactor := 0.0));
  }

  /** The expand animator ends, as a run. */
  lemma {:induction false} ExpandEndRun(m: Machine)
    requires m.expandAnimator.current.Some?
    ensures var r := Run(m, [ExpandAnimatorEnds(Current)]);
      && SameSettings(r, m) && r.state == Expanded
      && r.progressAnimator.current.Some?
      && r.events == Add(Add(m.events, StateEvent(m, Expanded)), if m.listeners.hold then Some(HoldStart) else None)
  {
    RunSteps(m, [ExpandAnimatorEnds(Current)]);
  }

  /** The progress animator ends, as a run. */
  lemma {:induction false} ProgressEndRun(m: Machine)
    requires m.progressAnimator.current.Some? && m.state != Expanded
    ensures var r := Run(m, [ProgressAnimatorEnds(Current)]);
      r.state == StartCollapsing && r.events == Add(m.events, StateEvent(m, StartCollapsing))
  {
    RunSteps(m, [ProgressAnimatorEnds(Current)]);
  }

  /** A press, the expand message and the expand animator's end, from DEFAULT. */
  lemma {:induction false} HoldRun(m: Machine)
    requires m.state == Default
    ensures var r := Run(m, Hold);
      && SameSettings(r, m) && r.state == Expanded && r.progressAnimator.current.Some?
      && r.events == Add(Add(Add(Add(m.events, StateEvent(m, Pressed)), StateEvent(m, StartExpanding)),
                             StateEvent(m, Expanded)), if m.listeners.hold then Some(HoldStart) else None)
  {
    DownRun(m);
    var m1 := Run(m, [Touch(Down)]);
    MessageRun(m1);
    RunConcat(m, [Touch(Down)], [ExpandMessageRuns(Current)]);
    ExpandEndRun(Run(m, Press));
    RunConcat(m, Press, [ExpandAnimatorEnds(Current)]);
  }

  /** A quick tap, released before the expand message runs, is onTap. */
  lemma {:induction false} TapTrace(m: Machine)
    requires m.state == Default && m.listeners == TapAndHoldListeners
    ensures Run(m, [Touch(Down)] + [Touch(Up)]).events == Snoc(m.events, Tap)
    ensures Run(m, [Touch(Down)] + [Touch(Up)]).state == Default
  {
    DownRun(m);
    UpRun(Run(m, [Touch(Down)]));
    RunConcat(m, [Touch(Down)], [Touch(Up)]);
  }

  /** A hold and release is onStart then onFinish. */
  lemma {:induction false} HoldAndReleaseTrace(m: Machine)
    requires m.state == Default && m.listeners == TapAndHoldListeners
    ensures Run(m, Hold + [Touch(Up)]).events == Snoc(Snoc(m.events, HoldStart), HoldFinish)
  {
    HoldRun(m);
    UpRun(Run(m, Hold));
    RunConcat(m, Hold, [Touch(Up)]);
  }

  /** A press and release during a recording is taken for a tap: the button
      goes back to DEFAULT with the progress animator still running, and when
      it ends the collapse starts from DEFAULT, so the recording that got
      onStart never gets onFinish. */
  lemma {:induction false} TapDuringRecordingLosesFinish(m: Machine)
    requires m.state == Default && m.listeners == TapAndHoldListeners
    ensures var r := Run(m, Hold + [Touch(Down)] + [Touch(Up)] + [ProgressAnimatorEnds(Current)]);
      r.state == StartCollapsing && r.events == Snoc(Snoc(m.events, HoldStart), Tap)
  {
    HoldRun(m);
    var m3 := Run(m, Hold);
    DownRun(m3);
    var m4 := Run(m3, [Touch(Down)]);
    UpRun(m4);
    var m5 := Run(m4, [Touch(Up)]);
    ProgressEndRun(m5);
    RunConcat(m, Hold, [Touch(Down)]);
    RunConcat(m, Hold + [Touch(Down)], [Touch(Up)]);
    RunConcat(m, Hold + [Touch(Down)] + [Touch(Up)], [ProgressAnimatorEnds(Current)]);
  }

  /** Running two sequences one after the other is running their concatenation. */
  lemma {:induction false} RunConcat(m: Machine, a: seq<Input>, b: seq<Input>)
    ensures Run(m, a + b) == Run(Run(m, a), b)
    decreases |a|
  {
    if a == [] {
      assert a + b == b;
    } else {
      assert (a + b)[1..] == a[1..] + b;
      RunConcat(Step(m, a[0]), a[1..], b);
    }
  }

  /** Unfolds a run of one input. */
  lemma {:induction false} RunSteps(m: Machine, inputs: seq<Input>)
    requires |inputs| == 1
    ensures Run(m, inputs) == Step(m, inputs[0])
  {
    assert inputs[1..] == [];
  }
}
