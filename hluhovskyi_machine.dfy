/** The gesture and animation state machine of the latest library version
    (package com.hluhovskyi.camerabutton), as pure functions over a snapshot of
    the fields the handlers read and write. The class in HluhovskyiButton runs
    the same handlers imperatively and is specified by these functions.

    Time is abstracted: the delayed expand message "runs", an animator "ends" or
    "ticks", each as an input of its own, in any order the slots allow. */
module HluhovskyiMachine {
  import opened Java
  import opened ButtonCommon

  /** `CameraButton.Mode`, an int-valued annotation: any int can be stored. */
  const ALL: int32 := 0
  const PHOTO: int32 := 1
  const VIDEO: int32 := 2

  /** `CameraButton.Action`, an int-valued annotation. */
  const RELEASE: int32 := 0
  const CLICK: int32 := 1

  /** The mode lets the button produce photo (tap) events. */
  predicate IsPressable(mode: int32) {
    mode == ALL || mode == PHOTO
  }

  /** The mode lets the button expand and produce video (hold) events. */
  predicate IsExpandable(mode: int32) {
    mode == ALL || mode == VIDEO
  }

  /** The fields of CameraButton that the gesture handlers, animator callbacks and
      dispatcher read or write. */
  datatype Machine = Machine(
    state: State,
    mode: int32,
    collapseAction: int32,
    enabled: bool,
    expandDuration: int64,
    collapseDuration: int64,
    expandDelay: int64,
    videoDuration: int64,
    shouldCollapseOnNextClick: bool,
    isCanceling: bool,
    hovered: bool,
    expandingFactor: real,
    progressFactor: real,
    expandAnimator: Slot,
    collapseAnimator: Slot,
    progressAnimator: Slot,
    expandMessage: Slot,
    listeners: Listeners,
    events: Log)

  /** A freshly constructed, enabled button. */
  function Initial(mode: int32, collapseAction: int32, expandDuration: int64, collapseDuration: int64,
                   expandDelay: int64, videoDuration: int64, listeners: Listeners): (m: Machine)
    ensures m.state == Default && m.events == Nil
    ensures !m.expandAnimator.Running() && !m.collapseAnimator.Running() && !m.progressAnimator.Running()
    ensures m.enabled && !m.shouldCollapseOnNextClick && !m.isCanceling && !m.hovered
    ensures m.mode == mode && m.collapseAction == collapseAction && m.listeners == listeners
    ensures m.expandDuration == expandDuration && m.collapseDuration == collapseDuration
    ensures m.expandDelay == expandDelay && m.videoDuration == videoDuration
  {
    Machine(Default, mode, collapseAction, true, expandDuration, collapseDuration, expandDelay, videoDuration,
            false, false, false, 0.0, 0.0, EmptySlot, EmptySlot, EmptySlot, EmptySlot, listeners, Nil)
  }

  /** Video events reach a registered video listener only in ALL or VIDEO mode. */
  predicate VideoOn(m: Machine) {
    m.listeners.hold && IsExpandable(m.mode)
  }

  /** Photo events reach a registered photo listener only in ALL or PHOTO mode. */
  predicate PhotoOn(m: Machine) {
    m.listeners.tap && IsPressable(m.mode)
  }

  /** The transitions that end a recording. */
  predicate IsFinishEdge(from: State, to: State) {
    from == Expanded && to == StartCollapsing
  }

  /** The transitions that count as taking a photo. */
  predicate IsClickEdge(from: State, to: State) {
    (from == Pressed && to == Default) || (from == StartExpanding && to == StartCollapsing)
  }

  /** What the state listener hears of a dispatch of `s`: the new state, if it
      is registered. */
  function StateEvent(m: Machine, s: State): Option<Event> {
    if m.listeners.state then Some(StateChanged(s)) else None
  }

  /** What the video listener hears of a dispatch of `s`: at most one callback. */
  function VideoEvent(m: Machine, s: State): Option<Event> {
    if !VideoOn(m) then None
    else if s == Expanded then Some(HoldStart)
    else if m.state == Expanded && s == StartCollapsing then (if m.isCanceling then Some(HoldCancel) else Some(HoldFinish))
    else None
  }

  /** What the photo listener hears of a dispatch of `s`. */
  function PhotoEvent(m: Machine, s: State): Option<Event> {
    if m.listeners.tap && IsPressable(m.mode) then
      if IsClickEdge(m.state, s) then Some(Tap) else None
    else None
  }

  /** The video listener hears onStart exactly on entering EXPANDED, and on
      leaving EXPANDED for START_COLLAPSING onCancel while a cancel is in
      progress and onFinish otherwise, so never both; the photo listener hears
      onClick exactly on a click edge; both only when registered and allowed
      by the mode. */
  lemma DispatchedCallbacks(m: Machine, s: State)
    ensures VideoEvent(m, s) == Some(HoldStart) <==> VideoOn(m) && s == Expanded
    ensures VideoEvent(m, s) == Some(HoldCancel) <==> VideoOn(m) && IsFinishEdge(m.state, s) && m.isCanceling
    ensures VideoEvent(m, s) == Some(HoldFinish) <==> VideoOn(m) && IsFinishEdge(m.state, s) && !m.isCanceling
    ensures VideoEvent(m, s).None? <==> !VideoOn(m) || (s != Expanded && !IsFinishEdge(m.state, s))
    ensures PhotoEvent(m, s) == Some(Tap) <==> PhotoOn(m) && IsClickEdge(m.state, s)
    ensures PhotoEvent(m, s).None? <==> !(PhotoOn(m) && IsClickEdge(m.state, s))
  {
  }

  /** The log after a dispatch of `s`: the state listener hears first, then the
      video listener, then the photo listener. */
  function Notify(m: Machine, s: State): Log {
    Add(Add(Add(m.events, StateEvent(m, s)), VideoEvent(m, s)), PhotoEvent(m, s))
  }

  /** `dispatchStateChange(s)`: notifies, clears the canceling flag when onCancel
      was delivered, and only then stores the new state. */
  function Dispatch(m: Machine, s: State): Machine {
    m.(events := Notify(m, s),
       isCanceling := if VideoEvent(m, s) == Some(HoldCancel) then false else m.isCanceling,
       state := s)
  }

  /** The delay the expand message is posted with on a press: none at all unless
      the mode is expandable; `expandDelay` when photos are also allowed; 0 (an
      immediate `post`) in VIDEO mode. */
  function ExpandMessageDelay(m: Machine): (r: Option<int>)
    ensures r.Some? <==> IsExpandable(m.mode)
    ensures m.mode == ALL ==> r == Some(m.expandDelay as int)
    ensures m.mode == VIDEO ==> r == Some(0)
  {
    if !IsExpandable(m.mode) then None
    else if IsPressable(m.mode) then Some(m.expandDelay as int)
    else Some(0)
  }

  /** `postExpandingMessageIfNeeded()`. */
  function PostExpandingMessageIfNeeded(m: Machine): Machine {
    match ExpandMessageDelay(m)
    case None => m
    case Some(delay) => m.(expandMessage := Schedule(m.expandMessage, delay))
  }

  function CancelExpandingAnimatorIfNeeded(m: Machine): Machine {
    m.(expandAnimator := Cancel(m.expandAnimator))
  }

  function CancelCollapsingAnimatorIfNeeded(m: Machine): Machine {
    m.(collapseAnimator := Cancel(m.collapseAnimator))
  }

  function CancelProgressAnimatorIfNeeded(m: Machine): Machine {
    m.(progressAnimator := Cancel(m.progressAnimator))
  }

  /** `makePaintColorsHovered`: only whether the pressed colours are used. */
  function MakePaintColorsHovered(m: Machine, hovered: bool): Machine {
    m.(hovered := hovered)
  }

  /** The expand animator's start callback. */
  function OnExpandingStart(m: Machine): Machine {
    CancelCollapsingAnimatorIfNeeded(CancelProgressAnimatorIfNeeded(Dispatch(m, StartExpanding)))
  }

  /** `mExpandAnimator = createExpandingAnimator(); mExpandAnimator.start();`:
      the start callback runs synchronously inside `start()`. */
  function StartExpandingAnimator(m: Machine): Machine {
    OnExpandingStart(m.(expandAnimator := Schedule(m.expandAnimator, m.expandDuration as int)))
  }

  /** The collapse animator's start callback. */
  function OnCollapsingStart(m: Machine): Machine {
    var disarmed := m.(shouldCollapseOnNextClick := false);
    var cancelled := CancelProgressAnimatorIfNeeded(CancelExpandingAnimatorIfNeeded(disarmed));
    Dispatch(MakePaintColorsHovered(cancelled, false), StartCollapsing)
  }

  /** `mCollapseAnimator = createCollapsingAnimator(); mCollapseAnimator.start();`. */
  function StartCollapsingAnimator(m: Machine): Machine {
    OnCollapsingStart(m.(collapseAnimator := Schedule(m.collapseAnimator, m.collapseDuration as int)))
  }

  /** The body of the expand message. */
  function RunExpandMessage(m: Machine): Machine {
    StartExpandingAnimator(m.(progressFactor := 0.0))
  }

  /** The expand animator's end callback: start the progress animator, then
      dispatch EXPANDED. */
  function OnExpandingEnd(m: Machine): Machine {
    Dispatch(m.(progressAnimator := Schedule(m.progressAnimator, m.videoDuration as int)), Expanded)
  }

  /** The collapse animator's end callback. */
  function OnCollapsingEnd(m: Machine): Machine {
    Dispatch(m.(progressFactor := 0.0), Default)
  }

  /** The progress animator's end callback: the recording reached its maximum
      duration, so the button collapses on its own. */
  function OnProgressEnd(m: Machine): Machine {
    StartCollapsingAnimator(m)
  }

  /** The ACTION_MOVE case, also reached by falling through from ACTION_DOWN. */
  function OnMove(m: Machine, inExpanded: bool): (Machine, bool) {
    (if m.shouldCollapseOnNextClick then MakePaintColorsHovered(m, inExpanded) else m, true)
  }

  /** The ACTION_UP case; a release the switch does not handle falls out of it
      and is not consumed. */
  function OnUp(m: Machine, inExpanded: bool): (Machine, bool) {
    if m.state == StartExpanding || m.state == Expanded then
      if m.collapseAction == CLICK && !m.shouldCollapseOnNextClick then
        (MakePaintColorsHovered(m.(shouldCollapseOnNextClick := true), false), true)
      else if m.collapseAction == CLICK && !inExpanded then
        (m, true)
      else
        (MakePaintColorsHovered(StartCollapsingAnimator(m), false), true)
    else if m.state == Pressed then
      (MakePaintColorsHovered(Dispatch(m.(expandMessage := Cancel(m.expandMessage)), Default), false), true)
    else
      (m, false)
  }

  /** `onTouchEvent`: `inCollapsed` is `isTouched(event)` and `inExpanded` is
      `isTouchedExpanded(event)`. Returns the new fields and whether the event was
      consumed. A down that is not accepted falls through into the move case. */
  function OnTouchEvent(m: Machine, action: MotionAction, inCollapsed: bool, inExpanded: bool): (Machine, bool) {
    match action
    case Down =>
      if m.enabled && inCollapsed then
        var hovered := MakePaintColorsHovered(m, true);
        if m.shouldCollapseOnNextClick && (m.state == StartExpanding || m.state == Expanded) then
          (hovered, true)
        else
          (Dispatch(PostExpandingMessageIfNeeded(hovered), Pressed), true)
      else
        OnMove(m, inExpanded)
    case Move => OnMove(m, inExpanded)
    case Up => OnUp(m, inExpanded)
    case Other => (m, false)
  }

  /** `performClick()`, after the platform's own click handling. */
  function PerformClick(m: Machine): Machine {
    if m.collapseAction == CLICK && (m.state == StartExpanding || m.state == Expanded) then
      StartCollapsingAnimator(m)
    else
      m
  }

  /** `cancel(animated)`. */
  function CancelRecording(m: Machine, animated: bool): Machine {
    var stopped := StopRecording(m);
    if animated then StartCollapsingAnimator(stopped) else ResetWithoutAnimation(stopped)
  }

  /** The part of `cancel(animated)` run either way: the progress and expand
      animators are cancelled and the cancel flag is raised. */
  function StopRecording(m: Machine): Machine {
    CancelExpandingAnimatorIfNeeded(CancelProgressAnimatorIfNeeded(m)).(isCanceling := true)
  }

  /** The part of `cancel(false)` that replaces the collapse animation. */
  function ResetWithoutAnimation(m: Machine): Machine {
    Dispatch(m, Default).(shouldCollapseOnNextClick := false, expandingFactor := 0.0, progressFactor := 0.0)
  }

  /** An update tick of the expand or of the collapse animator. */
  function OnExpandingUpdate(m: Machine, value: real): Machine {
    m.(expandingFactor := value)
  }

  /** An update tick of the progress animator, forwarded to the progress listener. */
  function OnProgressUpdate(m: Machine, value: real): Machine {
    m.(progressFactor := value,
       events := if m.listeners.progress then Snoc(m.events, ProgressChanged(value)) else m.events)
  }

  /** Everything that can happen to the button: touch events, clicks, the
      expand message running, animators ending or ticking, the public API. */
  datatype Input =
    | Touch(action: MotionAction, inCollapsed: bool, inExpanded: bool)
    | Click
    | ExpandMessageRuns(message: Instance)
    | ExpandAnimatorEnds(animator: Instance)
    | CollapseAnimatorEnds(animator: Instance)
    | ProgressAnimatorEnds(animator: Instance)
    | ExpandingTick(value: real)
    | ProgressTick(value: real)
    | CancelCall(animated: bool)
    | SetEnabled(isEnabled: bool)
    | SetMode(newMode: int32)
    | SetCollapseAction(collapseAction: int32)
    | SetListeners(newListeners: Listeners)

  /** The platform delivers a message or animator callback only for an instance
      that is still queued or running, and animated values lie in [0, 1]. */
  predicate CanOccur(m: Machine, i: Input) {
    match i
    case ExpandMessageRuns(w) => m.expandMessage.Has(w)
    case ExpandAnimatorEnds(w) => m.expandAnimator.Has(w)
    case CollapseAnimatorEnds(w) => m.collapseAnimator.Has(w)
    case ProgressAnimatorEnds(w) => m.progressAnimator.Has(w)
    case ExpandingTick(v) => (m.expandAnimator.Running() || m.collapseAnimator.Running()) && 0.0 <= v <= 1.0
    case ProgressTick(v) => m.progressAnimator.Running() && 0.0 <= v <= 1.0
    case _ => true
  }

  /** One input; an input that cannot occur leaves the button unchanged. */
  function Step(m: Machine, i: Input): Machine {
    if !CanOccur(m, i) then m
    else
      match i
      case Touch(a, c, e) => OnTouchEvent(m, a, c, e).0
      case Click => PerformClick(m)
      case ExpandMessageRuns(w) => RunExpandMessage(m.(expandMessage := Complete(m.expandMessage, w)))
      case ExpandAnimatorEnds(w) => OnExpandingEnd(m.(expandAnimator := Complete(m.expandAnimator, w)))
      case CollapseAnimatorEnds(w) => OnCollapsingEnd(m.(collapseAnimator := Complete(m.collapseAnimator, w)))
      case ProgressAnimatorEnds(w) => OnProgressEnd(m.(progressAnimator := Complete(m.progressAnimator, w)))
      case ExpandingTick(v) => OnExpandingUpdate(m, v)
      case ProgressTick(v) => OnProgressUpdate(m, v)
      case CancelCall(animated) => CancelRecording(m, animated)
      case SetEnabled(b) => m.(enabled := b)
      case SetMode(mode) => m.(mode := mode)
      case SetCollapseAction(action) => m.(collapseAction := action)
      case SetListeners(l) => m.(listeners := l)
  }

  /** A sequence of inputs, in order. */
  function Run(m: Machine, inputs: seq<Input>): Machine
    decreases |inputs|
  {
    if inputs == [] then m else Run(Step(m, inputs[0]), inputs[1..])
  }

  /** Number of animator instances (expand, collapse, progress) running. */
  function RunningAnimators(m: Machine): nat {
    m.expandAnimator.Instances() + m.collapseAnimator.Instances() + m.progressAnimator.Instances()
  }

  /** The mutual-exclusion invariant the design intends: no orphaned animator, at
      most one animator running, and no collapse running while (re)expanding or
      expanded. */
  predicate Exclusive(m: Machine) {
    && m.expandAnimator.orphans == 0
    && m.collapseAnimator.orphans == 0
    && m.progressAnimator.orphans == 0
    && RunningAnimators(m) <= 1
    && ((m.state == StartExpanding || m.state == Expanded) ==> m.collapseAnimator.current.None?)
  }

  /** The two inputs that start an animator while the field they overwrite still
      holds a running one of the same kind: the expand message running while an
      expand animator runs, and an animated cancel while the collapse animator
      runs. */
  predicate Races(m: Machine, i: Input) {
    || (i.ExpandMessageRuns? && m.expandAnimator.current.Some?)
    || (i.CancelCall? && i.animated && m.collapseAnimator.current.Some?)
  }

  /** Starting the collapse animator from a state with no orphan and no collapse
      animator running leaves the collapse animator as the only one running. */
  lemma StartCollapsingKeepsExclusive(m: Machine)
    requires m.expandAnimator.orphans == 0 && m.progressAnimator.orphans == 0
    requires m.collapseAnimator == EmptySlot
    ensures Exclusive(StartCollapsingAnimator(m))
    ensures RunningAnimators(StartCollapsingAnimator(m)) == 1
  {
  }

  /** Starting the expand animator while none runs leaves it the only one. */
  lemma StartExpandingKeepsExclusive(m: Machine)
    requires Exclusive(m) && m.expandAnimator.current.None?
    ensures Exclusive(StartExpandingAnimator(m))
    ensures RunningAnimators(StartExpandingAnimator(m)) == 1
  {
  }

  lemma UpKeepsExclusive(m: Machine, inExpanded: bool)
    requires Exclusive(m)
    ensures Exclusive(OnUp(m, inExpanded).0)
  {
    if (m.state == StartExpanding || m.state == Expanded)
       && !(m.collapseAction == CLICK && !m.shouldCollapseOnNextClick)
       && !(m.collapseAction == CLICK && !inExpanded) {
      StartCollapsingKeepsExclusive(m);
    }
  }

  lemma DownKeepsExclusive(m: Machine, inCollapsed: bool, inExpanded: bool)
    requires Exclusive(m)
    ensures Exclusive(OnTouchEvent(m, Down, inCollapsed, inExpanded).0)
  {
    var hovered := MakePaintColorsHovered(m, true);
    assert Exclusive(PostExpandingMessageIfNeeded(hovered));
  }

  lemma TouchKeepsExclusive(m: Machine, action: MotionAction, inCollapsed: bool, inExpanded: bool)
    requires Exclusive(m)
    ensures Exclusive(OnTouchEvent(m, action, inCollapsed, inExpanded).0)
  {
    match action
    case Down => DownKeepsExclusive(m, inCollapsed, inExpanded);
    case Up => UpKeepsExclusive(m, inExpanded);
    case _ =>
  }

  lemma CancelKeepsExclusive(m: Machine, animated: bool)
    requires Exclusive(m) && !(animated && m.collapseAnimator.current.Some?)
    ensures Exclusive(CancelRecording(m, animated))
  {
    if animated {
      StartCollapsingKeepsExclusive(StopRecording(m));
    }
  }

  /** Every input other than the two races keeps the invariant. */
  lemma StepKeepsExclusive(m: Machine, i: Input)
    requires Exclusive(m) && !Races(m, i)
    ensures Exclusive(Step(m, i))
  {
    if CanOccur(m, i) {
      match i
      case Touch(a, c, e) => TouchKeepsExclusive(m, a, c, e);
      case Click =>
        if m.collapseAction == CLICK && (m.state == StartExpanding || m.state == Expanded) {
          StartCollapsingKeepsExclusive(m);
        }
      case ExpandMessageRuns(w) =>
        StartExpandingKeepsExclusive(m.(expandMessage := Complete(m.expandMessage, w), progressFactor := 0.0));
      case ExpandAnimatorEnds(w) =>
      case CollapseAnimatorEnds(w) =>
      case ProgressAnimatorEnds(w) =>
        StartCollapsingKeepsExclusive(m.(progressAnimator := Complete(m.progressAnimator, w)));
      case CancelCall(animated) => CancelKeepsExclusive(m, animated);
      case _ =>
    }
  }

  /** No race along the way. */
  predicate RaceFree(m: Machine, inputs: seq<Input>)
    decreases |inputs|
  {
    inputs == [] || (!Races(m, inputs[0]) && RaceFree(Step(m, inputs[0]), inputs[1..]))
  }

  /** At most one animator runs after any race-free sequence of inputs from a
      state where at most one runs. */
  lemma {:induction false} RunKeepsExclusive(m: Machine, inputs: seq<Input>)
    requires Exclusive(m) && RaceFree(m, inputs)
    ensures Exclusive(Run(m, inputs)) && RunningAnimators(Run(m, inputs)) <= 1
    decreases |inputs|
  {
    if inputs != [] {
      StepKeepsExclusive(m, inputs[0]);
      RunKeepsExclusive(Step(m, inputs[0]), inputs[1..]);
    }
  }
}
