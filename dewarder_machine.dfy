/** The gesture and animation state machine of the earlier library version
    (package com.dewarder.camerabutton), as pure functions over a snapshot of
    the fields the handlers read and write. It is the latest version's machine
    without `cancel`: the mode and the collapse action are enums, the hold
    listener is never told onCancel, and there is no canceling flag. The class
    in DewarderButton runs the same handlers imperatively.

    Time is abstracted as in HluhovskyiMachine: the expand message running and
    each animator ending or ticking are inputs of their own. */
module DewarderMachine {
  import opened Java
  import opened ButtonCommon

  const NO_MODE := "No mode corresponding to value "
  const NO_ACTION := "No action corresponding to value "

  /** `CameraButton.Mode`: which gestures the button reacts to. */
  datatype Mode = ALL | TAP | HOLD {

    /** The declaration order, which `fromValue` decodes. */
    function Ordinal(): (r: int32)
      ensures 0 <= r <= 2
    {
      match this
      case ALL => 0
      case TAP => 1
      case HOLD => 2
    }

    /** `isTapAllowed()`: the first constructor argument. */
    predicate IsTapAllowed() {
      this == ALL || this == TAP
    }

    /** `isHoldAllowed()`: the second constructor argument. */
    predicate IsHoldAllowed() {
      this == ALL || this == HOLD
    }

    /** `Mode.fromValue`: 0, 1 and 2 decode to ALL, TAP and HOLD, in
        declaration order; any other value throws. */
    static function FromValue(value: int32): (r: Outcome<Mode>)
      ensures r.Returned? <==> 0 <= value <= 2
      ensures r.Returned? ==> r.value.Ordinal() == value
      ensures r.Thrown? ==> r.exception == IllegalStateException(NO_MODE + IntToString(value))
    {
      match value
      case 0 => Returned(ALL)
      case 1 => Returned(TAP)
      case 2 => Returned(HOLD)
      case _ => Thrown(IllegalStateException(NO_MODE + IntToString(value)))
    }
  }

  /** `CameraButton.Action`: what collapses an expanded button. */
  datatype Action = RELEASE | CLICK {

    function Ordinal(): (r: int32)
      ensures 0 <= r <= 1
    {
      match this
      case RELEASE => 0
      case CLICK => 1
    }

    /** `Action.fromValue`: 0 decodes to RELEASE and 1 to CLICK; any other
        value throws. */
    static function FromValue(value: int32): (r: Outcome<Action>)
      ensures r.Returned? <==> 0 <= value <= 1
      ensures r.Returned? ==> r.value.Ordinal() == value
      ensures r.Thrown? ==> r.exception == IllegalStateException(NO_ACTION + IntToString(value))
    {
      match value
      case 0 => Returned(RELEASE)
      case 1 => Returned(CLICK)
      case _ => Thrown(IllegalStateException(NO_ACTION + IntToString(value)))
    }
  }

  /** Decoding the ordinal of a mode or an action gives it back, so with the
      contracts of FromValue the decoders are exactly the inverses of the
      declaration order. */
  lemma FromValueOrdinal(mode: Mode, action: Action)
    ensures Mode.FromValue(mode.Ordinal()) == Returned(mode)
    ensures Action.FromValue(action.Ordinal()) == Returned(action)
  {
  }

  /** The facets of each mode: ALL allows both gestures, TAP only taps, HOLD
      only holds. */
  lemma ModeFacets()
    ensures ALL.IsTapAllowed() && ALL.IsHoldAllowed()
    ensures TAP.IsTapAllowed() && !TAP.IsHoldAllowed()
    ensures !HOLD.IsTapAllowed() && HOLD.IsHoldAllowed()
    ensures forall mode: Mode :: mode.IsTapAllowed() || mode.IsHoldAllowed()
  {
  }

  /** The fields of CameraButton that the gesture handlers, animator callbacks and
      dispatcher read or write. */
  datatype Machine = Machine(
    state: State,
    mode: Mode,
    collapseAction: Action,
    enabled: bool,
    expandDuration: int64,
    collapseDuration: int64,
    expandDelay: int64,
    holdDuration: int64,
    shouldCollapseOnNextRelease: bool,
    hovered: bool,
    expandingFactor: real,
    progressFactor: real,
    expandAnimator: Slot,
    collapseAnimator: Slot,
    progressAnimator: Slot,
    expandMessage: Slot,
    listeners: Listeners,
    events: Log)

  /** A freshly constructed, enabled button. */
  function Initial(mode: Mode, collapseAction: Action, expandDuration: int64, collapseDuration: int64,
                   expandDelay: int64, holdDuration: int64, listeners: Listeners): (m: Machine)
    ensures m.state == Default && m.events == Nil
    ensures !m.expandAnimator.Running() && !m.collapseAnimator.Running() && !m.progressAnimator.Running()
    ensures m.enabled && !m.shouldCollapseOnNextRelease && !m.hovered
    ensures m.mode == mode && m.collapseAction == collapseAction && m.listeners == listeners
    ensures m.expandDuration == expandDuration && m.collapseDuration == collapseDuration
    ensures m.expandDelay == expandDelay && m.holdDuration == holdDuration
  {
    Machine(Default, mode, collapseAction, true, expandDuration, collapseDuration, expandDelay, holdDuration,
            false, false, 0.0, 0.0, EmptySlot, EmptySlot, EmptySlot, EmptySlot, listeners, Nil)
  }

  /** Hold events reach a registered hold listener only when the mode allows holds. */
  predicate HoldOn(m: Machine) {
    m.listeners.hold && m.mode.IsHoldAllowed()
  }

  /** Tap events reach a registered tap listener only when the mode allows taps. */
  predicate TapOn(m: Machine) {
    m.listeners.tap && m.mode.IsTapAllowed()
  }

  /** The transition that ends a hold. */
  predicate IsFinishEdge(from: State, to: State) {
    from == Expanded && to == StartCollapsing
  }

  /** The transitions that count as a tap. */
  predicate IsTapEdge(from: State, to: State) {
    (from == Pressed && to == Default) || (from == StartExpanding && to == StartCollapsing)
  }

  function StateEvent(m: Machine, s: State): Option<Event> {
    if m.listeners.state then Some(StateChanged(s)) else None
  }

  /** What the hold listener hears of a dispatch of `s`. */
  function HoldEvent(m: Machine, s: State): Option<Event> {
    if !HoldOn(m) then None
    else if s == Expanded then Some(HoldStart)
    else if m.state == Expanded && s == StartCollapsing then Some(HoldFinish)
    else None
  }

  /** What the tap listener hears of a dispatch of `s`. */
  function TapEvent(m: Machine, s: State): Option<Event> {
    if m.listeners.tap && m.mode.IsTapAllowed() then
      if IsTapEdge(m.state, s) then Some(Tap) else None
    else None
  }

  /** The hold listener hears onStart exactly on entering EXPANDED and onFinish
      exactly on EXPANDED to START_COLLAPSING, never onCancel; the tap listener
      hears onTap exactly on a tap edge; both only when registered and allowed
      by the mode. */
  lemma DispatchedCallbacks(m: Machine, s: State)
    ensures HoldEvent(m, s) == Some(HoldStart) <==> HoldOn(m) && s == Expanded
    ensures HoldEvent(m, s) == Some(HoldFinish) <==> HoldOn(m) && IsFinishEdge(m.state, s)
    ensures HoldEvent(m, s) != Some(HoldCancel)
    ensures HoldEvent(m, s).None? <==> !HoldOn(m) || (s != Expanded && !IsFinishEdge(m.state, s))
    ensures TapEvent(m, s) == Some(Tap) <==> TapOn(m) && IsTapEdge(m.state, s)
    ensures TapEvent(m, s).None? <==> !(TapOn(m) && IsTapEdge(m.state, s))
  {
  }

  /** The log after a dispatch of `s`: the state listener hears first, then the
      hold listener, then the tap listener. */
  function Notify(m: Machine, s: State): Log {
    Add(Add(Add(m.events, StateEvent(m, s)), HoldEvent(m, s)), TapEvent(m, s))
  }

  /** `dispatchStateChange(s)`: notifies, and only then stores the new state. */
  function Dispatch(m: Machine, s: State): Machine {
    m.(events := Notify(m, s), state := s)
  }

  /** The delay the expand message is posted with on a press: none at all
      unless the mode allows holds; `expandDelay` when taps are also allowed;
      0 (an immediate `post`) otherwise. */
  function ExpandMessageDelay(m: Machine): (r: Option<int>)
    ensures r.Some? <==> m.mode.IsHoldAllowed()
    ensures r.Some? && m.mode.IsTapAllowed() ==> r == Some(m.expandDelay as int)
    ensures r.Some? && !m.mode.IsTapAllowed() ==> r == Some(0)
  {
    if !m.mode.IsHoldAllowed() then None
    else if m.mode.IsTapAllowed() then Some(m.expandDelay as int)
    else Some(0)
  }

  /** `postExpandingMessageIfNeeded()`. */
  function PostExpandingMessageIfNeeded(m: Machine): Machine {
    match ExpandMessageDelay(m)
    case None => m
    case Some(delay) => m.(expandMessage := Schedule(m.expandMessage, delay))
  }

  function CancelExpandingAnimatorIfNeeded(m: Machine): Machine {
    m.(expandAnimator := Cancel(m.expandAnimator))
  }

  function CancelCollapsingAnimatorIfNeeded(m: Machine): Machine {
    m.(collapseAnimator := Cancel(m.collapseAnimator))
  }

  function CancelProgressAnimatorIfNeeded(m: Machine): Machine {
    m.(progressAnimator := Cancel(m.progressAnimator))
  }

  /** `makePaintColorsHovered`: only whether the pressed colours are used. */
  function MakePaintColorsHovered(m: Machine, hovered: bool): Machine {
    m.(hovered := hovered)
  }

  /** The expand animator's start callback. */
  function OnExpandingStart(m: Machine): Machine {
    CancelCollapsingAnimatorIfNeeded(CancelProgressAnimatorIfNeeded(Dispatch(m, StartExpanding)))
  }

  /** A new expand animator, started: its start callback runs inside `start()`. */
  function StartExpandingAnimator(m: Machine): Machine {
    OnExpandingStart(m.(expandAnimator := Schedule(m.expandAnimator, m.expandDuration as int)))
  }

  /** The collapse animator's start callback. */
  function OnCollapsingStart(m: Machine): Machine {
    var disarmed := m.(shouldCollapseOnNextRelease := false);
    var cancelled := CancelProgressAnimatorIfNeeded(CancelExpandingAnimatorIfNeeded(disarmed));
    Dispatch(MakePaintColorsHovered(cancelled, false), StartCollapsing)
  }

  /** A new collapse animator, started. */
  function StartCollapsingAnimator(m: Machine): Machine {
    OnCollapsingStart(m.(collapseAnimator := Schedule(m.collapseAnimator, m.collapseDuration as int)))
  }

  /** The body of the expand message. */
  function RunExpandMessage(m: Machine): Machine {
    StartExpandingAnimator(m.(progressFactor := 0.0))
  }

  /** The expand animator's end callback: start the progress animator, then
      dispatch EXPANDED. */
  function OnExpandingEnd(m: Machine): Machine {
    Dispatch(m.(progressAnimator := Schedule(m.progressAnimator, m.holdDuration as int)), Expanded)
  }

  /** The collapse animator's end callback. */
  function OnCollapsingEnd(m: Machine): Machine {
    Dispatch(m.(progressFactor := 0.0), Default)
  }

  /** The progress animator's end callback: the hold reached its maximum
      duration, so the button collapses on its own. */
  function OnProgressEnd(m: Machine): Machine {
    StartCollapsingAnimator(m)
  }

  /** The ACTION_MOVE case, also reached by falling through from ACTION_DOWN. */
  function OnMove(m: Machine, inExpanded: bool): (Machine, bool) {
    (if m.shouldCollapseOnNextRelease then MakePaintColorsHovered(m, inExpanded) else m, true)
  }

  /** The ACTION_UP case; a release the switch does not handle falls out of it
      and is not consumed. */
  function OnUp(m: Machine, inExpanded: bool): (Machine, bool) {
    if m.state == StartExpanding || m.state == Expanded then
      if m.collapseAction == CLICK && !m.shouldCollapseOnNextRelease then
        (MakePaintColorsHovered(m.(shouldCollapseOnNextRelease := true), false), true)
      else if m.collapseAction == CLICK && !inExpanded then
        (m, true)
      else
        (MakePaintColorsHovered(StartCollapsingAnimator(m), false), true)
    else if m.state == Pressed then
      (MakePaintColorsHovered(Dispatch(m.(expandMessage := Cancel(m.expandMessage)), Default), false), true)
    else
      (m, false)
  }

  /** `onTouchEvent`: `inCollapsed` is `isTouched(event)` and `inExpanded` is
      `isTouchedExpanded(event)`. A down that is not accepted falls through into
      the move case. */
  function OnTouchEvent(m: Machine, action: MotionAction, inCollapsed: bool, inExpanded: bool): (Machine, bool) {
    match action
    case Down =>
      if m.enabled && inCollapsed then
        var hovered := MakePaintColorsHovered(m, true);
        if m.shouldCollapseOnNextRelease && (m.state == StartExpanding || m.state == Expanded) then
          (hovered, true)
        else
          (Dispatch(PostExpandingMessageIfNeeded(hovered), Pressed), true)
      else
        OnMove(m, inExpanded)
    case Move => OnMove(m, inExpanded)
    case Up => OnUp(m, inExpanded)
    case Other => (m, false)
  }

  /** `performClick()`, after the platform's own click handling. */
  function PerformClick(m: Machine): Machine {
    if m.collapseAction == CLICK && (m.state == StartExpanding || m.state == Expanded) then
      StartCollapsingAnimator(m)
    else
      m
  }

  function OnExpandingUpdate(m: Machine, value: real): Machine {
    m.(expandingFactor := value)
  }

  /** An update tick of the progress animator, forwarded to the progress listener. */
  function OnProgressUpdate(m: Machine, value: real): Machine {
    m.(progressFactor := value,
       events := if m.listeners.progress then Snoc(m.events, ProgressChanged(value)) else m.events)
  }

  /** Everything that can happen to the button. */
  datatype Input =
    | Touch(action: MotionAction, inCollapsed: bool, inExpanded: bool)
    | Click
    | ExpandMessageRuns(message: Instance)
    | ExpandAnimatorEnds(animator: Instance)
    | CollapseAnimatorEnds(animator: Instance)
    | ProgressAnimatorEnds(animator: Instance)
    | ExpandingTick(value: real)
    | ProgressTick(value: real)
    | SetEnabled(isEnabled: bool)
    | SetMode(newMode: Mode)
    | SetCollapseAction(newAction: Action)
    | SetListeners(newListeners: Listeners)

  /** Callbacks arrive only for instances still queued or running, and animated
      values lie in [0, 1]. */
  predicate CanOccur(m: Machine, i: Input) {
    match i
    case ExpandMessageRuns(w) => m.expandMessage.Has(w)
    case ExpandAnimatorEnds(w) => m.expandAnimator.Has(w)
    case CollapseAnimatorEnds(w) => m.collapseAnimator.Has(w)
    case ProgressAnimatorEnds(w) => m.progressAnimator.Has(w)
    case ExpandingTick(v) => (m.expandAnimator.Running() || m.collapseAnimator.Running()) && 0.0 <= v <= 1.0
    case ProgressTick(v) => m.progressAnimator.Running() && 0.0 <= v <= 1.0
    case _ => true
  }

  /** One input; an input that cannot occur leaves the button unchanged. */
  function Step(m: Machine, i: Input): Machine {
    if !CanOccur(m, i) then m
    else
      match i
      case Touch(a, c, e) => OnTouchEvent(m, a, c, e).0
      case Click => PerformClick(m)
      case ExpandMessageRuns(w) => RunExpandMessage(m.(expandMessage := Complete(m.expandMessage, w)))
      case ExpandAnimatorEnds(w) => OnExpandingEnd(m.(expandAnimator := Complete(m.expandAnimator, w)))
      case CollapseAnimatorEnds(w) => OnCollapsingEnd(m.(collapseAnimator := Complete(m.collapseAnimator, w)))
      case ProgressAnimatorEnds(w) => OnProgressEnd(m.(progressAnimator := Complete(m.progressAnimator, w)))
      case ExpandingTick(v) => OnExpandingUpdate(m, v)
      case ProgressTick(v) => OnProgressUpdate(m, v)
      case SetEnabled(b) => m.(enabled := b)
      case SetMode(mode) => m.(mode := mode)
      case SetCollapseAction(action) => m.(collapseAction := action)
      case SetListeners(l) => m.(listeners := l)
  }

  /** A sequence of inputs, in order. */
  function Run(m: Machine, inputs: seq<Input>): Machine
    decreases |inputs|
  {
    if inputs == [] then m else Run(Step(m, inputs[0]), inputs[1..])
  }

  function RunningAnimators(m: Machine): nat {
    m.expandAnimator.Instances() + m.collapseAnimator.Instances() + m.progressAnimator.Instances()
  }

  /** No orphaned animator, at most one animator running, and no collapse
      running while (re)expanding or expanded. */
  predicate Exclusive(m: Machine) {
    && m.expandAnimator.orphans == 0
    && m.collapseAnimator.orphans == 0
    && m.progressAnimator.orphans == 0
    && RunningAnimators(m) <= 1
    && ((m.state == StartExpanding || m.state == Expanded) ==> m.collapseAnimator.current.None?)
  }

  /** The one input that starts an animator over a running one of the same
      kind: the expand message running while an expand animator runs. */
  predicate Races(m: Machine, i: Input) {
    i.ExpandMessageRuns? && m.expandAnimator.current.Some?
  }

  lemma StartCollapsingKeepsExclusive(m: Machine)
    requires m.expandAnimator.orphans == 0 && m.progressAnimator.orphans == 0
    requires m.collapseAnimator == EmptySlot
    ensures Exclusive(StartCollapsingAnimator(m))
    ensures RunningAnimators(StartCollapsingAnimator(m)) == 1
  {
  }

  lemma StartExpandingKeepsExclusive(m: Machine)
    requires Exclusive(m) && m.expandAnimator.current.None?
    ensures Exclusive(StartExpandingAnimator(m))
    ensures RunningAnimators(StartExpandingAnimator(m)) == 1
  {
  }

  lemma UpKeepsExclusive(m: Machine, inExpanded: bool)
    requires Exclusive(m)
    ensures Exclusive(OnUp(m, inExpanded).0)
  {
    if (m.state == StartExpanding || m.state == Expanded)
       && !(m.collapseAction == CLICK && !m.shouldCollapseOnNextRelease)
       && !(m.collapseAction == CLICK && !inExpanded) {
      StartCollapsingKeepsExclusive(m);
    }
  }

  lemma DownKeepsExclusive(m: Machine, inCollapsed: bool, inExpanded: bool)
    requires Exclusive(m)
    ensures Exclusive(OnTouchEvent(m, Down, inCollapsed, inExpanded).0)
  {
    var hovered := MakePaintColorsHovered(m, true);
    assert Exclusive(PostExpandingMessageIfNeeded(hovered));
  }

  lemma TouchKeepsExclusive(m: Machine, action: MotionAction, inCollapsed: bool, inExpanded: bool)
    requires Exclusive(m)
    ensures Exclusive(OnTouchEvent(m, action, inCollapsed, inExpanded).0)
  {
    match action
    case Down => DownKeepsExclusive(m, inCollapsed, inExpanded);
    case Up => UpKeepsExclusive(m, inExpanded);
    case _ =>
  }

  /** Every input other than the race keeps the invariant. */
  lemma StepKeepsExclusive(m: Machine, i: Input)
    requires Exclusive(m) && !Races(m, i)
    ensures Exclusive(Step(m, i))
  {
    if CanOccur(m, i) {
      match i
      case Touch(a, c, e) => TouchKeepsExclusive(m, a, c, e);
      case Click =>
        if m.collapseAction == CLICK && (m.state == StartExpanding || m.state == Expanded) {
          StartCollapsingKeepsExclusive(m);
        }
      case ExpandMessageRuns(w) =>
        StartExpandingKeepsExclusive(m.(expandMessage := Complete(m.expandMessage, w), progressFactor := 0.0));
      case ProgressAnimatorEnds(w) =>
        StartCollapsingKeepsExclusive(m.(progressAnimator := Complete(m.progressAnimator, w)));
      case _ =>
    }
  }

  predicate RaceFree(m: Machine, inputs: seq<Input>)
    decreases |inputs|
  {
    inputs == [] || (!Races(m, inputs[0]) && RaceFree(Step(m, inputs[0]), inputs[1..]))
  }

  /** At most one animator runs after any race-free sequence of inputs from a
      state where at most one runs. */
  lemma {:induction false} RunKeepsExclusive(m: Machine, inputs: seq<Input>)
    requires Exclusive(m) && RaceFree(m, inputs)
    ensures Exclusive(Run(m, inputs)) && RunningAnimators(Run(m, inputs)) <= 1
    decreases |inputs|
  {
    if inputs != [] {
      StepKeepsExclusive(m, inputs[0]);
      RunKeepsExclusive(Step(m, inputs[0]), inputs[1..]);
    }
  }
}
