/** The gesture and animation state machine of the prototype in the sample
    application, as pure functions over a snapshot of the fields the handlers
    read and write. It has no hit test, no enabled check, no mode, no collapse
    action and no canceling: every down presses, every up releases, and the
    collapse resets the progress when it starts. The class in PrototypeButton
    runs the same handlers imperatively.

    Time is abstracted as in the library versions: the expand message running
    and each animator ending or ticking are inputs of their own. */
module PrototypeMachine {
  import opened Java
  import opened ButtonCommon

  /** The field initialisers of the four durations, in milliseconds. */
  const DEFAULT_EXPAND_DURATION: int64 := 200
  const DEFAULT_COLLAPSE_DURATION: int64 := 200
  const DEFAULT_EXPAND_DELAY: int64 := 400
  const DEFAULT_HOLD_DURATION: int64 := 15000

  /** The fields of CameraButton that the gesture handlers, animator callbacks and
      dispatcher read or write. */
  datatype Machine = Machine(
    state: State,
    expandDuration: int64,
    collapseDuration: int64,
    expandDelay: int64,
    holdDuration: int64,
    hovered: bool,
    expandingFactor: real,
    progressFactor: real,
    expandAnimator: Slot,
    collapseAnimator: Slot,
    progressAnimator: Slot,
    expandMessage: Slot,
    listeners: Listeners,
    events: Log)

  /** A freshly constructed button. */
  function Initial(): (m: Machine)
    ensures m.state == Default && m.events == Nil && m.listeners == NoListeners
    ensures m.expandDuration == 200 && m.collapseDuration == 200 && m.expandDelay == 400 && m.holdDuration == 15000
    ensures !m.expandAnimator.Running() && !m.collapseAnimator.Running() && !m.progressAnimator.Running()
  {
    Machine(Default, DEFAULT_EXPAND_DURATION, DEFAULT_COLLAPSE_DURATION, DEFAULT_EXPAND_DELAY, DEFAULT_HOLD_DURATION,
            false, 0.0, 0.0, EmptySlot, EmptySlot, EmptySlot, EmptySlot, NoListeners, Nil)
  }

  function StateEvent(m: Machine, s: State): Option<Event> {
    if m.listeners.state then Some(StateChanged(s)) else None
  }

  /** What the hold listener hears of a dispatch of `s`; there is no mode. */
  function HoldEvent(m: Machine, s: State): Option<Event> {
    if !m.listeners.hold then None
    else if s == Expanded then Some(HoldStart)
    else if m.state == Expanded && s == StartCollapsing then Some(HoldFinish)
    else None
  }

  /** What the tap listener hears of a dispatch of `s`. */
  function TapEvent(m: Machine, s: State): Option<Event> {
    if m.listeners.tap && m.state == Pressed && s == Default then Some(Tap) else None
  }

  /** A registered hold listener hears onStart exactly on entering EXPANDED and
      onFinish exactly on EXPANDED to START_COLLAPSING; a registered tap
      listener hears onTap exactly on PRESSED to DEFAULT. */
  lemma DispatchedCallbacks(m: Machine, s: State)
    ensures HoldEvent(m, s) == Some(HoldStart) <==> m.listeners.hold && s == Expanded
    ensures HoldEvent(m, s) == Some(HoldFinish) <==> m.listeners.hold && m.state == Expanded && s == StartCollapsing
    ensures HoldEvent(m, s) != Some(HoldCancel)
    ensures TapEvent(m, s) == Some(Tap) <==> m.listeners.tap && m.state == Pressed && s == Default
    ensures TapEvent(m, s).None? <==> !(m.listeners.tap && m.state == Pressed && s == Default)
  {
  }

  /** The log after a dispatch of `s`: the state listener hears first, then the
      hold listener, then the tap listener. */
  function Notify(m: Machine, s: State): Log {
    Add(Add(Add(m.events, StateEvent(m, s)), HoldEvent(m, s)), TapEvent(m, s))
  }

  /** `dispatchStateChange(s)`: notifies, and only then stores the new state. */
  function Dispatch(m: Machine, s: State): Machine {
    m.(events := Notify(m, s), state := s)
  }

  function MakePaintColorsHovered(m: Machine, hovered: bool): Machine {
    m.(hovered := hovered)
  }

  /** The expand animator's start callback only dispatches. */
  function OnExpandingStart(m: Machine): Machine {
    Dispatch(m, StartExpanding)
  }

  /** A new expand animator, started. */
  function StartExpandingAnimator(m: Machine): Machine {
    OnExpandingStart(m.(expandAnimator := Schedule(m.expandAnimator, m.expandDuration as int)))
  }

  /** The collapse animator's start callback: cancels the progress animator,
      resets the progress, clears hover and dispatches START_COLLAPSING. */
  function OnCollapsingStart(m: Machine): Machine {
    var stopped := m.(progressAnimator := Cancel(m.progressAnimator), progressFactor := 0.0);
    Dispatch(MakePaintColorsHovered(stopped, false), StartCollapsing)
  }

  /** A new collapse animator, started. */
  function StartCollapsingAnimator(m: Machine): Machine {
    OnCollapsingStart(m.(collapseAnimator := Schedule(m.collapseAnimator, m.collapseDuration as int)))
  }

  /** The body of the expand message. */
  function RunExpandMessage(m: Machine): Machine {
    StartExpandingAnimator(m.(progressFactor := 0.0))
  }

  /** The expand animator's end callback. */
  function OnExpandingEnd(m: Machine): Machine {
    Dispatch(m.(progressAnimator := Schedule(m.progressAnimator, m.holdDuration as int)), Expanded)
  }

  /** The collapse animator's end callback only dispatches. */
  function OnCollapsingEnd(m: Machine): Machine {
    Dispatch(m, Default)
  }

  /** The progress animator's end callback starts the collapse. */
  function OnProgressEnd(m: Machine): Machine {
    StartCollapsingAnimator(m)
  }

  /** ACTION_DOWN: a new expand message posted with `expandDelay`, hover, and
      PRESSED, whatever the state. */
  function OnDown(m: Machine): Machine {
    var posted := m.(expandMessage := Schedule(m.expandMessage, m.expandDelay as int));
    Dispatch(MakePaintColorsHovered(posted, true), Pressed)
  }

  /** ACTION_UP: while (re)expanding the expand animator is cancelled and the
      collapse starts; while PRESSED the message is removed and DEFAULT is
      dispatched; in every state hover is cleared. */
  function OnUp(m: Machine): Machine {
    var released :=
      if m.state == StartExpanding || m.state == Expanded then
        StartCollapsingAnimator(m.(expandAnimator := Cancel(m.expandAnimator)))
      else if m.state == Pressed then
        Dispatch(m.(expandMessage := Cancel(m.expandMessage)), Default)
      else
        m;
    MakePaintColorsHovered(released, false)
  }

  /** `onTouchEvent`: downs and ups are consumed, everything else is not. */
  function OnTouchEvent(m: Machine, action: MotionAction): (Machine, bool) {
    match action
    case Down => (OnDown(m), true)
    case Up => (OnUp(m), true)
    case _ => (m, false)
  }

  function OnExpandingUpdate(m: Machine, value: real): Machine {
    m.(expandingFactor := value)
  }

  function OnProgressUpdate(m: Machine, value: real): Machine {
    m.(progressFactor := value,
       events := if m.listeners.progress then Snoc(m.events, ProgressChanged(value)) else m.events)
  }

  /** Everything that can happen to the button. */
  datatype Input =
    | Touch(action: MotionAction)
    | ExpandMessageRuns(message: Instance)
    | ExpandAnimatorEnds(animator: Instance)
    | CollapseAnimatorEnds(animator: Instance)
    | ProgressAnimatorEnds(animator: Instance)
    | ExpandingTick(value: real)
    | ProgressTick(value: real)
    | SetListeners(newListeners: Listeners)

  predicate CanOccur(m: Machine, i: Input) {
    match i
    case ExpandMessageRuns(w) => m.expandMessage.Has(w)
    case ExpandAnimatorEnds(w) => m.expandAnimator.Has(w)
    case CollapseAnimatorEnds(w) => m.collapseAnimator.Has(w)
    case ProgressAnimatorEnds(w) => m.progressAnimator.Has(w)
    case ExpandingTick(v) => (m.expandAnimator.Running() || m.collapseAnimator.Running()) && 0.0 <= v <= 1.0
    case ProgressTick(v) => m.progressAnimator.Running() && 0.0 <= v <= 1.0
    case _ => true
  }

  /** One input; an input that cannot occur leaves the button unchanged. */
  function Step(m: Machine, i: Input): Machine {
    if !CanOccur(m, i) then m
    else
      match i
      case Touch(a) => OnTouchEvent(m, a).0
      case ExpandMessageRuns(w) => RunExpandMessage(m.(expandMessage := Complete(m.expandMessage, w)))
      case ExpandAnimatorEnds(w) => OnExpandingEnd(m.(expandAnimator := Complete(m.expandAnimator, w)))
      case CollapseAnimatorEnds(w) => OnCollapsingEnd(m.(collapseAnimator := Complete(m.collapseAnimator, w)))
      case ProgressAnimatorEnds(w) => OnProgressEnd(m.(progressAnimator := Complete(m.progressAnimator, w)))
      case ExpandingTick(v) => OnExpandingUpdate(m, v)
      case ProgressTick(v) => OnProgressUpdate(m, v)
      case SetListeners(l) => m.(listeners := l)
  }

  function Run(m: Machine, inputs: seq<Input>): Machine
    decreases |inputs|
  {
    if inputs == [] then m else Run(Step(m, inputs[0]), inputs[1..])
  }

  function RunningAnimators(m: Machine): nat {
    m.expandAnimator.Instances() + m.collapseAnimator.Instances() + m.progressAnimator.Instances()
  }

  /** No orphaned animator, at most one animator running, and no collapse
      running while (re)expanding or expanded. */
  predicate Exclusive(m: Machine) {
    && m.expandAnimator.orphans == 0
    && m.collapseAnimator.orphans == 0
    && m.progressAnimator.orphans == 0
    && RunningAnimators(m) <= 1
    && ((m.state == StartExpanding || m.state == Expanded) ==> m.collapseAnimator.current.None?)
  }

  /** The expand message starts an expand animator without cancelling anything,
      so it races with any animator still running: a down is accepted in every
      state, including while a recording or a collapse runs. */
  predicate Races(m: Machine, i: Input) {
    i.ExpandMessageRuns? && RunningAnimators(m) > 0
  }

  lemma StartCollapsingKeepsExclusive(m: Machine)
    requires m.expandAnimator == EmptySlot && m.progressAnimator.orphans == 0
    requires m.collapseAnimator == EmptySlot
    ensures Exclusive(StartCollapsingAnimator(m))
    ensures RunningAnimators(StartCollapsingAnimator(m)) == 1
  {
  }

  lemma UpKeepsExclusive(m: Machine)
    requires Exclusive(m)
    ensures Exclusive(OnUp(m))
  {
    if m.state == StartExpanding || m.state == Expanded {
      StartCollapsingKeepsExclusive(m.(expandAnimator := Cancel(m.expandAnimator)));
    }
  }

  /** Every input other than the race keeps the invariant. */
  lemma StepKeepsExclusive(m: Machine, i: Input)
    requires Exclusive(m) && !Races(m, i)
    ensures Exclusive(Step(m, i))
  {
    if CanOccur(m, i) {
      match i
      case Touch(a) =>
        if a == Up {
          UpKeepsExclusive(m);
        }
      case ProgressAnimatorEnds(w) =>
        StartCollapsingKeepsExclusive(m.(progressAnimator := Complete(m.progressAnimator, w)));
      case _ =>
    }
  }

  predicate RaceFree(m: Machine, inputs: seq<Input>)
    decreases |inputs|
  {
    inputs == [] || (!Races(m, inputs[0]) && RaceFree(Step(m, inputs[0]), inputs[1..]))
  }

  /** At most one animator runs after any race-free sequence of inputs from a
      state where at most one runs. */
  lemma {:induction false} RunKeepsExclusive(m: Machine, inputs: seq<Input>)
    requires Exclusive(m) && RaceFree(m, inputs)
    ensures Exclusive(Run(m, inputs)) && RunningAnimators(Run(m, inputs)) <= 1
    decreases |inputs|
  {
    if inputs != [] {
      StepKeepsExclusive(m, inputs[0]);
      RunKeepsExclusive(Step(m, inputs[0]), inputs[1..]);
    }
  }
}
