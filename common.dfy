/** Vocabulary shared by the three versions of the camera button: the button
    state, touch actions, listener callbacks and the bookkeeping for the
    animators and the delayed expand message. */
module ButtonCommon {
  import opened Java

  datatype Option<T> = None | Some(value: T)

  /** `CameraButton.State`, identical in all three versions. */
  datatype State = Default | Pressed | StartExpanding | Expanded | StartCollapsing

  /** The masked action of a `MotionEvent`; `Other` stands for every action the
      widget does not handle (ACTION_CANCEL, multi-touch actions, ...). */
  datatype MotionAction = Down | Move | Up | Other

  /** A callback delivered to a registered listener. The tap channel is called
      "photo" (`onClick`) and the hold channel "video" in the latest version. */
  datatype Event =
    | StateChanged(to: State)
    | Tap
    | HoldStart
    | HoldFinish
    | HoldCancel
    | ProgressChanged(progress: real)

  /** The hit test of the library versions: the point (x, y) of a touch lies
      in the axis-aligned square of half-side `radius` centred on a view of the
      given size. */
  predicate InSquare(x: real, y: real, width: int32, height: int32, radius: int32) {
    var dx := x - width as real / 2.0;
    var dy := y - height as real / 2.0;
    (if dx < 0.0 then -dx else dx) <= radius as real && (if dy < 0.0 then -dy else dy) <= radius as real
  }

  /** `isTouched` (half-side main radius plus stroke width) accepts no touch
      that `isTouchedExpanded` (half-side main radius plus expanded radius)
      rejects, provided the stroke is no wider than the expanded radius and
      neither Java sum overflows. */
  lemma TouchedImpliesTouchedExpanded(x: real, y: real, width: int32, height: int32,
                                      mainCircleRadius: int32, strokeWidth: int32, mainCircleRadiusExpanded: int32)
    requires strokeWidth <= mainCircleRadiusExpanded
    requires -0x8000_0000 <= mainCircleRadius as int + strokeWidth as int
    requires mainCircleRadius as int + mainCircleRadiusExpanded as int < 0x8000_0000
    ensures InSquare(x, y, width, height, AddInt32(mainCircleRadius, strokeWidth))
            ==> InSquare(x, y, width, height, AddInt32(mainCircleRadius, mainCircleRadiusExpanded))
  {
  }

  /** When the Java sum of two radii overflows, it wraps to a negative radius
      and the hit test accepts no touch at all. */
  lemma OverflowedHitTestIsEmpty(x: real, y: real, width: int32, height: int32, a: int32, b: int32)
    requires a as int + b as int >= 0x8000_0000
    ensures AddInt32(a, b) < 0
    ensures !InSquare(x, y, width, height, AddInt32(a, b))
  {
    var sum := a as int + b as int;
    assert (sum + 0x8000_0000) % 0x1_0000_0000 == sum + 0x8000_0000 - 0x1_0000_0000;
  }

  /** Which of the four single-slot listeners are registered (non-null). */
  datatype Listeners = Listeners(state: bool, tap: bool, hold: bool, progress: bool)

  const NoListeners := Listeners(false, false, false, false)

  /** Picks one scheduled instance of an animator or of the expand message: the one
      the widget's field refers to, or an orphan (see Slot). */
  datatype Instance = Current | Orphan

  /** A field holding a ValueAnimator or the expand Runnable, abstracted from time.
      `current` is Some(d) while the instance the field refers to is still running
      (an animator of duration d) or still queued (a message posted with delay d);
      it is None when the field is null or its instance has ended, been cancelled
      or been removed, which the widget cannot tell apart. `orphans` counts earlier
      instances that were still running or queued when the field was overwritten:
      nothing can cancel them any more, and their callbacks still run. */
  datatype Slot = Slot(current: Option<int>, orphans: nat) {

    /** Some instance is running or queued. */
    predicate Running() {
      current.Some? || orphans > 0
    }

    /** How many instances are running or queued. */
    function Instances(): nat {
      (if current.Some? then 1 else 0) + orphans
    }

    /** The instance `which` exists and may therefore end or fire. */
    predicate Has(which: Instance) {
      match which
      case Current => current.Some?
      case Orphan => orphans > 0
    }
  }

  const EmptySlot := Slot(None, 0)

  /** Assigning a freshly created animator (or message) scheduled with duration
      (or delay) d to the field; the previous instance, if still running, is
      orphaned rather than cancelled. */
  function Schedule(s: Slot, d: int): (r: Slot)
    ensures r.current == Some(d)
    ensures r.Instances() == s.Instances() + 1
  {
    Slot(Some(d), s.orphans + (if s.current.Some? then 1 else 0))
  }

  /** `cancel()` on the field's animator, or `removeCallbacks` of the field's
      message: a no-op on null or on an instance that already ended; orphans are
      out of reach. */
  function Cancel(s: Slot): (r: Slot)
    ensures !r.current.Some? && r.orphans == s.orphans
    ensures r.Instances() == s.Instances() - (if s.current.Some? then 1 else 0)
  {
    s.(current := None)
  }

  /** The instance `which` ends on its own (an animator reaching its end value, a
      message being run by the looper). */
  function Complete(s: Slot, which: Instance): (r: Slot)
    requires s.Has(which)
    ensures r.Instances() == s.Instances() - 1
  {
    match which
    case Current => s.(current := None)
    case Orphan => s.(orphans := s.orphans - 1)
  }

  /** The callbacks delivered so far, oldest first: `Snoc(log, e)` is `log`
      followed by `e`. */
  datatype Log = Nil | Snoc(before: Log, last: Event)

  /** The log extended by a callback, if one is delivered. */
  function Add(log: Log, e: Option<Event>): Log {
    match e
    case None => log
    case Some(x) => Snoc(log, x)
  }

  /** The cancel helpers are safe on an empty field, and cancelling twice is
      cancelling once. */
  lemma CancelIsSafe(s: Slot)
    ensures Cancel(EmptySlot) == EmptySlot
    ensures Cancel(Cancel(s)) == Cancel(s)
  {
  }
}
