/** The prototype's `CameraButton` as an object: the handlers update the fields
    in place, step by step as the Java code does, and each one is specified by
    the function of PrototypeMachine that it implements. */
module PrototypeButton {
  import opened Java
  import opened ButtonCommon
  import opened PrototypeMachine
  import PrototypeObjects

  /** The settings no gesture handler writes. */
  datatype Appearance = Appearance(
    mainCircleRadius: int32,
    mainCircleRadiusExpanded: int32,
    strokeWidth: int32,
    progressArcWidth: int32,
    progressArcColors: seq<int32>,
    gradientRotationMultiplier: real)

  /** `Color.parseColor("#rrggbb")`: the colour with full alpha, as a Java int. */
  function OpaqueColor(rgb: int): (c: int32)
    requires 0 <= rgb < 0x100_0000
    ensures c < 0 && (c as int) % 0x100_0000 == rgb
  {
    (rgb - 0x100_0000) as int32
  }

  /** The field initialiser of the progress arc colours. */
  const DEFAULT_PROGRESS_ARC_COLORS: seq<int32> :=
    [OpaqueColor(0xfeda75), OpaqueColor(0xfa7e1e), OpaqueColor(0xd62976), OpaqueColor(0x962fbf), OpaqueColor(0x4f5bd5)]

  const DEFAULT_GRADIENT_ROTATION_MULTIPLIER: real := 1.75
  const MULTIPLIER_NOT_POSITIVE := "Multiplier should be greater than 0"

  class CameraButton {
    var state: State
    var hovered: bool
    var expandingFactor: real
    var progressFactor: real

    // Durations
    var expandDuration: int64
    var collapseDuration: int64
    var expandDelay: int64
    var holdDuration: int64

    // Cancellable
    var expandAnimator: Slot
    var collapseAnimator: Slot
    var progressAnimator: Slot
    var expandMessage: Slot

    // Listeners: registered (non-null) or not
    var hasStateListener: bool
    var hasTapListener: bool
    var hasHoldListener: bool
    var hasProgressListener: bool

    /** The callbacks the listeners received so far. */
    var events: Log

    /** The sizes and look settings, grouped. */
    var look: Appearance

    /** The fields the state machine reads and writes. */
    function Model(): Machine
      reads this
    {
      Machine(state, expandDuration, collapseDuration, expandDelay, holdDuration,
              hovered, expandingFactor, progressFactor,
              expandAnimator, collapseAnimator, progressAnimator, expandMessage,
              Listeners(hasStateListener, hasTapListener, hasHoldListener, hasProgressListener), events)
    }

    /** `init` with the four sizes already read from the resources; nothing is
        checked. The other fields keep their initialisers. */
    constructor(mainCircleRadius: int32, mainCircleRadiusExpanded: int32, strokeWidth: int32, progressArcWidth: int32)
      ensures Model() == Initial()
      ensures look == Appearance(mainCircleRadius, mainCircleRadiusExpanded, strokeWidth, progressArcWidth,
                                   DEFAULT_PROGRESS_ARC_COLORS, DEFAULT_GRADIENT_ROTATION_MULTIPLIER)
    {
      this.state := Default;
      this.hovered := false;
      this.expandingFactor := 0.0;
      this.progressFactor := 0.0;
      this.expandDuration := DEFAULT_EXPAND_DURATION;
      this.collapseDuration := DEFAULT_COLLAPSE_DURATION;
      this.expandDelay := DEFAULT_EXPAND_DELAY;
      this.holdDuration := DEFAULT_HOLD_DURATION;
      this.expandAnimator := EmptySlot;
      this.collapseAnimator := EmptySlot;
      this.progressAnimator := EmptySlot;
      this.expandMessage := EmptySlot;
      this.hasStateListener := false;
      this.hasTapListener := false;
      this.hasHoldListener := false;
      this.hasProgressListener := false;
      this.events := Nil;
      this.look := Appearance(mainCircleRadius, mainCircleRadiusExpanded, strokeWidth, progressArcWidth,
                              DEFAULT_PROGRESS_ARC_COLORS, DEFAULT_GRADIENT_ROTATION_MULTIPLIER);
    }

    /** `dispatchStateChange`: the state listener first, then the hold
        listener, then the tap listener, and the new state last. */
    method DispatchStateChange(s: State)
      modifies this
      ensures Model() == Dispatch(old(Model()), s)
      ensures look == old(look)
    {
      NotifyStateListener(s);
      NotifyHoldListener(s);
      NotifyTapListener(s);
      state := s;
    }

    method NotifyStateListener(s: State)
      modifies this
      ensures Model() == old(Model()).(events := Add(old(events), StateEvent(old(Model()), s)))
      ensures look == old(look)
    {
      if hasStateListener {
        events := Snoc(events, StateChanged(s));
      }
    }

    /** The hold listener's part of `dispatchStateChange`, with no mode filter. */
    method NotifyHoldListener(s: State)
      modifies this
      ensures Model() == old(Model()).(events := Add(old(events), HoldEvent(old(Model()), s)))
      ensures look == old(look)
    {
      if hasHoldListener {
        if s == Expanded {
          events := Snoc(events, HoldStart);
        } else if state == Expanded && s == StartCollapsing {
          events := Snoc(events, HoldFinish);
        }
      }
    }

    /** The tap listener's part of `dispatchStateChange`. */
    method NotifyTapListener(s: State)
      modifies this
      ensures Model() == old(Model()).(events := Add(old(events), TapEvent(old(Model()), s)))
      ensures look == old(look)
    {
      if hasTapListener {
        if state == Pressed && s == Default {
          events := Snoc(events, Tap);
        }
      }
    }

    method MakePaintColorsHovered(isHovered: bool)
      modifies this
      ensures Model() == PrototypeMachine.MakePaintColorsHovered(old(Model()), isHovered)
      ensures look == old(look)
    {
      hovered := isHovered;
    }

    /** A new expand animator, started; its start callback only dispatches. */
    method StartExpandingAnimator()
      modifies this
      ensures Model() == PrototypeMachine.StartExpandingAnimator(old(Model()))
      ensures look == old(look)
    {
      expandAnimator := Schedule(expandAnimator, expandDuration as int);
      DispatchStateChange(StartExpanding);
    }

    /** The collapse animator's start callback. */
    method OnCollapsingStart()
      modifies this
      ensures Model() == PrototypeMachine.OnCollapsingStart(old(Model()))
      ensures look == old(look)
    {
      progressAnimator := ButtonCommon.Cancel(progressAnimator);
      progressFactor := 0.0;
      MakePaintColorsHovered(false);
      DispatchStateChange(StartCollapsing);
    }

    /** A new collapse animator, started. */
    method StartCollapsingAnimator()
      modifies this
      ensures Model() == PrototypeMachine.StartCollapsingAnimator(old(Model()))
      ensures look == old(look)
    {
      collapseAnimator := Schedule(collapseAnimator, collapseDuration as int);
      OnCollapsingStart();
    }

    /** The ACTION_DOWN case. */
    method OnDown()
      modifies this
      ensures Model() == PrototypeMachine.OnDown(old(Model()))
      ensures look == old(look)
    {
      expandMessage := Schedule(expandMessage, expandDelay as int);
      MakePaintColorsHovered(true);
      DispatchStateChange(Pressed);
    }

    /** The ACTION_UP case. */
    method OnUp()
      modifies this
      ensures Model() == PrototypeMachine.OnUp(old(Model()))
      ensures look == old(look)
    {
      if state == StartExpanding || state == Expanded {
        expandAnimator := ButtonCommon.Cancel(expandAnimator);
        StartCollapsingAnimator();
      } else if state == Pressed {
        expandMessage := ButtonCommon.Cancel(expandMessage);
        DispatchStateChange(Default);
      }
      MakePaintColorsHovered(false);
    }

    /** `onTouchEvent`. */
    method OnTouchEvent(action: MotionAction) returns (consumed: bool)
      modifies this
      ensures (Model(), consumed) == PrototypeMachine.OnTouchEvent(old(Model()), action)
      ensures look == old(look)
    {
      match action
      case Down =>
        OnDown();
        consumed := true;
      case Up =>
        OnUp();
        consumed := true;
      case _ =>
        consumed := false;
    }

    /** The looper runs the expand message `which`. */
    method ExpandMessageRuns(which: Instance)
      requires expandMessage.Has(which)
      modifies this
      ensures Model() == Step(old(Model()), Input.ExpandMessageRuns(which))
      ensures look == old(look)
    {
      expandMessage := Complete(expandMessage, which);
      progressFactor := 0.0;
      StartExpandingAnimator();
    }

    /** The expand animator `which` reaches its end. */
    method ExpandAnimatorEnds(which: Instance)
      requires expandAnimator.Has(which)
      modifies this
      ensures Model() == Step(old(Model()), Input.ExpandAnimatorEnds(which))
      ensures look == old(look)
    {
      expandAnimator := Complete(expandAnimator, which);
      progressAnimator := Schedule(progressAnimator, holdDuration as int);
      DispatchStateChange(Expanded);
    }

    /** The collapse animator `which` reaches its end. */
    method CollapseAnimatorEnds(which: Instance)
      requires collapseAnimator.Has(which)
      modifies this
      ensures Model() == Step(old(Model()), Input.CollapseAnimatorEnds(which))
      ensures look == old(look)
    {
      collapseAnimator := Complete(collapseAnimator, which);
      DispatchStateChange(Default);
    }

    /** The progress animator `which` reaches its end and starts the collapse. */
    method ProgressAnimatorEnds(which: Instance)
      requires progressAnimator.Has(which)
      modifies this
      ensures Model() == Step(old(Model()), Input.ProgressAnimatorEnds(which))
      ensures look == old(look)
    {
      progressAnimator := Complete(progressAnimator, which);
      StartCollapsingAnimator();
    }

    /** An update tick of the expand or of the collapse animator. */
    method OnExpandingUpdate(value: real)
      modifies this
      ensures Model() == PrototypeMachine.OnExpandingUpdate(old(Model()), value)
      ensures look == old(look)
    {
      expandingFactor := value;
    }

    /** An update tick of the progress animator, with `dispatchProgressChange`. */
    method OnProgressUpdate(value: real)
      modifies this
      ensures Model() == PrototypeMachine.OnProgressUpdate(old(Model()), value)
      ensures look == old(look)
    {
      progressFactor := value;
      if hasProgressListener {
        events := Snoc(events, ProgressChanged(value));
      }
    }

    /** The four listener setters; `registered` is false for a null listener. */
    method SetOnStateChangeListener(registered: bool)
      modifies this
      ensures Model() == old(Model()).(listeners := old(Model()).listeners.(state := registered))
      ensures look == old(look)
    {
      hasStateListener := registered;
    }

    method SetOnTapEventListener(registered: bool)
      modifies this
      ensures Model() == old(Model()).(listeners := old(Model()).listeners.(tap := registered))
      ensures look == old(look)
    {
      hasTapListener := registered;
    }

    method SetOnHoldEventListener(registered: bool)
      modifies this
      ensures Model() == old(Model()).(listeners := old(Model()).listeners.(hold := registered))
      ensures look == old(look)
    {
      hasHoldListener := registered;
    }

    method SetOnProgressChangeListener(registered: bool)
      modifies this
      ensures Model() == old(Model()).(listeners := old(Model()).listeners.(progress := registered))
      ensures look == old(look)
    {
      hasProgressListener := registered;
    }

    /** The size setters store any value, unchecked. */
    method SetMainCircleRadius(radius: int32)
      modifies this
      ensures look == old(look).(mainCircleRadius := radius)
      ensures Model() == old(Model())
    {
      look := look.(mainCircleRadius := radius);
    }

    method SetMainCircleRadiusExpanded(radius: int32)
      modifies this
      ensures look == old(look).(mainCircleRadiusExpanded := radius)
      ensures Model() == old(Model())
    {
      look := look.(mainCircleRadiusExpanded := radius);
    }

    method SetStrokeWidth(width: int32)
      modifies this
      ensures look == old(look).(strokeWidth := width)
      ensures Model() == old(Model())
    {
      look := look.(strokeWidth := width);
    }

    method SetProgressArcWidth(width: int32)
      modifies this
      ensures look == old(look).(progressArcWidth := width)
      ensures Model() == old(Model())
    {
      look := look.(progressArcWidth := width);
    }

    /** `setProgressArcColors`: a null array throws; otherwise a copy is stored. */
    method SetProgressArcColors(colors: Nullable<seq<int32>>) returns (thrown: Option<JavaException>)
      modifies this
      ensures thrown.Some? <==> colors.Null?
      ensures thrown.Some? ==> thrown == Some(PrototypeObjects.RequireNonNull(colors).exception)
      ensures look == if thrown.None? then old(look).(progressArcColors := colors.get) else old(look)
      ensures Model() == old(Model())
    {
      var checked := PrototypeObjects.RequireNonNull(colors);
      if checked.Thrown? {
        return Some(checked.exception);
      }
      look := look.(progressArcColors := checked.value.get);
      thrown := None;
    }

    /** `getProgressArcColors`: a copy of the stored colours. */
    method GetProgressArcColors() returns (colors: seq<int32>)
      ensures colors == look.progressArcColors
    {
      colors := look.progressArcColors;
    }

    /** The duration setters store any value, unchecked, and the getters
        return exactly what was stored. */
    method SetExpandDuration(duration: int64)
      modifies this
      ensures Model() == old(Model()).(expandDuration := duration)
      ensures look == old(look)
    {
      expandDuration := duration;
    }

    method GetExpandDuration() returns (duration: int64)
      ensures duration == expandDuration
    {
      duration := expandDuration;
    }

    method SetCollapseDuration(duration: int64)
      modifies this
      ensures Model() == old(Model()).(collapseDuration := duration)
      ensures look == old(look)
    {
      collapseDuration := duration;
    }

    method GetCollapseDuration() returns (duration: int64)
      ensures duration == collapseDuration
    {
      duration := collapseDuration;
    }

    method SetExpandDelay(delay: int64)
      modifies this
      ensures Model() == old(Model()).(expandDelay := delay)
      ensures look == old(look)
    {
      expandDelay := delay;
    }

    method GetExpandDelay() returns (delay: int64)
      ensures delay == expandDelay
    {
      delay := expandDelay;
    }

    method SetHoldDuration(duration: int64)
      modifies this
      ensures Model() == old(Model()).(holdDuration := duration)
      ensures look == old(look)
    {
      holdDuration := duration;
    }

    method GetHoldDuration() returns (duration: int64)
      ensures duration == holdDuration
    {
      duration := holdDuration;
    }

    /** `setGradientRotationMultiplier`: a multiplier that is not positive
        throws and is not stored. */
    method SetGradientRotationMultiplier(multiplier: real) returns (thrown: Option<JavaException>)
      modifies this
      ensures thrown.Some? <==> multiplier <= 0.0
      ensures thrown.Some? ==> thrown == Some(IllegalStateException(MULTIPLIER_NOT_POSITIVE))
      ensures look == if thrown.None? then old(look).(gradientRotationMultiplier := multiplier) else old(look)
      ensures Model() == old(Model())
    {
      if multiplier <= 0.0 {
        return Some(IllegalStateException(MULTIPLIER_NOT_POSITIVE));
      }
      look := look.(gradientRotationMultiplier := multiplier);
      thrown := None;
    }

    method GetGradientRotationMultiplier() returns (multiplier: real)
      ensures multiplier == look.gradientRotationMultiplier
    {
      multiplier := look.gradientRotationMultiplier;
    }
  }
}
