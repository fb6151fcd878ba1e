/** `com.dewarder.camerabutton.CameraButton` as an object: the handlers update
    the fields in place, step by step as the Java code does, and each one is
    specified by the function of DewarderMachine that it implements. */
module DewarderButton {
  import opened Java
  import opened ButtonCommon
  import opened DewarderMachine
  import DewarderConstraints

  /** The settings no gesture handler writes. */
  datatype Appearance = Appearance(
    mainCircleRadius: int32,
    mainCircleRadiusExpanded: int32,
    strokeWidth: int32,
    progressArcWidth: int32,
    progressArcColors: seq<int32>,
    gradientRotationMultiplier: real,
    shouldCheckConsistency: bool)

  const DEFAULT_GRADIENT_ROTATION_MULTIPLIER: real := 1.75
  const MULTIPLIER_NOT_POSITIVE := "Multiplier should be greater than 0"

  /** The exception an outcome carries, if any. */
  function ThrownBy<T>(o: Outcome<T>): (r: Option<JavaException>)
    ensures r.None? <==> o.Returned?
    ensures o.Thrown? ==> r == Some(o.exception)
  {
    match o
    case Returned(_) => None
    case Thrown(e) => Some(e)
  }

  class CameraButton {
    // Logic
    var state: State
    var mode: Mode
    var collapseAction: Action
    var enabled: bool
    var shouldCollapseOnNextRelease: bool
    var hovered: bool
    var expandingFactor: real
    var progressFactor: real

    // Durations
    var expandDuration: int64
    var collapseDuration: int64
    var expandDelay: int64
    var holdDuration: int64

    // Cancellable
    var expandAnimator: Slot
    var collapseAnimator: Slot
    var progressAnimator: Slot
    var expandMessage: Slot

    // Listeners: registered (non-null) or not
    var hasStateListener: bool
    var hasTapListener: bool
    var hasHoldListener: bool
    var hasProgressListener: bool

    /** The callbacks the listeners received so far. */
    var events: Log

    /** The sizes and look settings, grouped. */
    var look: Appearance

    /** The fields the state machine reads and writes. */
    function Model(): Machine
      reads this
    {
      Machine(state, mode, collapseAction, enabled, expandDuration, collapseDuration, expandDelay, holdDuration,
              shouldCollapseOnNextRelease, hovered, expandingFactor, progressFactor,
              expandAnimator, collapseAnimator, progressAnimator, expandMessage,
              Listeners(hasStateListener, hasTapListener, hasHoldListener, hasProgressListener), events)
    }

    /** `isTouched`: inside the square of half-side main radius plus stroke
        width, an int sum that wraps around. */
    function IsTouched(x: real, y: real, width: int32, height: int32): bool
      reads this
    {
      InSquare(x, y, width, height, AddInt32(look.mainCircleRadius, look.strokeWidth))
    }

    /** `isTouchedExpanded`: inside the square of half-side main radius plus
        expanded main radius. */
    function IsTouchedExpanded(x: real, y: real, width: int32, height: int32): bool
      reads this
    {
      InSquare(x, y, width, height, AddInt32(look.mainCircleRadius, look.mainCircleRadiusExpanded))
    }

    /** A touch that hits the collapsed button also hits the expanded one, as
        long as the stroke is no wider than the expanded radius and the radius
        sums do not overflow; a sum that overflows gives a hit test that
        accepts nothing. */
    lemma TouchedImpliesTouchedExpanded(x: real, y: real, width: int32, height: int32)
      requires look.strokeWidth <= look.mainCircleRadiusExpanded
      requires -0x8000_0000 <= look.mainCircleRadius as int + look.strokeWidth as int
      ensures look.mainCircleRadius as int + look.mainCircleRadiusExpanded as int < 0x8000_0000
              ==> (IsTouched(x, y, width, height) ==> IsTouchedExpanded(x, y, width, height))
      ensures look.mainCircleRadius as int + look.mainCircleRadiusExpanded as int >= 0x8000_0000
              ==> !IsTouchedExpanded(x, y, width, height)
    {
      if look.mainCircleRadius as int + look.mainCircleRadiusExpanded as int < 0x8000_0000 {
        ButtonCommon.TouchedImpliesTouchedExpanded(x, y, width, height, look.mainCircleRadius, look.strokeWidth,
                                                   look.mainCircleRadiusExpanded);
      } else {
        ButtonCommon.OverflowedHitTestIsEmpty(x, y, width, height, look.mainCircleRadius, look.mainCircleRadiusExpanded);
      }
    }

    /** `init` with the attribute values already read from the resources: the
        four durations went through `checkDuration`, and the mode and the
        collapse action were decoded by `fromValue`, each of which throws on a
        value it rejects. */
    constructor(modeValue: int32, actionValue: int32,
                mainCircleRadius: int32, mainCircleRadiusExpanded: int32, strokeWidth: int32, progressArcWidth: int32,
                progressArcColors: seq<int32>,
                expandDuration: int64, expandDelay: int64, collapseDuration: int64, holdDuration: int64)
      requires DewarderConstraints.CheckDuration(expandDuration).Returned?
      requires DewarderConstraints.CheckDuration(expandDelay).Returned?
      requires DewarderConstraints.CheckDuration(collapseDuration).Returned?
      requires DewarderConstraints.CheckDuration(holdDuration).Returned?
      requires Mode.FromValue(modeValue).Returned? && Action.FromValue(actionValue).Returned?
      ensures Model() == Initial(Mode.FromValue(modeValue).value, Action.FromValue(actionValue).value,
                                 expandDuration, collapseDuration, expandDelay, holdDuration, NoListeners)
      ensures look == Appearance(mainCircleRadius, mainCircleRadiusExpanded, strokeWidth, progressArcWidth,
                                   progressArcColors, DEFAULT_GRADIENT_ROTATION_MULTIPLIER, true)
    {
      this.state := Default;
      this.mode := Mode.FromValue(modeValue).value;
      this.collapseAction := Action.FromValue(actionValue).value;
      this.enabled := true;
      this.shouldCollapseOnNextRelease := false;
      this.hovered := false;
      this.expandingFactor := 0.0;
      this.progressFactor := 0.0;
      this.expandDuration := expandDuration;
      this.collapseDuration := collapseDuration;
      this.expandDelay := expandDelay;
      this.holdDuration := holdDuration;
      this.expandAnimator := EmptySlot;
      this.collapseAnimator := EmptySlot;
      this.progressAnimator := EmptySlot;
      this.expandMessage := EmptySlot;
      this.hasStateListener := false;
      this.hasTapListener := false;
      this.hasHoldListener := false;
      this.hasProgressListener := false;
      this.events := Nil;
      this.look := Appearance(mainCircleRadius, mainCircleRadiusExpanded, strokeWidth, progressArcWidth,
                              progressArcColors, DEFAULT_GRADIENT_ROTATION_MULTIPLIER, true);
    }

    /** `dispatchStateChange`: the state listener first, then the hold
        listener, then the tap listener, and the new state last. */
    method DispatchStateChange(s: State)
      modifies this
      ensures Model() == Dispatch(old(Model()), s)
      ensures look == old(look)
    {
      NotifyStateListener(s);
      NotifyHoldListener(s);
      NotifyTapListener(s);
      state := s;
    }

    /** The state listener's part of `dispatchStateChange`. */
    method NotifyStateListener(s: State)
      modifies this
      ensures Model() == old(Model()).(events := Add(old(events), StateEvent(old(Model()), s)))
      ensures look == old(look)
    {
      if hasStateListener {
        events := Snoc(events, StateChanged(s));
      }
    }

    /** The hold listener's part of `dispatchStateChange`. */
    method NotifyHoldListener(s: State)
      modifies this
      ensures Model() == old(Model()).(events := Add(old(events), HoldEvent(old(Model()), s)))
      ensures look == old(look)
    {
      if hasHoldListener && mode.IsHoldAllowed() {
        if s == Expanded {
          events := Snoc(events, HoldStart);
        } else if state == Expanded && s == StartCollapsing {
          events := Snoc(events, HoldFinish);
        }
      }
    }

    /** The tap listener's part of `dispatchStateChange`. */
    method NotifyTapListener(s: State)
      modifies this
      ensures Model() == old(Model()).(events := Add(old(events), TapEvent(old(Model()), s)))
      ensures look == old(look)
    {
      if hasTapListener && mode.IsTapAllowed() {
        if (state == Pressed && s == Default) || (state == StartExpanding && s == StartCollapsing) {
          events := Snoc(events, Tap);
        }
      }
    }

    method PostExpandingMessageIfNeeded()
      modifies this
      ensures Model() == DewarderMachine.PostExpandingMessageIfNeeded(old(Model()))
      ensures look == old(look)
    {
      if mode.IsHoldAllowed() {
        if mode.IsTapAllowed() {
          expandMessage := Schedule(expandMessage, expandDelay as int);
        } else {
          expandMessage := Schedule(expandMessage, 0);
        }
      }
    }

    method CancelExpandingAnimatorIfNeeded()
      modifies this
      ensures Model() == DewarderMachine.CancelExpandingAnimatorIfNeeded(old(Model()))
      ensures look == old(look)
    {
      expandAnimator := expandAnimator.(current := None);
    }

    method CancelCollapsingAnimatorIfNeeded()
      modifies this
      ensures Model() == DewarderMachine.CancelCollapsingAnimatorIfNeeded(old(Model()))
      ensures look == old(look)
    {
      collapseAnimator := collapseAnimator.(current := None);
    }

    method CancelProgressAnimatorIfNeeded()
      modifies this
      ensures Model() == DewarderMachine.CancelProgressAnimatorIfNeeded(old(Model()))
      ensures look == old(look)
    {
      progressAnimator := progressAnimator.(current := None);
    }

    method MakePaintColorsHovered(isHovered: bool)
      modifies this
      ensures Model() == DewarderMachine.MakePaintColorsHovered(old(Model()), isHovered)
      ensures look == old(look)
    {
      hovered := isHovered;
    }

    /** The expand animator's start callback. */
    method OnExpandingStart()
      modifies this
      ensures Model() == DewarderMachine.OnExpandingStart(old(Model()))
      ensures look == old(look)
    {
      DispatchStateChange(StartExpanding);
      CancelProgressAnimatorIfNeeded();
      CancelCollapsingAnimatorIfNeeded();
    }

    /** A new expand animator, started. */
    method StartExpandingAnimator()
      modifies this
      ensures Model() == DewarderMachine.StartExpandingAnimator(old(Model()))
      ensures look == old(look)
    {
      expandAnimator := Schedule(expandAnimator, expandDuration as int);
      OnExpandingStart();
    }

    /** The collapse animator's start callback. */
    method OnCollapsingStart()
      modifies this
      ensures Model() == DewarderMachine.OnCollapsingStart(old(Model()))
      ensures look == old(look)
    {
      shouldCollapseOnNextRelease := false;
      CancelExpandingAnimatorIfNeeded();
      CancelProgressAnimatorIfNeeded();
      MakePaintColorsHovered(false);
      DispatchStateChange(StartCollapsing);
    }

    /** A new collapse animator, started. */
    method StartCollapsingAnimator()
      modifies this
      ensures Model() == DewarderMachine.StartCollapsingAnimator(old(Model()))
      ensures look == old(look)
    {
      collapseAnimator := Schedule(collapseAnimator, collapseDuration as int);
      OnCollapsingStart();
    }

    /** The body of the expand message. */
    method RunExpandMessage()
      modifies this
      ensures Model() == DewarderMachine.RunExpandMessage(old(Model()))
      ensures look == old(look)
    {
      progressFactor := 0.0;
      StartExpandingAnimator();
    }

    /** The expand animator's end callback. */
    method OnExpandingEnd()
      modifies this
      ensures Model() == DewarderMachine.OnExpandingEnd(old(Model()))
      ensures look == old(look)
    {
      progressAnimator := Schedule(progressAnimator, holdDuration as int);
      DispatchStateChange(Expanded);
    }

    /** The collapse animator's end callback. */
    method OnCollapsingEnd()
      modifies this
      ensures Model() == DewarderMachine.OnCollapsingEnd(old(Model()))
      ensures look == old(look)
    {
      progressFactor := 0.0;
      DispatchStateChange(Default);
    }

    method OnMove(inExpanded: bool) returns (consumed: bool)
      modifies this
      ensures (Model(), consumed) == DewarderMachine.OnMove(old(Model()), inExpanded)
      ensures look == old(look)
    {
      if shouldCollapseOnNextRelease {
        MakePaintColorsHovered(inExpanded);
      }
      consumed := true;
    }

    method OnUp(inExpanded: bool) returns (consumed: bool)
      modifies this
      ensures (Model(), consumed) == DewarderMachine.OnUp(old(Model()), inExpanded)
      ensures look == old(look)
    {
      if state == StartExpanding || state == Expanded {
        if collapseAction == CLICK && !shouldCollapseOnNextRelease {
          shouldCollapseOnNextRelease := true;
          MakePaintColorsHovered(false);
          return true;
        }
        if collapseAction == CLICK && !inExpanded {
          return true;
        }
        StartCollapsingAnimator();
        MakePaintColorsHovered(false);
        return true;
      } else if state == Pressed {
        ReleasePressed();
        return true;
      }
      return false;
    }

    /** A release before the expand message ran: the message is removed and the
        button is back to its default state. */
    method ReleasePressed()
      modifies this
      ensures Model() == DewarderMachine.MakePaintColorsHovered(
                           Dispatch(old(Model()).(expandMessage := ButtonCommon.Cancel(old(expandMessage))), Default), false)
      ensures look == old(look)
    {
      expandMessage := ButtonCommon.Cancel(expandMessage);
      DispatchStateChange(Default);
      MakePaintColorsHovered(false);
    }

    /** `onTouchEvent` for a touch at (x, y) on a view of the given size. */
    method OnTouchEvent(action: MotionAction, x: real, y: real, width: int32, height: int32) returns (consumed: bool)
      modifies this
      ensures (Model(), consumed)
              == DewarderMachine.OnTouchEvent(old(Model()), action, old(IsTouched(x, y, width, height)),
                                                old(IsTouchedExpanded(x, y, width, height)))
      ensures look == old(look)
    {
      var inCollapsed := IsTouched(x, y, width, height);
      var inExpanded := IsTouchedExpanded(x, y, width, height);
      match action
      case Down =>
        if enabled && inCollapsed {
          MakePaintColorsHovered(true);
          if shouldCollapseOnNextRelease && (state == StartExpanding || state == Expanded) {
            return true;
          }
          PostExpandingMessageIfNeeded();
          DispatchStateChange(Pressed);
          return true;
        }
        consumed := OnMove(inExpanded);
      case Move =>
        consumed := OnMove(inExpanded);
      case Up =>
        consumed := OnUp(inExpanded);
      case Other =>
        consumed := false;
    }

    /** `performClick`; `handled` is what the platform's own click handling
        returned, which is passed through. */
    method PerformClick(handled: bool) returns (result: bool)
      modifies this
      ensures Model() == DewarderMachine.PerformClick(old(Model()))
      ensures look == old(look)
      ensures result == handled
    {
      result := handled;
      if collapseAction == CLICK && (state == StartExpanding || state == Expanded) {
        StartCollapsingAnimator();
      }
    }

    /** The looper runs the expand message `which`. */
    method ExpandMessageRuns(which: Instance)
      requires expandMessage.Has(which)
      modifies this
      ensures Model() == Step(old(Model()), Input.ExpandMessageRuns(which))
      ensures look == old(look)
    {
      expandMessage := Complete(expandMessage, which);
      RunExpandMessage();
    }

    /** The expand animator `which` reaches its end. */
    method ExpandAnimatorEnds(which: Instance)
      requires expandAnimator.Has(which)
      modifies this
      ensures Model() == Step(old(Model()), Input.ExpandAnimatorEnds(which))
      ensures look == old(look)
    {
      expandAnimator := Complete(expandAnimator, which);
      OnExpandingEnd();
    }

    /** The collapse animator `which` reaches its end. */
    method CollapseAnimatorEnds(which: Instance)
      requires collapseAnimator.Has(which)
      modifies this
      ensures Model() == Step(old(Model()), Input.CollapseAnimatorEnds(which))
      ensures look == old(look)
    {
      collapseAnimator := Complete(collapseAnimator, which);
      OnCollapsingEnd();
    }

    /** The progress animator `which` reaches its end: the recording is over
        and the end callback starts the collapse. */
    method ProgressAnimatorEnds(which: Instance)
      requires progressAnimator.Has(which)
      modifies this
      ensures Model() == Step(old(Model()), Input.ProgressAnimatorEnds(which))
      ensures look == old(look)
    {
      progressAnimator := Complete(progressAnimator, which);
      StartCollapsingAnimator();
    }

    /** An update tick of the expand or of the collapse animator. */
    method OnExpandingUpdate(value: real)
      modifies this
      ensures Model() == DewarderMachine.OnExpandingUpdate(old(Model()), value)
      ensures look == old(look)
    {
      expandingFactor := value;
    }

    /** An update tick of the progress animator, with `dispatchProgressChange`. */
    method OnProgressUpdate(value: real)
      modifies this
      ensures Model() == DewarderMachine.OnProgressUpdate(old(Model()), value)
      ensures look == old(look)
    {
      progressFactor := value;
      if hasProgressListener {
        events := Snoc(events, ProgressChanged(value));
      }
    }

    /** `View.setEnabled`, read by the down handler through `isEnabled()`. */
    method SetEnabled(isEnabled: bool)
      modifies this
      ensures Model() == old(Model()).(enabled := isEnabled)
      ensures look == old(look)
    {
      enabled := isEnabled;
    }

    /** `setMode`: a null mode throws and is not stored. */
    method SetMode(newMode: Nullable<Mode>) returns (thrown: Option<JavaException>)
      modifies this
      ensures thrown == ThrownBy(DewarderConstraints.CheckNonNull(newMode))
      ensures Model() == if thrown.None? then old(Model()).(mode := newMode.get) else old(Model())
      ensures look == old(look)
    {
      var checked := DewarderConstraints.CheckNonNull(newMode);
      thrown := ThrownBy(checked);
      if checked.Returned? {
        mode := checked.value.get;
      }
    }

    /** `setCollapseAction`: a null action throws and is not stored. */
    method SetCollapseAction(action: Nullable<Action>) returns (thrown: Option<JavaException>)
      modifies this
      ensures thrown == ThrownBy(DewarderConstraints.CheckNonNull(action))
      ensures Model() == if thrown.None? then old(Model()).(collapseAction := action.get) else old(Model())
      ensures look == old(look)
    {
      var checked := DewarderConstraints.CheckNonNull(action);
      thrown := ThrownBy(checked);
      if checked.Returned? {
        collapseAction := checked.value.get;
      }
    }

    /** The four listener setters; `registered` is false for a null listener. */
    method SetOnStateChangeListener(registered: bool)
      modifies this
      ensures Model() == old(Model()).(listeners := old(Model()).listeners.(state := registered))
      ensures look == old(look)
    {
      hasStateListener := registered;
    }

    method SetOnTapEventListener(registered: bool)
      modifies this
      ensures Model() == old(Model()).(listeners := old(Model()).listeners.(tap := registered))
      ensures look == old(look)
    {
      hasTapListener := registered;
    }

    method SetOnHoldEventListener(registered: bool)
      modifies this
      ensures Model() == old(Model()).(listeners := old(Model()).listeners.(hold := registered))
      ensures look == old(look)
    {
      hasHoldListener := registered;
    }

    method SetOnProgressChangeListener(registered: bool)
      modifies this
      ensures Model() == old(Model()).(listeners := old(Model()).listeners.(progress := registered))
      ensures look == old(look)
    {
      hasProgressListener := registered;
    }

    /** `setMainCircleRadius`: a radius that is not positive throws and is not stored. */
    method SetMainCircleRadius(radius: int32) returns (thrown: Option<JavaException>)
      modifies this
      ensures thrown == ThrownBy(DewarderConstraints.CheckDimension(radius))
      ensures look == if thrown.None? then old(look).(mainCircleRadius := radius) else old(look)
      ensures Model() == old(Model())
    {
      var checked := DewarderConstraints.CheckDimension(radius);
      thrown := ThrownBy(checked);
      if checked.Returned? {
        look := look.(mainCircleRadius := checked.value);
      }
    }

    method SetMainCircleRadiusExpanded(radius: int32) returns (thrown: Option<JavaException>)
      modifies this
      ensures thrown == ThrownBy(DewarderConstraints.CheckDimension(radius))
      ensures look == if thrown.None? then old(look).(mainCircleRadiusExpanded := radius) else old(look)
      ensures Model() == old(Model())
    {
      var checked := DewarderConstraints.CheckDimension(radius);
      thrown := ThrownBy(checked);
      if checked.Returned? {
        look := look.(mainCircleRadiusExpanded := checked.value);
      }
    }

    method SetStrokeWidth(width: int32) returns (thrown: Option<JavaException>)
      modifies this
      ensures thrown == ThrownBy(DewarderConstraints.CheckDimension(width))
      ensures look == if thrown.None? then old(look).(strokeWidth := width) else old(look)
      ensures Model() == old(Model())
    {
      var checked := DewarderConstraints.CheckDimension(width);
      thrown := ThrownBy(checked);
      if checked.Returned? {
        look := look.(strokeWidth := checked.value);
      }
    }

    method SetProgressArcWidth(width: int32) returns (thrown: Option<JavaException>)
      modifies this
      ensures thrown == ThrownBy(DewarderConstraints.CheckDimension(width))
      ensures look == if thrown.None? then old(look).(progressArcWidth := width) else old(look)
      ensures Model() == old(Model())
    {
      var checked := DewarderConstraints.CheckDimension(width);
      thrown := ThrownBy(checked);
      if checked.Returned? {
        look := look.(progressArcWidth := checked.value);
      }
    }

    /** `setProgressArcColors`: a null array throws; otherwise a copy is stored. */
    method SetProgressArcColors(colors: Nullable<seq<int32>>) returns (thrown: Option<JavaException>)
      modifies this
      ensures thrown == ThrownBy(DewarderConstraints.CheckNonNull(colors))
      ensures look == if thrown.None? then old(look).(progressArcColors := colors.get) else old(look)
      ensures Model() == old(Model())
    {
      var checked := DewarderConstraints.CheckNonNull(colors);
      thrown := ThrownBy(checked);
      if checked.Returned? {
        look := look.(progressArcColors := checked.value.get);
      }
    }

    /** `setExpandDuration`: a duration that is not positive throws and is not stored. */
    method SetExpandDuration(duration: int64) returns (thrown: Option<JavaException>)
      modifies this
      ensures thrown == ThrownBy(DewarderConstraints.CheckDuration(duration))
      ensures Model() == if thrown.None? then old(Model()).(expandDuration := duration) else old(Model())
      ensures look == old(look)
    {
      var checked := DewarderConstraints.CheckDuration(duration);
      thrown := ThrownBy(checked);
      if checked.Returned? {
        expandDuration := checked.value;
      }
    }

    method SetCollapseDuration(duration: int64) returns (thrown: Option<JavaException>)
      modifies this
      ensures thrown == ThrownBy(DewarderConstraints.CheckDuration(duration))
      ensures Model() == if thrown.None? then old(Model()).(collapseDuration := duration) else old(Model())
      ensures look == old(look)
    {
      var checked := DewarderConstraints.CheckDuration(duration);
      thrown := ThrownBy(checked);
      if checked.Returned? {
        collapseDuration := checked.value;
      }
    }

    method SetExpandDelay(delay: int64) returns (thrown: Option<JavaException>)
      modifies this
      ensures thrown == ThrownBy(DewarderConstraints.CheckDuration(delay))
      ensures Model() == if thrown.None? then old(Model()).(expandDelay := delay) else old(Model())
      ensures look == old(look)
    {
      var checked := DewarderConstraints.CheckDuration(delay);
      thrown := ThrownBy(checked);
      if checked.Returned? {
        expandDelay := checked.value;
      }
    }

    method SetHoldDuration(duration: int64) returns (thrown: Option<JavaException>)
      modifies this
      ensures thrown == ThrownBy(DewarderConstraints.CheckDuration(duration))
      ensures Model() == if thrown.None? then old(Model()).(holdDuration := duration) else old(Model())
      ensures look == old(look)
    {
      var checked := DewarderConstraints.CheckDuration(duration);
      thrown := ThrownBy(checked);
      if checked.Returned? {
        holdDuration := checked.value;
      }
    }

    /** `setGradientRotationMultiplier`: a multiplier that is not positive
        throws and is not stored. */
    method SetGradientRotationMultiplier(multiplier: real) returns (thrown: Option<JavaException>)
      modifies this
      ensures thrown.Some? <==> multiplier <= 0.0
      ensures thrown.Some? ==> thrown == Some(IllegalStateException(MULTIPLIER_NOT_POSITIVE))
      ensures look == if thrown.None? then old(look).(gradientRotationMultiplier := multiplier) else old(look)
      ensures Model() == old(Model())
    {
      if multiplier <= 0.0 {
        return Some(IllegalStateException(MULTIPLIER_NOT_POSITIVE));
      }
      look := look.(gradientRotationMultiplier := multiplier);
      thrown := None;
    }

    /** `setShouldCheckConsistency`. */
    method SetShouldCheckConsistency(checkConsistency: bool)
      modifies this
      ensures look == old(look).(shouldCheckConsistency := checkConsistency)
      ensures Model() == old(Model())
    {
      look := look.(shouldCheckConsistency := checkConsistency);
    }
  }
}
