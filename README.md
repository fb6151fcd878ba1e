# CameraButton, modelled in Dafny

CameraButton is an Android view: a round shutter button that tells a camera
screen what the user did with it. A short **tap** asks for a photo. A **hold**
starts a video: the button grows, a progress arc runs for the video duration,
and the recording ends on release or when the arc is full. The button works
through five states, DEFAULT, PRESSED, START_EXPANDING, EXPANDED and
START_COLLAPSING. Three property animators (expand, collapse, progress) and a
delayed "expand" message drive it, and each state change is reported to the
registered listeners.

The repository holds three versions of this state machine, and the model
covers each one:

* `Hluhovskyi*`: the current library (package `com.hluhovskyi.camerabutton`).
  It has an integer mode (ALL, PHOTO, VIDEO), an integer collapse action
  (RELEASE, CLICK), photo and video listeners, `performClick` and
  `cancel(animated)`.
* `Dewarder*`: the earlier library (package `com.dewarder.camerabutton`). Its
  mode (ALL, TAP, HOLD) and action (RELEASE, CLICK) are enums decoded by
  `fromValue`, and it has tap and hold listeners.
* `Prototype*`: the demo app's first version. It has no mode, no collapse
  action and no hit test: every down presses and every up releases.

The validators are part of the model too: `Constraints.checkNonNull`,
`checkDimension` and `checkDuration` of both libraries, and the prototype's
`Objects.requireNonNull`.

Each version has three files:

* A `*Machine` module holds the button state as a value (`Machine`). It has
  one function per Java handler, the step function `Step` over the inputs the
  platform can deliver, and `Run` over a sequence of inputs.
* A `*Properties` module proves what the handlers promise, one input at a
  time and over whole gestures (a tap, a hold and release, the click-collapse
  gesture, cancelling a recording).
* A `*Button` module holds `class CameraButton`. It has the Java fields, and
  its methods mirror the Java methods and listener callbacks statement by
  statement. Each method's contract ties the new object state to the machine
  function of the old state. The setters state exactly when the validators
  throw and what they store.

Some shared pieces live in their own modules:

* `ButtonCommon` holds the states, the callbacks and the hit test.
* `Slot` describes one animator or message field. It records the instance the
  field refers to while that instance runs, plus a count of the older
  instances the field was overwritten on. Those instances are never cancelled,
  so their callbacks still arrive.
* `Java` holds the 32- and 64-bit integers, `int` addition with wrap-around,
  `Integer.toString`, and the outcome of a call that may throw.

Timing is abstracted: a timer firing or an animator reaching its end is an
input (`ExpandMessageRuns`, `ExpandAnimatorEnds`, ...). Any instance that is
still live may deliver it, whether current or orphaned. The central invariant
is that at most one animator runs. Every input preserves it except a few
races, and the `*KeepsExclusive` lemmas name those races. `DoublePressRace`
shows one of them in the latest library: a pressed-then-cancelled gesture
followed by a second press leaves two expand animators running, and
`onStart` is delivered twice.

Where a source comment and the code disagree, the model follows the code.
`cancel(false)` while recording is documented as reporting `onCancel`. It
dispatches DEFAULT directly, so no video callback is delivered and the
canceling flag stays set. The next ordinary release then reports `onCancel`
instead of `onFinish` (`CancelUnanimatedWhileRecording`, `StaleCancelFlag`).
In the prototype, a press and release during a recording is taken for a tap,
and that recording never gets `onFinish` (`TapDuringRecordingLosesFinish`).

## Model

| member | source | states |
|---|---|---|
| Java.AddInt32 | camerabutton/src/main/java/com/hluhovskyi/camerabutton/CameraButton.java:461 | Java `int` addition: equals the mathematical sum whenever that sum fits in 32 bits (it wraps otherwise); used for the hit-test radii |
| Java.IntToString | camerabutton/src/main/java/com/dewarder/camerabutton/CameraButton.java:963 | the decimal text of an int appended to the fromValue messages: a leading minus exactly for negative values, digits after it |
| Java.IntToStringRoundTrip | camerabutton/src/main/java/com/dewarder/camerabutton/CameraButton.java:963 | reading the sign and digits back gives the int that was written |
| Java.Digits | camerabutton/src/main/java/com/dewarder/camerabutton/CameraButton.java:963 | the decimal digits of a natural number: never empty, every character a digit |
| Java.DigitsRoundTrip | camerabutton/src/main/java/com/dewarder/camerabutton/CameraButton.java:963 | reading back the digits written for a natural number gives that number |
| ButtonCommon.TouchedImpliesTouchedExpanded | camerabutton/src/main/java/com/hluhovskyi/camerabutton/CameraButton.java:460-470 | with the stroke no wider than the expanded radius and neither radius sum overflowing, every touch `isTouched` accepts is also accepted by `isTouchedExpanded` |
| ButtonCommon.OverflowedHitTestIsEmpty | camerabutton/src/main/java/com/hluhovskyi/camerabutton/CameraButton.java:461-469 | a radius sum that overflows Java `int` wraps to a negative radius, and the square hit test then accepts no touch |
| ButtonCommon.Schedule | camerabutton/src/main/java/com/hluhovskyi/camerabutton/CameraButton.java:479-494 | assigning a new animator or message to a field: the field's instance now runs with the given duration or delay, and one more instance is running or queued |
| ButtonCommon.Cancel | camerabutton/src/main/java/com/hluhovskyi/camerabutton/CameraButton.java:535-540 | `cancel()` / `removeCallbacks` on a field: its instance stops and the count drops by one if it was running; instances no field refers to are untouched |
| ButtonCommon.Complete | camerabutton/src/main/java/com/hluhovskyi/camerabutton/CameraButton.java:517-523 | an instance ending on its own: one fewer instance runs |
| ButtonCommon.CancelIsSafe | camerabutton/src/main/java/com/hluhovskyi/camerabutton/CameraButton.java:535-540 | the cancel helpers are no-ops on an empty field, and cancelling twice is cancelling once |
| HluhovskyiConstraints.CheckNonNull | camerabutton/src/main/java/com/hluhovskyi/camerabutton/Constraints.java:25-30 | returns the argument unchanged exactly when it is non-null; a null throws NullPointerException("Non-null object required") |
| HluhovskyiConstraints.CheckDimension | camerabutton/src/main/java/com/hluhovskyi/camerabutton/Constraints.java:32-37 | throws IllegalStateException("Dimension should be greater than 0") exactly when the value is <= 0, otherwise returns it unchanged |
| HluhovskyiConstraints.CheckDuration | camerabutton/src/main/java/com/hluhovskyi/camerabutton/Constraints.java:39-44 | throws IllegalStateException("Duration should be greater than 0") exactly when the value is <= 0, otherwise returns it unchanged |
| HluhovskyiConstraints.CheckDurationIdempotent | camerabutton/src/main/java/com/hluhovskyi/camerabutton/Constraints.java:39-44 | checking an accepted duration a second time gives the same outcome as checking it once |
| DewarderConstraints.CheckNonNull | camerabutton/src/main/java/com/dewarder/camerabutton/Constraints.java:9-14 | returns the argument unchanged exactly when it is non-null; a null throws NullPointerException with the same message |
| DewarderConstraints.CheckDimension | camerabutton/src/main/java/com/dewarder/camerabutton/Constraints.java:16-21 | throws exactly when the dimension is <= 0, otherwise returns it unchanged |
| DewarderConstraints.CheckDuration | camerabutton/src/main/java/com/dewarder/camerabutton/Constraints.java:23-28 | throws exactly when the duration is <= 0, otherwise returns it unchanged |
| PrototypeObjects.RequireNonNull | app/src/main/java/com/dewarder/camerabutton/Objects.java:9-14 | returns the same reference exactly when it is non-null, so a returned value is never null; a null throws NullPointerException("Non-null object required") |
| PrototypeObjects.RequireNonNullIdempotent | app/src/main/java/com/dewarder/camerabutton/Objects.java:9-14 | applying the guard to what it returned gives the same outcome as applying it once |
| HluhovskyiMachine.Initial | camerabutton/src/main/java/com/hluhovskyi/camerabutton/CameraButton.java:226-253 | a new button is DEFAULT with the given mode, action, durations and listeners, an empty log and no animator running; it is enabled, not hovered, not armed and not canceling |
| HluhovskyiMachine.DispatchedCallbacks | camerabutton/src/main/java/com/hluhovskyi/camerabutton/CameraButton.java:943-971 | video onStart exactly on entering EXPANDED; on EXPANDED to START_COLLAPSING exactly one of onCancel (a cancel in progress) and onFinish; photo onClick exactly on PRESSED to DEFAULT or START_EXPANDING to START_COLLAPSING; each only for a registered listener allowed by the mode (both directions) |
| HluhovskyiMachine.ExpandMessageDelay | camerabutton/src/main/java/com/hluhovskyi/camerabutton/CameraButton.java:477-496 | an expand message is queued exactly when the mode is ALL or VIDEO: delayed by expandDelay in ALL, posted at once in VIDEO |
| HluhovskyiMachine.StartCollapsingKeepsExclusive | camerabutton/src/main/java/com/hluhovskyi/camerabutton/CameraButton.java:542-579 | starting the collapse animator from a state with no stray animator leaves it the only one running |
| HluhovskyiMachine.StartExpandingKeepsExclusive | camerabutton/src/main/java/com/hluhovskyi/camerabutton/CameraButton.java:498-533 | starting the expand animator while none runs leaves it the only one running; its start cancels the progress and collapse animators |
| HluhovskyiMachine.UpKeepsExclusive | camerabutton/src/main/java/com/hluhovskyi/camerabutton/CameraButton.java:419-448 | every up keeps at most one animator running |
| HluhovskyiMachine.DownKeepsExclusive | camerabutton/src/main/java/com/hluhovskyi/camerabutton/CameraButton.java:395-417 | every down keeps at most one animator running |
| HluhovskyiMachine.TouchKeepsExclusive | camerabutton/src/main/java/com/hluhovskyi/camerabutton/CameraButton.java:392-451 | every touch event keeps at most one animator running |
| HluhovskyiMachine.CancelKeepsExclusive | camerabutton/src/main/java/com/hluhovskyi/camerabutton/CameraButton.java:921-935 | `cancel(animated)` keeps at most one animator running, unless an animated cancel overwrites a running collapse animator |
| HluhovskyiMachine.StepKeepsExclusive | camerabutton/src/main/java/com/hluhovskyi/camerabutton/CameraButton.java:392-622 | every input keeps the one-animator invariant except the two races: the expand message running while an expand animator runs, an animated cancel while the collapse runs |
| HluhovskyiMachine.RunKeepsExclusive | camerabutton/src/main/java/com/hluhovskyi/camerabutton/CameraButton.java:392-622 | at most one animator runs after any race-free sequence of inputs from such a state |
| HluhovskyiProperties.DownInside | camerabutton/src/main/java/com/hluhovskyi/camerabutton/CameraButton.java:395-409 | a down inside the collapsed square on an enabled button is consumed and sets hover; with a click-collapse armed while (re)expanding nothing else changes; otherwise PRESSED, an expand message exactly when the mode allows, and no animator touched |
| HluhovskyiProperties.DownOutsideIsMove | camerabutton/src/main/java/com/hluhovskyi/camerabutton/CameraButton.java:395-417 | a down outside the square or on a disabled button falls through to the MOVE case: consumed, with no state change and no callback |
| HluhovskyiProperties.UpWhilePressed | camerabutton/src/main/java/com/hluhovskyi/camerabutton/CameraButton.java:440-447 | an up while PRESSED removes the expand message, dispatches DEFAULT (a photo when allowed), clears hover and is consumed |
| HluhovskyiProperties.UpWhileIdle | camerabutton/src/main/java/com/hluhovskyi/camerabutton/CameraButton.java:419-450 | an up in DEFAULT or START_COLLAPSING changes nothing and returns false |
| HluhovskyiProperties.ClickCollapsePolicy | camerabutton/src/main/java/com/hluhovskyi/camerabutton/CameraButton.java:419-439 | under CLICK the first up while (re)expanding only arms the flag and clears hover; an armed up outside the expanded square changes nothing; an armed up inside starts the collapse |
| HluhovskyiProperties.ReleaseCollapsePolicy | camerabutton/src/main/java/com/hluhovskyi/camerabutton/CameraButton.java:419-439 | under any other action the first up while (re)expanding starts the collapse and clears hover |
| HluhovskyiProperties.PerformClickPolicy | camerabutton/src/main/java/com/hluhovskyi/camerabutton/CameraButton.java:380-389 | a click collapses the button exactly under CLICK while (re)expanding, and changes nothing otherwise |
| HluhovskyiProperties.CollapseStart | camerabutton/src/main/java/com/hluhovskyi/camerabutton/CameraButton.java:553-562 | the collapse start clears the armed flag, cancels the expand and progress animators, clears hover and dispatches START_COLLAPSING; the callbacks it produces in each state |
| HluhovskyiProperties.CollapseEnd | camerabutton/src/main/java/com/hluhovskyi/camerabutton/CameraButton.java:565-569 | the collapse end resets the progress to 0 and dispatches DEFAULT, heard only by the state listener |
| HluhovskyiProperties.ExpandStartAndEnd | camerabutton/src/main/java/com/hluhovskyi/camerabutton/CameraButton.java:509-523 | the expand start dispatches START_EXPANDING and cancels the progress and collapse animators; its end starts the progress animator and dispatches EXPANDED, which is video onStart when allowed |
| HluhovskyiProperties.ProgressEndCollapses | camerabutton/src/main/java/com/hluhovskyi/camerabutton/CameraButton.java:601-605 | the progress animator's end starts the collapse: the recording ends on its own after the video duration |
| HluhovskyiProperties.CancelledAnimatorsNeverEnd | camerabutton/src/main/java/com/hluhovskyi/camerabutton/CameraButton.java:525-540 | a cancelled expand, collapse or progress animator lost its listeners: reporting its end changes nothing |
| HluhovskyiProperties.CancelAnimatedWhileRecording | camerabutton/src/main/java/com/hluhovskyi/camerabutton/CameraButton.java:921-935 | `cancel(true)` while EXPANDED collapses the button and delivers onCancel, never onFinish; the flag is cleared when onCancel is delivered |
| HluhovskyiProperties.CancelUnanimatedWhileRecording | camerabutton/src/main/java/com/hluhovskyi/camerabutton/CameraButton.java:913-935 | `cancel(false)` while EXPANDED dispatches DEFAULT, so no onCancel is delivered although the comment promises it, and the canceling flag stays set |
| HluhovskyiProperties.PressRun | camerabutton/src/main/java/com/hluhovskyi/camerabutton/CameraButton.java:395-409 | a press as a one-input run: PRESSED, the expand message queued, animators untouched |
| HluhovskyiProperties.MessageRun | camerabutton/src/main/java/com/hluhovskyi/camerabutton/CameraButton.java:479-485 | the expand message running: progress reset and a new expand animator started, START_EXPANDING |
| HluhovskyiProperties.PressStartsExpanding | camerabutton/src/main/java/com/hluhovskyi/camerabutton/CameraButton.java:477-515 | a press then the expand message: PRESSED then START_EXPANDING, with the new expand animator assigned over the field |
| HluhovskyiProperties.HoldExpands | camerabutton/src/androidTest/java/com/hluhovskyi/camerabutton/ModeAllStateListenerTest.kt:91-101 | a hold on an idle button in ALL or VIDEO mode goes through PRESSED and START_EXPANDING to EXPANDED and starts a recording |
| HluhovskyiProperties.ExpandEndRun | camerabutton/src/main/java/com/hluhovskyi/camerabutton/CameraButton.java:517-523 | one expand animator instance ending: EXPANDED, a progress animator started, onStart when allowed |
| HluhovskyiProperties.ReleaseRun | camerabutton/src/main/java/com/hluhovskyi/camerabutton/CameraButton.java:419-439 | a release while EXPANDED under RELEASE starts the collapse and ends the recording with onCancel while canceling, onFinish otherwise |
| HluhovskyiProperties.CollapseEndRun | camerabutton/src/main/java/com/hluhovskyi/camerabutton/CameraButton.java:564-569 | the collapse animator ending returns to DEFAULT |
| HluhovskyiProperties.HoldAndReleaseStates | camerabutton/src/androidTest/java/com/hluhovskyi/camerabutton/ModeAllStateListenerTest.kt:118-133 | a hold and release in ALL mode notifies PRESSED, START_EXPANDING, EXPANDED, START_COLLAPSING and DEFAULT, in that order |
| HluhovskyiProperties.CancelQuietlyRun | camerabutton/src/main/java/com/hluhovskyi/camerabutton/CameraButton.java:921-935 | `cancel(false)` during a recording as a run: DEFAULT with the canceling flag left set |
| HluhovskyiProperties.StaleCancelFlag | camerabutton/src/main/java/com/hluhovskyi/camerabutton/CameraButton.java:950-961 | after `cancel(false)` during a recording, the next recording ended by an ordinary release is reported with onCancel instead of onFinish |
| HluhovskyiProperties.ArmRun | camerabutton/src/main/java/com/hluhovskyi/camerabutton/CameraButton.java:421-426 | the first release while EXPANDED under CLICK only arms the click-collapse |
| HluhovskyiProperties.ArmedPressRun | camerabutton/src/main/java/com/hluhovskyi/camerabutton/CameraButton.java:399-403 | a press while EXPANDED and armed keeps the button EXPANDED |
| HluhovskyiProperties.ArmedReleaseRun | camerabutton/src/main/java/com/hluhovskyi/camerabutton/CameraButton.java:428-439 | an armed release inside the expanded square starts the collapse |
| HluhovskyiProperties.ClickCollapseTrace | camerabutton/src/androidTest/java/com/hluhovskyi/camerabutton/CollapseActionClickTest.kt:38-88 | under CLICK a hold and release leaves the button EXPANDED, a second press keeps it EXPANDED, and the second release starts the collapse |
| HluhovskyiProperties.GestureCancelRun | camerabutton/src/main/java/com/hluhovskyi/camerabutton/CameraButton.java:392-451 | a touch action the handler does not handle (ACTION_CANCEL) changes nothing |
| HluhovskyiProperties.DoublePressRace | camerabutton/src/main/java/com/hluhovskyi/camerabutton/CameraButton.java:477-523 | in VIDEO mode, a press whose gesture is cancelled during START_EXPANDING and a second press leave two expand animators running; their ends deliver onStart twice and start two progress animators |
| HluhovskyiButton.ThrownBy | camerabutton/src/main/java/com/hluhovskyi/camerabutton/Constraints.java:25-44 | the exception a guard threw, if any: none exactly when the guard returned |
| HluhovskyiButton.CameraButton.constructor | camerabutton/src/main/java/com/hluhovskyi/camerabutton/CameraButton.java:281-377 | a new button in the initial machine state with the given mode, action and durations; the durations and the icon size must pass the guards; the default multiplier and icon scroll speed are set |
| HluhovskyiButton.CameraButton.TouchedImpliesTouchedExpanded | camerabutton/src/main/java/com/hluhovskyi/camerabutton/CameraButton.java:460-470 | on this button: a touch on the collapsed button hits the expanded one when the stroke is no wider than the expanded radius and the sums fit; an overflowing expanded sum makes `isTouchedExpanded` reject every touch |
| HluhovskyiButton.CameraButton.DispatchStateChange | camerabutton/src/main/java/com/hluhovskyi/camerabutton/CameraButton.java:943-971 | the new state equals the dispatch function: callbacks in listener order, the canceling flag cleared with onCancel, then the state stored |
| HluhovskyiButton.CameraButton.NotifyStateListener | camerabutton/src/main/java/com/hluhovskyi/camerabutton/CameraButton.java:946-948 | appends the state change for a registered state listener |
| HluhovskyiButton.CameraButton.NotifyVideoListener | camerabutton/src/main/java/com/hluhovskyi/camerabutton/CameraButton.java:950-961 | appends the video callback the dispatch function gives, clearing the canceling flag with onCancel |
| HluhovskyiButton.CameraButton.NotifyPhotoListener | camerabutton/src/main/java/com/hluhovskyi/camerabutton/CameraButton.java:963-968 | appends onClick on a click edge for a registered, allowed photo listener |
| HluhovskyiButton.CameraButton.PostExpandingMessageIfNeeded | camerabutton/src/main/java/com/hluhovskyi/camerabutton/CameraButton.java:477-496 | queues the expand message with the delay ExpandMessageDelay gives, or nothing |
| HluhovskyiButton.CameraButton.CancelExpandingAnimatorIfNeeded | camerabutton/src/main/java/com/hluhovskyi/camerabutton/CameraButton.java:535-540 | cancels the expand field's animator |
| HluhovskyiButton.CameraButton.CancelCollapsingAnimatorIfNeeded | camerabutton/src/main/java/com/hluhovskyi/camerabutton/CameraButton.java:581-586 | cancels the collapse field's animator |
| HluhovskyiButton.CameraButton.CancelProgressAnimatorIfNeeded | camerabutton/src/main/java/com/hluhovskyi/camerabutton/CameraButton.java:617-622 | cancels the progress field's animator |
| HluhovskyiButton.CameraButton.MakePaintColorsHovered | camerabutton/src/main/java/com/hluhovskyi/camerabutton/CameraButton.java:629-637 | stores the hover flag |
| HluhovskyiButton.CameraButton.OnExpandingStart | camerabutton/src/main/java/com/hluhovskyi/camerabutton/CameraButton.java:509-515 | the expand start callback, as the machine function |
| HluhovskyiButton.CameraButton.StartExpandingAnimator | camerabutton/src/main/java/com/hluhovskyi/camerabutton/CameraButton.java:483-484 | a new expand animator assigned and started, as the machine function |
| HluhovskyiButton.CameraButton.OnCollapsingStart | camerabutton/src/main/java/com/hluhovskyi/camerabutton/CameraButton.java:553-562 | the collapse start callback, as the machine function |
| HluhovskyiButton.CameraButton.StartCollapsingAnimator | camerabutton/src/main/java/com/hluhovskyi/camerabutton/CameraButton.java:434-435 | a new collapse animator assigned and started, as the machine function |
| HluhovskyiButton.CameraButton.RunExpandMessage | camerabutton/src/main/java/com/hluhovskyi/camerabutton/CameraButton.java:481-485 | the expand message body, as the machine function |
| HluhovskyiButton.CameraButton.OnExpandingEnd | camerabutton/src/main/java/com/hluhovskyi/camerabutton/CameraButton.java:517-523 | the expand end callback, as the machine function |
| HluhovskyiButton.CameraButton.OnCollapsingEnd | camerabutton/src/main/java/com/hluhovskyi/camerabutton/CameraButton.java:565-569 | the collapse end callback, as the machine function |
| HluhovskyiButton.CameraButton.OnMove | camerabutton/src/main/java/com/hluhovskyi/camerabutton/CameraButton.java:412-417 | the MOVE case: hover follows the expanded hit test only while armed |
| HluhovskyiButton.CameraButton.OnUp | camerabutton/src/main/java/com/hluhovskyi/camerabutton/CameraButton.java:419-448 | the UP case, with its consumed flag, as the machine function |
| HluhovskyiButton.CameraButton.ReleasePressed | camerabutton/src/main/java/com/hluhovskyi/camerabutton/CameraButton.java:440-447 | the PRESSED branch of the UP case, as the machine function |
| HluhovskyiButton.CameraButton.OnTouchEvent | camerabutton/src/main/java/com/hluhovskyi/camerabutton/CameraButton.java:392-451 | the new state and the returned flag are those of the touch function of the machine |
| HluhovskyiButton.CameraButton.PerformClick | camerabutton/src/main/java/com/hluhovskyi/camerabutton/CameraButton.java:380-389 | as the machine function; the platform's click result is passed through |
| HluhovskyiButton.CameraButton.ExpandMessageRuns | camerabutton/src/main/java/com/hluhovskyi/camerabutton/CameraButton.java:479-485 | the expand message instance runs: as one step of the machine |
| HluhovskyiButton.CameraButton.ExpandAnimatorEnds | camerabutton/src/main/java/com/hluhovskyi/camerabutton/CameraButton.java:517-523 | an expand animator instance ends: as one step of the machine |
| HluhovskyiButton.CameraButton.CollapseAnimatorEnds | camerabutton/src/main/java/com/hluhovskyi/camerabutton/CameraButton.java:565-569 | a collapse animator instance ends: as one step of the machine |
| HluhovskyiButton.CameraButton.ProgressAnimatorEnds | camerabutton/src/main/java/com/hluhovskyi/camerabutton/CameraButton.java:601-605 | a progress animator instance ends: as one step of the machine |
| HluhovskyiButton.CameraButton.OnExpandingUpdate | camerabutton/src/main/java/com/hluhovskyi/camerabutton/CameraButton.java:500-506 | an expand or collapse tick stores the animated value |
| HluhovskyiButton.CameraButton.OnProgressUpdate | camerabutton/src/main/java/com/hluhovskyi/camerabutton/CameraButton.java:591-597 | a progress tick stores the value and notifies a registered progress listener |
| HluhovskyiButton.CameraButton.CancelRecording | camerabutton/src/main/java/com/hluhovskyi/camerabutton/CameraButton.java:921-935 | `cancel(animated)`, as the machine function |
| HluhovskyiButton.CameraButton.StopRecording | camerabutton/src/main/java/com/hluhovskyi/camerabutton/CameraButton.java:922-924 | cancels the progress and expand animators and raises the canceling flag |
| HluhovskyiButton.CameraButton.ResetWithoutAnimation | camerabutton/src/main/java/com/hluhovskyi/camerabutton/CameraButton.java:929-933 | dispatches DEFAULT and resets the armed flag and both factors |
| HluhovskyiButton.CameraButton.Cancel | camerabutton/src/main/java/com/hluhovskyi/camerabutton/CameraButton.java:909-911 | `cancel()` is `cancel(true)` |
| HluhovskyiButton.CameraButton.SetEnabled | camerabutton/src/main/java/com/hluhovskyi/camerabutton/CameraButton.java:396 | stores the enabled flag the down handler reads |
| HluhovskyiButton.CameraButton.SetMode | camerabutton/src/main/java/com/hluhovskyi/camerabutton/CameraButton.java:1172-1174 | stores any int as the mode, unchecked |
| HluhovskyiButton.CameraButton.SetCollapseAction | camerabutton/src/main/java/com/hluhovskyi/camerabutton/CameraButton.java:1181-1183 | stores any int as the collapse action, unchecked |
| HluhovskyiButton.CameraButton.SetOnStateChangeListener | camerabutton/src/main/java/com/hluhovskyi/camerabutton/CameraButton.java:987-989 | registers or clears the state listener and nothing else |
| HluhovskyiButton.CameraButton.SetOnPhotoEventListener | camerabutton/src/main/java/com/hluhovskyi/camerabutton/CameraButton.java:994-996 | registers or clears the photo listener and nothing else |
| HluhovskyiButton.CameraButton.SetOnVideoEventListener | camerabutton/src/main/java/com/hluhovskyi/camerabutton/CameraButton.java:1001-1003 | registers or clears the video listener and nothing else |
| HluhovskyiButton.CameraButton.SetOnProgressChangeListener | camerabutton/src/main/java/com/hluhovskyi/camerabutton/CameraButton.java:1008-1010 | registers or clears the progress listener and nothing else |
| HluhovskyiButton.CameraButton.SetMainCircleRadius | camerabutton/src/main/java/com/hluhovskyi/camerabutton/CameraButton.java:1023-1026 | stores the radius exactly when checkDimension accepts it; otherwise throws and changes nothing |
| HluhovskyiButton.CameraButton.SetMainCircleRadiusExpanded | camerabutton/src/main/java/com/hluhovskyi/camerabutton/CameraButton.java:1039-1042 | the same for the expanded radius |
| HluhovskyiButton.CameraButton.SetStrokeWidth | camerabutton/src/main/java/com/hluhovskyi/camerabutton/CameraButton.java:1049-1052 | the same for the stroke width |
| HluhovskyiButton.CameraButton.SetProgressArcWidth | camerabutton/src/main/java/com/hluhovskyi/camerabutton/CameraButton.java:1059-1062 | the same for the progress arc width |
| HluhovskyiButton.CameraButton.SetIconSize | camerabutton/src/main/java/com/hluhovskyi/camerabutton/CameraButton.java:1203-1205 | the same for the icon size |
| HluhovskyiButton.CameraButton.SetProgressArcColors | camerabutton/src/main/java/com/hluhovskyi/camerabutton/CameraButton.java:1106-1110 | a null array throws and changes nothing; otherwise a copy is stored |
| HluhovskyiButton.CameraButton.SetExpandDuration | camerabutton/src/main/java/com/hluhovskyi/camerabutton/CameraButton.java:1117-1119 | stores the duration exactly when checkDuration accepts it; otherwise throws and changes nothing |
| HluhovskyiButton.CameraButton.SetCollapseDuration | camerabutton/src/main/java/com/hluhovskyi/camerabutton/CameraButton.java:1126-1128 | the same for the collapse duration |
| HluhovskyiButton.CameraButton.SetExpandDelay | camerabutton/src/main/java/com/hluhovskyi/camerabutton/CameraButton.java:1135-1137 | the same for the expand delay |
| HluhovskyiButton.CameraButton.SetVideoDuration | camerabutton/src/main/java/com/hluhovskyi/camerabutton/CameraButton.java:1144-1146 | the same for the video duration |
| HluhovskyiButton.CameraButton.SetIconScrollDuration | camerabutton/src/main/java/com/hluhovskyi/camerabutton/CameraButton.java:1220-1222 | the same for the icon scroll duration |
| HluhovskyiButton.CameraButton.SetGradientRotationMultiplier | camerabutton/src/main/java/com/hluhovskyi/camerabutton/CameraButton.java:1153-1160 | throws IllegalStateException exactly for a multiplier <= 0, otherwise stores it unchanged |
| HluhovskyiButton.CameraButton.SetShouldCheckConsistency | camerabutton/src/main/java/com/hluhovskyi/camerabutton/CameraButton.java:1195-1197 | stores the flag |
| DewarderMachine.Mode.Ordinal | camerabutton/src/main/java/com/dewarder/camerabutton/CameraButton.java:941-944 | the declaration order of ALL, TAP, HOLD, within 0..2 |
| DewarderMachine.Mode.FromValue | camerabutton/src/main/java/com/dewarder/camerabutton/CameraButton.java:954-965 | returns exactly for 0, 1, 2, the mode with that ordinal; any other value throws IllegalStateException("No mode corresponding to value " + value) |
| DewarderMachine.Action.Ordinal | camerabutton/src/main/java/com/dewarder/camerabutton/CameraButton.java:976-978 | the declaration order of RELEASE, CLICK, within 0..1 |
| DewarderMachine.Action.FromValue | camerabutton/src/main/java/com/dewarder/camerabutton/CameraButton.java:980-989 | returns exactly for 0 and 1, the action with that ordinal; any other value throws IllegalStateException("No action corresponding to value " + value) |
| DewarderMachine.FromValueOrdinal | camerabutton/src/main/java/com/dewarder/camerabutton/CameraButton.java:954-989 | decoding the ordinal of a mode or an action gives it back |
| DewarderMachine.ModeFacets | camerabutton/src/main/java/com/dewarder/camerabutton/CameraButton.java:942-952 | ALL allows taps and holds, TAP only taps, HOLD only holds; every mode allows one of them |
| DewarderMachine.Initial | camerabutton/src/main/java/com/dewarder/camerabutton/CameraButton.java:127-150 | a new button is DEFAULT with the given mode, action, durations and listeners, an empty log and no animator running; it is enabled, not hovered and not armed |
| DewarderMachine.DispatchedCallbacks | camerabutton/src/main/java/com/dewarder/camerabutton/CameraButton.java:672-695 | hold onStart exactly on entering EXPANDED, onFinish exactly on EXPANDED to START_COLLAPSING, never onCancel; tap onTap exactly on PRESSED to DEFAULT or START_EXPANDING to START_COLLAPSING; each only for a registered listener the mode allows (both directions) |
| DewarderMachine.ExpandMessageDelay | camerabutton/src/main/java/com/dewarder/camerabutton/CameraButton.java:369-385 | an expand message is queued exactly when holds are allowed: delayed by expandDelay when taps are allowed too, posted at once otherwise |
| DewarderMachine.StartCollapsingKeepsExclusive | camerabutton/src/main/java/com/dewarder/camerabutton/CameraButton.java:428-462 | starting the collapse animator from a state with no stray animator leaves it the only one running |
| DewarderMachine.StartExpandingKeepsExclusive | camerabutton/src/main/java/com/dewarder/camerabutton/CameraButton.java:387-419 | starting the expand animator while none runs leaves it the only one running |
| DewarderMachine.UpKeepsExclusive | camerabutton/src/main/java/com/dewarder/camerabutton/CameraButton.java:311-340 | every up keeps at most one animator running |
| DewarderMachine.DownKeepsExclusive | camerabutton/src/main/java/com/dewarder/camerabutton/CameraButton.java:287-309 | every down keeps at most one animator running |
| DewarderMachine.TouchKeepsExclusive | camerabutton/src/main/java/com/dewarder/camerabutton/CameraButton.java:283-343 | every touch event keeps at most one animator running |
| DewarderMachine.StepKeepsExclusive | camerabutton/src/main/java/com/dewarder/camerabutton/CameraButton.java:271-502 | every input keeps the one-animator invariant except the expand message running while an expand animator runs |
| DewarderMachine.RunKeepsExclusive | camerabutton/src/main/java/com/dewarder/camerabutton/CameraButton.java:271-502 | at most one animator runs after any race-free sequence of inputs from such a state |
| DewarderProperties.DownInside | camerabutton/src/main/java/com/dewarder/camerabutton/CameraButton.java:287-301 | a down inside the collapsed square on an enabled button is consumed and sets hover; armed while (re)expanding nothing else changes; otherwise PRESSED, an expand message exactly when holds are allowed, no animator touched |
| DewarderProperties.DownOutsideIsMove | camerabutton/src/main/java/com/dewarder/camerabutton/CameraButton.java:287-309 | a down outside the square or on a disabled button is handled as a move: consumed, no state change, no callback |
| DewarderProperties.UpPolicy | camerabutton/src/main/java/com/dewarder/camerabutton/CameraButton.java:311-342 | an up while PRESSED removes the expand message, dispatches DEFAULT and clears hover; in DEFAULT or START_COLLAPSING it changes nothing and returns false |
| DewarderProperties.ClickCollapsePolicy | camerabutton/src/main/java/com/dewarder/camerabutton/CameraButton.java:311-331 | under CLICK the first up while (re)expanding only arms; armed, an up outside the expanded square changes nothing and one inside starts the collapse |
| DewarderProperties.ReleaseAndClickPolicy | camerabutton/src/main/java/com/dewarder/camerabutton/CameraButton.java:271-331 | under RELEASE the first up while (re)expanding starts the collapse; a click collapses exactly under CLICK while (re)expanding |
| DewarderProperties.CollapseStartAndEnd | camerabutton/src/main/java/com/dewarder/camerabutton/CameraButton.java:435-452 | the collapse start disarms, cancels the expand and progress animators, clears hover and dispatches START_COLLAPSING; its end resets the progress and dispatches DEFAULT |
| DewarderProperties.ExpandStartAndEnd | camerabutton/src/main/java/com/dewarder/camerabutton/CameraButton.java:394-409 | the expand start dispatches START_EXPANDING and cancels the progress and collapse animators; its end starts the progress animator and dispatches EXPANDED; the progress end starts the collapse |
| DewarderProperties.CancelledAnimatorsNeverEnd | camerabutton/src/main/java/com/dewarder/camerabutton/CameraButton.java:411-426 | a cancelled expand, collapse or progress animator lost its listeners: reporting its end changes nothing |
| DewarderProperties.NeverCancels | camerabutton/src/main/java/com/dewarder/camerabutton/CameraButton.java:679-685 | no sequence of inputs ever delivers onCancel to the hold listener |
| DewarderProperties.DispatchNeverCancels | camerabutton/src/main/java/com/dewarder/camerabutton/CameraButton.java:672-695 | no dispatch delivers onCancel |
| DewarderProperties.StepNeverCancels | camerabutton/src/main/java/com/dewarder/camerabutton/CameraButton.java:271-502 | no single input delivers onCancel |
| DewarderProperties.TouchNeverCancels | camerabutton/src/main/java/com/dewarder/camerabutton/CameraButton.java:283-343 | no touch event delivers onCancel |
| DewarderProperties.CollapseNeverCancels | camerabutton/src/main/java/com/dewarder/camerabutton/CameraButton.java:435-445 | starting the collapse delivers no onCancel |
| DewarderProperties.PressRun | camerabutton/src/main/java/com/dewarder/camerabutton/CameraButton.java:287-301 | a press on an idle button in ALL mode: PRESSED with the expand message queued |
| DewarderProperties.MessageRun | camerabutton/src/main/java/com/dewarder/camerabutton/CameraButton.java:371-375 | the expand message running: START_EXPANDING with an expand animator running and no collapse |
| DewarderProperties.ExpandEndRun | camerabutton/src/main/java/com/dewarder/camerabutton/CameraButton.java:403-409 | the expand animator ending: EXPANDED, onStart when holds are allowed |
| DewarderProperties.UpRun | camerabutton/src/main/java/com/dewarder/camerabutton/CameraButton.java:311-338 | a release: PRESSED returns to DEFAULT; EXPANDED under RELEASE starts the collapse with onFinish when holds are allowed |
| DewarderProperties.CollapseEndRun | camerabutton/src/main/java/com/dewarder/camerabutton/CameraButton.java:447-452 | the collapse animator ending returns to DEFAULT |
| DewarderProperties.ModeAllStates | camerabutton/src/androidTest/java/com.dewarder.camerabutton/ModeAllStateTest.kt:31-80 | in ALL mode: PRESSED on press, START_EXPANDING after the delay, EXPANDED after the expand duration, DEFAULT on an early release, START_COLLAPSING on a later release and DEFAULT once it ends |
| DewarderProperties.HoldAndReleaseCallbacks | camerabutton/src/main/java/com/dewarder/camerabutton/CameraButton.java:679-685 | a hold and release in HOLD mode delivers exactly onStart then onFinish |
| DewarderButton.ThrownBy | camerabutton/src/main/java/com/dewarder/camerabutton/Constraints.java:9-28 | the exception a guard threw, if any: none exactly when the guard returned |
| DewarderButton.CameraButton.constructor | camerabutton/src/main/java/com/dewarder/camerabutton/CameraButton.java:178-269 | a new button in the initial machine state; the durations must pass checkDuration and the mode and action values must decode with fromValue |
| DewarderButton.CameraButton.TouchedImpliesTouchedExpanded | camerabutton/src/main/java/com/dewarder/camerabutton/CameraButton.java:352-362 | the same two facts about the earlier library's `isTouched` and `isTouchedExpanded` |
| DewarderButton.CameraButton.DispatchStateChange | camerabutton/src/main/java/com/dewarder/camerabutton/CameraButton.java:672-695 | the new state equals the dispatch function: callbacks in listener order, then the state stored |
| DewarderButton.CameraButton.NotifyStateListener | camerabutton/src/main/java/com/dewarder/camerabutton/CameraButton.java:675-677 | appends the state change for a registered state listener |
| DewarderButton.CameraButton.NotifyHoldListener | camerabutton/src/main/java/com/dewarder/camerabutton/CameraButton.java:679-685 | appends onStart or onFinish as the dispatch function gives |
| DewarderButton.CameraButton.NotifyTapListener | camerabutton/src/main/java/com/dewarder/camerabutton/CameraButton.java:687-692 | appends onTap on a tap edge for a registered, allowed tap listener |
| DewarderButton.CameraButton.PostExpandingMessageIfNeeded | camerabutton/src/main/java/com/dewarder/camerabutton/CameraButton.java:369-385 | queues the expand message with the delay ExpandMessageDelay gives, or nothing |
| DewarderButton.CameraButton.CancelExpandingAnimatorIfNeeded | camerabutton/src/main/java/com/dewarder/camerabutton/CameraButton.java:421-426 | cancels the expand field's animator |
| DewarderButton.CameraButton.CancelCollapsingAnimatorIfNeeded | camerabutton/src/main/java/com/dewarder/camerabutton/CameraButton.java:464-469 | cancels the collapse field's animator |
| DewarderButton.CameraButton.CancelProgressAnimatorIfNeeded | camerabutton/src/main/java/com/dewarder/camerabutton/CameraButton.java:497-502 | cancels the progress field's animator |
| DewarderButton.CameraButton.MakePaintColorsHovered | camerabutton/src/main/java/com/dewarder/camerabutton/CameraButton.java:509-517 | stores the hover flag |
| DewarderButton.CameraButton.OnExpandingStart | camerabutton/src/main/java/com/dewarder/camerabutton/CameraButton.java:394-401 | the expand start callback, as the machine function |
| DewarderButton.CameraButton.StartExpandingAnimator | camerabutton/src/main/java/com/dewarder/camerabutton/CameraButton.java:373-374 | a new expand animator assigned and started, as the machine function |
| DewarderButton.CameraButton.OnCollapsingStart | camerabutton/src/main/java/com/dewarder/camerabutton/CameraButton.java:435-445 | the collapse start callback, as the machine function |
| DewarderButton.CameraButton.StartCollapsingAnimator | camerabutton/src/main/java/com/dewarder/camerabutton/CameraButton.java:326-327 | a new collapse animator assigned and started, as the machine function |
| DewarderButton.CameraButton.RunExpandMessage | camerabutton/src/main/java/com/dewarder/camerabutton/CameraButton.java:371-375 | the expand message body, as the machine function |
| DewarderButton.CameraButton.OnExpandingEnd | camerabutton/src/main/java/com/dewarder/camerabutton/CameraButton.java:403-409 | the expand end callback, as the machine function |
| DewarderButton.CameraButton.OnCollapsingEnd | camerabutton/src/main/java/com/dewarder/camerabutton/CameraButton.java:447-452 | the collapse end callback, as the machine function |
| DewarderButton.CameraButton.OnMove | camerabutton/src/main/java/com/dewarder/camerabutton/CameraButton.java:304-309 | the MOVE case: hover follows the expanded hit test only while armed |
| DewarderButton.CameraButton.OnUp | camerabutton/src/main/java/com/dewarder/camerabutton/CameraButton.java:311-340 | the UP case, with its consumed flag, as the machine function |
| DewarderButton.CameraButton.ReleasePressed | camerabutton/src/main/java/com/dewarder/camerabutton/CameraButton.java:332-339 | the PRESSED branch of the UP case, as the machine function |
| DewarderButton.CameraButton.OnTouchEvent | camerabutton/src/main/java/com/dewarder/camerabutton/CameraButton.java:283-343 | the new state and the returned flag are those of the touch function of the machine |
| DewarderButton.CameraButton.PerformClick | camerabutton/src/main/java/com/dewarder/camerabutton/CameraButton.java:271-281 | as the machine function; the platform's click result is passed through |
| DewarderButton.CameraButton.ExpandMessageRuns | camerabutton/src/main/java/com/dewarder/camerabutton/CameraButton.java:371-375 | the expand message instance runs: as one step of the machine |
| DewarderButton.CameraButton.ExpandAnimatorEnds | camerabutton/src/main/java/com/dewarder/camerabutton/CameraButton.java:403-409 | an expand animator instance ends: as one step of the machine |
| DewarderButton.CameraButton.CollapseAnimatorEnds | camerabutton/src/main/java/com/dewarder/camerabutton/CameraButton.java:447-452 | a collapse animator instance ends: as one step of the machine |
| DewarderButton.CameraButton.ProgressAnimatorEnds | camerabutton/src/main/java/com/dewarder/camerabutton/CameraButton.java:480-485 | a progress animator instance ends: as one step of the machine |
| DewarderButton.CameraButton.OnExpandingUpdate | camerabutton/src/main/java/com/dewarder/camerabutton/CameraButton.java:389-392 | an expand or collapse tick stores the animated value |
| DewarderButton.CameraButton.OnProgressUpdate | camerabutton/src/main/java/com/dewarder/camerabutton/CameraButton.java:474-478 | a progress tick stores the value and notifies a registered progress listener |
| DewarderButton.CameraButton.SetEnabled | camerabutton/src/main/java/com/dewarder/camerabutton/CameraButton.java:288 | stores the enabled flag the down handler reads |
| DewarderButton.CameraButton.SetMode | camerabutton/src/main/java/com/dewarder/camerabutton/CameraButton.java:876-878 | a null mode throws and changes nothing; otherwise it is stored |
| DewarderButton.CameraButton.SetCollapseAction | camerabutton/src/main/java/com/dewarder/camerabutton/CameraButton.java:885-887 | a null action throws and changes nothing; otherwise it is stored |
| DewarderButton.CameraButton.SetOnStateChangeListener | camerabutton/src/main/java/com/dewarder/camerabutton/CameraButton.java:712-714 | registers or clears the state listener and nothing else |
| DewarderButton.CameraButton.SetOnTapEventListener | camerabutton/src/main/java/com/dewarder/camerabutton/CameraButton.java:716-718 | registers or clears the tap listener and nothing else |
| DewarderButton.CameraButton.SetOnHoldEventListener | camerabutton/src/main/java/com/dewarder/camerabutton/CameraButton.java:720-722 | registers or clears the hold listener and nothing else |
| DewarderButton.CameraButton.SetOnProgressChangeListener | camerabutton/src/main/java/com/dewarder/camerabutton/CameraButton.java:724-726 | registers or clears the progress listener and nothing else |
| DewarderButton.CameraButton.SetMainCircleRadius | camerabutton/src/main/java/com/dewarder/camerabutton/CameraButton.java:733-736 | stores the radius exactly when checkDimension accepts it; otherwise throws and changes nothing |
| DewarderButton.CameraButton.SetMainCircleRadiusExpanded | camerabutton/src/main/java/com/dewarder/camerabutton/CameraButton.java:743-746 | the same for the expanded radius |
| DewarderButton.CameraButton.SetStrokeWidth | camerabutton/src/main/java/com/dewarder/camerabutton/CameraButton.java:753-756 | the same for the stroke width |
| DewarderButton.CameraButton.SetProgressArcWidth | camerabutton/src/main/java/com/dewarder/camerabutton/CameraButton.java:763-766 | the same for the progress arc width |
| DewarderButton.CameraButton.SetProgressArcColors | camerabutton/src/main/java/com/dewarder/camerabutton/CameraButton.java:810-814 | a null array throws and changes nothing; otherwise a copy is stored |
| DewarderButton.CameraButton.SetExpandDuration | camerabutton/src/main/java/com/dewarder/camerabutton/CameraButton.java:821-823 | stores the duration exactly when checkDuration accepts it; otherwise throws and changes nothing |
| DewarderButton.CameraButton.SetCollapseDuration | camerabutton/src/main/java/com/dewarder/camerabutton/CameraButton.java:830-832 | the same for the collapse duration |
| DewarderButton.CameraButton.SetExpandDelay | camerabutton/src/main/java/com/dewarder/camerabutton/CameraButton.java:839-841 | the same for the expand delay |
| DewarderButton.CameraButton.SetHoldDuration | camerabutton/src/main/java/com/dewarder/camerabutton/CameraButton.java:848-850 | the same for the hold duration |
| DewarderButton.CameraButton.SetGradientRotationMultiplier | camerabutton/src/main/java/com/dewarder/camerabutton/CameraButton.java:857-864 | throws IllegalStateException exactly for a multiplier <= 0, otherwise stores it unchanged |
| DewarderButton.CameraButton.SetShouldCheckConsistency | camerabutton/src/main/java/com/dewarder/camerabutton/CameraButton.java:893-895 | stores the flag |
| PrototypeMachine.Initial | app/src/main/java/com/dewarder/camerabutton/CameraButton.java:86-108 | a new button is DEFAULT with durations 200, 200, 400 and 15000 ms, no listener, an empty log and no animator running |
| PrototypeMachine.DispatchedCallbacks | app/src/main/java/com/dewarder/camerabutton/CameraButton.java:344-361 | hold onStart exactly on entering EXPANDED and onFinish exactly on EXPANDED to START_COLLAPSING, never onCancel, with no mode filter; onTap exactly on PRESSED to DEFAULT (both directions) |
| PrototypeMachine.StartCollapsingKeepsExclusive | app/src/main/java/com/dewarder/camerabutton/CameraButton.java:238-267 | starting the collapse animator with no expand animator and no stray one leaves it the only one running |
| PrototypeMachine.UpKeepsExclusive | app/src/main/java/com/dewarder/camerabutton/CameraButton.java:191-205 | every up keeps at most one animator running |
| PrototypeMachine.StepKeepsExclusive | app/src/main/java/com/dewarder/camerabutton/CameraButton.java:174-291 | every input keeps the one-animator invariant except the expand message running while any animator runs |
| PrototypeMachine.RunKeepsExclusive | app/src/main/java/com/dewarder/camerabutton/CameraButton.java:174-291 | at most one animator runs after any race-free sequence of inputs from such a state |
| PrototypeProperties.DownAlwaysPresses | app/src/main/java/com/dewarder/camerabutton/CameraButton.java:178-189 | every down, in every state, queues an expand message delayed by expandDelay, sets hover, dispatches PRESSED and leaves the animators alone; only downs and ups are consumed |
| PrototypeProperties.UpPolicy | app/src/main/java/com/dewarder/camerabutton/CameraButton.java:191-205 | an up while (re)expanding cancels the expand animator and starts the collapse; while PRESSED it removes the expand message and dispatches DEFAULT (a tap); every up clears hover |
| PrototypeProperties.CollapseStartAndEnd | app/src/main/java/com/dewarder/camerabutton/CameraButton.java:246-258 | the collapse start cancels the progress animator, resets the progress, clears hover and dispatches START_COLLAPSING (onFinish from EXPANDED); the end dispatches DEFAULT and leaves the progress alone |
| PrototypeProperties.ExpandStartAndEnd | app/src/main/java/com/dewarder/camerabutton/CameraButton.java:218-282 | the expand start only dispatches START_EXPANDING; its end starts the progress animator and dispatches EXPANDED (onStart); the progress end starts the collapse |
| PrototypeProperties.CancelledExpandNeverExpands | app/src/main/java/com/dewarder/camerabutton/CameraButton.java:223-232 | after an up during START_EXPANDING the cancelled expand animator never reaches EXPANDED |
| PrototypeProperties.DownRun | app/src/main/java/com/dewarder/camerabutton/CameraButton.java:178-189 | one down as a run |
| PrototypeProperties.UpRun | app/src/main/java/com/dewarder/camerabutton/CameraButton.java:191-205 | one up as a run: PRESSED returns to DEFAULT with onTap; EXPANDED starts the collapse with onFinish |
| PrototypeProperties.MessageRun | app/src/main/java/com/dewarder/camerabutton/CameraButton.java:179-183 | the expand message running: START_EXPANDING with an expand animator running |
| PrototypeProperties.ExpandEndRun | app/src/main/java/com/dewarder/camerabutton/CameraButton.java:223-227 | the expand animator ending: EXPANDED with onStart |
| PrototypeProperties.ProgressEndRun | app/src/main/java/com/dewarder/camerabutton/CameraButton.java:279-282 | the progress animator ending outside EXPANDED: START_COLLAPSING with no hold callback |
| PrototypeProperties.HoldRun | app/src/main/java/com/dewarder/camerabutton/CameraButton.java:178-227 | a press, the delay and the expand duration: PRESSED, START_EXPANDING, EXPANDED with onStart |
| PrototypeProperties.TapTrace | app/src/main/java/com/dewarder/camerabutton/CameraButton.java:178-205 | a quick press and release delivers exactly onTap and returns to DEFAULT |
| PrototypeProperties.HoldAndReleaseTrace | app/src/main/java/com/dewarder/camerabutton/CameraButton.java:344-361 | a hold and release delivers exactly onStart then onFinish |
| PrototypeProperties.TapDuringRecordingLosesFinish | app/src/main/java/com/dewarder/camerabutton/CameraButton.java:174-205 | a press and release during a recording is taken for a tap and returns to DEFAULT while the progress animator runs; when it ends the collapse starts from DEFAULT, so the recording never gets onFinish |
| PrototypeButton.OpaqueColor | app/src/main/java/com/dewarder/camerabutton/CameraButton.java:77-83 | `Color.parseColor("#rrggbb")`: a negative int whose low 24 bits are the colour, so the alpha byte is 0xff |
| PrototypeButton.CameraButton.constructor | app/src/main/java/com/dewarder/camerabutton/CameraButton.java:136-171 | a new button in the initial machine state, with the given sizes unchecked, the five default arc colours and multiplier 1.75 |
| PrototypeButton.CameraButton.DispatchStateChange | app/src/main/java/com/dewarder/camerabutton/CameraButton.java:344-361 | the new state equals the dispatch function: callbacks in listener order, then the state stored |
| PrototypeButton.CameraButton.NotifyStateListener | app/src/main/java/com/dewarder/camerabutton/CameraButton.java:345-347 | appends the state change for a registered state listener |
| PrototypeButton.CameraButton.NotifyHoldListener | app/src/main/java/com/dewarder/camerabutton/CameraButton.java:348-354 | appends onStart or onFinish as the dispatch function gives |
| PrototypeButton.CameraButton.NotifyTapListener | app/src/main/java/com/dewarder/camerabutton/CameraButton.java:355-359 | appends onTap on PRESSED to DEFAULT for a registered tap listener |
| PrototypeButton.CameraButton.MakePaintColorsHovered | app/src/main/java/com/dewarder/camerabutton/CameraButton.java:293-301 | stores the hover flag |
| PrototypeButton.CameraButton.StartExpandingAnimator | app/src/main/java/com/dewarder/camerabutton/CameraButton.java:181-182 | a new expand animator assigned and started, as the machine function |
| PrototypeButton.CameraButton.OnCollapsingStart | app/src/main/java/com/dewarder/camerabutton/CameraButton.java:246-253 | the collapse start callback, as the machine function |
| PrototypeButton.CameraButton.StartCollapsingAnimator | app/src/main/java/com/dewarder/camerabutton/CameraButton.java:196-197 | a new collapse animator assigned and started, as the machine function |
| PrototypeButton.CameraButton.OnDown | app/src/main/java/com/dewarder/camerabutton/CameraButton.java:178-189 | the DOWN case, as the machine function |
| PrototypeButton.CameraButton.OnUp | app/src/main/java/com/dewarder/camerabutton/CameraButton.java:191-205 | the UP case, as the machine function |
| PrototypeButton.CameraButton.OnTouchEvent | app/src/main/java/com/dewarder/camerabutton/CameraButton.java:174-208 | the new state and the returned flag are those of the touch function of the machine |
| PrototypeButton.CameraButton.ExpandMessageRuns | app/src/main/java/com/dewarder/camerabutton/CameraButton.java:179-183 | the expand message instance runs: as one step of the machine |
| PrototypeButton.CameraButton.ExpandAnimatorEnds | app/src/main/java/com/dewarder/camerabutton/CameraButton.java:223-227 | an expand animator instance ends: as one step of the machine |
| PrototypeButton.CameraButton.CollapseAnimatorEnds | app/src/main/java/com/dewarder/camerabutton/CameraButton.java:256-258 | a collapse animator instance ends: as one step of the machine |
| PrototypeButton.CameraButton.ProgressAnimatorEnds | app/src/main/java/com/dewarder/camerabutton/CameraButton.java:279-282 | a progress animator instance ends: as one step of the machine |
| PrototypeButton.CameraButton.OnExpandingUpdate | app/src/main/java/com/dewarder/camerabutton/CameraButton.java:212-215 | an expand or collapse tick stores the animated value |
| PrototypeButton.CameraButton.OnProgressUpdate | app/src/main/java/com/dewarder/camerabutton/CameraButton.java:272-276 | a progress tick stores the value and notifies a registered progress listener |
| PrototypeButton.CameraButton.SetOnStateChangeListener | app/src/main/java/com/dewarder/camerabutton/CameraButton.java:373-375 | registers or clears the state listener and nothing else |
| PrototypeButton.CameraButton.SetOnTapEventListener | app/src/main/java/com/dewarder/camerabutton/CameraButton.java:377-379 | registers or clears the tap listener and nothing else |
| PrototypeButton.CameraButton.SetOnHoldEventListener | app/src/main/java/com/dewarder/camerabutton/CameraButton.java:381-383 | registers or clears the hold listener and nothing else |
| PrototypeButton.CameraButton.SetOnProgressChangeListener | app/src/main/java/com/dewarder/camerabutton/CameraButton.java:385-387 | registers or clears the progress listener and nothing else |
| PrototypeButton.CameraButton.SetMainCircleRadius | app/src/main/java/com/dewarder/camerabutton/CameraButton.java:394-397 | stores any radius, unchecked, and nothing else |
| PrototypeButton.CameraButton.SetMainCircleRadiusExpanded | app/src/main/java/com/dewarder/camerabutton/CameraButton.java:404-407 | the same for the expanded radius |
| PrototypeButton.CameraButton.SetStrokeWidth | app/src/main/java/com/dewarder/camerabutton/CameraButton.java:414-417 | the same for the stroke width |
| PrototypeButton.CameraButton.SetProgressArcWidth | app/src/main/java/com/dewarder/camerabutton/CameraButton.java:424-427 | the same for the progress arc width |
| PrototypeButton.CameraButton.SetProgressArcColors | app/src/main/java/com/dewarder/camerabutton/CameraButton.java:471-473 | a null array throws NullPointerException through requireNonNull and changes nothing; otherwise a copy is stored |
| PrototypeButton.CameraButton.GetProgressArcColors | app/src/main/java/com/dewarder/camerabutton/CameraButton.java:467-469 | returns a copy of the stored colours |
| PrototypeButton.CameraButton.SetExpandDuration | app/src/main/java/com/dewarder/camerabutton/CameraButton.java:479-481 | stores any duration, unchecked |
| PrototypeButton.CameraButton.GetExpandDuration | app/src/main/java/com/dewarder/camerabutton/CameraButton.java:475-477 | returns exactly the stored duration |
| PrototypeButton.CameraButton.SetCollapseDuration | app/src/main/java/com/dewarder/camerabutton/CameraButton.java:487-489 | stores any duration, unchecked |
| PrototypeButton.CameraButton.GetCollapseDuration | app/src/main/java/com/dewarder/camerabutton/CameraButton.java:483-485 | returns exactly the stored duration |
| PrototypeButton.CameraButton.SetExpandDelay | app/src/main/java/com/dewarder/camerabutton/CameraButton.java:495-497 | stores any delay, unchecked |
| PrototypeButton.CameraButton.GetExpandDelay | app/src/main/java/com/dewarder/camerabutton/CameraButton.java:491-493 | returns exactly the stored delay |
| PrototypeButton.CameraButton.SetHoldDuration | app/src/main/java/com/dewarder/camerabutton/CameraButton.java:503-505 | stores any duration, unchecked |
| PrototypeButton.CameraButton.GetHoldDuration | app/src/main/java/com/dewarder/camerabutton/CameraButton.java:499-501 | returns exactly the stored duration |
| PrototypeButton.CameraButton.SetGradientRotationMultiplier | app/src/main/java/com/dewarder/camerabutton/CameraButton.java:512-519 | throws IllegalStateException("Multiplier should be greater than 0") exactly for a multiplier <= 0, otherwise stores it unchanged |
| PrototypeButton.CameraButton.GetGradientRotationMultiplier | app/src/main/java/com/dewarder/camerabutton/CameraButton.java:508-510 | returns exactly the stored multiplier |

## Left out

- Drawing: `onDraw`, `onSizeChanged`, the paints, shaders, gradient rotation, icons and icon scrolling, interpolators and `invalidate()`. They change no state the gestures depend on.
- The colour setters and getters, and the colour fields other than the progress arc colours. They only feed the paints.
- `validateConsistency` / `shouldCheckConsistency`. Only the flag is stored; the drawing-size check it enables is not modelled.
- Reading attributes from XML resources in `init`. The constructors take the parsed values, and their `requires` say what `checkDuration` and `checkDimension` (and, in the earlier library, `fromValue`) accept there.
- The Rx, Kotlin and sample-app wrappers around the view. They only forward listener calls.
- Time and the Android main looper. Timer and animator callbacks are inputs that any live instance may deliver, in any order. Durations and delays are recorded but never counted down.
- Floating point. Touch coordinates, animated values and the gradient multiplier are `real`, with no rounding.
- Listeners are modelled only as registered or not. The callbacks they receive go to an event log; callback code re-entering the button is not modelled.
- `Log.v` and the other Android log calls. They have no effect on state.
- `View.setEnabled` and `isEnabled` are reduced to one stored flag. `View.performClick`'s own work (accessibility, click listener) is a parameter whose result is passed through.
- Several getters are plain field reads and have no member of their own. This covers the library getters of mode, action, state, durations and dimensions, and the prototype dimension getters, which are the fields of `look`.
- HluhovskyiButton.CameraButton.SetMode: the mode and collapse action of the latest library are `@IntDef` ints that nothing validates. The model stores any int, and every handler treats values outside the constants the way the Java comparisons do.
- PrototypeButton.CameraButton.SetExpandDuration: the prototype stores any `long`. Android's `ValueAnimator.setDuration` throws `IllegalArgumentException` for a negative duration when the next expand animator is created. The model does not capture that crash: it schedules the animator and goes on. The libraries reject such values in `checkDuration`.
- PrototypeButton.CameraButton.SetCollapseDuration: the same for a negative collapse duration, which makes the collapse animator's creation throw. The model does not capture it.
- PrototypeButton.CameraButton.SetHoldDuration: the same for a negative hold duration, which makes the progress animator's creation throw. The model does not capture it.
