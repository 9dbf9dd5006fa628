# Touchpad gesture handlers of gnome-gesture-improvements, in Dafny

This project models four gesture handlers of the GNOME Shell extension
*gnome-gesture-improvements* and proves properties of them. Each handler's
fields are the fields of a Dafny class, and its methods update them in place
as the TypeScript does:

- **WindowManipulation** (`WindowManupulationGesture`). A pinch in previews
  closing the focused window. On a window that is already maximized, a pinch
  released close to the rest point previews minimizing (unmaximizing)
  instead. A pinch out previews maximizing. At the end, one animation is
  scheduled on the window's actor, and a 'transitions-completed' handler
  fires the chosen action at most once per handler.
- **DdTerm** (`DropDownTerminal`). A four-finger vertical swipe opens or
  closes the ddterm drop-down terminal. The snap rule decides whether the
  gesture commits, and F12 is sent to toggle the terminal.
- **Volume** (`VolumeUpDownGesture`). A vertical swipe moves the default
  sink's volume, clamped to [0, max]. Each update pushes the volume and shows
  the on-screen display, unless the percentage is strictly between 0 and 100
  and repeats the one shown last.
- **PopLauncher** (`PopLauncherExtension`). A pinch out grows and fades in a
  centred preview. A confirmed pinch sends Super+slash, and the preview is
  then hidden and reset.

**Shell** holds what the handlers drive:

- A compositor `Actor`: its animatable property values, its visibility, the
  per-property transitions scheduled on it and its connected completion
  handlers. Each handler id is a fresh object, so ids are unique as in GLib.
- Windows, the swipe tracker's updates (`Move`) and the external effects the
  handlers request (`Effect`: key presses, window requests, volume pushes,
  display pops). Each handler appends these to a `log`.

**Numeric** models `Util.lerp`, `Math.clamp`, `Math.round` and the cube that
shapes pinch progress.

Signals are calls. The swipe or pinch tracker's 'begin', 'update' and 'end'
become calls of the handler's methods. The emission of 'transitions-completed'
(or the stop of an eased animation) becomes a call of
`OnTransitionsCompleted(a, id)` or `OnAnimationStopped(id)` for one connected
handler. The environment decides which handler it calls and when, so
overlapping gestures can be modelled.

Each handler also has a "session" method. It allocates a fresh handler and
actor, runs a whole gesture (begin, a sequence of updates, end, the
animation running to its end, the completion handler's call), and states in
its contract what the gesture requests and where it leaves the actor.

Notes on what the code does:

- A gesture that starts before the previous one's animation has completed
  does not discard the earlier completion handler. Every end connects one
  more handler, and every connected handler still fires.
  `DdTerm.OverlappingClosesSession` shows two overlapping closes sending F12
  twice. The second handler is left connected to the terminal's actor, and
  having no once-guard it sends F12 again on the next 'transitions-completed'.
  `WindowManipulation.OverlappingPinchesSession` shows two overlapping
  pinches requesting the window's deletion twice. In that session, the second
  handler stays connected to the window afterwards, because a handler
  disconnects only from the actor the gesture holds at the time of its call.
  Its own `alreadyCalled` guard then keeps it from firing again.
- When its animation stops, the pop-launcher preview is hidden and reset to
  opacity 0 and scale 1 (`popLauncher.ts:98-102`).
- The window handler returns the actor to scale 1 and opacity 255 only after
  a Close. It does so whether or not the action fired
  (`windowManipulation.ts:270-273`).

## Model

| member | source | states |
|---|---|---|
| Numeric.LerpWithin | extension/src/ddTerm.ts:79 | `Util.lerp(start, end, t)` for t in [0, 1] lies between start and end |
| Numeric.Clamp | extension/src/ddTerm.ts:77 | `Math.clamp` returns a value in [lower, upper]; it is x when x is in range, otherwise the bound x passed |
| Numeric.Round | extension/src/volume.ts:72 | `Math.round(x)` is the integer within half a unit of x, with halves rounding up |
| Numeric.CubeWithinUnit | extension/src/pinchGestures/windowManipulation.ts:96 | cubing a progress in [0, 1] stays in [0, 1] and never exceeds the progress |
| Shell.ScheduleSpec | extension/src/pinchGestures/windowManipulation.ts:233-251 | setting a config of distinct properties gives each named property its entry's from/to/duration and leaves every other property's transition untouched |
| Shell.Settled | extension/src/pinchGestures/windowManipulation.ts:245-250 | once the transitions have run, each property holds its transition's target, or its old value if it had none |
| Shell.Disconnect | extension/src/ddTerm.ts:130 | after `disconnect(id)` no handler under id is connected; every other handler is kept and no handler is added |
| Shell.DisconnectMarked | extension/src/pinchGestures/windowManipulation.ts:253-274 | setting a handler's `alreadyCalled` flag and then disconnecting it leaves the same handlers as disconnecting it directly |
| Shell.Actor.ApplyConfig | extension/src/pinchGestures/windowManipulation.ts:233-251 | the loop over the config's entries leaves the transitions as `Schedule` of the old ones; values, visibility and handlers are unchanged |
| Shell.Actor.Connect | extension/src/pinchGestures/windowManipulation.ts:254 | a fresh handler id is appended, not yet called; the values and transitions are unchanged |
| Shell.Actor.FinishTransitions | extension/src/pinchGestures/windowManipulation.ts:245-250 | the transitions run to their ends: the values become `Settled` and no transition remains |
| WindowManipulation.Shifted | extension/src/pinchGestures/windowManipulation.ts:94-95 | shifting by PINCH_IN maps the pinch-in half to [0, 1] and the pinch-out half to (1, 2]; the pinch-in branch is taken iff progress <= 0 |
| WindowManipulation.CubeMonotone | extension/src/pinchGestures/windowManipulation.ts:96 | the cubic shaping is monotone on non-negative progress |
| WindowManipulation.PinchInOutcomeBands | extension/src/pinchGestures/windowManipulation.ts:94-97 | for `PinchInAction`, the outcome a pinch-in update never records Maximize; an unmaximized window always records Close; a maximized one records Minimize within 0.07 of rest and Close past 0.08 |
| WindowManipulation.PinchInPreviewBounds | extension/src/pinchGestures/windowManipulation.ts:96-100 | during a pinch in the window's scale stays in [0, 1], its opacity in [0, 255], and its geometry is unchanged |
| WindowManipulation.LerpBetween | extension/src/pinchGestures/windowManipulation.ts:104-107 | an interpolation with t in [0, 1] lies between its end points, in either order |
| WindowManipulation.PinchOutPreviewPath | extension/src/pinchGestures/windowManipulation.ts:101-108 | the pinch-out preview is opaque; it starts at the snapshot geometry, ends at the maximized box and stays between the two |
| WindowManipulation.MaximizedBoxOfWindowed | extension/src/pinchGestures/windowManipulation.ts:114-118 | the maximized box of a window that is not fullscreen is the monitor's work area |
| WindowManipulation.FullscreenBoxInsideWorkArea | extension/src/pinchGestures/windowManipulation.ts:120-123 | the fullscreen box, trimmed by the rounded 2.5% top and bottom, lies inside the work area and has non-negative height |
| WindowManipulation.AnimationConfig | extension/src/pinchGestures/windowManipulation.ts:161-232 | the config names each property at most once and starts every entry from the actor's live value |
| WindowManipulation.AnimationTargets | extension/src/pinchGestures/windowManipulation.ts:161-232 | a cancel restores the snapshot geometry, opacity 255 and scale 1; a close fades and shrinks to 0; a minimize of a maximized window shrinks to 0.8 and stays opaque; a maximize takes the maximized box |
| WindowManipulation.Dispatch | extension/src/pinchGestures/windowManipulation.ts:141-159 | close-document mode sends Ctrl+W; close-window mode sends one request naming the recorded action and the focused window, and none without a focused window |
| WindowManipulation.WindowManipulationGesture.GetMaximizedBox | extension/src/pinchGestures/windowManipulation.ts:114-124 | the returned box is the maximized box of the window's work area |
| WindowManipulation.WindowManipulationGesture.constructor | extension/src/pinchGestures/windowManipulation.ts:41-65 | the close type is kept; no focused window, no actor, end action Close, not maximized, zero box and size, nothing requested |
| WindowManipulation.WindowManipulationGesture.GestureBegin | extension/src/pinchGestures/windowManipulation.ts:72-91 | with no focused window only the focus is recorded; otherwise the actor, its geometry (0 without an actor), the maximized box and the maximized flag are captured |
| WindowManipulation.WindowManipulationGesture.GestureUpdate | extension/src/pinchGestures/windowManipulation.ts:93-112 | the three branches: pinch-in outcome and shrink/fade; pinch-out move towards the box for an unmaximized window; otherwise opacity 255 |
| WindowManipulation.WindowManipulationGesture.GestureEnd | extension/src/pinchGestures/windowManipulation.ts:126-139 | rest animates back with no action; pinch in completes with the recorded outcome; pinch out records Maximize and completes |
| WindowManipulation.WindowManipulationGesture.AnimatePreview | extension/src/pinchGestures/windowManipulation.ts:161-278 | with an actor, the config is scheduled and one handler is connected with the invoke flag; without one, nothing happens |
| WindowManipulation.WindowManipulationGesture.OnTransitionsCompleted | extension/src/pinchGestures/windowManipulation.ts:254-277 | the action fires iff the handler was told to invoke it and has not fired; after a Close the held actor is reset to scale 1 and opacity 255; the handler disconnects from the held actor only, which is then dropped |
| WindowManipulation.WindowManipulationGesture.FireOnce | extension/src/pinchGestures/windowManipulation.ts:253-258 | the action fires and the handler's `alreadyCalled` flag is set iff the handler was told to invoke and has not been called; otherwise nothing changes |
| WindowManipulation.WindowManipulationGesture.InvokeGestureCompleteAction | extension/src/pinchGestures/windowManipulation.ts:141-159 | the log grows by the dispatched request |
| WindowManipulation.WindowManipulationGesture.ReleaseActor | extension/src/pinchGestures/windowManipulation.ts:270-275 | after a Close the held actor is reset, the handler is disconnected from it, and the actor is dropped |
| WindowManipulation.NotMaximizedNeverMinimizes | extension/src/pinchGestures/windowManipulation.ts:97 | whatever the updates, a window that was not maximized never records Minimize |
| WindowManipulation.PinchSession | extension/src/pinchGestures/windowManipulation.ts:72-278 | a whole pinch: rest requests nothing and restores the window; pinch in requests the last pinch-in outcome (a closed window gets scale 1 and opacity 255 back, a minimized one ends at 0.8); pinch out requests a maximize and leaves the window on the maximized box |
| WindowManipulation.OverlappingPinchesSession | extension/src/pinchGestures/windowManipulation.ts:253-275 | two overlapping pinch-ins close the window twice, one handler stays connected, and its guard stops a third close |
| DdTerm.AccumulateWithinUnit | extension/src/ddTerm.ts:77 | with `Advance` as the update rule, progress that starts in [0, 1] stays in [0, 1] after any run of updates |
| DdTerm.AdvanceUnclamped | extension/src/ddTerm.ts:77 | an `Advance` update that stays in range moves the progress by exactly delta / distance |
| DdTerm.CommitsMirrored | extension/src/ddTerm.ts:83 | in `Commits`, the closing snap rule mirrors the opening one; both comparisons are strict at 0.2 and 0.8 |
| DdTerm.ToggleParity | extension/src/ddTerm.ts:59-60 | counting the F12 at begin and the one on completion, a gesture toggles an odd number of times iff it commits; the completion toggles iff the animation hides the terminal |
| DdTerm.TermConfig | extension/src/ddTerm.ts:95-105 | the config names opacity and vertical scale once each |
| DdTerm.TermTargets | extension/src/ddTerm.ts:95-124 | once the animation has run, the terminal has opacity 255 and scale 1 when shown, and 0 and 0 when hidden |
| DdTerm.DropDownTerminal.constructor | extension/src/ddTerm.ts:27-41 | progress 0, no window or actor, action Closing, no listener, nothing requested |
| DdTerm.DropDownTerminal.GestureBegin | extension/src/ddTerm.ts:53-74 | with the terminal focused: closing, progress 1, terminal fully shown; otherwise: opening, progress 0, F12 sent, a window-created listener attached |
| DdTerm.DropDownTerminal.WindowCreated | extension/src/ddTerm.ts:62-68 | a new ddterm window becomes the gesture's window and actor; any other window changes nothing |
| DdTerm.DropDownTerminal.GestureUpdate | extension/src/ddTerm.ts:76-80 | progress advances by delta / distance clamped to [0, 1]; vertical scale and opacity follow it |
| DdTerm.DropDownTerminal.GestureEnd | extension/src/ddTerm.ts:82-88 | by the snap rule, a commit animates over 400 ms and toggles iff closing; a cancel animates over 100 ms and toggles iff opening |
| DdTerm.DropDownTerminal.ToggleDDTerm | extension/src/ddTerm.ts:90-92 | F12 is sent |
| DdTerm.DropDownTerminal.AnimateActor | extension/src/ddTerm.ts:94-134 | with an actor, opacity and vertical scale are scheduled to shown or hidden and one handler is connected; without one, nothing happens |
| DdTerm.DropDownTerminal.OnTransitionsCompleted | extension/src/ddTerm.ts:126-132 | F12 is sent iff the handler toggles; it disconnects from the held actor, which is then dropped |
| DdTerm.TerminalSession | extension/src/ddTerm.ts:53-134 | a whole swipe commits by the snap rule on the accumulated progress and sends only F12; with an actor it sends an odd number of F12 iff it commits, and the terminal ends shown iff an open committed or a close was cancelled |
| DdTerm.OverlappingClosesSession | extension/src/ddTerm.ts:126-132 | two overlapping committed closes send F12 twice; the second handler stays connected and sends F12 again on the next completion |
| Volume.ChangeSign | extension/src/volume.ts:72 | for the rounded step `Change`, a swipe down lowers the volume by a non-negative rounded amount, a swipe up by a non-positive one |
| Volume.VolumeStep | extension/src/volume.ts:71-73 | `VolumeAfter` (the volume minus `Change`, clamped): an update keeps the volume in [0, max]; from within range a swipe down never raises it and a swipe up never lowers it; away from the bounds it moves by exactly the rounded amount |
| Volume.PercentageWithin | extension/src/volume.ts:77 | by `Percentage`, a volume in [0, max] shows as a percentage in [0, 100]; silence is 0 and the maximum is 100 |
| Volume.OsdSkippedOnlyOnRepeat | extension/src/volume.ts:80-88 | by `ShowsOsd`, the display is skipped iff it would repeat the last shown percentage strictly between 0 and 100 |
| Volume.VolumeUpDownGesture.constructor | extension/src/volume.ts:24-41 | the maximum is vol_max_norm times the slider's max level and is positive; no percentage has been shown |
| Volume.VolumeUpDownGesture.HandleSinkChange | extension/src/volume.ts:43-45 | the new default sink replaces the old one |
| Volume.VolumeUpDownGesture.GestureBegin | extension/src/volume.ts:67-69 | the maximum is recomputed |
| Volume.VolumeUpDownGesture.GestureUpdate | extension/src/volume.ts:71-73 | the sink's volume becomes the clamped, rounded update of the old one, in [0, max] |
| Volume.VolumeUpDownGesture.GestureEnd | extension/src/volume.ts:75-78 | the volume is pushed, then the rounded percentage is offered to the display |
| Volume.VolumeUpDownGesture.ShowVolumeOsd | extension/src/volume.ts:80-88 | the display is shown and remembered exactly when the de-duplication rule allows it |
| Volume.VolumeUpDownGesture.OnUpdate | extension/src/volume.ts:47-50 | the three 'update' handlers in connection order: the maximum is recomputed, the volume moves and is pushed, and the display is offered |
| Volume.LogStep | extension/src/volume.ts:75-88 | one update keeps the log well formed (pushes in [0, max], displays in [0, 100], no repeat, the remembered percentage is the last display) and adds one push |
| Volume.NoRepeatStep | extension/src/volume.ts:81 | displaying by the de-duplication rule never creates a repeat strictly between 0 and 100 |
| Volume.VolumeSession | extension/src/volume.ts:47-88 | a run of updates ends at the accumulated volume in [0, max]; it pushes one volume per update, all in [0, max]; displays are in [0, 100] and no two consecutive displays repeat a percentage strictly between 0 and 100 |
| Volume.SinkChangeSession | extension/src/volume.ts:43-45 | across a default-sink change, the update before it moves only the old sink and the update after it moves and pushes the new sink |
| PopLauncher.PreviewProgress | extension/src/pinchGestures/popLauncher.ts:64 | preview progress is in [0, 1]; it is 0 for no pinch and full from a third of the pinch |
| PopLauncher.PreviewProgressMonotone | extension/src/pinchGestures/popLauncher.ts:64 | the preview never shrinks as the pinch widens, and until full it is three times the pinch |
| PopLauncher.PreviewOpacityBounds | extension/src/pinchGestures/popLauncher.ts:66 | the preview's opacity stays in [0, 255] and grows with the pinch |
| PopLauncher.PreviewBoxCentred | extension/src/pinchGestures/popLauncher.ts:58-59 | in `PreviewBox`, the preview is 725 x 180 and its centre is the screen's centre |
| PopLauncher.LauncherConfig | extension/src/pinchGestures/popLauncher.ts:84-88 | the config names opacity and both scales once each |
| PopLauncher.LauncherTargets | extension/src/pinchGestures/popLauncher.ts:83-96 | once the end animation has run, a confirmed pinch leaves the preview opaque at scale 1 and a cancelled one transparent at scale 0; each box property keeps its pending target, or its value when it has none |
| PopLauncher.PopLauncherExtension.constructor | extension/src/pinchGestures/popLauncher.ts:28-37 | the preview starts hidden and transparent at scale 1 |
| PopLauncher.PopLauncherExtension.GestureBegin | extension/src/pinchGestures/popLauncher.ts:55-61 | the preview is placed at the screen centre at 725 x 180 and shown |
| PopLauncher.PopLauncherExtension.GestureUpdate | extension/src/pinchGestures/popLauncher.ts:63-67 | both scales follow the preview progress and the opacity fades in with it, staying in [0, 255] |
| PopLauncher.PopLauncherExtension.GestureEnd | extension/src/pinchGestures/popLauncher.ts:69-77 | a confirmed pinch out animates to shown with the launch callback; otherwise the preview animates away with none |
| PopLauncher.PopLauncherExtension.AnimatePreview | extension/src/pinchGestures/popLauncher.ts:83-96 | opacity and both scales are scheduled, and one stop callback is attached |
| PopLauncher.PopLauncherExtension.OnAnimationStopped | extension/src/pinchGestures/popLauncher.ts:90-95 | Super+slash is sent iff the callback carries the launch action; the preview is then hidden, transparent and at scale 1; the callback is used up |
| PopLauncher.PopLauncherExtension.InvokeGestureCompleteAction | extension/src/pinchGestures/popLauncher.ts:79-81 | Super+slash is sent |
| PopLauncher.PopLauncherExtension.GestureAnimationDone | extension/src/pinchGestures/popLauncher.ts:98-102 | the preview is hidden, made transparent and given back scale 1 |
| PopLauncher.LauncherSession | extension/src/pinchGestures/popLauncher.ts:55-102 | a whole pinch: the preview is centred and scaled and faded by the last update; the animation shows it iff the pinch out was confirmed; Super+slash is sent exactly then, once; afterwards it is hidden, transparent and at scale 1 |

## Left out

- Pivot points (`set_pivot_point`), `map()` and the preview's style class: they do not change any modelled value.
- Easing modes and the transition priming trick (`set_property(key, 0)` followed by an eased `set_property(key, 1)`, used to create a transition that does not exist yet): the model schedules each transition directly with its from, to and duration, and a transition's run is only modelled through its end (`Actor.FinishTransitions`).
- Opacity is a real number. Clutter stores it as an 8-bit integer, so the interpolated opacity is truncated on assignment.
- Volume is a real number. PulseAudio volumes are 32-bit unsigned integers. `Math.round` already makes every volume change whole.
- JavaScript numbers are IEEE-754 doubles. The model uses exact reals, so the 0.8 threshold bands of `PinchInOutcomeBands` carry no rounding error.
- DdTerm.DropDownTerminal.GestureUpdate: requires a non-zero swipe distance. A zero distance would make JavaScript produce Infinity or NaN.
- Volume.VolumeUpDownGesture.GestureUpdate: requires a non-zero swipe distance, for the same reason.
- Volume.VolumeUpDownGesture.constructor: requires a positive `vol_max_norm` and maximum level. With a zero maximum, the percentage would divide by zero.
- Volume.VolumeUpDownGesture.constructor, Volume.VolumeUpDownGesture.HandleSinkChange, Volume.VolumeUpDownGesture.GestureUpdate, Volume.VolumeUpDownGesture.GestureEnd: the sink is never null and always has a port. A null sink from `get_default_sink` (`volume.ts:27`) or `lookup_stream_id` (`volume.ts:44`), or a null port from `get_port` (`volume.ts:84`), raises a TypeError in the TypeScript. With a null sink, an update or end changes and pushes nothing; with a null port, the volume is pushed but nothing is displayed. Either way `_oldPercentage` keeps its value. This is not modelled.
- DdTerm.DropDownTerminal.WindowCreated: every opening gesture connects another 'window-created' listener and none is ever removed. The model keeps a single `listening` flag, so the number of listeners and their repeated calls are not modelled.
- The 'begin'/'update'/'end' connection ids, `apply`, `destroy` and `_connectHandlers`: these are signal plumbing. The tracker's signals are calls of the handler methods.
- `_checkAllowedGesture` in `ddTerm.ts`: it only gates whether the tracker starts a gesture, which is outside the handlers.
- The pinch tracker's `confirmPinch` and its snapping: the end state reaches the handlers as `PinchState` or `LauncherState`.
- The commented-out window-destroy code in `windowManipulation.ts`: `windowClosed` is only ever reset to false, which the model keeps.
- `easeActor` internals in `popLauncher.ts`: its `onStopped` callback is modelled as a handler on the preview that is used up by its one call.
- The on-screen display's icon, label and monitor: the model keeps only the shown percentage.
- `extension/src/animations/arrow.ts` is not part of this model.
