# HandControl in Dafny

HandControl turns a webcam view of a hand into mouse and keyboard input. A hand tracker
delivers 21 landmarks per hand. A gesture recogniser classifies each frame into one of
eight gestures (IDLE, MOVE, LEFT_CLICK, RIGHT_CLICK, DOUBLE_CLICK, SCROLL, DRAG, KEYBOARD)
and debounces the result over a window of frames with click and scroll cooldowns. A cursor
controller maps the index-finger position through a dead zone onto the screen, smooths it
with a One Euro or EMA filter, and scales and clamps the movement. A keyboard mode, entered
by holding an open hand, turns the next finger count into a shortcut. A four-corner screen
calibrator records where the finger was for each target. A configuration store answers
dotted-path lookups over nested defaults merged with a user file. The application object
dispatches each stable gesture to the cursor or the keyboard mode under its own cooldowns.

The model has one module per source file:

| file | module | source | form |
|---|---|---|---|
| `hand_tracker.dfy` | `Hands` | `hand_tracker.py` | values and functions |
| `gesture_recognition.dfy` | `Gestures` | `gesture_recognition.py` | step functions plus the `GestureRecognizer` class |
| `smoothing.dfy` | `Smoothing` | `smoothing.py` | filter classes tied to step functions |
| `keyboard_mode.dfy` | `Keyboard` | `keyboard_mode.py` | step function plus the `KeyboardMode` class |
| `calibration.dfy` | `ScreenCalibration` | `calibration.py` | step functions plus the `ScreenCalibrator` class |
| `cursor_control.dfy` | `Cursor` | `cursor_control.py` | mapping functions plus the `CursorController` class |
| `config.dfy` | `ConfigStore` | `config.py` | nested values, path functions and the `Config` class |
| `main.dfy` | `App` | `main.py` | dispatch function plus the `HandControlApp` class |
| `numeric.dfy` | `Numeric` | shared | `abs`/`min`/`max`, truncation, square-root comparisons |
| `wrappers.dfy` | `Wrappers` | shared | `Option` and `Result` |

Each class keeps the fields the source updates in place. Each of its methods is specified
by a pure step function of the old state: `ProcessLandmarks` by `Process`, `Update` by
`KeyboardStep`, `CapturePoint` by `CaptureStep`, `MoveCursor` by `MoveStep`, `Filter` by
`OneEuroStep` and `HandleGesture` by `Dispatch`. The properties are proved as lemmas about
those functions.

Modelling conventions:
- The clock (`time.time()`) is a `now: real` parameter, read once per call.
- Calls into pyautogui are appended to logs. Mouse events go to `mouseLog` and keystrokes to
  `keyLog`; both are ghost. The keyboard-mode feedback callback appends to `feedbackLog`,
  which the application relays into its status message.
- A Python exception on an input the source does not reject up front is a `Failure` with the
  exception's name. Examples: `ZeroDivisionError`, `ValueError`, `IndexError`, `TypeError`,
  `KeyError`.
- Square roots are never computed. The hand size is kept as its square. The threshold tests
  `d > c*sqrt(S)` and `sqrt(D) < c*sqrt(S)` are decided exactly on squares (`Numeric`), and
  lemmas show they agree with the comparison against any true root. The cursor's
  acceleration needs the distance itself, so the controller takes a square-root function
  that must be exact (`IsSqrtFunction`).

## Model

| member | source | states |
|---|---|---|
| Numeric.Abs | gesture_recognition.py:141 | the result is non-negative and equals x or -x |
| Numeric.Min | cursor_control.py:157-158 | the result is at most both arguments and equals one of them |
| Numeric.Max | cursor_control.py:157-158 | the result is at least both arguments and equals one of them |
| Numeric.Clamp | cursor_control.py:98-99 | `max(lo, min(hi, x))`: inside [lo, hi] when lo <= hi; x when x is inside; the nearer end otherwise |
| Numeric.Trunc | hand_tracker.py:68 | Python `int()` on a float: truncation toward zero, so the magnitude drops by less than one and the sign is kept |
| Numeric.SquaresOrdered | gesture_recognition.py:174 | for non-negative numbers, `<` is decided by their squares |
| Numeric.ExceedsScaledRootIff | gesture_recognition.py:136-142 | the square-based test equals `d > c*r` for every root r of S |
| Numeric.RootBelowScaledRootIff | gesture_recognition.py:171-174 | the square-based test equals `rq < c*rs` for all roots rq of D and rs of S |
| Hands.NewHandLandmarks | hand_tracker.py:52-56 | succeeds exactly when there are 21 landmarks and then stores them with the handedness; otherwise ValueError |
| Hands.GetLandmark | hand_tracker.py:61-64 | the landmark at `index` exactly when 0 <= index < 21; otherwise IndexError |
| Hands.ToPixelCoordinates | hand_tracker.py:66-70 | one pixel pair per landmark, each the truncated product with the frame size; normalised coordinates land inside the frame |
| Hands.PixelOf | hand_tracker.py:68 | a landmark with coordinates in [0, 1] maps into [0, width] x [0, height] |
| Hands.UnitScaleTrunc | hand_tracker.py:68 | truncating x*w for x in [0, 1] and w >= 0 gives a value in [0, w] |
| Hands.HandSizeSquared | hand_tracker.py:72-77 | the squared wrist to middle-MCP distance, which is non-negative |
| Hands.SquaredDistance | gesture_recognition.py:98-102 | the squared Euclidean distance of two landmarks, which is non-negative |
| Hands.SumAbove | hand_tracker.py:84 | n times the minimum of a non-empty list is at most its sum |
| Hands.SumBelow | hand_tracker.py:84 | the sum of a non-empty list is at most n times its maximum |
| Hands.Mean | hand_tracker.py:84 | the mean of a non-empty list lies between its minimum and maximum |
| Hands.PalmCenter | hand_tracker.py:79-84 | five times each coordinate is the sum over the wrist and four MCP joints, and the centre lies in their bounding box |
| Hands.HandTrackingResult.Count | hand_tracker.py:104-106 | the number of hands, 0 exactly when no hand was found |
| Hands.HandTrackingResult.Dominant | hand_tracker.py:93-96 | a hand exactly when there is one, and then the first |
| Hands.HandTrackingResult.GetHand | hand_tracker.py:98-102 | None exactly when no hand has the handedness; otherwise a hand with it that has none before it |
| Hands.FirstWithHandedness | hand_tracker.py:99-101 | the index of the first hand with the handedness (or the length), with none before it |
| Gestures.FingerExtended | gesture_recognition.py:131-142 | with a non-negative threshold a finger counts as extended only when its tip is above its PIP joint (image y grows downwards), the thumb only when its tip is off to the side |
| Gestures.ExtensionFlags | gesture_recognition.py:104-149 | exactly five flags, thumb first |
| Gestures.ExtensionIff | gesture_recognition.py:131-142 | flag i holds exactly when the tip-to-PIP distance (x for the thumb, y otherwise) exceeds threshold x hand size |
| Gestures.Pinched | gesture_recognition.py:171-174 | a pinch is reported only for a positive threshold, and never for a hand of zero size |
| Gestures.PinchedIff | gesture_recognition.py:151-174 | a pinch holds exactly when the Euclidean distance is below pinch threshold x hand size |
| Gestures.CountTrue | gesture_recognition.py:198 | `sum` of booleans: at most the length; 0 exactly when none hold; the length exactly when all hold |
| Gestures.FeaturesOf | gesture_recognition.py:194-198 | the features carry the five flags and both pinch tests, and "all extended" means every flag holds |
| Gestures.RuleHolds | gesture_recognition.py:200-257 | the rule table; on an open hand only the KEYBOARD, DOUBLE_CLICK and IDLE rules can hold |
| Gestures.FirstMatch | gesture_recognition.py:200-257 | the first rule that holds, taken from the list, or IDLE when none holds |
| Gestures.Recognize | gesture_recognition.py:176-257 | the timestamp is `now`; confidence is 1.0 for any gesture and 0.0 or 0.5 for IDLE |
| Gestures.Classify | gesture_recognition.py:200-257 | the same confidence and timestamp promises, for the classifier on given features |
| Gestures.PrecedenceTable | gesture_recognition.py:200-257 | the first-match table tries KEYBOARD, MOVE, LEFT_CLICK, RIGHT_CLICK, DOUBLE_CLICK, SCROLL, DRAG in that order |
| Gestures.ClassifyFollowsPrecedence | gesture_recognition.py:200-257 | the classifier returns the first rule of the precedence table that holds, except that the all-fingers rule gives KEYBOARD or the IDLE hold state |
| Gestures.RecognizeFollowsPrecedence | gesture_recognition.py:176-257 | the same for a hand: the result is the first rule that holds on its features |
| Gestures.MoveIff | gesture_recognition.py:213-219 | MOVE exactly when only the index finger is extended, and it carries the index-tip position |
| Gestures.TwoFingerGestures | gesture_recognition.py:221-250 | with index and middle up and ring and pinky down: an index-middle pinch is LEFT_CLICK; else a thumb-index pinch is DOUBLE_CLICK; else SCROLL at the mean tip height |
| Gestures.IdleFallbackCountsFingers | gesture_recognition.py:256-257 | the fallback IDLE has confidence 0 and reports the number of extended fingers, which is below 5 |
| Gestures.KeyboardHold | gesture_recognition.py:202-211 | the first open-hand frame starts the timer and returns the IDLE hold state; KEYBOARD exactly when the hand is open and the timer has run for the hold time; any other pose clears the timer |
| Gestures.BoundedAppend | gesture_recognition.py:280-282 | `deque(maxlen=n).append`: the length grows by one up to n, the result is a suffix of history + [g], and g is last |
| Gestures.SingleTypeIff | gesture_recognition.py:289-292 | the set of types in the window has one element exactly when the window is non-empty and uniform |
| Gestures.Debounce | gesture_recognition.py:281-318 | the history never holds more than `stability_frames` entries |
| Gestures.Process | gesture_recognition.py:259-318 | the same bound for a whole `process_landmarks` call |
| Gestures.NoHandGivesIdle | gesture_recognition.py:272-276 | no hand clears the history, the stable gesture and the keyboard timer, keeps the cooldown timers, and returns IDLE with confidence 0 |
| Gestures.DebounceIff | gesture_recognition.py:281-318 | the history is the bounded append; a gesture is emitted exactly when the window is full, uniform and not cooling down; it is the frame's own gesture and becomes the stable one |
| Gestures.FillingGivesNone | gesture_recognition.py:285-286 | nothing is emitted while the window is filling, and the history grows by one |
| Gestures.CooldownTimers | gesture_recognition.py:309-314 | an emitted click sets only the click timer to now, an emitted scroll only the scroll timer; nothing else touches them |
| Gestures.ClickCooldownHolds | gesture_recognition.py:296-299 | no click is emitted while less than the click cooldown has passed |
| Gestures.GestureRecognizer.constructor | gesture_recognition.py:54-89 | empty history, no stable gesture, both timers 0.0, no keyboard timer |
| Gestures.GestureRecognizer.RecognizeGesture | gesture_recognition.py:176-257 | returns `Recognize`'s gesture and stores its keyboard timer; no other field changes |
| Gestures.GestureRecognizer.ProcessLandmarks | gesture_recognition.py:259-318 | the new state and the result are those of `Process` |
| Gestures.GestureRecognizer.DebounceGesture | gesture_recognition.py:281-318 | the new state and the result are those of `Debounce` |
| Gestures.GestureRecognizer.Reset | gesture_recognition.py:320-327 | every field is back to its initial value |
| Smoothing.ClampAlpha | smoothing.py:48 | the factor is clamped to [0, 1]: kept inside, 0 below, 1 above |
| Smoothing.Blend | smoothing.py:50-57 | the first value passes through |
| Smoothing.MixFullFactor | smoothing.py:55 | factor 1 gives the new value |
| Smoothing.MixZeroFactor | smoothing.py:55 | factor 0 keeps the previous output |
| Smoothing.BlendGapPrev | smoothing.py:55 | the step from the previous output is alpha times the gap to the new value |
| Smoothing.BlendGapValue | smoothing.py:55 | the distance left to the new value is (1 - alpha) times the gap |
| Smoothing.BlendBetween | smoothing.py:55 | for alpha in [0, 1] the output lies between the previous output and the new value |
| Smoothing.BlendStrictlyBetween | smoothing.py:55 | for alpha in (0, 1) and distinct values it lies strictly between them |
| Smoothing.ApproachFromBelow | smoothing.py:50-57 | under a constant input above the output, the output rises strictly at every step and never reaches the input |
| Smoothing.ApproachFromAbove | smoothing.py:50-57 | the mirror image: from above, the output falls strictly and never reaches the input |
| Smoothing.LowPassStep | smoothing.py:50-57 | the factor is kept, an output is always recorded, and the first value passes through |
| Smoothing.LowPassFilter.constructor | smoothing.py:35-44 | the clamped factor and no previous output |
| Smoothing.LowPassFilter.SetAlpha | smoothing.py:46-48 | the factor becomes the clamped value and the output is kept |
| Smoothing.LowPassFilter.Filter | smoothing.py:50-57 | the state is `LowPassStep` of the old one, and the result is the recorded output |
| Smoothing.LowPassFilter.Reset | smoothing.py:59-61 | the output is forgotten and the factor kept |
| Smoothing.EMAFilter.constructor | smoothing.py:153-161 | the clamped factor and no previous value |
| Smoothing.EMAFilter.Filter | smoothing.py:165-172 | the result is the blend with the previous value, and it is recorded |
| Smoothing.EMAFilter.Reset | smoothing.py:174-176 | the previous value is forgotten |
| Smoothing.GetAlpha | smoothing.py:99-102 | ZeroDivisionError, the only error, exactly when a divisor is zero: a zero cutoff, a zero time step, or `1 + tau/dt == 0` (a cutoff of `-1/(2*pi*dt)`) |
| Smoothing.AlphaInUnitInterval | smoothing.py:99-102 | for a positive cutoff and time step the factor exists and lies strictly between 0 and 1 |
| Smoothing.AdaptiveCutoff | smoothing.py:127-128 | at rest (zero speed) or with zero beta the cutoff is `mincutoff` |
| Smoothing.OneEuroStep | smoothing.py:104-138 | `filter`: a failed call raises ZeroDivisionError and keeps the value filter and the stored time and value; a successful call that is not ignored for a non-positive time step records its time and its result |
| Smoothing.EuroSmooth | smoothing.py:115-138 | the positive-step branch: on failure the value filter and stored time and value are kept; on success the time, the result as the stored value and the value filter's output are recorded, and the speed filter has an output |
| Smoothing.EuroSmoothValue | smoothing.py:127-138 | the value stage leaves the speed filter alone; on failure nothing else changes, and on success the time and the result are recorded as the stored value and the value filter's output |
| Smoothing.AdaptiveCutoffAtLeastMin | smoothing.py:128 | the adaptive cutoff is never below `mincutoff` |
| Smoothing.EuroFirstCallPassesThrough | smoothing.py:110-113 | with no previous time or value the input is returned and recorded with its time |
| Smoothing.EuroNonPositiveStep | smoothing.py:116-118 | a time step that is not positive returns the input and changes nothing |
| Smoothing.EuroSmoothingStep | smoothing.py:116-138 | for well-formed parameters a positive step never fails, records the time and the filtered result (not the input), and the result lies between the previous output and the input |
| Smoothing.EuroReset | smoothing.py:140-145 | both sub-filters keep their factors; the time and the outputs are forgotten |
| Smoothing.EuroResetThenPassThrough | smoothing.py:140-145 | after `reset` the next value passes through |
| Smoothing.OneEuroFilter.constructor | smoothing.py:70-95 | the given parameters, two fresh sub-filters with factor 0.1, and no history |
| Smoothing.OneEuroFilter.Filter | smoothing.py:104-138 | the new state and the result are those of `OneEuroStep` |
| Smoothing.OneEuroFilter.Smooth | smoothing.py:116-138 | the positive-step branch: the new state and the result are those of `EuroSmooth` |
| Smoothing.OneEuroFilter.SmoothValue | smoothing.py:127-138 | the value stage: the new state and the result are those of `EuroSmoothValue` |
| Smoothing.OneEuroFilter.Reset | smoothing.py:140-145 | the state becomes `EuroReset` of the old one |
| Smoothing.ParseSmootherType | smoothing.py:194-201 | "one_euro" and "ema" select their filters; every other name is a ValueError |
| Smoothing.PointSmootherStep | smoothing.py:205-221 | the filter kind is kept |
| Smoothing.PointAxesIndependent | smoothing.py:216-221 | each output coordinate is what that axis's own filter gives for that coordinate |
| Smoothing.PointReset | smoothing.py:223-226 | `reset` keeps the smoother's kind and resets both axes: an EMA pair forgets both previous values, a One Euro pair becomes `EuroReset` of each axis |
| Smoothing.PointResetThenPassThrough | smoothing.py:223-226 | after `reset` the next point passes through unchanged |
| Smoothing.PointSmoother.constructor | smoothing.py:184-201 | two filters of the chosen kind with the given parameters (the EMA factor clamped) and no history |
| Smoothing.PointSmoother.Filter | smoothing.py:205-221 | the new state and the result are those of `PointSmootherStep` |
| Smoothing.PointSmoother.Reset | smoothing.py:223-226 | the state becomes `PointReset` of the old one |
| Keyboard.KeyboardShortcut.Value | keyboard_mode.py:11-16 | each shortcut's string value is non-empty |
| Keyboard.DetectShortcut | keyboard_mode.py:60-74 | a shortcut exactly for counts 1 to 4, or count 0 with the thumb out; APP_SWITCH needs the thumb |
| Keyboard.DetectShortcutRoundTrip | keyboard_mode.py:60-74 | every shortcut has a finger pattern from which detection recovers it |
| Keyboard.DetectShortcutUsesDefaults | keyboard_mode.py:61-62 | detection depends only on the count (default 0) and the thumb flag (default false) |
| Keyboard.OneFingerWithThumbIsEscape | keyboard_mode.py:64-65 | one finger with the thumb out is ESCAPE, since the count is tested first |
| Keyboard.NoFingerDataNoShortcut | keyboard_mode.py:61-74 | the empty dictionary selects no shortcut |
| Keyboard.ShortcutKeys | keyboard_mode.py:76-89 | ESCAPE and ENTER are single key presses; the others are two-key hotkeys whose modifier is cmd on macOS, otherwise ctrl (alt for app switch) |
| Keyboard.ShortcutKeysPlatformModifier | keyboard_mode.py:82-89 | macOS hotkeys use cmd; elsewhere cmd is never sent |
| Keyboard.ShortcutKeysInjective | keyboard_mode.py:76-89 | distinct shortcuts send distinct keys on the same platform |
| Keyboard.KeyboardStep | keyboard_mode.py:30-58 | `update`: the mode turns on only when a truthy timer has run for the hold time with all fingers out; it turns off only by returning a shortcut, which is the one the finger pattern selects, leaving the exit state |
| Keyboard.ExitState | keyboard_mode.py:94-96 | inactive, with no timer |
| Keyboard.StepPreservesTimerInvariant | keyboard_mode.py:30-58 | a running activation timer and the active flag never hold together after any update |
| Keyboard.ActivationStarts | keyboard_mode.py:34-37 | an open hand while inactive with no timer starts the timer at now and reports the full hold time remaining |
| Keyboard.ActivationCompletesIff | keyboard_mode.py:38-47 | with a running (truthy) timer, the mode becomes active and the timer stops exactly when the hold time has elapsed; otherwise the state is unchanged; no shortcut is returned |
| Keyboard.ActiveIsIdempotent | keyboard_mode.py:33-47 | an open hand while active changes nothing and reports nothing |
| Keyboard.ShortcutOnlyOnRelease | keyboard_mode.py:48-58 | a shortcut is returned exactly when the mode was active, the hand is not open, and the pattern selects one |
| Keyboard.ReleaseWhileActive | keyboard_mode.py:49-53 | releasing while active either exits and returns the shortcut, or stays active silently when no shortcut matches |
| Keyboard.ReleaseWhileInactive | keyboard_mode.py:54-57 | releasing while inactive clears the timer, reports inactive and returns nothing |
| Keyboard.ZeroStartNeverActivates | keyboard_mode.py:38 | a timer started at time 0.0 is falsy, so holding never activates and reports nothing |
| Keyboard.RunPreservesTimerInvariant | keyboard_mode.py:30-58 | the timer invariant holds after any sequence of updates |
| Keyboard.HoldActivatesIff | keyboard_mode.py:30-47 | from the initial state, two open-hand frames activate exactly when the second comes at least the hold time after the first |
| Keyboard.Status | keyboard_mode.py:103-114 | the status reports the flags and the hold time; progress and remaining time appear exactly when the timer is truthy; progress is at most 1 and remaining time is non-negative; a zero hold time with a running timer is a ZeroDivisionError |
| Keyboard.StatusProgressInUnitInterval | keyboard_mode.py:110-113 | with a positive hold time and a started timer, progress lies in [0, 1] |
| Keyboard.KeyboardMode.constructor | keyboard_mode.py:20-27 | inactive with no timer and empty logs |
| Keyboard.KeyboardMode.Update | keyboard_mode.py:30-58 | the new state, the returned shortcut and the reported feedback are those of `KeyboardStep`; no key is sent |
| Keyboard.KeyboardMode.ExecuteShortcut | keyboard_mode.py:76-92 | sends `ShortcutKeys` for the platform and reports the shortcut's value; the state is unchanged |
| Keyboard.KeyboardMode.Exit | keyboard_mode.py:94-98 | the state becomes `ExitState` and inactive is reported |
| Keyboard.KeyboardMode.ForceExit | keyboard_mode.py:100-101 | the same as `_exit` |
| ScreenCalibration.CalibrationPoint.Capture | calibration.py:44-48 | captured with the given camera pair; target unchanged |
| ScreenCalibration.CalibrationPoint.Reset | calibration.py:104-107 | uncaptured with no camera pair; target unchanged |
| ScreenCalibration.NewPoint | calibration.py:28-42 | the given target, not captured, no camera pair |
| ScreenCalibration.ToRecord | calibration.py:50-57 | name, screen pair and flag copied; the camera pair is written only for a captured point |
| ScreenCalibration.FromRecord | calibration.py:59-65 | the point is captured exactly when the record says so and has a camera pair |
| ScreenCalibration.PointRoundTrip | calibration.py:50-65 | reading back a serialised well-formed point gives the same point |
| ScreenCalibration.InitialCalibration | calibration.py:72-93 | exactly the four corner targets (0.1, 0.1) "Top Left", (0.9, 0.1) "Top Right", (0.9, 0.9) "Bottom Right", (0.1, 0.9) "Bottom Left" in that order, uncaptured, with distinct names; cursor on the first; waiting; instructions shown |
| ScreenCalibration.ResetPoints | calibration.py:104-107 | every point reset, in place and in order |
| ScreenCalibration.StartStep | calibration.py:97-107 | the cursor goes back to the first target, the state shows a target, and every point is uncaptured with its target kept |
| ScreenCalibration.CurrentTarget | calibration.py:115-119 | the point under the cursor exactly when the cursor is in range |
| ScreenCalibration.CaptureStep | calibration.py:121-149 | succeeds exactly when there is a current target; then that point alone is captured, the cursor advances, and the state is COMPLETE exactly when the cursor passes the last point; screen size and the instructions flag are kept; a failure changes nothing |
| ScreenCalibration.CancelStep | calibration.py:159-161 | cancelled and not complete; points, cursor, screen size and the instructions flag unchanged |
| ScreenCalibration.IsComplete | calibration.py:151-153 | `is_complete`: a complete run is never also cancelled |
| ScreenCalibration.IsCancelled | calibration.py:155-157 | `is_cancelled`: a cancelled run is never also complete |
| ScreenCalibration.Progress | calibration.py:164-168 | 0 for no points; in [0, 1] while the cursor is in range |
| ScreenCalibration.ProgressOfFour | calibration.py:164-168 | with four points, progress is the cursor over 4 |
| ScreenCalibration.CaptureAll | calibration.py:121-149 | a run of captures never adds, drops or moves a target and keeps the screen size |
| ScreenCalibration.CaptureAllAdvances | calibration.py:121-149 | k captures from an in-range cursor advance it by k, and the run is complete exactly when it reaches the end |
| ScreenCalibration.CaptureAllStores | calibration.py:121-149 | the i-th capture stores the i-th finger position in the point it was aimed at and leaves the rest alone |
| ScreenCalibration.CaptureProgress | calibration.py:97-168 | after start and k of four captures, progress is k/4, and after four the run is complete |
| ScreenCalibration.CaptureAllWellFormed | calibration.py:44-48 | capturing keeps every point well formed |
| ScreenCalibration.ToRecords | calibration.py:188 | one record per point, in order |
| ScreenCalibration.Save | calibration.py:170-189 | a record exactly when complete, holding the time, the resolution and every point's record |
| ScreenCalibration.Load | calibration.py:203-230 | accepted exactly when the record has four points; then each point is read back, the resolution is adopted, and the state is COMPLETE; otherwise nothing changes |
| ScreenCalibration.SaveThenLoad | calibration.py:170-230 | saving a complete four-point calibration and loading the record restores its points and resolution |
| ScreenCalibration.ScreenCalibrator.constructor | calibration.py:72-93 | the initial calibration for the given screen |
| ScreenCalibration.ScreenCalibrator.StartCalibration | calibration.py:97-107 | the data becomes `StartStep` of the old data |
| ScreenCalibration.ScreenCalibrator.GetCurrentTarget | calibration.py:115-119 | returns `CurrentTarget` |
| ScreenCalibration.ScreenCalibrator.CapturePoint | calibration.py:121-149 | the data and the result are those of `CaptureStep` |
| ScreenCalibration.ScreenCalibrator.Cancel | calibration.py:159-161 | the data becomes `CancelStep` of the old data |
| ScreenCalibration.ScreenCalibrator.SaveCalibration | calibration.py:170-201 | returns the `Save` record |
| ScreenCalibration.ScreenCalibrator.LoadCalibration | calibration.py:203-230 | the data and the result are those of `Load` |
| Cursor.UnitRemap | cursor_control.py:98-103 | the dead-zone remap; a dead zone above one half leaves nothing live, so every coordinate maps to 0 |
| Cursor.UnitRemapBounds | cursor_control.py:98-103 | the remapped coordinate lies in [0, 1] |
| Cursor.UnitRemapMonotone | cursor_control.py:98-103 | remapping is monotone |
| Cursor.UnitRemapLowMargin | cursor_control.py:98-103 | anything inside the low dead zone maps to 0 |
| Cursor.UnitRemapHighMargin | cursor_control.py:98-103 | anything inside the high dead zone maps to 1 |
| Cursor.UnitRemapCentre | cursor_control.py:98-103 | the centre maps to the centre |
| Cursor.AxisToScreen | cursor_control.py:98-107 | one axis of `webcam_to_screen`; a dead zone above one half or a zero screen size gives 0 |
| Cursor.AxisToScreenBounds | cursor_control.py:98-107 | a screen coordinate lies in [0, screen size] |
| Cursor.AxisToScreenMonotone | cursor_control.py:98-107 | mapping to the screen is monotone |
| Cursor.AxisToScreenLowMargin | cursor_control.py:98-107 | the low dead zone maps to screen coordinate 0 |
| Cursor.AxisToScreenHighMargin | cursor_control.py:98-107 | the high dead zone maps to the screen size |
| Cursor.AxisToScreenCentre | cursor_control.py:98-107 | the centre maps to half the screen size |
| Cursor.MapToScreen | cursor_control.py:76-109 | ZeroDivisionError exactly for a zero frame size or a dead zone of one half; otherwise each axis is normalised and mapped |
| Cursor.MapToScreenOnScreen | cursor_control.py:76-109 | for dead zones in [0, 0.5) and a non-empty frame, the result lies on the screen |
| Cursor.WebcamCentreToScreenCentre | cursor_control.py:76-109 | the centre of the frame maps to the centre of the screen |
| Cursor.AccelerationFactor | cursor_control.py:146-151 | 1 without acceleration; otherwise between 1 and 2 for any non-negative distance |
| Cursor.AccelerationMonotone | cursor_control.py:149 | the factor grows with the distance |
| Cursor.AccelerationSaturates | cursor_control.py:149 | from a distance of 100 the factor is 2 |
| Cursor.ClampToScreen | cursor_control.py:157-158 | the result lies on the pixel grid [0, w-1] x [0, h-1], and a point already there is unchanged |
| Cursor.ClampIdempotent | cursor_control.py:157-158 | clamping twice is clamping once |
| Cursor.MovePosition | cursor_control.py:142-158 | the sent point is on the screen, and without a previous position it is the smoothed point clamped |
| Cursor.LengthNonNegative | cursor_control.py:148 | with an exact square root the distance is non-negative |
| Cursor.UnitGainFollowsSmoothed | cursor_control.py:142-158 | with sensitivity 1 and no acceleration the cursor follows the smoothed point |
| Cursor.MoveStep | cursor_control.py:125-163 | a move remembers exactly the point it sent, which lies on the screen; a failure keeps the previous position |
| Cursor.ResetThenMoveUsesRawPoint | cursor_control.py:225-228 | after `reset_smoothing` the next move sends the mapped point itself, clamped |
| Cursor.Lower | cursor_control.py:216-218 | `str.lower`: the same length, each character lowered |
| Cursor.LowerOfLowercase | cursor_control.py:216-218 | a lowercase word is its own lowercase |
| Cursor.TranslateKey | cursor_control.py:214-221 | keys other than the command and control names pass through unchanged, and a changed key is `cmd` on macOS and `ctrl` elsewhere |
| Cursor.TranslateKeyNative | cursor_control.py:214-221 | on macOS no ctrl is sent; elsewhere no cmd or command is sent |
| Cursor.TranslateKeyIdempotent | cursor_control.py:214-221 | translating twice is translating once |
| Cursor.TranslateKeys | cursor_control.py:214-221 | one key per input key, each translated for the platform |
| Cursor.DragEventsAppend | cursor_control.py:187-204 | appending an event adds it to the drag events exactly when it is a button down or up |
| Cursor.OtherEventKeepsDrag | cursor_control.py:165-185 | events other than button down or up keep the drag state consistent |
| Cursor.DownWhenReleased | cursor_control.py:187-191 | a button down on a released button leaves the state consistent with dragging |
| Cursor.UpWhenHeld | cursor_control.py:193-197 | a button up on a held button leaves the state consistent with not dragging |
| Cursor.CursorController.constructor | cursor_control.py:19-66 | the given screen, dead zone, sensitivity and smoother; no position, not dragging |
| Cursor.CursorController.WebcamToScreen | cursor_control.py:76-109 | returns `MapToScreen` for the controller's settings |
| Cursor.CursorController.MoveCursor | cursor_control.py:125-163 | the smoother, position and result are those of `MoveStep`; a move is logged exactly when it succeeds |
| Cursor.CursorController.PlaceCursor | cursor_control.py:141-163 | sends and remembers `MovePosition` |
| Cursor.CursorController.LeftClick | cursor_control.py:165-167 | logs a left click |
| Cursor.CursorController.RightClick | cursor_control.py:169-171 | logs a right click |
| Cursor.CursorController.DoubleClick | cursor_control.py:173-175 | logs a double click |
| Cursor.CursorController.Scroll | cursor_control.py:177-185 | logs amount x direction scroll clicks |
| Cursor.CursorController.StartDrag | cursor_control.py:187-191 | dragging afterwards; a button down is sent only if it was released |
| Cursor.CursorController.StopDrag | cursor_control.py:193-197 | not dragging afterwards; a button up is sent only if it was held |
| Cursor.CursorController.ToggleDrag | cursor_control.py:199-204 | the drag state flips with exactly one down or up |
| Cursor.CursorController.KeyboardShortcut | cursor_control.py:206-223 | sends one hotkey whose keys are the input keys translated for the platform |
| Cursor.CursorController.ResetSmoothing | cursor_control.py:225-228 | the smoother is reset and the position forgotten |
| ConfigStore.Split | config.py:118 | `str.split('.')`: at least one piece, none containing a dot |
| ConfigStore.JoinSplit | config.py:118 | joining the pieces with dots gives back the path |
| ConfigStore.SplitJoin | config.py:118 | splitting dot-free pieces joined with dots gives back the pieces |
| ConfigStore.SplitSingle | config.py:118 | a dot-free path is one piece |
| ConfigStore.SplitPiece | config.py:118 | splitting `p.tail` gives p followed by the pieces of tail |
| ConfigStore.GetPath | config.py:118-127 | the lookup behind `get`; a path that does not reach a value gives the default |
| ConfigStore.GetPathFallsBack | config.py:118-127 | a path that does not reach a value gives the default; one that does gives a value independent of the default |
| ConfigStore.GetPathConcat | config.py:121-127 | looking up p + q is looking up q in the value at p |
| ConfigStore.SetPath | config.py:137-145 | succeeds exactly when every existing intermediate is a dictionary (TypeError otherwise); the top level gains only the first key, and other entries are kept |
| ConfigStore.SetPathIntoEmpty | config.py:140-145 | setting into an empty configuration always succeeds |
| ConfigStore.GetAfterSet | config.py:107-145 | after a set, reading the same path gives the value set |
| ConfigStore.SetLeavesOtherPaths | config.py:107-145 | a set leaves every diverging path's value unchanged |
| ConfigStore.DeepMerge | config.py:147-153 | the keys of the result are those of both maps |
| ConfigStore.MergeEntries | config.py:149-153 | a key only in base keeps its value; a key in update replaces the base value, except that two dictionaries merge recursively |
| ConfigStore.MergeEmptyIsIdentity | config.py:147-153 | merging nothing changes nothing |
| ConfigStore.MergeIntoEmpty | config.py:147-153 | merging into nothing gives the update |
| ConfigStore.MergeThenGetLeaf | config.py:107-153 | a path ending at a non-dictionary value in the update reads that value after the merge |
| ConfigStore.LeafGetIsLeaf | config.py:118-127 | the value read along a leaf path is not a dictionary |
| ConfigStore.MergeKeepsBaseOnly | config.py:107-153 | a path whose first key is not in the update reads the same after the merge |
| ConfigStore.MergeInto | config.py:147-153 | the loop over the update's keys computes `DeepMerge` |
| ConfigStore.ReadTwo | config.py:118-127 | reading `a.b` is reading b in the dictionary at a |
| ConfigStore.DefaultCameraIndex | config.py:13-16 | `camera.index` defaults to 0 |
| ConfigStore.DefaultCameraWidth | config.py:13-18 | `camera.width` defaults to 640 |
| ConfigStore.DefaultSmoothingLookup | config.py:13-65 | `smoothing.type` defaults to "one_euro" |
| ConfigStore.DefaultThresholdLookup | config.py:13-65 | `gestures.finger_threshold` defaults to 0.15 |
| ConfigStore.DefaultMissingKey | config.py:118-127 | a missing section gives the caller's default |
| ConfigStore.Initial | config.py:74-83 | KeyError or TypeError exactly when the loaded configuration has no platform entry; otherwise the platform is never "auto", "auto" becomes the detected platform, and the other sections are kept |
| ConfigStore.DefaultInitial | config.py:74-83 | without a user file the start-up succeeds, sets the detected platform and keeps the camera defaults |
| ConfigStore.Config.constructor | config.py:67-83 | holds the given start-up configuration |
| ConfigStore.Config.Get | config.py:107-127 | the loop returns `GetPath` on the split path |
| ConfigStore.Config.Set | config.py:129-145 | the configuration becomes the `SetPath` result, or is unchanged on TypeError |
| ConfigStore.Config.Merge | config.py:147-153 | the configuration becomes `DeepMerge` of the old one with the update |
| App.FromRecognizerType | main.py:121-182 | the recogniser's eight gestures map to the application's; none maps to a window gesture, and the clicks map to clicks |
| App.FromRecognizer | main.py:121-123 | a recogniser gesture carries a cursor position exactly when it is a MOVE, and never a scroll delta or finger data |
| App.Cooled | main.py:115-119 | `_can_click`/`_can_scroll`; with a non-negative cooldown, a passed cooldown means time has moved past the last action |
| App.CooldownBoundaryDiffers | main.py:115-116 | at exactly the cooldown the application refuses a click that the recogniser lets through |
| App.CooledAfterFiring | main.py:115-119 | after firing at `now`, the cooldown has passed at `later` exactly when later > now + cooldown |
| App.Direction | main.py:150 | +1 for a positive delta, -1 otherwise |
| App.Dispatch | main.py:121-182 | a timer moves to now only when its action fires, and an action fires only when its cooldown has passed |
| App.ClickFiresIff | main.py:131-144 | a click fires exactly when the click cooldown has passed, and then restarts it |
| App.ClicksShareCooldown | main.py:131-144 | after any click fires, no click fires again within the cooldown |
| App.ScrollFiresIff | main.py:146-152 | a scroll fires exactly when the cooldown has passed and the delta exceeds 2 in size; positive deltas scroll up |
| App.MissingDeltaNeverScrolls | main.py:148-149 | without a delta no scroll fires |
| App.RecognizedScrollNeverFires | main.py:146-152 | a gesture from the recogniser never restarts the scroll timer |
| App.MoveDispatch | main.py:126-129 | MOVE moves the cursor to the gesture's position exactly when it carries one and does nothing otherwise, without touching a timer; no other gesture moves the cursor |
| App.DragAlwaysToggles | main.py:154-155 | DRAG toggles on every dispatch and touches no timer |
| App.KeyboardForwarding | main.py:157-182 | KEYBOARD forwards the gesture's own finger data with all fingers extended, IDLE forwards the empty pattern without; nothing else reaches the keyboard mode |
| App.KeyboardDispatchNeverExecutes | main.py:157-160 | neither keyboard branch ever receives a shortcut to execute |
| App.WindowGestures | main.py:162-179 | minimise sends cmd+m exactly on macOS; the other window gestures do nothing |
| App.NormalisedPositionsLandInCorner | main.py:126-129 | a normalised cursor position divided by the default 640 x 480 frame lands in the top-left corner when the dead zone is at least 1/480 |
| App.Upper | main.py:113 | `str.upper`: the same length, each character raised |
| App.FeedbackMessage | main.py:105-113 | `_keyboard_feedback`: the countdown of the event's remaining time exactly for the activating event, "KEYBOARD MODE" for activation, the empty message exactly for exit, and `EXECUTED: ` followed by the shortcut's name in capitals for an executed shortcut |
| App.ApplyFeedback | main.py:105-113 | a run of callbacks leaves the message of the last event, or the message unchanged when there was none |
| App.ApplyFeedbackAppend | main.py:105-113 | one more event sets the message to that event's message |
| App.FeedbackMessages | main.py:106-111 | activating shows the countdown, active shows "KEYBOARD MODE", inactive clears the message |
| App.ExecutedMessage | main.py:112-113 | an executed COPY shows "EXECUTED: COPY" |
| App.HandControlApp.constructor | main.py:93-97 | both timers 0, cooldowns in seconds from milliseconds, an empty message |
| App.HandControlApp.KeyboardFeedback | main.py:105-113 | the message becomes that event's message |
| App.HandControlApp.RelayFeedback | main.py:105-113 | the message is the result of the keyboard mode's new events applied in order |
| App.HandControlApp.HandleClick | main.py:131-144 | when the cooldown has passed, logs the click and restarts the click timer; otherwise changes nothing |
| App.HandControlApp.HandleScroll | main.py:146-152 | when the cooldown has passed and the delta exceeds 2, scrolls one click in its direction and restarts the scroll timer; otherwise changes nothing |
| App.HandControlApp.HandleKeyboard | main.py:157-160 | the keyboard mode steps with all fingers extended, its feedback reaches the message, and no key is sent |
| App.HandControlApp.HandleIdle | main.py:181-182 | the keyboard mode steps with the hand closed and an empty pattern, its feedback reaches the message, and no key is sent |
| App.HandControlApp.HandleGesture | main.py:121-182 | the timers are `Dispatch`'s; a move follows `MoveStep` on a 640 x 480 frame, appends the MoveTo it sends, and returns `move_cursor`'s exception; a click or scroll appends its event, and a drag flips the state with one down or up, each keeping the position and smoother; keyboard steps follow `KeyboardStep` and relay their feedback; minimise sends its hotkey; every action leaves the keyboard side, or the pointer side, unchanged when it does not address it |
| App.HandControlApp.Cleanup | main.py:275-277 | releases the button exactly when dragging; not dragging afterwards |

## Left out

- Camera capture, MediaPipe inference, OpenCV drawing, printing and the visualiser classes
  are not modelled. They are I/O, or foreign code that cannot be seen.
- `main.py`'s `HandControlApp.__init__`, `run`, `main`, the FPS counter and closing the camera
  and tracker are not modelled. They wire up I/O. `main.py` is also written against other
  versions of `GestureRecognizer` (13 gesture types, extra keyword arguments) and
  `CursorController` (a calibrator argument), which are not part of this model. `App.AppGesture`
  carries the 13 types, and `App.FromRecognizerType` maps the 8 modelled ones into them.
- Hands.HandSizeSquared: the model keeps the square of the hand size, and the threshold tests
  are decided on squares. `Gestures.ExtensionIff` and `Gestures.PinchedIff` tie them to the
  true root.
- Cursor.AccelerationFactor: the distance comes from a square-root function the caller
  supplies, required to be exact. Floating-point rounding is not modelled anywhere. All
  arithmetic is on reals.
- Smoothing.PointSmootherStep: its contract only says the kind is kept. Its meaning is in
  `Smoothing.PointAxesIndependent` and `Smoothing.PointResetThenPassThrough`.
- Smoothing.Blend: its contract covers only the first value. The rest is in the `Mix`
  lemmas (`BlendBetween` and its neighbours).
- Gestures.Debounce and Gestures.Process: their contracts only bound the history. Their
  behaviour is in `DebounceIff`, `CooldownTimers`, `NoHandGivesIdle` and `FillingGivesNone`.
- App.Dispatch: its contract states only the timer discipline. The per-gesture behaviour is in
  `MoveDispatch`, `ClickFiresIff`, `ScrollFiresIff`, `DragAlwaysToggles`, `KeyboardForwarding`
  and `WindowGestures`.
- A `None` timestamp passed to the smoothers means "now". The model always takes an explicit
  time.
- The cursor controller's constructor reads its settings from the configuration and
  `pyautogui.size()`. `Cursor.CursorController.constructor` takes those values as parameters.
- The keyboard mode's feedback callback is optional in the source. The model always records
  the events in `feedbackLog`, and the application relays them.
- The `platform` field of `get_status` and the `"KEYBOARD {remaining:.1f}s"` number formatting
  are not modelled. `App.StatusMessage.Countdown` carries the number. `str.upper` and
  `str.lower` are modelled for ASCII letters only.
- `platform.system()` and `sys.platform` are an `isMacos` parameter. Windows and Linux behave
  alike in every modelled function.
- The configuration is modelled as an immutable nested value. The source's
  `DEFAULT_CONFIG.copy()` is shallow, so nested sections are shared with the class attribute,
  and `set` and `_deep_merge` mutate them in place. That aliasing is not modelled.
- YAML and JSON files are not modelled. A loaded user file is an `Option<Value>`. A value
  that is not a dictionary is ignored, as the source's exception handler ignores it.
  `save_to_file`, `create_sample_config` and the global `get_config` and `load_config` are
  not modelled. Malformed calibration records (missing keys, short lists) are not modelled;
  a record is a well-typed datatype.
- ScreenCalibration: `get_current_target` returns a reference the caller can mutate. The model
  returns a value, and captures go through `CaptureStep`.
- A release while active with no matching shortcut leaves the mode active
  (`Keyboard.ReleaseWhileActive`).
- `tests/test_keyboard_mode.py` expects one finger with the thumb out to select nothing. The
  code selects ESCAPE, and the model follows the code (`Keyboard.OneFingerWithThumbIsEscape`).
