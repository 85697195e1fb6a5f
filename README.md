# Hidden-stag game scene: a Dafny model

The game shows a large map that the player pans by dragging and zooms with the
mouse wheel or a two-finger pinch. Five stags are hidden on the map, and the player
clicks them before a 45-second countdown runs out. All of the game's own logic is in
the `Game` scene (`src/scenes/Game.js`). This project models that scene's
bookkeeping as the Dafny class `GameScene.Game`: its fields, and one method per
engine or DOM callback. The pure parts are kept as functions with lemmas about them:

- `Text`: `toString` of a nonnegative integer, `padStart`, `includes`.
- `TimerDisplay`: the mm:ss countdown text and reading it back.
- `Zoom`: the clamped wheel step and the clamped pinch rescaling.
- `Pointers`: removing a released pointer from the touch list.
- `Wrappers`: an `Option` type.

Every method of `Game` keeps the invariant `Valid()`:

- the score stays between 0 and the number of stages;
- the clock stays nonnegative;
- the zoom and the pinch-baseline zoom stay in [0.5, 2];
- a full score, or a clock at zero, means the game is over.

So from the constructor onwards, no sequence of callbacks pushes the score past five.

What the model shows about the code as written:

- `create` never calls `setupTimer`, so `this.timer` stays `null`. Then
  `endGame` sets `gameOver` and throws at `this.timer.remove()`. So `endGame`
  never reaches its own modal step or `pauseGame` (`OnStageClick` returns
  `NullTimerError`; see `FindEveryStage`). The modal still appears: the
  `checkGameOver` poll in src/main.js:55-60, run every second (src/main.js:114),
  sees `gameOver` and shows it. That poll is outside this model. The countdown
  exists in the code, but it never runs.
- The click guard only sees "found" once the tween's `onComplete` has run. Until
  then, every click on the same stag counts again, and five clicks on one stag end
  the game (`ClickOneStageRepeatedly`). Even afterwards the guard depends on the key
  the engine reports. With the requested `stag<i+1>_found` the stag is ignored;
  with a key lacking "found", such as a placeholder for a texture that was never
  loaded, it counts again (`ClickAfterTween`).
- The pinch baseline is taken only when the second finger lands. If a third finger
  lands and the first one lifts, two fingers are down again, but the pinch still
  scales from the old pair's captured zoom (`StalePinchBaseline`).

## Model

| member | source | states |
|---|---|---|
| `Text.NatToString` | src/scenes/Game.js:166-168 | `toString` of a nonnegative integer: at least one digit, no leading zero unless it is "0", and the digits denote the number |
| `Text.NatToStringLength` | src/scenes/Game.js:168 | numbers below 10 have one digit and numbers from 10 to 99 have two, so padding to two adds a zero exactly below 10 |
| `Text.PadStart` | src/scenes/Game.js:168 | `padStart`: the result has the larger of the two lengths, ends with the original string, and everything before it is the pad character |
| `Text.PadStartDigits` | src/scenes/Game.js:168 | padding digits with "0" keeps them digits and keeps the number they denote |
| `Text.Includes` | src/scenes/Game.js:89 | `includes` is true exactly when the substring occurs at some offset |
| `Text.IncludesSuffix` | src/scenes/Game.js:104 | a string ending in the searched text includes it |
| `Text.ExcludesWithoutFirst` | src/scenes/Game.js:89 | a string that lacks the first character of the searched text does not include it |
| `TimerDisplay.Pad2` | src/scenes/Game.js:168 | the padded field has at least two digits (exactly two below 100), denotes the number, and is the plain digits from 10 up |
| `TimerDisplay.Pad2IsPadStart` | src/scenes/Game.js:168 | the two-digit field equals `toString().padStart(2, "0")` |
| `TimerDisplay.TimerText` | src/scenes/Game.js:166-168 | the countdown text is a minutes field of at least two digits denoting the whole minutes, then ":", then exactly two digits denoting the remaining seconds, below 60 |
| `TimerDisplay.TimerTextRoundTrip` | src/scenes/Game.js:164-169 | reading the countdown text back gives the number of seconds it was made from |
| `TimerDisplay.TimerTextInjective` | src/scenes/Game.js:164-169 | two different times never show the same text |
| `TimerDisplay.TimerTextUnderAnHour` | src/scenes/Game.js:166-168 | below one hour the text is exactly five characters |
| `TimerDisplay.InitialText` | src/scenes/Game.js:10 | the initial 45 seconds are shown as "00:45" |
| `TimerDisplay.FinalText` | src/scenes/Game.js:156-160 | the tick that ends the game shows "00:00" |
| `Zoom.Clamp` | src/scenes/Game.js:245 | for ordered bounds the result lies between them; it is the value itself when inside, the lower bound below, the upper bound above |
| `Zoom.WheelZoom` | src/scenes/Game.js:243-245 | after a wheel event the zoom lies in [0.5, 2] |
| `Zoom.WheelZoomDirection` | src/scenes/Game.js:243-245 | a positive `deltaY` never zooms in and any other never zooms out; away from the bounds it moves by exactly 0.1 |
| `Zoom.WheelZoomSaturates` | src/scenes/Game.js:245 | at 0.5 wheeling out stays at 0.5, and at 2 wheeling in stays at 2 |
| `Zoom.WheelZoomUndo` | src/scenes/Game.js:243-245 | an unclamped step out followed by a step in restores the zoom |
| `Zoom.PinchZoom` | src/scenes/Game.js:271-275 | during a pinch the zoom lies in [0.5, 2] |
| `Zoom.PinchZoomUnmoved` | src/scenes/Game.js:271-274 | with the fingers at their initial distance the pinch keeps the captured zoom |
| `Zoom.PinchZoomMonotone` | src/scenes/Game.js:271-274 | spreading the fingers further never zooms out |
| `Pointers.WithoutId` | src/scenes/Game.js:262 | the filtered list is no longer than the original, holds no entry with the released id, and holds exactly the original entries with other ids |
| `Pointers.WithoutIdAppend` | src/scenes/Game.js:262 | filtering a concatenation is the concatenation of the filtered parts, so the kept entries stay in their original order |
| `Pointers.WithoutIdAbsent` | src/scenes/Game.js:262 | releasing an id that is not in the list leaves the list unchanged |
| `Pointers.WithoutIdIdempotent` | src/scenes/Game.js:262 | releasing the same pointer twice is the same as releasing it once |
| `Pointers.PressThenRelease` | src/scenes/Game.js:249-263 | pressing a pointer and releasing it leaves what releasing it alone would have left |
| `GameScene.InitialStageKeys` | src/scenes/Game.js:78-85 | five stages, keyed `stag1` to `stag5` in order |
| `GameScene.IsFound` | src/scenes/Game.js:89 | the click guard's test holds exactly when "found" occurs at some offset of the key |
| `GameScene.StageKey` | src/scenes/Game.js:80 | a stage key is "stag" followed by decimal digits and never passes the "found" test |
| `GameScene.FoundKey` | src/scenes/Game.js:104 | the key requested at the tween's end is the stag's own key followed by "_found", and it passes the "found" test |
| `GameScene.StageKeyInjective` | src/scenes/Game.js:80 | each stag has its own texture key |
| `GameScene.Game.constructor` | src/scenes/Game.js:4-18 | every field has its initial value: score 0, 45 seconds, not over, not paused, not dragging, pointer at (0, 0), no pointers, baseline zoom 0.5, no stages, no timer |
| `GameScene.Game.Create` | src/scenes/Game.js:31-41 | the camera takes the initial zoom and the five stages are built; no timer is set up |
| `GameScene.Game.SetupCamera` | src/scenes/Game.js:47-51 | the camera zoom becomes `initialZoom` |
| `GameScene.Game.AddStages` | src/scenes/Game.js:69-86 | the loop pushes the keys `stag1` to `stag5`, in order |
| `GameScene.Game.OnStageClick` | src/scenes/Game.js:88-110 | game over or a "found" key: nothing changes. Otherwise the score rises by exactly one, and when it reaches five `endGame(true)` runs: `gameOver` is set, and with no timer the callback throws before the modal or the pause |
| `GameScene.Game.OnTweenComplete` | src/scenes/Game.js:103-105 | only the clicked stage's key changes, to the key the engine reports after `setTexture(stag<index+1>_found)` |
| `GameScene.Game.SetupTimer` | src/scenes/Game.js:130-138 | the timer runs and the countdown shows the current time |
| `GameScene.Game.UpdateTimer` | src/scenes/Game.js:153-162 | game over or paused: nothing changes. Otherwise one second less, the display shows it, and at zero `endGame(false)` runs |
| `GameScene.Game.UpdateTimerDisplay` | src/scenes/Game.js:164-169 | the countdown element shows `timeLeft` as mm:ss |
| `GameScene.Game.EndGame` | src/scenes/Game.js:170-188 | `gameOver` becomes true first. Without a timer the call throws and nothing else changes. With a timer, the timer is removed, the modal shows the win or loss message, and the game is paused |
| `GameScene.Game.PauseGame` | src/scenes/Game.js:190-196 | afterwards the game is paused; the engine is asked to pause only if it was not paused before |
| `GameScene.Game.ResumeGame` | src/scenes/Game.js:198-204 | afterwards the game is not paused; the engine is asked to resume only if it was paused before |
| `GameScene.Game.OnPause` | src/scenes/Game.js:206-209 | sets the pause flag unconditionally and changes nothing else |
| `GameScene.Game.OnResume` | src/scenes/Game.js:211-214 | clears the pause flag unconditionally and changes nothing else |
| `GameScene.Game.StartDrag` | src/scenes/Game.js:217-221 | while paused nothing changes; otherwise dragging starts at the pointer |
| `GameScene.Game.StopDrag` | src/scenes/Game.js:223-225 | dragging stops and nothing else changes |
| `GameScene.Game.OnDrag` | src/scenes/Game.js:227-237 | only while dragging and not paused does the pointer become the last pointer position; otherwise nothing changes |
| `GameScene.Game.HandleZoom` | src/scenes/Game.js:240-246 | while paused the zoom is unchanged; otherwise it takes one clamped wheel step |
| `GameScene.Game.OnPointerDown` | src/scenes/Game.js:249-259 | the pointer is appended; the pinch baseline (the first two pointers and the current zoom) is taken only when the list length is exactly two |
| `GameScene.Game.OnPointerUp` | src/scenes/Game.js:261-263 | every entry with the released id is removed and the others keep their order |
| `GameScene.Game.OnPointerMove` | src/scenes/Game.js:265-277 | only with exactly two pointers down does the zoom follow the pinch, clamped to [0.5, 2] |
| `GameScene.ClickOneStageRepeatedly` | src/scenes/Game.js:88-110 | before its tween completes, every click on one stag counts, up to five; the fifth ends the game; `endGame` throws before its own modal step, so the scene is left unpaused and `endGame` has put no message into the modal |
| `GameScene.ClickAfterTween` | src/scenes/Game.js:89-105 | after the tween has completed, a second click on the same stag is ignored if the reported key contains "found", and counts again if it does not |
| `GameScene.FindEveryStage` | src/scenes/Game.js:170-172 | finding all five stags counts five and ends the game, and the last click throws for lack of a timer |
| `GameScene.RunOutTheClock` | src/scenes/Game.js:153-162 | with a timer, 45 unpaused ticks show "00:00", end the game as a loss, show the loss message and pause the scene |
| `GameScene.PauseTwiceThenResume` | src/scenes/Game.js:190-204 | a second pause does not ask the engine again, and a resume afterwards does |
| `GameScene.StalePinchBaseline` | src/scenes/Game.js:249-277 | after the third finger lands and the first lifts, the baseline is still from the first pair and the pinch scales the zoom captured then |

## Left out

- OnTweenComplete: which key Phaser reports after `setTexture` is an engine matter. The model takes it as a parameter. It is `stag<i+1>_found` (`FoundKey`) when that texture is loaded, and a placeholder key otherwise; the scene's own loader line for the `stag<i+1>_found` textures is commented out (src/scenes/Game.js:26).
- OnPointerMove: the distance ratio is a parameter and an exact real. In the source the distances use a square root, and a zero `initialPinchDistance` gives Infinity or NaN; a NaN passes through `Phaser.Math.Clamp`, so the [0.5, 2] bound is not shown for it.
- OnDrag: the camera scroll (`scrollX`/`scrollY -= d / zoom`) is left out. Phaser clamps the scroll to the camera bounds, which this model cannot see.
- HandleZoom: zoom values are exact reals, so floating-point rounding of `zoom ± 0.1` is not modelled.
- GameScene.Game.constructor: the camera zoom starts at Phaser's default of 1, an engine value this model assumes.
- Asset loading (`preload`), map and camera set-up other than the zoom, and the wiring of input and scene events: these are engine calls.
- The tween's animation (scale, duration, yoyo): only its completion is modelled, as `OnTweenComplete`.
- DOM writes are I/O: `updateUIOnStageFound`, the modal's text and style, and `console.log`. The modal is reduced to which message it shows, and the countdown element to the text written into it.
- Exceptions: the `TypeError` from `this.timer.remove()` is returned as `NullTimerError`. How Phaser's event emitter handles it is not modelled.
- `scene.pause()`/`scene.resume()`: the model records only whether the engine is asked, as the result of `PauseGame`/`ResumeGame`. The engine's own effects are not modelled: it emits `pause`/`resume` and stops input while paused. Every callback may run at any time, subject only to the scene's own guards.
- `pointers` holds live Phaser pointer objects whose coordinates the engine updates. The model stores snapshots of id and position.
- The commented-out older `updateTimer` (src/scenes/Game.js:140-151) is not code and is not modelled.
- src/main.js is not part of this model: game configuration, orientation checks, polling, redirect, fullscreen and modal handlers are browser glue. In particular, its `checkGameOver` poll (src/main.js:55-60, 114) shows the game-over modal once `gameOver` is set, whatever `endGame` did. The model's `modal` field records only what `endGame` itself puts there.
