# Touch gestures of an Appium test suite, in Dafny

This project models the gesture layer of a mobile test-automation suite:
the screenplay interactions that tap, long-press, double-tap, drag, pinch,
swipe and scroll on a touch screen, the retrying `ScrollUntil`, and `Wait`.

Each interaction resolves its target element(s) to a box (location and
size), computes points from the box or the window size, fills one action
sequence per finger in place (`addAction`), and submits the sequences to
the session as one gesture.

- **Gestures** holds the shared vocabulary: pointer actions, the `Sequence` class that collects a finger's actions in place, and the `Driver` class whose `performed` log records every gesture submitted.
- **Replay** is an independent pointer semantics. It follows the actions from a resting pointer, records where the pointer touched down and lifted and how long the gesture took, and rejects a press or release that comes out of turn. Each interaction's action list is proved to mean what the interaction intends.
- **Geometry** holds the element centre, the directional start anchors (80% or 20% of the extent) and the end points (the start shifted by `(int)(extent * percentage)`). `Scroll`, `Swipe` and `ScrollUntil` each carry an identical copy of these formulas, so they are stated once. Java's `(int)` cast is modelled as truncation toward zero, which is what it does for every in-range value.
- **ScrollUntil** runs a bounded loop: check, scroll, sleep. Outside behaviour enters as two sequences. `probes[i]` is what the i-th condition check observes. `envs[a]` gives, for attempt `a`, the container's box, whether the session rejects the gesture, and whether the sleep is interrupted. The loop is proved equal to a recursive reference run, `RunAll`, and the properties of the retry policy are proved about `RunAll`.
- **Wait** decides which handler runs, which checks it makes before waiting, and what it asks the polling library to wait for. The polling itself is library code and appears as a result value.

## Model

| member | source | states |
|---|---|---|
| Geometry.Trunc | src/test/java/com/base/automation/interactions/Scroll.java:87-88 | Java's `(int)` cast of a double truncates toward zero: the result has the value's sign and lies within one unit of it, on the zero side. |
| Geometry.Center | src/test/java/com/base/automation/interactions/TapOn.java:39-43 | The centre `(x + w/2, y + h/2)` is offset from the corner by half the size rounded down, so it lies inside the element. |
| Geometry.ElementStart | src/test/java/com/base/automation/interactions/Scroll.java:68-81 | The start anchor sits, along the direction's axis, at `(int)(extent * 0.8)` from the element's corner for UP/LEFT and `(int)(extent * 0.2)` for DOWN/RIGHT, on the element's centre line across it, and inside the element. |
| Geometry.Shift | src/test/java/com/base/automation/interactions/Scroll.java:90-95 | Moving a point by a distance in a direction changes only the coordinate along it: minus for UP/LEFT, plus for DOWN/RIGHT. |
| Geometry.ElementEnd | src/test/java/com/base/automation/interactions/Scroll.java:83-96 | The end point keeps the start's cross coordinate and moves along the axis by `(int)(extent * percentage)` of the element. |
| Geometry.ScreenStart | src/test/java/com/base/automation/interactions/Scroll.java:98-108 | The window start anchor sits at `(int)(extent * 0.8)` along the axis for UP/LEFT and `(int)(extent * 0.2)` for DOWN/RIGHT, on the window's centre line across it, and inside the window. |
| Geometry.ScreenEnd | src/test/java/com/base/automation/interactions/Scroll.java:110-120 | The window end point keeps the start's cross coordinate. |
| Geometry.ScreenIsOriginBox | src/test/java/com/base/automation/interactions/Scroll.java:68-120 | The window formulas equal the element formulas applied to a box at (0, 0) of the window's size. |
| Geometry.ScaledMonotone | src/test/java/com/base/automation/interactions/Scroll.java:87-88 | The truncated distance is non-negative and grows with the percentage. |
| Geometry.ScaledParts | src/test/java/com/base/automation/interactions/Scroll.java:76-79 | The truncated 80% and 20% parts of an extent add up to the extent or one less. |
| Geometry.MirroredAnchors | src/test/java/com/base/automation/interactions/Scroll.java:75-80 | The UP and DOWN (LEFT and RIGHT) anchors are symmetric about the centre line, up to one pixel of truncation. |
| Geometry.EndStaysInBox | src/test/java/com/base/automation/interactions/Scroll.java:68-96 | A scroll of at most 80% starting from its anchor ends inside the element. |
| Geometry.ScreenEndStaysOnScreen | src/test/java/com/base/automation/interactions/Swipe.java:58-80 | A swipe of at most 80% ends inside the window. |
| Gestures.Sequence.constructor | src/test/java/com/base/automation/interactions/TapOn.java:45-46 | A new action sequence for a named pointer holds no actions. |
| Gestures.Sequence.AddAction | src/test/java/com/base/automation/interactions/TapOn.java:47-50 | Adding an action appends it at the end and changes nothing else. |
| Gestures.Driver.constructor | src/test/java/com/base/automation/interactions/TapOn.java:29-30 | A session starts with the given window size and nothing performed. |
| Gestures.Driver.Perform | src/test/java/com/base/automation/interactions/TapOn.java:52 | Performing appends the tracks as one gesture to the session log. |
| Gestures.ReplayAppend | src/test/java/com/base/automation/interactions/DoubleTap.java:49-60 | Replaying a concatenation of actions replays the second part from where the first left the pointer. |
| Gestures.StrokeReplay | src/test/java/com/base/automation/interactions/Scroll.java:126-129 | move(0, start), down, move(duration, end), up presses once at start, releases once at end, and lasts `duration`. |
| Gestures.PressReplay | src/test/java/com/base/automation/interactions/TapOn.java:47-50 | move(0, p), down, pause(hold), up presses and releases once at p and lasts `hold`. |
| TapOn.PerformAs | src/test/java/com/base/automation/interactions/TapOn.java:28-53 | A missing element fails with its name and submits nothing; otherwise exactly one single-track gesture (move to centre, down, 100 ms pause, up) is appended to the session log. |
| TapOn.TapTouchesCenter | src/test/java/com/base/automation/interactions/TapOn.java:39-50 | The tap touches down and lifts once, both at the centre, and lasts 100 ms. |
| TapOn.TapPointExample | src/test/java/com/base/automation/interactions/TapOn.java:39-43 | An element at (100, 200) of size 50 x 40 is tapped at (125, 220). |
| LongPress.WithDefaultDuration | src/test/java/com/base/automation/interactions/LongPress.java:29-31 | The one-argument constructor holds for 1000 ms. |
| LongPress.PerformAs | src/test/java/com/base/automation/interactions/LongPress.java:34-54 | A missing element fails and submits nothing; otherwise one gesture pressing at the centre for `pressDuration` is appended. |
| LongPress.PressIsHeld | src/test/java/com/base/automation/interactions/LongPress.java:48-51 | The finger is down at the centre for exactly the press duration and lifts there. |
| DoubleTap.WithDefaultPause | src/test/java/com/base/automation/interactions/DoubleTap.java:29-31 | The one-argument constructor pauses 200 ms between taps. |
| DoubleTap.PerformAs | src/test/java/com/base/automation/interactions/DoubleTap.java:34-63 | A missing element fails and submits nothing; otherwise one eight-action track (tap 50 ms, pause, tap 50 ms, no second move) is appended. |
| DoubleTap.TwoTapsAtCenter | src/test/java/com/base/automation/interactions/DoubleTap.java:49-60 | Presses and releases alternate, two of each, all at the centre; the pointer ends released after 50 + pause + 50 ms. |
| DragTo.WithDefaultDuration | src/test/java/com/base/automation/interactions/DragTo.java:30-32 | The two-argument constructor drags for 1000 ms. |
| DragTo.PerformAs | src/test/java/com/base/automation/interactions/DragTo.java:35-66 | A missing source is reported before a missing destination and neither submits anything; otherwise one stroke from the source centre to the destination centre is appended. |
| DragTo.DropsOnDestination | src/test/java/com/base/automation/interactions/DragTo.java:56-63 | The finger presses on the source centre, releases on the destination centre, and the drag lasts `duration`. |
| Pinch.WithDefaults | src/test/java/com/base/automation/interactions/Pinch.java:37-39 | The two-argument constructor uses 1000 ms and a distance of 100. |
| Pinch.Paths | src/test/java/com/base/automation/interactions/Pinch.java:56-68 | OUT moves finger 2 from centre + (10, 10) to centre + (distance, distance) and IN runs that path backwards; finger 1 mirrors finger 2 through the centre at every endpoint. |
| Pinch.InReversesOut | src/test/java/com/base/automation/interactions/Pinch.java:56-68 | Pinch in runs exactly pinch out's finger paths backwards. |
| Pinch.OutSpreadsInGathers | src/test/java/com/base/automation/interactions/Pinch.java:56-68 | With a distance above 10, pinch out ends with the fingers further apart than they started and pinch in ends with them closer. |
| Pinch.PerformAs | src/test/java/com/base/automation/interactions/Pinch.java:42-89 | A missing element fails and submits nothing; otherwise one gesture with two tracks, "finger1" then "finger2", each a stroke along its path, is appended. |
| Pinch.FingersTouchTheirPaths | src/test/java/com/base/automation/interactions/Pinch.java:77-86 | Each finger presses once at its start, releases once at its end, and both last `duration`. |
| Swipe.WithDefaults | src/test/java/com/base/automation/interactions/Swipe.java:34-36 | The one-argument constructor swipes 80% in 500 ms. |
| Swipe.PerformAs | src/test/java/com/base/automation/interactions/Swipe.java:39-56 | One stroke between the window anchor and the window end point is appended; no element is involved. |
| Swipe.SwipeMovesAlongAxis | src/test/java/com/base/automation/interactions/Swipe.java:70-80 | The end differs from the start only along the direction's axis, by `(int)(window extent * percentage)`, signed by direction. |
| Swipe.UpOnPortraitPhone | src/test/java/com/base/automation/interactions/Swipe.java:58-80 | On a 1080 x 1920 window the default UP swipe goes from (540, 1536) to (540, 0). |
| Swipe.DefaultSwipeStaysOnScreen | src/test/java/com/base/automation/interactions/Swipe.java:58-80 | With the default 80% a swipe in any direction ends inside the window. |
| Scroll.WithContainer | src/test/java/com/base/automation/interactions/Scroll.java:38-40 | The two-argument constructor scrolls 70% in 800 ms. |
| Scroll.OnScreen | src/test/java/com/base/automation/interactions/Scroll.java:42-44 | The one-argument constructor is the two-argument one with no container. |
| Scroll.PerformScroll | src/test/java/com/base/automation/interactions/Scroll.java:122-132 | One single-track stroke from start to end in `duration` is appended. |
| Scroll.PerformAs | src/test/java/com/base/automation/interactions/Scroll.java:47-66 | With a container its box alone decides the geometry (an unresolvable one fails and submits nothing); without one the window alone does; exactly one stroke is appended. |
| Scroll.ScrollMovesAlongAxis | src/test/java/com/base/automation/interactions/Scroll.java:83-96 | For a non-negative percentage the end moves backwards for UP/LEFT, forwards for DOWN/RIGHT, by exactly the truncated distance, and not at all across. |
| Scroll.DefaultScrollStaysInContainer | src/test/java/com/base/automation/interactions/Scroll.java:68-96 | With the default 70% a container scroll ends inside the container. |
| Scroll.UpInContainerExample | src/test/java/com/base/automation/interactions/Scroll.java:68-96 | A container at (0, 100) of size 400 x 1000 scrolled UP goes from (200, 900) to (200, 200). |
| ScrollUntil.WithCondition | src/test/java/com/base/automation/interactions/ScrollUntil.java:52-55 | The three-argument constructor uses the window, 80%, 200 ms, 10 attempts and 200 ms between scrolls. |
| ScrollUntil.UntilVisible | src/test/java/com/base/automation/interactions/ScrollUntil.java:57-59 | The two-argument constructor waits for ELEMENT_VISIBLE. |
| ScrollUntil.FactoriesFixDirectionAndCondition | src/test/java/com/base/automation/interactions/ScrollUntil.java:197-237 | Each factory is the three-argument constructor with its own direction and condition. |
| ScrollUntil.DownToFindIn | src/test/java/com/base/automation/interactions/ScrollUntil.java:214-216 | downToFind with a container looks for the given element, scrolling DOWN inside the container, 50% in 600 ms, 10 attempts, 500 ms apart. |
| ScrollUntil.UpToFindIn | src/test/java/com/base/automation/interactions/ScrollUntil.java:218-220 | upToFind with a container is downToFind with a container, upward. |
| ScrollUntil.IsConditionMet | src/test/java/com/base/automation/interactions/ScrollUntil.java:99-112 | VISIBLE holds iff the element resolves and is displayed, CLICKABLE iff also enabled, DISAPPEARS iff it does not resolve. |
| ScrollUntil.SingleScroll | src/test/java/com/base/automation/interactions/ScrollUntil.java:114-128 | One attempt submits at most one gesture, and exactly one when scrolling the window. |
| ScrollUntil.SingleScrollGesture | src/test/java/com/base/automation/interactions/ScrollUntil.java:114-182 | With a container its box alone decides the gesture, whatever the window; an unresolved container raises with nothing sent; otherwise the one gesture is a stroke from the box's (or window's) start anchor moved along the axis by `(int)(extent * percentage)`, raising iff the session rejects it. |
| ScrollUntil.PerformSingleScroll | src/test/java/com/base/automation/interactions/ScrollUntil.java:114-128 | The attempt raises, and appends gestures to the log, exactly as `SingleScroll` says. |
| ScrollUntil.PerformAs | src/test/java/com/base/automation/interactions/ScrollUntil.java:62-97 | The loop ends with the outcome of the reference run `RunAll` and appends exactly the gestures that run submits. |
| ScrollUntil.StopsAtFirstMet | src/test/java/com/base/automation/interactions/ScrollUntil.java:66-69 | If the condition first holds at check k, the run succeeds after k attempts and at most k gestures (exactly k on the window). |
| ScrollUntil.FoundAfterThreeScrolls | src/test/java/com/base/automation/interactions/ScrollUntil.java:62-97 | downToFind on a target displayed only after three scrolls submits exactly three gestures and succeeds. |
| ScrollUntil.AttemptsBounded | src/test/java/com/base/automation/interactions/ScrollUntil.java:66-96 | At most maxScrollAttempts attempts (none if it is not positive), at most one gesture each; a failure is ScrollFailed or names maxScrollAttempts and the direction. |
| ScrollUntil.NoAttemptsAllowed | src/test/java/com/base/automation/interactions/ScrollUntil.java:66-96 | With maxScrollAttempts <= 0 nothing is scrolled and the single final check decides. |
| ScrollUntil.NonFinalFailureSwallowed | src/test/java/com/base/automation/interactions/ScrollUntil.java:71-80 | Changing what happens to the scroll of any attempt but the last does not change the outcome or the number of attempts. |
| ScrollUntil.ScrollFailsOnlyOnLastAttempt | src/test/java/com/base/automation/interactions/ScrollUntil.java:71-80 | The run fails on a scroll iff it reaches the last attempt, that check fails, and that scroll raises; it has then made maxScrollAttempts attempts. |
| ScrollUntil.InterruptEndsLoop | src/test/java/com/base/automation/interactions/ScrollUntil.java:82-96 | An interrupted sleep after attempt k ends the loop; the final check alone then decides success or a ConditionNotMet error. |
| ScrollUntil.FinalCheckDecides | src/test/java/com/base/automation/interactions/ScrollUntil.java:90-96 | When every iteration runs, the final check decides: success iff the condition holds, else an error naming maxScrollAttempts and the direction. |
| ScrollUntil.ToDraft | src/test/java/com/base/automation/interactions/ScrollUntil.java:294-299 | The builder fields that produce a configuration hold its target. |
| ScrollUntil.BuildDraft | src/test/java/com/base/automation/interactions/ScrollUntil.java:294-300 | `build()` fails with "target required" iff no target is set; otherwise it carries every builder field over unchanged. |
| ScrollUntil.BuildsBack | src/test/java/com/base/automation/interactions/ScrollUntil.java:294-299 | Building the builder fields of any configuration gives that configuration back. |
| ScrollUntil.DefaultBuildWaitsLess | src/test/java/com/base/automation/interactions/ScrollUntil.java:245-252 | A builder given only a target builds the three-argument constructor's configuration except 80 ms between scrolls instead of 200. |
| ScrollUntil.ScrollUntilBuilder.constructor | src/test/java/com/base/automation/interactions/ScrollUntil.java:245-252 | A fresh builder holds DOWN, no target, VISIBLE, no container, 80%, 200 ms, 10 attempts, 80 ms. |
| ScrollUntil.ScrollUntilBuilder.WithDirection | src/test/java/com/base/automation/interactions/ScrollUntil.java:254-257 | Sets the direction only and returns the same builder. |
| ScrollUntil.ScrollUntilBuilder.Target | src/test/java/com/base/automation/interactions/ScrollUntil.java:259-262 | Sets the target only and returns the same builder. |
| ScrollUntil.ScrollUntilBuilder.Condition | src/test/java/com/base/automation/interactions/ScrollUntil.java:264-267 | Sets the condition only and returns the same builder. |
| ScrollUntil.ScrollUntilBuilder.InContainer | src/test/java/com/base/automation/interactions/ScrollUntil.java:269-272 | Sets the container only and returns the same builder. |
| ScrollUntil.ScrollUntilBuilder.ScrollPercentage | src/test/java/com/base/automation/interactions/ScrollUntil.java:274-277 | Sets the percentage only and returns the same builder. |
| ScrollUntil.ScrollUntilBuilder.Duration | src/test/java/com/base/automation/interactions/ScrollUntil.java:279-282 | Sets the scroll duration only and returns the same builder. |
| ScrollUntil.ScrollUntilBuilder.MaxAttempts | src/test/java/com/base/automation/interactions/ScrollUntil.java:284-287 | Sets the attempt limit only and returns the same builder. |
| ScrollUntil.ScrollUntilBuilder.WaitBetween | src/test/java/com/base/automation/interactions/ScrollUntil.java:289-292 | Sets the wait between scrolls only and returns the same builder. |
| ScrollUntil.ScrollUntilBuilder.Build | src/test/java/com/base/automation/interactions/ScrollUntil.java:294-300 | Builds what `BuildDraft` gives for the current fields; it fails iff no target is set. |
| ScrollUntil.BuilderExample | src/test/java/com/base/automation/interactions/ScrollUntil.java:240-300 | `builder().target(t).build()` succeeds with the 80 ms default configuration. |
| Wait.WithTarget | src/test/java/com/base/automation/interactions/Wait.java:42-44 | The three-argument constructor has no expected text. |
| Wait.Targetless | src/test/java/com/base/automation/interactions/Wait.java:46-48 | The two-argument constructor has neither target nor text. |
| Wait.Sleep | src/test/java/com/base/automation/interactions/Wait.java:50-52 | The one-argument constructor is FIXED_TIME with no target. |
| Wait.PerformAs | src/test/java/com/base/automation/interactions/Wait.java:54-131 | Exactly one handler runs, chosen by the condition: it polls iff an element condition has its target (and TEXT its text), then for its own condition on that target with the timeout; FIXED_TIME sleeps the timeout unless interrupted, which raises. |
| Wait.MissingTargetRaises | src/test/java/com/base/automation/interactions/Wait.java:70-118 | An element condition without a target raises before polling: TEXT with its own error, the others naming the condition. |
| Wait.MissingTextRaises | src/test/java/com/base/automation/interactions/Wait.java:115-118 | TEXT_TO_BE_PRESENT without expected text raises. |
| Wait.OnlySleepIsInterrupted | src/test/java/com/base/automation/interactions/Wait.java:59-67 | An interrupt changes nothing for an element condition. |
| Wait.TargetlessOnlySleeps | src/test/java/com/base/automation/interactions/Wait.java:46-48 | The targetless constructor fails its handler's check for every condition but FIXED_TIME. |
| Wait.ForSeconds | src/test/java/com/base/automation/interactions/Wait.java:134-136 | A FIXED_TIME wait with no target of 1000 ms per second. |
| Wait.ForMillis | src/test/java/com/base/automation/interactions/Wait.java:138-140 | A FIXED_TIME wait with no target of the given milliseconds. |
| Wait.ForMinutes | src/test/java/com/base/automation/interactions/Wait.java:142-144 | A FIXED_TIME wait with no target of 60000 ms per minute. |
| Wait.FixedFactoriesSleep | src/test/java/com/base/automation/interactions/Wait.java:124-144 | The fixed-time factories sleep exactly their duration without a target, and raise when interrupted. |
| Wait.UntilTextAppearsWithin | src/test/java/com/base/automation/interactions/Wait.java:191-193 | TEXT_TO_BE_PRESENT with the element, the text and the timeout. |
| Wait.UntilTextAppears | src/test/java/com/base/automation/interactions/Wait.java:187-189 | The same with the 10 s default timeout. |
| Wait.ElementFactoriesPoll | src/test/java/com/base/automation/interactions/Wait.java:147-193 | Every element factory passes its handler's checks and polls its own condition on the element, for 10 s unless a timeout is given. |
| Wait.WaitBuilder.constructor | src/test/java/com/base/automation/interactions/Wait.java:201-204 | A fresh builder holds FIXED_TIME, no target, 10 s, no text. |
| Wait.WaitBuilder.Condition | src/test/java/com/base/automation/interactions/Wait.java:206-209 | Sets the condition only and returns the same builder. |
| Wait.WaitBuilder.Target | src/test/java/com/base/automation/interactions/Wait.java:211-214 | Sets the target only and returns the same builder. |
| Wait.WaitBuilder.Timeout | src/test/java/com/base/automation/interactions/Wait.java:216-219 | Sets the timeout only and returns the same builder. |
| Wait.WaitBuilder.TimeoutSeconds | src/test/java/com/base/automation/interactions/Wait.java:221-224 | Sets the timeout to 1000 ms per second only. |
| Wait.WaitBuilder.TimeoutMillis | src/test/java/com/base/automation/interactions/Wait.java:226-229 | Sets the timeout in milliseconds only. |
| Wait.WaitBuilder.Text | src/test/java/com/base/automation/interactions/Wait.java:231-234 | Sets the expected text only and returns the same builder. |
| Wait.WaitBuilder.Build | src/test/java/com/base/automation/interactions/Wait.java:236-238 | Builds exactly the current fields and does no check; the handlers check at `performAs`. |
| Wait.BuildWithoutTarget | src/test/java/com/base/automation/interactions/Wait.java:196-238 | A builder with an element condition and no target builds, and the wait then raises when performed. |

## Left out

- Java `int` overflow: coordinates, sizes, distances and durations are unbounded integers; a 32-bit wrap-around of `x + w/2` or of `center - distance` is not modelled, nor does `Trunc` saturate at `Integer.MIN_VALUE`/`MAX_VALUE` or map NaN to 0 as Java's `(int)` cast of a double does.
- Floating point: `extent * percentage` is computed on exact reals and then truncated; the IEEE-754 rounding of the product is not modelled, so a product that rounds across an integer could differ by one pixel.
- Negative durations and negative counts (`Duration.ofMillis(-1)`, `forSeconds(-1)`) are excluded by typing durations as natural numbers; `Thread.sleep` would reject them at run time.
- `new Sequence(finger, 1)` pads the sequence with pauses up to length 1 inside the Selenium library; the model records only the actions the interactions add.
- Element resolution, `isDisplayed`, `isEnabled`, the window size and `driver.perform` are outside calls: their results are parameters (a box or None, a probe, the driver's `window`), and `perform` appends to a log.
- TapOn, LongPress, DoubleTap, DragTo, Pinch, Swipe and Scroll: a session that rejects a submitted gesture (an exception from `perform`) is not modelled; only ScrollUntil, which reacts to it, models rejection.
- Scroll.PerformAs: an unresolvable container is reported as `ElementNotFound(container)`; the source lets the resolution exception propagate, with that exception's own message.
- Error messages are reduced to their cause (`ElementNotFound(name)`, `ScrollFailed`, `ConditionNotMet(maxScrollAttempts, direction)`, `TargetRequired`, `NoTarget(condition)`, `NoTargetOrText`, `Interrupted`); the Spanish and English message texts and the `System.err` log line are not modelled.
- ScrollUntil.PerformAs: `Thread.currentThread().interrupt()` re-setting the thread's interrupt flag is not modelled; the interrupt is an input that only ends the loop. The same holds for Wait's fixed-time sleep.
- ScrollUntil.IsConditionMet: any exception while resolving or querying the target counts as "not resolved"; an exception thrown by `isDisplayed` on a resolved element is folded into `Unresolved`.
- ScrollUntil.PerformAs: the sleep of `waitBetweenScrolls` between attempts is not recorded in the run; only whether it is interrupted is an input, and the field is otherwise unused by the model.
- ScrollUntil.PerformAs: the window size is read once and stays fixed for the whole run; the source reads it again on every attempt, so a window that changes between attempts (a rotation) is not modelled.
- ScrollUntil.PerformAs: a null target in a built configuration is not modelled; the builder refuses it, and the constructors take the target as given, so probes cover what its checks observe.
- Wait: the polling (`WebDriverWait.until` with `ExpectedConditions`) is library code; `PerformAs` returns the expectation it would poll and the timeout, not whether it times out. The ELEMENT_PRESENT handler looks the target's CSS or XPath selector up as an element id. A target is one `Locator` value standing for the target object, so this is modelled as `PresenceById(target)`; the distinction between a target's printed name and its selector string, and the effect of the id lookup on a real screen, are not modelled.
- The per-file `Direction` enums of Scroll, Swipe and ScrollUntil are one `Direction` type here; they have the same four values.
- The Scroll and Swipe direction factories (`Scroll.up()`, `Swipe.up(percentage, duration)`, and so on) are the datatype constructors and `WithContainer`/`WithDefaults` applied to a direction; the DoubleTap, LongPress, DragTo and Pinch factories likewise. Serenity's `instrumented` wrapper is not modelled.
- The simple ScrollUntil and Wait factory functions (`DownToFind`, `UntilVisible`, ...) carry no contract of their own; their configurations are stated by `FactoriesFixDirectionAndCondition` and `ElementFactoriesPoll`.
