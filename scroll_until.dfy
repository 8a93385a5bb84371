/**
 * ScrollUntil: scroll repeatedly, up to `maxScrollAttempts` times, until a
 * stop condition on a target element holds, then check the condition once
 * more.
 *
 * The session and the clock are oracles: `probes[i]` is what the i-th
 * condition check observes, and `envs[a]` says, for attempt `a`, what the
 * container resolves to, whether the session rejects the gesture, and
 * whether the sleep after it is interrupted.
 */
module ScrollUntil {
  import opened Wrappers
  import opened Geometry
  import opened Gestures
  import Scroll

  datatype StopCondition = ElementVisible | ElementClickable | ElementDisappears

  datatype ScrollUntil = ScrollUntil(
    direction: Direction,
    targetElement: Locator,
    condition: StopCondition,
    container: Option<Locator>,
    scrollPercentage: real,
    scrollDuration: Millis,
    maxScrollAttempts: int,
    waitBetweenScrolls: Millis)

  /** `ScrollUntil(direction, target, condition)`: the window, 80%, 200 ms, 10 attempts, 200 ms apart. */
  function WithCondition(direction: Direction, target: Locator, condition: StopCondition): (s: ScrollUntil)
    ensures s.direction == direction && s.targetElement == target && s.condition == condition
    ensures s.container == None && s.scrollPercentage == 0.8 && s.scrollDuration == 200
    ensures s.maxScrollAttempts == 10 && s.waitBetweenScrolls == 200
  {
    ScrollUntil(direction, target, condition, None, 0.8, 200, 10, 200)
  }

  /** `ScrollUntil(direction, target)`: until the target is visible. */
  function UntilVisible(direction: Direction, target: Locator): (s: ScrollUntil)
    ensures s == WithCondition(direction, target, ElementVisible)
  {
    WithCondition(direction, target, ElementVisible)
  }

  // The factories: each fixes a direction and a stop condition.
  function DownToFind(target: Locator): ScrollUntil { WithCondition(Down, target, ElementVisible) }
  function UpToFind(target: Locator): ScrollUntil { WithCondition(Up, target, ElementVisible) }
  function LeftToFind(target: Locator): ScrollUntil { WithCondition(Left, target, ElementVisible) }
  function RightToFind(target: Locator): ScrollUntil { WithCondition(Right, target, ElementVisible) }
  function DownUntilClickable(target: Locator): ScrollUntil { WithCondition(Down, target, ElementClickable) }
  function UpUntilClickable(target: Locator): ScrollUntil { WithCondition(Up, target, ElementClickable) }
  function DownUntilDisappears(target: Locator): ScrollUntil { WithCondition(Down, target, ElementDisappears) }
  function UpUntilDisappears(target: Locator): ScrollUntil { WithCondition(Up, target, ElementDisappears) }

  /** Each factory fixes its direction and condition and keeps the three-argument constructor's defaults. */
  lemma FactoriesFixDirectionAndCondition(target: Locator)
    ensures DownToFind(target) == UntilVisible(Down, target)
    ensures UpToFind(target) == UntilVisible(Up, target)
    ensures LeftToFind(target) == UntilVisible(Left, target)
    ensures RightToFind(target) == UntilVisible(Right, target)
    ensures DownUntilClickable(target) == UntilVisible(Down, target).(condition := ElementClickable)
    ensures UpUntilClickable(target) == UntilVisible(Up, target).(condition := ElementClickable)
    ensures DownUntilDisappears(target) == UntilVisible(Down, target).(condition := ElementDisappears)
    ensures UpUntilDisappears(target) == UntilVisible(Up, target).(condition := ElementDisappears)
  {
  }

  /** `downToFind(element, container)`: inside the container, 50% in 600 ms, 10 attempts, 500 ms apart. */
  function DownToFindIn(target: Locator, container: Locator): (s: ScrollUntil)
    ensures s.direction == Down && s.targetElement == target && s.condition == ElementVisible
    ensures s.container == Some(container)
    ensures s.scrollPercentage == 0.5 && s.scrollDuration == 600
    ensures s.maxScrollAttempts == 10 && s.waitBetweenScrolls == 500
  {
    ScrollUntil(Down, target, ElementVisible, Some(container), 0.5, 600, 10, 500)
  }

  /** `upToFind(element, container)`: as DownToFindIn, upward. */
  function UpToFindIn(target: Locator, container: Locator): (s: ScrollUntil)
    ensures s == DownToFindIn(target, container).(direction := Up)
  {
    ScrollUntil(Up, target, ElementVisible, Some(container), 0.5, 600, 10, 500)
  }

  /**
   * What one condition check observes: the target could not be resolved
   * (any exception while resolving or querying it), or it resolved with
   * the given displayed and enabled states.
   */
  datatype Probe = Unresolved | Resolved(displayed: bool, enabled: bool)

  /**
   * VISIBLE holds iff the element resolved and is displayed, CLICKABLE iff
   * it resolved, is displayed and is enabled, DISAPPEARS iff it did not
   * resolve.
   */
  function IsConditionMet(condition: StopCondition, probe: Probe): (met: bool)
    ensures condition == ElementVisible ==> (met <==> probe.Resolved? && probe.displayed)
    ensures condition == ElementClickable ==> (met <==> probe.Resolved? && probe.displayed && probe.enabled)
    ensures condition == ElementDisappears ==> (met <==> probe.Unresolved?)
  {
    match probe
    case Resolved(displayed, enabled) =>
      (match condition
       case ElementVisible => displayed
       case ElementClickable => displayed && enabled
       case ElementDisappears => false)
    case Unresolved => condition == ElementDisappears
  }

  /** What the session and the clock do during one attempt. */
  datatype AttemptEnv = AttemptEnv(containerBox: Option<Rect>, rejected: bool, interrupted: bool)

  /** The number of loop iterations `maxScrollAttempts` allows. */
  function Bound(s: ScrollUntil): nat {
    if s.maxScrollAttempts <= 0 then 0 else s.maxScrollAttempts
  }

  /** The gestures one scroll attempt submitted, and whether it raised. */
  datatype ScrollStep = ScrollStep(sent: seq<seq<Track>>, raised: bool)

  /**
   * One scroll: with a container, its box decides the geometry and a
   * container that does not resolve raises before anything is submitted;
   * without one, the window does. A submitted gesture that the session
   * rejects raises too.
   */
  function SingleScroll(s: ScrollUntil, window: Dimension, env: AttemptEnv): (step: ScrollStep)
    ensures |step.sent| <= 1
    ensures s.container.None? ==> |step.sent| == 1
  {
    if s.container.Some? then
      match env.containerBox
      case None => ScrollStep([], true)
      case Some(b) =>
        var start := ElementStart(b, s.direction);
        var end := ElementEnd(b, start, s.direction, s.scrollPercentage);
        ScrollStep([[Track(Finger, Stroke(start, end, s.scrollDuration))]], env.rejected)
    else
      var start := ScreenStart(window, s.direction);
      var end := ScreenEnd(window, start, s.direction, s.scrollPercentage);
      ScrollStep([[Track(Finger, Stroke(start, end, s.scrollDuration))]], env.rejected)
  }

  /**
   * The gesture of one attempt: with a container, the container's box alone
   * decides it (the window plays no part); without one, the window's box
   * does. Either way it is one stroke from the box's start anchor to the
   * point moved along the direction's axis by `(int)(extent * percentage)`.
   * It raises when the container does not resolve, or when the session
   * rejects the gesture.
   */
  lemma SingleScrollGesture(s: ScrollUntil, window: Dimension, otherWindow: Dimension, env: AttemptEnv)
    ensures s.container.Some? ==> SingleScroll(s, window, env) == SingleScroll(s, otherWindow, env)
    ensures s.container.Some? && env.containerBox.None? ==> SingleScroll(s, window, env) == ScrollStep([], true)
    ensures s.container.None? || env.containerBox.Some? ==>
      var box := if s.container.Some? then env.containerBox.value else ScreenBox(window);
      var d := s.direction;
      var start := ElementStart(box, d);
      var end := ElementEnd(box, start, d, s.scrollPercentage);
      && SingleScroll(s, window, env) == ScrollStep([[Track(Finger, Stroke(start, end, s.scrollDuration))]], env.rejected)
      && Across(end, d) == Across(start, d)
      && Along(end, d) == Along(start, d) + Sign(d) * Scaled(Extent(box, d), s.scrollPercentage)
  {
    var start := ScreenStart(window, s.direction);
    ScreenIsOriginBox(window, start, s.direction, s.scrollPercentage);
  }

  /** The result of a run: its outcome, the gestures it submitted, and how many scrolls it attempted. */
  datatype Run = Run(outcome: Outcome, sent: seq<seq<Track>>, attempts: nat)

  /** The check after the loop: success if the condition holds, else an error naming the attempts and direction. */
  function FinalCheck(s: ScrollUntil, probe: Probe, attempts: nat): Run {
    if IsConditionMet(s.condition, probe)
    then Run(Completed, [], attempts)
    else Run(Failed(ConditionNotMet(s.maxScrollAttempts, s.direction)), [], attempts)
  }

  /** Gestures submitted before the rest of a run. */
  function Prepend(sent: seq<seq<Track>>, r: Run): Run {
    r.(sent := sent + r.sent)
  }

  /** The run from the start of iteration `attempt` (`attempt` checks made so far). */
  function RunFrom(s: ScrollUntil, window: Dimension, probes: seq<Probe>, envs: seq<AttemptEnv>, attempt: nat): Run
    requires |probes| > Bound(s) && |envs| >= Bound(s) && attempt <= Bound(s)
    decreases Bound(s) - attempt
  {
    if attempt >= s.maxScrollAttempts then
      FinalCheck(s, probes[attempt], attempt)
    else if IsConditionMet(s.condition, probes[attempt]) then
      Run(Completed, [], attempt)
    else
      var step := SingleScroll(s, window, envs[attempt]);
      if step.raised && attempt == s.maxScrollAttempts - 1 then
        Run(Failed(ScrollFailed), step.sent, attempt + 1)
      else if envs[attempt].interrupted then
        Prepend(step.sent, FinalCheck(s, probes[attempt + 1], attempt + 1))
      else
        Prepend(step.sent, RunFrom(s, window, probes, envs, attempt + 1))
  }

  /** The whole run of `performAs`. */
  function RunAll(s: ScrollUntil, window: Dimension, probes: seq<Probe>, envs: seq<AttemptEnv>): Run
    requires |probes| > Bound(s) && |envs| >= Bound(s)
  {
    RunFrom(s, window, probes, envs, 0)
  }

  /** One scroll attempt: `performSingleScroll`, which either submits a gesture or raises. */
  method PerformSingleScroll(s: ScrollUntil, driver: Driver, env: AttemptEnv) returns (raised: bool)
    modifies driver`performed
    ensures var step := SingleScroll(s, driver.window, env);
            raised == step.raised && driver.performed == old(driver.performed) + step.sent
  {
    var startPoint, endPoint;
    if s.container.Some? {
      if env.containerBox.None? {
        return true;
      }
      var element := env.containerBox.value;
      startPoint := ElementStart(element, s.direction);
      endPoint := ElementEnd(element, startPoint, s.direction, s.scrollPercentage);
    } else {
      var screenSize := driver.window;
      startPoint := ScreenStart(screenSize, s.direction);
      endPoint := ScreenEnd(screenSize, startPoint, s.direction, s.scrollPercentage);
    }
    Scroll.PerformScroll(driver, startPoint, endPoint, s.scrollDuration);
    return env.rejected;
  }

  /**
   * The retry loop: check, scroll, sleep, for at most `maxScrollAttempts`
   * iterations; a met condition returns at once; a failed scroll is
   * swallowed except on the last attempt; an interrupted sleep leaves the
   * loop; then the condition is checked once more.
   */
  method PerformAs(s: ScrollUntil, driver: Driver, probes: seq<Probe>, envs: seq<AttemptEnv>)
    returns (outcome: Outcome)
    requires |probes| > Bound(s) && |envs| >= Bound(s)
    modifies driver`performed
    ensures var r := RunAll(s, driver.window, probes, envs);
            outcome == r.outcome && driver.performed == old(driver.performed) + r.sent
  {
    ghost var window := driver.window;
    ghost var run := RunAll(s, window, probes, envs);
    ghost var sent: seq<seq<Track>> := [];
    ghost var finalAttempts: nat := 0;
    var checksDone := 0;
    var attempt := 0;
    while attempt < s.maxScrollAttempts
      invariant 0 <= attempt <= Bound(s) && checksDone == attempt && finalAttempts == attempt
      invariant driver.window == window
      invariant driver.performed == old(driver.performed) + sent
      invariant run == Prepend(sent, RunFrom(s, window, probes, envs, attempt))
      decreases s.maxScrollAttempts - attempt
    {
      if IsConditionMet(s.condition, probes[checksDone]) {
        assert sent + [] == sent;
        return Completed;
      }
      checksDone := checksDone + 1;

      ghost var step := SingleScroll(s, window, envs[attempt]);
      var raised := PerformSingleScroll(s, driver, envs[attempt]);
      if raised && attempt == s.maxScrollAttempts - 1 {
        sent := sent + step.sent;
        return Failed(ScrollFailed);
      }
      PrependTwice(sent, step.sent, if envs[attempt].interrupted
                                    then FinalCheck(s, probes[attempt + 1], attempt + 1)
                                    else RunFrom(s, window, probes, envs, attempt + 1));
      sent := sent + step.sent;

      if envs[attempt].interrupted {
        finalAttempts := attempt + 1;
        break;
      }
      attempt := attempt + 1;
      finalAttempts := attempt;
    }

    assert run == Prepend(sent, FinalCheck(s, probes[checksDone], finalAttempts));
    assert sent + [] == sent;
    if !IsConditionMet(s.condition, probes[checksDone]) {
      return Failed(ConditionNotMet(s.maxScrollAttempts, s.direction));
    }
    return Completed;
  }

  lemma PrependTwice(a: seq<seq<Track>>, b: seq<seq<Track>>, r: Run)
    ensures Prepend(a, Prepend(b, r)) == Prepend(a + b, r)
  {
    assert a + (b + r.sent) == (a + b) + r.sent;
  }

  /** Checks i..k-1 all failed and none of the sleeps after them was interrupted. */
  predicate KeptScrolling(s: ScrollUntil, probes: seq<Probe>, envs: seq<AttemptEnv>, i: nat, k: nat)
    requires i <= k && k <= |probes| && k <= |envs|
  {
    forall j :: i <= j < k ==> !IsConditionMet(s.condition, probes[j]) && !envs[j].interrupted
  }

  lemma {:induction false} StopsAtFirstMetFrom(s: ScrollUntil, window: Dimension, probes: seq<Probe>, envs: seq<AttemptEnv>, i: nat, k: nat)
    requires |probes| > Bound(s) && |envs| >= Bound(s)
    requires i <= k < s.maxScrollAttempts
    requires KeptScrolling(s, probes, envs, i, k) && IsConditionMet(s.condition, probes[k])
    ensures var r := RunFrom(s, window, probes, envs, i);
            && r.outcome == Completed && r.attempts == k && |r.sent| <= k - i
            && (s.container.None? ==> |r.sent| == k - i)
    decreases k - i
  {
    if i < k {
      StopsAtFirstMetFrom(s, window, probes, envs, i + 1, k);
    }
  }

  /**
   * If the condition first holds at the check before attempt k, the run
   * succeeds after exactly k scroll attempts and submits at most k gestures
   * (exactly k when scrolling the window).
   */
  lemma StopsAtFirstMet(s: ScrollUntil, window: Dimension, probes: seq<Probe>, envs: seq<AttemptEnv>, k: nat)
    requires |probes| > Bound(s) && |envs| >= Bound(s)
    requires k < s.maxScrollAttempts
    requires KeptScrolling(s, probes, envs, 0, k) && IsConditionMet(s.condition, probes[k])
    ensures var r := RunAll(s, window, probes, envs);
            && r.outcome == Completed && r.attempts == k && |r.sent| <= k
            && (s.container.None? ==> |r.sent| == k)
  {
    StopsAtFirstMetFrom(s, window, probes, envs, 0, k);
  }

  /**
   * `downToFind(target)` where the target is displayed only once three
   * scrolls have been made: exactly three gestures, then success.
   */
  lemma FoundAfterThreeScrolls(target: Locator, window: Dimension, probes: seq<Probe>, envs: seq<AttemptEnv>)
    requires |probes| > 10 && |envs| >= 10
    requires forall j :: 0 <= j < 3 ==> !(probes[j].Resolved? && probes[j].displayed) && !envs[j].interrupted
    requires probes[3].Resolved? && probes[3].displayed
    ensures var r := RunAll(DownToFind(target), window, probes, envs);
            r.outcome == Completed && |r.sent| == 3
  {
    StopsAtFirstMet(DownToFind(target), window, probes, envs, 3);
  }

  lemma {:induction false} BoundedFrom(s: ScrollUntil, window: Dimension, probes: seq<Probe>, envs: seq<AttemptEnv>, i: nat)
    requires |probes| > Bound(s) && |envs| >= Bound(s) && i <= Bound(s)
    ensures var r := RunFrom(s, window, probes, envs, i);
            && i <= r.attempts <= Bound(s) && |r.sent| <= r.attempts - i
            && (r.outcome.Failed? ==>
                  r.outcome.error == ScrollFailed
                  || r.outcome.error == ConditionNotMet(s.maxScrollAttempts, s.direction))
    decreases Bound(s) - i
  {
    if i < s.maxScrollAttempts {
      BoundedFrom(s, window, probes, envs, i + 1);
    }
  }

  /**
   * A run attempts at most `maxScrollAttempts` scrolls (none when it is not
   * positive) and submits at most one gesture per attempt. It either
   * succeeds, fails on a scroll, or fails naming `maxScrollAttempts` and the
   * direction.
   */
  lemma AttemptsBounded(s: ScrollUntil, window: Dimension, probes: seq<Probe>, envs: seq<AttemptEnv>)
    requires |probes| > Bound(s) && |envs| >= Bound(s)
    ensures var r := RunAll(s, window, probes, envs);
            && r.attempts <= Bound(s) && |r.sent| <= r.attempts
            && (r.outcome.Failed? ==>
                  r.outcome.error == ScrollFailed
                  || r.outcome.error == ConditionNotMet(s.maxScrollAttempts, s.direction))
  {
    BoundedFrom(s, window, probes, envs, 0);
  }

  /** With `maxScrollAttempts` <= 0 nothing is scrolled and the one final check decides. */
  lemma NoAttemptsAllowed(s: ScrollUntil, window: Dimension, probes: seq<Probe>, envs: seq<AttemptEnv>)
    requires |probes| > 0 && s.maxScrollAttempts <= 0
    ensures var r := RunAll(s, window, probes, envs);
            && r.attempts == 0 && r.sent == []
            && (r.outcome == Completed <==> IsConditionMet(s.condition, probes[0]))
            && (r.outcome != Completed ==> r.outcome == Failed(ConditionNotMet(s.maxScrollAttempts, s.direction)))
  {
  }

  lemma {:induction false} SwallowedFrom(s: ScrollUntil, window: Dimension, probes: seq<Probe>, envs: seq<AttemptEnv>,
                                         j: nat, e: AttemptEnv, i: nat)
    requires |probes| > Bound(s) && |envs| >= Bound(s) && i <= Bound(s)
    requires j < s.maxScrollAttempts - 1 && e.interrupted == envs[j].interrupted
    ensures var r, r' := RunFrom(s, window, probes, envs, i), RunFrom(s, window, probes, envs[j := e], i);
            r.outcome == r'.outcome && r.attempts == r'.attempts
    decreases Bound(s) - i
  {
    if i < s.maxScrollAttempts {
      SwallowedFrom(s, window, probes, envs, j, e, i + 1);
    }
  }

  /**
   * Whatever happens to the scroll of an attempt other than the last (it
   * succeeds, its container does not resolve, the session rejects it), the
   * run's outcome and its number of attempts are the same: a failure there
   * is swallowed and the loop goes on.
   */
  lemma NonFinalFailureSwallowed(s: ScrollUntil, window: Dimension, probes: seq<Probe>, envs: seq<AttemptEnv>,
                                 j: nat, e: AttemptEnv)
    requires |probes| > Bound(s) && |envs| >= Bound(s)
    requires j < s.maxScrollAttempts - 1 && e.interrupted == envs[j].interrupted
    ensures var r, r' := RunAll(s, window, probes, envs), RunAll(s, window, probes, envs[j := e]);
            r.outcome == r'.outcome && r.attempts == r'.attempts
  {
    SwallowedFrom(s, window, probes, envs, j, e, 0);
  }

  lemma {:induction false} ScrollFailedFrom(s: ScrollUntil, window: Dimension, probes: seq<Probe>, envs: seq<AttemptEnv>, i: nat)
    requires |probes| > Bound(s) && |envs| >= Bound(s) && i <= Bound(s)
    ensures var r := RunFrom(s, window, probes, envs, i);
            && (r.outcome == Failed(ScrollFailed) <==>
                  && i < s.maxScrollAttempts
                  && KeptScrolling(s, probes, envs, i, s.maxScrollAttempts - 1)
                  && !IsConditionMet(s.condition, probes[s.maxScrollAttempts - 1])
                  && SingleScroll(s, window, envs[s.maxScrollAttempts - 1]).raised)
            && (r.outcome == Failed(ScrollFailed) ==> r.attempts == s.maxScrollAttempts)
    decreases Bound(s) - i
  {
    if i < s.maxScrollAttempts {
      BoundedFrom(s, window, probes, envs, i);
      if i + 1 < s.maxScrollAttempts {
        ScrollFailedFrom(s, window, probes, envs, i + 1);
        if !IsConditionMet(s.condition, probes[i]) && !envs[i].interrupted {
          assert KeptScrolling(s, probes, envs, i, s.maxScrollAttempts - 1)
             <==> KeptScrolling(s, probes, envs, i + 1, s.maxScrollAttempts - 1);
        }
      }
    }
  }

  /**
   * The run fails on a scroll exactly when it reaches the last attempt
   * (every earlier check failed and no sleep was interrupted), the check
   * there fails too, and that attempt's scroll raises; it has then made
   * `maxScrollAttempts` attempts and no final check.
   */
  lemma ScrollFailsOnlyOnLastAttempt(s: ScrollUntil, window: Dimension, probes: seq<Probe>, envs: seq<AttemptEnv>)
    requires |probes| > Bound(s) && |envs| >= Bound(s)
    ensures var r := RunAll(s, window, probes, envs);
            && (r.outcome == Failed(ScrollFailed) <==>
                  && 0 < s.maxScrollAttempts
                  && KeptScrolling(s, probes, envs, 0, s.maxScrollAttempts - 1)
                  && !IsConditionMet(s.condition, probes[s.maxScrollAttempts - 1])
                  && SingleScroll(s, window, envs[s.maxScrollAttempts - 1]).raised)
            && (r.outcome == Failed(ScrollFailed) ==> r.attempts == s.maxScrollAttempts)
  {
    ScrollFailedFrom(s, window, probes, envs, 0);
  }

  lemma {:induction false} LoopExitFrom(s: ScrollUntil, window: Dimension, probes: seq<Probe>, envs: seq<AttemptEnv>, i: nat, k: nat)
    requires |probes| > Bound(s) && |envs| >= Bound(s)
    requires i <= k <= Bound(s)
    requires KeptScrolling(s, probes, envs, i, k)
    requires k < s.maxScrollAttempts ==> !IsConditionMet(s.condition, probes[k]) && envs[k].interrupted
    requires 0 < s.maxScrollAttempts && k >= s.maxScrollAttempts - 1 ==> !SingleScroll(s, window, envs[s.maxScrollAttempts - 1]).raised
    ensures var exit := if k < s.maxScrollAttempts then k + 1 else k;
            var r := RunFrom(s, window, probes, envs, i);
            r.attempts == exit && r.outcome == FinalCheck(s, probes[exit], exit).outcome
    decreases k - i
  {
    if i < k {
      LoopExitFrom(s, window, probes, envs, i + 1, k);
    }
  }

  /**
   * An interrupted sleep after attempt k ends the loop: the run then makes
   * the final check, so it succeeds or fails on the condition, never with
   * an interruption.
   */
  lemma InterruptEndsLoop(s: ScrollUntil, window: Dimension, probes: seq<Probe>, envs: seq<AttemptEnv>, k: nat)
    requires |probes| > Bound(s) && |envs| >= Bound(s)
    requires k < s.maxScrollAttempts
    requires KeptScrolling(s, probes, envs, 0, k)
    requires !IsConditionMet(s.condition, probes[k]) && envs[k].interrupted
    requires k == s.maxScrollAttempts - 1 ==> !SingleScroll(s, window, envs[k]).raised
    ensures var r := RunAll(s, window, probes, envs);
            && r.attempts == k + 1
            && (r.outcome == Completed <==> IsConditionMet(s.condition, probes[k + 1]))
            && (r.outcome != Completed ==> r.outcome == Failed(ConditionNotMet(s.maxScrollAttempts, s.direction)))
  {
    LoopExitFrom(s, window, probes, envs, 0, k);
  }

  /**
   * When every iteration runs (no check met, no sleep interrupted, the last
   * scroll did not raise), the final check alone decides: success, or an
   * error naming `maxScrollAttempts` and the direction.
   */
  lemma FinalCheckDecides(s: ScrollUntil, window: Dimension, probes: seq<Probe>, envs: seq<AttemptEnv>)
    requires |probes| > Bound(s) && |envs| >= Bound(s)
    requires KeptScrolling(s, probes, envs, 0, Bound(s))
    requires 0 < s.maxScrollAttempts ==> !SingleScroll(s, window, envs[s.maxScrollAttempts - 1]).raised
    ensures var r := RunAll(s, window, probes, envs);
            && r.attempts == Bound(s)
            && (r.outcome == Completed <==> IsConditionMet(s.condition, probes[Bound(s)]))
            && (r.outcome != Completed ==> r.outcome == Failed(ConditionNotMet(s.maxScrollAttempts, s.direction)))
  {
    LoopExitFrom(s, window, probes, envs, 0, Bound(s));
  }

  /** The builder's fields: every ScrollUntil field, with the target still optional. */
  datatype Draft = Draft(
    direction: Direction,
    targetElement: Option<Locator>,
    condition: StopCondition,
    container: Option<Locator>,
    scrollPercentage: real,
    scrollDuration: Millis,
    maxScrollAttempts: int,
    waitBetweenScrolls: Millis)

  /** A fresh builder: DOWN, no target, VISIBLE, the window, 80%, 200 ms, 10 attempts, 80 ms apart. */
  const DefaultDraft: Draft := Draft(Down, None, ElementVisible, None, 0.8, 200, 10, 80)

  /** The builder's fields that produce `s`. */
  function ToDraft(s: ScrollUntil): (d: Draft)
    ensures d.targetElement == Some(s.targetElement)
  {
    Draft(s.direction, Some(s.targetElement), s.condition, s.container,
          s.scrollPercentage, s.scrollDuration, s.maxScrollAttempts, s.waitBetweenScrolls)
  }

  /** `build()`: refuses a draft without a target, otherwise carries every field over. */
  function BuildDraft(d: Draft): (r: Result<ScrollUntil, Error>)
    ensures r.Failure? <==> d.targetElement.None?
    ensures r.Failure? ==> r.error == TargetRequired
    ensures r.Success? ==> ToDraft(r.value) == d
  {
    match d.targetElement
    case None => Failure(TargetRequired)
    case Some(t) =>
      Success(ScrollUntil(d.direction, t, d.condition, d.container,
                          d.scrollPercentage, d.scrollDuration, d.maxScrollAttempts, d.waitBetweenScrolls))
  }

  /** Building the draft of any ScrollUntil gives it back. */
  lemma BuildsBack(s: ScrollUntil)
    ensures BuildDraft(ToDraft(s)) == Success(s)
  {
  }

  /**
   * A builder given only a target builds the three-argument constructor's
   * configuration, except that it waits 80 ms between scrolls instead of 200.
   */
  lemma DefaultBuildWaitsLess(target: Locator)
    ensures BuildDraft(DefaultDraft.(targetElement := Some(target)))
         == Success(UntilVisible(Down, target).(waitBetweenScrolls := 80))
    ensures UntilVisible(Down, target).waitBetweenScrolls == 200
  {
  }

  /** `ScrollUntil.builder()`: a mutable configuration with fluent setters. */
  class ScrollUntilBuilder {
    var direction: Direction
    var targetElement: Option<Locator>
    var condition: StopCondition
    var container: Option<Locator>
    var scrollPercentage: real
    var scrollDuration: Millis
    var maxScrollAttempts: int
    var waitBetweenScrolls: Millis

    /** The builder's current fields. */
    function Current(): Draft
      reads this
    {
      Draft(direction, targetElement, condition, container,
                        scrollPercentage, scrollDuration, maxScrollAttempts, waitBetweenScrolls)
    }

    constructor ()
      ensures Current() == DefaultDraft
    {
      direction := Down;
      targetElement := None;
      condition := ElementVisible;
      container := None;
      scrollPercentage := 0.8;
      scrollDuration := 200;
      maxScrollAttempts := 10;
      waitBetweenScrolls := 80;
    }

    method WithDirection(direction: Direction) returns (self: ScrollUntilBuilder)
      modifies this
      ensures self == this && Current() == old(Current()).(direction := direction)
    {
      this.direction := direction;
      return this;
    }

    method Target(targetElement: Locator) returns (self: ScrollUntilBuilder)
      modifies this
      ensures self == this && Current() == old(Current()).(targetElement := Some(targetElement))
    {
      this.targetElement := Some(targetElement);
      return this;
    }

    method Condition(condition: StopCondition) returns (self: ScrollUntilBuilder)
      modifies this
      ensures self == this && Current() == old(Current()).(condition := condition)
    {
      this.condition := condition;
      return this;
    }

    method InContainer(container: Locator) returns (self: ScrollUntilBuilder)
      modifies this
      ensures self == this && Current() == old(Current()).(container := Some(container))
    {
      this.container := Some(container);
      return this;
    }

    method ScrollPercentage(scrollPercentage: real) returns (self: ScrollUntilBuilder)
      modifies this
      ensures self == this && Current() == old(Current()).(scrollPercentage := scrollPercentage)
    {
      this.scrollPercentage := scrollPercentage;
      return this;
    }

    method Duration(scrollDuration: Millis) returns (self: ScrollUntilBuilder)
      modifies this
      ensures self == this && Current() == old(Current()).(scrollDuration := scrollDuration)
    {
      this.scrollDuration := scrollDuration;
      return this;
    }

    method MaxAttempts(maxScrollAttempts: int) returns (self: ScrollUntilBuilder)
      modifies this
      ensures self == this && Current() == old(Current()).(maxScrollAttempts := maxScrollAttempts)
    {
      this.maxScrollAttempts := maxScrollAttempts;
      return this;
    }

    method WaitBetween(waitBetweenScrolls: Millis) returns (self: ScrollUntilBuilder)
      modifies this
      ensures self == this && Current() == old(Current()).(waitBetweenScrolls := waitBetweenScrolls)
    {
      this.waitBetweenScrolls := waitBetweenScrolls;
      return this;
    }

    /** `build()`: fails when no target was set, and leaves the builder as it was. */
    method Build() returns (r: Result<ScrollUntil, Error>)
      ensures r == BuildDraft(Current())
      ensures r.Failure? <==> targetElement.None?
    {
      if targetElement.None? {
        return Failure(TargetRequired);
      }
      r := Success(ScrollUntil(direction, targetElement.value, condition, container,
                               scrollPercentage, scrollDuration, maxScrollAttempts, waitBetweenScrolls));
    }
  }

  /** A builder given only a target builds the default draft with that target. */
  method BuilderExample(target: Locator) returns (r: Result<ScrollUntil, Error>)
    ensures r == Success(UntilVisible(Down, target).(waitBetweenScrolls := 80))
  {
    var b := new ScrollUntilBuilder();
    var b2 := b.Target(target);
    r := b2.Build();
    DefaultBuildWaitsLess(target);
  }
}
