/**
 * Wait: pause until an element condition holds or for a fixed time.
 *
 * Only the local logic is modelled: which handler `performAs` runs, the
 * target and text checks each handler makes before waiting, and what it
 * then asks the polling library to wait for. The polling itself, and the
 * sleep, are results rather than effects; whether the sleep is interrupted
 * is a parameter.
 */
module Wait {
  import opened Wrappers
  import opened Gestures

  datatype Condition =
    | ElementVisible
    | ElementClickable
    | ElementPresent
    | ElementInvisible
    | ElementSelected
    | TextToBePresent
    | FixedTime

  datatype Wait = Wait(condition: Condition, target: Option<Locator>, timeout: Millis, expectedText: Option<string>)

  /** The timeout of the single-argument `untilX` factories and of a fresh builder: 10 s. */
  const DefaultTimeout: Millis := 10000

  /** `Wait(condition, target, timeout)`: no expected text. */
  function WithTarget(condition: Condition, target: Option<Locator>, timeout: Millis): (w: Wait)
    ensures w.condition == condition && w.target == target && w.timeout == timeout && w.expectedText == None
  {
    Wait(condition, target, timeout, None)
  }

  /** `Wait(condition, timeout)`: neither target nor text. */
  function Targetless(condition: Condition, timeout: Millis): (w: Wait)
    ensures w == WithTarget(condition, None, timeout)
  {
    Wait(condition, None, timeout, None)
  }

  /** `Wait(timeout)`: a fixed-time wait. */
  function Sleep(timeout: Millis): (w: Wait)
    ensures w == Targetless(FixedTime, timeout)
  {
    Wait(FixedTime, None, timeout, None)
  }

  /** What a handler asks the polling library to wait for. */
  datatype Expectation =
    | VisibilityOf(element: Locator)
    | ClickabilityOf(element: Locator)
    | PresenceById(id: string)
    | InvisibilityOf(element: Locator)
    | SelectionOf(element: Locator)
    | TextIn(element: Locator, text: string)

  /** The condition whose handler asks for an expectation. */
  function HandlerOf(e: Expectation): Condition {
    match e
    case VisibilityOf(_) => ElementVisible
    case ClickabilityOf(_) => ElementClickable
    case PresenceById(_) => ElementPresent
    case InvisibilityOf(_) => ElementInvisible
    case SelectionOf(_) => ElementSelected
    case TextIn(_, _) => TextToBePresent
  }

  /** The locator text an expectation is about. */
  function Subject(e: Expectation): Locator {
    match e
    case VisibilityOf(t) => t
    case ClickabilityOf(t) => t
    case PresenceById(id) => id
    case InvisibilityOf(t) => t
    case SelectionOf(t) => t
    case TextIn(t, _) => t
  }

  datatype WaitError =
    | NoTarget(condition: Condition)
    | NoTargetOrText
    | Interrupted

  /** How `performAs` ends: a poll handed to the library, a completed sleep, or an exception. */
  datatype WaitOutcome =
    | Polled(expectation: Expectation, timeout: Millis)
    | Slept(duration: Millis)
    | Raised(error: WaitError)

  /** Every condition but FIXED_TIME is about an element. */
  predicate NeedsTarget(c: Condition) {
    c != FixedTime
  }

  /** The configuration has what its condition's handler checks for. */
  predicate WellFormed(w: Wait) {
    && (NeedsTarget(w.condition) ==> w.target.Some?)
    && (w.condition == TextToBePresent ==> w.expectedText.Some?)
  }

  /**
   * `performAs`: runs the handler for the condition. Each element handler
   * raises before waiting when the target is missing (TEXT also when the
   * text is missing); PRESENT looks the target's selector up as an element
   * id. FIXED_TIME sleeps for the timeout, or raises when interrupted.
   */
  function PerformAs(w: Wait, interrupted: bool): (r: WaitOutcome)
    ensures r.Polled? <==> NeedsTarget(w.condition) && WellFormed(w)
    ensures r.Polled? ==> HandlerOf(r.expectation) == w.condition
                          && Subject(r.expectation) == w.target.value && r.timeout == w.timeout
    ensures r.Polled? && w.condition == TextToBePresent ==> r.expectation.text == w.expectedText.value
    ensures r.Slept? <==> w.condition == FixedTime && !interrupted
    ensures r.Slept? ==> r.duration == w.timeout
    ensures r == Raised(Interrupted) <==> w.condition == FixedTime && interrupted
    ensures r.Raised? && r.error != Interrupted ==> !WellFormed(w)
  {
    match w.condition
    case FixedTime => if interrupted then Raised(Interrupted) else Slept(w.timeout)
    case TextToBePresent =>
      if w.target.None? || w.expectedText.None? then Raised(NoTargetOrText)
      else Polled(TextIn(w.target.value, w.expectedText.value), w.timeout)
    case _ =>
      if w.target.None? then Raised(NoTarget(w.condition))
      else
        var t := w.target.value;
        var e := match w.condition
          case ElementVisible => VisibilityOf(t)
          case ElementClickable => ClickabilityOf(t)
          case ElementPresent => PresenceById(t)
          case ElementInvisible => InvisibilityOf(t)
          case ElementSelected => SelectionOf(t);
        Polled(e, w.timeout)
  }

  /**
   * An element condition without a target raises naming that condition
   * (TEXT with its own message), before anything is polled and whatever
   * the other fields hold.
   */
  lemma MissingTargetRaises(w: Wait, interrupted: bool)
    requires NeedsTarget(w.condition) && w.target.None?
    ensures PerformAs(w, interrupted)
         == Raised(if w.condition == TextToBePresent then NoTargetOrText else NoTarget(w.condition))
  {
  }

  /** TEXT with a target but no text raises too. */
  lemma MissingTextRaises(w: Wait, interrupted: bool)
    requires w.condition == TextToBePresent && w.expectedText.None?
    ensures PerformAs(w, interrupted) == Raised(NoTargetOrText)
  {
  }

  /**
   * The interrupt only matters to FIXED_TIME: its own sleep is the only one
   * the model can see interrupted; the polling library's sleeps between
   * polls are not modelled.
   */
  lemma OnlySleepIsInterrupted(w: Wait)
    requires w.condition != FixedTime
    ensures PerformAs(w, true) == PerformAs(w, false)
  {
  }

  /** `Wait(condition, timeout)` works only for FIXED_TIME: every other handler finds no target. */
  lemma TargetlessOnlySleeps(condition: Condition, timeout: Millis, interrupted: bool)
    ensures var r := PerformAs(Targetless(condition, timeout), interrupted);
            (r.Raised? && r.error != Interrupted) <==> condition != FixedTime
  {
  }

  // Fixed-time factories; a Java `int` count is taken as non-negative here.

  /** `forSeconds(n)`. */
  function ForSeconds(seconds: nat): (w: Wait)
    ensures w.condition == FixedTime && w.target == None && w.timeout == 1000 * seconds
  {
    Sleep(seconds * 1000)
  }

  /** `forMillis(n)`. */
  function ForMillis(milliseconds: nat): (w: Wait)
    ensures w.condition == FixedTime && w.target == None && w.timeout == milliseconds
  {
    Sleep(milliseconds)
  }

  /** `forMinutes(n)`. */
  function ForMinutes(minutes: nat): (w: Wait)
    ensures w.condition == FixedTime && w.target == None && w.timeout == 60000 * minutes
  {
    Sleep(minutes * 60 * 1000)
  }

  /** A fixed-time factory sleeps exactly its duration unless interrupted, and never needs a target. */
  lemma FixedFactoriesSleep(n: nat)
    ensures PerformAs(ForSeconds(n), false) == Slept(1000 * n)
    ensures PerformAs(ForMillis(n), false) == Slept(n)
    ensures PerformAs(ForMinutes(n), false) == Slept(60000 * n)
    ensures PerformAs(ForSeconds(n), true) == Raised(Interrupted)
  {
  }

  // Element factories: `untilX(element)` waits 10 s, `untilX(element, timeout)` the given time.
  function UntilVisibleWithin(element: Locator, timeout: Millis): Wait { WithTarget(ElementVisible, Some(element), timeout) }
  function UntilClickableWithin(element: Locator, timeout: Millis): Wait { WithTarget(ElementClickable, Some(element), timeout) }
  function UntilPresentWithin(element: Locator, timeout: Millis): Wait { WithTarget(ElementPresent, Some(element), timeout) }
  function UntilInvisibleWithin(element: Locator, timeout: Millis): Wait { WithTarget(ElementInvisible, Some(element), timeout) }
  function UntilSelectedWithin(element: Locator, timeout: Millis): Wait { WithTarget(ElementSelected, Some(element), timeout) }
  function UntilVisible(element: Locator): Wait { UntilVisibleWithin(element, DefaultTimeout) }
  function UntilClickable(element: Locator): Wait { UntilClickableWithin(element, DefaultTimeout) }
  function UntilPresent(element: Locator): Wait { UntilPresentWithin(element, DefaultTimeout) }
  function UntilInvisible(element: Locator): Wait { UntilInvisibleWithin(element, DefaultTimeout) }
  function UntilSelected(element: Locator): Wait { UntilSelectedWithin(element, DefaultTimeout) }

  /** `untilTextAppears(element, text, timeout)`. */
  function UntilTextAppearsWithin(element: Locator, text: string, timeout: Millis): (w: Wait)
    ensures w.condition == TextToBePresent && w.target == Some(element) && w.expectedText == Some(text)
    ensures w.timeout == timeout
  {
    Wait(TextToBePresent, Some(element), timeout, Some(text))
  }

  /** `untilTextAppears(element, text)`. */
  function UntilTextAppears(element: Locator, text: string): (w: Wait)
    ensures w == UntilTextAppearsWithin(element, text, DefaultTimeout)
  {
    Wait(TextToBePresent, Some(element), DefaultTimeout, Some(text))
  }

  /**
   * Every element factory passes its handler's checks: it polls, with the
   * factory's own condition, the element given, and 10 s when no timeout
   * is given.
   */
  lemma ElementFactoriesPoll(element: Locator, text: string, timeout: Millis, interrupted: bool)
    ensures PerformAs(UntilVisible(element), interrupted) == Polled(VisibilityOf(element), DefaultTimeout)
    ensures PerformAs(UntilClickable(element), interrupted) == Polled(ClickabilityOf(element), DefaultTimeout)
    ensures PerformAs(UntilPresent(element), interrupted) == Polled(PresenceById(element), DefaultTimeout)
    ensures PerformAs(UntilInvisible(element), interrupted) == Polled(InvisibilityOf(element), DefaultTimeout)
    ensures PerformAs(UntilSelected(element), interrupted) == Polled(SelectionOf(element), DefaultTimeout)
    ensures PerformAs(UntilTextAppears(element, text), interrupted) == Polled(TextIn(element, text), DefaultTimeout)
    ensures PerformAs(UntilVisibleWithin(element, timeout), interrupted) == Polled(VisibilityOf(element), timeout)
    ensures PerformAs(UntilClickableWithin(element, timeout), interrupted) == Polled(ClickabilityOf(element), timeout)
    ensures PerformAs(UntilPresentWithin(element, timeout), interrupted) == Polled(PresenceById(element), timeout)
    ensures PerformAs(UntilInvisibleWithin(element, timeout), interrupted) == Polled(InvisibilityOf(element), timeout)
    ensures PerformAs(UntilSelectedWithin(element, timeout), interrupted) == Polled(SelectionOf(element), timeout)
    ensures PerformAs(UntilTextAppearsWithin(element, text, timeout), interrupted) == Polled(TextIn(element, text), timeout)
  {
  }

  /** `Wait.builder()`: a mutable configuration; `build()` checks nothing. */
  class WaitBuilder {
    var condition: Condition
    var target: Option<Locator>
    var timeout: Millis
    var expectedText: Option<string>

    /** The configuration the builder would build now. */
    function Current(): Wait
      reads this
    {
      Wait(condition, target, timeout, expectedText)
    }

    /** A fresh builder: FIXED_TIME, no target, 10 s, no text. */
    constructor ()
      ensures Current() == Sleep(DefaultTimeout)
    {
      condition := FixedTime;
      target := None;
      timeout := DefaultTimeout;
      expectedText := None;
    }

    method Condition(condition: Condition) returns (self: WaitBuilder)
      modifies this
      ensures self == this && Current() == old(Current()).(condition := condition)
    {
      this.condition := condition;
      return this;
    }

    method Target(target: Locator) returns (self: WaitBuilder)
      modifies this
      ensures self == this && Current() == old(Current()).(target := Some(target))
    {
      this.target := Some(target);
      return this;
    }

    method Timeout(timeout: Millis) returns (self: WaitBuilder)
      modifies this
      ensures self == this && Current() == old(Current()).(timeout := timeout)
    {
      this.timeout := timeout;
      return this;
    }

    method TimeoutSeconds(seconds: nat) returns (self: WaitBuilder)
      modifies this
      ensures self == this && Current() == old(Current()).(timeout := 1000 * seconds)
    {
      this.timeout := seconds * 1000;
      return this;
    }

    method TimeoutMillis(milliseconds: nat) returns (self: WaitBuilder)
      modifies this
      ensures self == this && Current() == old(Current()).(timeout := milliseconds)
    {
      this.timeout := milliseconds;
      return this;
    }

    method Text(expectedText: string) returns (self: WaitBuilder)
      modifies this
      ensures self == this && Current() == old(Current()).(expectedText := Some(expectedText))
    {
      this.expectedText := Some(expectedText);
      return this;
    }

    /** `build()`: the configuration as set, with no checks; the handlers check at `performAs`. */
    method Build() returns (w: Wait)
      ensures w == Current()
    {
      w := Wait(condition, target, timeout, expectedText);
    }
  }

  /**
   * A builder given an element condition but no target builds without
   * complaint; the wait then raises when performed.
   */
  method BuildWithoutTarget(condition: Condition) returns (r: WaitOutcome)
    requires condition != FixedTime
    ensures r.Raised? && r.error != Interrupted
  {
    var b := new WaitBuilder();
    var b2 := b.Condition(condition);
    var w := b2.Build();
    r := PerformAs(w, false);
  }
}
