/** Scroll: one finger moving inside a container element, or across the whole window. */
module Scroll {
  import opened Wrappers
  import opened Geometry
  import opened Gestures

  datatype Scroll = Scroll(direction: Direction, container: Option<Locator>, scrollPercentage: real, duration: Millis)

  /** `Scroll(direction, container)`: 70% of the extent in 800 ms; a null container means the window. */
  function WithContainer(direction: Direction, container: Option<Locator>): (s: Scroll)
    ensures s.direction == direction && s.container == container
    ensures s.scrollPercentage == 0.7 && s.duration == 800
  {
    Scroll(direction, container, 0.7, 800)
  }

  /** `Scroll(direction)`: the window, 70% of its extent in 800 ms. */
  function OnScreen(direction: Direction): (s: Scroll)
    ensures s == WithContainer(direction, None)
  {
    Scroll(direction, None, 0.7, 800)
  }

  /** Submits move(0, start), down, move(duration, end), up as one "finger" track. */
  method PerformScroll(driver: Driver, startPoint: Point, endPoint: Point, duration: Millis)
    modifies driver`performed
    ensures driver.performed == old(driver.performed) + [[Track(Finger, Stroke(startPoint, endPoint, duration))]]
  {
    var scrollSequence := new Sequence(Finger);
    scrollSequence.AddAction(PointerMove(0, startPoint.x, startPoint.y));
    scrollSequence.AddAction(PointerDown);
    scrollSequence.AddAction(PointerMove(duration, endPoint.x, endPoint.y));
    scrollSequence.AddAction(PointerUp);

    assert scrollSequence.actions == Stroke(startPoint, endPoint, duration);
    driver.Perform([scrollSequence.ToTrack()]);
  }

  /**
   * With a container, its box (`containerBox`, None when it cannot be
   * resolved) alone decides the geometry; without one, the window size alone
   * does. An unresolvable container fails before anything is submitted.
   */
  method PerformAs(s: Scroll, driver: Driver, containerBox: Option<Rect>) returns (outcome: Outcome)
    modifies driver`performed
    ensures s.container.Some? && containerBox.None? ==>
      outcome == Failed(ElementNotFound(s.container.value)) && driver.performed == old(driver.performed)
    ensures s.container.Some? && containerBox.Some? ==>
      var b := containerBox.value;
      var start := ElementStart(b, s.direction);
      && outcome == Completed
      && driver.performed == old(driver.performed)
         + [[Track(Finger, Stroke(start, ElementEnd(b, start, s.direction, s.scrollPercentage), s.duration))]]
    ensures s.container.None? ==>
      var start := ScreenStart(driver.window, s.direction);
      && outcome == Completed
      && driver.performed == old(driver.performed)
         + [[Track(Finger, Stroke(start, ScreenEnd(driver.window, start, s.direction, s.scrollPercentage), s.duration))]]
  {
    var startPoint, endPoint;
    if s.container.Some? {
      if containerBox.None? {
        return Failed(ElementNotFound(s.container.value));
      }
      var element := containerBox.value;
      startPoint := ElementStart(element, s.direction);
      endPoint := ElementEnd(element, startPoint, s.direction, s.scrollPercentage);
    } else {
      var screenSize := driver.window;
      startPoint := ScreenStart(screenSize, s.direction);
      endPoint := ScreenEnd(screenSize, startPoint, s.direction, s.scrollPercentage);
    }
    PerformScroll(driver, startPoint, endPoint, s.duration);
    return Completed;
  }

  /**
   * The end point differs from the start only on the direction's axis, and
   * there by exactly the scroll distance: subtracted for UP and LEFT, added
   * for DOWN and RIGHT.
   */
  lemma ScrollMovesAlongAxis(s: Scroll, b: Rect)
    requires 0.0 <= s.scrollPercentage
    ensures var start := ElementStart(b, s.direction);
            var end := ElementEnd(b, start, s.direction, s.scrollPercentage);
            && Across(end, s.direction) == Across(start, s.direction)
            && (s.direction == Up || s.direction == Left ==> Along(end, s.direction) <= Along(start, s.direction))
            && (s.direction == Down || s.direction == Right ==> Along(end, s.direction) >= Along(start, s.direction))
            && (if Along(end, s.direction) <= Along(start, s.direction)
                then Along(start, s.direction) - Along(end, s.direction)
                else Along(end, s.direction) - Along(start, s.direction))
               == Scaled(Extent(b, s.direction), s.scrollPercentage)
  {
    var e := Extent(b, s.direction);
    assert 0.0 <= e as real * s.scrollPercentage;
  }

  /** With the default 70% a scroll inside a container ends inside that container. */
  lemma DefaultScrollStaysInContainer(direction: Direction, container: Locator, b: Rect)
    ensures var s := WithContainer(direction, Some(container));
            InBox(ElementEnd(b, ElementStart(b, direction), direction, s.scrollPercentage), b)
  {
    EndStaysInBox(b, direction, 0.7);
  }

  /** A container at (0, 100) of size 400 x 1000 scrolled UP by default goes from (200, 900) to (200, 200). */
  lemma UpInContainerExample()
    ensures var b, s := Rect(0, 100, 400, 1000), WithContainer(Up, Some("list"));
            var start := ElementStart(b, Up);
            start == Point(200, 900) && ElementEnd(b, start, Up, s.scrollPercentage) == Point(200, 200)
  {
  }
}
