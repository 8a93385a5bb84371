/** Swipe: one finger moving across the whole window in a direction. */
module Swipe {
  import opened Geometry
  import opened Gestures

  datatype Swipe = Swipe(direction: Direction, swipePercentage: real, duration: Millis)

  /** `Swipe(direction)`: 80% of the window extent in half a second. */
  function WithDefaults(direction: Direction): (s: Swipe)
    ensures s.direction == direction && s.swipePercentage == 0.8 && s.duration == 500
  {
    Swipe(direction, 0.8, 500)
  }

  /**
   * The geometry always comes from the window size, never from an element:
   * one "finger" track from the window anchor to the anchor moved by the
   * swipe fraction of the window extent, in one submission.
   */
  method PerformAs(s: Swipe, driver: Driver)
    modifies driver`performed
    ensures var start := ScreenStart(driver.window, s.direction);
            var end := ScreenEnd(driver.window, start, s.direction, s.swipePercentage);
            driver.performed == old(driver.performed) + [[Track(Finger, Stroke(start, end, s.duration))]]
  {
    var screenSize := driver.window;
    var startPoint := ScreenStart(screenSize, s.direction);
    var endPoint := ScreenEnd(screenSize, startPoint, s.direction, s.swipePercentage);

    var swipeSequence := new Sequence(Finger);
    swipeSequence.AddAction(PointerMove(0, startPoint.x, startPoint.y));
    swipeSequence.AddAction(PointerDown);
    swipeSequence.AddAction(PointerMove(s.duration, endPoint.x, endPoint.y));
    swipeSequence.AddAction(PointerUp);

    assert swipeSequence.actions == Stroke(startPoint, endPoint, s.duration);
    driver.Perform([swipeSequence.ToTrack()]);
  }

  /**
   * The end point differs from the start only on the direction's axis, by
   * `(int) (extent * swipePercentage)`: minus for UP and LEFT, plus for DOWN
   * and RIGHT.
   */
  lemma SwipeMovesAlongAxis(s: Swipe, screen: Dimension)
    ensures var start := ScreenStart(screen, s.direction);
            var end := ScreenEnd(screen, start, s.direction, s.swipePercentage);
            && Across(end, s.direction) == Across(start, s.direction)
            && Along(end, s.direction)
               == Along(start, s.direction) + Sign(s.direction) * Scaled(Extent(ScreenBox(screen), s.direction), s.swipePercentage)
  {
    var start := ScreenStart(screen, s.direction);
    ScreenIsOriginBox(screen, start, s.direction, s.swipePercentage);
  }

  /** On a 1080 x 1920 window the default upward swipe runs from (540, 1536) to (540, 0). */
  lemma UpOnPortraitPhone()
    ensures var screen, s := Dimension(1080, 1920), WithDefaults(Up);
            var start := ScreenStart(screen, s.direction);
            start == Point(540, 1536) && ScreenEnd(screen, start, s.direction, s.swipePercentage) == Point(540, 0)
  {
  }

  /** With its default fraction a swipe never leaves the window. */
  lemma DefaultSwipeStaysOnScreen(direction: Direction, screen: Dimension)
    ensures var s := WithDefaults(direction);
            InBox(ScreenEnd(screen, ScreenStart(screen, direction), direction, s.swipePercentage), ScreenBox(screen))
  {
    ScreenEndStaysOnScreen(screen, direction, 0.8);
  }
}
