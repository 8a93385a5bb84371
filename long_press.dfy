/** LongPress: press and hold at the centre of the target element. */
module LongPress {
  import opened Wrappers
  import opened Geometry
  import opened Gestures

  datatype LongPress = LongPress(target: Locator, pressDuration: Millis)

  /** `LongPress(target)`: the press is held one second. */
  function WithDefaultDuration(target: Locator): (p: LongPress)
    ensures p.target == target && p.pressDuration == 1000
  {
    LongPress(target, 1000)
  }

  /**
   * One "finger" track: move to the centre, press, hold `pressDuration`,
   * release, in a single submission; a missing element fails first.
   */
  method PerformAs(p: LongPress, driver: Driver, element: Option<Rect>) returns (outcome: Outcome)
    modifies driver`performed
    ensures element.None? ==> outcome == Failed(ElementNotFound(p.target)) && driver.performed == old(driver.performed)
    ensures element.Some? ==>
      && outcome == Completed
      && driver.performed == old(driver.performed) + [[Track(Finger, Press(Center(element.value), p.pressDuration))]]
  {
    if element.None? {
      return Failed(ElementNotFound(p.target));
    }
    var center := Center(element.value);

    var longPressSequence := new Sequence(Finger);
    longPressSequence.AddAction(PointerMove(0, center.x, center.y));
    longPressSequence.AddAction(PointerDown);
    longPressSequence.AddAction(Pause(p.pressDuration));
    longPressSequence.AddAction(PointerUp);

    assert longPressSequence.actions == Press(center, p.pressDuration);
    driver.Perform([longPressSequence.ToTrack()]);
    return Completed;
  }

  /** The finger stays down at the centre for exactly the press duration, then lifts there. */
  lemma PressIsHeld(p: LongPress, box: Rect)
    ensures Replay(Press(Center(box), p.pressDuration), Idle)
         == Some(Contact(Center(box), false, [Center(box)], [Center(box)], p.pressDuration))
  {
    PressReplay(Center(box), p.pressDuration, Idle);
    assert Idle.presses + [Center(box)] == [Center(box)];
  }
}
