/** TapOn: one short touch at the centre of the target element. */
module TapOn {
  import opened Wrappers
  import opened Geometry
  import opened Gestures

  datatype TapOn = TapOn(target: Locator)

  /** How long the finger stays down. */
  const TapHold: Millis := 100

  /**
   * Resolves the target (`element`, None when it cannot be found), then
   * submits one "finger" track: move to the centre, press, hold 100 ms,
   * release. A missing element fails before anything is submitted.
   */
  method PerformAs(t: TapOn, driver: Driver, element: Option<Rect>) returns (outcome: Outcome)
    modifies driver`performed
    ensures element.None? ==> outcome == Failed(ElementNotFound(t.target)) && driver.performed == old(driver.performed)
    ensures element.Some? ==>
      && outcome == Completed
      && driver.performed == old(driver.performed) + [[Track(Finger, Press(Center(element.value), TapHold))]]
  {
    if element.None? {
      return Failed(ElementNotFound(t.target));
    }
    var box := element.value;
    var centerX := box.x + box.width / 2;
    var centerY := box.y + box.height / 2;

    var tapSequence := new Sequence(Finger);
    tapSequence.AddAction(PointerMove(0, centerX, centerY));
    tapSequence.AddAction(PointerDown);
    tapSequence.AddAction(Pause(TapHold));
    tapSequence.AddAction(PointerUp);

    assert tapSequence.actions == Press(Center(box), TapHold);
    driver.Perform([tapSequence.ToTrack()]);
    return Completed;
  }

  /** The tap touches down and lifts once, both at the element's centre, and lasts 100 ms. */
  lemma TapTouchesCenter(box: Rect)
    ensures Replay(Press(Center(box), TapHold), Idle)
         == Some(Contact(Center(box), false, [Center(box)], [Center(box)], 100))
  {
    PressReplay(Center(box), TapHold, Idle);
    assert Idle.presses + [Center(box)] == [Center(box)];
  }

  /** A box at (100, 200) of size 50 x 40 is tapped at (125, 220). */
  lemma TapPointExample()
    ensures Center(Rect(100, 200, 50, 40)) == Point(125, 220)
  {
  }
}
