/** DoubleTap: two taps at the centre of the target element, separated by a pause. */
module DoubleTap {
  import opened Wrappers
  import opened Geometry
  import opened Gestures

  datatype DoubleTap = DoubleTap(target: Locator, pauseBetweenTaps: Millis)

  /** How long the finger stays down in each tap. */
  const TapHold: Millis := 50

  /** `DoubleTap(target)`: 200 ms between the taps. */
  function WithDefaultPause(target: Locator): (t: DoubleTap)
    ensures t.target == target && t.pauseBetweenTaps == 200
  {
    DoubleTap(target, 200)
  }

  /** move(0, c), down, pause 50, up, pause(between), down, pause 50, up. */
  function DoubleTapActions(c: Point, between: Millis): seq<Action> {
    [PointerMove(0, c.x, c.y), PointerDown, Pause(TapHold), PointerUp,
     Pause(between),
     PointerDown, Pause(TapHold), PointerUp]
  }

  /** One "finger" track of eight actions, in one submission; a missing element fails first. */
  method PerformAs(t: DoubleTap, driver: Driver, element: Option<Rect>) returns (outcome: Outcome)
    modifies driver`performed
    ensures element.None? ==> outcome == Failed(ElementNotFound(t.target)) && driver.performed == old(driver.performed)
    ensures element.Some? ==>
      && outcome == Completed
      && driver.performed == old(driver.performed)
                             + [[Track(Finger, DoubleTapActions(Center(element.value), t.pauseBetweenTaps))]]
  {
    if element.None? {
      return Failed(ElementNotFound(t.target));
    }
    var center := Center(element.value);

    var doubleTapSequence := new Sequence(Finger);
    // first tap
    doubleTapSequence.AddAction(PointerMove(0, center.x, center.y));
    doubleTapSequence.AddAction(PointerDown);
    doubleTapSequence.AddAction(Pause(TapHold));
    doubleTapSequence.AddAction(PointerUp);
    // pause between taps
    doubleTapSequence.AddAction(Pause(t.pauseBetweenTaps));
    // second tap, at the same place: there is no second move
    doubleTapSequence.AddAction(PointerDown);
    doubleTapSequence.AddAction(Pause(TapHold));
    doubleTapSequence.AddAction(PointerUp);

    assert doubleTapSequence.actions == DoubleTapActions(center, t.pauseBetweenTaps);
    driver.Perform([doubleTapSequence.ToTrack()]);
    return Completed;
  }

  /**
   * Presses and releases alternate, starting with a press, two of each; both
   * taps land on the centre and the pointer ends released, after
   * 50 + pause + 50 ms.
   */
  lemma TwoTapsAtCenter(c: Point, between: Millis)
    ensures Replay(DoubleTapActions(c, between), Idle)
         == Some(Contact(c, false, [c, c], [c, c], 2 * TapHold + between))
  {
    var a := DoubleTapActions(c, between);
    var second := [Pause(between), PointerDown, Pause(TapHold), PointerUp];
    assert a == Press(c, TapHold) + second;
    ReplayAppend(Press(c, TapHold), second, Idle);
    PressReplay(c, TapHold, Idle);
    assert Idle.presses + [c] == [c];
    assert [c] + [c] == [c, c];
    var c1 := Contact(c, false, [c], [c], TapHold);
    var c2 := c1.(elapsed := TapHold + between);
    var c3 := c2.(pressed := true, presses := [c, c]);
    var c4 := c3.(elapsed := 2 * TapHold + between);
    var c5 := c4.(pressed := false, releases := [c, c]);
    assert Replay(second, c1) == Replay(second[1..], c2);
    assert Replay(second[1..], c2) == Replay(second[2..], c3);
    assert Replay(second[2..], c3) == Replay(second[3..], c4);
    assert Replay(second[3..], c4) == Replay(second[4..], c5);
    assert second[4..] == [];
  }
}
