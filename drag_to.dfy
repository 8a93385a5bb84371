/** DragTo: press on one element and move to another before releasing. */
module DragTo {
  import opened Wrappers
  import opened Geometry
  import opened Gestures

  datatype DragTo = DragTo(sourceElement: Locator, destinationElement: Locator, duration: Millis)

  /** `DragTo(source, destination)`: the drag takes one second. */
  function WithDefaultDuration(source: Locator, destination: Locator): (d: DragTo)
    ensures d.sourceElement == source && d.destinationElement == destination && d.duration == 1000
  {
    DragTo(source, destination, 1000)
  }

  /**
   * Both elements are resolved first; a missing source is reported before a
   * missing destination, and in either case nothing is submitted. Otherwise
   * one "finger" track moves from the source's centre to the destination's.
   */
  method PerformAs(d: DragTo, driver: Driver, source: Option<Rect>, destination: Option<Rect>)
    returns (outcome: Outcome)
    modifies driver`performed
    ensures source.None? ==> outcome == Failed(ElementNotFound(d.sourceElement))
    ensures source.Some? && destination.None? ==> outcome == Failed(ElementNotFound(d.destinationElement))
    ensures outcome.Failed? ==> driver.performed == old(driver.performed)
    ensures source.Some? && destination.Some? ==>
      && outcome == Completed
      && driver.performed == old(driver.performed)
                             + [[Track(Finger, Stroke(Center(source.value), Center(destination.value), d.duration))]]
  {
    if source.None? {
      return Failed(ElementNotFound(d.sourceElement));
    }
    if destination.None? {
      return Failed(ElementNotFound(d.destinationElement));
    }
    var sourceCenter := Center(source.value);
    var destinationCenter := Center(destination.value);

    var dragSequence := new Sequence(Finger);
    dragSequence.AddAction(PointerMove(0, sourceCenter.x, sourceCenter.y));
    dragSequence.AddAction(PointerDown);
    dragSequence.AddAction(PointerMove(d.duration, destinationCenter.x, destinationCenter.y));
    dragSequence.AddAction(PointerUp);

    assert dragSequence.actions == Stroke(sourceCenter, destinationCenter, d.duration);
    driver.Perform([dragSequence.ToTrack()]);
    return Completed;
  }

  /** The finger touches down on the source's centre and lifts on the destination's. */
  lemma DropsOnDestination(d: DragTo, source: Rect, destination: Rect)
    ensures var s, t := Center(source), Center(destination);
            Replay(Stroke(s, t, d.duration), Idle) == Some(Contact(t, false, [s], [t], d.duration))
  {
    StrokeReplay(Center(source), Center(destination), d.duration, Idle);
    assert Idle.presses + [Center(source)] == [Center(source)];
    assert Idle.releases + [Center(destination)] == [Center(destination)];
  }
}
