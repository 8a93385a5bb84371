/**
 * Pinch: two fingers moving symmetrically about the centre of the target
 * element. Pinch out spreads them (zoom in), pinch in brings them together
 * (zoom out).
 */
module Pinch {
  import opened Wrappers
  import opened Geometry
  import opened Gestures

  datatype PinchType = In | Out

  datatype Pinch = Pinch(target: Locator, pinchType: PinchType, duration: Millis, distance: int)

  /** Both fingers start or end this far from the centre on each axis. */
  const InnerOffset: int := 10

  /** `Pinch(target, type)`: one second, 100 pixels from the centre. */
  function WithDefaults(target: Locator, pinchType: PinchType): (p: Pinch)
    ensures p.target == target && p.pinchType == pinchType && p.duration == 1000 && p.distance == 100
  {
    Pinch(target, pinchType, 1000, 100)
  }

  /** Where each finger starts and ends. */
  datatype FingerPaths = FingerPaths(finger1Start: Point, finger1End: Point, finger2Start: Point, finger2End: Point)

  /** The centre moved by `k` pixels on both axes. */
  function Diagonal(center: Point, k: int): Point {
    Point(center.x + k, center.y + k)
  }

  /**
   * OUT: finger 1 goes from centre - (10, 10) to centre - (d, d) and
   * finger 2 from centre + (10, 10) to centre + (d, d); IN runs the same
   * paths backwards. At every endpoint the two fingers are point-symmetric
   * about the centre.
   */
  function Paths(center: Point, pinchType: PinchType, distance: int): (p: FingerPaths)
    ensures p.finger1Start.x + p.finger2Start.x == 2 * center.x
    ensures p.finger1Start.y + p.finger2Start.y == 2 * center.y
    ensures p.finger1End.x + p.finger2End.x == 2 * center.x
    ensures p.finger1End.y + p.finger2End.y == 2 * center.y
    ensures pinchType == Out ==>
      p.finger2Start == Diagonal(center, InnerOffset) && p.finger2End == Diagonal(center, distance)
    ensures pinchType == In ==>
      p.finger2Start == Diagonal(center, distance) && p.finger2End == Diagonal(center, InnerOffset)
  {
    if pinchType == Out then
      FingerPaths(Diagonal(center, -InnerOffset), Diagonal(center, -distance),
                  Diagonal(center, InnerOffset), Diagonal(center, distance))
    else
      FingerPaths(Diagonal(center, -distance), Diagonal(center, -InnerOffset),
                  Diagonal(center, distance), Diagonal(center, InnerOffset))
  }

  /** Pinch in is pinch out with each finger's start and end exchanged. */
  lemma InReversesOut(center: Point, distance: int)
    ensures var o, i := Paths(center, Out, distance), Paths(center, In, distance);
            i == FingerPaths(o.finger1End, o.finger1Start, o.finger2End, o.finger2Start)
  {
  }

  /**
   * With a distance beyond the inner offset, pinch out ends with the fingers
   * further apart than they started, and pinch in ends with them closer.
   */
  lemma OutSpreadsInGathers(center: Point, distance: int)
    requires distance > InnerOffset
    ensures var o := Paths(center, Out, distance);
            o.finger2End.x - o.finger1End.x > o.finger2Start.x - o.finger1Start.x > 0
    ensures var i := Paths(center, In, distance);
            i.finger2Start.x - i.finger1Start.x > i.finger2End.x - i.finger1End.x > 0
  {
  }

  /**
   * A missing element fails before anything is submitted. Otherwise two
   * tracks, "finger1" and "finger2", each move(0, start), down,
   * move(duration, end), up, go to the session in one submission.
   */
  method PerformAs(p: Pinch, driver: Driver, element: Option<Rect>) returns (outcome: Outcome)
    modifies driver`performed
    ensures element.None? ==> outcome == Failed(ElementNotFound(p.target)) && driver.performed == old(driver.performed)
    ensures element.Some? ==>
      var f := Paths(Center(element.value), p.pinchType, p.distance);
      && outcome == Completed
      && driver.performed == old(driver.performed)
                             + [[Track("finger1", Stroke(f.finger1Start, f.finger1End, p.duration)),
                                 Track("finger2", Stroke(f.finger2Start, f.finger2End, p.duration))]]
  {
    if element.None? {
      return Failed(ElementNotFound(p.target));
    }
    var center := Center(element.value);

    var finger1Start, finger1End, finger2Start, finger2End;
    if p.pinchType == Out {
      finger1Start := Point(center.x - InnerOffset, center.y - InnerOffset);
      finger1End := Point(center.x - p.distance, center.y - p.distance);
      finger2Start := Point(center.x + InnerOffset, center.y + InnerOffset);
      finger2End := Point(center.x + p.distance, center.y + p.distance);
    } else {
      finger1Start := Point(center.x - p.distance, center.y - p.distance);
      finger1End := Point(center.x - InnerOffset, center.y - InnerOffset);
      finger2Start := Point(center.x + p.distance, center.y + p.distance);
      finger2End := Point(center.x + InnerOffset, center.y + InnerOffset);
    }

    var finger1Sequence := new Sequence("finger1");
    var finger2Sequence := new Sequence("finger2");

    finger1Sequence.AddAction(PointerMove(0, finger1Start.x, finger1Start.y));
    finger1Sequence.AddAction(PointerDown);
    finger1Sequence.AddAction(PointerMove(p.duration, finger1End.x, finger1End.y));
    finger1Sequence.AddAction(PointerUp);

    finger2Sequence.AddAction(PointerMove(0, finger2Start.x, finger2Start.y));
    finger2Sequence.AddAction(PointerDown);
    finger2Sequence.AddAction(PointerMove(p.duration, finger2End.x, finger2End.y));
    finger2Sequence.AddAction(PointerUp);

    assert finger1Sequence.actions == Stroke(finger1Start, finger1End, p.duration);
    assert finger2Sequence.actions == Stroke(finger2Start, finger2End, p.duration);
    driver.Perform([finger1Sequence.ToTrack(), finger2Sequence.ToTrack()]);
    return Completed;
  }

  /**
   * Each finger touches down once at its start and lifts once at its end,
   * and both last `duration`.
   */
  lemma FingersTouchTheirPaths(p: Pinch, center: Point)
    ensures var f := Paths(center, p.pinchType, p.distance);
            && Replay(Stroke(f.finger1Start, f.finger1End, p.duration), Idle)
               == Some(Contact(f.finger1End, false, [f.finger1Start], [f.finger1End], p.duration))
            && Replay(Stroke(f.finger2Start, f.finger2End, p.duration), Idle)
               == Some(Contact(f.finger2End, false, [f.finger2Start], [f.finger2End], p.duration))
  {
    var f := Paths(center, p.pinchType, p.distance);
    StrokeReplay(f.finger1Start, f.finger1End, p.duration, Idle);
    StrokeReplay(f.finger2Start, f.finger2End, p.duration, Idle);
    assert Idle.presses + [f.finger1Start] == [f.finger1Start];
    assert Idle.releases + [f.finger1End] == [f.finger1End];
    assert Idle.presses + [f.finger2Start] == [f.finger2Start];
    assert Idle.releases + [f.finger2End] == [f.finger2End];
  }
}
