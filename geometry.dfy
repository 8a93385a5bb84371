/**
 * Screen-space geometry of the gestures: element centres, the directional
 * start anchors at 80% or 20% of a box or of the window, and end points
 * shifted along one axis by a fraction of the box or window extent.
 *
 * Scroll, Swipe and ScrollUntil each carry their own copy of these formulas;
 * the copies are identical, so they are stated once here and each
 * interaction uses them.
 */
module Geometry {

  /** A point in viewport pixels. */
  datatype Point = Point(x: int, y: int)

  /** A resolved element: its location (top-left corner) and its size. */
  datatype Rect = Rect(x: int, y: int, width: nat, height: nat)

  /** The window size reported by the session. */
  datatype Dimension = Dimension(width: nat, height: nat)

  datatype Direction = Up | Down | Left | Right

  /** UP and DOWN move along the vertical axis; LEFT and RIGHT along the horizontal one. */
  predicate Vertical(d: Direction) {
    d == Up || d == Down
  }

  /** UP and LEFT move toward smaller coordinates, DOWN and RIGHT toward larger ones. */
  function Sign(d: Direction): int {
    if d == Up || d == Left then -1 else 1
  }

  /** The coordinate a gesture in direction `d` moves along. */
  function Along(p: Point, d: Direction): int {
    if Vertical(d) then p.y else p.x
  }

  /** The coordinate a gesture in direction `d` leaves alone. */
  function Across(p: Point, d: Direction): int {
    if Vertical(d) then p.x else p.y
  }

  /** The size of a box along the axis of direction `d`. */
  function Extent(b: Rect, d: Direction): nat {
    if Vertical(d) then b.height else b.width
  }

  predicate InBox(p: Point, b: Rect) {
    b.x <= p.x <= b.x + b.width && b.y <= p.y <= b.y + b.height
  }

  /** The window as a box with its origin at (0, 0). */
  function ScreenBox(s: Dimension): Rect {
    Rect(0, 0, s.width, s.height)
  }

  /**
   * Java's `(int)` cast of a double: truncation toward zero. The result has
   * the sign of `v` (or is zero) and lies less than one unit closer to zero.
   */
  function Trunc(v: real): (r: int)
    ensures 0.0 <= v ==> 0 <= r && r as real <= v < r as real + 1.0
    ensures v < 0.0 ==> r <= 0 && v <= r as real < v + 1.0
  {
    if 0.0 <= v then v.Floor else -((-v).Floor)
  }

  /** `(int) (extent * fraction)`: a fraction of a box or window extent, in whole pixels. */
  function Scaled(extent: nat, fraction: real): int {
    Trunc(extent as real * fraction)
  }

  /**
   * The centre of a box, `(x + w/2, y + h/2)` with integer division: the
   * offset from the corner is half the size, rounded down, so it lies inside
   * the box.
   */
  function Center(b: Rect): (c: Point)
    ensures 0 <= 2 * (c.x - b.x) <= b.width <= 2 * (c.x - b.x) + 1
    ensures 0 <= 2 * (c.y - b.y) <= b.height <= 2 * (c.y - b.y) + 1
    ensures InBox(c, b)
  {
    Point(b.x + b.width / 2, b.y + b.height / 2)
  }

  /**
   * The start anchor inside an element: UP and LEFT start at 80% of the
   * extent, DOWN and RIGHT at 20%, on the centre line of the other axis.
   */
  function ElementStart(b: Rect, d: Direction): (p: Point)
    ensures Along(p, d) == Along(Point(b.x, b.y), d) + Scaled(Extent(b, d), if Sign(d) < 0 then 0.8 else 0.2)
    ensures Across(p, d) == Across(Center(b), d)
    ensures InBox(p, b)
  {
    var centerX := b.x + b.width / 2;
    var centerY := b.y + b.height / 2;
    match d
    case Up => Point(centerX, b.y + Scaled(b.height, 0.8))
    case Down => Point(centerX, b.y + Scaled(b.height, 0.2))
    case Left => Point(b.x + Scaled(b.width, 0.8), centerY)
    case Right => Point(b.x + Scaled(b.width, 0.2), centerY)
  }

  /** The start point moved `distance` pixels in direction `d`. */
  function Shift(start: Point, d: Direction, distance: int): (q: Point)
    ensures Across(q, d) == Across(start, d)
    ensures Along(q, d) == Along(start, d) + Sign(d) * distance
  {
    match d
    case Up => Point(start.x, start.y - distance)
    case Down => Point(start.x, start.y + distance)
    case Left => Point(start.x - distance, start.y)
    case Right => Point(start.x + distance, start.y)
  }

  /**
   * The end point of a gesture inside an element: the start moved along the
   * direction's axis by `(int) (extent * fraction)`, the other coordinate kept.
   */
  function ElementEnd(b: Rect, start: Point, d: Direction, fraction: real): (q: Point)
    ensures Across(q, d) == Across(start, d)
    ensures Along(q, d) == Along(start, d) + Sign(d) * Scaled(Extent(b, d), fraction)
  {
    var distance := if Vertical(d) then Scaled(b.height, fraction) else Scaled(b.width, fraction);
    Shift(start, d, distance)
  }

  /** The start anchor on the whole window: the element formula with origin (0, 0). */
  function ScreenStart(s: Dimension, d: Direction): (p: Point)
    ensures Along(p, d) == Scaled(Extent(ScreenBox(s), d), if Sign(d) < 0 then 0.8 else 0.2)
    ensures Across(p, d) == Across(Center(ScreenBox(s)), d)
    ensures InBox(p, ScreenBox(s))
  {
    var centerX := s.width / 2;
    var centerY := s.height / 2;
    match d
    case Up => Point(centerX, Scaled(s.height, 0.8))
    case Down => Point(centerX, Scaled(s.height, 0.2))
    case Left => Point(Scaled(s.width, 0.8), centerY)
    case Right => Point(Scaled(s.width, 0.2), centerY)
  }

  /** The end point of a gesture on the whole window. */
  function ScreenEnd(s: Dimension, start: Point, d: Direction, fraction: real): (q: Point)
    ensures Across(q, d) == Across(start, d)
  {
    var distance := if Vertical(d) then Scaled(s.height, fraction) else Scaled(s.width, fraction);
    Shift(start, d, distance)
  }

  /** The window formulas are the element formulas applied to the window's box. */
  lemma ScreenIsOriginBox(s: Dimension, start: Point, d: Direction, fraction: real)
    ensures ScreenStart(s, d) == ElementStart(ScreenBox(s), d)
    ensures ScreenEnd(s, start, d, fraction) == ElementEnd(ScreenBox(s), start, d, fraction)
  {
  }

  /** Truncation is monotone in the fraction, for a non-negative extent. */
  lemma ScaledMonotone(extent: nat, f: real, g: real)
    requires 0.0 <= f <= g
    ensures 0 <= Scaled(extent, f) <= Scaled(extent, g)
  {
    var e := extent as real;
    assert e * g - e * f == e * (g - f);
    assert 0.0 <= e * (g - f);
  }

  /** Two truncated parts of an extent add up to the extent or to one less. */
  lemma ScaledParts(extent: nat, f: real, g: real)
    requires 0.0 <= f && 0.0 <= g && f + g == 1.0
    ensures extent - 1 <= Scaled(extent, f) + Scaled(extent, g) <= extent
  {
    var e := extent as real;
    assert e * f + e * g == e * (f + g) == e;
    assert 0.0 <= e * f && 0.0 <= e * g;
  }

  /**
   * The UP and DOWN anchors (and the LEFT and RIGHT ones) sit symmetrically
   * about the box's centre line: their offsets from the corner add up to the
   * extent, or to one less where truncation loses a pixel.
   */
  lemma MirroredAnchors(b: Rect)
    ensures b.height - 1 <= (ElementStart(b, Up).y - b.y) + (ElementStart(b, Down).y - b.y) <= b.height
    ensures b.width - 1 <= (ElementStart(b, Left).x - b.x) + (ElementStart(b, Right).x - b.x) <= b.width
  {
    ScaledParts(b.height, 0.8, 0.2);
    ScaledParts(b.width, 0.8, 0.2);
  }

  /**
   * A gesture whose fraction is at most 80% ends inside the box it started
   * in: UP and LEFT travel no further than their 80% anchor, DOWN and RIGHT
   * no further than the 80% left between their 20% anchor and the far edge.
   */
  lemma EndStaysInBox(b: Rect, d: Direction, fraction: real)
    requires 0.0 <= fraction <= 0.8
    ensures InBox(ElementEnd(b, ElementStart(b, d), d, fraction), b)
  {
    var e := Extent(b, d);
    ScaledMonotone(e, fraction, 0.8);
    ScaledParts(e, 0.8, 0.2);
  }

  /** The same bound on the whole window. */
  lemma ScreenEndStaysOnScreen(s: Dimension, d: Direction, fraction: real)
    requires 0.0 <= fraction <= 0.8
    ensures InBox(ScreenEnd(s, ScreenStart(s, d), d, fraction), ScreenBox(s))
  {
    ScreenIsOriginBox(s, ScreenStart(s, d), d, fraction);
    EndStaysInBox(ScreenBox(s), d, fraction);
  }
}
