/**
 * Pointer actions, the per-pointer action sequence that the interactions
 * fill in place, and the session's gesture endpoint, which here only records
 * what it is asked to perform.
 *
 * `Replay` is a reference semantics for a touch pointer: it follows a list of
 * actions from a resting pointer and reports where the pointer touched down,
 * where it lifted, and how long the gesture lasted, or fails when a press or
 * a release comes out of turn.
 */
module Gestures {
  import opened Wrappers
  import opened Geometry

  /** Durations in milliseconds. */
  type Millis = nat

  /**
   * A screen target, standing for the target object itself: error messages
   * print its name and lookups use its selector, both derived from it.
   */
  type Locator = string

  /** The name every single-pointer interaction gives its pointer. */
  const Finger: string := "finger"

  /** One pointer action, with positions relative to the viewport. */
  datatype Action =
    | PointerMove(duration: Millis, x: int, y: int)
    | PointerDown
    | Pause(duration: Millis)
    | PointerUp

  /** The actions of one named pointer, as submitted to the session. */
  datatype Track = Track(pointer: string, actions: seq<Action>)

  /** The failures an interaction reports to its caller. */
  datatype Error =
    | ElementNotFound(target: Locator)
    | ScrollFailed
    | ConditionNotMet(attempts: int, direction: Direction)
    | TargetRequired

  datatype Outcome = Completed | Failed(error: Error)

  /** A pointer's action sequence, built up one action at a time. */
  class Sequence {
    const pointer: string
    var actions: seq<Action>

    constructor (pointer: string)
      ensures this.pointer == pointer && actions == []
    {
      this.pointer := pointer;
      actions := [];
    }

    method AddAction(a: Action)
      modifies this
      ensures actions == old(actions) + [a]
    {
      actions := actions + [a];
    }

    /** The sequence as it is handed to the session. */
    function ToTrack(): (t: Track)
      reads this
      ensures t.pointer == pointer && t.actions == actions
    {
      Track(pointer, actions)
    }
  }

  /** The session: its window size and the log of every gesture it was asked to perform. */
  class Driver {
    var window: Dimension
    var performed: seq<seq<Track>>

    constructor (window: Dimension)
      ensures this.window == window && performed == []
    {
      this.window := window;
      performed := [];
    }

    /** Submits the tracks as one gesture. */
    method Perform(tracks: seq<Track>)
      modifies this`performed
      ensures performed == old(performed) + [tracks]
    {
      performed := performed + [tracks];
    }
  }

  /** move(0, start), down, move(duration, end), up: drag, swipe, scroll and each pinch finger. */
  function Stroke(start: Point, end: Point, duration: Millis): seq<Action> {
    [PointerMove(0, start.x, start.y), PointerDown, PointerMove(duration, end.x, end.y), PointerUp]
  }

  /** move(0, at), down, pause(hold), up: tap and long press. */
  function Press(at: Point, hold: Millis): seq<Action> {
    [PointerMove(0, at.x, at.y), PointerDown, Pause(hold), PointerUp]
  }

  /** The state of a touch pointer while its actions are replayed. */
  datatype Contact = Contact(at: Point, pressed: bool, presses: seq<Point>, releases: seq<Point>, elapsed: nat)

  /** A pointer at rest at the viewport origin. */
  const Idle: Contact := Contact(Point(0, 0), false, [], [], 0)

  /**
   * Replays actions on a pointer. A press while pressed or a release while
   * released makes the sequence invalid (None).
   */
  function Replay(actions: seq<Action>, c: Contact): Option<Contact>
    decreases |actions|
  {
    if actions == [] then Some(c)
    else
      var rest := actions[1..];
      match actions[0]
      case PointerMove(d, x, y) => Replay(rest, c.(at := Point(x, y), elapsed := c.elapsed + d))
      case PointerDown => if c.pressed then None else Replay(rest, c.(pressed := true, presses := c.presses + [c.at]))
      case Pause(d) => Replay(rest, c.(elapsed := c.elapsed + d))
      case PointerUp => if c.pressed then Replay(rest, c.(pressed := false, releases := c.releases + [c.at])) else None
  }

  /** Replaying a concatenation replays the second part from where the first ended. */
  lemma {:induction false} ReplayAppend(a: seq<Action>, b: seq<Action>, c: Contact)
    ensures Replay(a + b, c) == if Replay(a, c).Some? then Replay(b, Replay(a, c).value) else None
    decreases |a|
  {
    if a == [] {
      assert a + b == b;
    } else {
      assert (a + b)[0] == a[0];
      assert (a + b)[1..] == a[1..] + b;
      match a[0]
      case PointerMove(d, x, y) => ReplayAppend(a[1..], b, c.(at := Point(x, y), elapsed := c.elapsed + d));
      case PointerDown =>
        if !c.pressed { ReplayAppend(a[1..], b, c.(pressed := true, presses := c.presses + [c.at])); }
      case Pause(d) => ReplayAppend(a[1..], b, c.(elapsed := c.elapsed + d));
      case PointerUp =>
        if c.pressed { ReplayAppend(a[1..], b, c.(pressed := false, releases := c.releases + [c.at])); }
    }
  }

  /**
   * A stroke on a released pointer touches down once at `start`, lifts once
   * at `end`, leaves the pointer released at `end` and lasts `duration`.
   */
  lemma StrokeReplay(start: Point, end: Point, duration: Millis, c: Contact)
    requires !c.pressed
    ensures Replay(Stroke(start, end, duration), c)
         == Some(c.(at := end, presses := c.presses + [start], releases := c.releases + [end],
                    elapsed := c.elapsed + duration))
  {
    var s := Stroke(start, end, duration);
    var c1 := c.(at := start);
    var c2 := c1.(pressed := true, presses := c.presses + [start]);
    var c3 := c2.(at := end, elapsed := c.elapsed + duration);
    var c4 := c3.(pressed := false, releases := c.releases + [end]);
    assert Replay(s, c) == Replay(s[1..], c1);
    assert Replay(s[1..], c1) == Replay(s[2..], c2);
    assert Replay(s[2..], c2) == Replay(s[3..], c3);
    assert Replay(s[3..], c3) == Replay(s[4..], c4);
    assert s[4..] == [];
  }

  /**
   * A press on a released pointer touches down and lifts once, both at
   * `at`, leaves the pointer released and lasts `hold`.
   */
  lemma PressReplay(at: Point, hold: Millis, c: Contact)
    requires !c.pressed
    ensures Replay(Press(at, hold), c)
         == Some(c.(at := at, presses := c.presses + [at], releases := c.releases + [at],
                    elapsed := c.elapsed + hold))
  {
    var s := Press(at, hold);
    var c1 := c.(at := at);
    var c2 := c1.(pressed := true, presses := c.presses + [at]);
    var c3 := c2.(elapsed := c.elapsed + hold);
    var c4 := c3.(pressed := false, releases := c.releases + [at]);
    assert Replay(s, c) == Replay(s[1..], c1);
    assert Replay(s[1..], c1) == Replay(s[2..], c2);
    assert Replay(s[2..], c2) == Replay(s[3..], c3);
    assert Replay(s[3..], c3) == Replay(s[4..], c4);
    assert s[4..] == [];
  }
}
