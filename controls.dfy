/**
 * The orbit-camera controller of the cube viewer.
 *
 * The controller owns two rotation angles (in degrees, unbounded) and a
 * zoom distance kept in [2, 20], plus a private drag state: whether a drag
 * is in progress and the last pointer position seen during it. Five events
 * drive it: mouse-down, mouse-move, mouse-up, mouse-leave and wheel.
 *
 * The behaviour is given twice: once as a pure transition function Step
 * over ControlState values (with Run folding it over an event sequence),
 * about which the properties are proved, and once as the class
 * OrbitControls whose methods update their fields in place, as the event
 * handlers do, and are proved to follow Step.
 */
module Controls {

  /** Degrees of rotation per pixel of pointer motion. */
  const Sensitivity: real := 0.5

  /** Distance units per unit of wheel delta. */
  const ZoomSpeed: real := 0.005

  const MinDistance: real := 2.0
  const MaxDistance: real := 20.0
  const InitialDistance: real := 5.0

  /** The state the render loop reads. */
  datatype Orbit = Orbit(rotationX: real, rotationY: real, distance: real)

  /** The private drag state; the previous position matters only while dragging. */
  datatype Drag = Drag(isDragging: bool, previousX: real, previousY: real)

  datatype ControlState = ControlState(orbit: Orbit, drag: Drag)

  /** The pointer and wheel events, reduced to the numbers the handlers read. */
  datatype Event =
    | MouseDown(x: real, y: real)
    | MouseMove(x: real, y: real)
    | MouseUp
    | MouseLeave
    | Wheel(deltaY: real)

  function Max(a: real, b: real): real
  {
    if a >= b then a else b
  }

  function Min(a: real, b: real): real
  {
    if a <= b then a else b
  }

  predicate DistanceInRange(d: real)
  {
    MinDistance <= d <= MaxDistance
  }

  /** max(2, min(20, d)): the nearest distance in [2, 20]. */
  function ClampDistance(d: real): (r: real)
    ensures DistanceInRange(r)
    ensures DistanceInRange(d) ==> r == d
    ensures d < MinDistance ==> r == MinDistance
    ensures d > MaxDistance ==> r == MaxDistance
  {
    Max(MinDistance, Min(MaxDistance, d))
  }

  /** The state right after setup: no rotation, distance 5, no drag. */
  function Initial(): (s: ControlState)
    ensures DistanceInRange(s.orbit.distance) && !s.drag.isDragging
  {
    ControlState(Orbit(0.0, 0.0, InitialDistance), Drag(false, 0.0, 0.0))
  }

  /** The effect of one event. */
  function Step(s: ControlState, e: Event): (r: ControlState)
    // Only the wheel moves the camera in or out, and it always lands in range.
    ensures e.Wheel? ==> DistanceInRange(r.orbit.distance)
    ensures !e.Wheel? ==> r.orbit.distance == s.orbit.distance
    // Only a move while dragging turns the cube.
    ensures !(e.MouseMove? && s.drag.isDragging) ==>
      r.orbit.rotationX == s.orbit.rotationX && r.orbit.rotationY == s.orbit.rotationY
    // A move while not dragging changes nothing at all.
    ensures e.MouseMove? && !s.drag.isDragging ==> r == s
    // Down starts a drag at the event position; up and leave always end it.
    ensures e.MouseDown? ==> r.drag == Drag(true, e.x, e.y)
    ensures e.MouseUp? || e.MouseLeave? ==> !r.drag.isDragging
    // After a dragging move the previous position is the event position.
    ensures e.MouseMove? && s.drag.isDragging ==> r.drag == Drag(true, e.x, e.y)
    // and the cube turns by half the pointer's motion: vertical motion about x, horizontal about y.
    ensures e.MouseMove? && s.drag.isDragging ==>
      r.orbit == Orbit(s.orbit.rotationX + (e.y - s.drag.previousY) * Sensitivity,
                       s.orbit.rotationY + (e.x - s.drag.previousX) * Sensitivity,
                       s.orbit.distance)
    // The wheel leaves the drag state alone.
    ensures e.Wheel? ==> r.drag == s.drag
  {
    match e
    case MouseDown(x, y) =>
      ControlState(s.orbit, Drag(true, x, y))
    case MouseMove(x, y) =>
      if !s.drag.isDragging then s
      else
        var deltaX := x - s.drag.previousX;
        var deltaY := y - s.drag.previousY;
        ControlState(
          Orbit(s.orbit.rotationX + deltaY * Sensitivity, s.orbit.rotationY + deltaX * Sensitivity, s.orbit.distance),
          Drag(true, x, y))
    case MouseUp =>
      ControlState(s.orbit, s.drag.(isDragging := false))
    case MouseLeave =>
      ControlState(s.orbit, s.drag.(isDragging := false))
    case Wheel(deltaY) =>
      ControlState(s.orbit.(distance := ClampDistance(s.orbit.distance + deltaY * ZoomSpeed)), s.drag)
  }

  /** The effect of a sequence of events, delivered in order. */
  function Run(s: ControlState, events: seq<Event>): ControlState
    decreases |events|
  {
    if events == [] then s else Run(Step(s, events[0]), events[1..])
  }

  /** Mouse-move events through the given positions. */
  function Moves(xs: seq<real>, ys: seq<real>): (es: seq<Event>)
    requires |xs| == |ys|
  {
    seq(|xs|, i requires 0 <= i < |xs| => MouseMove(xs[i], ys[i]))
  }

  // ---------------------------------------------------------------------
  // The distance invariant

  /** Every event sequence keeps the distance in [2, 20] once it is there. */
  lemma {:induction false} RunKeepsDistanceInRange(s: ControlState, events: seq<Event>)
    requires DistanceInRange(s.orbit.distance)
    ensures DistanceInRange(Run(s, events).orbit.distance)
    decreases |events|
  {
    if events != [] {
      RunKeepsDistanceInRange(Step(s, events[0]), events[1..]);
    }
  }

  /** Hence the distance is in [2, 20] after any event sequence from setup. */
  lemma DistanceAlwaysInRange(events: seq<Event>)
    ensures DistanceInRange(Run(Initial(), events).orbit.distance)
  {
    RunKeepsDistanceInRange(Initial(), events);
  }

  /** The wheel clamps the scaled delta, and touches nothing else. */
  lemma WheelZooms(s: ControlState, deltaY: real)
    ensures var r := Step(s, Wheel(deltaY));
      var d := s.orbit.distance + deltaY * ZoomSpeed;
      && (DistanceInRange(d) ==> r.orbit.distance == d)
      && (d < MinDistance ==> r.orbit.distance == MinDistance)
      && (d > MaxDistance ==> r.orbit.distance == MaxDistance)
      && r.orbit.rotationX == s.orbit.rotationX && r.orbit.rotationY == s.orbit.rotationY
      && r.drag == s.drag
  {
  }

  // ---------------------------------------------------------------------
  // Dragging

  /**
   * Moves during a drag are relative: a run of moves turns the cube by the
   * whole way from the drag's previous position to the last position, as
   * one move there would.
   */
  lemma {:induction false} DragMovesTelescope(s: ControlState, xs: seq<real>, ys: seq<real>)
    requires s.drag.isDragging && |xs| == |ys| && xs != []
    ensures Run(s, Moves(xs, ys)) == Step(s, MouseMove(xs[|xs| - 1], ys[|ys| - 1]))
    decreases |xs|
  {
    var es := Moves(xs, ys);
    var t := Step(s, es[0]);
    assert es[1..] == Moves(xs[1..], ys[1..]);
    if |xs| == 1 {
      assert es[1..] == [];
    } else {
      DragMovesTelescope(t, xs[1..], ys[1..]);
    }
  }

  /** Down at (x0, y0), moves to p1 then p2: the same as down and a single move to p2. */
  lemma TwoMovesAsOne(s: ControlState, x0: real, y0: real, x1: real, y1: real, x2: real, y2: real)
    ensures Run(s, [MouseDown(x0, y0), MouseMove(x1, y1), MouseMove(x2, y2)])
         == Run(s, [MouseDown(x0, y0), MouseMove(x2, y2)])
  {
    var d := Step(s, MouseDown(x0, y0));
    assert [MouseMove(x1, y1), MouseMove(x2, y2)] == Moves([x1, x2], [y1, y2]);
    DragMovesTelescope(d, [x1, x2], [y1, y2]);
  }

  /** Down at (100, 100) then a move to (110, 130) turns by 15 about x and 5 about y. */
  lemma DragExample(s: ControlState)
    ensures var r := Run(s, [MouseDown(100.0, 100.0), MouseMove(110.0, 130.0)]);
      && r.orbit == Orbit(s.orbit.rotationX + 15.0, s.orbit.rotationY + 5.0, s.orbit.distance)
      && r.drag == Drag(true, 110.0, 130.0)
  {
  }

  // ---------------------------------------------------------------------
  // Ending a drag

  /** Up and leave have the same effect, and either one repeated changes nothing more. */
  lemma ReleaseIdempotent(s: ControlState)
    ensures Step(s, MouseLeave) == Step(s, MouseUp)
    ensures Step(Step(s, MouseUp), MouseUp) == Step(s, MouseUp)
    ensures Step(Step(s, MouseUp), MouseLeave) == Step(s, MouseUp)
    ensures Step(Step(s, MouseLeave), MouseLeave) == Step(s, MouseLeave)
  {
  }

  /** After a release, no number of moves turns the cube: the drag cannot get stuck. */
  lemma {:induction false} MovesAfterReleaseChangeNothing(s: ControlState, xs: seq<real>, ys: seq<real>)
    requires !s.drag.isDragging && |xs| == |ys|
    ensures Run(s, Moves(xs, ys)) == s
    decreases |xs|
  {
    var es := Moves(xs, ys);
    if xs != [] {
      assert es[1..] == Moves(xs[1..], ys[1..]);
      MovesAfterReleaseChangeNothing(Step(s, es[0]), xs[1..], ys[1..]);
    }
  }

  // ---------------------------------------------------------------------
  // The controller as an object whose handlers update it in place

  class OrbitControls {
    var rotationX: real
    var rotationY: real
    var distance: real
    var isDragging: bool
    var previousMouseX: real
    var previousMouseY: real

    /** The current state as a value. */
    function Current(): ControlState
      reads this
    {
      ControlState(Orbit(rotationX, rotationY, distance), Drag(isDragging, previousMouseX, previousMouseY))
    }

    /** The object invariant: the distance is always clamped to [2, 20]. */
    ghost predicate Valid()
      reads this
    {
      DistanceInRange(distance)
    }

    /** Setup, as initControls does it. */
    constructor ()
      ensures Valid()
      ensures rotationX == 0.0 && rotationY == 0.0 && distance == 5.0
      ensures !isDragging && previousMouseX == 0.0 && previousMouseY == 0.0
      ensures Current() == Initial()
    {
      rotationX, rotationY, distance := 0.0, 0.0, 5.0;
      isDragging := false;
      previousMouseX, previousMouseY := 0.0, 0.0;
    }

    /** Mouse-down: start a drag at (x, y). */
    method MouseDown(x: real, y: real)
      requires Valid()
      modifies this
      ensures Valid()
      ensures isDragging && previousMouseX == x && previousMouseY == y
      ensures rotationX == old(rotationX) && rotationY == old(rotationY) && distance == old(distance)
      ensures Current() == Step(old(Current()), Event.MouseDown(x, y))
    {
      isDragging := true;
      previousMouseX := x;
      previousMouseY := y;
    }

    /** Mouse-move: while dragging, turn by half the pointer motion since the last position. */
    method MouseMove(x: real, y: real)
      requires Valid()
      modifies this
      ensures Valid()
      ensures !old(isDragging) ==> Current() == old(Current())
      ensures old(isDragging) ==>
        && rotationY == old(rotationY) + (x - old(previousMouseX)) * Sensitivity
        && rotationX == old(rotationX) + (y - old(previousMouseY)) * Sensitivity
        && distance == old(distance)
        && isDragging && previousMouseX == x && previousMouseY == y
      ensures Current() == Step(old(Current()), Event.MouseMove(x, y))
    {
      if !isDragging {
        return;
      }
      var deltaX := x - previousMouseX;
      var deltaY := y - previousMouseY;
      rotationY := rotationY + deltaX * 0.5;
      rotationX := rotationX + deltaY * 0.5;
      previousMouseX := x;
      previousMouseY := y;
    }

    /** Mouse-up: end any drag. */
    method MouseUp()
      requires Valid()
      modifies this
      ensures Valid()
      ensures !isDragging
      ensures rotationX == old(rotationX) && rotationY == old(rotationY) && distance == old(distance)
      ensures previousMouseX == old(previousMouseX) && previousMouseY == old(previousMouseY)
      ensures Current() == Step(old(Current()), Event.MouseUp)
    {
      isDragging := false;
    }

    /** Mouse-leave: end any drag, exactly as mouse-up does. */
    method MouseLeave()
      requires Valid()
      modifies this
      ensures Valid()
      ensures !isDragging
      ensures rotationX == old(rotationX) && rotationY == old(rotationY) && distance == old(distance)
      ensures previousMouseX == old(previousMouseX) && previousMouseY == old(previousMouseY)
      ensures Current() == Step(old(Current()), Event.MouseLeave)
    {
      isDragging := false;
    }

    /** Wheel: zoom by the scaled delta, then clamp the distance to [2, 20]. */
    method Wheel(deltaY: real)
      modifies this
      ensures Valid()
      ensures distance == ClampDistance(old(distance) + deltaY * ZoomSpeed)
      ensures rotationX == old(rotationX) && rotationY == old(rotationY)
      ensures isDragging == old(isDragging)
      ensures previousMouseX == old(previousMouseX) && previousMouseY == old(previousMouseY)
      ensures Current() == Step(old(Current()), Event.Wheel(deltaY))
    {
      distance := distance + deltaY * 0.005;
      distance := Max(2.0, Min(20.0, distance));
    }
  }
}
