// Orbit viewing on the truck pages: a mouse (or one-finger) drag turns the pivot
// that holds the model, the wheel (or a two-finger pinch) moves the camera in and out.

module Orbit {
  import opened Common

  const YawSpeed: real := 0.01
  const PitchSpeed: real := 0.005
  const WheelSpeed: real := 0.01
  const MinPitch: real := 0.0
  const MaxPitch: real := 1.0
  const MinZ: real := 5.0
  const MaxZ: real := 100.0
  const StartZ: real := 25.0

  /** The handlers' shared state: `isDragging`, `prev`, `rotationX/Y`, `pivot.rotation`,
      `camera.position.z`, `lastTouch`, `initialPinchDistance` and `initialCameraZ`. */
  datatype View = View(
    dragging: bool,
    prev: Point,
    rotationX: real,
    rotationY: real,
    pivotX: real,
    pivotY: real,
    cameraZ: real,
    lastTouch: Option<Point>,
    initialPinch: Option<real>,
    initialCameraZ: real)

  /**
   * A pointer event. A touch event lists its touches; `span` is the distance between the
   * first two of them, `Math.sqrt(dx * dx + dy * dy)`, supplied by the caller.
   */
  datatype Event =
    | MouseDown(at: Point)
    | MouseMove(at: Point)
    | MouseUp
    | MouseLeave
    | Wheel(deltaY: real)
    | TouchStart(touches: seq<Point>, span: real)
    | TouchMove(touches: seq<Point>, span: real)
    | TouchEnd

  /** The state when the page script has run: camera at z = 25, nothing held. */
  function Initial(): View
  {
    View(false, Point(0.0, 0.0), 0.0, 0.0, 0.0, 0.0, StartZ, None, None, StartZ)
  }

  /** What every handler keeps: pitch in [0, 1], camera z in [5, 100], pivot showing the rotation. */
  predicate Steady(v: View)
  {
    && MinPitch <= v.rotationX <= MaxPitch
    && MinZ <= v.cameraZ <= MaxZ
    && MinZ <= v.initialCameraZ <= MaxZ
    && v.pivotX == v.rotationX && v.pivotY == v.rotationY
  }

  /** `span` is the distance between the first two touches. */
  predicate SpanOf(touches: seq<Point>, span: real)
  {
    |touches| >= 2 ==>
      var dx := touches[0].x - touches[1].x;
      var dy := touches[0].y - touches[1].y;
      span >= 0.0 && span * span == dx * dx + dy * dy
  }

  /** Turn by the movement from `from` to `to`: yaw unbounded, pitch clamped. */
  function Turned(v: View, from: Point, to: Point): View
  {
    var rotationY := v.rotationY - (to.x - from.x) * YawSpeed;
    var rotationX := Clamp(v.rotationX + (to.y - from.y) * PitchSpeed, MinPitch, MaxPitch);
    v.(rotationX := rotationX, rotationY := rotationY, pivotX := rotationX, pivotY := rotationY)
  }

  function OnMouseDown(v: View, at: Point): View
  {
    v.(dragging := true, prev := at)
  }

  function OnMouseMove(v: View, at: Point): View
  {
    if !v.dragging then v else Turned(v, v.prev, at).(prev := at)
  }

  /** `mouseup` and `mouseleave` share this handler. */
  function OnRelease(v: View): View
  {
    v.(dragging := false)
  }

  function OnWheel(v: View, deltaY: real): View
  {
    v.(cameraZ := Clamp(v.cameraZ + deltaY * WheelSpeed, MinZ, MaxZ))
  }

  function OnTouchStart(v: View, touches: seq<Point>, span: real): View
  {
    if |touches| == 1 then v.(lastTouch := Some(touches[0]))
    else if |touches| == 2 then v.(initialPinch := Some(span), initialCameraZ := v.cameraZ)
    else v
  }

  /** Whether a two-finger move would divide by the current span. */
  predicate Pinching(v: View, touches: seq<Point>)
  {
    |touches| == 2 && v.initialPinch.Some?
  }

  /**
   * `touchmove`: one finger turns like a drag; two fingers set the camera distance from the
   * ratio of the starting span to the current one. A current span of 0 leaves the distance
   * as it is (the code as written divides by it; see `PinchZAsWritten`).
   */
  function OnTouchMove(v: View, touches: seq<Point>, span: real): View
  {
    if |touches| == 1 && v.lastTouch.Some? then
      Turned(v, v.lastTouch.value, touches[0]).(lastTouch := Some(touches[0]))
    else if Pinching(v, touches) then
      if span > 0.0 then v.(cameraZ := Clamp(v.initialCameraZ * (v.initialPinch.value / span), MinZ, MaxZ))
      else v
    else v
  }

  function OnTouchEnd(v: View): View
  {
    v.(lastTouch := None, initialPinch := None)
  }

  function Step(v: View, e: Event): View
  {
    match e
    case MouseDown(at) => OnMouseDown(v, at)
    case MouseMove(at) => OnMouseMove(v, at)
    case MouseUp => OnRelease(v)
    case MouseLeave => OnRelease(v)
    case Wheel(deltaY) => OnWheel(v, deltaY)
    case TouchStart(touches, span) => OnTouchStart(v, touches, span)
    case TouchMove(touches, span) => OnTouchMove(v, touches, span)
    case TouchEnd => OnTouchEnd(v)
  }

  /** The state after the events, in order. */
  function Run(v: View, events: seq<Event>): View
    decreases events
  {
    if events == [] then v else Run(Step(v, events[0]), events[1..])
  }

  // ---------------------------------------------------------------------
  // Properties of single events
  // ---------------------------------------------------------------------

  lemma InitialIsSteady()
    ensures Steady(Initial()) && Initial().cameraZ == 25.0 && !Initial().dragging
  {
  }

  /** Every event keeps pitch in [0, 1] and camera z in [5, 100], whatever its deltas. */
  lemma StepKeepsSteady(v: View, e: Event)
    requires Steady(v)
    ensures Steady(Step(v, e))
  {
  }

  /** A move while no button is held changes nothing. */
  lemma IdleMoveIsNoOp(v: View, at: Point)
    requires !v.dragging
    ensures OnMouseMove(v, at) == v
  {
  }

  /** A move while dragging turns by exactly the delta from `prev`, then makes `at` the reference. */
  lemma DragMove(v: View, at: Point)
    requires v.dragging
    ensures var r := OnMouseMove(v, at);
      && r.rotationY == v.rotationY - (at.x - v.prev.x) * 0.01
      && r.rotationX == Clamp(v.rotationX + (at.y - v.prev.y) * 0.005, 0.0, 1.0)
      && r.prev == at && r.dragging
      && r.cameraZ == v.cameraZ
  {
  }

  /** `mousedown` starts a drag at the pointer; `mouseup` and `mouseleave` end it, wherever it is. */
  lemma PressAndRelease(v: View, at: Point)
    ensures OnMouseDown(v, at).dragging && OnMouseDown(v, at).prev == at
    ensures OnMouseDown(v, at).rotationX == v.rotationX && OnMouseDown(v, at).rotationY == v.rotationY
    ensures !Step(v, MouseUp).dragging && !Step(v, MouseLeave).dragging
    ensures Step(v, MouseUp) == Step(v, MouseLeave)
  {
  }

  /** The wheel moves the camera by a hundredth of `deltaY`, held inside [5, 100]. */
  lemma WheelZoom(v: View, deltaY: real)
    ensures var z := OnWheel(v, deltaY).cameraZ;
      && 5.0 <= z <= 100.0
      && (5.0 <= v.cameraZ + deltaY * 0.01 <= 100.0 ==> z == v.cameraZ + deltaY * 0.01)
  {
  }

  /** A pinch scales the camera distance held at touch-start by the ratio of the spans. */
  lemma PinchZoom(v: View, start: seq<Point>, startSpan: real, move: seq<Point>, span: real)
    requires |start| == 2 && |move| == 2 && span > 0.0
    ensures var r := OnTouchMove(OnTouchStart(v, start, startSpan), move, span);
      && r.cameraZ == Clamp(v.cameraZ * (startSpan / span), 5.0, 100.0)
      && r.rotationX == v.rotationX && r.rotationY == v.rotationY
  {
  }

  /** Two fingers drawn from 100 px apart to 50 px apart double the distance, up to 100. */
  lemma PinchHalfSpanDoubles(v: View, start: seq<Point>, move: seq<Point>)
    requires |start| == 2 && |move| == 2
    ensures OnTouchMove(OnTouchStart(v, start, 100.0), move, 50.0).cameraZ == Clamp(2.0 * v.cameraZ, 5.0, 100.0)
  {
    PinchZoom(v, start, 100.0, move, 50.0);
  }

  // ---------------------------------------------------------------------
  // Properties of event sequences
  // ---------------------------------------------------------------------

  /** Any sequence of events keeps pitch in [0, 1] and camera z in [5, 100]. */
  lemma {:induction false} RunKeepsSteady(v: View, events: seq<Event>)
    requires Steady(v)
    ensures Steady(Run(v, events))
    decreases events
  {
    if events != [] {
      StepKeepsSteady(v, events[0]);
      RunKeepsSteady(Step(v, events[0]), events[1..]);
    }
  }

  /** From page load, any mix of wheel and drag events leaves the camera in [5, 100]. */
  lemma ZoomStaysInRange(events: seq<Event>)
    ensures 5.0 <= Run(Initial(), events).cameraZ <= 100.0
    ensures 0.0 <= Run(Initial(), events).rotationX <= 1.0
  {
    RunKeepsSteady(Initial(), events);
  }

  function MovesTo(points: seq<Point>): (events: seq<Event>)
    ensures |events| == |points|
    ensures forall k :: 0 <= k < |events| ==> events[k] == MouseMove(points[k])
  {
    if points == [] then [] else [MouseMove(points[0])] + MovesTo(points[1..])
  }

  /** While dragging, yaw changes telescope: the total is set by the first and last points. */
  lemma {:induction false} DragTelescopes(v: View, points: seq<Point>)
    requires v.dragging && points != []
    ensures var r := Run(v, MovesTo(points));
      && r.dragging
      && r.prev == points[|points| - 1]
      && r.rotationY == v.rotationY - (points[|points| - 1].x - v.prev.x) * YawSpeed
    decreases points
  {
    var w := Step(v, MouseMove(points[0]));
    assert MovesTo(points)[1..] == MovesTo(points[1..]);
    if |points| > 1 {
      DragTelescopes(w, points[1..]);
    }
  }

  /** One drag from `mousedown` at `down` through the points of `moves`: the yaw changes by
      `-(lastX - downX) * 0.01`, however the pointer wandered. */
  lemma WholeDragYaw(v: View, down: Point, points: seq<Point>)
    requires points != []
    ensures Run(v, [MouseDown(down)] + MovesTo(points)).rotationY ==
      v.rotationY - (points[|points| - 1].x - down.x) * 0.01
  {
    var events := [MouseDown(down)] + MovesTo(points);
    assert events[1..] == MovesTo(points);
    DragTelescopes(OnMouseDown(v, down), points);
  }

  /** Moves after a release do nothing until the next `mousedown`. */
  lemma {:induction false} ReleasedMovesAreIgnored(v: View, points: seq<Point>)
    requires !v.dragging
    ensures Run(v, MovesTo(points)) == v
  {
    if points != [] {
      assert MovesTo(points)[1..] == MovesTo(points[1..]);
      ReleasedMovesAreIgnored(v, points[1..]);
    }
  }

  /** After `touchend`, touch moves with any number of fingers change nothing until a new
      `touchstart`. */
  lemma {:induction false} TouchMovesAfterEndAreIgnored(v: View, events: seq<Event>)
    requires forall k :: 0 <= k < |events| ==> events[k].TouchMove?
    ensures Run(OnTouchEnd(v), events) == OnTouchEnd(v)
  {
    if events != [] {
      TouchMovesAfterEndAreIgnored(v, events[1..]);
    }
  }

  // ---------------------------------------------------------------------
  // The pinch update as written: no guard on the current span
  // ---------------------------------------------------------------------

  /** The values the pinch arithmetic can produce in JavaScript for non-negative operands. */
  datatype Number = Finite(value: real) | PositiveInfinity | NaN

  /** `a / b` for spans `a, b >= 0`: 0 / 0 is NaN and a positive number over 0 is +Infinity. */
  function Quotient(a: real, b: real): Number
    requires a >= 0.0 && b >= 0.0
  {
    if b > 0.0 then Finite(a / b)
    else if a > 0.0 then PositiveInfinity
    else NaN
  }

  /** `z * q` for a positive camera distance `z`. */
  function Scaled(z: real, q: Number): Number
    requires z > 0.0
  {
    match q
    case Finite(f) => Finite(z * f)
    case PositiveInfinity => PositiveInfinity
    case NaN => NaN
  }

  /** `Math.max(lo, Math.min(hi, x))`: NaN passes through both, +Infinity becomes `hi`. */
  function ClampNumber(x: Number, lo: real, hi: real): Number
    requires lo <= hi
  {
    match x
    case Finite(f) => Finite(Clamp(f, lo, hi))
    case PositiveInfinity => Finite(hi)
    case NaN => NaN
  }

  /** The camera distance the two-finger branch of `touchmove` assigns, exactly as written. */
  function PinchZAsWritten(initialZ: real, initialSpan: real, span: real): Number
    requires initialZ > 0.0 && initialSpan >= 0.0 && span >= 0.0
  {
    ClampNumber(Scaled(initialZ, Quotient(initialSpan, span)), MinZ, MaxZ)
  }

  /**
   * Two fingers that touch down on the same pixel and move while still together make the
   * code divide 0 by 0: camera z becomes NaN and leaves [5, 100] for good. Fingers that start
   * apart and meet send the camera to the far limit instead of holding it.
   */
  lemma PinchZeroSpanAsWritten(initialZ: real, initialSpan: real)
    requires initialZ > 0.0 && initialSpan >= 0.0
    ensures initialSpan == 0.0 ==> PinchZAsWritten(initialZ, initialSpan, 0.0) == NaN
    ensures initialSpan > 0.0 ==> PinchZAsWritten(initialZ, initialSpan, 0.0) == Finite(MaxZ)
  {
  }

  /** Wherever the current span is positive, the guarded handler does what the code does. */
  lemma PinchAgreesWhenSpanPositive(v: View, touches: seq<Point>, span: real)
    requires Steady(v) && Pinching(v, touches) && v.initialPinch.value >= 0.0 && span > 0.0
    ensures PinchZAsWritten(v.initialCameraZ, v.initialPinch.value, span) == Finite(OnTouchMove(v, touches, span).cameraZ)
  {
  }

  /** The guarded handler holds the distance when the fingers meet, so it never leaves [5, 100]. */
  lemma PinchZeroSpanHolds(v: View, touches: seq<Point>)
    requires Steady(v) && Pinching(v, touches)
    ensures OnTouchMove(v, touches, 0.0) == v
    ensures Steady(OnTouchMove(v, touches, 0.0))
  {
  }

  // ---------------------------------------------------------------------
  // The handlers as the page registers them
  // ---------------------------------------------------------------------

  /** The module-level variables the canvas listeners reassign. */
  class OrbitControls {
    var isDragging: bool
    var prev: Point
    var rotationX: real
    var rotationY: real
    var pivotX: real
    var pivotY: real
    var cameraZ: real
    var lastTouch: Option<Point>
    var initialPinchDistance: Option<real>
    var initialCameraZ: real

    function Snapshot(): View
      reads this
    {
      View(isDragging, prev, rotationX, rotationY, pivotX, pivotY, cameraZ,
           lastTouch, initialPinchDistance, initialCameraZ)
    }

    ghost predicate Valid()
      reads this
    {
      Steady(Snapshot())
    }

    constructor ()
      ensures Valid() && Snapshot() == Initial()
    {
      isDragging := false;
      prev := Point(0.0, 0.0);
      rotationX, rotationY := 0.0, 0.0;
      pivotX, pivotY := 0.0, 0.0;
      cameraZ := StartZ;
      lastTouch := None;
      initialPinchDistance := None;
      initialCameraZ := cameraZ;
    }

    method MouseDown(x: real, y: real)
      requires Valid()
      modifies this
      ensures Valid() && Snapshot() == OnMouseDown(old(Snapshot()), Point(x, y))
    {
      isDragging := true;
      prev := Point(x, y);
    }

    method MouseMove(x: real, y: real)
      requires Valid()
      modifies this
      ensures Valid() && Snapshot() == OnMouseMove(old(Snapshot()), Point(x, y))
    {
      if !isDragging {
        return;
      }
      var deltaX := x - prev.x;
      var deltaY := y - prev.y;
      rotationY := rotationY - deltaX * YawSpeed;
      rotationX := rotationX + deltaY * PitchSpeed;
      rotationX := Clamp(rotationX, MinPitch, MaxPitch);
      pivotX, pivotY := rotationX, rotationY;
      prev := Point(x, y);
    }

    /** Registered for both `mouseup` and `mouseleave`. */
    method Release()
      requires Valid()
      modifies this
      ensures Valid() && Snapshot() == OnRelease(old(Snapshot()))
    {
      isDragging := false;
    }

    method Wheel(deltaY: real)
      requires Valid()
      modifies this
      ensures Valid() && Snapshot() == OnWheel(old(Snapshot()), deltaY)
    {
      cameraZ := cameraZ + deltaY * WheelSpeed;
      cameraZ := Clamp(cameraZ, MinZ, MaxZ);
    }

    method TouchStart(touches: seq<Point>, span: real)
      requires Valid() && SpanOf(touches, span)
      modifies this
      ensures Valid() && Snapshot() == OnTouchStart(old(Snapshot()), touches, span)
    {
      if |touches| == 1 {
        lastTouch := Some(touches[0]);
      } else if |touches| == 2 {
        initialPinchDistance := Some(span);
        initialCameraZ := cameraZ;
      }
    }

    method TouchMove(touches: seq<Point>, span: real)
      requires Valid() && SpanOf(touches, span)
      modifies this
      ensures Valid() && Snapshot() == OnTouchMove(old(Snapshot()), touches, span)
    {
      if |touches| == 1 && lastTouch.Some? {
        var deltaX := touches[0].x - lastTouch.value.x;
        var deltaY := touches[0].y - lastTouch.value.y;
        rotationY := rotationY - deltaX * YawSpeed;
        rotationX := rotationX + deltaY * PitchSpeed;
        rotationX := Clamp(rotationX, MinPitch, MaxPitch);
        pivotX, pivotY := rotationX, rotationY;
        lastTouch := Some(touches[0]);
      } else if |touches| == 2 && initialPinchDistance.Some? {
        if span > 0.0 {
          var zoomFactor := initialPinchDistance.value / span;
          cameraZ := Clamp(initialCameraZ * zoomFactor, MinZ, MaxZ);
        }
      }
    }

    method TouchEnd()
      requires Valid()
      modifies this
      ensures Valid() && Snapshot() == OnTouchEnd(old(Snapshot()))
    {
      lastTouch := None;
      initialPinchDistance := None;
    }
  }
}
