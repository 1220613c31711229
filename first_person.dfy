// First-person controls of the main page: pointer-lock mouse look (yaw on the camera
// holder, clamped pitch on the camera) and W/A/S/D movement applied once per frame.

module FirstPerson {
  import opened Common

  const LookSpeed: real := 0.002
  const MoveSpeed: real := 0.1

  datatype Vec3 = Vec3(x: real, y: real, z: real)

  /** The camera holder's starting position. */
  const StartPosition: Vec3 := Vec3(0.0, 10.0, 19.0)

  /** The own properties of the `keys` object. */
  const MovementKeys: set<string> := {"w", "a", "s", "d"}

  function NoKeys(): (keys: map<string, bool>)
    ensures keys.Keys == MovementKeys
    ensures forall k :: k in keys ==> !keys[k]
  {
    map["w" := false, "a" := false, "s" := false, "d" := false]
  }

  predicate KeyMap(keys: map<string, bool>) { keys.Keys == MovementKeys }

  /** `keydown` (`down`) and `keyup` (`!down`): lower-case the key and set it if it is one of the four. */
  function Press(keys: map<string, bool>, key: string, down: bool): map<string, bool>
  {
    var k := Lower(key);
    if k in keys then keys[k := down] else keys
  }

  /** A key that is one of the four, in either case, is set; nothing else changes. */
  lemma PressSetsOnlyItsKey(keys: map<string, bool>, key: string, down: bool)
    requires KeyMap(keys)
    ensures KeyMap(Press(keys, key, down))
    ensures Lower(key) in MovementKeys ==> Press(keys, key, down)[Lower(key)] == down
    ensures forall k :: k in keys && k != Lower(key) ==> Press(keys, key, down)[k] == keys[k]
    ensures Lower(key) !in MovementKeys ==> Press(keys, key, down) == keys
  {
  }

  /** Auto-repeated `keydown` events change nothing after the first. */
  lemma PressIdempotent(keys: map<string, bool>, key: string, down: bool)
    ensures Press(Press(keys, key, down), key, down) == Press(keys, key, down)
  {
  }

  /** "W" and "w" address the same entry. */
  lemma PressIgnoresCase(keys: map<string, bool>, key: string, down: bool)
    ensures Press(keys, Lower(key), down) == Press(keys, key, down)
  {
    LowerIdempotent(key);
  }

  lemma {:induction false} LowerIdempotent(s: string)
    ensures Lower(Lower(s)) == Lower(s)
  {
    forall i | 0 <= i < |s| ensures Lower(Lower(s))[i] == Lower(s)[i] {
      assert !IsUpper(Lower(s)[i]);
    }
  }

  /** The direction `updateMovement` builds: w and s move along z, a and d along x. */
  function Direction(keys: map<string, bool>): (d: (real, real))
    requires KeyMap(keys)
  {
    var z := (if keys["w"] then -1.0 else 0.0) + (if keys["s"] then 1.0 else 0.0);
    var x := (if keys["a"] then -1.0 else 0.0) + (if keys["d"] then 1.0 else 0.0);
    (x, z)
  }

  function LengthSq(d: (real, real)): real { d.0 * d.0 + d.1 * d.1 }

  /**
   * The unit step of `updateMovement` in world axes: the direction divided by its length `len`
   * (`normalize`), then turned by the holder's yaw, given by its `cos` and `sin`.
   */
  function Heading(d: (real, real), len: real, cos: real, sin: real): (real, real)
    requires len > 0.0
  {
    var nx, nz := d.0 / len, d.1 / len;
    (nx * cos + nz * sin, -nx * sin + nz * cos)
  }

  /**
   * One frame of `updateMovement`. `cos` and `sin` describe the holder's yaw and `len` is what
   * `Math.sqrt` returned for the direction's squared length; all three are supplied by the caller.
   */
  function Moved(pos: Vec3, keys: map<string, bool>, cos: real, sin: real, len: real): Vec3
    requires KeyMap(keys)
    requires LengthSq(Direction(keys)) > 0.0 ==> len > 0.0
  {
    var d := Direction(keys);
    if LengthSq(d) > 0.0 then
      var h := Heading(d, len, cos, sin);
      pos.(x := pos.x + h.0 * MoveSpeed, z := pos.z + h.1 * MoveSpeed)
    else pos
  }

  /** Whether the pressed keys cancel: none pressed, or only opposite pairs. */
  predicate Balanced(keys: map<string, bool>)
    requires KeyMap(keys)
  {
    keys["w"] == keys["s"] && keys["a"] == keys["d"]
  }

  lemma DirectionZero(keys: map<string, bool>)
    requires KeyMap(keys)
    ensures LengthSq(Direction(keys)) == 0.0 <==> Balanced(keys)
    ensures LengthSq(Direction(keys)) >= 0.0
  {
  }

  /** A frame never touches the height of the holder. */
  lemma MovedKeepsHeight(pos: Vec3, keys: map<string, bool>, cos: real, sin: real, len: real)
    requires KeyMap(keys)
    requires LengthSq(Direction(keys)) > 0.0 ==> len > 0.0
    ensures Moved(pos, keys, cos, sin, len).y == pos.y
  {
  }

  lemma RotationKeepsLength(nx: real, nz: real, cos: real, sin: real)
    requires cos * cos + sin * sin == 1.0
    ensures (nx * cos + nz * sin) * (nx * cos + nz * sin) + (-nx * sin + nz * cos) * (-nx * sin + nz * cos)
      == nx * nx + nz * nz
  {
    assert (nx * cos + nz * sin) * (nx * cos + nz * sin) + (-nx * sin + nz * cos) * (-nx * sin + nz * cos)
      == (nx * nx + nz * nz) * (cos * cos + sin * sin);
  }

  /** Turning by the yaw keeps length, so the heading is the direction's length over `len`. */
  lemma HeadingLength(d: (real, real), len: real, cos: real, sin: real)
    requires len > 0.0 && cos * cos + sin * sin == 1.0
    ensures var h := Heading(d, len, cos, sin);
      (h.0 * h.0 + h.1 * h.1) * (len * len) == LengthSq(d)
  {
    RotationKeepsLength(d.0 / len, d.1 / len, cos, sin);
    assert (d.0 / len) * len == d.0 && (d.1 / len) * len == d.1;
    assert ((d.0 / len) * (d.0 / len)) * (len * len) == d.0 * d.0;
    assert ((d.1 / len) * (d.1 / len)) * (len * len) == d.1 * d.1;
  }

  function DistanceSq(a: Vec3, b: Vec3): real
  {
    (b.x - a.x) * (b.x - a.x) + (b.z - a.z) * (b.z - a.z)
  }

  /**
   * Diagonal movement is not faster: a frame moves the holder by `MoveSpeed` times the
   * direction's length over `len`, which is exactly `MoveSpeed` when `len` is that length,
   * and not at all when the pressed keys cancel.
   */
  lemma MovedDistance(pos: Vec3, keys: map<string, bool>, cos: real, sin: real, len: real)
    requires KeyMap(keys) && cos * cos + sin * sin == 1.0
    requires LengthSq(Direction(keys)) > 0.0 ==> len > 0.0
    ensures DistanceSq(pos, Moved(pos, keys, cos, sin, len)) * (len * len)
      == MoveSpeed * MoveSpeed * LengthSq(Direction(keys))
    ensures Moved(pos, keys, cos, sin, len) == pos <==> Balanced(keys)
  {
    DirectionZero(keys);
    var d := Direction(keys);
    if !Balanced(keys) {
      var h := Heading(d, len, cos, sin);
      HeadingLength(d, len, cos, sin);
      assert DistanceSq(pos, Moved(pos, keys, cos, sin, len))
        == (h.0 * MoveSpeed) * (h.0 * MoveSpeed) + (h.1 * MoveSpeed) * (h.1 * MoveSpeed);
    }
  }

  /**
   * With `len` the exact length of the direction, every frame in which the pressed keys do not
   * cancel moves the holder by exactly `MoveSpeed`, straight or diagonal.
   */
  lemma MovedFullStep(pos: Vec3, keys: map<string, bool>, cos: real, sin: real, len: real)
    requires KeyMap(keys) && !Balanced(keys) && cos * cos + sin * sin == 1.0
    requires len > 0.0 && len * len == LengthSq(Direction(keys))
    ensures DistanceSq(pos, Moved(pos, keys, cos, sin, len)) == MoveSpeed * MoveSpeed
  {
    MovedDistance(pos, keys, cos, sin, len);
    DirectionZero(keys);
    FullStepArith(DistanceSq(pos, Moved(pos, keys, cos, sin, len)), LengthSq(Direction(keys)), len);
  }

  lemma FullStepArith(dist: real, q: real, len: real)
    requires q > 0.0 && len * len == q && dist * (len * len) == MoveSpeed * MoveSpeed * q
    ensures dist == MoveSpeed * MoveSpeed
  {
    CancelPositive(dist, MoveSpeed * MoveSpeed, q);
  }

  lemma CancelPositive(x: real, y: real, c: real)
    requires c > 0.0 && x * c == y * c
    ensures x == y
  {
    if x < y {
      PositiveProduct(y - x, c);
    } else if x > y {
      PositiveProduct(x - y, c);
    }
  }

  lemma PositiveProduct(x: real, y: real)
    requires x > 0.0 && y > 0.0
    ensures x * y > 0.0
  {
  }

  function Only(key: string): map<string, bool>
    requires key in MovementKeys
  {
    NoKeys()[key := true]
  }

  /** At yaw 0 (cos 1, sin 0) w moves the holder 0.1 towards -z and d moves it 0.1 towards +x. */
  lemma YawZeroMoves(pos: Vec3)
    ensures Moved(pos, Only("w"), 1.0, 0.0, 1.0) == pos.(z := pos.z - 0.1)
    ensures Moved(pos, Only("d"), 1.0, 0.0, 1.0) == pos.(x := pos.x + 0.1)
  {
  }

  /** At yaw pi/2 (cos 0, sin 1) w moves the holder 0.1 towards -x. */
  lemma QuarterTurnForward(pos: Vec3)
    ensures Moved(pos, Only("w"), 0.0, 1.0, 1.0) == pos.(x := pos.x - 0.1)
  {
  }

  // ---------------------------------------------------------------------
  // Mouse look
  // ---------------------------------------------------------------------

  /** `event.movementX || 0`: a missing (or NaN) movement counts as 0. */
  function OrZero(m: Option<real>): real
  {
    match m
    case Some(v) => v
    case None => 0.0
  }

  /** `onMouseMove`: the new (yaw, pitch), pitch held within [-halfPi, halfPi]. */
  function Look(yaw: real, pitch: real, mx: Option<real>, my: Option<real>, halfPi: real): (real, real)
    requires halfPi > 0.0
  {
    (yaw - OrZero(mx) * LookSpeed, Clamp(pitch - OrZero(my) * LookSpeed, -halfPi, halfPi))
  }

  /** The look state after the movements, in order. */
  function LookAll(yaw: real, pitch: real, moves: seq<(Option<real>, Option<real>)>, halfPi: real): (real, real)
    requires halfPi > 0.0
    decreases |moves|
  {
    if moves == [] then (yaw, pitch)
    else
      var (y, p) := Look(yaw, pitch, moves[0].0, moves[0].1, halfPi);
      LookAll(y, p, moves[1..], halfPi)
  }

  function SumX(moves: seq<(Option<real>, Option<real>)>): real
  {
    if moves == [] then 0.0 else OrZero(moves[0].0) + SumX(moves[1..])
  }

  /** Pitch starting inside [-halfPi, halfPi] stays inside after any sequence of movements. */
  lemma {:induction false} PitchStaysBounded(yaw: real, pitch: real, moves: seq<(Option<real>, Option<real>)>, halfPi: real)
    requires halfPi > 0.0 && -halfPi <= pitch <= halfPi
    ensures -halfPi <= LookAll(yaw, pitch, moves, halfPi).1 <= halfPi
    decreases |moves|
  {
    if moves != [] {
      var (y, p) := Look(yaw, pitch, moves[0].0, moves[0].1, halfPi);
      PitchStaysBounded(y, p, moves[1..], halfPi);
    }
  }

  /** Yaw is never clamped: it ends at its start minus 0.002 times the summed horizontal movement. */
  lemma {:induction false} YawAccumulates(yaw: real, pitch: real, moves: seq<(Option<real>, Option<real>)>, halfPi: real)
    requires halfPi > 0.0
    ensures LookAll(yaw, pitch, moves, halfPi).0 == yaw - SumX(moves) * LookSpeed
    decreases |moves|
  {
    if moves != [] {
      var (y, p) := Look(yaw, pitch, moves[0].0, moves[0].1, halfPi);
      YawAccumulates(y, p, moves[1..], halfPi);
    }
  }

  /** A movement of zero, or a missing one, leaves yaw and pitch as they were (pitch in range). */
  lemma StillMouseLooksStill(yaw: real, pitch: real, halfPi: real)
    requires halfPi > 0.0 && -halfPi <= pitch <= halfPi
    ensures Look(yaw, pitch, None, None, halfPi) == (yaw, pitch)
    ensures Look(yaw, pitch, Some(0.0), Some(0.0), halfPi) == (yaw, pitch)
  {
  }

  // ---------------------------------------------------------------------
  // The page's controller
  // ---------------------------------------------------------------------

  /** The state the main page's listeners and frame loop reassign. */
  class FirstPersonControls {
    /** `Math.PI / 2`, taken as a parameter. */
    const halfPi: real
    var keys: map<string, bool>
    var pitch: real
    var cameraPitch: real
    var holderYaw: real
    var position: Vec3
    /** Whether `onMouseMove` is registered for the document's `mousemove`. */
    var looking: bool

    ghost predicate Valid()
      reads this
    {
      && halfPi > 0.0
      && KeyMap(keys)
      && -halfPi <= pitch <= halfPi
      && cameraPitch == pitch
    }

    constructor (halfPi: real)
      requires halfPi > 0.0
      ensures Valid() && this.halfPi == halfPi
      ensures keys == NoKeys() && pitch == 0.0 && holderYaw == 0.0
      ensures position == StartPosition && !looking
    {
      this.halfPi := halfPi;
      keys := NoKeys();
      pitch := 0.0;
      cameraPitch := 0.0;
      holderYaw := 0.0;
      position := StartPosition;
      looking := false;
    }

    /** `pointerlockchange`: listen for movement exactly while the body holds the lock. */
    method PointerLockChange(lockedOnBody: bool)
      requires Valid()
      modifies this
      ensures Valid() && looking == lockedOnBody
      ensures keys == old(keys) && pitch == old(pitch) && holderYaw == old(holderYaw)
      ensures position == old(position)
    {
      if lockedOnBody {
        looking := true;
      } else {
        looking := false;
      }
    }

    /** `onMouseMove`. */
    method OnMouseMove(movementX: Option<real>, movementY: Option<real>)
      requires Valid()
      modifies this
      ensures Valid()
      ensures (holderYaw, pitch) == Look(old(holderYaw), old(pitch), movementX, movementY, halfPi)
      ensures keys == old(keys) && position == old(position) && looking == old(looking)
    {
      var mx := OrZero(movementX);
      var my := OrZero(movementY);
      holderYaw := holderYaw - mx * LookSpeed;
      pitch := pitch - my * LookSpeed;
      pitch := Max(-halfPi, Min(halfPi, pitch));
      cameraPitch := pitch;
    }

    /** A `mousemove` on the document: it reaches `onMouseMove` only while listening. */
    method MouseMove(movementX: Option<real>, movementY: Option<real>)
      requires Valid()
      modifies this
      ensures Valid()
      ensures old(looking) ==>
        (holderYaw, pitch) == Look(old(holderYaw), old(pitch), movementX, movementY, halfPi)
      ensures !old(looking) ==> holderYaw == old(holderYaw) && pitch == old(pitch)
      ensures keys == old(keys) && position == old(position) && looking == old(looking)
    {
      if looking {
        OnMouseMove(movementX, movementY);
      }
    }

    method KeyDown(key: string)
      requires Valid()
      modifies this
      ensures Valid() && keys == Press(old(keys), key, true)
      ensures pitch == old(pitch) && holderYaw == old(holderYaw) && position == old(position)
      ensures looking == old(looking)
    {
      var k := Lower(key);
      if k in keys {
        keys := keys[k := true];
      }
    }

    method KeyUp(key: string)
      requires Valid()
      modifies this
      ensures Valid() && keys == Press(old(keys), key, false)
      ensures pitch == old(pitch) && holderYaw == old(holderYaw) && position == old(position)
      ensures looking == old(looking)
    {
      var k := Lower(key);
      if k in keys {
        keys := keys[k := false];
      }
    }

    /** `updateMovement`, run once per animation frame. */
    method UpdateMovement(cos: real, sin: real, len: real)
      requires Valid()
      requires LengthSq(Direction(keys)) > 0.0 ==> len > 0.0
      modifies this`position
      ensures Valid()
      ensures position == Moved(old(position), keys, cos, sin, len)
    {
      var dirX, dirZ := 0.0, 0.0;
      if keys["w"] { dirZ := dirZ - 1.0; }
      if keys["s"] { dirZ := dirZ + 1.0; }
      if keys["a"] { dirX := dirX - 1.0; }
      if keys["d"] { dirX := dirX + 1.0; }
      if dirX * dirX + dirZ * dirZ > 0.0 {
        dirX, dirZ := dirX / len, dirZ / len;
        var dx := dirX * cos + dirZ * sin;
        var dz := -dirX * sin + dirZ * cos;
        position := position.(x := position.x + dx * MoveSpeed, z := position.z + dz * MoveSpeed);
      }
    }
  }
}
