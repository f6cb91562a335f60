/**
 * The test level's own rules: the play-area clamp, the key record kept by
 * the keyboard listeners, and the per-frame speed choice near the pushable
 * cube.
 */
module Levels {
  import opened Engine
  import opened Controls

  const GroundSize: real := 20.0
  /** Half the ground minus a margin of 0.5, that is 9.5. */
  const Boundary: real := GroundSize / 2.0 - 0.5

  const GrabSpeed: real := 0.025
  const WalkSpeed: real := 0.1
  const GrabDistance: real := 1.5

  /** The level's key codes; A and the left arrow drive "right", D and the right arrow drive "left". */
  const KeyMappings: map<string, Action> := map[
    "KeyW" := Forward, "KeyS" := Backward, "KeyA" := Right, "KeyD" := Left,
    "ArrowUp" := Forward, "ArrowDown" := Backward, "ArrowLeft" := Right, "ArrowRight" := Left,
    "ShiftLeft" := Crawl, "KeyC" := Grab]

  function Mapped(code: string): Option<Action> {
    if code in KeyMappings then Some(KeyMappings[code]) else None
  }

  /** The region the clamp enforces: x at most the boundary (no lower x limit) and z within the boundary. */
  predicate InBounds(p: Vec3) {
    p.x <= Boundary && -Boundary <= p.z <= Boundary
  }

  /** `checkBoundaries` as a function: clamp x from above only, then z from above, then z from below. */
  function Clamped(p: Vec3): (r: Vec3)
    ensures InBounds(r)
    ensures r.y == p.y && r.x <= p.x
    ensures InBounds(p) ==> r == p
  {
    var x := if p.x > Boundary then Boundary else p.x;
    var z := if p.z > Boundary then Boundary else p.z;
    var z := if z < -Boundary then -Boundary else z;
    Vec3(x, p.y, z)
  }

  /** The clamp moves a point to the nearest in-bounds point on each axis: no in-bounds point is closer in x or in z. */
  lemma ClampedIsNearest(p: Vec3, q: Vec3)
    requires InBounds(q)
    ensures Dist(Clamped(p).x, p.x) <= Dist(q.x, p.x) && Dist(Clamped(p).z, p.z) <= Dist(q.z, p.z)
  {
  }

  function Dist(a: real, b: real): real {
    if a >= b then a - b else b - a
  }

  lemma ClampIdempotent(p: Vec3)
    ensures Clamped(Clamped(p)) == Clamped(p)
  {
  }

  /** Far to the left nothing is clamped: x is never raised. */
  lemma NoLowerXClamp(p: Vec3)
    requires -Boundary <= p.z <= Boundary && p.x < -Boundary
    ensures Clamped(p) == p
  {
  }

  /**
   * The speed chosen each frame from the distance to the pushable cube:
   * grabbing within 1.5 gives the grab speed, beyond 1.5 the walking speed,
   * and otherwise (exactly 1.5, or close without grabbing) the speed stays.
   */
  function SelectSpeed(cubeDistance: real, isGrabbing: bool, speed: real): (r: real)
    ensures cubeDistance < GrabDistance && isGrabbing ==> r == GrabSpeed
    ensures cubeDistance > GrabDistance ==> r == WalkSpeed
    ensures cubeDistance == GrabDistance || (cubeDistance < GrabDistance && !isGrabbing) ==> r == speed
  {
    if cubeDistance < GrabDistance && isGrabbing then GrabSpeed
    else if cubeDistance > GrabDistance then WalkSpeed
    else speed
  }

  /** Once chosen, the speed is stable for as long as the distance and grab state stay the same. */
  lemma SelectSpeedIdempotent(cubeDistance: real, isGrabbing: bool, speed: real)
    ensures var s := SelectSpeed(cubeDistance, isGrabbing, speed);
      SelectSpeed(cubeDistance, isGrabbing, s) == s
  {
  }

  /** Holding only A (or the left arrow) moves toward +x, holding only D toward -x. */
  lemma SwappedSideKeys()
    ensures Direction(map[KeyMappings["KeyA"] := true]).x == 1.0
    ensures Direction(map[KeyMappings["KeyD"] := true]).x == -1.0
    ensures Direction(map[KeyMappings["ArrowLeft"] := true]).x == 1.0
  {
  }

  /** The listeners' record and the boundary of one level. */
  class Level {
    var keys: Keys
    const boundary: real := Boundary

    constructor ()
      ensures keys == map[]
    {
      keys := map[];
    }

    method KeyDown(code: string)
      modifies this`keys
      ensures keys == Record(old(keys), Mapped(code), true)
    {
      var action := Mapped(code);
      if action.Some? {
        keys := keys[action.value := true];
      }
    }

    method KeyUp(code: string)
      modifies this`keys
      ensures keys == Record(old(keys), Mapped(code), false)
    {
      var action := Mapped(code);
      if action.Some? {
        keys := keys[action.value := false];
      }
    }

    /** Overwrites the object's position components that lie outside the play area. */
    method CheckBoundaries(item: Mesh)
      modifies item`position
      ensures item.position == Clamped(old(item.position))
    {
      if item.position.x > boundary {
        item.position := item.position.(x := boundary);
      }
      if item.position.z > boundary {
        item.position := item.position.(z := boundary);
      }
      if item.position.z < -boundary {
        item.position := item.position.(z := -boundary);
      }
    }
  }
}
