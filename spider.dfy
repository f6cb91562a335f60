/**
 * The spider enemy: while farther than the stopping distance from its
 * target it steps toward it in the horizontal plane, turns to face it, and
 * keeps its collision cube on its mesh.
 */
module Spiders {
  import opened Engine

  const DefaultSpeed: real := 0.1
  const StoppingDistance: real := 2.0

  /** One chase step: the displacement handed to the physics service and the yaw to face. */
  datatype Step = Step(moveVector: Vec3, angle: real)

  /** The planar move vector: the x and z of the direction times the speed, with no vertical part. */
  function MoveVector(direction: Vec3, speed: real): (m: Vec3)
    ensures m.y == 0.0
    ensures m == Scale(direction.(y := 0.0), speed)
  {
    Vec3(direction.x * speed, 0.0, direction.z * speed)
  }

  /**
   * The chase decision for the spider at `self` and the target at `target`
   * (None while that mesh is not loaded): no step unless both are loaded
   * and the distance exceeds the stopping distance strictly.
   */
  function Plan(self: Option<Vec3>, target: Option<Vec3>, speed: real, maths: Maths): (r: Option<Step>)
    ensures r.Some? <==> self.Some? && target.Some? && maths.length(Sub(self.value, target.value)) > StoppingDistance
    ensures r.Some? ==> r.value.moveVector.y == 0.0
    ensures r.Some? ==>
      var dir := maths.normalize(Sub(target.value, self.value));
      r.value.moveVector.x == dir.x * speed && r.value.moveVector.z == dir.z * speed &&
      r.value.angle == maths.atan2(dir.x, dir.z)
  {
    if self.None? || target.None? then None
    else
      var dir := maths.normalize(Sub(target.value, self.value));
      var distance := maths.length(Sub(self.value, target.value));
      if distance > StoppingDistance then Some(Step(MoveVector(dir, speed), maths.atan2(dir.x, dir.z))) else None
  }

  /** At or within the stopping distance the spider holds still, whatever the direction. */
  lemma HoldsWithinStoppingDistance(self: Vec3, target: Vec3, speed: real, maths: Maths)
    requires maths.length(Sub(self, target)) <= StoppingDistance
    ensures Plan(Some(self), Some(target), speed, maths).None?
  {
  }

  function Position(m: Mesh?): Option<Vec3>
    reads m
  {
    if m == null then None else Some(m.position)
  }

  class Spider {
    const speed: real
    var mesh: Mesh?
    var collisionCube: Mesh?

    /** The collision cube is a mesh of its own, never the spider's model mesh. */
    ghost predicate Valid()
      reads this
    {
      mesh != null && collisionCube != null ==> mesh != collisionCube
    }

    constructor (speed: real := DefaultSpeed)
      ensures Valid()
      ensures this.speed == speed && mesh == null && collisionCube == null
    {
      this.speed := speed;
      mesh := null;
      collisionCube := null;
    }

    /** The model-loader callback: the mesh appears, and a collision cube is placed at its position. */
    method Loaded(position: Vec3, scale: Vec3)
      modifies this`mesh, this`collisionCube
      ensures Valid()
      ensures fresh(mesh) && mesh.position == position && mesh.scaling == scale
      ensures fresh(collisionCube) && collisionCube.position == position && collisionCube.scaling == scale
    {
      mesh := new Mesh(position);
      mesh.scaling := scale;
      collisionCube := new Mesh(position);
      collisionCube.scaling := scale;
    }

    /** One chase tick toward the target's mesh (null while the target is not loaded). */
    method Crawl(target: Mesh?, maths: Maths, world: World)
      requires Valid()
      modifies mesh, collisionCube
      ensures Valid()
      ensures mesh == old(mesh) && collisionCube == old(collisionCube)
      ensures
        var plan := old(Plan(Position(mesh), Position(target), speed, maths));
        match plan
        case None =>
          (mesh != null ==> unchanged(mesh)) && (collisionCube != null ==> unchanged(collisionCube))
        case Some(step) =>
          mesh != null &&
          mesh.position == world.moveWithCollisions(old(mesh.position), step.moveVector) &&
          mesh.yaw == step.angle &&
          mesh.scaling == old(mesh.scaling) && mesh.rotationY == old(mesh.rotationY) &&
          (collisionCube != null ==>
             collisionCube.position == mesh.position &&
             collisionCube.yaw == step.angle && collisionCube.rotationY == step.angle &&
             collisionCube.scaling == old(collisionCube.scaling))
    {
      if mesh == null {
        return;
      }
      if target == null {
        return;
      }
      var direction := maths.normalize(Sub(target.position, mesh.position));
      var distance := maths.length(Sub(mesh.position, target.position));
      if distance > StoppingDistance {
        var moveVector := Vec3(direction.x * speed, 0.0, direction.z * speed);
        assert Plan(Position(mesh), Position(target), speed, maths).value.moveVector == moveVector;
        mesh.position := world.moveWithCollisions(mesh.position, moveVector);
        if collisionCube != null {
          collisionCube.position := mesh.position;
        }
        var angle := maths.atan2(direction.x, direction.z);
        mesh.yaw := angle;
        if collisionCube != null {
          collisionCube.yaw := angle;
        }
        if collisionCube != null {
          collisionCube.rotationY := angle;
        }
      }
    }
  }
}
