/**
 * The slice of the rendering engine that the gameplay code touches: 3D
 * vectors, meshes with a position, and the physics and math services the
 * game calls but does not implement. Those services are uninterpreted
 * oracles: the model says WHAT was asked of them and uses their answers.
 */
module Engine {

  datatype Option<T> = None | Some(value: T)

  /** A 3D vector as a value (a snapshot of an engine Vector3). */
  datatype Vec3 = Vec3(x: real, y: real, z: real)

  const Origin: Vec3 := Vec3(0.0, 0.0, 0.0)

  function Add(a: Vec3, b: Vec3): Vec3 {
    Vec3(a.x + b.x, a.y + b.y, a.z + b.z)
  }

  function Sub(a: Vec3, b: Vec3): Vec3 {
    Vec3(a.x - b.x, a.y - b.y, a.z - b.z)
  }

  function Scale(v: Vec3, k: real): Vec3 {
    Vec3(v.x * k, v.y * k, v.z * k)
  }

  /** Scaling twice is scaling once by the product. */
  lemma ScaleTwice(v: Vec3, a: real, b: real)
    ensures Scale(Scale(v, a), b) == Scale(v, a * b)
  {
    assert v.x * a * b == v.x * (a * b);
    assert v.y * a * b == v.y * (a * b);
    assert v.z * a * b == v.z * (a * b);
  }

  /**
   * The physics services of the scene.
   *  - moveWithCollisions(from, delta): where a mesh standing at `from` ends
   *    up when asked to move by `delta`, after collision response;
   *  - pickWithRay(origin, direction, length): whether a ray of that
   *    direction and length cast from `origin` hits some mesh.
   */
  datatype World = World(moveWithCollisions: (Vec3, Vec3) -> Vec3, pickWithRay: (Vec3, Vec3, real) -> bool)

  /**
   * Floating-point geometry the game leaves to the engine: normalisation,
   * vector length and atan2. Their results are taken as given.
   */
  datatype Maths = Maths(normalize: Vec3 -> Vec3, length: Vec3 -> real, atan2: (real, real) -> real)

  /**
   * A scene mesh. `yaw` stands for a rotation quaternion built from the
   * Euler angles (0, yaw, 0); `rotationY` is the separate Euler rotation.y.
   */
  class Mesh {
    var position: Vec3
    var scaling: Vec3
    var yaw: real
    var rotationY: real

    constructor (position: Vec3)
      ensures this.position == position && scaling == Vec3(1.0, 1.0, 1.0)
      ensures yaw == 0.0 && rotationY == 0.0
    {
      this.position := position;
      scaling := Vec3(1.0, 1.0, 1.0);
      yaw := 0.0;
      rotationY := 0.0;
    }
  }

  /** A mutable engine Vector3, for the places where the game changes one in place. */
  class Vector3 {
    var x: real
    var y: real
    var z: real

    constructor (v: Vec3)
      ensures Value() == v
    {
      x, y, z := v.x, v.y, v.z;
    }

    function Value(): Vec3
      reads this
    {
      Vec3(x, y, z)
    }

    method ScaleInPlace(k: real)
      modifies this
      ensures Value() == Scale(old(Value()), k)
    {
      x, y, z := x * k, y * k, z * k;
    }
  }
}
