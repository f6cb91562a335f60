/**
 * The first prototype loop: a sphere moved by the arrow/WASD keys inside a
 * square field, with a scripted jump that lands on the floor height 0.6.
 * The loop's module-level variables become the fields of one object.
 */
module Prototype {
  import opened Engine
  import opened Controls

  const GroundSize: real := 20.0
  /** Half the ground minus a margin of 1, that is 9. */
  const Boundary: real := GroundSize / 2.0 - 1.0
  const Speed: real := 0.08
  const Gravity: real := -0.005
  const JumpStrength: real := 0.15
  const FloorY: real := 0.6

  /** The prototype's key codes; as in the level, A drives "right" and D drives "left". */
  const KeyMappings: map<string, Action> := map[
    "KeyW" := Forward, "KeyS" := Backward, "KeyA" := Right, "KeyD" := Left,
    "ArrowUp" := Forward, "ArrowDown" := Backward, "ArrowLeft" := Right, "ArrowRight" := Left]

  function Mapped(code: string): Option<Action> {
    if code in KeyMappings then Some(KeyMappings[code]) else None
  }

  /** The field a horizontal move must land strictly inside. */
  predicate StrictlyInside(p: Vec3) {
    -Boundary < p.x < Boundary && -Boundary < p.z < Boundary
  }

  /** The horizontal step: the new position is taken only when it lies strictly inside the field. */
  function Stepped(position: Vec3, direction: Vec3): (r: Vec3)
    ensures r == position || r == Add(position, Scale(direction, Speed))
    ensures r != position ==> StrictlyInside(r)
    ensures !StrictlyInside(Add(position, Scale(direction, Speed))) ==> r == position
    ensures StrictlyInside(Add(position, Scale(direction, Speed))) ==> r == Add(position, Scale(direction, Speed))
    ensures direction.y == 0.0 ==> r.y == position.y
  {
    var next := Add(position, Scale(direction, Speed));
    if StrictlyInside(next) then next else position
  }

  /** A position strictly inside the field stays strictly inside under the horizontal step. */
  lemma SteppedStaysInside(position: Vec3, direction: Vec3)
    requires StrictlyInside(position)
    ensures StrictlyInside(Stepped(position, direction))
  {
  }

  /** The vertical part of the loop state. */
  datatype Vertical = Vertical(y: real, velocityY: real, isJumping: bool)

  predicate Inv(v: Vertical) {
    !v.isJumping ==> v.velocityY == 0.0
  }

  /** The Space handler: start a jump unless one is in progress. */
  function Launched(v: Vertical): (r: Vertical)
    ensures Inv(v) ==> Inv(r)
    ensures v.isJumping ==> r == v
    ensures !v.isJumping ==> r == Vertical(v.y, JumpStrength, true)
  {
    if !v.isJumping then v.(velocityY := JumpStrength, isJumping := true) else v
  }

  /**
   * The frame's vertical step: while jumping, rise by the velocity, add
   * gravity, and land on the floor height once at or below it.
   */
  function Fall(v: Vertical): (r: Vertical)
    ensures !v.isJumping ==> r == v
    ensures Inv(v) ==> Inv(r)
    ensures v.isJumping ==> r.y >= FloorY
    ensures v.isJumping && !r.isJumping ==> r == Vertical(FloorY, 0.0, false)
    ensures r.isJumping ==> r.y == v.y + v.velocityY > FloorY && r.velocityY == v.velocityY + Gravity
    ensures v.isJumping ==> (r.isJumping <==> v.y + v.velocityY > FloorY)
  {
    if v.isJumping then
      var y := v.y + v.velocityY;
      var velocityY := v.velocityY + Gravity;
      if y <= FloorY then Vertical(FloorY, 0.0, false) else Vertical(y, velocityY, true)
    else
      v
  }

  /** The vertical state `k` frames after Space was pressed while standing on the floor. */
  function Airborne(k: nat): Vertical {
    if k == 0 then Launched(Vertical(FloorY, 0.0, false)) else Fall(Airborne(k - 1))
  }

  /** Height gained after k frames of a floor jump: the sum of 0.15 - 0.005 i for i < k. */
  function Rise(k: nat): real {
    JumpStrength * (k as real) + Gravity * (k as real) * ((k as real) - 1.0) / 2.0
  }

  /** One more frame adds the current velocity 0.15 - 0.005 (k - 1), and the height gained stays positive through frame 60. */
  lemma RiseStep(k: nat)
    requires 1 <= k <= 60
    ensures Rise(k) == Rise(k - 1) + JumpStrength + Gravity * ((k - 1) as real)
    ensures Rise(k) > 0.0
  {
    var n := k as real;
    var rate := JumpStrength + Gravity * (n - 1.0) / 2.0;
    assert rate > 0.0;
    assert Rise(k) == n * rate;
    PositiveProduct(n, rate);
  }

  lemma PositiveProduct(a: real, b: real)
    requires a > 0.0 && b > 0.0
    ensures a * b > 0.0
  {
  }

  /** For the first 60 frames of a floor jump, height and velocity follow the closed form and stay above the floor. */
  lemma {:induction false} AirborneClosedForm(k: nat)
    requires k <= 60
    ensures Airborne(k) == Vertical(FloorY + Rise(k), JumpStrength + Gravity * (k as real), true)
  {
    if k > 0 {
      AirborneClosedForm(k - 1);
      RiseStep(k);
      var prev := Airborne(k - 1);
      var y := prev.y + prev.velocityY;
      assert y == FloorY + Rise(k);
      assert Fall(prev) == Vertical(y, prev.velocityY + Gravity, true);
    }
  }

  /** On frames 1 to 60 of a floor jump the character is still jumping, above the floor. */
  lemma FloorJumpAirborne(k: nat)
    requires 1 <= k <= 60
    ensures Airborne(k).isJumping && Airborne(k).y > FloorY
  {
    AirborneClosedForm(k);
    RiseStep(k);
  }

  /** A jump from the floor lasts exactly 61 frames in exact arithmetic: it lands on frame 61 with velocity 0. */
  lemma FloorJumpLasts61Frames()
    ensures Airborne(61) == Vertical(FloorY, 0.0, false)
  {
    AirborneClosedForm(60);
    assert Rise(60) + JumpStrength + Gravity * 60.0 == 0.0;
  }

  /** The module state of the prototype: held keys, the character mesh and the jump variables. */
  class Game {
    var keys: Keys
    const character: Mesh
    var velocityY: real
    var isJumping: bool

    function VerticalState(): Vertical
      reads this, character
    {
      Vertical(character.position.y, velocityY, isJumping)
    }

    ghost predicate Valid()
      reads this
    {
      !isJumping ==> velocityY == 0.0
    }

    constructor ()
      ensures Valid() && fresh(character)
      ensures keys == map[] && character.position == Vec3(0.0, FloorY, 0.0) && !isJumping
    {
      keys := map[];
      character := new Mesh(Vec3(0.0, FloorY, 0.0));
      velocityY := 0.0;
      isJumping := false;
    }

    /** Both keydown listeners, in the order they were registered: record the action, then the Space jump. */
    method KeyDown(code: string)
      requires Valid()
      modifies this`keys, this`velocityY, this`isJumping
      ensures Valid()
      ensures keys == Record(old(keys), Mapped(code), true)
      ensures VerticalState() == if code == "Space" then Launched(old(VerticalState())) else old(VerticalState())
    {
      var action := Mapped(code);
      if action.Some? {
        keys := keys[action.value := true];
      }
      if code == "Space" && !isJumping {
        velocityY := JumpStrength;
        isJumping := true;
      }
    }

    method KeyUp(code: string)
      modifies this`keys
      ensures keys == Record(old(keys), Mapped(code), false)
    {
      var action := Mapped(code);
      if action.Some? {
        keys := keys[action.value := false];
      }
    }

    /** One render-loop frame, up to the donut bounce: the bounded horizontal move, then the vertical step. */
    method Frame(maths: Maths)
      requires Valid()
      requires maths.normalize(Direction(keys)).y == 0.0
      modifies this`velocityY, this`isJumping, character`position
      ensures Valid()
      ensures !old(isJumping) ==> character.position.y == old(character.position.y) && !isJumping && velocityY == 0.0
      ensures
        var h := Stepped(old(character.position), maths.normalize(Direction(keys)));
        var v := Fall(Vertical(h.y, old(velocityY), old(isJumping)));
        character.position == Vec3(h.x, v.y, h.z) && VerticalState() == v
    {
      var moveDirection := MoveDirection(keys);
      moveDirection := maths.normalize(moveDirection);
      var newPosition := Add(character.position, Scale(moveDirection, Speed));
      if newPosition.x > -Boundary && newPosition.x < Boundary && newPosition.z > -Boundary && newPosition.z < Boundary {
        character.position := newPosition;
      }
      if isJumping {
        character.position := character.position.(y := character.position.y + velocityY);
        velocityY := velocityY + Gravity;
        if character.position.y <= FloorY {
          character.position := character.position.(y := FloorY);
          isJumping := false;
          velocityY := 0.0;
        }
      }
    }
  }
}
