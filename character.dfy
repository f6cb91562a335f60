/**
 * The player character: a sphere mesh driven by four movement flags
 * (jumping, crawling, can-jump, grabbing). Jumping integrates a vertical
 * velocity until the ground probe fires; crawling swaps a fixed set of
 * speed, jump strength, height and scale values.
 */
module Characters {
  import opened Engine

  const WalkSpeed: real := 0.1
  const CrawlSpeed: real := 0.025
  const StandJumpStrength: real := 0.15
  const CrawlJumpStrength: real := 0.05
  const Gravity: real := -0.005
  /** Factor applied in place to the caller's direction while crawling. */
  const CrawlFactor: real := 0.3
  const StandHeight: real := 0.6
  const CrawlHeight: real := 0.3
  const StandScaleY: real := 1.0
  const CrawlScaleY: real := 0.5
  /** The ground probe casts straight down over 1.2 units, the sphere's diameter. */
  const Down: Vec3 := Vec3(0.0, -1.0, 0.0)
  const ProbeLength: real := 1.2

  /**
   * Everything the character's methods read or write. `jumpTimerPending`
   * stands for the 1500 ms callback scheduled by a successful jump that has
   * not fired yet.
   */
  datatype CharState = CharState(
    position: Vec3, scaling: Vec3,
    speed: real, jumpStrength: real, velocityY: real,
    isJumping: bool, isCrawling: bool, canJump: bool, isGrabbing: bool,
    jumpTimerPending: bool)

  /**
   * The invariant of the movement state machine: vertical velocity is zero
   * whenever no jump is in progress, and jumping is disabled exactly while a
   * cooldown callback is outstanding.
   */
  predicate Inv(s: CharState) {
    (!s.isJumping ==> s.velocityY == 0.0) && (s.canJump <==> !s.jumpTimerPending)
  }

  function Initial(position: Vec3): (s: CharState)
    ensures Inv(s) && !s.isJumping && s.canJump && !s.isCrawling && !s.isGrabbing
  {
    CharState(position, Vec3(1.0, 1.0, 1.0), WalkSpeed, StandJumpStrength, 0.0,
              false, false, true, false, false)
  }

  /** The displacement `move` submits: the direction (scaled by 0.3 when crawling) times the speed. */
  function Submitted(s: CharState, direction: Vec3): Vec3 {
    Scale(if s.isCrawling then Scale(direction, CrawlFactor) else direction, s.speed)
  }

  /** The submitted displacement is the direction scaled once, by the speed times 0.3 while crawling. */
  lemma SubmittedIsOneScaling(s: CharState, direction: Vec3)
    ensures Submitted(s, direction) == Scale(direction, (if s.isCrawling then CrawlFactor else 1.0) * s.speed)
  {
    if s.isCrawling {
      ScaleTwice(direction, CrawlFactor, s.speed);
    } else {
      assert 1.0 * s.speed == s.speed;
    }
  }

  function Moved(s: CharState, direction: Vec3, world: World): (r: CharState)
    ensures Inv(s) ==> Inv(r)
    ensures r.(position := s.position) == s
    ensures r.position == world.moveWithCollisions(s.position,
                            Scale(direction, (if s.isCrawling then CrawlFactor else 1.0) * s.speed))
  {
    SubmittedIsOneScaling(s, direction);
    s.(position := world.moveWithCollisions(s.position, Submitted(s, direction)))
  }

  /** Whether the ground probe cast from `p` hits a mesh. */
  predicate OnGround(world: World, p: Vec3) {
    world.pickWithRay(p, Down, ProbeLength)
  }

  /** The four conditions a jump is gated on. */
  predicate MayJump(s: CharState, grounded: bool) {
    !s.isJumping && grounded && s.canJump && !s.isCrawling
  }

  function Jumped(s: CharState, grounded: bool): (r: CharState)
    ensures Inv(s) ==> Inv(r)
    ensures !MayJump(s, grounded) ==> r == s
    ensures r.position == s.position && r.speed == s.speed && r.isCrawling == s.isCrawling
    ensures r.(velocityY := s.velocityY, isJumping := s.isJumping, canJump := s.canJump,
               jumpTimerPending := s.jumpTimerPending) == s
  {
    if MayJump(s, grounded) then
      s.(velocityY := s.jumpStrength, isJumping := true, canJump := false, jumpTimerPending := true)
    else
      s
  }

  /** The deferred cooldown callback firing. */
  function CooledDown(s: CharState): (r: CharState)
    requires s.jumpTimerPending
    ensures Inv(s) ==> Inv(r)
    ensures r.canJump && !r.jumpTimerPending
    ensures r.(canJump := s.canJump, jumpTimerPending := s.jumpTimerPending) == s
  {
    s.(canJump := true, jumpTimerPending := false)
  }

  /**
   * One gravity step: while jumping, move by the current vertical velocity,
   * add gravity, and stop the jump once the ground probe fires at the new
   * position.
   */
  function Fallen(s: CharState, world: World): (r: CharState)
    ensures !s.isJumping ==> r == s
    ensures Inv(s) ==> Inv(r)
    ensures s.isJumping && !r.isJumping ==> OnGround(world, r.position) && r.velocityY == 0.0
    ensures r.isJumping ==> r.velocityY == s.velocityY + Gravity && !OnGround(world, r.position)
    ensures s.isJumping ==> r.position == world.moveWithCollisions(s.position, Vec3(0.0, s.velocityY, 0.0))
    ensures s.isJumping ==> (r.isJumping <==> !OnGround(world, r.position))
    ensures r.(position := s.position, velocityY := s.velocityY, isJumping := s.isJumping) == s
  {
    if s.isJumping then
      var p := world.moveWithCollisions(s.position, Vec3(0.0, s.velocityY, 0.0));
      var v := s.velocityY + Gravity;
      if OnGround(world, p) then s.(position := p, isJumping := false, velocityY := 0.0)
      else s.(position := p, velocityY := v)
    else
      s
  }

  function Crawled(s: CharState, start: bool): (r: CharState)
    ensures Inv(s) ==> Inv(r)
    ensures r.isCrawling == start
    ensures r.position == s.position.(y := if start then CrawlHeight else StandHeight)
    ensures r.scaling == s.scaling.(y := if start then CrawlScaleY else StandScaleY)
    ensures r.speed == (if start then CrawlSpeed else WalkSpeed)
    ensures r.jumpStrength == (if start then CrawlJumpStrength else StandJumpStrength)
    ensures r.(isCrawling := s.isCrawling, scaling := s.scaling, position := s.position,
               speed := s.speed, jumpStrength := s.jumpStrength) == s
  {
    if start then
      s.(isCrawling := true, scaling := s.scaling.(y := CrawlScaleY), position := s.position.(y := CrawlHeight),
         speed := CrawlSpeed, jumpStrength := CrawlJumpStrength)
    else
      s.(isCrawling := false, scaling := s.scaling.(y := StandScaleY), position := s.position.(y := StandHeight),
         speed := WalkSpeed, jumpStrength := StandJumpStrength)
  }

  function Grabbed(s: CharState, start: bool): (r: CharState)
    ensures Inv(s) ==> Inv(r)
    ensures r.isGrabbing == start && r.(isGrabbing := s.isGrabbing) == s
  {
    s.(isGrabbing := start)
  }

  /** Crawl sets its fields to constants that depend only on the argument: height 0.3/0.6, scale 0.5/1, speed 0.025/0.1, jump strength 0.05/0.15. */
  lemma CrawlDependsOnlyOnArgument(s1: CharState, s2: CharState, start: bool)
    ensures var r1, r2 := Crawled(s1, start), Crawled(s2, start);
      r1.isCrawling == r2.isCrawling && r1.scaling.y == r2.scaling.y && r1.position.y == r2.position.y &&
      r1.speed == r2.speed && r1.jumpStrength == r2.jumpStrength
    ensures start ==> Crawled(s1, start).speed == CrawlSpeed && Crawled(s1, start).jumpStrength == CrawlJumpStrength
    ensures !start ==> Crawled(s1, start).speed == WalkSpeed && Crawled(s1, start).jumpStrength == StandJumpStrength
    ensures start ==> Crawled(s1, start).position.y == CrawlHeight && Crawled(s1, start).scaling.y == CrawlScaleY
    ensures !start ==> Crawled(s1, start).position.y == StandHeight && Crawled(s1, start).scaling.y == StandScaleY
  {
  }

  lemma CrawlIdempotent(s: CharState, start: bool)
    ensures Crawled(Crawled(s, start), start) == Crawled(s, start)
  {
  }

  /** Leaving crawl restores the standing values whatever happened while crawling. */
  lemma CrawlRoundTrip(s: CharState)
    requires !s.isCrawling && s.speed == WalkSpeed && s.jumpStrength == StandJumpStrength
    requires s.scaling.y == StandScaleY && s.position.y == StandHeight
    ensures Crawled(Crawled(s, true), false) == s
  {
  }

  /** A successful jump launches with the current jump strength and disables jumping until the cooldown fires. */
  lemma JumpLaunches(s: CharState, grounded: bool)
    requires MayJump(s, grounded)
    ensures var r := Jumped(s, grounded);
      r.velocityY == s.jumpStrength && r.isJumping && !r.canJump && r.jumpTimerPending
  {
  }

  /** Once a jump succeeded, no further jump succeeds until the cooldown callback fires, whatever else happens. */
  lemma NoJumpBeforeCooldown(s: CharState, grounded: bool, world: World, start: bool, direction: Vec3)
    requires Inv(s) && s.jumpTimerPending
    ensures Jumped(s, grounded) == s
    ensures Fallen(s, world).jumpTimerPending && Crawled(s, start).jumpTimerPending
    ensures Moved(s, direction, world).jumpTimerPending && Grabbed(s, start).jumpTimerPending
  {
  }

  /** A crawling character never starts a jump, and a standing grounded idle one does. */
  lemma CrawlBlocksJump(s: CharState, grounded: bool)
    ensures Jumped(Crawled(s, true), grounded).isJumping == s.isJumping
    ensures Inv(s) && !s.isJumping && !s.jumpTimerPending && grounded ==> Jumped(Crawled(s, false), grounded).isJumping
  {
  }

  class Character {
    const mesh: Mesh
    var speed: real
    var jumpStrength: real
    const gravity: real := Gravity
    var velocityY: real
    var isJumping: bool
    var isCrawling: bool
    var canJump: bool
    var isGrabbing: bool
    var jumpTimerPending: bool

    function State(): CharState
      reads this, mesh
    {
      CharState(mesh.position, mesh.scaling, speed, jumpStrength, velocityY,
                isJumping, isCrawling, canJump, isGrabbing, jumpTimerPending)
    }

    ghost predicate Valid()
      reads this, mesh
    {
      Inv(State())
    }

    /** The ground probe: a downward ray of length 1.2 from the mesh position. */
    function IsGrounded(world: World): (grounded: bool)
      reads this, mesh
      ensures grounded <==> world.pickWithRay(State().position, Vec3(0.0, -1.0, 0.0), 1.2)
    {
      OnGround(world, mesh.position)
    }

    constructor (position: Vec3)
      ensures Valid() && fresh(mesh)
      ensures State() == Initial(position)
    {
      mesh := new Mesh(position);
      speed := WalkSpeed;
      jumpStrength := StandJumpStrength;
      velocityY := 0.0;
      isJumping := false;
      isCrawling := false;
      canJump := true;
      isGrabbing := false;
      jumpTimerPending := false;
    }

    /** Scales the caller's direction in place while crawling, then asks the world to move the mesh. */
    method Move(direction: Vector3, world: World)
      requires Valid()
      modifies direction, mesh`position
      ensures Valid()
      ensures direction.Value() == if isCrawling then Scale(old(direction.Value()), CrawlFactor) else old(direction.Value())
      ensures State() == Moved(old(State()), old(direction.Value()), world)
    {
      if isCrawling {
        direction.ScaleInPlace(CrawlFactor);
      }
      mesh.position := world.moveWithCollisions(mesh.position, Scale(direction.Value(), speed));
    }

    method Jump(world: World)
      requires Valid()
      modifies this`velocityY, this`isJumping, this`canJump, this`jumpTimerPending
      ensures Valid()
      ensures State() == Jumped(old(State()), OnGround(world, mesh.position))
    {
      if !isJumping && IsGrounded(world) && canJump && !isCrawling {
        velocityY := jumpStrength;
        isJumping := true;
        canJump := false;
        jumpTimerPending := true;
      }
    }

    /** The deferred callback scheduled by a successful jump. */
    method CooldownElapsed()
      requires Valid() && jumpTimerPending
      modifies this`canJump, this`jumpTimerPending
      ensures Valid()
      ensures State() == CooledDown(old(State()))
    {
      canJump := true;
      jumpTimerPending := false;
    }

    method ApplyGravity(world: World)
      requires Valid()
      modifies this`velocityY, this`isJumping, mesh`position
      ensures Valid()
      ensures State() == Fallen(old(State()), world)
    {
      if isJumping {
        mesh.position := world.moveWithCollisions(mesh.position, Vec3(0.0, velocityY, 0.0));
        velocityY := velocityY + gravity;
        if IsGrounded(world) {
          isJumping := false;
          velocityY := 0.0;
        }
      }
    }

    method Crawl(start: bool)
      requires Valid()
      modifies this`isCrawling, this`speed, this`jumpStrength, mesh`position, mesh`scaling
      ensures Valid()
      ensures State() == Crawled(old(State()), start)
    {
      isCrawling := start;
      if start {
        mesh.scaling := mesh.scaling.(y := CrawlScaleY);
        mesh.position := mesh.position.(y := CrawlHeight);
        speed := CrawlSpeed;
        jumpStrength := CrawlJumpStrength;
      } else {
        mesh.scaling := mesh.scaling.(y := StandScaleY);
        mesh.position := mesh.position.(y := StandHeight);
        speed := WalkSpeed;
        jumpStrength := StandJumpStrength;
      }
    }

    method GrabObject(start: bool)
      requires Valid()
      modifies this`isGrabbing
      ensures Valid()
      ensures State() == Grabbed(old(State()), start)
    {
      isGrabbing := start;
    }
  }
}
