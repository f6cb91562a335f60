/**
 * The boss: hit points and a frame-counted attack cycle. Every `Interval`
 * updates the boss spawns an attack volume, which the very next update
 * removes again.
 */
module Bosses {
  import opened Engine

  const InitialHp: int := 10
  const AttackInterval: int := 60

  /** The part of the boss the attack cycle depends on: the frame counter and whether a volume exists. */
  datatype Cycle = Cycle(timer: int, armed: bool)

  const Fresh: Cycle := Cycle(0, false)

  /** Whether the update that starts from `c` spawns a volume. */
  predicate Spawns(c: Cycle) {
    c.timer + 1 >= AttackInterval
  }

  /** The states an update sequence from a fresh boss can reach. */
  predicate Reachable(c: Cycle) {
    0 <= c.timer < AttackInterval && (c.armed ==> c.timer == 0)
  }

  /** One `update`: count the frame, spawn and reset at the interval, remove a live volume at count 1. */
  function Tick(c: Cycle): (r: Cycle)
    ensures r.timer == if Spawns(c) then 0 else c.timer + 1
    ensures c.timer >= -1 ==> 0 <= r.timer < AttackInterval
    ensures Reachable(c) ==> Reachable(r)
    ensures Spawns(c) ==> r.armed
    ensures r.timer == 1 ==> !r.armed
  {
    var t := c.timer + 1;
    var (t, armed) := if t >= AttackInterval then (0, true) else (t, c.armed);
    if t == 1 && armed then Cycle(t, false) else Cycle(t, armed)
  }

  /** The cycle state after `n` updates of a fresh boss. */
  function AfterUpdates(n: nat): Cycle {
    if n == 0 then Fresh else Tick(AfterUpdates(n - 1))
  }

  /** Counting one more frame modulo the interval: wrap to 0 after 59, else add one. */
  lemma CountStep(m: nat)
    ensures m % AttackInterval == AttackInterval - 1 ==> (m + 1) % AttackInterval == 0
    ensures m % AttackInterval != AttackInterval - 1 ==> (m + 1) % AttackInterval == m % AttackInterval + 1
  {
  }

  /** After n updates of a fresh boss the counter is n mod 60 and a volume exists iff n is a positive multiple of 60. */
  lemma {:induction false} AfterUpdatesClosedForm(n: nat)
    ensures AfterUpdates(n) == Cycle(n % AttackInterval, n > 0 && n % AttackInterval == 0)
  {
    if n > 0 {
      AfterUpdatesClosedForm(n - 1);
      var m := n - 1;
      var prev := AfterUpdates(m);
      CountStep(m);
      if m % AttackInterval == AttackInterval - 1 {
        assert Spawns(prev);
        assert Tick(prev) == Cycle(0, true);
      } else {
        assert !Spawns(prev);
        assert Tick(prev) == Cycle(n % AttackInterval, false);
      }
    }
  }

  /** Over the first 61 updates the volume exists after update 60 and after no other. */
  lemma FirstTelegraph(n: nat)
    requires n <= AttackInterval + 1
    ensures AfterUpdates(n).armed <==> n == AttackInterval
  {
    AfterUpdatesClosedForm(n);
    var armed := n > 0 && n % AttackInterval == 0;
    assert AfterUpdates(n).armed == armed;
    if n < AttackInterval {
      assert n % AttackInterval == n;
    } else if n == AttackInterval {
      assert n % AttackInterval == 0;
    } else {
      assert n == AttackInterval + 1;
      assert n % AttackInterval == 1;
    }
  }

  /** A spawn is only reached when no volume exists, so a live volume is never overwritten. */
  lemma SpawnNeverOverwrites(c: Cycle)
    requires Reachable(c) && Spawns(c)
    ensures !c.armed
  {
  }

  /** A volume lives for exactly one update: the one after its spawn removes it. */
  lemma SingleUpdateExposure(c: Cycle)
    requires Reachable(c) && c.armed
    ensures Tick(c) == Cycle(1, false)
  {
  }

  /** The removal step at counter 1 changes nothing when no volume exists (as on the very first update). */
  lemma RemovalWithoutVolume(c: Cycle)
    requires 0 <= c.timer && !Spawns(c) && !c.armed
    ensures Tick(c) == Cycle(c.timer + 1, false)
  {
  }

  /** Hit points after `hits` hits on a fresh boss. */
  function HpAfterHits(hits: nat): int {
    if hits == 0 then InitialHp else HpAfterHits(hits - 1) - 1
  }

  /** Every hit costs exactly one point and nothing stops at zero. */
  lemma {:induction false} HpAfterHitsClosedForm(hits: nat)
    ensures HpAfterHits(hits) == InitialHp - hits
    ensures hits > InitialHp ==> HpAfterHits(hits) < 0
  {
    if hits > 0 {
      HpAfterHitsClosedForm(hits - 1);
    }
  }

  /** Where a new attack volume is placed: at a copy of the mesh position once loaded, else at the default origin. */
  function SpawnPosition(mesh: Option<Vec3>): Vec3 {
    match mesh
    case Some(p) => p
    case None => Origin
  }

  class Boss {
    var hp: int
    var attackTimer: int
    const attackInterval: int := AttackInterval
    var attackCube: Mesh?
    var mesh: Mesh?
    var collisionCube: Mesh?

    function CycleState(): Cycle
      reads this
    {
      Cycle(attackTimer, attackCube != null)
    }

    function MeshPosition(): Option<Vec3>
      reads this, mesh
    {
      if mesh == null then None else Some(mesh.position)
    }

    /** The counter bound every update keeps; `CreateAttackCube` is public, so `armed ==> timer == 0` is not part of it. */
    ghost predicate Valid()
      reads this
    {
      0 <= attackTimer < AttackInterval
    }

    constructor ()
      ensures Valid() && Reachable(CycleState())
      ensures hp == InitialHp && CycleState() == Fresh
      ensures mesh == null && collisionCube == null
    {
      hp := InitialHp;
      attackTimer := 0;
      attackCube := null;
      mesh := null;
      collisionCube := null;
    }

    /** The model-loader callback: the mesh appears, and a collision cube is placed at its position. */
    method Loaded(position: Vec3, scale: Vec3)
      modifies this`mesh, this`collisionCube
      ensures fresh(mesh) && mesh.position == position && mesh.scaling == scale
      ensures fresh(collisionCube) && collisionCube.position == position && collisionCube.scaling == scale
    {
      mesh := new Mesh(position);
      mesh.scaling := scale;
      collisionCube := new Mesh(position);
      collisionCube.scaling := scale;
    }

    method GetHit()
      modifies this`hp
      ensures hp == old(hp) - 1
    {
      hp := hp - 1;
    }

    /** Spawns a fresh attack volume, replacing whatever reference was held before. */
    method CreateAttackCube()
      modifies this`attackCube
      ensures attackCube != null && fresh(attackCube)
      ensures attackCube.position == SpawnPosition(MeshPosition())
    {
      var p := if mesh != null then mesh.position else Origin;
      attackCube := new Mesh(p);
    }

    method Update()
      requires Valid()
      modifies this`attackTimer, this`attackCube
      ensures Valid()
      ensures CycleState() == Tick(old(CycleState()))
      ensures hp == old(hp) && mesh == old(mesh)
      ensures Spawns(old(CycleState())) ==>
                attackCube != null && fresh(attackCube) && attackCube.position == SpawnPosition(MeshPosition())
      ensures !Spawns(old(CycleState())) && attackTimer != 1 ==> attackCube == old(attackCube)
    {
      attackTimer := attackTimer + 1;
      if attackTimer >= attackInterval {
        CreateAttackCube();
        attackTimer := 0;
      }
      if attackTimer == 1 && attackCube != null {
        attackCube := null;
      }
    }
  }
}
