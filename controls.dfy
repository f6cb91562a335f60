/**
 * Keyboard state shared by the level loop and the prototype loop: the
 * record of held actions and the per-frame movement direction built from
 * it. Both loops build the direction with the same four steps.
 */
module Controls {
  import opened Engine

  datatype Action = Forward | Backward | Left | Right | Crawl | Grab

  /** The `keys` record: an action that was never pressed is absent (undefined). */
  type Keys = map<Action, bool>

  predicate Held(keys: Keys, a: Action) {
    a in keys && keys[a]
  }

  /** The record after a key event: a mapped action is set to `down`, anything else is ignored. */
  function Record(keys: Keys, action: Option<Action>, down: bool): (r: Keys)
    ensures action.None? ==> r == keys
    ensures action.Some? ==> (Held(r, action.value) <==> down)
    ensures forall a :: a in keys && (action.None? || a != action.value) ==> a in r && r[a] == keys[a]
    ensures r.Keys <= keys.Keys + (if action.Some? then {action.value} else {})
  {
    match action
    case None => keys
    case Some(a) => keys[a := down]
  }

  /** Releasing a key undoes pressing it: the action reads as not held, and nothing else moves. */
  lemma ReleaseAfterPress(keys: Keys, a: Action)
    ensures var r := Record(Record(keys, Some(a), true), Some(a), false);
      !Held(r, a) && r == keys[a := false]
  {
  }

  /** Contribution of one axis: +1 when only `plus` is held, -1 when only `minus` is held. */
  function Axis(plus: bool, minus: bool): real {
    (if plus then 1.0 else 0.0) - (if minus then 1.0 else 0.0)
  }

  /**
   * The raw (unnormalised) movement direction for the held keys: forward is
   * -z, backward +z, left -x, right +x, and opposite keys cancel.
   */
  function Direction(keys: Keys): (d: Vec3)
    ensures d.y == 0.0
    ensures d.x in {-1.0, 0.0, 1.0} && d.z in {-1.0, 0.0, 1.0}
    ensures d.x == 0.0 <==> (Held(keys, Left) <==> Held(keys, Right))
    ensures d.x == 1.0 <==> Held(keys, Right) && !Held(keys, Left)
    ensures d.z == 0.0 <==> (Held(keys, Forward) <==> Held(keys, Backward))
    ensures d.z == -1.0 <==> Held(keys, Forward) && !Held(keys, Backward)
  {
    Vec3(Axis(Held(keys, Right), Held(keys, Left)), 0.0, Axis(Held(keys, Backward), Held(keys, Forward)))
  }

  /** The frame's step-by-step construction of `moveDirection` from the held keys. */
  method MoveDirection(keys: Keys) returns (d: Vec3)
    ensures d == Direction(keys)
  {
    d := Vec3(0.0, 0.0, 0.0);
    if Held(keys, Forward) { d := d.(z := d.z - 1.0); }
    if Held(keys, Backward) { d := d.(z := d.z + 1.0); }
    if Held(keys, Left) { d := d.(x := d.x - 1.0); }
    if Held(keys, Right) { d := d.(x := d.x + 1.0); }
  }
}
