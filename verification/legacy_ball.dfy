/** The earlier pool ball (pool/pool_ball.py): a fixed class mass, a vector
    position, and frames without damping. */
module LegacyBalls {

  import LegacyVectors

  /** `PoolBall.MASS`, in kilograms. */
  const Mass: real := 0.17

  /** A ball: its name, radius, position and velocity. Both position and
      velocity are vectors of the earlier vector module. */
  datatype PoolBall = PoolBall(name: string, radius: real,
                               pos: LegacyVectors.Vector, vel: LegacyVectors.Vector)

  /** The name and radius of two balls agree. */
  predicate SameBall(a: PoolBall, b: PoolBall) {
    a.name == b.name && a.radius == b.radius
  }

  /** `apply_force`: the velocity changes by `force / MASS`, componentwise,
      so the change of momentum is the force; the position is untouched.
      The components are assigned directly, so the velocity's cache keeps
      its old values. */
  function ApplyForce(b: PoolBall, force: LegacyVectors.Vector): (r: PoolBall)
    ensures Mass * (r.vel.x - b.vel.x) == force.x
    ensures Mass * (r.vel.y - b.vel.y) == force.y
    ensures r.pos == b.pos && SameBall(r, b)
    ensures r.vel.mag == b.vel.mag && r.vel.ang == b.vel.ang
  {
    b.(vel := b.vel.(x := b.vel.x + force.x / Mass, y := b.vel.y + force.y / Mass))
  }

  /** `time_step`: the position moves by the velocity; nothing damps the
      velocity in this version. */
  function TimeStep(b: PoolBall): (r: PoolBall)
    ensures r.pos.x - b.pos.x == b.vel.x && r.pos.y - b.pos.y == b.vel.y
    ensures r.vel == b.vel && SameBall(r, b)
    ensures r.pos.mag == b.pos.mag && r.pos.ang == b.pos.ang
  {
    b.(pos := b.pos.(x := b.pos.x + b.vel.x, y := b.pos.y + b.vel.y))
  }

  /** `k` frames without any force. */
  function Steps(b: PoolBall, k: nat): PoolBall {
    if k == 0 then b else TimeStep(Steps(b, k - 1))
  }

  /** After `k` frames the ball has moved by exactly `k` times its
      unchanged velocity. */
  lemma {:induction false} StepsClosedForm(b: PoolBall, k: nat)
    ensures Steps(b, k).vel == b.vel && SameBall(Steps(b, k), b)
    ensures Steps(b, k).pos.x == b.pos.x + (k as real) * b.vel.x
    ensures Steps(b, k).pos.y == b.pos.y + (k as real) * b.vel.y
  {
    if k > 0 {
      StepsClosedForm(b, k - 1);
      assert ((k - 1) as real) * b.vel.x + b.vel.x == (k as real) * b.vel.x;
      assert ((k - 1) as real) * b.vel.y + b.vel.y == (k as real) * b.vel.y;
    }
  }

}
