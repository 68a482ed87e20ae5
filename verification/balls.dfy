/** A pool ball and its per-frame updates (src/pool/pool_ball.py). */
module Balls {

  import opened Wrappers
  import opened RealMath
  import opened Points
  import Vectors

  /** The ball kinds of a nine-ball game. The enum's own module is not part
      of this model; these are the members the table uses. */
  datatype BallType = Cue | One | Two | Three | Four | Five | Six | Seven | Eight | Nine

  /** A ball: its kind, centre, mass, radius and velocity. */
  datatype PoolBall = PoolBall(kind: BallType, pos: Coordinates, mass: real, radius: real,
                               vel: Vectors.Vector)

  /** The factor `time_step` multiplies the velocity by. */
  const Damping: real := 0.99

  /** `PoolBall(ball_type, pos, mass, radius)` without a velocity: the ball
      starts at rest, with the cache of a freshly built zero vector. */
  function NewBall(n: Numerics, kind: BallType, pos: Coordinates, mass: real, radius: real)
    : (b: PoolBall)
    ensures b.kind == kind && b.pos == pos && b.mass == mass && b.radius == radius
    ensures b.vel.Components() == Origin && Vectors.Cached(n, b.vel)
    ensures b.vel.ang.None?
    ensures Lawful(n) ==> b.vel.mag == 0.0
  {
    var v := Vectors.New(n, 0.0, 0.0);
    assert Lawful(n) ==> v.mag == 0.0 by {
      if Lawful(n) {
        SqrtZero(n);
      }
    }
    PoolBall(kind, pos, mass, radius, v)
  }

  /** The kind, mass and radius of two balls agree. */
  predicate SameBall(a: PoolBall, b: PoolBall) {
    a.kind == b.kind && a.mass == b.mass && a.radius == b.radius
  }

  /** `apply_force`: the velocity changes by `force / mass`, componentwise,
      so the change of momentum is the force. The position is untouched.
      As written, the components are assigned directly, so the cached
      magnitude and angle keep their old values. */
  function ApplyForce(b: PoolBall, force: Vectors.Vector): (r: PoolBall)
    requires b.mass != 0.0
    ensures b.mass * (r.vel.x - b.vel.x) == force.x
    ensures b.mass * (r.vel.y - b.vel.y) == force.y
    ensures r.pos == b.pos && SameBall(r, b)
    ensures r.vel.mag == b.vel.mag && r.vel.ang == b.vel.ang
  {
    b.(vel := b.vel.(x := b.vel.x + force.x / b.mass, y := b.vel.y + force.y / b.mass))
  }

  /** `time_step`: the ball moves by its velocity before the step, then the
      velocity is damped by `Damping`. The cache is again left alone. */
  function TimeStep(b: PoolBall): (r: PoolBall)
    ensures r.pos.Minus(b.pos) == b.vel.Components()
    ensures r.vel.Components() == b.vel.Components().Scale(Damping)
    ensures SameBall(r, b)
    ensures r.vel.mag == b.vel.mag && r.vel.ang == b.vel.ang
  {
    var p := b.pos.Plus(b.vel.Components());
    assert p.Minus(b.pos) == b.vel.Components();
    b.(pos := p, vel := b.vel.(x := b.vel.x * Damping, y := b.vel.y * Damping))
  }

  /** `apply_force` followed by a refresh of the cache through `set`: the
      same components, and a cache that agrees with them. */
  function ApplyForceRefreshed(n: Numerics, b: PoolBall, force: Vectors.Vector): (r: PoolBall)
    requires b.mass != 0.0
    ensures Vectors.Cached(n, r.vel)
    ensures r.vel.Components() == ApplyForce(b, force).vel.Components()
    ensures r.pos == b.pos && SameBall(r, b)
  {
    var a := ApplyForce(b, force);
    a.(vel := Vectors.Set(n, a.vel, a.vel.x, a.vel.y))
  }

  /** `time_step` followed by a refresh of the cache through `set`. */
  function TimeStepRefreshed(n: Numerics, b: PoolBall): (r: PoolBall)
    ensures Vectors.Cached(n, r.vel)
    ensures r.vel.Components() == TimeStep(b).vel.Components()
    ensures r.pos == TimeStep(b).pos && SameBall(r, b)
  {
    var a := TimeStep(b);
    a.(vel := Vectors.Set(n, a.vel, a.vel.x, a.vel.y))
  }

  /** The refreshed `apply_force` differs from the plain one only in the
      cache: the velocities compare equal under `__eq__`, and the refreshed
      velocity is the vector freshly constructed from the new components. */
  lemma ApplyForceRefreshedIsNew(n: Numerics, b: PoolBall, force: Vectors.Vector)
    requires b.mass != 0.0
    ensures Vectors.Equals(ApplyForceRefreshed(n, b, force).vel, ApplyForce(b, force).vel)
    ensures ApplyForceRefreshed(n, b, force).vel == Vectors.New(n, ApplyForce(b, force).vel.x,
                                                                ApplyForce(b, force).vel.y)
  {
  }

  /** The refreshed `time_step` differs from the plain one only in the
      cache, and its velocity is the vector freshly constructed from the
      damped components. */
  lemma TimeStepRefreshedIsNew(n: Numerics, b: PoolBall)
    ensures Vectors.Equals(TimeStepRefreshed(n, b).vel, TimeStep(b).vel)
    ensures TimeStepRefreshed(n, b).vel == Vectors.New(n, TimeStep(b).vel.x, TimeStep(b).vel.y)
  {
  }

  /** A ball at rest pushed by `(10, 0)`: its velocity becomes `(1, 0)` but
      its cached angle still says "no direction". */
  lemma ApplyForceLeavesCacheStale(n: Numerics)
    ensures var b := NewBall(n, Cue, Origin, 10.0, 15.0);
            var r := ApplyForce(b, Vectors.New(n, 10.0, 0.0));
            && Vectors.Cached(n, b.vel)
            && r.vel.Components() == Coordinates(1.0, 0.0)
            && !Vectors.Cached(n, r.vel)
  {
    var b := NewBall(n, Cue, Origin, 10.0, 15.0);
    var r := ApplyForce(b, Vectors.New(n, 10.0, 0.0));
    assert r.vel.ang == None;
    assert Vectors.Angle(n, 1.0, 0.0) == Some(0.0);
  }

  /** A ball moving at `(1, 0)` with a current cache: after one step its
      velocity is `(0.99, 0)` but the cached magnitude is still 1. */
  lemma TimeStepLeavesCacheStale(n: Numerics)
    requires Lawful(n)
    ensures var b := PoolBall(Cue, Origin, 10.0, 15.0, Vectors.New(n, 1.0, 0.0));
            var r := TimeStep(b);
            && Vectors.Cached(n, b.vel)
            && r.vel.Components() == Coordinates(0.99, 0.0)
            && !Vectors.Cached(n, r.vel)
  {
    SqrtUnique(n, 1.0, 1.0);
    SqrtUnique(n, 0.9801, 0.99);
  }

  /** `k` frames without any force. */
  function Steps(b: PoolBall, k: nat): PoolBall {
    if k == 0 then b else TimeStep(Steps(b, k - 1))
  }

  /** After `k` force-free frames the velocity is `0.99^k v0` and the ball
      has travelled `(1 + 0.99 + ... + 0.99^(k-1)) v0`. */
  lemma {:induction false} StepsClosedForm(b: PoolBall, k: nat)
    ensures Steps(b, k).vel.Components() == b.vel.Components().Scale(Pow(Damping, k))
    ensures Steps(b, k).pos == b.pos.Plus(b.vel.Components().Scale(GeomSum(Damping, k)))
    ensures SameBall(Steps(b, k), b)
  {
    if k > 0 {
      StepsClosedForm(b, k - 1);
      var v, p, g := b.vel.Components(), Pow(Damping, k - 1), GeomSum(Damping, k - 1);
      var prev := Steps(b, k - 1);
      ScaleTwice(v, p, Damping);
      assert Steps(b, k).pos == prev.pos.Plus(prev.vel.Components()) by {
        MovedBy(prev.pos, Steps(b, k).pos, prev.vel.Components());
      }
      ScaleSum(b.pos, v, g, p);
    }
  }

  /** Scaling by `a` and then by `q` is scaling by `q a`. */
  lemma ScaleTwice(v: Coordinates, a: real, q: real)
    ensures v.Scale(a).Scale(q) == v.Scale(q * a)
  {
    assert q * (a * v.x) == (q * a) * v.x;
    assert q * (a * v.y) == (q * a) * v.y;
  }

  /** Moving by `g v` and then by `p v` is moving by `(g + p) v`. */
  lemma ScaleSum(o: Coordinates, v: Coordinates, g: real, p: real)
    ensures o.Plus(v.Scale(g)).Plus(v.Scale(p)) == o.Plus(v.Scale(g + p))
  {
    assert g * v.x + p * v.x == (g + p) * v.x;
    assert g * v.y + p * v.y == (g + p) * v.y;
  }

  /** A point whose offset from `a` is `d` is `a + d`. */
  lemma MovedBy(a: Coordinates, b: Coordinates, d: Coordinates)
    requires b.Minus(a) == d
    ensures b == a.Plus(d)
  {
  }

}
