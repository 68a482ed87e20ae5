/** Ball–ball and ball–wall collision detection, and the elastic response
    to a ball–ball collision (src/physics/collisions.py). */
module Collisions {

  import opened RealMath
  import opened Points
  import opened Utility
  import opened Directions
  import Vectors

  // ---------------------------------------------------------------------
  // Ball–ball detection

  /** `check_ball_ball_collision`: two balls collide when their centres are
      no farther apart than the sum of their radii; touching counts. Free of
      square roots: the radius sum is non-negative and the squared centre
      distance is at most its square, so a negative sum never collides. */
  function CheckBallBall(n: Numerics, aCenter: Coordinates, aRadius: real,
                         bCenter: Coordinates, bRadius: real): (r: bool)
    ensures Lawful(n) ==>
              (r <==> 0.0 <= aRadius + bRadius
                      && SquaredDistance(aCenter, bCenter) <= Sq(aRadius + bRadius))
  {
    assert Lawful(n) && 0.0 <= aRadius + bRadius ==>
             (Distance(n, aCenter, bCenter) <= aRadius + bRadius
              <==> SquaredDistance(aCenter, bCenter) <= Sq(aRadius + bRadius)) by {
      if Lawful(n) && 0.0 <= aRadius + bRadius {
        DistanceCompare(n, aCenter, bCenter, aRadius + bRadius);
      }
    }
    Distance(n, aCenter, bCenter) <= aRadius + bRadius
  }

  /** Detection does not depend on which ball is named first. */
  lemma BallBallSymmetric(n: Numerics, aCenter: Coordinates, aRadius: real,
                          bCenter: Coordinates, bRadius: real)
    requires Lawful(n)
    ensures CheckBallBall(n, aCenter, aRadius, bCenter, bRadius)
         == CheckBallBall(n, bCenter, bRadius, aCenter, aRadius)
  {
    DistanceLaws(n, aCenter, bCenter);
  }

  /** Balls of radius 0.5 one unit apart along the x-axis touch and so
      collide; at 0.99 they overlap; at 1.01 they are apart. */
  lemma BallBallExamplesX(n: Numerics)
    requires Lawful(n)
    ensures !CheckBallBall(n, Coordinates(0.0, 0.0), 0.5, Coordinates(1.01, 0.0), 0.5)
    ensures CheckBallBall(n, Coordinates(0.0, 0.0), 0.5, Coordinates(1.0, 0.0), 0.5)
    ensures CheckBallBall(n, Coordinates(0.0, 0.0), 0.5, Coordinates(0.99, 0.0), 0.5)
  {
    ExampleSquaresX();
    BallBallAt(n, Coordinates(0.0, 0.0), Coordinates(1.01, 0.0), 1.0201);
    BallBallAt(n, Coordinates(0.0, 0.0), Coordinates(1.0, 0.0), 1.0);
    BallBallAt(n, Coordinates(0.0, 0.0), Coordinates(0.99, 0.0), 0.9801);
  }

  /** The same along the y-axis, with the first ball above the second. */
  lemma BallBallExamplesY(n: Numerics)
    requires Lawful(n)
    ensures !CheckBallBall(n, Coordinates(0.0, 2.01), 0.5, Coordinates(0.0, 0.0), 0.5)
    ensures CheckBallBall(n, Coordinates(0.0, 1.0), 0.5, Coordinates(0.0, 0.0), 0.5)
    ensures CheckBallBall(n, Coordinates(0.0, 0.99), 0.5, Coordinates(0.0, 0.0), 0.5)
  {
    ExampleSquaresY();
    BallBallAt(n, Coordinates(0.0, 2.01), Coordinates(0.0, 0.0), 4.0401);
    BallBallAt(n, Coordinates(0.0, 1.0), Coordinates(0.0, 0.0), 1.0);
    BallBallAt(n, Coordinates(0.0, 0.99), Coordinates(0.0, 0.0), 0.9801);
  }

  /** The squared centre distances of the x-axis examples. */
  lemma ExampleSquaresX()
    ensures SquaredDistance(Coordinates(0.0, 0.0), Coordinates(1.01, 0.0)) == 1.0201
    ensures SquaredDistance(Coordinates(0.0, 0.0), Coordinates(1.0, 0.0)) == 1.0
    ensures SquaredDistance(Coordinates(0.0, 0.0), Coordinates(0.99, 0.0)) == 0.9801
  {
    assert Sq(0.0 - 1.01) == 1.0201;
    assert Sq(0.0 - 1.0) == 1.0;
    assert Sq(0.0 - 0.99) == 0.9801;
    assert Sq(0.0 - 0.0) == 0.0;
  }

  /** The squared centre distances of the y-axis examples. */
  lemma ExampleSquaresY()
    ensures SquaredDistance(Coordinates(0.0, 2.01), Coordinates(0.0, 0.0)) == 4.0401
    ensures SquaredDistance(Coordinates(0.0, 1.0), Coordinates(0.0, 0.0)) == 1.0
    ensures SquaredDistance(Coordinates(0.0, 0.99), Coordinates(0.0, 0.0)) == 0.9801
  {
    assert Sq(2.01 - 0.0) == 4.0401;
    assert Sq(1.0 - 0.0) == 1.0;
    assert Sq(0.99 - 0.0) == 0.9801;
    assert Sq(0.0 - 0.0) == 0.0;
  }

  /** Two balls of radius 0.5 whose centres are `sq`-squared apart. */
  lemma BallBallAt(n: Numerics, a: Coordinates, b: Coordinates, sq: real)
    requires Lawful(n)
    requires SquaredDistance(a, b) == sq
    ensures CheckBallBall(n, a, 0.5, b, 0.5) <==> sq <= 1.0
  {
    assert Sq(0.5 + 0.5) == 1.0;
  }

  // ---------------------------------------------------------------------
  // Ball–wall detection

  /** `check_ball_wall_collision`: the ball's edge reaches or crosses one of
      the four boundaries, that is, it reaches the wall on some side. */
  function CheckBallWall(center: Coordinates, radius: real,
                         north: real, east: real, south: real, west: real): (r: bool)
    ensures r <==> exists d :: ReachesWall(center, radius, north, east, south, west, d)
  {
    var side :=
      if north <= center.y + radius then North
      else if east <= center.x + radius then East
      else if center.y - radius <= south then South
      else West;
    var hit :=
      || center.y + radius >= north
      || center.x + radius >= east
      || center.y - radius <= south
      || center.x - radius <= west;
    assert hit ==> ReachesWall(center, radius, north, east, south, west, side);
    hit
  }

  /** The ball's edge reaches the wall on side `d`. */
  predicate ReachesWall(center: Coordinates, radius: real,
                        north: real, east: real, south: real, west: real, d: Direction)
  {
    match d
    case North => north <= center.y + radius
    case East => east <= center.x + radius
    case South => center.y - radius <= south
    case West => center.x - radius <= west
  }

  /** A ball of radius 0.1 at the centre of the square `[-1, 1]^2` touches
      no wall; one whose edge is on or beyond a side, or on or beyond two
      sides at a corner, does. */
  lemma BallWallExamples()
    ensures !CheckBallWall(Coordinates(0.0, 0.0), 0.1, 1.0, 1.0, -1.0, -1.0)
    ensures CheckBallWall(Coordinates(0.0, 0.9), 0.1, 1.0, 1.0, -1.0, -1.0)
    ensures CheckBallWall(Coordinates(0.9, 0.0), 0.1, 1.0, 1.0, -1.0, -1.0)
    ensures CheckBallWall(Coordinates(0.0, -0.9), 0.1, 1.0, 1.0, -1.0, -1.0)
    ensures CheckBallWall(Coordinates(-0.9, 0.0), 0.1, 1.0, 1.0, -1.0, -1.0)
    ensures CheckBallWall(Coordinates(0.0, 0.91), 0.1, 1.0, 1.0, -1.0, -1.0)
    ensures CheckBallWall(Coordinates(0.91, 0.0), 0.1, 1.0, 1.0, -1.0, -1.0)
    ensures CheckBallWall(Coordinates(0.0, -0.91), 0.1, 1.0, 1.0, -1.0, -1.0)
    ensures CheckBallWall(Coordinates(-0.91, 0.0), 0.1, 1.0, 1.0, -1.0, -1.0)
    ensures CheckBallWall(Coordinates(0.9, 0.9), 0.1, 1.0, 1.0, -1.0, -1.0)
    ensures CheckBallWall(Coordinates(-0.9, 0.9), 0.1, 1.0, 1.0, -1.0, -1.0)
    ensures CheckBallWall(Coordinates(0.9, -0.9), 0.1, 1.0, 1.0, -1.0, -1.0)
    ensures CheckBallWall(Coordinates(-0.9, -0.9), 0.1, 1.0, 1.0, -1.0, -1.0)
    ensures CheckBallWall(Coordinates(0.91, 0.91), 0.1, 1.0, 1.0, -1.0, -1.0)
    ensures CheckBallWall(Coordinates(-0.91, 0.91), 0.1, 1.0, 1.0, -1.0, -1.0)
    ensures CheckBallWall(Coordinates(0.91, -0.91), 0.1, 1.0, 1.0, -1.0, -1.0)
    ensures CheckBallWall(Coordinates(-0.91, -0.91), 0.1, 1.0, 1.0, -1.0, -1.0)
  {
  }

  // ---------------------------------------------------------------------
  // Ball–ball resolution

  /** `resolve_ball_ball_collision`: the two-body elastic collision. Each
      velocity loses its component along the line of centres in proportion
      to the other ball's share of the total mass; both updates use the
      velocities from before the impact. Total momentum and total kinetic
      energy are the same after the collision as before, and the result
      vectors are built fresh, so their cached magnitude and angle are
      current. */
  function ResolveBallBall(n: Numerics,
                           aPos: Coordinates, aVel: Vectors.Vector, aMass: real,
                           bPos: Coordinates, bVel: Vectors.Vector, bMass: real)
    : (r: (Vectors.Vector, Vectors.Vector))
    requires Lawful(n)
    requires aPos != bPos
    requires aMass + bMass != 0.0
    ensures Vectors.Cached(n, r.0) && Vectors.Cached(n, r.1)
    ensures (r.0.Components(), r.1.Components())
         == Resolve(n, aPos, aVel.Components(), aMass, bPos, bVel.Components(), bMass)
  {
    var c := Resolve(n, aPos, aVel.Components(), aMass, bPos, bVel.Components(), bMass);
    (Vectors.New(n, c.0.x, c.0.y), Vectors.New(n, c.1.x, c.1.y))
  }

  /** On the source's own vectors: the collision conserves total momentum,
      componentwise, and total kinetic energy. */
  lemma ResolveBallBallConserves(n: Numerics,
                                 aPos: Coordinates, aVel: Vectors.Vector, aMass: real,
                                 bPos: Coordinates, bVel: Vectors.Vector, bMass: real)
    requires Lawful(n)
    requires aPos != bPos
    requires aMass + bMass != 0.0
    ensures var r := ResolveBallBall(n, aPos, aVel, aMass, bPos, bVel, bMass);
            Conserving(aMass, aVel.Components(), bMass, bVel.Components(),
                       (r.0.Components(), r.1.Components()))
  {
    ResolveConserves(n, aPos, aVel.Components(), aMass, bPos, bVel.Components(), bMass);
  }

  /** Velocities `after.0` and `after.1` of two balls of masses `ma` and `mb`
      that had velocities `va` and `vb` keep the total momentum
      `ma va + mb vb`, componentwise, and the total kinetic energy. */
  predicate Conserving(ma: real, va: Coordinates, mb: real, vb: Coordinates,
                       after: (Coordinates, Coordinates))
  {
    && ma * after.0.x + mb * after.1.x == ma * va.x + mb * vb.x
    && ma * after.0.y + mb * after.1.y == ma * va.y + mb * vb.y
    && KineticEnergy(ma, after.0) + KineticEnergy(mb, after.1)
       == KineticEnergy(ma, va) + KineticEnergy(mb, vb)
  }

  /** The velocity update of `resolve_ball_ball_collision` on plain
      components: `va - (2 mb / (ma + mb)) ((va - vb) . (pa - pb)) /
      |pa - pb|^2 (pa - pb)`, and the same with the two balls exchanged. */
  function Resolve(n: Numerics,
                   aPos: Coordinates, va: Coordinates, aMass: real,
                   bPos: Coordinates, vb: Coordinates, bMass: real)
    : (r: (Coordinates, Coordinates))
    requires Lawful(n)
    requires aPos != bPos
    requires aMass + bMass != 0.0
    ensures var q := Normal(aPos.Minus(bPos));
            r.0.Minus(va).Dot(q) == 0.0 && r.1.Minus(vb).Dot(q) == 0.0
  {
    CentresApart(n, aPos, bPos);
    var pAB, pBA := aPos.Minus(bPos), bPos.Minus(aPos);
    var s := Impulse(aMass, bMass, va.Minus(vb).Dot(pAB), Distance(n, pAB));
    var t := Impulse(bMass, aMass, vb.Minus(va).Dot(pBA), Distance(n, pBA));
    ChangeAcrossNormal(va, pAB, s, Normal(pAB));
    ChangeAcrossNormal(vb, pBA, t, Normal(pAB));
    (va.Minus(pAB.Scale(s)), vb.Minus(pBA.Scale(t)))
  }

  /** `p` turned a quarter circle: the direction across the line along `p`. */
  function Normal(p: Coordinates): (q: Coordinates)
    ensures q.Dot(p) == 0.0
  {
    Coordinates(-p.y, p.x)
  }

  /** Moving `v` back along `p` changes nothing across the line along `p`,
      nor across the line along `-p`. */
  lemma ChangeAcrossNormal(v: Coordinates, p: Coordinates, k: real, q: Coordinates)
    requires q == Normal(p) || q == Normal(Origin.Minus(p))
    ensures v.Minus(p.Scale(k)).Minus(v).Dot(q) == 0.0
  {
    assert v.Minus(p.Scale(k)).Minus(v) == p.Scale(-k);
    assert p.Scale(-k).Dot(q) == -k * p.Dot(q);
  }

  /** The scalar `(2 m_other / (m_self + m_other)) * along / dist^2` by which
      a ball's velocity moves back along the line of centres. */
  function Impulse(mSelf: real, mOther: real, along: real, dist: real): (r: real)
    requires mSelf + mOther != 0.0
    requires dist != 0.0
    ensures r * Sq(dist) == (2.0 * mOther) / (mSelf + mOther) * along
  {
    SqLaws(dist);
    DivTimes((2.0 * mOther) / (mSelf + mOther) * along, Sq(dist));
    (2.0 * mOther) / (mSelf + mOther) * along / Sq(dist)
  }

  /** Half mass times squared speed. */
  function KineticEnergy(m: real, v: Coordinates): real {
    0.5 * m * v.Dot(v)
  }

  /** Distinct centres are a non-zero distance apart, in either direction,
      and that distance squares to the squared length of `pa - pb`. */
  lemma CentresApart(n: Numerics, aPos: Coordinates, bPos: Coordinates)
    requires Lawful(n)
    requires aPos != bPos
    ensures var p := aPos.Minus(bPos);
            && Distance(n, p) != 0.0 && Sq(Distance(n, p)) == p.Dot(p)
            && Distance(n, bPos.Minus(aPos)) != 0.0 && Sq(Distance(n, bPos.Minus(aPos))) == p.Dot(p)
  {
    DistanceLaws(n, aPos.Minus(bPos), Origin);
    DistanceLaws(n, bPos.Minus(aPos), Origin);
  }

  /** Exchanging both the velocities and the centres leaves the projection
      of the relative velocity unchanged, and moving back along `pb - pa`
      is moving forward along `pa - pb`. */
  lemma Exchanged(va: Coordinates, vb: Coordinates, aPos: Coordinates, bPos: Coordinates,
                  s: real, t: real)
    ensures vb.Minus(va).Dot(bPos.Minus(aPos)) == va.Minus(vb).Dot(aPos.Minus(bPos))
    ensures va.Minus(aPos.Minus(bPos).Scale(s)) == va.Plus(aPos.Minus(bPos).Scale(-s))
    ensures vb.Minus(bPos.Minus(aPos).Scale(t)) == vb.Plus(aPos.Minus(bPos).Scale(t))
  {
  }

  /** Both results of `Resolve` differ from the incoming velocities only
      along the line of centres `p = pa - pb`: A by `-s p`, B by `+t p`,
      with the impulses balanced by mass and summing to twice the
      projection of the relative velocity on `p`. */
  lemma ResolveAlongCentres(n: Numerics,
                            aPos: Coordinates, va: Coordinates, aMass: real,
                            bPos: Coordinates, vb: Coordinates, bMass: real)
    returns (s: real, t: real)
    requires Lawful(n)
    requires aPos != bPos
    requires aMass + bMass != 0.0
    ensures var p := aPos.Minus(bPos);
            && Resolve(n, aPos, va, aMass, bPos, vb, bMass) == (va.Plus(p.Scale(-s)), vb.Plus(p.Scale(t)))
            && aMass * s == bMass * t
            && (s + t) * p.Dot(p) == 2.0 * va.Minus(vb).Dot(p)
  {
    var pAB, pBA := aPos.Minus(bPos), bPos.Minus(aPos);
    CentresApart(n, aPos, bPos);
    var along := va.Minus(vb).Dot(pAB);
    s := Impulse(aMass, bMass, along, Distance(n, pAB));
    t := Impulse(bMass, aMass, along, Distance(n, pBA));
    Exchanged(va, vb, aPos, bPos, s, t);
    ImpulseBalance(aMass, bMass, along, pAB.Dot(pAB), Distance(n, pAB), Distance(n, pBA));
  }

  /** `resolve_ball_ball_collision` conserves the total momentum
      `ma va + mb vb`, componentwise, and the total kinetic energy. */
  lemma ResolveConserves(n: Numerics,
                         aPos: Coordinates, va: Coordinates, aMass: real,
                         bPos: Coordinates, vb: Coordinates, bMass: real)
    requires Lawful(n)
    requires aPos != bPos
    requires aMass + bMass != 0.0
    ensures Conserving(aMass, va, bMass, vb, Resolve(n, aPos, va, aMass, bPos, vb, bMass))
  {
    var s, t := ResolveAlongCentres(n, aPos, va, aMass, bPos, vb, bMass);
    ElasticExchange(aMass, va, s, bMass, vb, t, aPos.Minus(bPos));
  }

  /** Opposite impulses `-s p` and `t p` with `ma s == mb t` whose sum
      reverses the relative velocity along `p` conserve momentum and
      kinetic energy. */
  lemma ElasticExchange(ma: real, va: Coordinates, s: real,
                        mb: real, vb: Coordinates, t: real, p: Coordinates)
    requires ma * s == mb * t
    requires (s + t) * p.Dot(p) == 2.0 * va.Minus(vb).Dot(p)
    ensures Conserving(ma, va, mb, vb, (va.Plus(p.Scale(-s)), vb.Plus(p.Scale(t))))
  {
    ElasticMomentum(ma, va, s, mb, vb, t, p);
    ElasticEnergy(ma, va, s, mb, vb, t, p);
  }

  /** The impulse identities over plain reals: `along` is the projection
      and `d` the squared centre distance, which both distances square
      to. */
  lemma ImpulseBalance(ma: real, mb: real, along: real, d: real, dA: real, dB: real)
    requires ma + mb != 0.0
    requires dA != 0.0 && dB != 0.0
    requires Sq(dA) == d && Sq(dB) == d
    ensures ma * Impulse(ma, mb, along, dA) == mb * Impulse(mb, ma, along, dB)
    ensures (Impulse(ma, mb, along, dA) + Impulse(mb, ma, along, dB)) * d == 2.0 * along
  {
    var m := ma + mb;
    var fa, fb := (2.0 * mb) / m, (2.0 * ma) / m;
    var s, t := Impulse(ma, mb, along, dA), Impulse(mb, ma, along, dB);
    assert s * d == fa * along && t * d == fb * along;
    MassShares(ma, mb);
    SqLaws(dA);
    assert (s + t) * d == (fa + fb) * along;
    assert (ma * s) * d == (ma * fa) * along;
    assert (mb * t) * d == (mb * fb) * along;
    MulCancel(ma * s, mb * t, d);
  }

  /** Multiplying a quotient by its non-zero divisor gives back the
      dividend. */
  lemma DivTimes(u: real, d: real)
    requires d != 0.0
    ensures (u / d) * d == u
  {
  }

  /** The mass shares `2 mb / (ma + mb)` and `2 ma / (ma + mb)`, each weighted
      by its own ball's mass, agree, and the shares add up to 2. */
  lemma MassShares(ma: real, mb: real)
    requires ma + mb != 0.0
    ensures ma * ((2.0 * mb) / (ma + mb)) == mb * ((2.0 * ma) / (ma + mb))
    ensures (2.0 * mb) / (ma + mb) + (2.0 * ma) / (ma + mb) == 2.0
  {
    var m := ma + mb;
    var fa, fb := (2.0 * mb) / m, (2.0 * ma) / m;
    DivTimes(2.0 * mb, m);
    DivTimes(2.0 * ma, m);
    assert (fa + fb) * m == fa * m + fb * m;
    MulCancel(fa + fb, 2.0, m);
    assert (ma * fa) * m == ma * (fa * m);
    assert (mb * fb) * m == mb * (fb * m);
    MulCancel(ma * fa, mb * fb, m);
  }

  /** A non-zero factor can be cancelled. */
  lemma MulCancel(u: real, v: real, m: real)
    requires m != 0.0
    requires u * m == v * m
    ensures u == v
  {
    var d := u - v;
    assert Mul(d, m) == 0.0;
    if 0.0 < d && 0.0 < m {
      MulPositive(d, m);
    } else if 0.0 < d && m < 0.0 {
      MulPositive(d, -m);
    } else if d < 0.0 && 0.0 < m {
      MulPositive(-d, m);
    } else if d < 0.0 && m < 0.0 {
      MulPositive(-d, -m);
    }
  }

  /** Impulses that balance by mass (`ma s == mb t`) along any common
      direction `p` take from one ball exactly the momentum they give the
      other. */
  lemma ElasticMomentum(ma: real, va: Coordinates, s: real,
                        mb: real, vb: Coordinates, t: real, p: Coordinates)
    requires ma * s == mb * t
    ensures ma * va.Plus(p.Scale(-s)).x + mb * vb.Plus(p.Scale(t)).x == ma * va.x + mb * vb.x
    ensures ma * va.Plus(p.Scale(-s)).y + mb * vb.Plus(p.Scale(t)).y == ma * va.y + mb * vb.y
  {
    assert ma * (-s * p.x) == -((ma * s) * p.x);
    assert mb * (t * p.x) == (mb * t) * p.x;
    assert ma * (-s * p.y) == -((ma * s) * p.y);
    assert mb * (t * p.y) == (mb * t) * p.y;
  }

  /** `x` is the squared length of `v + k p` written through the squared
      length `e` of `v`, the projection `pr = v . p` and `d = p . p`. */
  predicate Expanded(x: real, e: real, k: real, pr: real, d: real) {
    x == e + 2.0 * k * pr + k * (k * d)
  }

  /** The squared length of `v + k p`. */
  lemma DotExpand(v: Coordinates, p: Coordinates, k: real, w: Coordinates)
    requires w == v.Plus(p.Scale(k))
    ensures Expanded(w.Dot(w), v.Dot(v), k, v.Dot(p), p.Dot(p))
  {
  }

  /** Kinetic energy is conserved by impulses `va - s p`, `vb + t p` that
      balance by mass and whose sum is twice the projection of the relative
      velocity `va - vb` on `p`. */
  lemma ElasticEnergy(ma: real, va: Coordinates, s: real,
                      mb: real, vb: Coordinates, t: real, p: Coordinates)
    requires ma * s == mb * t
    requires (s + t) * p.Dot(p) == 2.0 * va.Minus(vb).Dot(p)
    ensures KineticEnergy(ma, va.Plus(p.Scale(-s))) + KineticEnergy(mb, vb.Plus(p.Scale(t)))
         == KineticEnergy(ma, va) + KineticEnergy(mb, vb)
  {
    ImpulseSquares(va, vb, p, s, t);
    EnergyBalance(ma, mb, s, t, va.Dot(va), vb.Dot(vb), va.Dot(p), vb.Dot(p), p.Dot(p),
                  va.Plus(p.Scale(-s)).Dot(va.Plus(p.Scale(-s))),
                  vb.Plus(p.Scale(t)).Dot(vb.Plus(p.Scale(t))));
    HalfBoth(ma, mb, va.Plus(p.Scale(-s)).Dot(va.Plus(p.Scale(-s))),
             vb.Plus(p.Scale(t)).Dot(vb.Plus(p.Scale(t))), va.Dot(va), vb.Dot(vb));
  }

  /** The squared speeds after impulses `-s p` and `+t p`, in terms of the
      speeds, projections and squared length of `p` before. */
  lemma ImpulseSquares(va: Coordinates, vb: Coordinates, p: Coordinates, s: real, t: real)
    ensures Expanded(va.Plus(p.Scale(-s)).Dot(va.Plus(p.Scale(-s))), va.Dot(va), -s, va.Dot(p), p.Dot(p))
    ensures Expanded(vb.Plus(p.Scale(t)).Dot(vb.Plus(p.Scale(t))), vb.Dot(vb), t, vb.Dot(p), p.Dot(p))
    ensures va.Minus(vb).Dot(p) == va.Dot(p) - vb.Dot(p)
  {
    DotExpand(va, p, -s, va.Plus(p.Scale(-s)));
    DotExpand(vb, p, t, vb.Plus(p.Scale(t)));
    DotMinus(va, vb, p);
  }

  /** The dot product distributes over a difference. */
  lemma DotMinus(u: Coordinates, v: Coordinates, p: Coordinates)
    ensures u.Minus(v).Dot(p) == u.Dot(p) - v.Dot(p)
  {
  }

  /** Halving both sides of a mass-weighted sum keeps it balanced. */
  lemma HalfBoth(ma: real, mb: real, x: real, y: real, a: real, b: real)
    requires ma * x + mb * y == ma * a + mb * b
    ensures 0.5 * ma * x + 0.5 * mb * y == 0.5 * ma * a + 0.5 * mb * b
  {
    assert 0.5 * ma * x + 0.5 * mb * y == 0.5 * (ma * x + mb * y);
  }

  /** `ElasticEnergy` over plain reals: `ea`, `eb` are the squared speeds
      before and `x`, `y` after the impulses, `pa`, `pb` the projections of
      the velocities on `p` and `d` the squared length of `p`. */
  lemma EnergyBalance(ma: real, mb: real, s: real, t: real,
                      ea: real, eb: real, pa: real, pb: real, d: real, x: real, y: real)
    requires ma * s == mb * t
    requires (s + t) * d == 2.0 * (pa - pb)
    requires Expanded(x, ea, -s, pa, d)
    requires Expanded(y, eb, t, pb, d)
    ensures ma * x + mb * y == ma * ea + mb * eb
  {
    var q := ma * s;
    assert ma * (2.0 * -s * pa) == -2.0 * q * pa;
    assert mb * (2.0 * t * pb) == 2.0 * q * pb;
    assert ma * (-s * (-s * d)) == q * (s * d);
    assert mb * (t * (t * d)) == q * (t * d);
    assert q * (s * d) + q * (t * d) == q * ((s + t) * d);
  }

  /** Moving `v` along `p` by `k` changes its projection on any `q` by
      `k (p . q)`. */
  lemma DotAlong(v: Coordinates, p: Coordinates, k: real, q: Coordinates, w: Coordinates)
    requires w == v.Plus(p.Scale(k))
    ensures w.Dot(q) == v.Dot(q) + k * p.Dot(q)
  {
  }

  /** Each ball keeps the component of its velocity perpendicular to the
      line of centres, whatever the masses. */
  lemma ResolveKeepsPerpendicular(n: Numerics,
                                  aPos: Coordinates, va: Coordinates, aMass: real,
                                  bPos: Coordinates, vb: Coordinates, bMass: real,
                                  q: Coordinates)
    requires Lawful(n)
    requires aPos != bPos
    requires aMass + bMass != 0.0
    requires aPos.Minus(bPos).Dot(q) == 0.0
    ensures Resolve(n, aPos, va, aMass, bPos, vb, bMass).0.Dot(q) == va.Dot(q)
    ensures Resolve(n, aPos, va, aMass, bPos, vb, bMass).1.Dot(q) == vb.Dot(q)
  {
    var p := aPos.Minus(bPos);
    var s, t := ResolveAlongCentres(n, aPos, va, aMass, bPos, vb, bMass);
    var r := Resolve(n, aPos, va, aMass, bPos, vb, bMass);
    DotAlong(va, p, -s, q, r.0);
    DotAlong(vb, p, t, q, r.1);
  }

  /** With equal masses both impulses are the relative velocity's projection
      `w` on the line of centres, so `w (p . p) == (va - vb) . p`. */
  lemma ResolveEqualMasses(n: Numerics, aPos: Coordinates, va: Coordinates,
                           bPos: Coordinates, vb: Coordinates, m: real)
    returns (w: real)
    requires Lawful(n)
    requires aPos != bPos
    requires m != 0.0
    ensures var p := aPos.Minus(bPos);
            && Resolve(n, aPos, va, m, bPos, vb, m) == (va.Plus(p.Scale(-w)), vb.Plus(p.Scale(w)))
            && w * p.Dot(p) == va.Minus(vb).Dot(p)
  {
    var s, t := ResolveAlongCentres(n, aPos, va, m, bPos, vb, m);
    assert s * m == t * m;
    MulCancel(s, t, m);
    w := s;
  }

  /** Equal masses exchange their velocity components along the line of
      centres. */
  lemma EqualMassesSwapAlongCentres(n: Numerics, aPos: Coordinates, va: Coordinates,
                                    bPos: Coordinates, vb: Coordinates, m: real)
    requires Lawful(n)
    requires aPos != bPos
    requires m != 0.0
    ensures var p := aPos.Minus(bPos);
            && Resolve(n, aPos, va, m, bPos, vb, m).0.Dot(p) == vb.Dot(p)
            && Resolve(n, aPos, va, m, bPos, vb, m).1.Dot(p) == va.Dot(p)
  {
    var p := aPos.Minus(bPos);
    var w := ResolveEqualMasses(n, aPos, va, bPos, vb, m);
    var r := Resolve(n, aPos, va, m, bPos, vb, m);
    DotAlong(va, p, -w, p, r.0);
    DotAlong(vb, p, w, p, r.1);
    DotMinus(va, vb, p);
  }

  /** An equal-mass collision whose projection `w` is known, stated on
      components. */
  lemma EqualMassesExample(n: Numerics, aPos: Coordinates, va: Coordinates,
                           bPos: Coordinates, vb: Coordinates, m: real,
                           w: real, a2: Coordinates, b2: Coordinates)
    requires Lawful(n)
    requires aPos != bPos
    requires m != 0.0
    requires w * ((aPos.x - bPos.x) * (aPos.x - bPos.x) + (aPos.y - bPos.y) * (aPos.y - bPos.y))
          == (va.x - vb.x) * (aPos.x - bPos.x) + (va.y - vb.y) * (aPos.y - bPos.y)
    requires a2.x == va.x + -w * (aPos.x - bPos.x) && a2.y == va.y + -w * (aPos.y - bPos.y)
    requires b2.x == vb.x + w * (aPos.x - bPos.x) && b2.y == vb.y + w * (aPos.y - bPos.y)
    ensures Resolve(n, aPos, va, m, bPos, vb, m) == (a2, b2)
  {
    var p := aPos.Minus(bPos);
    var w' := ResolveEqualMasses(n, aPos, va, bPos, vb, m);
    ProjectionUnique(aPos, bPos, va, vb, w', w);
    MovedAlong(va, aPos, bPos, -w, a2);
    MovedAlong(vb, aPos, bPos, w, b2);
  }

  /** The factor `w` with `w (p . p) == (va - vb) . p` is unique when the
      centres `p = aPos - bPos` differ; the second factor is given on
      components. */
  lemma ProjectionUnique(aPos: Coordinates, bPos: Coordinates, va: Coordinates, vb: Coordinates,
                         w1: real, w2: real)
    requires aPos != bPos
    requires w1 * aPos.Minus(bPos).Dot(aPos.Minus(bPos)) == va.Minus(vb).Dot(aPos.Minus(bPos))
    requires w2 * ((aPos.x - bPos.x) * (aPos.x - bPos.x) + (aPos.y - bPos.y) * (aPos.y - bPos.y))
          == (va.x - vb.x) * (aPos.x - bPos.x) + (va.y - vb.y) * (aPos.y - bPos.y)
    ensures w1 == w2
  {
    var p := aPos.Minus(bPos);
    SquaredLengthPositive(p);
    MulCancel(w1, w2, p.Dot(p));
  }

  /** `v + k (aPos - bPos)` written out on components. */
  lemma MovedAlong(v: Coordinates, aPos: Coordinates, bPos: Coordinates, k: real, w: Coordinates)
    requires w.x == v.x + k * (aPos.x - bPos.x) && w.y == v.y + k * (aPos.y - bPos.y)
    ensures w == v.Plus(aPos.Minus(bPos).Scale(k))
  {
  }

  /** A non-zero vector has a positive squared length. */
  lemma SquaredLengthPositive(p: Coordinates)
    requires p != Origin
    ensures 0.0 < p.Dot(p)
  {
    SqLaws(p.x);
    SqLaws(p.y);
    assert p.Dot(p) == Sq(p.x) + Sq(p.y);
  }

  /** One dimension, equal masses of 3, ball A one unit to the left of B:
      a stationary target takes all of A's velocity. */
  lemma ResolveExampleStationary(n: Numerics)
    requires Lawful(n)
    ensures Resolve(n, Coordinates(-1.0, 0.0), Coordinates(2.0, 0.0), 3.0,
                    Origin, Coordinates(0.0, 0.0), 3.0)
         == (Coordinates(0.0, 0.0), Coordinates(2.0, 0.0))
  {
    EqualMassesExample(n, Coordinates(-1.0, 0.0), Coordinates(2.0, 0.0), Origin,
                       Coordinates(0.0, 0.0), 3.0, -2.0, Coordinates(0.0, 0.0), Coordinates(2.0, 0.0));
  }

  /** A head-on collision at equal speeds: the velocities are exchanged. */
  lemma ResolveExampleHeadOn(n: Numerics)
    requires Lawful(n)
    ensures Resolve(n, Coordinates(-1.0, 0.0), Coordinates(2.0, 0.0), 3.0,
                    Origin, Coordinates(-2.0, 0.0), 3.0)
         == (Coordinates(-2.0, 0.0), Coordinates(2.0, 0.0))
  {
    EqualMassesExample(n, Coordinates(-1.0, 0.0), Coordinates(2.0, 0.0), Origin,
                       Coordinates(-2.0, 0.0), 3.0, -4.0, Coordinates(-2.0, 0.0), Coordinates(2.0, 0.0));
  }

  /** A head-on collision at different speeds: again the velocities are
      exchanged. */
  lemma ResolveExampleHeadOnUneven(n: Numerics)
    requires Lawful(n)
    ensures Resolve(n, Coordinates(-1.0, 0.0), Coordinates(2.0, 0.0), 3.0,
                    Origin, Coordinates(-1.0, 0.0), 3.0)
         == (Coordinates(-1.0, 0.0), Coordinates(2.0, 0.0))
  {
    EqualMassesExample(n, Coordinates(-1.0, 0.0), Coordinates(2.0, 0.0), Origin,
                       Coordinates(-1.0, 0.0), 3.0, -3.0, Coordinates(-1.0, 0.0), Coordinates(2.0, 0.0));
  }

  /** Along the diagonal, A at (-1, -1) hits B at rest at the origin. */
  lemma ResolveExampleDiagonal(n: Numerics)
    requires Lawful(n)
    ensures Resolve(n, Coordinates(-1.0, -1.0), Coordinates(2.0, 2.0), 3.0,
                    Origin, Coordinates(0.0, 0.0), 3.0)
         == (Coordinates(0.0, 0.0), Coordinates(2.0, 2.0))
  {
    EqualMassesExample(n, Coordinates(-1.0, -1.0), Coordinates(2.0, 2.0), Origin,
                       Coordinates(0.0, 0.0), 3.0, -2.0, Coordinates(0.0, 0.0), Coordinates(2.0, 2.0));
  }

  /** Along the diagonal, head on at equal speeds. */
  lemma ResolveExampleDiagonalHeadOn(n: Numerics)
    requires Lawful(n)
    ensures Resolve(n, Coordinates(-1.0, -1.0), Coordinates(2.0, 2.0), 3.0,
                    Origin, Coordinates(-2.0, -2.0), 3.0)
         == (Coordinates(-2.0, -2.0), Coordinates(2.0, 2.0))
  {
    EqualMassesExample(n, Coordinates(-1.0, -1.0), Coordinates(2.0, 2.0), Origin,
                       Coordinates(-2.0, -2.0), 3.0, -4.0, Coordinates(-2.0, -2.0), Coordinates(2.0, 2.0));
  }

  /** A glancing blow: A at (-1, 0) moving with (1, 1) hits B at rest at the
      origin; A keeps its sideways motion (0, 1) and B takes (1, 0). */
  lemma ResolveExampleGlancing(n: Numerics)
    requires Lawful(n)
    ensures Resolve(n, Coordinates(-1.0, 0.0), Coordinates(1.0, 1.0), 3.0,
                    Origin, Coordinates(0.0, 0.0), 3.0)
         == (Coordinates(0.0, 1.0), Coordinates(1.0, 0.0))
  {
    EqualMassesExample(n, Coordinates(-1.0, 0.0), Coordinates(1.0, 1.0), Origin,
                       Coordinates(0.0, 0.0), 3.0, -1.0, Coordinates(0.0, 1.0), Coordinates(1.0, 0.0));
  }

}
