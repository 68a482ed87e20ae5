/** Two-dimensional vectors with a cached magnitude and angle
    (src/physics/vector.py). */
module Vectors {

  import opened Wrappers
  import opened RealMath
  import opened Points

  /** A vector keeps its components and, as the source's constructor does,
      the magnitude and angle computed from them. `ang` is `None` for the
      zero vector, which has no direction. */
  datatype Vector = Vector(x: real, y: real, mag: real, ang: Option<real>) {

    /** The components as a point, for the componentwise arithmetic. */
    function Components(): Coordinates {
      Coordinates(x, y)
    }
  }

  /** The cache agrees with the components: what `__init__` and `set`
      establish. */
  predicate Cached(n: Numerics, v: Vector) {
    v.mag == Magnitude(n, v.x, v.y) && v.ang == Angle(n, v.x, v.y)
  }

  /** `get_magnitude`: the Euclidean length of `(x, y)`, the non-negative
      number whose square is `x^2 + y^2`. */
  function Magnitude(n: Numerics, x: real, y: real): (r: real)
    ensures Lawful(n) ==> 0.0 <= r && Sq(r) == Sq(x) + Sq(y)
  {
    assert 0.0 <= Sq(x) + Sq(y) by {
      SqLaws(x);
      SqLaws(y);
    }
    n.sqrt(Sq(x) + Sq(y))
  }

  /** `get_angle`: the direction of `(x, y)` in degrees counter-clockwise
      from the positive x-axis. Points on an axis get their angle exactly;
      elsewhere the arc tangent of `y / x` is shifted into the quadrant the
      signs of `x` and `y` select. */
  function Angle(n: Numerics, x: real, y: real): (r: Option<real>)
    ensures r.None? <==> x == 0.0 && y == 0.0
    ensures x == 0.0 && 0.0 < y ==> r == Some(90.0)
    ensures x == 0.0 && y < 0.0 ==> r == Some(270.0)
    ensures 0.0 < x && y == 0.0 ==> r == Some(0.0)
    ensures x < 0.0 && y == 0.0 ==> r == Some(180.0)
    ensures 0.0 < x && 0.0 < y ==> r == Some(n.atanDeg(y / x))
  {
    if x == 0.0 && y == 0.0 then None
    else if x == 0.0 then
      (if 0.0 < y then Some(90.0) else Some(270.0))
    else if y == 0.0 then
      (if 0.0 < x then Some(0.0) else Some(180.0))
    else
      var raw := n.atanDeg(y / x);
      if 0.0 < x && 0.0 < y then Some(raw)
      else if x < 0.0 && 0.0 < y then Some(180.0 + raw)
      else if x < 0.0 && y < 0.0 then Some(180.0 + raw)
      else Some(PyMod(360.0 + raw, 360.0))
  }

  /** `Vector(x, y)`: stores the components and fills the cache from them. */
  function New(n: Numerics, x: real, y: real): (v: Vector)
    ensures v.x == x && v.y == y && Cached(n, v)
    ensures v.ang.None? <==> x == 0.0 && y == 0.0
    ensures Lawful(n) ==> 0.0 <= v.mag && Sq(v.mag) == Sq(x) + Sq(y)
    ensures Lawful(n) && v.ang.Some? ==> 0.0 <= v.ang.value < 360.0
  {
    assert Lawful(n) ==> 0.0 <= Magnitude(n, x, y) by {
      if Lawful(n) {
        MagnitudeLaws(n, x, y);
        AngleRange(n, x, y);
      }
    }
    Vector(x, y, Magnitude(n, x, y), Angle(n, x, y))
  }

  /** `set(x, y)`: replaces the components and refreshes the cache, so the
      result no longer depends on the old vector at all. */
  function Set(n: Numerics, v: Vector, x: real, y: real): (w: Vector)
    ensures w.x == x && w.y == y && Cached(n, w)
    ensures w == New(n, x, y)
  {
    v.(x := x, y := y, mag := Magnitude(n, x, y), ang := Angle(n, x, y))
  }

  /** `__eq__`: only the components are compared, not the cache. */
  function Equals(u: Vector, v: Vector): (r: bool)
    ensures r <==> u.Components() == v.Components()
  {
    u.x == v.x && u.y == v.y
  }

  /** `__ne__`: exactly the negation of `__eq__`. */
  function NotEquals(u: Vector, v: Vector): (r: bool)
    ensures r <==> u.x != v.x || u.y != v.y
  {
    !Equals(u, v)
  }

  /** For vectors whose cache is current, comparing components is the same
      as comparing whole values. */
  lemma CachedEqualsIsIdentity(n: Numerics, u: Vector, v: Vector)
    requires Cached(n, u) && Cached(n, v)
    ensures Equals(u, v) <==> u == v
  {
  }

  lemma EqualsExamples(n: Numerics)
    ensures Equals(New(n, 1.0, 1.0), New(n, 1.0, 1.0))
    ensures NotEquals(New(n, 1.0, 1.0), New(n, 1.0, 1.1))
  {
  }

  /** The magnitude is the non-negative root of `x^2 + y^2`; it is zero
      exactly for the zero vector. */
  lemma MagnitudeLaws(n: Numerics, x: real, y: real)
    requires Lawful(n)
    ensures 0.0 <= Magnitude(n, x, y)
    ensures Sq(Magnitude(n, x, y)) == Sq(x) + Sq(y)
    ensures Magnitude(n, x, y) == 0.0 <==> x == 0.0 && y == 0.0
  {
    SqLaws(x);
    SqLaws(y);
    SqrtCompare(n, Sq(x) + Sq(y), 0.0);
  }

  /** `Vector(3, 4)` has magnitude 5 and angle `atanDeg(4 / 3)`, and the zero
      vector has magnitude 0 and no angle. */
  lemma MagnitudeExamples(n: Numerics)
    requires Lawful(n)
    ensures New(n, 3.0, 4.0).mag == 5.0
    ensures New(n, 3.0, 4.0).ang == Some(n.atanDeg(4.0 / 3.0))
    ensures New(n, 0.0, 0.0).mag == 0.0 && New(n, 0.0, 0.0).ang == None
  {
    SqrtUnique(n, 25.0, 5.0);
    SqrtUnique(n, 0.0, 0.0);
  }

  /** Away from the axes the angle lies in the open quadrant that the
      signs of `x` and `y` select. */
  lemma AngleQuadrants(n: Numerics, x: real, y: real)
    requires Lawful(n)
    requires x != 0.0 && y != 0.0
    ensures Angle(n, x, y).Some?
    ensures 0.0 < x && 0.0 < y ==> 0.0 < Angle(n, x, y).value < 90.0
    ensures x < 0.0 && 0.0 < y ==> 90.0 < Angle(n, x, y).value < 180.0
    ensures x < 0.0 && y < 0.0 ==> 180.0 < Angle(n, x, y).value < 270.0
    ensures 0.0 < x && y < 0.0 ==> 270.0 < Angle(n, x, y).value < 360.0
  {
    var t := y / x;
    assert t * x == y;
    if (0.0 < x) == (0.0 < y) {
      if t <= 0.0 {
        if 0.0 < x {
          MulMonotone(x, t, 0.0);
        } else {
          MulMonotone(-x, t, 0.0);
        }
      }
      assert 0.0 < t;
    } else {
      if 0.0 <= t {
        if 0.0 < x {
          MulMonotone(x, 0.0, t);
        } else {
          MulMonotone(-x, 0.0, t);
        }
      }
      assert t < 0.0;
    }
    assert -90.0 < n.atanDeg(t) < 90.0;
  }

  /** Every angle the function produces lies in `[0, 360)`. */
  lemma AngleRange(n: Numerics, x: real, y: real)
    requires Lawful(n)
    ensures Angle(n, x, y).Some? ==> 0.0 <= Angle(n, x, y).value < 360.0
  {
    if x != 0.0 && y != 0.0 {
      AngleQuadrants(n, x, y);
    }
  }

  /** The axis vectors and the four diagonals get their angles exactly. */
  lemma AngleExamples(n: Numerics)
    requires Lawful(n)
    ensures Angle(n, 1.0, 0.0) == Some(0.0) && Angle(n, 0.0, 1.0) == Some(90.0)
    ensures Angle(n, -1.0, 0.0) == Some(180.0) && Angle(n, 0.0, -1.0) == Some(270.0)
    ensures Angle(n, 1.0, 1.0) == Some(45.0) && Angle(n, -1.0, 1.0) == Some(135.0)
    ensures Angle(n, -1.0, -1.0) == Some(225.0) && Angle(n, 1.0, -1.0) == Some(315.0)
  {
    assert -1.0 / 1.0 == -1.0 && 1.0 / -1.0 == -1.0 && -1.0 / -1.0 == 1.0;
  }

}
