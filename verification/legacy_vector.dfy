/** The earlier vector module (pool/vector.py): a vector with a cached
    magnitude and angle whose angle has no zero-vector case. */
module LegacyVectors {

  import opened Wrappers
  import opened RealMath
  import Vectors

  /** A vector with its magnitude and angle. Unlike the later module the
      angle is always a number: the constructor cannot produce a vector
      without one. */
  datatype Vector = Vector(x: real, y: real, mag: real, ang: real)

  /** `get_angle`. `None` stands for the `ZeroDivisionError` that `y / x`
      raises: the axis tests return only for a non-zero other component, so
      `(0, 0)` falls through to the arc tangent with `x == 0`. */
  function Angle(n: Numerics, x: real, y: real): (r: Option<real>)
    ensures r.None? <==> x == 0.0 && y == 0.0
    ensures x == 0.0 && 0.0 < y ==> r == Some(90.0)
    ensures x == 0.0 && y < 0.0 ==> r == Some(270.0)
    ensures 0.0 < x && y == 0.0 ==> r == Some(0.0)
    ensures x < 0.0 && y == 0.0 ==> r == Some(180.0)
  {
    if x == 0.0 && 0.0 < y then Some(90.0)
    else if x == 0.0 && y < 0.0 then Some(270.0)
    else if x != 0.0 && y == 0.0 then
      (if 0.0 < x then Some(0.0) else Some(180.0))
    else if x == 0.0 then None
    else
      var raw := n.atanDeg(y / x);
      if 0.0 < x && 0.0 < y then Some(raw)
      else if x < 0.0 && 0.0 < y then Some(180.0 + raw)
      else if x < 0.0 && y < 0.0 then Some(180.0 + raw)
      else Some(PyMod(360.0 + raw, 360.0))
  }

  /** Wherever the old `get_angle` returns, it returns what the later
      `Vector.get_angle` returns; the two differ only at the zero vector,
      where the old one raises and the later one answers "no angle". */
  lemma AngleAgreesWithCurrent(n: Numerics, x: real, y: real)
    ensures Angle(n, x, y).Some? <==> Vectors.Angle(n, x, y).Some?
    ensures Angle(n, x, y).Some? ==> Angle(n, x, y) == Vectors.Angle(n, x, y)
  {
  }

  /** Off the axes the old angle lies in the open quadrant that the signs
      of `x` and `y` select. */
  lemma AngleQuadrants(n: Numerics, x: real, y: real)
    requires Lawful(n)
    requires x != 0.0 && y != 0.0
    ensures Angle(n, x, y).Some?
    ensures 0.0 < x && 0.0 < y ==> 0.0 < Angle(n, x, y).value < 90.0
    ensures x < 0.0 && 0.0 < y ==> 90.0 < Angle(n, x, y).value < 180.0
    ensures x < 0.0 && y < 0.0 ==> 180.0 < Angle(n, x, y).value < 270.0
    ensures 0.0 < x && y < 0.0 ==> 270.0 < Angle(n, x, y).value < 360.0
  {
    AngleAgreesWithCurrent(n, x, y);
    Vectors.AngleQuadrants(n, x, y);
  }

  /** The axis vectors and the four diagonals of the old tests. */
  lemma AngleExamples(n: Numerics)
    requires Lawful(n)
    ensures Angle(n, 1.0, 0.0) == Some(0.0) && Angle(n, 0.0, 1.0) == Some(90.0)
    ensures Angle(n, -1.0, 0.0) == Some(180.0) && Angle(n, 0.0, -1.0) == Some(270.0)
    ensures Angle(n, 1.0, 1.0) == Some(45.0) && Angle(n, -1.0, 1.0) == Some(135.0)
    ensures Angle(n, -1.0, -1.0) == Some(225.0) && Angle(n, 1.0, -1.0) == Some(315.0)
  {
    Vectors.AngleExamples(n);
    AngleAgreesWithCurrent(n, 1.0, 1.0);
    AngleAgreesWithCurrent(n, -1.0, 1.0);
    AngleAgreesWithCurrent(n, -1.0, -1.0);
    AngleAgreesWithCurrent(n, 1.0, -1.0);
  }

  /** `Vector(x, y)`: `None` when the constructor raises, which is exactly
      for the zero vector. Otherwise the components are stored and the
      cache holds `get_magnitude` and `get_angle` of them. */
  function New(n: Numerics, x: real, y: real): (r: Option<Vector>)
    ensures r.None? <==> x == 0.0 && y == 0.0
    ensures r.Some? ==> r.value.x == x && r.value.y == y && Cached(n, r.value)
  {
    match Angle(n, x, y)
    case None => None
    case Some(a) => Some(Vector(x, y, Vectors.Magnitude(n, x, y), a))
  }

  /** The cache agrees with the components. */
  predicate Cached(n: Numerics, v: Vector) {
    v.mag == Vectors.Magnitude(n, v.x, v.y) && Angle(n, v.x, v.y) == Some(v.ang)
  }

  /** `set(x, y)`: replaces the components and refreshes the cache; like
      the constructor it raises for `(0, 0)`. */
  function Set(n: Numerics, v: Vector, x: real, y: real): (r: Option<Vector>)
    ensures r.None? <==> x == 0.0 && y == 0.0
    ensures r.Some? ==> r.value.x == x && r.value.y == y && Cached(n, r.value)
    ensures r == New(n, x, y)
  {
    match Angle(n, x, y)
    case None => None
    case Some(a) => Some(v.(x := x, y := y, mag := Vectors.Magnitude(n, x, y), ang := a))
  }

  /** For a non-zero vector the old constructor builds the same components,
      magnitude and angle as the later one. */
  lemma NewAgreesWithCurrent(n: Numerics, x: real, y: real)
    requires x != 0.0 || y != 0.0
    ensures New(n, x, y).Some?
    ensures var v, w := New(n, x, y).value, Vectors.New(n, x, y);
            v.x == w.x && v.y == w.y && v.mag == w.mag && w.ang == Some(v.ang)
  {
    AngleAgreesWithCurrent(n, x, y);
  }

  /** `Vector(0, 0)` raises, while the later module builds a zero vector
      with magnitude 0 and no angle. */
  lemma ZeroVectorRaises(n: Numerics)
    requires Lawful(n)
    ensures New(n, 0.0, 0.0).None?
    ensures Vectors.New(n, 0.0, 0.0).ang.None? && Vectors.New(n, 0.0, 0.0).mag == 0.0
  {
    SqrtZero(n);
  }

}
