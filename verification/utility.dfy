/** Distance and angle between two points (src/physics/utility.py). */
module Utility {

  import opened Wrappers
  import opened RealMath
  import opened Points
  import Vectors

  /** The squared Euclidean distance, free of any square root. */
  function SquaredDistance(a: Coordinates, b: Coordinates): real {
    Sq(a.x - b.x) + Sq(a.y - b.y)
  }

  /** `get_distance`: the Euclidean distance from `b` (by default the
      origin) to `a`, the non-negative number whose square is the squared
      distance. */
  function Distance(n: Numerics, a: Coordinates, b: Coordinates := Origin): (r: real)
    ensures Lawful(n) ==> 0.0 <= r && Sq(r) == SquaredDistance(a, b)
  {
    assert 0.0 <= SquaredDistance(a, b) by {
      SqLaws(a.x - b.x);
      SqLaws(a.y - b.y);
    }
    n.sqrt(Sq(a.x - b.x) + Sq(a.y - b.y))
  }

  /** The distance is the non-negative root of the squared distance, it is
      symmetric, zero exactly when the points coincide, and without a
      second point it measures from the origin. */
  lemma DistanceLaws(n: Numerics, a: Coordinates, b: Coordinates)
    requires Lawful(n)
    ensures 0.0 <= Distance(n, a, b)
    ensures Sq(Distance(n, a, b)) == SquaredDistance(a, b)
    ensures Distance(n, a, b) == Distance(n, b, a)
    ensures Distance(n, a, b) == 0.0 <==> a == b
    ensures Distance(n, a) == Distance(n, a, Origin)
  {
    SqLaws(a.x - b.x);
    SqLaws(a.y - b.y);
    assert b.x - a.x == -(a.x - b.x) && b.y - a.y == -(a.y - b.y);
    SqrtCompare(n, SquaredDistance(a, b), 0.0);
  }

  /** Comparing a distance with a non-negative bound is comparing the
      squared distance with the squared bound. */
  lemma DistanceCompare(n: Numerics, a: Coordinates, b: Coordinates, bound: real)
    requires Lawful(n)
    requires 0.0 <= bound
    ensures Distance(n, a, b) <= bound <==> SquaredDistance(a, b) <= Sq(bound)
    ensures Distance(n, a, b) < bound <==> SquaredDistance(a, b) < Sq(bound)
  {
    SqLaws(a.x - b.x);
    SqLaws(a.y - b.y);
    SqrtCompare(n, SquaredDistance(a, b), bound);
  }

  /** `get_angle`: the direction, in degrees counter-clockwise from the
      positive x-axis, of `a` as seen from `b` (by default the origin).
      Coinciding points have no angle; axis offsets get their angle exactly;
      elsewhere the arc tangent is moved into the quadrant of the offset. */
  function Angle(n: Numerics, a: Coordinates, b: Coordinates := Origin): (r: Option<real>)
    ensures r.None? <==> a == b
    ensures a.x == b.x && b.y < a.y ==> r == Some(90.0)
    ensures a.x == b.x && a.y < b.y ==> r == Some(270.0)
    ensures b.x < a.x && a.y == b.y ==> r == Some(0.0)
    ensures a.x < b.x && a.y == b.y ==> r == Some(180.0)
  {
    var y := a.y - b.y;
    var x := a.x - b.x;
    if x == 0.0 && y == 0.0 then None
    else if x == 0.0 then
      (if 0.0 < y then Some(90.0) else Some(270.0))
    else if y == 0.0 then
      (if 0.0 < x then Some(0.0) else Some(180.0))
    else
      var raw := n.atanDeg(y / x);
      if 0.0 < x && 0.0 < y then Some(raw)
      else if x < 0.0 && 0.0 < y then Some(180.0 + raw)
      else if x < 0.0 && y < 0.0 then Some(180.0 + raw)
      else Some(PyMod(360.0 + raw, 360.0))
  }

  /** The angle between two points is the angle of the vector from `b` to
      `a`: it depends on the offset alone. */
  lemma AngleIsVectorAngle(n: Numerics, a: Coordinates, b: Coordinates)
    ensures Angle(n, a, b) == Vectors.Angle(n, a.x - b.x, a.y - b.y)
  {
  }

  /** With the origin as reference, the point's angle is `Vector.get_angle`
      of its components. */
  lemma AngleFromOriginAgrees(n: Numerics, x: real, y: real)
    ensures Angle(n, Coordinates(x, y)) == Vectors.Angle(n, x, y)
  {
    AngleIsVectorAngle(n, Coordinates(x, y), Origin);
  }

  /** Moving both points by the same offset leaves the angle unchanged. */
  lemma AngleTranslationInvariant(n: Numerics, a: Coordinates, b: Coordinates, t: Coordinates)
    ensures Angle(n, a.Plus(t), b.Plus(t)) == Angle(n, a, b)
  {
    AngleIsVectorAngle(n, a, b);
    AngleIsVectorAngle(n, a.Plus(t), b.Plus(t));
    assert a.Plus(t).x - b.Plus(t).x == a.x - b.x;
    assert a.Plus(t).y - b.Plus(t).y == a.y - b.y;
  }

  /** Off the axes the angle lies in `[0, 360)`, inside the open quadrant
      that the signs of the offset `a - b` select. */
  lemma AngleQuadrants(n: Numerics, a: Coordinates, b: Coordinates)
    requires Lawful(n)
    requires a.x != b.x && a.y != b.y
    ensures Angle(n, a, b).Some? && 0.0 <= Angle(n, a, b).value < 360.0
    ensures b.x < a.x && b.y < a.y ==> 0.0 < Angle(n, a, b).value < 90.0
    ensures a.x < b.x && b.y < a.y ==> 90.0 < Angle(n, a, b).value < 180.0
    ensures a.x < b.x && a.y < b.y ==> 180.0 < Angle(n, a, b).value < 270.0
    ensures b.x < a.x && a.y < b.y ==> 270.0 < Angle(n, a, b).value < 360.0
  {
    AngleIsVectorAngle(n, a, b);
    Vectors.AngleQuadrants(n, a.x - b.x, a.y - b.y);
  }

}
