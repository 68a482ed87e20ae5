/** Real-number stand-ins for the numpy routines the physics layer calls.

    Square root and arc tangent are not definable in Dafny's theory of reals,
    so they are passed around as values of `Numerics`, and `Lawful` states
    the facts about them that the model relies on. */
module RealMath {

  /** `sqrt` plays np.sqrt; `atanDeg` plays np.degrees(np.arctan(t)). */
  datatype Numerics = Numerics(sqrt: real -> real, atanDeg: real -> real)

  /** The square root of a non-negative real is the non-negative root. */
  ghost predicate SqrtLaw(sqrt: real -> real) {
    forall x: real :: 0.0 <= x ==> 0.0 <= sqrt(x) && Sq(sqrt(x)) == x
  }

  /** The arc tangent, in degrees, lies strictly between -90 and 90, has the
      sign of its argument, and is exactly 45 at 1 and -45 at -1. */
  ghost predicate AtanLaw(atanDeg: real -> real) {
    && (forall t: real ::
          && -90.0 < atanDeg(t) < 90.0
          && (0.0 < t ==> 0.0 < atanDeg(t))
          && (t < 0.0 ==> atanDeg(t) < 0.0))
    && atanDeg(1.0) == 45.0
    && atanDeg(-1.0) == -45.0
  }

  ghost predicate Lawful(n: Numerics) {
    SqrtLaw(n.sqrt) && AtanLaw(n.atanDeg)
  }

  /** A product kept as a named term. The solver relates `Mul(a, b)` to
      other terms by congruence, which keeps facts about squares usable. */
  function Mul(a: real, b: real): real {
    a * b
  }

  /** Python's `x**2`. */
  function Sq(x: real): real {
    Mul(x, x)
  }

  /** A square is non-negative, positive away from zero, and the same for
      `x` and `-x`. */
  lemma SqLaws(x: real)
    ensures 0.0 <= Sq(x)
    ensures x != 0.0 ==> 0.0 < Sq(x)
    ensures Sq(-x) == Sq(x)
  {
    assert Mul(-x, -x) == Mul(x, x);
    if x < 0.0 {
      MulPositive(-x, -x);
    } else if 0.0 < x {
      MulPositive(x, x);
    }
  }

  /** The non-negative square root is unique: any non-negative `s` with
      `s^2 == x` is the value of `n.sqrt(x)`. */
  lemma SqrtUnique(n: Numerics, x: real, s: real)
    requires Lawful(n)
    requires 0.0 <= s && Sq(s) == x
    ensures n.sqrt(x) == s
  {
    var q := n.sqrt(x);
    assert 0.0 <= q && Sq(q) == x;
    var d, e := q - s, q + s;
    assert Mul(d, e) == Sq(q) - Sq(s) == 0.0;
    if d > 0.0 {
      MulPositive(d, e);
    } else if d < 0.0 {
      MulPositive(-d, e);
    }
  }

  /** Comparing a square root against a non-negative bound is the same as
      comparing the radicand against the squared bound. */
  lemma SqrtCompare(n: Numerics, x: real, bound: real)
    requires Lawful(n)
    requires 0.0 <= x && 0.0 <= bound
    ensures n.sqrt(x) <= bound <==> x <= Sq(bound)
    ensures n.sqrt(x) < bound <==> x < Sq(bound)
  {
    var q := n.sqrt(x);
    assert 0.0 <= q && Sq(q) == x;
    var d, e := q - bound, q + bound;
    assert Mul(d, e) == x - Sq(bound);
    if d < 0.0 {
      MulPositive(-d, e);
      assert Mul(-d, e) == -Mul(d, e);
    } else if d > 0.0 {
      MulPositive(d, e);
    }
  }

  /** The square root of zero is zero. */
  lemma SqrtZero(n: Numerics)
    requires Lawful(n)
    ensures n.sqrt(0.0) == 0.0
  {
    SqrtUnique(n, 0.0, 0.0);
  }

  /** The product of two positive reals is positive. */
  lemma MulPositive(a: real, b: real)
    requires 0.0 < a && 0.0 < b
    ensures 0.0 < Mul(a, b)
  {
  }

  /** Multiplying by a positive real preserves the order. */
  lemma MulMonotone(c: real, u: real, v: real)
    requires 0.0 < c && u <= v
    ensures Mul(c, u) <= Mul(c, v)
  {
    if u < v {
      MulPositive(c, v - u);
      assert Mul(c, v - u) == Mul(c, v) - Mul(c, u);
    }
  }

  /** Python's float modulus `a % b` for a positive divisor: the remainder
      takes the sign of the divisor, `a` is `r` plus a whole multiple of `b`,
      and a value already in `[0, b)` is returned unchanged. */
  function PyMod(a: real, b: real): (r: real)
    requires 0.0 < b
    ensures 0.0 <= r < b
    ensures a == r + b * (a / b).Floor as real
    ensures 0.0 <= a < b ==> r == a
  {
    FloorDivBounds(a, b);
    a - b * (a / b).Floor as real
  }

  /** `b * floor(a / b)` is the largest multiple of `b` not above `a`, and it
      is zero when `a` lies in `[0, b)`. */
  lemma FloorDivBounds(a: real, b: real)
    requires 0.0 < b
    ensures b * (a / b).Floor as real <= a < b * (a / b).Floor as real + b
    ensures 0.0 <= a < b ==> (a / b).Floor == 0
  {
    var f := (a / b).Floor as real;
    var t := a / b;
    assert f <= t < f + 1.0;
    assert Mul(b, t) == a;
    MulMonotone(b, f, t);
    var g := f + 1.0 - t;
    MulPositive(b, g);
    assert Mul(b, g) == Mul(b, f) + b - Mul(b, t);
    assert b * f <= a < b * f + b;
    if 0.0 <= a < b {
      if 1.0 <= t {
        MulMonotone(b, 1.0, t);
      }
      if t < 0.0 {
        MulPositive(b, -t);
      }
      assert 0.0 <= t < 1.0;
    }
  }

  /** `q` raised to the natural power `k`. */
  function Pow(q: real, k: nat): real {
    if k == 0 then 1.0 else q * Pow(q, k - 1)
  }

  /** The geometric sum `1 + q + ... + q^(k-1)`. */
  function GeomSum(q: real, k: nat): real {
    if k == 0 then 0.0 else GeomSum(q, k - 1) + Pow(q, k - 1)
  }

}
