/** Cartesian coordinates (src/physics/coordinates.py), together with the
    componentwise arithmetic that collision resolution applies to them. */
module Points {

  /** A point of the plane. The source converts both components with
      `float(...)`; over the reals that conversion is the identity. */
  datatype Coordinates = Coordinates(x: real, y: real) {

    function Plus(other: Coordinates): Coordinates {
      Coordinates(x + other.x, y + other.y)
    }

    function Minus(other: Coordinates): Coordinates {
      Coordinates(x - other.x, y - other.y)
    }

    function Scale(k: real): Coordinates {
      Coordinates(k * x, k * y)
    }

    function Dot(other: Coordinates): real {
      x * other.x + y * other.y
    }
  }

  const Origin := Coordinates(0.0, 0.0)

  /** `__eq__`: two points are equal exactly when they are the same point. */
  function Equals(a: Coordinates, b: Coordinates): (r: bool)
    ensures r <==> a == b
  {
    a.x == b.x && a.y == b.y
  }

  /** `__ne__`: the negation of `__eq__`, which is plain inequality. */
  function NotEquals(a: Coordinates, b: Coordinates): (r: bool)
    ensures r <==> a != b
    ensures r == !Equals(a, b)
  {
    !Equals(a, b)
  }

  lemma EqualsReflexive(a: Coordinates)
    ensures Equals(a, a)
  {
  }

  lemma EqualsSymmetric(a: Coordinates, b: Coordinates)
    ensures Equals(a, b) == Equals(b, a)
  {
  }

}
