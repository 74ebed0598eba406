/** The two-dimensional point value type, instantiated at mathematical integers. */
module Point2 {

  /** A point with an x and a y component; the field selectors are the `x()` and `y()` getters. */
  datatype Point = Point(x: int, y: int)

  /** The constructor; both components default to zero. */
  function New(x: int := 0, y: int := 0): Point
  {
    Point(x, y)
  }

  /** `get_pair`: the components as an (x, y) pair. */
  function GetPair(p: Point): (int, int)
  {
    (p.x, p.y)
  }

  /** `operator+`: componentwise sum. */
  function Add(p: Point, q: Point): Point
  {
    Point(p.x + q.x, p.y + q.y)
  }

  /** `operator-`: componentwise difference. */
  function Sub(p: Point, q: Point): Point
  {
    Point(p.x - q.x, p.y - q.y)
  }

  /** `operator*` with a scalar on the right: both components scaled. */
  function Scale(p: Point, s: int): Point
  {
    Point(p.x * s, p.y * s)
  }

  /** The non-member `operator*` with the scalar on the left, defined through the member one. */
  function ScaleLeft(s: int, p: Point): Point
  {
    Scale(p, s)
  }

  /** `operator*` between two points: the dot product. */
  function Dot(p: Point, q: Point): int
  {
    p.x * q.x + p.y * q.y
  }

  /** `operator==`: both components agree. */
  predicate Equal(p: Point, q: Point)
  {
    p.x == q.x && p.y == q.y
  }

  /** `operator!=`: the negation of `operator==`. */
  predicate NotEqual(p: Point, q: Point)
  {
    !Equal(p, q)
  }

  /** `operator+=`: adds the other point's components into this point one at a
      time and returns the updated point; the other point is only read. */
  method AddAssign(p: Point, other: Point) returns (r: Point)
    ensures r == Add(p, other)
    ensures Sub(r, other) == p
  {
    var x, y := p.x, p.y;
    x := x + other.x;
    y := y + other.y;
    r := Point(x, y);
  }

  // ---------------------------------------------------------------------------
  // Properties

  /** A default-constructed point is the origin, and the getters return what the constructor stored. */
  lemma ConstructorAndGetters(a: int, b: int)
    ensures New() == Point(0, 0)
    ensures New(a) == Point(a, 0)
    ensures New(a, b).x == a && New(a, b).y == b
    ensures GetPair(New(a, b)) == (a, b)
  {
  }

  /** Over unbounded integers subtraction undoes addition and addition undoes subtraction. */
  lemma AddSubInverse(p: Point, q: Point)
    ensures Sub(Add(p, q), q) == p
    ensures Add(Sub(p, q), q) == p
  {
  }

  /** Addition is commutative and has the default point as identity. */
  lemma AddCommutesWithIdentity(p: Point, q: Point)
    ensures Add(p, q) == Add(q, p)
    ensures Add(p, New()) == p
  {
  }

  /** Scaling by `s` on either side gives the same point, componentwise scaled. */
  lemma ScaleEitherSide(s: int, p: Point)
    ensures ScaleLeft(s, p) == Scale(p, s)
    ensures ScaleLeft(s, p).x == s * p.x && ScaleLeft(s, p).y == s * p.y
  {
  }

  /** The dot product is symmetric and pulls a scalar out of its first argument. */
  lemma DotSymmetricAndLinear(p: Point, q: Point, s: int)
    ensures Dot(p, q) == Dot(q, p)
    ensures Dot(Scale(p, s), q) == s * Dot(p, q)
  {
  }

  /** `operator==` is exactly equality of points, and `operator!=` is exactly its negation. */
  lemma EqualityIsIdentity(p: Point, q: Point)
    ensures Equal(p, q) <==> p == q
    ensures NotEqual(p, q) <==> !Equal(p, q)
    ensures NotEqual(p, q) <==> p != q
  {
  }

  /** The expectations of the point tests, at the integer instantiation. */
  lemma TestVectors()
    ensures New().x == 0 && New().y == 0
    ensures Add(New(1, 2), New(3, 4)) == New(4, 6)
    ensures Sub(New(3, 4), New(1, 2)) == New(2, 2)
    ensures Scale(New(1, 2), 2) == New(2, 4)
    ensures Dot(New(1, 2), New(3, 4)) == 11
    ensures Equal(New(1, 2), New(1, 2)) && NotEqual(New(1, 2), New(3, 4))
    ensures ScaleLeft(2, New(1, 2)) == New(2, 4)
  {
  }
}
