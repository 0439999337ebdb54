/** The group of the curve. Its order is the prime Q and it is cyclic, so a point is represented by
    its discrete logarithm to the base of the generator. */
module Curve {
  import opened PrimeField
  import opened Hashes

  datatype Point = Point(log: Scalar)

  const IDENTITY: Point := Point(0)
  const GENERATOR: Point := Point(1)

  function Times(p: Point, k: Scalar): Point {
    Point(Mul(p.log, k))
  }

  function Plus(p: Point, q: Point): Point {
    Point(Add(p.log, q.log))
  }

  function Minus(p: Point): Point {
    Point(Neg(p.log))
  }

  /** k times the generator. */
  function Base(k: Scalar): (p: Point)
    ensures p == Point(k)
  {
    Commute(1, k);
    Identities(k);
    Times(GENERATOR, k)
  }

  // Coordinates

  /** The x coordinate as a field element (which may exceed Q) and the parity of y. */
  datatype Coordinates = Coordinates(x: Point -> nat, yOdd: Point -> bool)

  /** Two points share their x coordinate just when they are equal or opposite, and opposite points
      other than the identity differ in the parity of y. */
  ghost predicate AreCoordinates(c: Coordinates) {
    && (forall p, q :: p != IDENTITY && q != IDENTITY ==> (c.x(p) == c.x(q) <==> p == q || p == Minus(q)))
    && (forall p :: p != IDENTITY ==> c.yOdd(p) != c.yOdd(Minus(p)))
  }

  function ExampleX(p: Point): nat {
    if p.log <= Q - p.log then p.log else Q - p.log
  }

  lemma NegValue(a: Scalar)
    ensures Neg(a) == if a == 0 then 0 else Q - a
  {
    assert Unfold(a, a);
    if a == 0 {
      RemainderUnique(Q, 0, 0, 0);
    } else {
      var x: int := a;
      RemainderUnique(Q, -x, -1, Q - x);
    }
  }

  lemma ExampleCoordinates()
    ensures AreCoordinates(Coordinates(ExampleX, (p: Point) => p.log % 2 == 1))
  {
    assert IsPrime(Q);
    assert Q % 2 == 1;
    forall p: Point, q: Point | p != IDENTITY && q != IDENTITY
      ensures ExampleX(p) == ExampleX(q) <==> p == q || p == Minus(q)
    {
      NegValue(q.log);
    }
    forall p: Point | p != IDENTITY ensures (p.log % 2 == 1) != (Minus(p).log % 2 == 1) {
      NegValue(p.log);
    }
  }

  type CurveCoordinates = c: Coordinates | AreCoordinates(c)
    witness (ExampleCoordinates(); Coordinates(ExampleX, (p: Point) => p.log % 2 == 1))

  /** The curve's coordinates: nothing else is assumed about them. */
  const COORDINATES: CurveCoordinates

  function X(p: Point): nat {
    COORDINATES.x(p)
  }

  function YIsOdd(p: Point): bool {
    COORDINATES.yOdd(p)
  }

  // Byte encodings

  datatype Encodings = Encodings(point: Point -> Bytes, scalar: Scalar -> Bytes)

  ghost predicate AreEncodings(e: Encodings) {
    && (forall p, q :: e.point(p) == e.point(q) ==> p == q)
    && (forall a, b :: e.scalar(a) == e.scalar(b) ==> a == b)
    && (forall p, q :: |e.point(p)| == |e.point(q)|)
    && (forall a, b :: |e.scalar(a)| == |e.scalar(b)|)
  }

  function OneHot(n: Scalar): (b: Bytes)
    ensures |b| == Q
    ensures b[n] == 1 && forall i :: 0 <= i < Q && i != n ==> b[i] == 0
  {
    seq(Q, i => if i == n then 1 else 0)
  }

  lemma ExampleEncodings()
    ensures AreEncodings(Encodings((p: Point) => OneHot(p.log), (a: Scalar) => OneHot(a)))
  {
    forall a: Scalar, b: Scalar | OneHot(a) == OneHot(b) ensures a == b {
      assert OneHot(b)[a] == 1;
    }
  }

  type CurveEncodings = e: Encodings | AreEncodings(e)
    witness (ExampleEncodings(); Encodings((p: Point) => OneHot(p.log), (a: Scalar) => OneHot(a)))

  /** point_to_bytes and scalar_to_bytes: injective and of fixed length, otherwise unknown. */
  const ENCODINGS: CurveEncodings

  function PointBytes(p: Point): Bytes {
    ENCODINGS.point(p)
  }

  function ScalarBytes(a: Scalar): Bytes {
    ENCODINGS.scalar(a)
  }

  lemma PointBytesInjective(p: Point, q: Point)
    requires PointBytes(p) == PointBytes(q)
    ensures p == q
  {
    assert AreEncodings(ENCODINGS);
  }

  lemma ScalarBytesInjective(a: Scalar, b: Scalar)
    ensures |ScalarBytes(a)| == |ScalarBytes(b)|
    ensures ScalarBytes(a) == ScalarBytes(b) ==> a == b
  {
    assert AreEncodings(ENCODINGS);
  }

  /** Reduction of a digest modulo the group order. */
  const ReduceHash: HashOutput -> Scalar

  function TaggedScalar(tag: Bytes, components: seq<Bytes>): Scalar {
    ReduceHash(TaggedHash(tag, components))
  }
}
