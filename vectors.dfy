/** Planar vectors (Unity's Vector2) over the reals, and the floating-point
    library calls the larva code makes, kept abstract. */
module Vectors {

  /** A planar vector. */
  datatype Vec = Vec(x: real, y: real)

  /** Vector2.zero */
  const Zero := Vec(0.0, 0.0)

  /** Vector2.right, the default movement and look direction. */
  const Right := Vec(1.0, 0.0)

  function Add(a: Vec, b: Vec): Vec { Vec(a.x + b.x, a.y + b.y) }

  function Sub(a: Vec, b: Vec): Vec { Vec(a.x - b.x, a.y - b.y) }

  /** v * k */
  function Scale(v: Vec, k: real): Vec { Vec(v.x * k, v.y * k) }

  /** v / d, component by component. */
  function Div(v: Vec, d: real): Vec
    requires d != 0.0
  {
    Vec(v.x / d, v.y / d)
  }

  /** Scaling twice is scaling by the product. */
  lemma ScaleTwice(v: Vec, a: real, b: real)
    ensures Scale(Scale(v, a), b) == Scale(v, a * b)
  {
    assert v.x * a * b == v.x * (a * b);
    assert v.y * a * b == v.y * (a * b);
  }

  /** A non-zero vector scaled by a non-zero factor is non-zero. */
  lemma ScaleNonZero(v: Vec, k: real)
    requires v != Zero && k != 0.0
    ensures Scale(v, k) != Zero
  {
    if v.x != 0.0 {
      assert v.x * k != 0.0;
    } else {
      assert v.y != 0.0;
      assert v.y * k != 0.0;
    }
  }

  function Dot(a: Vec, b: Vec): real { a.x * b.x + a.y * b.y }

  function Abs(r: real): real { if r < 0.0 then -r else r }

  function Min(a: real, b: real): real { if a <= b then a else b }

  function Max(a: real, b: real): real { if a <= b then b else a }

  /** Mathf.Min on integers. */
  function MinInt(a: int, b: int): int { if a <= b then a else b }

  /** The library the code calls and the model does not interpret:
      `Vector2.magnitude`, `Vector2.normalized`, `Mathf.Sin` and
      `Mathf.Pow(_, 0.7f)`. */
  datatype Maths = Maths(
    mag: Vec -> real,
    normalize: Vec -> Vec,
    sin: real -> real,
    pow07: real -> real)

  /** What the model assumes of that library. The Euclidean norm, exact
      normalization, sine and x^0.7 satisfy every clause. */
  ghost predicate Lawful(m: Maths) {
    && (forall v :: m.mag(v) >= 0.0)
    && (forall v :: m.mag(v) == 0.0 <==> v == Zero)
    && (forall r :: m.mag(Vec(r, 0.0)) == Abs(r))
    && (forall v :: v != Zero ==> m.normalize(v) == Div(v, m.mag(v)))
    && (forall t :: -1.0 <= m.sin(t) <= 1.0)
    && (forall s :: 0.0 < s <= 1.0 ==> 0.0 < m.pow07(s) <= 1.0)
  }
}
