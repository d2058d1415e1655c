/**
 * 3x3 matrices stored row-major in nine slots (packages/engine/src/utils/mat3.ts).
 * `Multiply(a, b)` is the row-major product b·a, as the engine composes transforms.
 */
module Mat3 {

  type Matrix3x3 = m: seq<real> | |m| == 9 witness [0.0, 0.0, 0.0, 0.0, 0.0, 0.0, 0.0, 0.0, 0.0]

  /** Entry (i, j) of a row-major matrix. */
  function At(m: Matrix3x3, i: nat, j: nat): real
    requires i < 3 && j < 3
  {
    m[3 * i + j]
  }

  /** Entry (i, j) of the ordinary product p·q: row i of p against column j of q. */
  function ProductEntry(p: Matrix3x3, q: Matrix3x3, i: nat, j: nat): real
    requires i < 3 && j < 3
  {
    At(p, i, 0) * At(q, 0, j) + At(p, i, 1) * At(q, 1, j) + At(p, i, 2) * At(q, 2, j)
  }

  /** `multiply(a, b)`: the nine sums written out, each slot b-row times a-column. */
  function Multiply(a: Matrix3x3, b: Matrix3x3): Matrix3x3
  {
    var a00, a01, a02, a10, a11, a12, a20, a21, a22 := a[0], a[1], a[2], a[3], a[4], a[5], a[6], a[7], a[8];
    var b00, b01, b02, b10, b11, b12, b20, b21, b22 := b[0], b[1], b[2], b[3], b[4], b[5], b[6], b[7], b[8];
    [
      b00 * a00 + b01 * a10 + b02 * a20,
      b00 * a01 + b01 * a11 + b02 * a21,
      b00 * a02 + b01 * a12 + b02 * a22,
      b10 * a00 + b11 * a10 + b12 * a20,
      b10 * a01 + b11 * a11 + b12 * a21,
      b10 * a02 + b11 * a12 + b12 * a22,
      b20 * a00 + b21 * a10 + b22 * a20,
      b20 * a01 + b21 * a11 + b22 * a21,
      b20 * a02 + b21 * a12 + b22 * a22
    ]
  }

  /** Slot (i, j) of `multiply(a, b)` is row i of b against column j of a: the product b·a. */
  lemma MultiplyIsProduct(a: Matrix3x3, b: Matrix3x3)
    ensures forall i: nat, j: nat :: i < 3 && j < 3 ==> At(Multiply(a, b), i, j) == ProductEntry(b, a, i, j)
  {
    var r := Multiply(a, b);
    assert At(r, 0, 0) == ProductEntry(b, a, 0, 0);
    assert At(r, 0, 1) == ProductEntry(b, a, 0, 1);
    assert At(r, 0, 2) == ProductEntry(b, a, 0, 2);
    assert At(r, 1, 0) == ProductEntry(b, a, 1, 0);
    assert At(r, 1, 1) == ProductEntry(b, a, 1, 1);
    assert At(r, 1, 2) == ProductEntry(b, a, 1, 2);
    assert At(r, 2, 0) == ProductEntry(b, a, 2, 0);
    assert At(r, 2, 1) == ProductEntry(b, a, 2, 1);
    assert At(r, 2, 2) == ProductEntry(b, a, 2, 2);
    forall i: nat, j: nat | i < 3 && j < 3
      ensures At(r, i, j) == ProductEntry(b, a, i, j)
    {
      assert i == 0 || i == 1 || i == 2;
      assert j == 0 || j == 1 || j == 2;
    }
  }

  const Identity: Matrix3x3 := [1.0, 0.0, 0.0, 0.0, 1.0, 0.0, 0.0, 0.0, 1.0]

  /** The identity is a unit of `Multiply` on both sides. */
  lemma IdentityUnit(m: Matrix3x3)
    ensures Multiply(Identity, m) == m
    ensures Multiply(m, Identity) == m
  {
  }

  /** Two matrices with the same nine entries are equal. */
  lemma Extensional(p: Matrix3x3, q: Matrix3x3)
    requires forall i: nat, j: nat :: i < 3 && j < 3 ==> At(p, i, j) == At(q, i, j)
    ensures p == q
  {
    forall k | 0 <= k < 9
      ensures p[k] == q[k]
    {
      assert At(p, k / 3, k % 3) == At(q, k / 3, k % 3);
    }
  }

  /** One entry of (r·q)·p equals the same entry of r·(q·p): the sums regroup. */
  lemma AssociativeEntry(p: Matrix3x3, q: Matrix3x3, r: Matrix3x3, m1: Matrix3x3, m2: Matrix3x3, i: nat, j: nat)
    requires i < 3 && j < 3
    requires forall s: nat, t: nat :: s < 3 && t < 3 ==> At(m1, s, t) == ProductEntry(q, p, s, t)
    requires forall s: nat, t: nat :: s < 3 && t < 3 ==> At(m2, s, t) == ProductEntry(r, q, s, t)
    ensures ProductEntry(r, m1, i, j) == ProductEntry(m2, p, i, j)
  {
    assert At(m1, 0, j) == ProductEntry(q, p, 0, j);
    assert At(m1, 1, j) == ProductEntry(q, p, 1, j);
    assert At(m1, 2, j) == ProductEntry(q, p, 2, j);
    assert At(m2, i, 0) == ProductEntry(r, q, i, 0);
    assert At(m2, i, 1) == ProductEntry(r, q, i, 1);
    assert At(m2, i, 2) == ProductEntry(r, q, i, 2);
  }

  /** `multiply` is associative. */
  lemma MultiplyAssociative(a: Matrix3x3, b: Matrix3x3, c: Matrix3x3)
    ensures Multiply(Multiply(a, b), c) == Multiply(a, Multiply(b, c))
  {
    var ab := Multiply(a, b);
    var bc := Multiply(b, c);
    var left := Multiply(ab, c);
    var right := Multiply(a, bc);
    MultiplyIsProduct(a, b);
    MultiplyIsProduct(b, c);
    MultiplyIsProduct(ab, c);
    MultiplyIsProduct(a, bc);
    forall i: nat, j: nat | i < 3 && j < 3
      ensures At(left, i, j) == At(right, i, j)
    {
      AssociativeEntry(a, b, c, ab, bc, i, j);
    }
    Extensional(left, right);
  }

  /** `projection(width, height)`: pixels to clip space, with y pointing down. */
  function Projection(width: real, height: real): Matrix3x3
    requires width != 0.0 && height != 0.0
  {
    [2.0 / width, 0.0, 0.0, 0.0, -2.0 / height, 0.0, -1.0, 1.0, 1.0]
  }

  /** The row vector [x y 1] multiplied by `m`. */
  function TransformPoint(m: Matrix3x3, x: real, y: real): (real, real, real)
  {
    (x * m[0] + y * m[3] + m[6], x * m[1] + y * m[4] + m[7], x * m[2] + y * m[5] + m[8])
  }

  /** The projection sends the canvas corner (0, 0) to (-1, 1) and (width, height) to (1, -1). */
  lemma ProjectionCorners(width: real, height: real)
    requires width != 0.0 && height != 0.0
    ensures TransformPoint(Projection(width, height), 0.0, 0.0) == (-1.0, 1.0, 1.0)
    ensures TransformPoint(Projection(width, height), width, height) == (1.0, -1.0, 1.0)
  {
    var p := Projection(width, height);
    assert p[1] == 0.0 && p[2] == 0.0 && p[3] == 0.0 && p[5] == 0.0;
    assert p[6] == -1.0 && p[7] == 1.0 && p[8] == 1.0;
    DivideThenMultiply(2.0, width);
    DivideThenMultiply(-2.0, height);
    TimesZero(width);
    TimesZero(height);
    var t := TransformPoint(p, width, height);
    assert t.0 == width * p[0] + height * p[3] + p[6];
    assert t.0 == 1.0;
    assert t.1 == -1.0;
    assert t.2 == 1.0;
  }

  lemma TimesZero(x: real)
    ensures x * 0.0 == 0.0
  {
  }

  lemma DivideThenMultiply(a: real, d: real)
    requires d != 0.0
    ensures d * (a / d) == a
  {
  }

  /** `scale(matrix, x, y)`: row 0 times x, row 1 times y, row 2 kept. */
  function Scale(m: Matrix3x3, x: real, y: real): Matrix3x3
  {
    [m[0] * x, m[1] * x, m[2] * x, m[3] * y, m[4] * y, m[5] * y, m[6], m[7], m[8]]
  }

  /** The diagonal matrix diag(x, y, 1). */
  function Scaling(x: real, y: real): Matrix3x3
  {
    [x, 0.0, 0.0, 0.0, y, 0.0, 0.0, 0.0, 1.0]
  }

  /** Scaling a matrix is multiplying it by diag(x, y, 1), which `multiply` places on the left. */
  lemma ScaleIsMultiply(m: Matrix3x3, x: real, y: real)
    ensures Scale(m, x, y) == Multiply(m, Scaling(x, y))
  {
    var p, q := Scale(m, x, y), Multiply(m, Scaling(x, y));
    forall k | 0 <= k < 9
      ensures p[k] == q[k]
    {
    }
  }

  /** Scaling twice multiplies the factors; scaling by one changes nothing. */
  lemma ScaleComposes(m: Matrix3x3, x1: real, y1: real, x2: real, y2: real)
    ensures Scale(Scale(m, x1, y1), x2, y2) == Scale(m, x1 * x2, y1 * y2)
    ensures Scale(m, 1.0, 1.0) == m
  {
    var p, q := Scale(Scale(m, x1, y1), x2, y2), Scale(m, x1 * x2, y1 * y2);
    forall k | 0 <= k < 9
      ensures p[k] == q[k]
    {
    }
  }
}
