/**
 * `Vec2` (packages/engine/src/utils/vec2.ts): a mutable 2D vector whose setters notify an
 * `onChange` callback, and whose arithmetic returns new vectors.
 */
module Vectors {
  import opened Numeric

  /** The value of a vector: its two coordinates. */
  datatype V2 = V2(x: real, y: real) {

    function Add(v: V2): V2 {
      V2(x + v.x, y + v.y)
    }

    function Subtract(v: V2): V2 {
      V2(x - v.x, y - v.y)
    }

    function Scale(s: real): V2 {
      V2(x * s, y * s)
    }

    function Dot(v: V2): real {
      x * v.x + y * v.y
    }

    /** `Math.sqrt(x * x + y * y)`, with `Math.sqrt` given; the radicand is the self dot product. */
    function Length(sqrt: real -> real): real {
      sqrt(Dot(this))
    }

    /**
     * Each coordinate divided by the length. The source has no zero guard (a zero vector
     * gives NaN there); reals cannot hold NaN, so the zero length is excluded here.
     */
    function Normalize(sqrt: real -> real): V2
      requires Length(sqrt) != 0.0
    {
      V2(x / Length(sqrt), y / Length(sqrt))
    }
  }

  /** Adding then subtracting the same vector gives back the original, coordinate by coordinate. */
  lemma AddThenSubtract(v: V2, w: V2)
    ensures v.Add(w).Subtract(w) == v
  {
  }

  lemma DotSymmetric(v: V2, w: V2)
    ensures v.Dot(w) == w.Dot(v)
  {
  }

  /** With a true square root, the length is non-negative and its square is the self dot product. */
  lemma LengthSquared(v: V2, sqrt: real -> real)
    requires IsSqrt(sqrt)
    ensures 0.0 <= v.Length(sqrt)
    ensures v.Length(sqrt) * v.Length(sqrt) == v.Dot(v)
  {
    SquareNonNegative(v.x);
    SquareNonNegative(v.y);
  }

  /** With a true square root, only the zero vector has length zero. */
  lemma LengthZeroIff(v: V2, sqrt: real -> real)
    requires IsSqrt(sqrt)
    ensures v.Length(sqrt) == 0.0 <==> v == V2(0.0, 0.0)
  {
    var q := v.x * v.x + v.y * v.y;
    assert 0.0 <= sqrt(q) && sqrt(q) * sqrt(q) == q;
    SquareNonNegative(v.x);
    SquareNonNegative(v.y);
    if sqrt(q) == 0.0 {
      assert v.x * v.x == 0.0 && v.y * v.y == 0.0;
      RootOfZero(v.x);
      RootOfZero(v.y);
    }
    if v == V2(0.0, 0.0) {
      assert q == 0.0;
      RootOfZero(sqrt(q));
    }
  }

  /** A normalised vector has length one and, scaled back by the length, is the original. */
  lemma NormalizeIsUnit(v: V2, sqrt: real -> real)
    requires IsSqrt(sqrt) && v.Length(sqrt) != 0.0
    ensures v.Normalize(sqrt).Length(sqrt) == 1.0
    ensures v.Normalize(sqrt).Scale(v.Length(sqrt)) == v
  {
    var l := v.Length(sqrt);
    var n := v.Normalize(sqrt);
    LengthSquared(v, sqrt);
    QuotientTimesDivisor(v.x, l);
    QuotientTimesDivisor(v.y, l);
    UnitSumOfSquares(n, l, v);
    assert 0.0 <= sqrt(1.0) && sqrt(1.0) * sqrt(1.0) == 1.0;
    RootOfOne(sqrt(1.0));
  }

  // Small steps of real arithmetic, each kept apart so that the solver sees one
  // non-linear fact at a time.

  lemma SquareNonNegative(a: real)
    ensures 0.0 <= a * a
  {
  }

  lemma ProductZero(x: real, y: real)
    requires y != 0.0 && x * y == 0.0
    ensures x == 0.0
  {
  }

  /** Only zero squares to zero. */
  lemma RootOfZero(r: real)
    requires r * r == 0.0
    ensures r == 0.0
  {
    if r != 0.0 {
      ProductZero(r, r);
    }
  }

  /** The only non-negative real that squares to one is one. */
  lemma RootOfOne(r: real)
    requires 0.0 <= r && r * r == 1.0
    ensures r == 1.0
  {
    assert (r - 1.0) * (r + 1.0) == 0.0;
    ProductZero(r - 1.0, r + 1.0);
  }

  lemma QuotientTimesDivisor(a: real, l: real)
    requires l != 0.0
    ensures (a / l) * l == a
  {
  }

  lemma SquareFactorZero(x: real, l: real)
    requires l != 0.0 && x * (l * l) == 0.0
    ensures x == 0.0
  {
    assert (x * l) * l == 0.0;
    ProductZero(x * l, l);
    ProductZero(x, l);
  }

  lemma ExpandScaled(nx: real, ny: real, l: real, x: real, y: real)
    requires nx * l == x && ny * l == y
    ensures (nx * nx + ny * ny) * (l * l) == x * x + y * y
  {
    assert (nx * l) * (nx * l) == x * x;
    assert (ny * l) * (ny * l) == y * y;
  }

  /** Coordinates that, scaled by `l`, give a vector of squared length `l * l` have unit squared length. */
  lemma UnitSumOfSquares(n: V2, l: real, v: V2)
    requires l != 0.0 && n.x * l == v.x && n.y * l == v.y && l * l == v.Dot(v)
    ensures n.Dot(n) == 1.0
  {
    ExpandScaled(n.x, n.y, l, v.x, v.y);
    assert (n.Dot(n) - 1.0) * (l * l) == 0.0;
    SquareFactorZero(n.Dot(n) - 1.0, l);
  }

  /** The callback a `Vec2` notifies: the default no-op, or a caller-supplied handler. */
  datatype Callback = NoOp | Handler(id: nat)

  /** A `Vec2` object. `notified` records, in order, every invocation of its `_onChange`. */
  class Vec2 {
    var x: real
    var y: real
    var onChange: Callback
    ghost var notified: seq<Callback>

    function Value(): V2
      reads this
    {
      V2(x, y)
    }

    /** `new Vec2(x = 0, y = 0, onChange?)`: a missing callback becomes the no-op. */
    constructor (x0: real := 0.0, y0: real := 0.0, callback: Callback := NoOp)
      ensures x == x0 && y == y0 && onChange == callback && notified == []
    {
      x, y, onChange := x0, y0, callback;
      notified := [];
    }

    /** Setter `x`: stores the value and notifies exactly when it differs from the stored one. */
    method SetX(value: real)
      modifies this
      ensures x == value && y == old(y) && onChange == old(onChange)
      ensures notified == old(notified) + (if old(x) != value then [onChange] else [])
    {
      if x != value {
        x := value;
        notified := notified + [onChange];
      }
    }

    /** Setter `y`, symmetric to `SetX`. */
    method SetY(value: real)
      modifies this
      ensures y == value && x == old(x) && onChange == old(onChange)
      ensures notified == old(notified) + (if old(y) != value then [onChange] else [])
    {
      if y != value {
        y := value;
        notified := notified + [onChange];
      }
    }

    /** `set(x, y)`: one notification at most, and only if some coordinate changes. */
    method Set(newX: real, newY: real)
      modifies this
      ensures x == newX && y == newY && onChange == old(onChange)
      ensures notified == old(notified) + (if old(x) != newX || old(y) != newY then [onChange] else [])
    {
      if x != newX || y != newY {
        x, y := newX, newY;
        notified := notified + [onChange];
      }
    }

    method SetOnChange(callback: Callback)
      modifies this
      ensures onChange == callback && x == old(x) && y == old(y) && notified == old(notified)
    {
      onChange := callback;
    }

    /** `add`: a new vector with a no-op callback; the receiver and `vec` are untouched. */
    method Add(vec: Vec2) returns (r: Vec2)
      ensures fresh(r) && r.Value() == Value().Add(vec.Value())
      ensures r.onChange == NoOp && r.notified == []
    {
      r := new Vec2(x + vec.x, y + vec.y);
    }

    method Copy() returns (r: Vec2)
      ensures fresh(r) && r.Value() == Value()
      ensures r.onChange == NoOp && r.notified == []
    {
      r := new Vec2(x, y);
    }

    method Subtract(vec: Vec2) returns (r: Vec2)
      ensures fresh(r) && r.Value() == Value().Subtract(vec.Value())
      ensures r.onChange == NoOp && r.notified == []
    {
      r := new Vec2(x - vec.x, y - vec.y);
    }

    method Scale(value: real) returns (r: Vec2)
      ensures fresh(r) && r.Value() == Value().Scale(value)
      ensures r.onChange == NoOp && r.notified == []
    {
      r := new Vec2(x * value, y * value);
    }

    method Normalize(sqrt: real -> real) returns (r: Vec2)
      requires Value().Length(sqrt) != 0.0
      ensures fresh(r) && r.Value() == Value().Normalize(sqrt)
      ensures r.onChange == NoOp && r.notified == []
    {
      var v := Value();
      var length := v.Length(sqrt);
      r := new Vec2(v.x / length, v.y / length);
    }
  }
}
