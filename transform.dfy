/**
 * `TransformComponent` (packages/engine/src/components/transform.component.ts): a 2D affine
 * transform kept in six slots `[a, b, c, d, tx, ty]`. Position lives in slots 4-5, the scale
 * getter reads slots 0 and 3, and the rotation setter overwrites slots 0-3 with
 * `[cos, sin, -sin, cos]`. The getters return fresh `Vec2` objects.
 */
module Transforms {
  import opened Numeric
  import opened Vectors

  /** The contents of the six-slot matrix. */
  type Slots = m: seq<real> | |m| == 6 witness [1.0, 0.0, 0.0, 1.0, 0.0, 0.0]

  /** The slots the constructor starts from, before its three setter calls. */
  const Identity: Slots := [1.0, 0.0, 0.0, 1.0, 0.0, 0.0]

  function PositionOf(m: Slots): V2 {
    V2(m[4], m[5])
  }

  function ScaleOf(m: Slots): V2 {
    V2(m[0], m[3])
  }

  /** The position setter: only slots 4 and 5 change, and the getter then reads the value back. */
  function WithPosition(m: Slots, value: V2): (r: Slots)
    ensures PositionOf(r) == value
    ensures r[..4] == m[..4]
  {
    m[4 := value.x][5 := value.y]
  }

  /** The scale setter: only slots 0 and 3 change, so the position is unaffected. */
  function WithScale(m: Slots, value: V2): (r: Slots)
    ensures ScaleOf(r) == value
    ensures r[1] == m[1] && r[2] == m[2] && PositionOf(r) == PositionOf(m)
  {
    m[0 := value.x][3 := value.y]
  }

  /**
   * The rotation setter, given `cos(value)` and `sin(value)`: slots 0-3 change, the position
   * is intact, and the scale the getter reports becomes (cos, cos).
   */
  function WithRotation(m: Slots, cos: real, sin: real): (r: Slots)
    ensures r[..4] == [cos, sin, -sin, cos]
    ensures PositionOf(r) == PositionOf(m) && ScaleOf(r) == V2(cos, cos)
  {
    m[0 := cos][1 := sin][2 := -sin][3 := cos]
  }

  /** The slots after `new TransformComponent(position, scale, rotation)`. */
  function Initial(position: V2, scale: V2, rotation: real, fns: MathFns): Slots {
    WithRotation(WithScale(WithPosition(Identity, position), scale), fns.cos(rotation), fns.sin(rotation))
  }

  /**
   * The constructor sets the rotation last, so the stored scale is (cos r, cos r) whatever
   * scale was passed; the position is the one passed.
   */
  lemma InitialDiscardsScale(position: V2, scale: V2, rotation: real, fns: MathFns)
    ensures PositionOf(Initial(position, scale, rotation, fns)) == position
    ensures ScaleOf(Initial(position, scale, rotation, fns)) == V2(fns.cos(rotation), fns.cos(rotation))
    ensures Initial(position, scale, rotation, fns)[..4]
            == [fns.cos(rotation), fns.sin(rotation), -fns.sin(rotation), fns.cos(rotation)]
  {
  }

  class Transform {
    const matrix: array<real>

    ghost predicate Valid() {
      matrix.Length == 6
    }

    /** The current slots. */
    function Slots(): Slots
      reads matrix
      requires Valid()
    {
      matrix[..]
    }

    /** The position the getter would return. */
    function Position(): V2
      reads matrix
      requires Valid()
    {
      PositionOf(matrix[..])
    }

    /** The scale the getter would return. */
    function Scale(): V2
      reads matrix
      requires Valid()
    {
      ScaleOf(matrix[..])
    }

    /** `new TransformComponent(position = (0, 0), scale = (1, 1), rotation = 0)`. */
    constructor (position: Vec2, scale: Vec2, rotation: real, fns: MathFns)
      ensures Valid() && fresh(matrix)
      ensures Slots() == Initial(position.Value(), scale.Value(), rotation, fns)
    {
      matrix := new real[6] [1.0, 0.0, 0.0, 1.0, 0.0, 0.0];
      new;
      SetPosition(position);
      SetScale(scale);
      SetRotation(rotation, fns);
    }

    /** The position getter: a new `Vec2` with slots 4 and 5; writing to it leaves the transform alone. */
    method GetPosition() returns (v: Vec2)
      requires Valid()
      ensures fresh(v) && v.Value() == Position() && v.onChange == NoOp && v.notified == []
    {
      v := new Vec2(matrix[4], matrix[5]);
    }

    method SetPosition(value: Vec2)
      requires Valid()
      modifies matrix
      ensures Slots() == WithPosition(old(Slots()), value.Value())
    {
      matrix[4] := value.x;
      matrix[5] := value.y;
    }

    /** The scale getter: a new `Vec2` with slots 0 and 3. */
    method GetScale() returns (v: Vec2)
      requires Valid()
      ensures fresh(v) && v.Value() == Scale() && v.onChange == NoOp && v.notified == []
    {
      v := new Vec2(matrix[0], matrix[3]);
    }

    method SetScale(value: Vec2)
      requires Valid()
      modifies matrix
      ensures Slots() == WithScale(old(Slots()), value.Value())
    {
      matrix[0] := value.x;
      matrix[3] := value.y;
    }

    /** The rotation getter: `atan2(b, a)`. */
    function Rotation(fns: MathFns): real
      reads matrix
      requires Valid()
    {
      fns.atan2(matrix[1], matrix[0])
    }

    method SetRotation(value: real, fns: MathFns)
      requires Valid()
      modifies matrix
      ensures Slots() == WithRotation(old(Slots()), fns.cos(value), fns.sin(value))
    {
      var cos := fns.cos(value);
      var sin := fns.sin(value);
      matrix[0] := cos;
      matrix[1] := sin;
      matrix[2] := -sin;
      matrix[3] := cos;
    }
  }

  /** Changing the `Vec2` a getter returned does not change the transform it came from. */
  method CopyIsDetached(t: Transform, y: real)
    requires t.Valid()
    ensures t.Position() == old(t.Position())
  {
    var p := t.GetPosition();
    p.SetY(y);
  }
}
