/**
 * The demo game's `boundarySystem`: an entity whose box sticks out of the canvas on an axis
 * has its velocity on that axis reversed and its centre clamped back inside.
 *
 * As written, the clamp is assigned to `transform.position.x` (and `.y`), which writes into
 * the fresh copy the position getter returns, so only the velocity flip takes effect;
 * `BoundaryStep` models that and `BoundaryStepFixed` writes the clamp through the setter.
 * The performance read-out the callback also writes into the page is not part of this model.
 */
module Boundary {
  import opened Wrappers
  import opened Ecs
  import opened Numeric
  import opened Vectors
  import opened Transforms
  import opened Components

  /** Width and height of the entity's box: the rectangle's, else the circle's diameter, else zero. */
  function Extent(rectangle: Option<Rectangle>, circle: Option<Circle>): (size: V2)
    ensures rectangle.Some? ==> size == V2(rectangle.value.width, rectangle.value.height)
    ensures rectangle.None? && circle.Some? ==> size == V2(circle.value.radius * 2.0, circle.value.radius * 2.0)
    ensures rectangle.None? && circle.None? ==> size == V2(0.0, 0.0)
  {
    if rectangle.Some? then V2(rectangle.value.width, rectangle.value.height)
    else if circle.Some? then V2(circle.value.radius * 2.0, circle.value.radius * 2.0)
    else V2(0.0, 0.0)
  }

  /** Half the entity's box, from the components stored for it. */
  function HalfExtent(w: GameWorld, e: Entity): V2
    reads w
    requires Typed(w)
  {
    var size := Extent(RectangleOf(w, e), CircleOf(w, e));
    V2(size.x / 2.0, size.y / 2.0)
  }

  /** A box of half-size `half` centred at `centre` sticks out of `[0, extent]`. */
  predicate OutOfBounds(centre: real, half: real, extent: real) {
    centre - half < 0.0 || centre + half > extent
  }

  /** `Math.max(half, Math.min(centre, extent - half))`. */
  function ClampInto(centre: real, half: real, extent: real): (r: real)
    ensures half <= r
    ensures half <= extent - half ==> r <= extent - half
    ensures half <= centre <= extent - half ==> r == centre
    ensures extent - half < half ==> r == half
  {
    Max(half, Min(centre, extent - half))
  }

  /** An entity's centre and velocity along one axis. */
  datatype Axis = Axis(centre: real, velocity: real)

  /** What the system is meant to do on one axis: bounce and clamp, or leave the entity alone. */
  function AxisStep(a: Axis, half: real, extent: real): Axis {
    if OutOfBounds(a.centre, half, extent) then Axis(ClampInto(a.centre, half, extent), -a.velocity) else a
  }

  /** An entity entirely inside the canvas on an axis keeps its centre and velocity on it. */
  lemma InsideUntouched(a: Axis, half: real, extent: real)
    requires !OutOfBounds(a.centre, half, extent)
    ensures AxisStep(a, half, extent) == a
  {
  }

  /** One sticking out reverses its velocity and lands inside whenever its box fits the canvas. */
  lemma OutsideBounces(a: Axis, half: real, extent: real)
    requires OutOfBounds(a.centre, half, extent)
    ensures AxisStep(a, half, extent).velocity == -a.velocity
    ensures half <= extent - half ==> half <= AxisStep(a, half, extent).centre <= extent - half
  {
  }

  /** When the box fits, one step always leaves the entity inside. */
  lemma StepLandsInside(a: Axis, half: real, extent: real)
    requires half <= extent - half
    ensures !OutOfBounds(AxisStep(a, half, extent).centre, half, extent)
  {
  }

  /** When the box fits, a second step changes nothing: two frames in a row bounce at most once. */
  lemma StepIdempotent(a: Axis, half: real, extent: real)
    requires half <= extent - half
    ensures AxisStep(AxisStep(a, half, extent), half, extent) == AxisStep(a, half, extent)
  {
    StepLandsInside(a, half, extent);
    InsideUntouched(AxisStep(a, half, extent), half, extent);
  }

  /** A box wider than the canvas is pinned at `half` whichever side it pokes out of. */
  lemma OversizedPinned(a: Axis, half: real, extent: real)
    requires extent - half < half
    ensures OutOfBounds(a.centre, half, extent)
    ensures AxisStep(a, half, extent) == Axis(half, -a.velocity)
  {
  }

  /** The horizontal half of `boundarySystem` as written, on the entity's transform and velocity vector. */
  method BounceX(transform: Transform, velocity: Vec2, half: real, width: real) returns (lost: Option<real>)
    requires transform.Valid()
    modifies velocity
    ensures velocity.Value()
            == V2(AxisStep(Axis(transform.Position().x, old(velocity.x)), half, width).velocity, old(velocity.y))
    ensures velocity.onChange == old(velocity.onChange)
    ensures lost == if OutOfBounds(transform.Position().x, half, width)
                    then Some(ClampInto(transform.Position().x, half, width)) else None
  {
    lost := None;
    var p := transform.GetPosition();
    if p.x - half < 0.0 || p.x + half > width {
      velocity.SetX(velocity.x * -1.0);
      var target := transform.GetPosition();
      var current := transform.GetPosition();
      target.SetX(Max(half, Min(current.x, width - half)));
      lost := Some(target.x);
    }
  }

  /** The vertical half of `boundarySystem` as written. */
  method BounceY(transform: Transform, velocity: Vec2, half: real, height: real) returns (lost: Option<real>)
    requires transform.Valid()
    modifies velocity
    ensures velocity.Value()
            == V2(old(velocity.x), AxisStep(Axis(transform.Position().y, old(velocity.y)), half, height).velocity)
    ensures velocity.onChange == old(velocity.onChange)
    ensures lost == if OutOfBounds(transform.Position().y, half, height)
                    then Some(ClampInto(transform.Position().y, half, height)) else None
  {
    lost := None;
    var p := transform.GetPosition();
    if p.y - half < 0.0 || p.y + half > height {
      velocity.SetY(velocity.y * -1.0);
      var target := transform.GetPosition();
      var current := transform.GetPosition();
      target.SetY(Max(half, Min(current.y, height - half)));
      lost := Some(target.y);
    }
  }

  /**
   * `boundarySystem` as written. The velocity vector is changed in place on each axis the
   * entity sticks out on; the clamped centre goes into a fresh copy of the position, returned
   * here as `lostX` / `lostY`, and the transform keeps its position.
   */
  method BoundaryStep(w: GameWorld, entity: Entity, canvasWidth: nat, canvasHeight: nat)
      returns (lostX: Option<real>, lostY: Option<real>)
    requires Typed(w) && TransformOf(w, entity).Some? && VelocityOf(w, entity).Some?
    modifies VelocityOf(w, entity).value.value
    ensures VelocityOf(w, entity).value.value.Value()
            == V2(AxisStep(Axis(TransformOf(w, entity).value.Position().x, old(VelocityOf(w, entity).value.value.x)),
                           HalfExtent(w, entity).x, canvasWidth as real).velocity,
                  AxisStep(Axis(TransformOf(w, entity).value.Position().y, old(VelocityOf(w, entity).value.value.y)),
                           HalfExtent(w, entity).y, canvasHeight as real).velocity)
    ensures VelocityOf(w, entity).value.value.onChange == old(VelocityOf(w, entity).value.value.onChange)
    ensures lostX == if OutOfBounds(TransformOf(w, entity).value.Position().x, HalfExtent(w, entity).x, canvasWidth as real)
                     then Some(ClampInto(TransformOf(w, entity).value.Position().x, HalfExtent(w, entity).x, canvasWidth as real))
                     else None
    ensures lostY == if OutOfBounds(TransformOf(w, entity).value.Position().y, HalfExtent(w, entity).y, canvasHeight as real)
                     then Some(ClampInto(TransformOf(w, entity).value.Position().y, HalfExtent(w, entity).y, canvasHeight as real))
                     else None
  {
    var transform := TransformOf(w, entity).value;
    var velocity := VelocityOf(w, entity).value;
    var half := HalfExtent(w, entity);
    lostX := BounceX(transform, velocity.value, half.x, canvasWidth as real);
    lostY := BounceY(transform, velocity.value, half.y, canvasHeight as real);
  }

  /** The horizontal half of `boundarySystem`, with the clamp written through the position setter. */
  method BounceFixedX(transform: Transform, velocity: Vec2, half: real, width: real)
    requires transform.Valid()
    modifies velocity, transform.matrix
    ensures transform.Position()
            == V2(AxisStep(Axis(old(transform.Position().x), old(velocity.x)), half, width).centre, old(transform.Position().y))
    ensures velocity.Value()
            == V2(AxisStep(Axis(old(transform.Position().x), old(velocity.x)), half, width).velocity, old(velocity.y))
    ensures transform.Scale() == old(transform.Scale()) && velocity.onChange == old(velocity.onChange)
    ensures transform.Slots() == WithPosition(old(transform.Slots()), transform.Position())
  {
    var p := transform.GetPosition();
    if p.x - half < 0.0 || p.x + half > width {
      velocity.SetX(velocity.x * -1.0);
      var target := transform.GetPosition();
      target.SetX(Max(half, Min(target.x, width - half)));
      transform.SetPosition(target);
    }
  }

  /** The vertical half of `boundarySystem`, with the clamp written through the position setter. */
  method BounceFixedY(transform: Transform, velocity: Vec2, half: real, height: real)
    requires transform.Valid()
    modifies velocity, transform.matrix
    ensures transform.Position()
            == V2(old(transform.Position().x), AxisStep(Axis(old(transform.Position().y), old(velocity.y)), half, height).centre)
    ensures velocity.Value()
            == V2(old(velocity.x), AxisStep(Axis(old(transform.Position().y), old(velocity.y)), half, height).velocity)
    ensures transform.Scale() == old(transform.Scale()) && velocity.onChange == old(velocity.onChange)
    ensures transform.Slots() == WithPosition(old(transform.Slots()), transform.Position())
  {
    var p := transform.GetPosition();
    if p.y - half < 0.0 || p.y + half > height {
      velocity.SetY(velocity.y * -1.0);
      var target := transform.GetPosition();
      target.SetY(Max(half, Min(target.y, height - half)));
      transform.SetPosition(target);
    }
  }

  /** `boundarySystem` with the clamped centre written through the position setter. */
  method BoundaryStepFixed(w: GameWorld, entity: Entity, canvasWidth: nat, canvasHeight: nat)
    requires Typed(w) && TransformOf(w, entity).Some? && VelocityOf(w, entity).Some?
    modifies VelocityOf(w, entity).value.value, TransformOf(w, entity).value.matrix
    ensures TransformOf(w, entity).value.Position()
            == V2(AxisStep(Axis(old(TransformOf(w, entity).value.Position().x), old(VelocityOf(w, entity).value.value.x)),
                           HalfExtent(w, entity).x, canvasWidth as real).centre,
                  AxisStep(Axis(old(TransformOf(w, entity).value.Position().y), old(VelocityOf(w, entity).value.value.y)),
                           HalfExtent(w, entity).y, canvasHeight as real).centre)
    ensures VelocityOf(w, entity).value.value.Value()
            == V2(AxisStep(Axis(old(TransformOf(w, entity).value.Position().x), old(VelocityOf(w, entity).value.value.x)),
                           HalfExtent(w, entity).x, canvasWidth as real).velocity,
                  AxisStep(Axis(old(TransformOf(w, entity).value.Position().y), old(VelocityOf(w, entity).value.value.y)),
                           HalfExtent(w, entity).y, canvasHeight as real).velocity)
    ensures TransformOf(w, entity).value.Scale() == old(TransformOf(w, entity).value.Scale())
    ensures VelocityOf(w, entity).value.value.onChange == old(VelocityOf(w, entity).value.value.onChange)
    ensures TransformOf(w, entity).value.Slots()
            == WithPosition(old(TransformOf(w, entity).value.Slots()), TransformOf(w, entity).value.Position())
  {
    var transform := TransformOf(w, entity).value;
    var velocity := VelocityOf(w, entity).value;
    var half := HalfExtent(w, entity);
    BounceFixedX(transform, velocity.value, half.x, canvasWidth as real);
    BounceFixedY(transform, velocity.value, half.y, canvasHeight as real);
  }
}
