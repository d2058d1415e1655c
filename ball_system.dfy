/**
 * `ballSystem` (packages/game/src/ball.system.ts): the ball moves `dir * speed * dt` in
 * sub-steps of length at most `MAX_MOVEMENT_PER_STEP`; at each sub-step it is checked against
 * every collider, and the first collider it overlaps is the only one resolved: the direction
 * is reflected (or re-aimed off a paddle, which also accelerates the ball), the ball is pushed
 * out along the axis of least overlap, and the movement stops for this call.
 *
 * The method is specified by the pure function `Run`; the colliders' boxes are read once,
 * as `Colliders`, because moving the ball changes no other transform.
 */
module BallSystems {
  import opened Wrappers
  import opened Numeric
  import opened Vectors
  import opened Ecs
  import opened Transforms
  import opened Components
  import opened AreaSystems

  const MaxMovementPerStep: real := 2.0
  const MaxYVector: real := 0.6
  const Acceleration: real := 50.0
  const StartSpeed: real := 500.0

  /** A collider as a sub-step sees it: its entity, its box, and whether it is one of the two paddles. */
  datatype Collider = Collider(entity: Entity, box: Bounds, paddle: bool)

  /** The ball's position and its `{ speed, dir }` record. */
  datatype BallState = BallState(position: V2, dir: V2, speed: real)

  /**
   * The direction the ball can have: a non-zero x, or no direction at all (the record the
   * game starts with). Re-aiming off a paddle normalises `(-dir.x, ·)`, which needs `dir.x != 0`.
   */
  predicate Aiming(dir: V2) {
    dir.x != 0.0 || dir == V2(0.0, 0.0)
  }

  /** Every paddle has a non-zero height, so the re-aim's division is defined. */
  ghost predicate PaddlesHaveHeight(cs: seq<Collider>) {
    forall c :: c in cs && c.paddle ==> c.box.1.y != 0.0
  }

  /** `Math.ceil(length / MAX_MOVEMENT_PER_STEP)` sub-steps for a total movement. */
  function Steps(total: V2, sqrt: real -> real): (n: nat)
    requires IsSqrt(sqrt)
    ensures n == 0 <==> total == V2(0.0, 0.0)
  {
    LengthSquared(total, sqrt);
    LengthZeroIff(total, sqrt);
    Ceil(total.Length(sqrt) / MaxMovementPerStep)
  }

  /**
   * `totalMovement.scale(1 / steps)`. With no sub-steps the source divides by zero, but the
   * value is never used; the total itself stands in for it.
   */
  function StepMovement(total: V2, sqrt: real -> real): V2
    requires IsSqrt(sqrt)
  {
    if Steps(total, sqrt) > 0 then total.Scale(1.0 / Steps(total, sqrt) as real) else total
  }

  /** The first collider, in order, that the ball's box overlaps. */
  function FirstHit(cs: seq<Collider>, ball: Bounds): (r: Option<Collider>)
    ensures r.Some? ==> r.value in cs && Overlapping(r.value.box, ball)
    ensures r.None? ==> forall c :: c in cs ==> !Overlapping(c.box, ball)
    decreases |cs|
  {
    if cs == [] then None
    else if Overlapping(cs[0].box, ball) then Some(cs[0])
    else FirstHit(cs[1..], ball)
  }

  /** No collider overlaps exactly when there is no first hit. */
  lemma {:induction false} FirstHitNone(cs: seq<Collider>, ball: Bounds)
    ensures FirstHit(cs, ball).None? <==> forall c :: c in cs ==> !Overlapping(c.box, ball)
    decreases |cs|
  {
    if cs != [] {
      FirstHitNone(cs[1..], ball);
      assert forall c :: c in cs ==> c == cs[0] || c in cs[1..];
    }
  }

  lemma {:induction false} FirstHitAppend(a: seq<Collider>, b: seq<Collider>, ball: Bounds)
    ensures FirstHit(a + b, ball) == if FirstHit(a, ball).Some? then FirstHit(a, ball) else FirstHit(b, ball)
    decreases |a|
  {
    if a == [] {
      assert a + b == b;
    } else {
      assert (a + b)[1..] == a[1..] + b;
      FirstHitAppend(a[1..], b, ball);
    }
  }

  /** The push-out: along x when its overlap is strictly smaller, else along y, away from the collider. */
  function PushOut(pos: V2, delta: V2, overlap: V2): V2 {
    if overlap.x < overlap.y then V2(pos.x + if delta.x > 0.0 then overlap.x else -overlap.x, pos.y)
    else V2(pos.x, pos.y + if delta.y > 0.0 then overlap.y else -overlap.y)
  }

  /** The re-aim off a paddle: x reversed, y from the hit's offset from the paddle's centre, then unit length. */
  function PaddleDirection(dir: V2, ballY: real, paddle: Bounds, sqrt: real -> real): (d: V2)
    requires IsSqrt(sqrt) && dir.x != 0.0 && paddle.1.y != 0.0
    ensures d.x != 0.0
  {
    var raw := V2(-dir.x, ((ballY - paddle.0.y) / (paddle.1.y / 2.0)) * MaxYVector);
    LengthZeroIff(raw, sqrt);
    LengthSquared(raw, sqrt);
    SignOfQuotient(-dir.x, raw.Length(sqrt));
    raw.Normalize(sqrt)
  }

  /**
   * The re-aimed direction has unit length and points back across the court, it is the raw
   * vector scaled down, and a hit at the paddle's centre sends the ball straight.
   */
  lemma PaddleDirectionMeaning(dir: V2, ballY: real, paddle: Bounds, sqrt: real -> real)
    requires IsSqrt(sqrt) && dir.x != 0.0 && paddle.1.y != 0.0
    ensures var d := PaddleDirection(dir, ballY, paddle, sqrt);
      d.Length(sqrt) == 1.0 && (d.x < 0.0 <==> 0.0 < dir.x)
    ensures var raw := V2(-dir.x, ((ballY - paddle.0.y) / (paddle.1.y / 2.0)) * MaxYVector);
      0.0 < raw.Length(sqrt) && PaddleDirection(dir, ballY, paddle, sqrt).Scale(raw.Length(sqrt)) == raw
    ensures ballY == paddle.0.y ==> PaddleDirection(dir, ballY, paddle, sqrt).y == 0.0
  {
    var raw := V2(-dir.x, ((ballY - paddle.0.y) / (paddle.1.y / 2.0)) * MaxYVector);
    LengthZeroIff(raw, sqrt);
    LengthSquared(raw, sqrt);
    NormalizeIsUnit(raw, sqrt);
    SignOfQuotient(-dir.x, raw.Length(sqrt));
  }

  lemma SignOfQuotient(a: real, l: real)
    requires 0.0 < l
    ensures a / l < 0.0 <==> a < 0.0
    ensures a / l == 0.0 <==> a == 0.0
  {
  }

  /** The response to a hit at the sub-step's position `newPos`: new direction and speed, then the push-out. */
  function Resolve(st: BallState, newPos: V2, c: Collider, scale: V2, sqrt: real -> real): BallState
    requires IsSqrt(sqrt) && (c.paddle ==> st.dir.x != 0.0 && c.box.1.y != 0.0)
  {
    var overlap := OverlapOf(c.box, (newPos, scale));
    var delta := newPos.Subtract(c.box.0);
    var dir := if c.paddle then PaddleDirection(st.dir, newPos.y, c.box, sqrt) else V2(st.dir.x, -st.dir.y);
    var speed := if c.paddle then st.speed + Acceleration else st.speed;
    BallState(PushOut(newPos, delta, overlap), dir, speed)
  }

  /** `n` sub-steps of `step` from `st`: each moves the ball, and the first hit resolves and ends the movement. */
  function Run(st: BallState, step: V2, scale: V2, cs: seq<Collider>, sqrt: real -> real, n: nat): BallState
    requires IsSqrt(sqrt) && PaddlesHaveHeight(cs) && (n == 0 || st.dir.x != 0.0)
    decreases n
  {
    if n == 0 then st
    else
      var newPos := st.position.Add(step);
      match FirstHit(cs, (newPos, scale))
      case None => Run(st.(position := newPos), step, scale, cs, sqrt, n - 1)
      case Some(c) => Resolve(st, newPos, c, scale, sqrt)
  }

  // ---------------------------------------------------------------------------------
  // Properties of the sub-steps.

  /** The sub-step count is zero exactly for no movement; otherwise each sub-step is at most 2 long and `steps` of them make the total. */
  lemma StepCount(total: V2, sqrt: real -> real)
    requires IsSqrt(sqrt)
    ensures Steps(total, sqrt) > 0 ==> StepMovement(total, sqrt).Length(sqrt) <= MaxMovementPerStep
    ensures Steps(total, sqrt) > 0 ==> StepMovement(total, sqrt).Scale(Steps(total, sqrt) as real) == total
  {
    LengthZeroIff(total, sqrt);
    LengthSquared(total, sqrt);
    var n := Steps(total, sqrt);
    if n > 0 {
      var c := 1.0 / n as real;
      ScaledLength(total, c, sqrt);
      assert StepMovement(total, sqrt).Length(sqrt) == c * total.Length(sqrt);
      assert total.Length(sqrt) / MaxMovementPerStep <= n as real;
      QuotientBound(total.Length(sqrt), n as real);
      ScaleBack(total, n as real);
    }
  }

  lemma QuotientBound(len: real, n: real)
    requires 0.0 < n && len / 2.0 <= n
    ensures (1.0 / n) * len <= 2.0
  {
    assert (1.0 / n) * len == len / n;
    assert len <= 2.0 * n;
    DivideBound(len, n);
  }

  lemma DivideBound(len: real, n: real)
    requires 0.0 < n && len <= 2.0 * n
    ensures len / n <= 2.0
  {
  }

  lemma ScaleBack(total: V2, n: real)
    requires n != 0.0
    ensures total.Scale(1.0 / n).Scale(n) == total
  {
    assert (total.x * (1.0 / n)) * n == total.x;
    assert (total.y * (1.0 / n)) * n == total.y;
  }

  /** With a true square root, scaling by a non-negative `c` scales the length by `c`. */
  lemma ScaledLength(v: V2, c: real, sqrt: real -> real)
    requires IsSqrt(sqrt) && 0.0 <= c
    ensures v.Scale(c).Length(sqrt) == c * v.Length(sqrt)
  {
    var a := v.Scale(c).Length(sqrt);
    var l := v.Length(sqrt);
    LengthSquared(v, sqrt);
    LengthSquared(v.Scale(c), sqrt);
    var b := c * l;
    assert v.Scale(c).Dot(v.Scale(c)) == (c * c) * v.Dot(v);
    assert b * b == (c * c) * (l * l);
    assert a * a == b * b;
    assert 0.0 <= b by {
      ProductNonNegative(c, l);
    }
    assert (a - b) * (a + b) == 0.0;
    if a != b {
      ProductZero(a + b, a - b);
    }
  }

  lemma ProductNonNegative(c: real, l: real)
    requires 0.0 <= c && 0.0 <= l
    ensures 0.0 <= c * l
  {
  }

  /**
   * The sub-step count is the fewest steps of at most `MAX_MOVEMENT_PER_STEP` that cover the
   * movement: it is k exactly when 2·(k - 1) < length <= 2·k.
   */
  lemma StepsIsFewest(total: V2, sqrt: real -> real, k: nat)
    requires IsSqrt(sqrt)
    ensures Steps(total, sqrt) == k <==>
              (k as real - 1.0) * MaxMovementPerStep < total.Length(sqrt) <= k as real * MaxMovementPerStep
  {
    LengthSquared(total, sqrt);
    var n := Steps(total, sqrt);
    var x := total.Length(sqrt) / MaxMovementPerStep;
    assert n as real - 1.0 < x <= n as real;
    if (k as real - 1.0) * MaxMovementPerStep < total.Length(sqrt) <= k as real * MaxMovementPerStep {
      assert k as real - 1.0 < x <= k as real;
    }
  }

  /** The ball's position after `k` hit-free sub-steps. */
  function Walk(p: V2, step: V2, k: nat): V2
    decreases k
  {
    if k == 0 then p else Walk(p.Add(step), step, k - 1)
  }

  /** … which is the start plus `k` times the step. */
  lemma {:induction false} WalkIsScaled(p: V2, step: V2, k: nat)
    ensures Walk(p, step, k) == p.Add(step.Scale(k as real))
    decreases k
  {
    if k > 0 {
      WalkIsScaled(p.Add(step), step, k - 1);
      assert step.x + step.x * ((k - 1) as real) == step.x * (k as real);
      assert step.y + step.y * ((k - 1) as real) == step.y * (k as real);
    }
  }

  /** None of the first `n` sub-steps from `p` hits a collider. */
  ghost predicate HitFree(p: V2, step: V2, scale: V2, cs: seq<Collider>, n: nat)
    decreases n
  {
    n == 0 || (FirstHit(cs, (p.Add(step), scale)).None? && HitFree(p.Add(step), step, scale, cs, n - 1))
  }

  /** Without a hit, the direction and speed are unchanged and the ball has walked all `n` sub-steps. */
  lemma {:induction false} RunWithoutHit(st: BallState, step: V2, scale: V2, cs: seq<Collider>, sqrt: real -> real, n: nat)
    requires IsSqrt(sqrt) && PaddlesHaveHeight(cs) && (n == 0 || st.dir.x != 0.0)
    requires HitFree(st.position, step, scale, cs, n)
    ensures Run(st, step, scale, cs, sqrt, n) == st.(position := Walk(st.position, step, n))
    decreases n
  {
    if n > 0 {
      RunWithoutHit(st.(position := st.position.Add(step)), step, scale, cs, sqrt, n - 1);
    }
  }

  /** With no hit in any sub-step, the ball ends at its start plus the whole movement. */
  lemma NoHitMovesAll(st: BallState, total: V2, scale: V2, cs: seq<Collider>, sqrt: real -> real)
    requires IsSqrt(sqrt) && PaddlesHaveHeight(cs) && (total == V2(0.0, 0.0) || st.dir.x != 0.0)
    requires HitFree(st.position, StepMovement(total, sqrt), scale, cs, Steps(total, sqrt))
    ensures Run(st, StepMovement(total, sqrt), scale, cs, sqrt, Steps(total, sqrt)) == st.(position := st.position.Add(total))
  {
    StepCount(total, sqrt);
    RunWithoutHit(st, StepMovement(total, sqrt), scale, cs, sqrt, Steps(total, sqrt));
    WalkIsScaled(st.position, StepMovement(total, sqrt), Steps(total, sqrt));
  }

  /** The number of sub-steps before the first one that hits, or `n` when none does. */
  function HitFreeSteps(p: V2, step: V2, scale: V2, cs: seq<Collider>, n: nat): (j: nat)
    ensures j <= n
    decreases n
  {
    if n == 0 then 0
    else if FirstHit(cs, (p.Add(step), scale)).Some? then 0
    else 1 + HitFreeSteps(p.Add(step), step, scale, cs, n - 1)
  }

  /** The sub-steps counted are hit-free, and the one after them, if any, hits. */
  lemma {:induction false} HitFreeStepsMeaning(p: V2, step: V2, scale: V2, cs: seq<Collider>, n: nat)
    ensures HitFree(p, step, scale, cs, HitFreeSteps(p, step, scale, cs, n))
    ensures HitFreeSteps(p, step, scale, cs, n) < n ==>
            FirstHit(cs, (Walk(p, step, HitFreeSteps(p, step, scale, cs, n) + 1), scale)).Some?
    decreases n
  {
    if n > 0 && FirstHit(cs, (p.Add(step), scale)).None? {
      HitFreeStepsMeaning(p.Add(step), step, scale, cs, n - 1);
    }
  }

  /**
   * At most one collision is resolved: the result is the hit-free walk when no sub-step hits,
   * and otherwise the resolution of the first hit at the first sub-step that has one.
   */
  lemma {:induction false} RunResolvesAtMostOnce(st: BallState, step: V2, scale: V2, cs: seq<Collider>, sqrt: real -> real, n: nat)
    requires IsSqrt(sqrt) && PaddlesHaveHeight(cs) && (n == 0 || st.dir.x != 0.0)
    ensures var j := HitFreeSteps(st.position, step, scale, cs, n);
      j == n ==> Run(st, step, scale, cs, sqrt, n) == st.(position := Walk(st.position, step, n))
    ensures var j := HitFreeSteps(st.position, step, scale, cs, n);
      j < n ==> && FirstHit(cs, (Walk(st.position, step, j + 1), scale)).Some?
                && Run(st, step, scale, cs, sqrt, n)
                   == Resolve(st.(position := Walk(st.position, step, j)), Walk(st.position, step, j + 1),
                              FirstHit(cs, (Walk(st.position, step, j + 1), scale)).value, scale, sqrt)
    decreases n
  {
    HitFreeStepsMeaning(st.position, step, scale, cs, n);
    if n > 0 && FirstHit(cs, (st.position.Add(step), scale)).None? {
      RunResolvesAtMostOnce(st.(position := st.position.Add(step)), step, scale, cs, sqrt, n - 1);
    }
  }

  /** The push-out leaves the ball exactly touching the collider on the resolved axis, and keeps the other axis. */
  lemma PushOutSeparates(c: Bounds, pos: V2, scale: V2)
    requires Overlapping(c, (pos, scale))
    ensures var o := OverlapOf(c, (pos, scale));
      var p := PushOut(pos, pos.Subtract(c.0), o);
      && (o.x < o.y ==> OverlapOf(c, (p, scale)).x == 0.0 && OverlapOf(c, (p, scale)).y == o.y)
      && (o.y <= o.x ==> OverlapOf(c, (p, scale)).y == 0.0 && OverlapOf(c, (p, scale)).x == o.x)
  {
  }

  /** A paddle hit reverses x, re-aims y (level for a centred hit) and adds the acceleration; any other hit negates only y. */
  lemma ResolveDirection(st: BallState, newPos: V2, c: Collider, scale: V2, sqrt: real -> real)
    requires IsSqrt(sqrt) && (c.paddle ==> st.dir.x != 0.0 && c.box.1.y != 0.0)
    ensures c.paddle ==> && Resolve(st, newPos, c, scale, sqrt).speed == st.speed + Acceleration
                         && (Resolve(st, newPos, c, scale, sqrt).dir.x < 0.0 <==> 0.0 < st.dir.x)
                         && (newPos.y == c.box.0.y ==> Resolve(st, newPos, c, scale, sqrt).dir.y == 0.0)
    ensures !c.paddle ==> && Resolve(st, newPos, c, scale, sqrt).speed == st.speed
                          && Resolve(st, newPos, c, scale, sqrt).dir == V2(st.dir.x, -st.dir.y)
  {
    if c.paddle {
      PaddleDirectionMeaning(st.dir, newPos.y, c.box, sqrt);
    }
  }

  /** The ball keeps a direction with a non-zero x (or none), so a later paddle hit can always re-aim it. */
  lemma {:induction false} RunKeepsAiming(st: BallState, step: V2, scale: V2, cs: seq<Collider>, sqrt: real -> real, n: nat)
    requires IsSqrt(sqrt) && PaddlesHaveHeight(cs) && Aiming(st.dir) && (n == 0 || st.dir.x != 0.0)
    ensures Aiming(Run(st, step, scale, cs, sqrt, n).dir)
    decreases n
  {
    if n > 0 {
      var newPos := st.position.Add(step);
      if FirstHit(cs, (newPos, scale)).None? {
        RunKeepsAiming(st.(position := newPos), step, scale, cs, sqrt, n - 1);
      }
    }
  }

  // ---------------------------------------------------------------------------------
  // The world the system reads.

  /** The colliders' entities: `getEntitiesWithComponents([Tags.Collider, TransformComponent.name])`. */
  function ColliderList(w: GameWorld): (es: seq<Entity>)
    reads w
    requires Typed(w) && ColliderTag in w.components && TransformKind in w.components
    ensures forall e :: e in es ==> TransformOf(w, e).Some?
  {
    SelectNoThrow([ColliderTag, TransformKind], w.entities, w.components);
    SelectMembers([ColliderTag, TransformKind], w.entities, w.components);
    assert forall e :: e in w.GetEntitiesWithComponents([ColliderTag, TransformKind]).value ==>
      HasAll([ColliderTag, TransformKind], w.components, e);
    assert forall e :: HasAll([ColliderTag, TransformKind], w.components, e) ==> e in w.components[TransformKind] by {
      assert [ColliderTag, TransformKind][1] == TransformKind;
    }
    w.GetEntitiesWithComponents([ColliderTag, TransformKind]).value
  }

  /** The first entity with a tag, as `const [x] = [...getEntitiesWithComponents([tag])]` takes it. */
  function FirstWith(w: GameWorld, tag: Kind): (r: Option<Entity>)
    reads w
    requires tag in w.components
    ensures r.Some? ==> tag in w.components && r.value in w.components[tag]
  {
    SelectNoThrow([tag], w.entities, w.components);
    SelectMembers([tag], w.entities, w.components);
    var es := w.GetEntitiesWithComponents([tag]).value;
    if es == [] then None
    else
      assert es[0] in es;
      assert [tag][0] == tag;
      Some(es[0])
  }

  /** The transforms' matrices of the listed entities other than `self`. */
  ghost function OtherMatrices(w: GameWorld, self: Entity, es: seq<Entity>): set<object>
    reads w
    requires Typed(w)
  {
    set e | e in es && e != self && TransformOf(w, e).Some? :: TransformOf(w, e).value.matrix
  }

  /** The colliders a sub-step tests, in order, skipping the ball itself. */
  function CollidersOf(w: GameWorld, self: Entity, es: seq<Entity>, player: Option<Entity>, cpu: Option<Entity>): (cs: seq<Collider>)
    reads w, OtherMatrices(w, self, es)
    requires Typed(w) && forall e :: e in es ==> TransformOf(w, e).Some?
    decreases |es|
  {
    if es == [] then []
    else
      var init := CollidersOf(w, self, es[..|es| - 1], player, cpu);
      var e := es[|es| - 1];
      if e == self then init
      else
        var t := TransformOf(w, e).value;
        init + [Collider(e, (t.Position(), t.Scale()), Some(e) == player || Some(e) == cpu)]
  }

  /** What the source needs of the world: the four kinds' storage, a ball with a transform, and no NaN on a hit. */
  ghost predicate Ready(w: GameWorld, entity: Entity, sqrt: real -> real)
    reads w, Geometry(w)
  {
    && Typed(w) && IsSqrt(sqrt)
    && TransformOf(w, entity).Some? && BallOf(w, entity).Some?
    && ColliderTag in w.components && PlayerTag in w.components && CpuTag in w.components
    && TransformOf(w, entity).value.matrix !in OtherMatrices(w, entity, ColliderList(w))
    && PaddlesHaveHeight(Colliders(w, entity))
  }

  /** The colliders of the world, as the ball `entity` sees them. */
  function Colliders(w: GameWorld, entity: Entity): seq<Collider>
    reads w, Geometry(w)
    requires Typed(w) && TransformKind in w.components && ColliderTag in w.components
    requires PlayerTag in w.components && CpuTag in w.components
  {
    CollidersOf(w, entity, ColliderList(w), FirstWith(w, PlayerTag), FirstWith(w, CpuTag))
  }

  function StateOf(t: Transform, b: BallData): BallState
    reads t.matrix, b
    requires t.Valid()
  {
    BallState(t.Position(), b.dir, b.speed)
  }

  // ---------------------------------------------------------------------------------
  // The system.

  /** A ball aimed straight up or down is at rest, so it does not move at all. */
  lemma MovingIsAimed(dir: V2, k: real)
    requires Aiming(dir)
    ensures dir.x == 0.0 ==> dir.Scale(k) == V2(0.0, 0.0)
  {
    if dir.x == 0.0 {
      assert dir == V2(0.0, 0.0);
    }
  }

  /** The movement of one call, `dir * speed * dt`. */
  function Movement(b: BallData, deltaTimeInSeconds: real): V2
    reads b
  {
    b.dir.Scale(b.speed * deltaTimeInSeconds)
  }

  /** `ballSystem(world, entity, dt)`: the sub-step loop. */
  method BallSystemRun(w: GameWorld, entity: Entity, deltaTimeInSeconds: real, fns: MathFns)
    requires Ready(w, entity, fns.sqrt) && Aiming(BallOf(w, entity).value.dir)
    modifies TransformOf(w, entity).value.matrix, BallOf(w, entity).value
    ensures StateOf(TransformOf(w, entity).value, BallOf(w, entity).value)
            == Run(old(StateOf(TransformOf(w, entity).value, BallOf(w, entity).value)),
                   StepMovement(old(Movement(BallOf(w, entity).value, deltaTimeInSeconds)), fns.sqrt),
                   old(TransformOf(w, entity).value.Scale()), old(Colliders(w, entity)), fns.sqrt,
                   Steps(old(Movement(BallOf(w, entity).value, deltaTimeInSeconds)), fns.sqrt))
    ensures Aiming(BallOf(w, entity).value.dir)
    ensures TransformOf(w, entity).value.Scale() == old(TransformOf(w, entity).value.Scale())
    ensures TransformOf(w, entity).value.Slots()
            == WithPosition(old(TransformOf(w, entity).value.Slots()), TransformOf(w, entity).value.Position())
  {
    var transform := TransformOf(w, entity).value;
    var ballData := BallOf(w, entity).value;
    var colliders := ColliderList(w);
    var player, cpu := FirstWith(w, PlayerTag), FirstWith(w, CpuTag);
    ghost var cs := CollidersOf(w, entity, colliders, player, cpu);
    assert cs == Colliders(w, entity);
    Launch(w, entity, colliders, player, cpu, cs, transform, ballData, deltaTimeInSeconds, fns);
    assert TransformOf(w, entity) == Some(transform) && BallOf(w, entity) == Some(ballData);
    assert old(Colliders(w, entity)) == cs;
  }

  /** The body of `ballSystem` once the world has been read: the total movement, its sub-steps, and the sub-step loop. */
  method Launch(w: GameWorld, entity: Entity, colliders: seq<Entity>, player: Option<Entity>, cpu: Option<Entity>,
                ghost cs: seq<Collider>, transform: Transform, ballData: BallData, deltaTimeInSeconds: real, fns: MathFns)
    requires Typed(w) && IsSqrt(fns.sqrt) && forall e :: e in colliders ==> TransformOf(w, e).Some?
    requires cs == CollidersOf(w, entity, colliders, player, cpu) && PaddlesHaveHeight(cs)
    requires transform.Valid() && transform.matrix !in OtherMatrices(w, entity, colliders)
    requires Aiming(ballData.dir)
    modifies transform.matrix, ballData
    ensures StateOf(transform, ballData)
            == Run(old(StateOf(transform, ballData)),
                   StepMovement(old(Movement(ballData, deltaTimeInSeconds)), fns.sqrt),
                   old(transform.Scale()), cs, fns.sqrt,
                   Steps(old(Movement(ballData, deltaTimeInSeconds)), fns.sqrt))
    ensures Aiming(ballData.dir) && transform.Scale() == old(transform.Scale())
    ensures transform.Slots() == WithPosition(old(transform.Slots()), transform.Position())
  {
    var totalMovement := Movement(ballData, deltaTimeInSeconds);
    var steps, stepMovement := SubSteps(totalMovement, fns.sqrt);
    MovingIsAimed(ballData.dir, ballData.speed * deltaTimeInSeconds);
    Move(w, entity, colliders, player, cpu, cs, transform, ballData, stepMovement, steps, fns);
  }

  /** The number of sub-steps, `ceil(length / MAX_MOVEMENT_PER_STEP)`, and the movement of each. */
  method SubSteps(totalMovement: V2, sqrt: real -> real) returns (steps: nat, stepMovement: V2)
    requires IsSqrt(sqrt)
    ensures steps == Steps(totalMovement, sqrt) && stepMovement == StepMovement(totalMovement, sqrt)
    ensures steps == 0 <==> totalMovement == V2(0.0, 0.0)
    ensures steps > 0 ==> stepMovement.Length(sqrt) <= MaxMovementPerStep && stepMovement.Scale(steps as real) == totalMovement
  {
    var movementLength := totalMovement.Length(sqrt);
    steps := Ceil(movementLength / MaxMovementPerStep);
    stepMovement := if steps > 0 then totalMovement.Scale(1.0 / steps as real) else totalMovement;
    StepCount(totalMovement, sqrt);
  }

  /** The sub-step loop: `steps` sub-steps of `stepMovement`, ended early by the first hit. */
  method Move(w: GameWorld, entity: Entity, colliders: seq<Entity>, player: Option<Entity>, cpu: Option<Entity>,
              ghost cs: seq<Collider>, transform: Transform, ballData: BallData, stepMovement: V2, steps: nat, fns: MathFns)
    requires Typed(w) && IsSqrt(fns.sqrt) && forall e :: e in colliders ==> TransformOf(w, e).Some?
    requires cs == CollidersOf(w, entity, colliders, player, cpu) && PaddlesHaveHeight(cs)
    requires transform.Valid() && transform.matrix !in OtherMatrices(w, entity, colliders)
    requires Aiming(ballData.dir) && (steps == 0 || ballData.dir.x != 0.0)
    modifies transform.matrix, ballData
    ensures StateOf(transform, ballData) == Run(old(StateOf(transform, ballData)), stepMovement, old(transform.Scale()), cs, fns.sqrt, steps)
    ensures Aiming(ballData.dir) && transform.Scale() == old(transform.Scale())
    ensures transform.Slots() == WithPosition(old(transform.Slots()), transform.Position())
  {
    ghost var st0 := StateOf(transform, ballData);
    ghost var scale := transform.Scale();
    ghost var slots0 := transform.Slots();
    RunKeepsAiming(st0, stepMovement, scale, cs, fns.sqrt, steps);
    var i := 0;
    while i < steps
      invariant 0 <= i <= steps
      invariant transform.Scale() == scale && transform.matrix !in OtherMatrices(w, entity, colliders)
      invariant transform.Slots() == WithPosition(slots0, transform.Position())
      invariant Typed(w) && forall e :: e in colliders ==> TransformOf(w, e).Some?
      invariant CollidersOf(w, entity, colliders, player, cpu) == cs
      invariant ballData.dir == st0.dir && ballData.speed == st0.speed
      invariant Run(StateOf(transform, ballData), stepMovement, scale, cs, fns.sqrt, steps - i)
                == Run(st0, stepMovement, scale, cs, fns.sqrt, steps)
      decreases steps - i
    {
      ghost var before := StateOf(transform, ballData);
      var collisionDetected := SubStep(w, entity, colliders, player, cpu, cs, transform, ballData, stepMovement, fns);
      RunStep(before, stepMovement, scale, cs, fns.sqrt, steps - i);
      if collisionDetected {
        break;
      }
      i := i + 1;
    }
  }

  /** One sub-step of `Run`: a hit resolves, and otherwise the ball moves on and the rest follows. */
  lemma {:induction false} RunStep(st: BallState, step: V2, scale: V2, cs: seq<Collider>, sqrt: real -> real, n: nat)
    requires IsSqrt(sqrt) && PaddlesHaveHeight(cs) && 0 < n && st.dir.x != 0.0
    ensures var newPos := st.position.Add(step);
      var hit := FirstHit(cs, (newPos, scale));
      && (hit.Some? ==> Run(st, step, scale, cs, sqrt, n) == Resolve(st, newPos, hit.value, scale, sqrt))
      && (hit.None? ==> Run(st, step, scale, cs, sqrt, n) == Run(st.(position := newPos), step, scale, cs, sqrt, n - 1))
  {
  }

  /**
   * One sub-step: the ball's box at `position + stepMovement` is checked against the colliders;
   * the first one it overlaps is resolved, and without one the ball moves there.
   */
  method SubStep(w: GameWorld, entity: Entity, colliders: seq<Entity>, player: Option<Entity>, cpu: Option<Entity>,
                 ghost cs: seq<Collider>, transform: Transform, ballData: BallData, stepMovement: V2, fns: MathFns)
    returns (collisionDetected: bool)
    requires Typed(w) && IsSqrt(fns.sqrt) && forall e :: e in colliders ==> TransformOf(w, e).Some?
    requires cs == CollidersOf(w, entity, colliders, player, cpu) && PaddlesHaveHeight(cs)
    requires transform.Valid() && transform.matrix !in OtherMatrices(w, entity, colliders) && ballData.dir.x != 0.0
    modifies transform.matrix, ballData
    ensures collisionDetected <==> FirstHit(cs, (old(transform.Position()).Add(stepMovement), old(transform.Scale()))).Some?
    ensures !collisionDetected ==>
      StateOf(transform, ballData) == old(StateOf(transform, ballData)).(position := old(transform.Position()).Add(stepMovement))
    ensures collisionDetected ==>
      StateOf(transform, ballData)
      == Resolve(old(StateOf(transform, ballData)), old(transform.Position()).Add(stepMovement),
                 FirstHit(cs, (old(transform.Position()).Add(stepMovement), old(transform.Scale()))).value,
                 old(transform.Scale()), fns.sqrt)
    ensures transform.Scale() == old(transform.Scale())
    ensures transform.Slots() == WithPosition(old(transform.Slots()), transform.Position())
    ensures Typed(w) && (forall e :: e in colliders ==> TransformOf(w, e).Some?) && CollidersOf(w, entity, colliders, player, cpu) == cs
  {
    var newPos := transform.Position().Add(stepMovement);
    var ballHalfSize := transform.Scale().Scale(0.5);
    var hit, delta, overlap := FindHit(w, entity, colliders, player, cpu, cs, newPos, transform.Scale(), ballHalfSize);
    collisionDetected := Conclude(transform, ballData, cs, hit, newPos, delta, overlap, fns);
    assert unchanged(OtherMatrices(w, entity, colliders));
  }

  /** The end of a sub-step: respond to the hit found, or move the ball to its new position. */
  method Conclude(transform: Transform, ballData: BallData, ghost cs: seq<Collider>, hit: Option<Collider>,
               newPos: V2, delta: V2, overlap: V2, fns: MathFns)
    returns (collisionDetected: bool)
    requires transform.Valid() && IsSqrt(fns.sqrt) && PaddlesHaveHeight(cs) && ballData.dir.x != 0.0
    requires hit == FirstHit(cs, (newPos, transform.Scale()))
    requires hit.Some? ==> delta == newPos.Subtract(hit.value.box.0) && overlap == OverlapOf(hit.value.box, (newPos, transform.Scale()))
    modifies transform.matrix, ballData
    ensures collisionDetected <==> hit.Some?
    ensures hit.None? ==> StateOf(transform, ballData) == old(StateOf(transform, ballData)).(position := newPos)
    ensures hit.Some? ==> StateOf(transform, ballData) == Resolve(old(StateOf(transform, ballData)), newPos, hit.value, old(transform.Scale()), fns.sqrt)
    ensures transform.Scale() == old(transform.Scale())
    ensures transform.Slots() == WithPosition(old(transform.Slots()), transform.Position())
  {
    collisionDetected := hit.Some?;
    if collisionDetected {
      Respond(transform, ballData, hit.value, newPos, delta, overlap, fns);
    } else {
      var p := new Vec2(newPos.x, newPos.y);
      transform.SetPosition(p);
    }
  }

  /**
   * The collider loop of a sub-step, which changes nothing until it finds a hit: the first
   * collider other than the ball whose box overlaps the ball's, with the offset and overlaps
   * the response uses.
   */
  method FindHit(w: GameWorld, entity: Entity, colliders: seq<Entity>, player: Option<Entity>, cpu: Option<Entity>,
                 ghost cs: seq<Collider>, newPos: V2, ballScale: V2, ballHalfSize: V2)
    returns (hit: Option<Collider>, delta: V2, overlap: V2)
    requires Typed(w) && forall e :: e in colliders ==> TransformOf(w, e).Some?
    requires cs == CollidersOf(w, entity, colliders, player, cpu) && ballHalfSize == ballScale.Scale(0.5)
    ensures hit == FirstHit(cs, (newPos, ballScale))
    ensures hit.Some? ==> delta == newPos.Subtract(hit.value.box.0) && overlap == OverlapOf(hit.value.box, (newPos, ballScale))
  {
    ghost var ball := (newPos, ballScale);
    hit, delta, overlap := None, V2(0.0, 0.0), V2(0.0, 0.0);
    var i := 0;
    while i < |colliders|
      invariant 0 <= i <= |colliders|
      invariant cs == CollidersOf(w, entity, colliders, player, cpu)
      invariant FirstHit(CollidersOf(w, entity, colliders[..i], player, cpu), ball).None?
      decreases |colliders| - i
    {
      var found, c;
      found, c, delta, overlap := Visit(w, entity, colliders, i, player, cpu, cs, ball, newPos, ballScale, ballHalfSize);
      if found {
        hit := Some(c);
        return;
      }
      i := i + 1;
    }
    assert colliders[..|colliders|] == colliders;
  }

  /** One round of the collider loop: test the entity at position `i`, after `i` that missed. */
  method Visit(w: GameWorld, entity: Entity, colliders: seq<Entity>, i: nat, player: Option<Entity>, cpu: Option<Entity>,
               ghost cs: seq<Collider>, ghost ball: Bounds, newPos: V2, ballScale: V2, ballHalfSize: V2)
    returns (found: bool, c: Collider, delta: V2, overlap: V2)
    requires Typed(w) && forall e :: e in colliders ==> TransformOf(w, e).Some?
    requires cs == CollidersOf(w, entity, colliders, player, cpu)
    ensures cs == CollidersOf(w, entity, colliders, player, cpu)
    requires i < |colliders| && ball == (newPos, ballScale) && ballHalfSize == ballScale.Scale(0.5)
    requires FirstHit(CollidersOf(w, entity, colliders[..i], player, cpu), ball).None?
    ensures found ==> FirstHit(cs, ball) == Some(c)
    ensures found ==> delta == newPos.Subtract(c.box.0) && overlap == OverlapOf(c.box, ball)
    ensures !found ==> FirstHit(CollidersOf(w, entity, colliders[..i + 1], player, cpu), ball).None?
  {
    found, c, delta, overlap := false, Collider(entity, (newPos, ballScale), false), V2(0.0, 0.0), V2(0.0, 0.0);
    var collider := colliders[i];
    CollidersExtend(w, entity, colliders, i, player, cpu);
    if collider != entity {
      var colliderTransform := TransformOf(w, collider).value;
      var colliderHalfSize := colliderTransform.Scale().Scale(0.5);
      delta := newPos.Subtract(colliderTransform.Position());
      var overlapX := ballHalfSize.x + colliderHalfSize.x - Abs(delta.x);
      var overlapY := ballHalfSize.y + colliderHalfSize.y - Abs(delta.y);
      c := Collider(collider, (colliderTransform.Position(), colliderTransform.Scale()),
                    Some(collider) == player || Some(collider) == cpu);
      assert c.box == Box(w, collider);
      if overlapX > 0.0 && overlapY > 0.0 {
        HitIsFirst(w, entity, colliders, i, player, cpu, ball, c);
        found, overlap := true, V2(overlapX, overlapY);
        return;
      }
      FirstHitAppend(CollidersOf(w, entity, colliders[..i], player, cpu), [c], ball);
    } else {
      assert CollidersOf(w, entity, colliders[..i], player, cpu) + [] == CollidersOf(w, entity, colliders[..i], player, cpu);
    }
  }

  /** The collider at position `i` that overlaps, after `i` that do not, is the first hit. */
  lemma {:induction false} HitIsFirst(w: GameWorld, entity: Entity, colliders: seq<Entity>, i: nat, player: Option<Entity>, cpu: Option<Entity>, ball: Bounds, c: Collider)
    requires Typed(w) && forall e :: e in colliders ==> TransformOf(w, e).Some?
    requires i < |colliders| && colliders[i] != entity && c.entity == colliders[i]
    requires c == Collider(colliders[i], Box(w, colliders[i]), Some(colliders[i]) == player || Some(colliders[i]) == cpu)
    requires Overlapping(c.box, ball)
    requires FirstHit(CollidersOf(w, entity, colliders[..i], player, cpu), ball).None?
    ensures FirstHit(CollidersOf(w, entity, colliders, player, cpu), ball) == Some(c)
  {
    CollidersExtend(w, entity, colliders, i, player, cpu);
    var front := CollidersOf(w, entity, colliders[..i + 1], player, cpu);
    FirstHitAppend(CollidersOf(w, entity, colliders[..i], player, cpu), [c], ball);
    assert colliders == colliders[..i + 1] + colliders[i + 1..];
    CollidersAppend(w, entity, colliders[..i + 1], colliders[i + 1..], player, cpu);
    FirstHitAppend(front, CollidersOf(w, entity, colliders[i + 1..], player, cpu), ball);
  }

  /** One more entity of the list adds its collider, unless it is the ball. */
  lemma {:induction false} CollidersExtend(w: GameWorld, entity: Entity, es: seq<Entity>, i: nat, player: Option<Entity>, cpu: Option<Entity>)
    requires Typed(w) && forall e :: e in es ==> TransformOf(w, e).Some?
    requires i < |es|
    ensures CollidersOf(w, entity, es[..i + 1], player, cpu)
            == CollidersOf(w, entity, es[..i], player, cpu)
               + if es[i] == entity then [] else [Collider(es[i], Box(w, es[i]), Some(es[i]) == player || Some(es[i]) == cpu)]
  {
    assert es[..i + 1][..i] == es[..i];
  }

  /** The colliders of two lists joined are those of the first followed by those of the second. */
  lemma {:induction false} CollidersAppend(w: GameWorld, entity: Entity, xs: seq<Entity>, ys: seq<Entity>, player: Option<Entity>, cpu: Option<Entity>)
    requires Typed(w) && forall e :: e in xs + ys ==> TransformOf(w, e).Some?
    ensures CollidersOf(w, entity, xs + ys, player, cpu) == CollidersOf(w, entity, xs, player, cpu) + CollidersOf(w, entity, ys, player, cpu)
    decreases |ys|
  {
    if ys == [] {
      assert xs + ys == xs;
    } else {
      var init, last := ys[..|ys| - 1], ys[|ys| - 1];
      assert (xs + ys)[..|xs + ys| - 1] == xs + init;
      assert (xs + ys)[|xs + ys| - 1] == last;
      CollidersAppend(w, entity, xs, init, player, cpu);
      var front, back := CollidersOf(w, entity, xs, player, cpu), CollidersOf(w, entity, init, player, cpu);
      if last != entity {
        var c := Collider(last, Box(w, last), Some(last) == player || Some(last) == cpu);
        assert CollidersOf(w, entity, xs + ys, player, cpu) == front + back + [c];
        assert CollidersOf(w, entity, ys, player, cpu) == back + [c];
        assert front + back + [c] == front + (back + [c]);
      }
    }
  }

  /**
   * The response to a hit on collider `c`, whose box the sub-step has just read: direction,
   * speed, then the push-out written back through the position setter.
   */
  method Respond(transform: Transform, ballData: BallData, c: Collider, newPos: V2, delta: V2, overlap: V2, fns: MathFns)
    requires transform.Valid() && IsSqrt(fns.sqrt)
    requires c.paddle ==> ballData.dir.x != 0.0 && c.box.1.y != 0.0
    requires delta == newPos.Subtract(c.box.0) && overlap == OverlapOf(c.box, (newPos, transform.Scale()))
    modifies transform.matrix, ballData
    ensures StateOf(transform, ballData) == Resolve(old(StateOf(transform, ballData)), newPos, c, old(transform.Scale()), fns.sqrt)
    ensures transform.Scale() == old(transform.Scale())
    ensures transform.Slots() == WithPosition(old(transform.Slots()), transform.Position())
  {
    var adjustedPos := newPos;
    var newDir := ballData.dir;
    if c.paddle {
      var ballY := adjustedPos.y;
      var paddleY := c.box.0.y;
      var paddleHeight := c.box.1.y;
      var dist := ballY - paddleY;
      newDir := V2(-ballData.dir.x, (dist / (paddleHeight / 2.0)) * MaxYVector);
      LengthZeroIff(newDir, fns.sqrt);
      newDir := newDir.Normalize(fns.sqrt);
      ballData.speed := ballData.speed + Acceleration;
    } else {
      newDir := V2(newDir.x, -ballData.dir.y);
    }
    ballData.dir := newDir;
    if overlap.x < overlap.y {
      adjustedPos := V2(adjustedPos.x + if delta.x > 0.0 then overlap.x else -overlap.x, adjustedPos.y);
    } else {
      adjustedPos := V2(adjustedPos.x, adjustedPos.y + if delta.y > 0.0 then overlap.y else -overlap.y);
    }
    var p := new Vec2(adjustedPos.x, adjustedPos.y);
    transform.SetPosition(p);
  }

  lemma {:induction false} CollidersMember(w: GameWorld, entity: Entity, es: seq<Entity>, player: Option<Entity>, cpu: Option<Entity>, e: Entity)
    requires Typed(w) && forall x :: x in es ==> TransformOf(w, x).Some?
    requires e in es && e != entity
    ensures Collider(e, Box(w, e), Some(e) == player || Some(e) == cpu) in CollidersOf(w, entity, es, player, cpu)
    decreases |es|
  {
    var init := es[..|es| - 1];
    if es[|es| - 1] != e {
      assert es == init + [es[|es| - 1]];
      CollidersMember(w, entity, init, player, cpu, e);
    }
  }
}
