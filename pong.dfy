/**
 * The gameplay callbacks of the pong game (packages/pong/src/main.ts): the two paddle
 * systems, the score areas' ENTER handlers, the ball timer's TIMEOUT handler, and the
 * order in which the update systems are registered.
 *
 * The keyboard state is a parameter (`keys`), and so are the draws of `Math.random()`.
 * Scene setup, the DOM and sound are outside this model.
 *
 * The paddle systems and the TIMEOUT handler assign to `transform.position.y` (or `.x`),
 * and the position getter returns a copy, so those writes reach only the copy.
 * `PlayerPaddle`, `CpuPaddle` and `BallTimeout` keep that behaviour. `PlayerPaddleFixed`,
 * `CpuPaddleFixed` and `BallTimeoutFixed` write through the position setter.
 */
module Pong {
  import opened Wrappers
  import opened Numeric
  import opened Vectors
  import opened Ecs
  import opened Transforms
  import opened Labels
  import opened Timers
  import opened Random
  import opened Components
  import opened BallSystems

  /** `PADDLE_SPEED`, pixels per second. */
  const PaddleSpeed: real := 500.0

  /** The game's own `START_SPEED`, the ball speed after a serve. */
  const ServeSpeed: real := 500.0

  /** The viewport, `new Vec2(1152, 648)`. */
  const ViewportWidth: int := 1152
  const ViewportHeight: int := 648

  /** `keys[key]`: a key never pressed is `undefined`, which is falsy. */
  function Pressed(keys: map<string, bool>, key: string): bool {
    key in keys && keys[key]
  }

  /** The paddle's y after the two key checks: "w" moves it up, "s" moves it down. */
  function PlayerTarget(y: real, keys: map<string, bool>, deltaTimeInSeconds: real): (r: real)
    ensures Pressed(keys, "w") && !Pressed(keys, "s") ==> r == y - PaddleSpeed * deltaTimeInSeconds
    ensures !Pressed(keys, "w") && Pressed(keys, "s") ==> r == y + PaddleSpeed * deltaTimeInSeconds
    ensures Pressed(keys, "w") == Pressed(keys, "s") ==> r == y
  {
    var up := if Pressed(keys, "w") then y - PaddleSpeed * deltaTimeInSeconds else y;
    if Pressed(keys, "s") then up + PaddleSpeed * deltaTimeInSeconds else up
  }

  /**
   * `Math.min(viewportHeight - h / 2, Math.max(h / 2, y))`: a paddle of height `h` kept inside
   * the viewport. When the paddle is taller than the viewport the upper bound wins.
   */
  function Clamp(y: real, paddleHeight: real, viewportHeight: real): (r: real)
    ensures paddleHeight <= viewportHeight ==> paddleHeight / 2.0 <= r <= viewportHeight - paddleHeight / 2.0
    ensures paddleHeight / 2.0 <= y <= viewportHeight - paddleHeight / 2.0 ==> r == y
    ensures viewportHeight < paddleHeight ==> r == viewportHeight - paddleHeight / 2.0
  {
    Min(viewportHeight - paddleHeight / 2.0, Max(paddleHeight / 2.0, y))
  }

  /**
   * The cpu paddle's move towards the ball: the whole `distance` when it is within one
   * step of `PADDLE_SPEED * dt`, otherwise one step in the direction of `distance`.
   * The update step is never negative, so `distance / |distance|` is only taken for a
   * non-zero distance.
   */
  function CpuMoveBy(distance: real, deltaTimeInSeconds: real): (moveBy: real)
    requires 0.0 <= deltaTimeInSeconds
    ensures Abs(moveBy) <= PaddleSpeed * deltaTimeInSeconds
    ensures moveBy > 0.0 ==> distance > 0.0
    ensures moveBy < 0.0 ==> distance < 0.0
    ensures 0.0 < deltaTimeInSeconds ==> (distance > 0.0 ==> moveBy > 0.0) && (distance < 0.0 ==> moveBy < 0.0)
    ensures Abs(distance) <= PaddleSpeed * deltaTimeInSeconds ==> moveBy == distance
    ensures Abs(distance) > PaddleSpeed * deltaTimeInSeconds ==> Abs(moveBy) == PaddleSpeed * deltaTimeInSeconds
  {
    var step := PaddleSpeed * deltaTimeInSeconds;
    if Abs(distance) > step then
      UnitSign(distance);
      step * (distance / Abs(distance))
    else distance
  }

  /** `x / |x|` is 1 or -1 with the sign of `x`. */
  lemma UnitSign(x: real)
    requires x != 0.0
    ensures x > 0.0 ==> x / Abs(x) == 1.0
    ensures x < 0.0 ==> x / Abs(x) == -1.0
  {
  }

  // ---------------------------------------------------------------------------------
  // The paddle systems.

  /**
   * `playerSystem` as written: every assignment goes to a fresh copy of the position, so the
   * transform keeps its position, and the clamp reads the unmoved y. `lost` is what the
   * last copy holds.
   */
  method PlayerPaddle(w: GameWorld, entity: Entity, keys: map<string, bool>, deltaTimeInSeconds: real)
      returns (lost: real)
    requires Typed(w) && TransformOf(w, entity).Some?
    ensures lost == Clamp(TransformOf(w, entity).value.Position().y, TransformOf(w, entity).value.Scale().y,
                          ViewportHeight as real)
  {
    var transform := TransformOf(w, entity).value;
    if Pressed(keys, "w") {
      var p := transform.GetPosition();
      p.SetY(p.y - PaddleSpeed * deltaTimeInSeconds);
    }
    if Pressed(keys, "s") {
      var p := transform.GetPosition();
      p.SetY(p.y + PaddleSpeed * deltaTimeInSeconds);
    }
    var scale := transform.GetScale();
    var paddleHeight := scale.y;
    var target := transform.GetPosition();
    var current := transform.GetPosition();
    target.SetY(Min(ViewportHeight as real - paddleHeight / 2.0, Max(paddleHeight / 2.0, current.y)));
    lost := target.y;
  }

  /** `playerSystem` with the position written through the setter: moved, then clamped. */
  method PlayerPaddleFixed(w: GameWorld, entity: Entity, keys: map<string, bool>, deltaTimeInSeconds: real)
    requires Typed(w) && TransformOf(w, entity).Some?
    modifies TransformOf(w, entity).value.matrix
    ensures TransformOf(w, entity).value.Position()
            == V2(old(TransformOf(w, entity).value.Position().x),
                  Clamp(PlayerTarget(old(TransformOf(w, entity).value.Position().y), keys, deltaTimeInSeconds),
                        old(TransformOf(w, entity).value.Scale().y), ViewportHeight as real))
    ensures TransformOf(w, entity).value.Scale() == old(TransformOf(w, entity).value.Scale())
    ensures TransformOf(w, entity).value.Slots()
            == WithPosition(old(TransformOf(w, entity).value.Slots()), TransformOf(w, entity).value.Position())
  {
    var transform := TransformOf(w, entity).value;
    var position := transform.GetPosition();
    var y := position.y;
    if Pressed(keys, "w") {
      y := y - PaddleSpeed * deltaTimeInSeconds;
    }
    if Pressed(keys, "s") {
      y := y + PaddleSpeed * deltaTimeInSeconds;
    }
    var scale := transform.GetScale();
    var paddleHeight := scale.y;
    var moved := new Vec2(position.x, Min(ViewportHeight as real - paddleHeight / 2.0, Max(paddleHeight / 2.0, y)));
    transform.SetPosition(moved);
  }

  /**
   * `cpuSystem` as written: the move and the clamp go to fresh copies, so the paddle stays
   * where it is; `lost` is what the clamp's copy holds.
   */
  method CpuPaddle(w: GameWorld, entity: Entity, ball: Entity, deltaTimeInSeconds: real) returns (lost: real)
    requires Typed(w) && TransformOf(w, entity).Some? && TransformOf(w, ball).Some?
    requires 0.0 <= deltaTimeInSeconds
    ensures lost == Clamp(TransformOf(w, entity).value.Position().y, TransformOf(w, entity).value.Scale().y,
                          ViewportHeight as real)
  {
    var transform := TransformOf(w, entity).value;
    var ballPosition := TransformOf(w, ball).value.GetPosition();
    var position := transform.GetPosition();
    var distance := position.y - ballPosition.y;
    var moveBy := CpuMoveBy(distance, deltaTimeInSeconds);
    var target := transform.GetPosition();
    target.SetY(target.y - moveBy);
    var scale := transform.GetScale();
    var paddleHeight := scale.y;
    var clamped := transform.GetPosition();
    var current := transform.GetPosition();
    clamped.SetY(Min(ViewportHeight as real - paddleHeight / 2.0, Max(paddleHeight / 2.0, current.y)));
    lost := clamped.y;
  }

  /** `cpuSystem` with the position written through the setter: the paddle follows the ball. */
  method CpuPaddleFixed(w: GameWorld, entity: Entity, ball: Entity, deltaTimeInSeconds: real)
    requires Typed(w) && TransformOf(w, entity).Some? && TransformOf(w, ball).Some?
    requires 0.0 <= deltaTimeInSeconds
    modifies TransformOf(w, entity).value.matrix
    ensures TransformOf(w, entity).value.Position()
            == V2(old(TransformOf(w, entity).value.Position().x),
                  Clamp(old(TransformOf(w, entity).value.Position().y)
                          - CpuMoveBy(old(TransformOf(w, entity).value.Position().y - TransformOf(w, ball).value.Position().y),
                                      deltaTimeInSeconds),
                        old(TransformOf(w, entity).value.Scale().y), ViewportHeight as real))
    ensures TransformOf(w, entity).value.Scale() == old(TransformOf(w, entity).value.Scale())
    ensures TransformOf(w, entity).value.Slots()
            == WithPosition(old(TransformOf(w, entity).value.Slots()), TransformOf(w, entity).value.Position())
  {
    var transform := TransformOf(w, entity).value;
    var ballPosition := TransformOf(w, ball).value.GetPosition();
    var position := transform.GetPosition();
    var moveBy := CpuMoveBy(position.y - ballPosition.y, deltaTimeInSeconds);
    var scale := transform.GetScale();
    var paddleHeight := scale.y;
    var y := position.y - moveBy;
    var moved := new Vec2(position.x, Min(ViewportHeight as real - paddleHeight / 2.0, Max(paddleHeight / 2.0, y)));
    transform.SetPosition(moved);
  }

  /** Within one step of the ball, the cpu paddle's move lands it exactly on the ball's y. */
  lemma CpuReachesBall(paddleY: real, ballY: real, deltaTimeInSeconds: real)
    requires 0.0 <= deltaTimeInSeconds && Abs(paddleY - ballY) <= PaddleSpeed * deltaTimeInSeconds
    ensures paddleY - CpuMoveBy(paddleY - ballY, deltaTimeInSeconds) == ballY
  {
  }

  // ---------------------------------------------------------------------------------
  // The score areas.

  /** The `scores` record. */
  class Scores {
    var player: nat
    var cpu: nat

    constructor ()
      ensures player == 0 && cpu == 0
    {
      player, cpu := 0, 0;
    }
  }

  /**
   * The left area's ENTER handler: the cpu scores, its label shows the new score, and the
   * ball timer is started (a no-op unless it is idle). The sound is not modelled.
   */
  method LeftScoreEnter(w: GameWorld, scores: Scores, cpuScore: Entity, ballTimer: Timer)
    requires Typed(w) && LabelOf(w, cpuScore).Some?
    modifies scores, LabelOf(w, cpuScore).value, ballTimer
    ensures scores.cpu == old(scores.cpu) + 1 && scores.player == old(scores.player)
    ensures LabelOf(w, cpuScore).value.Properties()
            == Apply(old(LabelOf(w, cpuScore).value.Properties()), Text(NatToString(scores.cpu)))
    ensures LabelOf(w, cpuScore).value.needsUpdate
    ensures ballTimer.State() == Started(old(ballTimer.State()), -1.0)
    ensures ballTimer.timeouts == old(ballTimer.timeouts) && ballTimer.handlers == old(ballTimer.handlers)
  {
    scores.cpu := scores.cpu + 1;
    var labelComponent := LabelOf(w, cpuScore).value;
    labelComponent.SetText(NatToString(scores.cpu));
    ballTimer.Start();
  }

  /** The right area's ENTER handler, the same for the player's score. */
  method RightScoreEnter(w: GameWorld, scores: Scores, playerScore: Entity, ballTimer: Timer)
    requires Typed(w) && LabelOf(w, playerScore).Some?
    modifies scores, LabelOf(w, playerScore).value, ballTimer
    ensures scores.player == old(scores.player) + 1 && scores.cpu == old(scores.cpu)
    ensures LabelOf(w, playerScore).value.Properties()
            == Apply(old(LabelOf(w, playerScore).value.Properties()), Text(NatToString(scores.player)))
    ensures LabelOf(w, playerScore).value.needsUpdate
    ensures ballTimer.State() == Started(old(ballTimer.State()), -1.0)
    ensures ballTimer.timeouts == old(ballTimer.timeouts) && ballTimer.handlers == old(ballTimer.handlers)
  {
    scores.player := scores.player + 1;
    var labelComponent := LabelOf(w, playerScore).value;
    labelComponent.SetText(NatToString(scores.player));
    ballTimer.Start();
  }

  // ---------------------------------------------------------------------------------
  // The serve.

  /**
   * `randomDirection()`: x is `pickRandom([-1, 1])`, y is `randomFloat(-1, 1)`, and the
   * vector is normalised. `pickDraw` and `floatDraw` are the two draws of `Math.random()`.
   */
  function RandomDirection(pickDraw: real, floatDraw: real, sqrt: real -> real): V2
    requires IsDraw(pickDraw) && IsSqrt(sqrt)
  {
    PickRandomNonEmpty([-1.0, 1.0], pickDraw);
    var v := V2(PickRandom([-1.0, 1.0], pickDraw).value, RandomFloat(-1.0, 1.0, floatDraw));
    LengthZeroIff(v, sqrt);
    v.Normalize(sqrt)
  }

  /**
   * A serve direction is a unit vector with a non-zero x, so the ball system can re-aim it
   * off a paddle, and it is no steeper than 45 degrees.
   */
  lemma RandomDirectionAims(pickDraw: real, floatDraw: real, sqrt: real -> real)
    requires IsDraw(pickDraw) && IsDraw(floatDraw) && IsSqrt(sqrt)
    ensures RandomDirection(pickDraw, floatDraw, sqrt).Length(sqrt) == 1.0
    ensures RandomDirection(pickDraw, floatDraw, sqrt).x != 0.0
    ensures Aiming(RandomDirection(pickDraw, floatDraw, sqrt))
    ensures Abs(RandomDirection(pickDraw, floatDraw, sqrt).y) <= Abs(RandomDirection(pickDraw, floatDraw, sqrt).x)
  {
    PickRandomNonEmpty([-1.0, 1.0], pickDraw);
    var x := PickRandom([-1.0, 1.0], pickDraw).value;
    assert x == 1.0 || x == -1.0;
    var y := RandomFloat(-1.0, 1.0, floatDraw);
    RandomFloatInRange(-1.0, 1.0, floatDraw);
    var v := V2(x, y);
    LengthZeroIff(v, sqrt);
    NormalizeIsUnit(v, sqrt);
    LengthSquared(v, sqrt);
    UnitQuotients(x, y, v.Length(sqrt));
  }

  /** Over a positive length, a coordinate of magnitude 1 stays non-zero and dominates one in [-1, 1]. */
  lemma UnitQuotients(x: real, y: real, l: real)
    requires (x == 1.0 || x == -1.0) && -1.0 <= y <= 1.0 && 0.0 < l
    ensures x / l != 0.0 && Abs(y / l) <= Abs(x / l)
  {
    var r := 1.0 / l;
    PositiveInverse(l);
    DivideIsMultiply(x, l);
    DivideIsMultiply(y, l);
    NonNegativeProduct(1.0 - y, r);
    NonNegativeProduct(1.0 + y, r);
    assert (1.0 - y) * r == r - y * r;
    assert (1.0 + y) * r == r + y * r;
  }

  lemma DivideIsMultiply(a: real, l: real)
    requires l != 0.0
    ensures a / l == a * (1.0 / l)
  {
  }

  lemma PositiveInverse(l: real)
    requires 0.0 < l
    ensures 0.0 < 1.0 / l
  {
  }

  /**
   * The ball timer's TIMEOUT handler as written: the two position assignments go to copies,
   * so the position stays; the ball gets the serve speed and a random direction.
   * `positionDraw` is the draw `randomInteger(200, viewport.y - 200)` consumes.
   */
  method BallTimeout(w: GameWorld, ball: Entity, positionDraw: real, pickDraw: real, floatDraw: real, sqrt: real -> real)
    requires Typed(w) && TransformOf(w, ball).Some? && BallOf(w, ball).Some?
    requires IsDraw(pickDraw) && IsSqrt(sqrt)
    modifies BallOf(w, ball).value
    ensures BallOf(w, ball).value.speed == ServeSpeed
    ensures BallOf(w, ball).value.dir == RandomDirection(pickDraw, floatDraw, sqrt)
    ensures TransformOf(w, ball).value.Position() == old(TransformOf(w, ball).value.Position())
  {
    var transform := TransformOf(w, ball).value;
    var ballData := BallOf(w, ball).value;
    var px := transform.GetPosition();
    px.SetX(ViewportWidth as real / 2.0);
    var py := transform.GetPosition();
    py.SetY(RandomInteger(200, ViewportHeight - 200, positionDraw) as real);
    ballData.speed := ServeSpeed;
    ballData.dir := RandomDirection(pickDraw, floatDraw, sqrt);
  }

  /** The TIMEOUT handler with the position written through the setter: a serve from mid-court. */
  method BallTimeoutFixed(w: GameWorld, ball: Entity, positionDraw: real, pickDraw: real, floatDraw: real, sqrt: real -> real)
    requires Typed(w) && TransformOf(w, ball).Some? && BallOf(w, ball).Some?
    requires IsDraw(pickDraw) && IsSqrt(sqrt)
    modifies TransformOf(w, ball).value.matrix, BallOf(w, ball).value
    ensures TransformOf(w, ball).value.Position()
            == V2(ViewportWidth as real / 2.0, RandomInteger(200, ViewportHeight - 200, positionDraw) as real)
    ensures BallOf(w, ball).value.speed == ServeSpeed
    ensures BallOf(w, ball).value.dir == RandomDirection(pickDraw, floatDraw, sqrt)
    ensures TransformOf(w, ball).value.Scale() == old(TransformOf(w, ball).value.Scale())
    ensures TransformOf(w, ball).value.Slots()
            == WithPosition(old(TransformOf(w, ball).value.Slots()), TransformOf(w, ball).value.Position())
  {
    var transform := TransformOf(w, ball).value;
    var ballData := BallOf(w, ball).value;
    var serve := new Vec2(ViewportWidth as real / 2.0, RandomInteger(200, ViewportHeight - 200, positionDraw) as real);
    transform.SetPosition(serve);
    ballData.speed := ServeSpeed;
    ballData.dir := RandomDirection(pickDraw, floatDraw, sqrt);
  }

  /** A serve's y is a whole number of pixels in [200, viewport height - 200]. */
  lemma ServeHeightInRange(positionDraw: real)
    requires IsDraw(positionDraw)
    ensures 200 <= RandomInteger(200, ViewportHeight - 200, positionDraw) <= ViewportHeight - 200
  {
    RandomIntegerInRange(200, ViewportHeight - 200, positionDraw);
  }

  // ---------------------------------------------------------------------------------
  // Registration.

  /** The update systems in the order the game registers them. */
  const UpdateRegistrations: seq<Registration<Kind, SystemName>> := [
    Registration([TimerKind], TimerSystem),
    Registration([TransformKind, PlayerTag], PlayerSystem),
    Registration([TransformKind, CpuTag], CpuSystem),
    Registration([TransformKind, BallTag], BallSystem),
    Registration([AreaKind], AreaSystem),
    Registration([], PerformanceSystem)
  ]

  /** The six `world.addUpdateSystem` calls, appended after any earlier registrations. */
  method RegisterUpdateSystems(w: GameWorld)
    modifies w
    ensures w.updateSystems == old(w.updateSystems) + UpdateRegistrations
    ensures w.id == old(w.id) && w.entities == old(w.entities) && w.components == old(w.components)
    ensures w.inputSystems == old(w.inputSystems) && w.renderSystems == old(w.renderSystems)
  {
    w.AddUpdateSystem([TimerKind], TimerSystem);
    w.AddUpdateSystem([TransformKind, PlayerTag], PlayerSystem);
    w.AddUpdateSystem([TransformKind, CpuTag], CpuSystem);
    w.AddUpdateSystem([TransformKind, BallTag], BallSystem);
    w.AddUpdateSystem([AreaKind], AreaSystem);
    w.AddUpdateSystem([], PerformanceSystem);
  }

  /** Six registrations with their storage present dispatch in order, one system after another. */
  lemma DispatchSix(r0: Registration<Kind, SystemName>, r1: Registration<Kind, SystemName>, r2: Registration<Kind, SystemName>,
                    r3: Registration<Kind, SystemName>, r4: Registration<Kind, SystemName>, r5: Registration<Kind, SystemName>,
                    ents: seq<Entity>, components: map<Kind, map<Entity, Component>>, arg: Option<real>)
    requires HasStorage(r0.componentNames, components) && HasStorage(r1.componentNames, components)
    requires HasStorage(r2.componentNames, components) && HasStorage(r3.componentNames, components)
    requires HasStorage(r4.componentNames, components) && HasStorage(r5.componentNames, components)
    ensures && Select(r0.componentNames, ents, components).Some? && Select(r1.componentNames, ents, components).Some?
            && Select(r2.componentNames, ents, components).Some? && Select(r3.componentNames, ents, components).Some?
            && Select(r4.componentNames, ents, components).Some? && Select(r5.componentNames, ents, components).Some?
    ensures !Dispatch([r0, r1, r2, r3, r4, r5], ents, components, arg).threw
    ensures Dispatch([r0, r1, r2, r3, r4, r5], ents, components, arg).calls
            == CallsOn(r0.system, Select(r0.componentNames, ents, components).value, arg)
               + CallsOn(r1.system, Select(r1.componentNames, ents, components).value, arg)
               + CallsOn(r2.system, Select(r2.componentNames, ents, components).value, arg)
               + CallsOn(r3.system, Select(r3.componentNames, ents, components).value, arg)
               + CallsOn(r4.system, Select(r4.componentNames, ents, components).value, arg)
               + CallsOn(r5.system, Select(r5.componentNames, ents, components).value, arg)
  {
    var q0: seq<Registration<Kind, SystemName>> := [];
    var q1 := [r0];
    var q2 := q1 + [r1];
    var q3 := q2 + [r2];
    var q4 := q3 + [r3];
    var q5 := q4 + [r4];
    var q6 := q5 + [r5];
    assert q6 == [r0, r1, r2, r3, r4, r5];
    ExpectedSnoc(q0, r0, ents, components, arg);
    assert q0 + [r0] == q1;
    ExpectedSnoc(q1, r1, ents, components, arg);
    ExpectedSnoc(q2, r2, ents, components, arg);
    ExpectedSnoc(q3, r3, ents, components, arg);
    ExpectedSnoc(q4, r4, ents, components, arg);
    ExpectedSnoc(q5, r5, ents, components, arg);
    var c0 := CallsOn(r0.system, Select(r0.componentNames, ents, components).value, arg);
    var c1 := CallsOn(r1.system, Select(r1.componentNames, ents, components).value, arg);
    var c2 := CallsOn(r2.system, Select(r2.componentNames, ents, components).value, arg);
    var c3 := CallsOn(r3.system, Select(r3.componentNames, ents, components).value, arg);
    var c4 := CallsOn(r4.system, Select(r4.componentNames, ents, components).value, arg);
    var c5 := CallsOn(r5.system, Select(r5.componentNames, ents, components).value, arg);
    assert Expected(q0, ents, components, arg) == [];
    assert [] + c0 == c0;
    assert Expected(q1, ents, components, arg) == c0;
    assert Expected(q6, ents, components, arg) == c0 + c1 + c2 + c3 + c4 + c5;
    DispatchCalls(q6, ents, components, arg);
  }

  /**
   * An update phase over these registrations (with storage for every kind they name) calls
   * the timer system on every timed entity, then the player system, the cpu system, the
   * ball system, the area system, and last the performance system on every entity.
   */
  lemma {:induction false} UpdateOrder(ents: seq<Entity>, components: map<Kind, map<Entity, Component>>, dt: real)
    requires forall i :: 0 <= i < |UpdateRegistrations| ==> HasStorage(UpdateRegistrations[i].componentNames, components)
    ensures !Dispatch(UpdateRegistrations, ents, components, Some(dt)).threw
    ensures && Select([TimerKind], ents, components).Some? && Select([TransformKind, PlayerTag], ents, components).Some?
            && Select([TransformKind, CpuTag], ents, components).Some? && Select([TransformKind, BallTag], ents, components).Some?
            && Select([AreaKind], ents, components).Some?
    ensures Dispatch(UpdateRegistrations, ents, components, Some(dt)).calls
            == CallsOn(TimerSystem, Select([TimerKind], ents, components).value, Some(dt))
               + CallsOn(PlayerSystem, Select([TransformKind, PlayerTag], ents, components).value, Some(dt))
               + CallsOn(CpuSystem, Select([TransformKind, CpuTag], ents, components).value, Some(dt))
               + CallsOn(BallSystem, Select([TransformKind, BallTag], ents, components).value, Some(dt))
               + CallsOn(AreaSystem, Select([AreaKind], ents, components).value, Some(dt))
               + CallsOn(PerformanceSystem, ents, Some(dt))
  {
    var r0 := Registration([TimerKind], TimerSystem);
    var r1 := Registration([TransformKind, PlayerTag], PlayerSystem);
    var r2 := Registration([TransformKind, CpuTag], CpuSystem);
    var r3 := Registration([TransformKind, BallTag], BallSystem);
    var r4 := Registration([AreaKind], AreaSystem);
    var r5 := Registration([], PerformanceSystem);
    assert UpdateRegistrations == [r0, r1, r2, r3, r4, r5];
    assert UpdateRegistrations[0] == r0 && UpdateRegistrations[1] == r1 && UpdateRegistrations[2] == r2;
    assert UpdateRegistrations[3] == r3 && UpdateRegistrations[4] == r4 && UpdateRegistrations[5] == r5;
    DispatchSix(r0, r1, r2, r3, r4, r5, ents, components, Some(dt));
    EmptyKindsSelectAll(ents, components);
  }
}
