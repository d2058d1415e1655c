/**
 * The concrete world the engine's systems and prefabs work on: component kinds are the
 * component class names (`TransformComponent.name`, …) and the game's tags, and a
 * stored component is one of the engine's component objects.
 *
 * `getComponent<T>(entity, name)` is a cast in the source; `Typed` states the convention
 * every caller relies on, that the component stored under a kind is of that kind's class.
 */
module Components {
  import opened Wrappers
  import opened Ecs
  import opened Vectors
  import opened Colors
  import opened Transforms
  import opened Areas
  import opened Timers
  import opened Labels

  /**
   * The keys components are stored under: the component class names (`TransformComponent.name`,
   * …) and the pong game's tags (`./tags`, which is not part of this model). Only their
   * distinctness matters, so they are an enumeration here rather than strings.
   */
  datatype Kind =
    | TransformKind | AreaKind | TimerKind | LabelKind | MeshKind | MaterialKind
    | RectangleKind | CircleKind | VelocityKind
    | BallTag | ColliderTag | PlayerTag | CpuTag

  /** `MeshComponent(geometryId, vertexData, indexData)` (`./mesh.component`, which is not part of this model). */
  datatype Mesh = Mesh(geometryId: string, vertexData: array<real>, indexData: array<int>)

  /** `MaterialComponent(color)` (`./material.component`, which is not part of this model), with its texture id. */
  class Material {
    const color: Color
    var textureId: Option<string>

    constructor (color0: Color)
      ensures color == color0 && textureId == None
    {
      color := color0;
      textureId := None;
    }
  }

  /** `RectangleComponent(width, height, color)`. */
  datatype Rectangle = Rectangle(width: real, height: real, color: Color)

  /** `CircleComponent(radius, color)`; its shared geometry is in module `Meshes`. */
  datatype Circle = Circle(radius: real, color: Color)

  /** `VelocityComponent(value)`, in pixels per second; the vector object can be changed in place. */
  class Velocity {
    var value: Vec2

    constructor (value0: Vec2)
      ensures value == value0
    {
      value := value0;
    }
  }

  /** The pong ball's `{ speed, dir }` record. */
  class BallData {
    var speed: real
    var dir: V2

    constructor (speed0: real, dir0: V2)
      ensures speed == speed0 && dir == dir0
    {
      speed, dir := speed0, dir0;
    }
  }

  datatype Component =
    | TransformC(transform: Transform)
    | AreaC(area: Area)
    | TimerC(timer: Timer)
    | LabelC(labelComponent: Label)
    | MeshC(mesh: Mesh)
    | MaterialC(material: Material)
    | RectangleC(rectangle: Rectangle)
    | CircleC(circle: Circle)
    | VelocityC(velocity: Velocity)
    | BallC(ball: BallData)
    | TagC

  /** The systems registered by the two games. */
  datatype SystemName =
    | TimerSystem | PlayerSystem | CpuSystem | BallSystem | AreaSystem | PerformanceSystem
    | LabelSystem | RenderSystem | BoundarySystem

  type GameWorld = World<Kind, Component, SystemName>

  /** A component stored under kind `k` is of that kind's class. */
  ghost predicate Fits(k: Kind, c: Component) {
    && (k == TransformKind ==> c.TransformC? && c.transform.Valid())
    && (k == AreaKind ==> c.AreaC?)
    && (k == TimerKind ==> c.TimerC?)
    && (k == LabelKind ==> c.LabelC?)
    && (k == MeshKind ==> c.MeshC?)
    && (k == MaterialKind ==> c.MaterialC?)
    && (k == RectangleKind ==> c.RectangleC?)
    && (k == CircleKind ==> c.CircleC?)
    && (k == VelocityKind ==> c.VelocityC?)
    && (k == BallTag ==> c.BallC?)
  }

  ghost predicate Typed(w: GameWorld)
    reads w
  {
    forall k, e :: k in w.components && e in w.components[k] ==> Fits(k, w.components[k][e])
  }

  /** The entity's transform, if it has one. */
  function TransformOf(w: GameWorld, e: Entity): (t: Option<Transform>)
    reads w
    requires Typed(w)
    ensures t.Some? <==> w.GetComponent(e, TransformKind).Some?
    ensures t.Some? ==> t.value.Valid() && w.GetComponent(e, TransformKind) == Some(TransformC(t.value))
  {
    match w.GetComponent(e, TransformKind)
    case Some(c) => Some(c.transform)
    case None => None
  }

  /** The entity's area component, if it has one. */
  function AreaOf(w: GameWorld, e: Entity): (a: Option<Area>)
    reads w
    requires Typed(w)
    ensures a.Some? <==> w.GetComponent(e, AreaKind).Some?
    ensures a.Some? ==> w.GetComponent(e, AreaKind) == Some(AreaC(a.value))
  {
    match w.GetComponent(e, AreaKind)
    case Some(c) => Some(c.area)
    case None => None
  }

  /** The entity's ball record, stored under the ball tag, if it has one. */
  function BallOf(w: GameWorld, e: Entity): (r: Option<BallData>)
    reads w
    requires Typed(w)
    ensures r.Some? <==> w.GetComponent(e, BallTag).Some?
    ensures r.Some? ==> w.GetComponent(e, BallTag) == Some(BallC(r.value))
  {
    match w.GetComponent(e, BallTag)
    case Some(c) => Some(c.ball)
    case None => None
  }

  /** The entity's timer, if it has one. */
  function TimerOf(w: GameWorld, e: Entity): (r: Option<Timer>)
    reads w
    requires Typed(w)
    ensures r.Some? <==> w.GetComponent(e, TimerKind).Some?
    ensures r.Some? ==> w.GetComponent(e, TimerKind) == Some(TimerC(r.value))
  {
    match w.GetComponent(e, TimerKind)
    case Some(c) => Some(c.timer)
    case None => None
  }

  /** The entity's label, if it has one. */
  function LabelOf(w: GameWorld, e: Entity): (r: Option<Label>)
    reads w
    requires Typed(w)
    ensures r.Some? <==> w.GetComponent(e, LabelKind).Some?
    ensures r.Some? ==> w.GetComponent(e, LabelKind) == Some(LabelC(r.value))
  {
    match w.GetComponent(e, LabelKind)
    case Some(c) => Some(c.labelComponent)
    case None => None
  }

  /** The entity's material, if it has one. */
  function MaterialOf(w: GameWorld, e: Entity): (r: Option<Material>)
    reads w
    requires Typed(w)
    ensures r.Some? <==> w.GetComponent(e, MaterialKind).Some?
    ensures r.Some? ==> w.GetComponent(e, MaterialKind) == Some(MaterialC(r.value))
  {
    match w.GetComponent(e, MaterialKind)
    case Some(c) => Some(c.material)
    case None => None
  }

  /** The entity's velocity, if it has one. */
  function VelocityOf(w: GameWorld, e: Entity): (r: Option<Velocity>)
    reads w
    requires Typed(w)
    ensures r.Some? <==> w.GetComponent(e, VelocityKind).Some?
    ensures r.Some? ==> w.GetComponent(e, VelocityKind) == Some(VelocityC(r.value))
  {
    match w.GetComponent(e, VelocityKind)
    case Some(c) => Some(c.velocity)
    case None => None
  }

  /** The entity's rectangle data, if it has one. */
  function RectangleOf(w: GameWorld, e: Entity): (r: Option<Rectangle>)
    reads w
    requires Typed(w)
    ensures r.Some? <==> w.GetComponent(e, RectangleKind).Some?
    ensures r.Some? ==> w.GetComponent(e, RectangleKind) == Some(RectangleC(r.value))
  {
    match w.GetComponent(e, RectangleKind)
    case Some(c) => Some(c.rectangle)
    case None => None
  }

  /** The entity's circle data, if it has one. */
  function CircleOf(w: GameWorld, e: Entity): (r: Option<Circle>)
    reads w
    requires Typed(w)
    ensures r.Some? <==> w.GetComponent(e, CircleKind).Some?
    ensures r.Some? ==> w.GetComponent(e, CircleKind) == Some(CircleC(r.value))
  {
    match w.GetComponent(e, CircleKind)
    case Some(c) => Some(c.circle)
    case None => None
  }

  /** The matrices of every stored transform: what a function of the world's geometry reads. */
  ghost function Geometry(w: GameWorld): set<object>
    reads w
  {
    var storage := if TransformKind in w.components then w.components[TransformKind] else map[];
    set e | e in storage && storage[e].TransformC? :: storage[e].transform.matrix
  }

  /** An entity's position and scale as its transform getters return them. */
  function Box(w: GameWorld, e: Entity): (V2, V2)
    reads w, Geometry(w)
    requires Typed(w) && TransformOf(w, e).Some?
  {
    var t := TransformOf(w, e).value;
    (t.Position(), t.Scale())
  }
}
