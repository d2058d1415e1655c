/**
 * The entity builders of packages/engine/src/prefabs: `createRectangle`, `createCircle` and
 * `createLabel`, and the buffers the first two share between every entity they build.
 *
 * Each builder makes a default transform and then calls `transform.scale.set(..)`. The
 * scale getter returns a copy, so that call changes the copy only: the stored scale stays
 * the one the constructor leaves, (cos 0, cos 0). The builders below keep that behaviour;
 * `CreateRectangleScaled` and `CreateCircleScaled` store the requested scale instead.
 */
module Prefabs {
  import opened Wrappers
  import opened Numeric
  import opened Vectors
  import opened Colors
  import opened Ecs
  import opened Transforms
  import opened Labels
  import opened Components
  import opened Meshes

  /** `new Color(255, 255, 255, 1)`, the builders' default colour. */
  const White: Color := Color(255.0, 255.0, 255.0, 1.0)

  /** The segment count of the circle prefab's shared fan. */
  const CircleSegments: nat := 32

  /** The module-level buffers of the two prefab files, built once when the modules load. */
  class PrefabMeshes {
    const quadVertices: array<real>
    const quadIndices: array<int>
    const circleVertices: array<real>
    const circleIndices: array<int>

    ghost predicate Valid(fns: MathFns)
      reads quadVertices, quadIndices, circleVertices, circleIndices
    {
      && quadVertices[..] == QuadVertices && quadIndices[..] == QuadIndices
      && circleVertices[..] == FanVertices(CircleSegments + 1, CircleSegments, fns)
      && circleIndices[..] == FanIndices(CircleSegments)
    }

    constructor (fns: MathFns)
      ensures Valid(fns)
    {
      quadVertices := new real[8] [-0.5, -0.5, 0.5, -0.5, 0.5, 0.5, -0.5, 0.5];
      quadIndices := new int[6] [0, 1, 2, 2, 3, 0];
      var vertexData, indexData := GenerateCircleGeometry(CircleSegments, fns);
      circleVertices, circleIndices := vertexData, indexData;
    }
  }

  /** `world.addComponent` with a component of the kind's class: the world stays typed. */
  method AddTyped(w: GameWorld, entity: Entity, k: Kind, c: Component)
    requires w.Valid() && Typed(w) && Fits(k, c)
    modifies w
    ensures w.Valid() && Typed(w)
    ensures w.components == Attach(old(w.components), entity, k, c)
    ensures w.id == old(w.id) && w.entities == old(w.entities)
    ensures w.inputSystems == old(w.inputSystems) && w.updateSystems == old(w.updateSystems)
    ensures w.renderSystems == old(w.renderSystems)
  {
    w.AddComponent(entity, k, c);
    forall k', e' | k' in w.components && e' in w.components[k']
      ensures Fits(k', w.components[k'][e'])
    {
      LookupAttach(old(w.components), entity, k, c, e', k');
    }
  }

  /** Attaching to one entity leaves every other entity's components as they were. */
  lemma AttachElsewhere(components: map<Kind, map<Entity, Component>>, entity: Entity, k: Kind, c: Component)
    ensures forall e, k' :: e != entity ==> Lookup(Attach(components, entity, k, c), e, k') == Lookup(components, e, k')
  {
  }

  /** The three attachments of a shape builder leave every other entity's components as they were. */
  lemma ShapeElsewhere(components: map<Kind, map<Entity, Component>>, entity: Entity, t: Component, m: Component, material: Component)
    ensures forall e, k :: e != entity ==>
      Lookup(Attach(Attach(Attach(components, entity, TransformKind, t), entity, MeshKind, m), entity, MaterialKind, material), e, k)
      == Lookup(components, e, k)
  {
    AttachElsewhere(components, entity, TransformKind, t);
    AttachElsewhere(Attach(components, entity, TransformKind, t), entity, MeshKind, m);
    AttachElsewhere(Attach(Attach(components, entity, TransformKind, t), entity, MeshKind, m), entity, MaterialKind, material);
  }

  /** After the three attachments of a shape builder the entity reads back each of them. */
  lemma ShapeLookup(components: map<Kind, map<Entity, Component>>, entity: Entity, t: Component, m: Component, material: Component)
    ensures var shape := Attach(Attach(Attach(components, entity, TransformKind, t), entity, MeshKind, m), entity, MaterialKind, material);
      && Lookup(shape, entity, TransformKind) == Some(t) && Lookup(shape, entity, MeshKind) == Some(m)
      && Lookup(shape, entity, MaterialKind) == Some(material)
  {
  }

  /** Attaches the transform, a mesh of the given geometry and a new material of that colour. */
  method AttachShape(w: GameWorld, entity: Entity, transform: Transform, geometryId: string,
                     vertexData: array<real>, indexData: array<int>, color: Color)
      returns (material: Material)
    requires w.Valid() && Typed(w) && transform.Valid()
    modifies w
    ensures w.Valid() && Typed(w) && fresh(material)
    ensures material.color == color && material.textureId == None
    ensures w.components
            == Attach(Attach(Attach(old(w.components), entity, TransformKind, TransformC(transform)),
                             entity, MeshKind, MeshC(Mesh(geometryId, vertexData, indexData))),
                      entity, MaterialKind, MaterialC(material))
    ensures w.id == old(w.id) && w.entities == old(w.entities)
    ensures w.inputSystems == old(w.inputSystems) && w.updateSystems == old(w.updateSystems)
    ensures w.renderSystems == old(w.renderSystems)
  {
    AddTyped(w, entity, TransformKind, TransformC(transform));
    AddTyped(w, entity, MeshKind, MeshC(Mesh(geometryId, vertexData, indexData)));
    material := new Material(color);
    AddTyped(w, entity, MaterialKind, MaterialC(material));
  }

  /** The transform after `transform.scale.set(..)` on a copy and `transform.position = position`. */
  method PositionedTransform(position: V2, fns: MathFns, lostScale: V2) returns (transform: Transform)
    ensures transform.Valid() && fresh(transform) && fresh(transform.matrix)
    ensures transform.Position() == position
    ensures transform.Scale() == V2(fns.cos(0.0), fns.cos(0.0))
  {
    var origin := new Vec2(0.0, 0.0);
    var unit := new Vec2(1.0, 1.0);
    transform := new Transform(origin, unit, 0.0, fns);
    InitialDiscardsScale(origin.Value(), unit.Value(), 0.0, fns);
    var scaleCopy := transform.GetScale();
    scaleCopy.Set(lostScale.x, lostScale.y);
    var p := new Vec2(position.x, position.y);
    transform.SetPosition(p);
  }

  /**
   * `createRectangle(world, size = (1, 1), color = white, position = (0, 0))`: a new entity
   * with a transform at `position`, the shared quad mesh and a material of that colour; the
   * stored scale is (cos 0, cos 0) whatever `size` is.
   */
  method CreateRectangle(w: GameWorld, meshes: PrefabMeshes, fns: MathFns,
                         size: V2 := V2(1.0, 1.0), color: Color := White, position: V2 := V2(0.0, 0.0))
      returns (entity: Entity)
    requires w.Valid() && Typed(w)
    modifies w
    ensures w.Valid() && Typed(w)
    ensures entity == old(w.id) && w.entities == old(w.entities) + [entity]
    ensures TransformOf(w, entity).Some? && MaterialOf(w, entity).Some?
    ensures fresh(TransformOf(w, entity).value.matrix) && fresh(MaterialOf(w, entity).value)
    ensures w.components
            == Attach(Attach(Attach(old(w.components), entity, TransformKind, TransformC(TransformOf(w, entity).value)),
                             entity, MeshKind, MeshC(Mesh("rectangle", meshes.quadVertices, meshes.quadIndices))),
                      entity, MaterialKind, MaterialC(MaterialOf(w, entity).value))
    ensures TransformOf(w, entity).value.Position() == position
    ensures TransformOf(w, entity).value.Scale() == V2(fns.cos(0.0), fns.cos(0.0))
    ensures MaterialOf(w, entity).value.color == color && MaterialOf(w, entity).value.textureId == None
    ensures w.inputSystems == old(w.inputSystems) && w.updateSystems == old(w.updateSystems)
    ensures w.renderSystems == old(w.renderSystems)
  {
    entity := w.AddEntity();
    var transform := PositionedTransform(position, fns, size);
    ghost var start := w.components;
    var material := AttachShape(w, entity, transform, "rectangle", meshes.quadVertices, meshes.quadIndices, color);
    ShapeLookup(start, entity, TransformC(transform), MeshC(Mesh("rectangle", meshes.quadVertices, meshes.quadIndices)), MaterialC(material));
  }

  /** `createRectangle` with the scale stored through the setter, `transform.scale = size`. */
  method CreateRectangleScaled(w: GameWorld, meshes: PrefabMeshes, fns: MathFns,
                               size: V2 := V2(1.0, 1.0), color: Color := White, position: V2 := V2(0.0, 0.0))
      returns (entity: Entity)
    requires w.Valid() && Typed(w)
    modifies w
    ensures w.Valid() && Typed(w)
    ensures entity == old(w.id) && w.entities == old(w.entities) + [entity]
    ensures TransformOf(w, entity).Some? && MaterialOf(w, entity).Some?
    ensures fresh(TransformOf(w, entity).value.matrix) && fresh(MaterialOf(w, entity).value)
    ensures w.components
            == Attach(Attach(Attach(old(w.components), entity, TransformKind, TransformC(TransformOf(w, entity).value)),
                             entity, MeshKind, MeshC(Mesh("rectangle", meshes.quadVertices, meshes.quadIndices))),
                      entity, MaterialKind, MaterialC(MaterialOf(w, entity).value))
    ensures TransformOf(w, entity).value.Position() == position
    ensures TransformOf(w, entity).value.Scale() == size
    ensures w.GetComponent(entity, MeshKind) == Some(MeshC(Mesh("rectangle", meshes.quadVertices, meshes.quadIndices)))
    ensures MaterialOf(w, entity).value.color == color && MaterialOf(w, entity).value.textureId == None
    ensures w.inputSystems == old(w.inputSystems) && w.updateSystems == old(w.updateSystems)
    ensures w.renderSystems == old(w.renderSystems)
  {
    entity := w.AddEntity();
    var transform := PositionedTransform(position, fns, size);
    var s := new Vec2(size.x, size.y);
    transform.SetScale(s);
    ghost var start := w.components;
    var material := AttachShape(w, entity, transform, "rectangle", meshes.quadVertices, meshes.quadIndices, color);
    ShapeLookup(start, entity, TransformC(transform), MeshC(Mesh("rectangle", meshes.quadVertices, meshes.quadIndices)), MaterialC(material));
  }

  /**
   * `createCircle(world, radius = 1, color = white, position = (0, 0))`: like the rectangle
   * builder, with the shared 32-segment fan; the stored scale ignores `radius`.
   */
  method CreateCircle(w: GameWorld, meshes: PrefabMeshes, fns: MathFns,
                      radius: real := 1.0, color: Color := White, position: V2 := V2(0.0, 0.0))
      returns (entity: Entity)
    requires w.Valid() && Typed(w)
    modifies w
    ensures w.Valid() && Typed(w)
    ensures entity == old(w.id) && w.entities == old(w.entities) + [entity]
    ensures TransformOf(w, entity).Some? && MaterialOf(w, entity).Some?
    ensures w.components
            == Attach(Attach(Attach(old(w.components), entity, TransformKind, TransformC(TransformOf(w, entity).value)),
                             entity, MeshKind, MeshC(Mesh(CircleGeometryId, meshes.circleVertices, meshes.circleIndices))),
                      entity, MaterialKind, MaterialC(MaterialOf(w, entity).value))
    ensures TransformOf(w, entity).value.Position() == position
    ensures TransformOf(w, entity).value.Scale() == V2(fns.cos(0.0), fns.cos(0.0))
    ensures MaterialOf(w, entity).value.color == color && MaterialOf(w, entity).value.textureId == None
    ensures w.inputSystems == old(w.inputSystems) && w.updateSystems == old(w.updateSystems)
    ensures w.renderSystems == old(w.renderSystems)
  {
    entity := w.AddEntity();
    var transform := PositionedTransform(position, fns, V2(radius, radius));
    ghost var start := w.components;
    var material := AttachShape(w, entity, transform, CircleGeometryId, meshes.circleVertices, meshes.circleIndices, color);
    ShapeLookup(start, entity, TransformC(transform), MeshC(Mesh(CircleGeometryId, meshes.circleVertices, meshes.circleIndices)), MaterialC(material));
  }

  /** `createCircle` with the scale stored through the setter, `transform.scale = (radius, radius)`. */
  method CreateCircleScaled(w: GameWorld, meshes: PrefabMeshes, fns: MathFns,
                            radius: real := 1.0, color: Color := White, position: V2 := V2(0.0, 0.0))
      returns (entity: Entity)
    requires w.Valid() && Typed(w)
    modifies w
    ensures w.Valid() && Typed(w)
    ensures entity == old(w.id) && w.entities == old(w.entities) + [entity]
    ensures TransformOf(w, entity).Some? && MaterialOf(w, entity).Some?
    ensures fresh(TransformOf(w, entity).value.matrix) && fresh(MaterialOf(w, entity).value)
    ensures w.components
            == Attach(Attach(Attach(old(w.components), entity, TransformKind, TransformC(TransformOf(w, entity).value)),
                             entity, MeshKind, MeshC(Mesh(CircleGeometryId, meshes.circleVertices, meshes.circleIndices))),
                      entity, MaterialKind, MaterialC(MaterialOf(w, entity).value))
    ensures TransformOf(w, entity).value.Position() == position
    ensures TransformOf(w, entity).value.Scale() == V2(radius, radius)
    ensures w.GetComponent(entity, MeshKind) == Some(MeshC(Mesh(CircleGeometryId, meshes.circleVertices, meshes.circleIndices)))
    ensures MaterialOf(w, entity).value.color == color && MaterialOf(w, entity).value.textureId == None
    ensures w.inputSystems == old(w.inputSystems) && w.updateSystems == old(w.updateSystems)
    ensures w.renderSystems == old(w.renderSystems)
  {
    entity := w.AddEntity();
    var transform := PositionedTransform(position, fns, V2(radius, radius));
    var s := new Vec2(radius, radius);
    transform.SetScale(s);
    ghost var start := w.components;
    var material := AttachShape(w, entity, transform, CircleGeometryId, meshes.circleVertices, meshes.circleIndices, color);
    ShapeLookup(start, entity, TransformC(transform), MeshC(Mesh(CircleGeometryId, meshes.circleVertices, meshes.circleIndices)), MaterialC(material));
  }

  /** Adds the label to a rectangle entity and points the rectangle's material at the label's texture. */
  method AttachLabel(w: GameWorld, entity: Entity, labelComponent: Label, textureId: string)
    requires w.Valid() && Typed(w) && MaterialOf(w, entity).Some?
    modifies w, MaterialOf(w, entity).value
    ensures w.Valid() && Typed(w)
    ensures LabelOf(w, entity) == Some(labelComponent)
    ensures MaterialOf(w, entity) == old(MaterialOf(w, entity))
    ensures MaterialOf(w, entity).value.textureId == Some(textureId)
    ensures TransformOf(w, entity) == old(TransformOf(w, entity))
    ensures w.GetComponent(entity, MeshKind) == old(w.GetComponent(entity, MeshKind))
    ensures forall e, k :: e != entity ==> w.GetComponent(e, k) == old(w.GetComponent(e, k))
    ensures w.id == old(w.id) && w.entities == old(w.entities)
    ensures w.inputSystems == old(w.inputSystems) && w.updateSystems == old(w.updateSystems)
    ensures w.renderSystems == old(w.renderSystems)
  {
    var material := MaterialOf(w, entity).value;
    ghost var before := w.components;
    AddTyped(w, entity, LabelKind, LabelC(labelComponent));
    LookupAttach(before, entity, LabelKind, LabelC(labelComponent), entity, LabelKind);
    LookupAttach(before, entity, LabelKind, LabelC(labelComponent), entity, MaterialKind);
    LookupAttach(before, entity, LabelKind, LabelC(labelComponent), entity, TransformKind);
    LookupAttach(before, entity, LabelKind, LabelC(labelComponent), entity, MeshKind);
    AttachElsewhere(before, entity, LabelKind, LabelC(labelComponent));
    material.textureId := Some(textureId);
  }

  /** `new Color(0, 0, 0, 1)`, the label's default font colour. */
  const Black: Color := Color(0.0, 0.0, 0.0, 1.0)

  /**
   * `createLabel(world, text, fontSize = 16, fontFamily = "monospace", fontColor = black,
   * size = (200, 100), position = (0, 0))`: a white rectangle carrying a label, whose
   * material's texture id is the entity's decimal string. `fractional` is the host's
   * formatting of non-integral numbers.
   */
  method CreateLabel(w: GameWorld, meshes: PrefabMeshes, fns: MathFns, fractional: real -> string, text: string,
                     fontSize: real := 16.0, fontFamily: string := "monospace", fontColor: Color := Black,
                     size: V2 := V2(200.0, 100.0), position: V2 := V2(0.0, 0.0))
      returns (entity: Entity)
    requires w.Valid() && Typed(w)
    modifies w
    ensures w.Valid() && Typed(w)
    ensures entity == old(w.id) && w.entities == old(w.entities) + [entity]
    ensures LabelOf(w, entity).Some? && fresh(LabelOf(w, entity).value)
    ensures LabelOf(w, entity).value.Properties() == Style(text, fontFamily, fontSize, fontColor.ToRGBAString(fractional))
    ensures LabelOf(w, entity).value.needsUpdate
    ensures MaterialOf(w, entity).Some? && MaterialOf(w, entity).value.color == White
    ensures MaterialOf(w, entity).value.textureId == Some(NatToString(entity))
    ensures TransformOf(w, entity).Some? && TransformOf(w, entity).value.Position() == position
    ensures w.GetComponent(entity, MeshKind) == Some(MeshC(Mesh("rectangle", meshes.quadVertices, meshes.quadIndices)))
    ensures forall e, k :: e != entity ==> w.GetComponent(e, k) == old(w.GetComponent(e, k))
    ensures w.inputSystems == old(w.inputSystems) && w.updateSystems == old(w.updateSystems)
    ensures w.renderSystems == old(w.renderSystems)
  {
    ghost var start := w.components;
    entity := CreateRectangle(w, meshes, fns, size, White, position);
    ShapeElsewhere(start, entity, TransformC(TransformOf(w, entity).value),
                   MeshC(Mesh("rectangle", meshes.quadVertices, meshes.quadIndices)), MaterialC(MaterialOf(w, entity).value));
    var labelComponent := new Label(text, fontFamily, fontSize, fontColor.ToRGBAString(fractional));
    AttachLabel(w, entity, labelComponent, NatToString(entity));
  }
}
