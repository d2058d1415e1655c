/**
 * `areaSystem` (packages/engine/src/systems/area.system.ts): for every other entity with a
 * transform, an axis-aligned box test against the area's own box, and edge-triggered
 * membership: an entity that starts to overlap is added and ENTER is published, one that
 * stops overlapping is removed and EXIT is published.
 *
 * The loop is specified by two pure functions: `Checks` lists the overlap tests the loop
 * makes, and `Sweep` replays them against the membership set.
 */
module AreaSystems {
  import opened Wrappers
  import opened Numeric
  import opened Vectors
  import opened Ecs
  import opened Transforms
  import opened Areas
  import opened Components

  /** A box as the transform getters give it: (position, scale), the scale being the full size. */
  type Bounds = (V2, V2)

  /** The two overlap amounts of boxes `a` and `b`: half sizes added, minus the centre distance per axis. */
  function OverlapOf(a: Bounds, b: Bounds): V2 {
    var aHalf := a.1.Scale(0.5);
    var bHalf := b.1.Scale(0.5);
    var delta := b.0.Subtract(a.0);
    V2(aHalf.x + bHalf.x - Abs(delta.x), aHalf.y + bHalf.y - Abs(delta.y))
  }

  /** Overlap needs a strictly positive amount on both axes. */
  predicate Overlapping(a: Bounds, b: Bounds) {
    OverlapOf(a, b).x > 0.0 && OverlapOf(a, b).y > 0.0
  }

  /** The amounts, and so the test, do not depend on which box is the area. */
  lemma OverlapSymmetric(a: Bounds, b: Bounds)
    ensures OverlapOf(a, b) == OverlapOf(b, a)
    ensures Overlapping(a, b) <==> Overlapping(b, a)
  {
    assert Abs(b.0.x - a.0.x) == Abs(a.0.x - b.0.x);
    assert Abs(b.0.y - a.0.y) == Abs(a.0.y - b.0.y);
  }

  /** Boxes whose edges just touch on one axis do not overlap. */
  lemma TouchingIsNotOverlapping(a: Bounds, b: Bounds)
    requires Abs(b.0.x - a.0.x) == a.1.x * 0.5 + b.1.x * 0.5 || Abs(b.0.y - a.0.y) == a.1.y * 0.5 + b.1.y * 0.5
    ensures !Overlapping(a, b)
  {
  }

  /** One test the loop makes: the other entity and whether it overlaps the area now. */
  datatype Check = Check(entity: Entity, overlapping: bool)

  /** One pass of the loop body: the membership after it and what it publishes. */
  function Examine(members: set<Entity>, c: Check): (r: (set<Entity>, seq<AreaEvent>))
    ensures c.entity in r.0 <==> c.overlapping
    ensures forall x :: x != c.entity ==> (x in r.0 <==> x in members)
    ensures |r.1| <= 1 && forall ev :: ev in r.1 ==> ev.entity == c.entity
    ensures r.1 != [] <==> c.overlapping != (c.entity in members)
    ensures r.1 != [] ==> r.1[0].name == if c.overlapping then Enter else Exit
  {
    var was := c.entity in members;
    if c.overlapping && !was then (members + {c.entity}, [AreaEvent(Enter, c.entity)])
    else if !c.overlapping && was then (members - {c.entity}, [AreaEvent(Exit, c.entity)])
    else (members, [])
  }

  /** The loop body run for each test in turn: the final membership and all publications. */
  function Sweep(members: set<Entity>, cs: seq<Check>): (set<Entity>, seq<AreaEvent>)
    decreases |cs|
  {
    if cs == [] then (members, [])
    else
      var before := Sweep(members, cs[..|cs| - 1]);
      var after := Examine(before.0, cs[|cs| - 1]);
      (after.0, before.1 + after.1)
  }

  /** One more check runs one more pass of the loop body on the membership and publications so far. */
  lemma SweepStep(members: set<Entity>, published: seq<AreaEvent>, cs: seq<Check>, c: Check,
                  before: (set<Entity>, seq<AreaEvent>), after: (set<Entity>, seq<AreaEvent>))
    requires before == (Sweep(members, cs).0, published + Sweep(members, cs).1)
    requires after == (Examine(before.0, c).0, before.1 + Examine(before.0, c).1)
    ensures after == (Sweep(members, cs + [c]).0, published + Sweep(members, cs + [c]).1)
  {
    var s, e := Sweep(members, cs), Examine(Sweep(members, cs).0, c);
    assert (cs + [c])[..|cs + [c]| - 1] == cs;
    assert Sweep(members, cs + [c]) == (e.0, s.1 + e.1);
    assert published + (s.1 + e.1) == (published + s.1) + e.1;
  }

  /** The position of the last check of `e`, or -1 if `e` is never examined. */
  function LastCheck(cs: seq<Check>, e: Entity): (k: int)
    ensures -1 <= k < |cs|
    ensures k >= 0 ==> cs[k].entity == e
    ensures forall j :: k < j < |cs| ==> cs[j].entity != e
    decreases |cs|
  {
    if cs == [] then -1
    else if cs[|cs| - 1].entity == e then |cs| - 1
    else LastCheck(cs[..|cs| - 1], e)
  }

  ghost predicate Distinct(cs: seq<Check>) {
    forall i, j :: 0 <= i < j < |cs| ==> cs[i].entity != cs[j].entity
  }

  /** The publications that name `e`, in order. */
  function EventsAbout(evs: seq<AreaEvent>, e: Entity): seq<AreaEvent>
    decreases |evs|
  {
    if evs == [] then []
    else EventsAbout(evs[..|evs| - 1], e) + if evs[|evs| - 1].entity == e then [evs[|evs| - 1]] else []
  }

  lemma {:induction false} EventsAboutAppend(a: seq<AreaEvent>, b: seq<AreaEvent>, e: Entity)
    ensures EventsAbout(a + b, e) == EventsAbout(a, e) + EventsAbout(b, e)
    decreases |b|
  {
    if b != [] {
      var init, last := b[..|b| - 1], b[|b| - 1];
      assert (a + b)[..|a + b| - 1] == a + init;
      assert (a + b)[|a + b| - 1] == last;
      EventsAboutAppend(a, init, e);
    } else {
      assert a + b == a;
    }
  }

  /** Publications about other entities only: none of them names `e`. */
  lemma {:induction false} EventsAboutNone(evs: seq<AreaEvent>, e: Entity)
    requires forall ev :: ev in evs ==> ev.entity != e
    ensures EventsAbout(evs, e) == []
    decreases |evs|
  {
    if evs != [] {
      EventsAboutNone(evs[..|evs| - 1], e);
    }
  }

  /** Publications all about `e` are kept whole. */
  lemma {:induction false} EventsAboutAll(evs: seq<AreaEvent>, e: Entity)
    requires forall ev :: ev in evs ==> ev.entity == e
    ensures EventsAbout(evs, e) == evs
    decreases |evs|
  {
    if evs != [] {
      EventsAboutAll(evs[..|evs| - 1], e);
    }
  }

  /** After the sweep, `e` is a member exactly when its last check overlapped, or it was never examined and was a member before. */
  lemma {:induction false} SweepMembership(members: set<Entity>, cs: seq<Check>, e: Entity)
    ensures e in Sweep(members, cs).0 <==>
            if LastCheck(cs, e) < 0 then e in members else cs[LastCheck(cs, e)].overlapping
    decreases |cs|
  {
    if cs != [] && cs[|cs| - 1].entity != e {
      SweepMembership(members, cs[..|cs| - 1], e);
    }
  }

  /**
   * With each entity examined once, the sweep publishes about `e` exactly what one pass of the
   * loop body publishes from the starting membership: one ENTER on a new overlap, one EXIT on
   * a lost one, and nothing when the status is unchanged or `e` is not examined.
   */
  lemma {:induction false} SweepEvents(members: set<Entity>, cs: seq<Check>, e: Entity)
    requires Distinct(cs)
    ensures EventsAbout(Sweep(members, cs).1, e) ==
            if LastCheck(cs, e) < 0 then [] else Examine(members, cs[LastCheck(cs, e)]).1
    decreases |cs|
  {
    if cs != [] {
      var init, c := cs[..|cs| - 1], cs[|cs| - 1];
      var before := Sweep(members, init);
      var after := Examine(before.0, c);
      assert Distinct(init);
      SweepEvents(members, init, e);
      EventsAboutAppend(before.1, after.1, e);
      if c.entity == e {
        SweepMembership(members, init, e);
        EventsAboutAll(after.1, e);
        assert Examine(before.0, c).1 == Examine(members, c).1;
      } else {
        EventsAboutNone(after.1, e);
      }
    }
  }

  /** `getEntitiesWithComponents([TransformComponent.name])`: every entity with a transform. */
  function WithTransform(w: GameWorld): (es: seq<Entity>)
    reads w
    requires Typed(w) && TransformKind in w.components
    ensures forall e :: e in es <==> e in w.entities && TransformOf(w, e).Some?
  {
    SelectNoThrow([TransformKind], w.entities, w.components);
    SelectMembers([TransformKind], w.entities, w.components);
    SingleKind(TransformKind, w.components);
    w.GetEntitiesWithComponents([TransformKind]).value
  }

  lemma SingleKind<K, C>(k: K, components: map<K, map<Entity, C>>)
    ensures forall e :: HasAll([k], components, e) <==> k in components && e in components[k]
  {
    forall e | k in components && e in components[k]
      ensures HasAll([k], components, e)
    {
      assert forall n :: 0 <= n < |[k]| ==> [k][n] == k;
    }
    forall e | HasAll([k], components, e)
      ensures k in components && e in components[k]
    {
      assert [k][0] == k;
    }
  }

  /** … listed in creation order, so each at most once. */
  lemma WithTransformOrdered(w: GameWorld)
    requires w.Valid() && Typed(w) && TransformKind in w.components
    ensures StrictlyIncreasing(WithTransform(w))
  {
    assert StrictlyIncreasing(w.entities);
    SelectNoThrow([TransformKind], w.entities, w.components);
    SelectOrdered([TransformKind], w.entities, w.components);
  }

  /** The tests the loop makes against the area entity `self`, for the entities `es` in order, skipping `self`. */
  function Checks(w: GameWorld, self: Entity, es: seq<Entity>): (cs: seq<Check>)
    reads w, Geometry(w)
    requires Typed(w) && TransformOf(w, self).Some?
    requires forall e :: e in es ==> TransformOf(w, e).Some?
    ensures forall c :: c in cs ==> c.entity in es && c.entity != self
    decreases |es|
  {
    if es == [] then []
    else
      var init := Checks(w, self, es[..|es| - 1]);
      var e := es[|es| - 1];
      if e == self then init else init + [Check(e, Overlapping(Box(w, self), Box(w, e)))]
  }

  /** Every listed entity other than `self` is examined, and its check is the current overlap with the area. */
  lemma {:induction false} ChecksCover(w: GameWorld, self: Entity, es: seq<Entity>, e: Entity)
    requires Typed(w) && TransformOf(w, self).Some?
    requires forall x :: x in es ==> TransformOf(w, x).Some?
    ensures LastCheck(Checks(w, self, es), e) >= 0 <==> e in es && e != self
    ensures LastCheck(Checks(w, self, es), e) >= 0 ==>
            Checks(w, self, es)[LastCheck(Checks(w, self, es), e)].overlapping == Overlapping(Box(w, self), Box(w, e))
    decreases |es|
  {
    if es != [] {
      var init, x := es[..|es| - 1], es[|es| - 1];
      assert es == init + [x];
      ChecksCover(w, self, init, e);
    }
  }

  /** Tests follow the order of `es`, so strictly increasing entities are examined once each. */
  lemma {:induction false} ChecksDistinct(w: GameWorld, self: Entity, es: seq<Entity>)
    requires Typed(w) && TransformOf(w, self).Some?
    requires forall x :: x in es ==> TransformOf(w, x).Some?
    requires StrictlyIncreasing(es)
    ensures Distinct(Checks(w, self, es))
    decreases |es|
  {
    if es != [] {
      var init, x := es[..|es| - 1], es[|es| - 1];
      assert StrictlyIncreasing(init);
      ChecksDistinct(w, self, init);
      var cs := Checks(w, self, init);
      forall c | c in cs
        ensures c.entity < x
      {
        var k :| 0 <= k < |init| && init[k] == c.entity;
        assert es[k] == c.entity;
      }
    }
  }

  /**
   * What one run of the area system means, from membership `members` before it: every other
   * entity with a transform is a member exactly when it overlaps the area, the area entity and
   * entities without a transform keep their status, and the publications about an entity are
   * one ENTER when it starts to overlap, one EXIT when it stops, and none otherwise.
   */
  lemma AreaSystemMeaning(w: GameWorld, self: Entity, members: set<Entity>, e: Entity)
    requires w.Valid() && Typed(w) && TransformOf(w, self).Some?
    ensures var r := Sweep(members, Checks(w, self, WithTransform(w)));
      && (e in WithTransform(w) && e != self ==> (e in r.0 <==> Overlapping(Box(w, self), Box(w, e))))
      && (e !in WithTransform(w) || e == self ==> (e in r.0 <==> e in members))
      && EventsAbout(r.1, e) ==
         if e in WithTransform(w) && e != self && Overlapping(Box(w, self), Box(w, e)) && e !in members then [AreaEvent(Enter, e)]
         else if e in WithTransform(w) && e != self && !Overlapping(Box(w, self), Box(w, e)) && e in members then [AreaEvent(Exit, e)]
         else []
  {
    var es := WithTransform(w);
    var cs := Checks(w, self, es);
    ChecksCover(w, self, es, e);
    WithTransformOrdered(w);
    ChecksDistinct(w, self, es);
    SweepMembership(members, cs, e);
    SweepEvents(members, cs, e);
  }

  /** `areaSystem(world, entity, dt)`: the loop over the entities with a transform. */
  method AreaSystemRun(w: GameWorld, entity: Entity, deltaTimeInSeconds: real)
    requires Typed(w) && AreaOf(w, entity).Some? && TransformOf(w, entity).Some?
    modifies AreaOf(w, entity).value, AreaOf(w, entity).value.overlappingEntities
    ensures AreaOf(w, entity).value.overlappingEntities.elems
            == Sweep(old(AreaOf(w, entity).value.overlappingEntities.elems), old(Checks(w, entity, WithTransform(w)))).0
    ensures AreaOf(w, entity).value.published
            == old(AreaOf(w, entity).value.published) + Sweep(old(AreaOf(w, entity).value.overlappingEntities.elems), old(Checks(w, entity, WithTransform(w)))).1
    ensures AreaOf(w, entity).value.subscriptions == old(AreaOf(w, entity).value.subscriptions)
  {
    var area := AreaOf(w, entity).value;
    var areaTransform := TransformOf(w, entity).value;
    var areaHalfSize := areaTransform.Scale().Scale(0.5);
    var es := WithTransform(w);
    ghost var members0 := area.overlappingEntities.elems;
    ghost var published0 := area.published;
    ghost var cs: seq<Check> := [];
    for i := 0 to |es|
      invariant cs == old(Checks(w, entity, es[..i]))
      invariant area.overlappingEntities.elems == Sweep(members0, cs).0
      invariant area.published == published0 + Sweep(members0, cs).1
      invariant area.subscriptions == old(area.subscriptions)
    {
      assert es[..i + 1][..i] == es[..i];
      var otherEntity := es[i];
      if otherEntity != entity {
        ghost var c := Check(otherEntity, old(Overlapping(Box(w, entity), Box(w, otherEntity))));
        assert c == Check(otherEntity, Overlapping(Box(w, entity), Box(w, otherEntity)));
        ghost var before := (area.overlappingEntities.elems, area.published);
        ExamineOther(w, entity, otherEntity, area, areaTransform, areaHalfSize, c);
        SweepStep(members0, published0, cs, c, before, (area.overlappingEntities.elems, area.published));
        cs := cs + [c];
      }
    }
    assert es[..|es|] == es;
  }

  /** The loop body for one other entity: the box test, then at most one membership change and publication. */
  method ExamineOther(w: GameWorld, entity: Entity, otherEntity: Entity, area: Area, areaTransform: Transform, areaHalfSize: V2, ghost c: Check)
    requires Typed(w) && TransformOf(w, entity) == Some(areaTransform) && TransformOf(w, otherEntity).Some?
    requires areaHalfSize == areaTransform.Scale().Scale(0.5)
    requires c == Check(otherEntity, Overlapping(Box(w, entity), Box(w, otherEntity)))
    modifies area, area.overlappingEntities
    ensures area.overlappingEntities.elems == Examine(old(area.overlappingEntities.elems), c).0
    ensures area.published == old(area.published) + Examine(old(area.overlappingEntities.elems), c).1
    ensures area.subscriptions == old(area.subscriptions)
  {
    var otherTransform := TransformOf(w, otherEntity).value;
    var otherHalfSize := otherTransform.Scale().Scale(0.5);
    var delta := otherTransform.Position().Subtract(areaTransform.Position());
    var overlapX := areaHalfSize.x + otherHalfSize.x - Abs(delta.x);
    var overlapY := areaHalfSize.y + otherHalfSize.y - Abs(delta.y);
    var isOverlapping := overlapX > 0.0 && overlapY > 0.0;
    assert isOverlapping == Overlapping(Box(w, entity), Box(w, otherEntity));
    var wasOverlapping := area.IsOverlapping(otherEntity);
    if isOverlapping && !wasOverlapping {
      area.AddOverlappingEntity(otherEntity);
      area.Publish(Enter, otherEntity);
    } else if !isOverlapping && wasOverlapping {
      area.RemoveOverlappingEntity(otherEntity);
      area.Publish(Exit, otherEntity);
    }
  }
}
