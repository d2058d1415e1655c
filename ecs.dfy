/**
 * The entity-component-system `World` (packages/engine/src/ecs.ts).
 *
 * Entities are sequential numbers. Components are kept per kind, in a storage created
 * lazily on the first `addComponent` of that kind. Systems are registered in three ordered
 * lists and dispatched system by system, entity by entity, on the entities that carry
 * every kind the system names. Systems themselves are opaque values of type `S`: a phase
 * dispatch is modelled by the trace of the calls it makes.
 */
module Ecs {
  import opened Wrappers

  type Entity = nat

  /** A registered system: the component kinds it needs and the system itself. */
  datatype Registration<K, S> = Registration(componentNames: seq<K>, system: S)

  /** One invocation `system(entity)` or `system(entity, arg)`. */
  datatype Call<S> = Call(system: S, entity: Entity, arg: Option<real>)

  /** The calls a phase made, and whether it ended by throwing. */
  datatype Outcome<S> = Outcome(calls: seq<Call<S>>, threw: bool)

  /**
   * `componentNames.every(name => components.get(name)!.has(entity))`, left to right:
   * the first kind without storage makes the `!` dereference throw, unless an earlier kind
   * already answered false.
   */
  datatype Test = Pass | Fail | Throw

  function Every<K, C>(names: seq<K>, components: map<K, map<Entity, C>>, e: Entity): Test
  {
    if |names| == 0 then Pass
    else if names[0] !in components then Throw
    else if e !in components[names[0]] then Fail
    else Every(names[1..], components, e)
  }

  /** Every named kind has storage, and the storage holds `e`. */
  ghost predicate HasAll<K, C>(names: seq<K>, components: map<K, map<Entity, C>>, e: Entity) {
    forall n :: 0 <= n < |names| ==> names[n] in components && e in components[names[n]]
  }

  ghost predicate HasStorage<K, C>(names: seq<K>, components: map<K, map<Entity, C>>) {
    forall n :: 0 <= n < |names| ==> names[n] in components
  }

  /** The test passes exactly when the entity has every kind; with all storage present it never throws. */
  lemma {:induction false} EveryMeaning<K, C>(names: seq<K>, components: map<K, map<Entity, C>>, e: Entity)
    ensures Every(names, components, e) == Pass <==> HasAll(names, components, e)
    ensures HasStorage(names, components) ==> Every(names, components, e) != Throw
    ensures Every(names, components, e) == Throw ==> !HasStorage(names, components)
    decreases |names|
  {
    if |names| > 0 {
      EveryMeaning(names[1..], components, e);
      if names[0] in components && e in components[names[0]] {
        assert HasAll(names, components, e) <==> HasAll(names[1..], components, e) by {
          if HasAll(names[1..], components, e) {
            forall n | 0 <= n < |names|
              ensures names[n] in components && e in components[names[n]]
            {
              if n > 0 {
                assert names[n] == names[1..][n - 1];
              }
            }
          }
          if HasAll(names, components, e) {
            forall n | 0 <= n < |names[1..]|
              ensures names[1..][n] in components && e in components[names[1..][n]]
            {
              assert names[1..][n] == names[n + 1];
            }
          }
        }
        if HasStorage(names, components) {
          assert HasStorage(names[1..], components) by {
            forall n | 0 <= n < |names[1..]|
              ensures names[1..][n] in components
            {
              assert names[1..][n] == names[n + 1];
            }
          }
        }
        if Every(names, components, e) == Throw {
          var n :| 0 <= n < |names[1..]| && names[1..][n] !in components;
          assert names[n + 1] !in components;
        }
      }
    }
  }

  /**
   * The calls one system makes over the entities `ents`, in order, stopping at the first
   * entity whose test throws.
   */
  function Visit<K, C, S>(reg: Registration<K, S>, ents: seq<Entity>, components: map<K, map<Entity, C>>, arg: Option<real>): Outcome<S>
    decreases |ents|
  {
    if |ents| == 0 then Outcome([], false)
    else
      var o := Visit(reg, ents[..|ents| - 1], components, arg);
      var e := ents[|ents| - 1];
      if o.threw then o
      else match Every(reg.componentNames, components, e)
        case Pass => Outcome(o.calls + [Call(reg.system, e, arg)], false)
        case Fail => o
        case Throw => Outcome(o.calls, true)
  }

  /** A phase: each registered system in turn visits all entities; a throw ends the phase. */
  function Dispatch<K, C, S>(regs: seq<Registration<K, S>>, ents: seq<Entity>, components: map<K, map<Entity, C>>, arg: Option<real>): Outcome<S>
    decreases |regs|
  {
    if |regs| == 0 then Outcome([], false)
    else
      var o := Dispatch(regs[..|regs| - 1], ents, components, arg);
      if o.threw then o
      else
        var v := Visit(regs[|regs| - 1], ents, components, arg);
        Outcome(o.calls + v.calls, v.threw)
  }

  /**
   * `getEntitiesWithComponents(names)`: the entities, in creation order, that carry every
   * named kind, by the same test as dispatch; `None` where that test throws.
   */
  function Select<K, C>(names: seq<K>, ents: seq<Entity>, components: map<K, map<Entity, C>>): Option<seq<Entity>>
    decreases |ents|
  {
    if |ents| == 0 then Some([])
    else
      var o := Select(names, ents[..|ents| - 1], components);
      var e := ents[|ents| - 1];
      if o.None? then None
      else match Every(names, components, e)
        case Pass => Some(o.value + [e])
        case Fail => o
        case Throw => None
  }

  /** The calls a system makes on a list of entities it accepts. */
  function CallsOn<S>(system: S, es: seq<Entity>, arg: Option<real>): (calls: seq<Call<S>>)
    ensures |calls| == |es|
    ensures forall k :: 0 <= k < |es| ==> calls[k] == Call(system, es[k], arg)
    decreases |es|
  {
    if |es| == 0 then [] else CallsOn(system, es[..|es| - 1], arg) + [Call(system, es[|es| - 1], arg)]
  }

  /** One system's visit is `getEntitiesWithComponents` followed by one call per selected entity. */
  lemma {:induction false} VisitIsSelect<K, C, S>(reg: Registration<K, S>, ents: seq<Entity>, components: map<K, map<Entity, C>>, arg: Option<real>)
    ensures Visit(reg, ents, components, arg).threw <==> Select(reg.componentNames, ents, components).None?
    ensures Select(reg.componentNames, ents, components).Some? ==>
      Visit(reg, ents, components, arg).calls == CallsOn(reg.system, Select(reg.componentNames, ents, components).value, arg)
    decreases |ents|
  {
    if |ents| > 0 {
      var front := ents[..|ents| - 1];
      VisitIsSelect(reg, front, components, arg);
      var s := Select(reg.componentNames, front, components);
      if s.Some? {
        var e := ents[|ents| - 1];
        if Every(reg.componentNames, components, e) == Pass {
          var es := s.value + [e];
          assert es[..|es| - 1] == s.value;
        }
      }
    }
  }

  /** With storage for every named kind, `getEntitiesWithComponents` does not throw. */
  lemma {:induction false} SelectNoThrow<K, C>(names: seq<K>, ents: seq<Entity>, components: map<K, map<Entity, C>>)
    requires HasStorage(names, components)
    ensures Select(names, ents, components).Some?
    decreases |ents|
  {
    if |ents| > 0 {
      SelectNoThrow(names, ents[..|ents| - 1], components);
      EveryMeaning(names, components, ents[|ents| - 1]);
    }
  }

  /** `getEntitiesWithComponents` keeps exactly the entities that have every kind. */
  lemma {:induction false} SelectMembers<K, C>(names: seq<K>, ents: seq<Entity>, components: map<K, map<Entity, C>>)
    requires Select(names, ents, components).Some?
    ensures forall e :: e in Select(names, ents, components).value <==> e in ents && HasAll(names, components, e)
    decreases |ents|
  {
    if |ents| > 0 {
      var front := ents[..|ents| - 1];
      var e := ents[|ents| - 1];
      SelectMembers(names, front, components);
      EveryMeaning(names, components, e);
      assert ents == front + [e];
    }
  }

  /** … and keeps them in their order: increasing ids stay increasing. */
  lemma {:induction false} SelectOrdered<K, C>(names: seq<K>, ents: seq<Entity>, components: map<K, map<Entity, C>>)
    requires Select(names, ents, components).Some? && StrictlyIncreasing(ents)
    ensures StrictlyIncreasing(Select(names, ents, components).value)
    decreases |ents|
  {
    if |ents| > 0 {
      var front := ents[..|ents| - 1];
      var e := ents[|ents| - 1];
      assert StrictlyIncreasing(front);
      SelectOrdered(names, front, components);
      SelectMembers(names, front, components);
      var s := Select(names, front, components);
      forall x | x in s.value
        ensures x < e
      {
        var k :| 0 <= k < |front| && front[k] == x;
        assert ents[k] == x;
      }
      if Every(names, components, e) == Pass {
        var r := s.value + [e];
        forall i, j | 0 <= i < j < |r|
          ensures r[i] < r[j]
        {
          if j == |r| - 1 {
            assert r[i] in s.value;
          }
        }
      }
    }
  }

  ghost predicate StrictlyIncreasing(s: seq<Entity>) {
    forall i, j :: 0 <= i < j < |s| ==> s[i] < s[j]
  }

  /** A system registered with no kinds accepts every entity. */
  lemma EmptyKindsSelectAll<K, C>(ents: seq<Entity>, components: map<K, map<Entity, C>>)
    ensures Select([], ents, components) == Some(ents)
  {
    if |ents| > 0 {
      EmptyKindsSelectAll(ents[..|ents| - 1], components);
      assert ents[..|ents| - 1] + [ents[|ents| - 1]] == ents;
    }
  }

  /** Once one system's visit has thrown, later entities add nothing. */
  lemma {:induction false} VisitThrowSticks<K, C, S>(reg: Registration<K, S>, ents: seq<Entity>, j: nat, components: map<K, map<Entity, C>>, arg: Option<real>)
    requires j <= |ents| && Visit(reg, ents[..j], components, arg).threw
    ensures Visit(reg, ents, components, arg) == Visit(reg, ents[..j], components, arg)
    decreases |ents| - j
  {
    if j < |ents| {
      assert ents[..j + 1][..j] == ents[..j];
      VisitThrowSticks(reg, ents, j + 1, components, arg);
    } else {
      assert ents[..j] == ents;
    }
  }

  /** Once a phase has thrown, later systems add nothing. */
  lemma {:induction false} DispatchThrowSticks<K, C, S>(regs: seq<Registration<K, S>>, i: nat, ents: seq<Entity>, components: map<K, map<Entity, C>>, arg: Option<real>)
    requires i <= |regs| && Dispatch(regs[..i], ents, components, arg).threw
    ensures Dispatch(regs, ents, components, arg) == Dispatch(regs[..i], ents, components, arg)
    decreases |regs| - i
  {
    if i < |regs| {
      assert regs[..i + 1][..i] == regs[..i];
      DispatchThrowSticks(regs, i + 1, ents, components, arg);
    } else {
      assert regs[..i] == regs;
    }
  }

  /** A phase throws exactly when some system's test throws on some entity. */
  lemma {:induction false} DispatchThrowsIff<K, C, S>(regs: seq<Registration<K, S>>, ents: seq<Entity>, components: map<K, map<Entity, C>>, arg: Option<real>)
    ensures Dispatch(regs, ents, components, arg).threw <==>
      exists i, j :: 0 <= i < |regs| && 0 <= j < |ents| && Every(regs[i].componentNames, components, ents[j]) == Throw
    decreases |regs|
  {
    if |regs| > 0 {
      var front := regs[..|regs| - 1];
      var reg := regs[|regs| - 1];
      DispatchThrowsIff(front, ents, components, arg);
      VisitThrowsIff(reg, ents, components, arg);
      if exists i, j :: 0 <= i < |front| && 0 <= j < |ents| && Every(front[i].componentNames, components, ents[j]) == Throw {
        var i, j :| 0 <= i < |front| && 0 <= j < |ents| && Every(front[i].componentNames, components, ents[j]) == Throw;
        assert regs[i] == front[i];
      }
      if exists i, j :: 0 <= i < |regs| && 0 <= j < |ents| && Every(regs[i].componentNames, components, ents[j]) == Throw {
        var i, j :| 0 <= i < |regs| && 0 <= j < |ents| && Every(regs[i].componentNames, components, ents[j]) == Throw;
        if i < |front| {
          assert front[i] == regs[i];
        }
      }
    }
  }

  lemma {:induction false} VisitThrowsIff<K, C, S>(reg: Registration<K, S>, ents: seq<Entity>, components: map<K, map<Entity, C>>, arg: Option<real>)
    ensures Visit(reg, ents, components, arg).threw <==>
      exists j :: 0 <= j < |ents| && Every(reg.componentNames, components, ents[j]) == Throw
    decreases |ents|
  {
    if |ents| > 0 {
      var front := ents[..|ents| - 1];
      VisitThrowsIff(reg, front, components, arg);
      if exists j :: 0 <= j < |front| && Every(reg.componentNames, components, front[j]) == Throw {
        var j :| 0 <= j < |front| && Every(reg.componentNames, components, front[j]) == Throw;
        assert ents[j] == front[j];
      }
      if exists j :: 0 <= j < |ents| && Every(reg.componentNames, components, ents[j]) == Throw {
        var j :| 0 <= j < |ents| && Every(reg.componentNames, components, ents[j]) == Throw;
        if j < |front| {
          assert front[j] == ents[j];
        }
      }
    }
  }

  /**
   * When every kind named by every system has storage, a phase does not throw, and its
   * calls are, system by system in registration order, one call per selected entity in
   * creation order, each with the phase's argument.
   */
  lemma {:induction false} DispatchCalls<K, C, S>(regs: seq<Registration<K, S>>, ents: seq<Entity>, components: map<K, map<Entity, C>>, arg: Option<real>)
    requires forall i :: 0 <= i < |regs| ==> HasStorage(regs[i].componentNames, components)
    ensures !Dispatch(regs, ents, components, arg).threw
    ensures Dispatch(regs, ents, components, arg).calls == Expected(regs, ents, components, arg)
    ensures forall c :: c in Dispatch(regs, ents, components, arg).calls ==> c.arg == arg
    decreases |regs|
  {
    if |regs| > 0 {
      var front := regs[..|regs| - 1];
      var reg := regs[|regs| - 1];
      DispatchCalls(front, ents, components, arg);
      SelectNoThrow(reg.componentNames, ents, components);
      VisitIsSelect(reg, ents, components, arg);
    }
  }

  /** The reference order of calls: for each system, `CallsOn` its selected entities. */
  ghost function Expected<K, C, S>(regs: seq<Registration<K, S>>, ents: seq<Entity>, components: map<K, map<Entity, C>>, arg: Option<real>): seq<Call<S>>
    requires forall i :: 0 <= i < |regs| ==> HasStorage(regs[i].componentNames, components)
    decreases |regs|
  {
    if |regs| == 0 then []
    else
      var reg := regs[|regs| - 1];
      SelectNoThrow(reg.componentNames, ents, components);
      Expected(regs[..|regs| - 1], ents, components, arg) + CallsOn(reg.system, Select(reg.componentNames, ents, components).value, arg)
  }

  /** One more registration appends its system's calls on the entities it selects. */
  lemma ExpectedSnoc<K, C, S>(regs: seq<Registration<K, S>>, reg: Registration<K, S>, ents: seq<Entity>, components: map<K, map<Entity, C>>, arg: Option<real>)
    requires forall i :: 0 <= i < |regs| ==> HasStorage(regs[i].componentNames, components)
    requires HasStorage(reg.componentNames, components)
    ensures forall i :: 0 <= i < |regs + [reg]| ==> HasStorage((regs + [reg])[i].componentNames, components)
    ensures Select(reg.componentNames, ents, components).Some?
    ensures Expected(regs + [reg], ents, components, arg)
            == Expected(regs, ents, components, arg) + CallsOn(reg.system, Select(reg.componentNames, ents, components).value, arg)
  {
    assert (regs + [reg])[..|regs|] == regs;
    SelectNoThrow(reg.componentNames, ents, components);
  }

  /** The component maps after `addComponent(entity, name, component)`. */
  function Attach<K, C>(components: map<K, map<Entity, C>>, e: Entity, k: K, c: C): map<K, map<Entity, C>>
  {
    var storage := if k in components then components[k] else map[];
    components[k := storage[e := c]]
  }

  /** `components.get(name)?.get(entity)`. */
  function Lookup<K, C>(components: map<K, map<Entity, C>>, e: Entity, k: K): Option<C>
  {
    if k in components && e in components[k] then Some(components[k][e]) else None
  }

  /** After attaching, the pair reads back the new component and every other pair is unchanged. */
  lemma LookupAttach<K, C>(components: map<K, map<Entity, C>>, e: Entity, k: K, c: C, e': Entity, k': K)
    ensures Lookup(Attach(components, e, k, c), e', k') == if e' == e && k' == k then Some(c) else Lookup(components, e', k')
  {
  }

  /** Attaching creates storage for its kind and keeps every existing storage. */
  lemma AttachKeepsStorage<K, C>(components: map<K, map<Entity, C>>, e: Entity, k: K, c: C)
    ensures Attach(components, e, k, c).Keys == components.Keys + {k}
  {
  }

  class World<K(==), C, S> {
    var id: nat
    var entities: seq<Entity>
    var components: map<K, map<Entity, C>>
    var inputSystems: seq<Registration<K, S>>
    var updateSystems: seq<Registration<K, S>>
    var renderSystems: seq<Registration<K, S>>

    /** The entity list is 0, 1, …, id - 1: append-only, duplicate-free and in creation order. */
    ghost predicate Valid()
      reads this
    {
      id == |entities| && forall i :: 0 <= i < |entities| ==> entities[i] == i
    }

    constructor ()
      ensures Valid() && entities == [] && components == map[]
      ensures inputSystems == [] && updateSystems == [] && renderSystems == []
    {
      id := 0;
      entities := [];
      components := map[];
      inputSystems, updateSystems, renderSystems := [], [], [];
    }

    /** `addEntity`: appends the next id and returns it; it equals the number of entities before. */
    method AddEntity() returns (e: Entity)
      requires Valid()
      modifies this
      ensures Valid()
      ensures e == old(id) == old(|entities|) && entities == old(entities) + [e]
      ensures components == old(components)
      ensures inputSystems == old(inputSystems) && updateSystems == old(updateSystems) && renderSystems == old(renderSystems)
    {
      entities := entities + [id];
      e := id;
      id := id + 1;
    }

    /** `addComponent`: creates the kind's storage if missing, then stores (or overwrites) the component. */
    method AddComponent(entity: Entity, componentName: K, component: C)
      modifies this
      ensures components == Attach(old(components), entity, componentName, component)
      ensures id == old(id) && entities == old(entities)
      ensures inputSystems == old(inputSystems) && updateSystems == old(updateSystems) && renderSystems == old(renderSystems)
    {
      if componentName !in components {
        components := components[componentName := map[]];
      }
      var storage: map<Entity, C> := components[componentName];
      components := components[componentName := storage[entity := component]];
    }

    /** `getComponent`: undefined when the kind has no storage or the entity is not in it. */
    function GetComponent(entity: Entity, componentName: K): (r: Option<C>)
      reads this
      ensures r.Some? <==> componentName in components && entity in components[componentName]
      ensures r.Some? ==> r.value == components[componentName][entity]
    {
      Lookup(components, entity, componentName)
    }

    /** `getEntitiesWithComponents`, the filter used by dispatch, over this world's entities. */
    function GetEntitiesWithComponents(names: seq<K>): Option<seq<Entity>>
      reads this
    {
      Select(names, entities, components)
    }

    method AddInputSystem(componentNames: seq<K>, system: S)
      modifies this
      ensures inputSystems == old(inputSystems) + [Registration(componentNames, system)]
      ensures id == old(id) && entities == old(entities) && components == old(components)
      ensures updateSystems == old(updateSystems) && renderSystems == old(renderSystems)
    {
      inputSystems := inputSystems + [Registration(componentNames, system)];
    }

    method AddUpdateSystem(componentNames: seq<K>, system: S)
      modifies this
      ensures updateSystems == old(updateSystems) + [Registration(componentNames, system)]
      ensures id == old(id) && entities == old(entities) && components == old(components)
      ensures inputSystems == old(inputSystems) && renderSystems == old(renderSystems)
    {
      updateSystems := updateSystems + [Registration(componentNames, system)];
    }

    method AddRenderSystem(componentNames: seq<K>, system: S)
      modifies this
      ensures renderSystems == old(renderSystems) + [Registration(componentNames, system)]
      ensures id == old(id) && entities == old(entities) && components == old(components)
      ensures inputSystems == old(inputSystems) && updateSystems == old(updateSystems)
    {
      renderSystems := renderSystems + [Registration(componentNames, system)];
    }

    /** `processInput`: the input systems, each called as `system(entity)`. */
    method ProcessInput() returns (o: Outcome<S>)
      ensures o == Dispatch(inputSystems, entities, components, None)
    {
      o := Run(inputSystems, None);
    }

    /** `update(deltaTimeInMs)`: the update systems, each called with the same delta. */
    method Update(deltaTimeInMs: real) returns (o: Outcome<S>)
      ensures o == Dispatch(updateSystems, entities, components, Some(deltaTimeInMs))
    {
      o := Run(updateSystems, Some(deltaTimeInMs));
    }

    /** `render(extrapolation)`: the render systems, each called with the same extrapolation. */
    method Render(extrapolation: real) returns (o: Outcome<S>)
      ensures o == Dispatch(renderSystems, entities, components, Some(extrapolation))
    {
      o := Run(renderSystems, Some(extrapolation));
    }

    /** The two nested `for` loops shared by the three phases. */
    method Run(systems: seq<Registration<K, S>>, arg: Option<real>) returns (o: Outcome<S>)
      ensures o == Dispatch(systems, entities, components, arg)
    {
      var calls: seq<Call<S>> := [];
      var i := 0;
      while i < |systems|
        invariant 0 <= i <= |systems|
        invariant Dispatch(systems[..i], entities, components, arg) == Outcome(calls, false)
      {
        var reg := systems[i];
        var made: seq<Call<S>> := [];
        var j := 0;
        while j < |entities|
          invariant 0 <= j <= |entities|
          invariant Visit(reg, entities[..j], components, arg) == Outcome(made, false)
        {
          var entity := entities[j];
          var test := Every(reg.componentNames, components, entity);
          assert entities[..j + 1][..j] == entities[..j];
          if test == Throw {
            VisitThrowSticks(reg, entities, j + 1, components, arg);
            assert systems[..i + 1][..i] == systems[..i];
            DispatchThrowSticks(systems, i + 1, entities, components, arg);
            o := Outcome(calls + made, true);
            return;
          }
          if test == Pass {
            made := made + [Call(reg.system, entity, arg)];
          }
          j := j + 1;
        }
        assert entities[..j] == entities;
        assert systems[..i + 1][..i] == systems[..i];
        calls := calls + made;
        i := i + 1;
      }
      assert systems[..i] == systems;
      o := Outcome(calls, false);
    }
  }

  /** Consecutive `addEntity` calls return 0, 1, 2, …: the n-th call returns n - 1. */
  method AddEntitiesInOrder<K(==), C, S>(w: World<K, C, S>, n: nat) returns (ids: seq<Entity>)
    requires w.Valid() && w.entities == []
    modifies w
    ensures w.Valid() && |ids| == n && forall i :: 0 <= i < n ==> ids[i] == i
    ensures w.entities == ids
  {
    ids := [];
    var k := 0;
    while k < n
      invariant 0 <= k <= n && w.Valid() && w.entities == ids && |ids| == k
      invariant forall i :: 0 <= i < k ==> ids[i] == i
    {
      var e := w.AddEntity();
      ids := ids + [e];
      k := k + 1;
    }
  }
}
