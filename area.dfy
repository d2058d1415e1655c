/**
 * `AreaComponent` (packages/engine/src/components/area.component.ts): the set of entities
 * currently overlapping a trigger area, and the area's own event bus for ENTER and EXIT.
 *
 * The event bus is a thin wrapper over the host's `EventTarget`; a publication is recorded
 * in the ghost log `published`, and a subscription in `subscriptions`, with the handler
 * left abstract.
 */
module Areas {
  import opened Ecs

  datatype AreaEventName = Enter | Exit

  /** A publication `publish(name, { entity })`. */
  datatype AreaEvent = AreaEvent(name: AreaEventName, entity: Entity)

  /** A subscription: the event it listens to and an opaque handler. */
  datatype Subscription = Subscription(name: AreaEventName, handler: nat)

  /** A JavaScript `Set<Entity>`, an object of its own so that it can be shared. */
  class EntitySet {
    var elems: set<Entity>

    constructor ()
      ensures elems == {}
    {
      elems := {};
    }

    function Has(e: Entity): bool
      reads this
    {
      e in elems
    }

    method Add(e: Entity)
      modifies this
      ensures elems == old(elems) + {e}
    {
      elems := elems + {e};
    }

    method Delete(e: Entity)
      modifies this
      ensures elems == old(elems) - {e}
    {
      elems := elems - {e};
    }
  }

  class Area {
    const overlappingEntities: EntitySet
    ghost var published: seq<AreaEvent>
    ghost var subscriptions: seq<Subscription>

    constructor ()
      ensures fresh(overlappingEntities) && overlappingEntities.elems == {}
      ensures published == [] && subscriptions == []
    {
      overlappingEntities := new EntitySet();
      published, subscriptions := [], [];
    }

    /** `publish(name, payload)`: forwarded unchanged to the area's own bus. */
    method Publish(name: AreaEventName, entity: Entity)
      modifies this
      ensures published == old(published) + [AreaEvent(name, entity)]
      ensures subscriptions == old(subscriptions)
    {
      published := published + [AreaEvent(name, entity)];
    }

    /** `subscribe(name, handler)`; the returned unsubscribe function is the subscription itself. */
    method Subscribe(name: AreaEventName, handler: nat) returns (s: Subscription)
      modifies this
      ensures s == Subscription(name, handler) && subscriptions == old(subscriptions) + [s]
      ensures published == old(published)
    {
      s := Subscription(name, handler);
      subscriptions := subscriptions + [s];
    }

    function IsOverlapping(e: Entity): bool
      reads overlappingEntities
    {
      overlappingEntities.Has(e)
    }

    method AddOverlappingEntity(e: Entity)
      modifies overlappingEntities
      ensures overlappingEntities.elems == Step(old(overlappingEntities.elems), Added(e))
    {
      overlappingEntities.Add(e);
    }

    method RemoveOverlappingEntity(e: Entity)
      modifies overlappingEntities
      ensures overlappingEntities.elems == Step(old(overlappingEntities.elems), Removed(e))
    {
      overlappingEntities.Delete(e);
    }

    /** `getOverlappingEntities` returns the live set itself, not a copy. */
    function GetOverlappingEntities(): (s: EntitySet)
      ensures s == overlappingEntities
    {
      overlappingEntities
    }
  }

  /** An `addOverlappingEntity` or `removeOverlappingEntity` call. */
  datatype SetOp = Added(e: Entity) | Removed(e: Entity)

  function Step(s: set<Entity>, op: SetOp): set<Entity> {
    match op
    case Added(e) => s + {e}
    case Removed(e) => s - {e}
  }

  function Replay(s: set<Entity>, ops: seq<SetOp>): set<Entity>
    decreases |ops|
  {
    if ops == [] then s else Replay(Step(s, ops[0]), ops[1..])
  }

  /** The position of the last operation on `e`, or -1 if there is none. */
  function LastOn(ops: seq<SetOp>, e: Entity): (k: int)
    ensures -1 <= k < |ops|
    ensures k >= 0 ==> ops[k].e == e
    ensures forall j :: k < j < |ops| ==> ops[j].e != e
    decreases |ops|
  {
    if ops == [] then -1
    else if ops[|ops| - 1].e == e then |ops| - 1
    else LastOn(ops[..|ops| - 1], e)
  }

  lemma {:induction false} ReplaySnoc(s: set<Entity>, ops: seq<SetOp>, op: SetOp)
    ensures Replay(s, ops + [op]) == Step(Replay(s, ops), op)
    decreases |ops|
  {
    if ops != [] {
      assert (ops + [op])[1..] == ops[1..] + [op];
      ReplaySnoc(Step(s, ops[0]), ops[1..], op);
    }
  }

  /**
   * `isOverlapping(e)` after a run of additions and removals is true exactly when the last
   * of them that names `e` added it, or none names it and `e` was there before.
   */
  lemma {:induction false} MemberIffLastAdded(s: set<Entity>, ops: seq<SetOp>, e: Entity)
    ensures e in Replay(s, ops) <==> if LastOn(ops, e) < 0 then e in s else ops[LastOn(ops, e)].Added?
    decreases |ops|
  {
    if ops != [] {
      var init, last := ops[..|ops| - 1], ops[|ops| - 1];
      assert ops == init + [last];
      ReplaySnoc(s, init, last);
      if last.e != e {
        MemberIffLastAdded(s, init, e);
      }
    }
  }

  /** Adding is idempotent, and removing an absent entity changes nothing. */
  lemma AddIdempotent(s: set<Entity>, e: Entity)
    ensures Step(Step(s, Added(e)), Added(e)) == Step(s, Added(e))
    ensures e !in s ==> Step(s, Removed(e)) == s
    ensures forall x :: x != e ==> (x in Step(s, Removed(e)) <==> x in s)
  {
  }
}
