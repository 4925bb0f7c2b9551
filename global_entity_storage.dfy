/** An unindexed entity storage: a Set of entities that dispatches one
    `StateChanged` per mutating call that changed something. */
module GlobalEntityStorage {
  import opened Base
  import opened Space
  import opened EntityFinder

  /** What `listAround` consults but this model does not define: whether an
      entity carries a `display` property, the entity's coordinates, and the
      two tests of a `Distance` built with the query radius. */
  datatype DistanceLaw<!T> = DistanceLaw(
    hasDisplay: T -> bool,
    coordinatesOf: T -> Point,
    isClose: CloseTest,
    isDisplayClose: (real, T, Point) -> bool)

  /** The filter `listAround` applies to one entity: the display test for an
      entity with a display, the coordinate test otherwise. */
  predicate IsAround<T>(law: DistanceLaw<T>, entity: T, coordinates: Point, radius: real) {
    if law.hasDisplay(entity) then law.isDisplayClose(radius, entity, coordinates)
    else law.isClose(radius, law.coordinatesOf(entity), coordinates)
  }

  /** The stored entities that pass the filter, in iteration order. */
  function Around<T>(entities: seq<T>, law: DistanceLaw<T>, coordinates: Point, radius: real): (r: seq<T>)
    ensures |r| <= |entities|
    ensures forall i :: 0 <= i < |r| ==> r[i] in entities && IsAround(law, r[i], coordinates, radius)
    ensures forall i :: 0 <= i < |entities| && IsAround(law, entities[i], coordinates, radius) ==> entities[i] in r
  {
    if entities == [] then []
    else
      var rest := Around(entities[1..], law, coordinates, radius);
      assert forall i :: 1 <= i < |entities| ==> entities[i] == entities[1..][i - 1];
      if IsAround(law, entities[0], coordinates, radius) then [entities[0]] + rest else rest
  }

  /** The entities `registerBatch` adds to a Set holding `stored`: each one
      not yet held, in input order, where an entity added earlier in the
      same batch counts as held (the lazy filter sees the earlier adds). */
  function NewEntities<T(==)>(stored: seq<T>, batch: seq<T>): seq<T>
  {
    if batch == [] then []
    else
      var earlier := NewEntities(stored, batch[..|batch| - 1]);
      var entity := batch[|batch| - 1];
      if entity in stored || entity in earlier then earlier else earlier + [entity]
  }

  /** Index of the first occurrence of `x` in `s`. */
  function FirstIndex<T(==)>(s: seq<T>, x: T): (k: nat)
    requires x in s
    ensures k < |s| && s[k] == x && x !in s[..k]
  {
    if s[0] == x then 0
    else
      assert x in s[1..];
      var k := FirstIndex(s[1..], x);
      assert s[..k + 1] == [s[0]] + s[1..][..k];
      k + 1
  }

  /** What registerBatch adds: entities of the batch, none already stored,
      none twice, every batch entity ends up stored, and they appear in the
      order of their first occurrence in the batch. */
  lemma {:induction false} NewEntitiesProperties<T>(stored: seq<T>, batch: seq<T>)
    requires Distinct(stored)
    ensures var added := NewEntities(stored, batch);
      && Distinct(stored + added)
      && (forall i :: 0 <= i < |added| ==> added[i] in batch && added[i] !in stored)
      && (forall i :: 0 <= i < |batch| ==> batch[i] in stored || batch[i] in added)
      && (forall i, j :: 0 <= i < j < |added| ==> FirstIndex(batch, added[i]) < FirstIndex(batch, added[j]))
  {
    if batch != [] {
      var prefix := batch[..|batch| - 1];
      var entity := batch[|batch| - 1];
      var earlier := NewEntities(stored, prefix);
      NewEntitiesProperties(stored, prefix);
      var added := NewEntities(stored, batch);
      assert batch == prefix + [entity];
      forall x | x in prefix
        ensures FirstIndex(batch, x) == FirstIndex(prefix, x)
      {
        var k := FirstIndex(prefix, x);
        assert batch[..k] == prefix[..k];
      }
      forall i | 0 <= i < |batch|
        ensures batch[i] in stored || batch[i] in added
      {
        if i < |batch| - 1 {
          assert batch[i] == prefix[i];
        }
      }
      if !(entity in stored || entity in earlier) {
        assert added == earlier + [entity];
        assert entity !in prefix;
        assert FirstIndex(batch, entity) == |batch| - 1 by {
          assert batch[..|batch| - 1] == prefix;
        }
        assert stored + added == (stored + earlier) + [entity];
      }
    }
  }

  /** A batch whose entities are all stored already adds nothing. */
  lemma {:induction false} NewEntitiesOfStored<T>(stored: seq<T>, batch: seq<T>)
    requires forall i :: 0 <= i < |batch| ==> batch[i] in stored
    ensures NewEntities(stored, batch) == []
  {
    if batch != [] {
      NewEntitiesOfStored(stored, batch[..|batch| - 1]);
    }
  }

  /** The event a batch registration dispatches, if any. */
  function BatchEvents<T>(added: seq<T>): seq<StateChanged<T>> {
    if added == [] then [] else [StateChanged(added, [])]
  }

  class GlobalEntityStorage<T(==)> {
    /** The Set of stored entities, in insertion order. */
    var entities: seq<T>
    /** Every event dispatched on `onStateChanged`, oldest first. */
    var dispatched: seq<StateChanged<T>>
    /** The entities reported by `console.error` as not registered. */
    var errorsLogged: seq<T>

    ghost predicate Valid()
      reads this
    {
      && Distinct(entities)
      && forall i :: 0 <= i < |dispatched| ==> NonEmpty(dispatched[i])
    }

    /** `new GlobalEntityStorage(entities)`: a storage over an existing Set. */
    constructor (initial: seq<T>)
      requires Distinct(initial)
      ensures Valid()
      ensures entities == initial && dispatched == [] && errorsLogged == []
    {
      entities := initial;
      dispatched := [];
      errorsLogged := [];
    }

    /** `GlobalEntityStorage.create()`: an empty storage. */
    static method Create() returns (storage: GlobalEntityStorage<T>)
      ensures fresh(storage) && storage.Valid()
      ensures storage.entities == [] && storage.dispatched == [] && storage.errorsLogged == []
    {
      storage := new GlobalEntityStorage([]);
    }

    /** `listAround`: nothing for a zero radius, without consulting the Set;
        otherwise exactly the stored entities that pass the distance filter,
        in iteration order. */
    function ListAround(coordinates: Point, radius: real, law: DistanceLaw<T>): (r: seq<T>)
      reads this
      ensures ListAroundContract(radius, r)
      ensures forall i :: 0 <= i < |r| ==> r[i] in entities
      ensures radius != 0.0 ==> forall i :: 0 <= i < |r| ==> IsAround(law, r[i], coordinates, radius)
      ensures radius != 0.0 ==> forall i :: 0 <= i < |entities| && IsAround(law, entities[i], coordinates, radius) ==> entities[i] in r
    {
      if radius == 0.0 then [] else Around(entities, law, coordinates, radius)
    }

    /** Iteration: the stored entities, each once, in insertion order. */
    function Elements(): (r: seq<T>)
      reads this
      requires Valid()
      ensures Distinct(r) && |r| == |entities|
      ensures (forall i :: 0 <= i < |r| ==> r[i] in entities) && (forall i :: 0 <= i < |entities| ==> entities[i] in r)
    {
      entities
    }

    method Register(entity: T)
      requires Valid()
      modifies this
      ensures Valid() && errorsLogged == old(errorsLogged)
      ensures entity in old(entities) ==> entities == old(entities) && dispatched == old(dispatched)
      ensures entity !in old(entities) ==>
        && entities == old(entities) + [entity]
        && dispatched == old(dispatched) + [StateChanged([entity], [])]
    {
      if entity in entities {
        return;
      }
      entities := entities + [entity];
      var event := NewStateChanged([entity]);
      assert event.Ok?;
      dispatched := dispatched + [event.value];
    }

    method RegisterBatch(batch: seq<T>)
      requires Valid()
      modifies this
      ensures Valid() && errorsLogged == old(errorsLogged)
      ensures entities == old(entities) + NewEntities(old(entities), batch)
      ensures dispatched == old(dispatched) + BatchEvents(NewEntities(old(entities), batch))
    {
      var addedEntities: seq<T> := [];
      var i := 0;
      while i < |batch|
        invariant 0 <= i <= |batch|
        invariant addedEntities == NewEntities(old(entities), batch[..i])
        invariant entities == old(entities) + addedEntities
        invariant Distinct(entities)
        invariant dispatched == old(dispatched) && errorsLogged == old(errorsLogged)
      {
        var entity := batch[i];
        assert batch[..i + 1][..i] == batch[..i];
        if entity !in entities {
          NewEntitiesProperties(old(entities), batch[..i + 1]);
          entities := entities + [entity];
          addedEntities := addedEntities + [entity];
        }
        i := i + 1;
      }
      assert batch[..i] == batch;
      if |addedEntities| == 0 {
        return;
      }
      var event := NewStateChanged(addedEntities);
      assert event.Ok?;
      dispatched := dispatched + [event.value];
    }

    method Deregister(entity: T)
      requires Valid()
      modifies this
      ensures Valid()
      ensures entity !in old(entities) ==>
        && entities == old(entities) && dispatched == old(dispatched)
        && errorsLogged == old(errorsLogged) + [entity]
      ensures entity in old(entities) ==>
        && entities == Without(old(entities), entity)
        && |entities| == |old(entities)| - 1
        && dispatched == old(dispatched) + [StateChanged([], [entity])]
        && errorsLogged == old(errorsLogged)
    {
      var isEntityDeleted := entity in entities;
      if !isEntityDeleted {
        errorsLogged := errorsLogged + [entity];
        return;
      }
      WithoutDistinctLength(entities, entity);
      entities := Without(entities, entity);
      var event := NewStateChanged([], [entity]);
      assert event.Ok?;
      dispatched := dispatched + [event.value];
    }
  }

  /** Registering then deregistering a new entity restores the Set: the
      pair leaves the iteration as it was. */
  lemma RegisterThenDeregister<T>(entities: seq<T>, entity: T)
    requires Distinct(entities) && entity !in entities
    ensures Without(entities + [entity], entity) == entities
  {
    WithoutAppend(entities, entity);
  }
}
