/** An entity storage over a quadtree. The tree itself is not part of this
    model: its operations are given as functions, and the storage's own work
    is to perform exactly one tree mutation per call and to turn the chunks
    the tree reports into at most two signals. */
module QuadtreeEntityStorage {
  import opened Base
  import opened Space

  /** The query rectangle `Rectangle.inflateFrom(coordinates, radius)`; its
      geometry belongs to the unseen Rectangle class. */
  datatype Rectangle = InflatedFrom(center: Point, radius: real)

  /** What a tree mutation returns: the new tree, the chunks of registered
      entities and the chunks of deregistered entities. */
  datatype TreeUpdate<Tree, T> = TreeUpdate(tree: Tree, registeredChunks: seq<Region<T>>, deregisteredChunks: seq<Region<T>>)

  /** The operations of the unseen `Quadtree` and of `validateRadius`. */
  datatype QuadtreeOps<!Tree, !T> = QuadtreeOps(
    add: (Tree, T) -> TreeUpdate<Tree, T>,
    addBatch: (Tree, seq<T>) -> TreeUpdate<Tree, T>,
    remove: (Tree, T) -> TreeUpdate<Tree, T>,
    listIn: (Tree, Rectangle) -> seq<Region<T>>,
    contents: Tree -> seq<T>,
    validateRadius: real -> Outcome)

  /** The tree call a mutator hands to `dispatchUpdatesOfChunks`. */
  datatype Mutation<T> = Add(entity: T) | AddBatch(entities: seq<T>) | Remove(entity: T)

  /** The one tree operation a mutation performs. */
  function Perform<Tree, T>(ops: QuadtreeOps<Tree, T>, tree: Tree, mutation: Mutation<T>): TreeUpdate<Tree, T> {
    match mutation
    case Add(e) => ops.add(tree, e)
    case AddBatch(es) => ops.addBatch(tree, es)
    case Remove(e) => ops.remove(tree, e)
  }

  /** A dispatch on `onEntitiesRegistered` or on `onEntitiesDeregistered`. */
  datatype Signal<T> = EntitiesRegistered(entities: seq<T>) | EntitiesDeregistered(entities: seq<T>)

  /** `asSequence(chunks).flatten().toArray()`: the chunks' entities,
      chunk by chunk. */
  function FlattenChunks<T>(chunks: seq<Region<T>>): seq<T>
  {
    if chunks == [] then [] else chunks[0].container + FlattenChunks(chunks[1..])
  }

  /** The flattened list is empty exactly when every chunk is empty. */
  lemma {:induction false} FlattenChunksEmpty<T>(chunks: seq<Region<T>>)
    ensures FlattenChunks(chunks) == [] <==> forall i :: 0 <= i < |chunks| ==> chunks[i].container == []
  {
    if chunks != [] {
      FlattenChunksEmpty(chunks[1..]);
      assert forall i :: 1 <= i < |chunks| ==> chunks[i] == chunks[1..][i - 1];
    }
  }

  /** The signals one `dispatchUpdatesOfChunks` fires for a tree update. */
  function Signals<Tree, T>(update: TreeUpdate<Tree, T>): seq<Signal<T>> {
    var registeredEntities := FlattenChunks(update.registeredChunks);
    var deregisteredEntities := FlattenChunks(update.deregisteredChunks);
    (if |registeredEntities| > 0 then [EntitiesRegistered(registeredEntities)] else [])
    + (if |deregisteredEntities| > 0 then [EntitiesDeregistered(deregisteredEntities)] else [])
  }

  /** Each signal fires at most once per call and only with a non-empty
      list; the registered signal carries the flattened first list and comes
      before the deregistered one, which carries the flattened second list. */
  lemma SignalsShape<Tree, T>(update: TreeUpdate<Tree, T>)
    ensures var s := Signals(update);
      && |s| <= 2
      && (forall i :: 0 <= i < |s| ==> s[i].entities != [])
      && ((exists i :: 0 <= i < |s| && s[i].EntitiesRegistered?) <==> FlattenChunks(update.registeredChunks) != [])
      && ((exists i :: 0 <= i < |s| && s[i].EntitiesDeregistered?) <==> FlattenChunks(update.deregisteredChunks) != [])
      && (forall i :: 0 <= i < |s| && s[i].EntitiesRegistered? ==> i == 0 && s[i].entities == FlattenChunks(update.registeredChunks))
      && (forall i :: 0 <= i < |s| && s[i].EntitiesDeregistered? ==> i == |s| - 1 && s[i].entities == FlattenChunks(update.deregisteredChunks))
  {
    var s := Signals(update);
    if FlattenChunks(update.registeredChunks) != [] {
      assert s[0].EntitiesRegistered?;
    }
    if FlattenChunks(update.deregisteredChunks) != [] {
      assert s[|s| - 1].EntitiesDeregistered?;
    }
  }

  /** A tree update that reports only empty chunks fires nothing. */
  lemma NoSignalsForEmptyChunks<Tree, T>(update: TreeUpdate<Tree, T>)
    requires forall i :: 0 <= i < |update.registeredChunks| ==> update.registeredChunks[i].container == []
    requires forall i :: 0 <= i < |update.deregisteredChunks| ==> update.deregisteredChunks[i].container == []
    ensures Signals(update) == []
  {
    FlattenChunksEmpty(update.registeredChunks);
    FlattenChunksEmpty(update.deregisteredChunks);
  }

  class QuadtreeEntityStorage<Tree, T> {
    var tree: Tree
    const ops: QuadtreeOps<Tree, T>
    /** Every dispatch on the two signals, oldest first. */
    var signals: seq<Signal<T>>

    constructor (tree: Tree, ops: QuadtreeOps<Tree, T>)
      ensures this.tree == tree && this.ops == ops && signals == []
    {
      this.tree := tree;
      this.ops := ops;
      signals := [];
    }

    /** `listAround`: validate the radius first (its error propagates), then
        query the tree with the coordinates inflated by the radius. */
    function ListAround(coordinates: Point, radius: real): (r: Result<seq<Region<T>>>)
      reads this
      ensures ops.validateRadius(radius).Raise? ==> r == Throw(ops.validateRadius(radius).error)
      ensures ops.validateRadius(radius).Done? ==> r == Ok(ops.listIn(tree, InflatedFrom(coordinates, radius)))
    {
      match ops.validateRadius(radius)
      case Raise(e) => Throw(e)
      case Done => Ok(ops.listIn(tree, InflatedFrom(coordinates, radius)))
    }

    /** Iteration: the tree's contents. */
    function Elements(): (r: seq<T>)
      reads this
      ensures r == ops.contents(tree)
    {
      ops.contents(tree)
    }

    method Register(entity: T)
      modifies this
      ensures tree == ops.add(old(tree), entity).tree
      ensures signals == old(signals) + Signals(ops.add(old(tree), entity))
    {
      DispatchUpdatesOfChunks(Add(entity));
    }

    method RegisterBatch(entities: seq<T>)
      modifies this
      ensures tree == ops.addBatch(old(tree), entities).tree
      ensures signals == old(signals) + Signals(ops.addBatch(old(tree), entities))
    {
      DispatchUpdatesOfChunks(AddBatch(entities));
    }

    method Deregister(entity: T)
      modifies this
      ensures tree == ops.remove(old(tree), entity).tree
      ensures signals == old(signals) + Signals(ops.remove(old(tree), entity))
    {
      DispatchUpdatesOfChunks(Remove(entity));
    }

    /** Performs the one tree mutation, then fires the registered signal if
        its flattened list is non-empty, then the deregistered one likewise. */
    method DispatchUpdatesOfChunks(mutation: Mutation<T>)
      modifies this
      ensures tree == Perform(ops, old(tree), mutation).tree
      ensures signals == old(signals) + Signals(Perform(ops, old(tree), mutation))
    {
      var update := Perform(ops, tree, mutation);
      tree := update.tree;
      var registeredEntities := FlattenChunks(update.registeredChunks);
      var deregisteredEntities := FlattenChunks(update.deregisteredChunks);
      if |registeredEntities| > 0 {
        signals := signals + [EntitiesRegistered(registeredEntities)];
      }
      if |deregisteredEntities| > 0 {
        signals := signals + [EntitiesDeregistered(deregisteredEntities)];
      }
    }
  }
}
