/** The fluent clause language over `EntityTrackerBuilder`:
    `applyExistenceSystem(s).toLiftedEntities().of(f).and(g).toEntities()...`.
    A clause holds the shared builder and a manager pairing the applier in
    use with the applier the chain started from; only `of` and `and` touch
    the builder, each with exactly one call. */
module TrackerBuilderWrapper {
  import opened Base
  import opened Lifting
  import opened EntityTrackerBuilder

  /** `ExistenceSystemApplier` / `TickSystemApplier` over a system. */
  datatype SystemApplier = ExistenceSystemApplier(system: System) | TickSystemApplier(system: System)

  /** `lifted()`: the same kind of applier over the system wrapped in one
      `LiftExistenceSystemSystem` / `LiftTickSystemSystem`. */
  function LiftedApplier(a: SystemApplier): (r: SystemApplier)
    ensures r.ExistenceSystemApplier? <==> a.ExistenceSystemApplier?
    ensures r.system == Lift(a.system)
    ensures Depth(r.system) == Depth(a.system) + 1 && Original(r.system) == Original(a.system)
  {
    match a
    case ExistenceSystemApplier(s) => ExistenceSystemApplier(Lift(s))
    case TickSystemApplier(s) => TickSystemApplier(Lift(s))
  }

  /** The one builder call `addToBuilder(builder, finder)` makes. */
  function CallOf(a: SystemApplier, entityFinder: Finder): (r: BuilderCall)
    ensures r.AppliedExistenceSystem? <==> a.ExistenceSystemApplier?
    ensures r.AppliedTickSystem? <==> a.TickSystemApplier?
    ensures r.system == a.system && r.finder == entityFinder
  {
    match a
    case ExistenceSystemApplier(s) => AppliedExistenceSystem(s, entityFinder)
    case TickSystemApplier(s) => AppliedTickSystem(s, entityFinder)
  }

  /** `addToBuilder`: an existence applier calls `applyExistenceSystem`, a
      tick applier `applyTickSystem`, once, with its own system. */
  method AddToBuilder(a: SystemApplier, builder: EntityTrackerBuilder, entityFinder: Finder)
    requires builder.Valid()
    modifies builder
    ensures builder.Valid()
    ensures builder.View() == Apply(old(builder.View()), CallOf(a, entityFinder))
  {
    match a
    case ExistenceSystemApplier(s) =>
      var _ := builder.ApplyExistenceSystem(s, entityFinder);
    case TickSystemApplier(s) =>
      var _ := builder.ApplyTickSystem(s, entityFinder);
  }

  /** `SystemApplierManager(liftedSystemApplier, originalSystemApplier)`. */
  datatype SystemApplierManager = SystemApplierManager(liftedSystemApplier: SystemApplier, originalSystemApplier: SystemApplier)
  {
    /** `lifted()`: lift the current applier one level, keep the original. */
    function Lifted(): (r: SystemApplierManager)
      ensures r.Get() == LiftedApplier(Get()) && r.GetOriginal() == GetOriginal()
    {
      SystemApplierManager(LiftedApplier(liftedSystemApplier), originalSystemApplier)
    }

    /** `get()`: the current, possibly lifted, applier. */
    function Get(): (r: SystemApplier)
      ensures r == liftedSystemApplier
    {
      liftedSystemApplier
    }

    /** `getOriginal()`: the applier the chain started from. */
    function GetOriginal(): (r: SystemApplier)
      ensures r == originalSystemApplier
    {
      originalSystemApplier
    }
  }

  /** The managers a chain of clauses can hold: the current applier is the
      original one or the original lifted exactly once. */
  predicate AtMostOneLift(m: SystemApplierManager) {
    m.Get() == m.GetOriginal() || m.Get() == LiftedApplier(m.GetOriginal())
  }

  /** `createToClause(applier)`: a manager whose two appliers coincide. */
  function CreateToClause(builder: EntityTrackerBuilder, a: SystemApplier): (r: ToClause)
    ensures r.builder == builder && r.manager.Get() == a && r.manager.GetOriginal() == a
  {
    ToClause(builder, SystemApplierManager(a, a))
  }

  datatype ApplyClause = ApplyClause(builder: EntityTrackerBuilder)
  {
    function ApplyExistenceSystem(system: System): (r: ToClause)
      ensures r.builder == builder && r.manager.Get() == ExistenceSystemApplier(system) && r.manager.Get() == r.manager.GetOriginal()
    {
      CreateToClause(builder, ExistenceSystemApplier(system))
    }

    function ApplyTickSystem(system: System): (r: ToClause)
      ensures r.builder == builder && r.manager.Get() == TickSystemApplier(system) && r.manager.Get() == r.manager.GetOriginal()
    {
      CreateToClause(builder, TickSystemApplier(system))
    }
  }

  datatype ToClause = ToClause(builder: EntityTrackerBuilder, manager: SystemApplierManager)
  {
    /** `toLiftedEntities()`: the applier lifted one level, the original kept. */
    function ToLiftedEntities(): (r: OfClause)
      ensures r.builder == builder
      ensures r.manager.Get() == LiftedApplier(manager.Get()) && r.manager.GetOriginal() == manager.GetOriginal()
    {
      OfClause(builder, manager.Lifted())
    }

    /** `toEntities()`: the applier unchanged. */
    function ToEntities(): (r: OfClause)
      ensures r.builder == builder && r.manager == manager
    {
      OfClause(builder, manager)
    }
  }

  datatype OfClause = OfClause(builder: EntityTrackerBuilder, manager: SystemApplierManager)
  {
    /** `of(finder)`: one builder call with the current applier, then the
        continuation clause over the same builder and manager. */
    method Of(entityFinder: Finder) returns (next: ApplyOrToOrOfOrBuildClause)
      requires builder.Valid()
      modifies builder
      ensures builder.Valid()
      ensures builder.View() == Apply(old(builder.View()), CallOf(manager.Get(), entityFinder))
      ensures next == ApplyOrToOrOfOrBuildClause(builder, manager)
    {
      AddToBuilder(manager.Get(), builder, entityFinder);
      next := ApplyOrToOrOfOrBuildClause(builder, manager);
    }
  }

  /** The continuation after `of`/`and`; it is also an `ApplyClause`. */
  datatype ApplyOrToOrOfOrBuildClause = ApplyOrToOrOfOrBuildClause(builder: EntityTrackerBuilder, manager: SystemApplierManager)
  {
    /** The continuation used as an `ApplyClause`: the same builder. */
    function AsApplyClause(): (r: ApplyClause)
      ensures r.builder == builder
    {
      ApplyClause(builder)
    }

    /** `toLiftedEntities()`: restart from the original applier, lifted once. */
    function ToLiftedEntities(): (r: OfClause)
      ensures r.builder == builder
      ensures r.manager == SystemApplierManager(LiftedApplier(manager.GetOriginal()), manager.GetOriginal())
    {
      CreateToClause(builder, manager.GetOriginal()).ToLiftedEntities()
    }

    /** `toEntities()`: restart from the original applier. */
    function ToEntities(): (r: OfClause)
      ensures r.builder == builder
      ensures r.manager == SystemApplierManager(manager.GetOriginal(), manager.GetOriginal())
    {
      CreateToClause(builder, manager.GetOriginal()).ToEntities()
    }

    /** `and(finder)`: one more builder call with the same applier `of` used;
        returns this clause. */
    method And(entityFinder: Finder) returns (self: ApplyOrToOrOfOrBuildClause)
      requires builder.Valid()
      modifies builder
      ensures builder.Valid()
      ensures builder.View() == Apply(old(builder.View()), CallOf(manager.Get(), entityFinder))
      ensures self == this
    {
      AddToBuilder(manager.Get(), builder, entityFinder);
      self := this;
    }

    /** `build()`: the builder's result. */
    method Build() returns (r: Result<EntityTracker>)
      requires builder.Valid()
      ensures r == BuildSpec(builder.View(), builder.trackee, builder.samplingRadius)
    {
      r := builder.Build();
    }
  }

  /** An existence applier makes only `applyExistenceSystem` calls and a tick
      applier only `applyTickSystem` calls, so an existence applier never
      touches a finder's tick list, and a tick applier never its existence list. */
  lemma ApplierTouchesOneList(st: BuilderState, a: SystemApplier, entityFinder: Finder)
    requires WellFormed(st)
    ensures a.ExistenceSystemApplier? ==>
      RecordFor(Apply(st, CallOf(a, entityFinder)), entityFinder).tickSystems == RecordFor(st, entityFinder).tickSystems
    ensures a.TickSystemApplier? ==>
      RecordFor(Apply(st, CallOf(a, entityFinder)), entityFinder).existenceSystems == RecordFor(st, entityFinder).existenceSystems
  {
    ApplyEffect(st, CallOf(a, entityFinder));
  }

  /** `of(f)` followed by `and(g)` registers the same applier for both
      finders: the two calls differ only in the finder. */
  lemma OfAndSameApplier(m: SystemApplierManager, f: Finder, g: Finder)
    ensures CallOf(m.Get(), f).system == CallOf(m.Get(), g).system
    ensures CallOf(m.Get(), f).AppliedExistenceSystem? == CallOf(m.Get(), g).AppliedExistenceSystem?
    ensures CallOf(m.Get(), f).finder == f && CallOf(m.Get(), g).finder == g
  {
  }

  /** Every clause of a chain holds a manager with at most one lift: the
      first `to...` sees identical appliers, and after `of`/`and` the
      continuation restarts from the original, so lifts never stack across
      clauses. */
  lemma ChainNeverStacksLifts(c: ApplyClause, system: System, k: ApplyOrToOrOfOrBuildClause)
    requires AtMostOneLift(k.manager)
    ensures AtMostOneLift(c.ApplyExistenceSystem(system).ToEntities().manager)
    ensures AtMostOneLift(c.ApplyExistenceSystem(system).ToLiftedEntities().manager)
    ensures AtMostOneLift(c.ApplyTickSystem(system).ToEntities().manager)
    ensures AtMostOneLift(c.ApplyTickSystem(system).ToLiftedEntities().manager)
    ensures AtMostOneLift(k.ToEntities().manager) && AtMostOneLift(k.ToLiftedEntities().manager)
    ensures k.ToEntities().manager.GetOriginal() == k.manager.GetOriginal()
    ensures k.ToLiftedEntities().manager.GetOriginal() == k.manager.GetOriginal()
  {
  }

  /** Hence the system any `of`/`and` registers is the original one or the
      original under exactly one lift. */
  lemma RegisteredDepth(m: SystemApplierManager, entityFinder: Finder)
    requires AtMostOneLift(m)
    ensures Original(CallOf(m.Get(), entityFinder).system) == Original(m.GetOriginal().system)
    ensures Depth(CallOf(m.Get(), entityFinder).system) <= Depth(m.GetOriginal().system) + 1
  {
  }
}
