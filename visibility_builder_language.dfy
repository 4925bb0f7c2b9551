/** The fluent clause language over the visibility engine builder:
    `onUpdate().apply(s).toChildren().of(f).and(g).toEntities()...build()`.
    The phase flag chosen first is carried by every later clause; only `of`
    and `and` touch the builder, each with exactly one `apply` call. Lifted
    systems behave as in the Lifting module. */
module VisibilityBuilderLanguage {
  import opened Lifting

  /** An entity finder (storage) identity. */
  type Finder = nat

  /** One `builder.apply(system, entityFinder, isOnUpdate)` call. */
  datatype ApplyCall = ApplyCall(system: System, entityFinder: Finder, isOnUpdate: bool)

  /** The engine the builder returns; its construction is not part of this
      model, so it is identified by the calls the builder had received. */
  datatype VisibilityEngine = BuiltFrom(applied: seq<ApplyCall>)

  /** The visibility engine builder as the clauses see it: it records the
      `apply` calls it receives. */
  class VisibilityEngineBuilder {
    var applied: seq<ApplyCall>

    constructor ()
      ensures applied == []
    {
      applied := [];
    }

    method Apply(system: System, entityFinder: Finder, isOnUpdate: bool)
      modifies this
      ensures applied == old(applied) + [ApplyCall(system, entityFinder, isOnUpdate)]
    {
      applied := applied + [ApplyCall(system, entityFinder, isOnUpdate)];
    }

    method Build() returns (engine: VisibilityEngine)
      ensures engine == BuiltFrom(applied)
    {
      engine := BuiltFrom(applied);
    }
  }

  /** `SystemLifter(liftedSystem, originalSystem)`. */
  datatype SystemLifter = SystemLifter(liftedSystem: System, originalSystem: System)
  {
    /** `lifted()`: one more `LiftVisibilitySystemSystem` around the current
        system; the original is kept. */
    function Lifted(): (r: SystemLifter)
      ensures r.Get() == Lift(Get()) && r.GetOriginal() == GetOriginal()
      ensures Depth(r.Get()) == Depth(Get()) + 1
    {
      SystemLifter(Lift(liftedSystem), originalSystem)
    }

    /** `get()`: the current, possibly lifted, system. */
    function Get(): (r: System)
      ensures r == liftedSystem
    {
      liftedSystem
    }

    /** `getOriginal()`: the system the chain started from. */
    function GetOriginal(): (r: System)
      ensures r == originalSystem
    {
      originalSystem
    }
  }

  datatype OnOrBuildClause = OnOrBuildClause(builder: VisibilityEngineBuilder)
  {
    /** `onUpdate()` selects the update phase. */
    function OnUpdate(): (r: ApplyClause)
      ensures r.isOnUpdate && r.builder == builder
    {
      ApplyClause(builder, true)
    }

    /** `onRender()` selects the render phase. */
    function OnRender(): (r: ApplyClause)
      ensures !r.isOnUpdate && r.builder == builder
    {
      ApplyClause(builder, false)
    }

    method Build() returns (engine: VisibilityEngine)
      ensures engine == BuiltFrom(builder.applied)
    {
      engine := builder.Build();
    }
  }

  datatype ApplyClause = ApplyClause(builder: VisibilityEngineBuilder, isOnUpdate: bool)
  {
    function Apply(system: System): (r: ToClause)
      ensures r.builder == builder && r.system == system && r.isOnUpdate == isOnUpdate
    {
      ToClause(builder, system, isOnUpdate)
    }
  }

  datatype ToClause = ToClause(builder: VisibilityEngineBuilder, system: System, isOnUpdate: bool)
  {
    /** `toChildren()`: the system under exactly one lift, the original kept. */
    function ToChildren(): (r: OfClause)
      ensures r.builder == builder && r.isOnUpdate == isOnUpdate
      ensures r.systemLifter.Get() == Lift(system) && r.systemLifter.GetOriginal() == system
    {
      OfClause(builder, SystemLifter(system, system).Lifted(), isOnUpdate)
    }

    /** `toEntities()`: the system unwrapped. */
    function ToEntities(): (r: OfClause)
      ensures r.builder == builder && r.isOnUpdate == isOnUpdate
      ensures r.systemLifter.Get() == system && r.systemLifter.GetOriginal() == system
    {
      OfClause(builder, SystemLifter(system, system), isOnUpdate)
    }
  }

  datatype OfClause = OfClause(builder: VisibilityEngineBuilder, systemLifter: SystemLifter, isOnUpdate: bool)
  {
    /** `of(finder)`: exactly one `apply` with the current system and the
        chain's phase flag, then the continuation clause. */
    method Of(entityFinder: Finder) returns (next: ApplyOrToOrOfOrBuildClause)
      modifies builder
      ensures builder.applied == old(builder.applied) + [ApplyCall(systemLifter.Get(), entityFinder, isOnUpdate)]
      ensures next == ApplyOrToOrOfOrBuildClause(builder, systemLifter, isOnUpdate)
    {
      builder.Apply(systemLifter.Get(), entityFinder, isOnUpdate);
      next := ApplyOrToOrOfOrBuildClause(builder, systemLifter, isOnUpdate);
    }
  }

  /** The continuation after `of`/`and`: an `ApplyClause` with the same
      flag (there is no way back to `onUpdate`/`onRender`). */
  datatype ApplyOrToOrOfOrBuildClause = ApplyOrToOrOfOrBuildClause(builder: VisibilityEngineBuilder, systemLifter: SystemLifter, isOnUpdate: bool)
  {
    function AsApplyClause(): (r: ApplyClause)
      ensures r.builder == builder && r.isOnUpdate == isOnUpdate
    {
      ApplyClause(builder, isOnUpdate)
    }

    /** A `ToClause` that restarts from the original system, with the same
        builder and phase. */
    function CreateOriginalToClause(): (r: ToClause)
      ensures r.builder == builder && r.system == systemLifter.GetOriginal() && r.isOnUpdate == isOnUpdate
    {
      ToClause(builder, systemLifter.GetOriginal(), isOnUpdate)
    }

    /** `toChildren()`: restart from the original system, lifted once. */
    function ToChildren(): (r: OfClause)
      ensures r.builder == builder && r.isOnUpdate == isOnUpdate
      ensures r.systemLifter == SystemLifter(Lift(systemLifter.GetOriginal()), systemLifter.GetOriginal())
    {
      CreateOriginalToClause().ToChildren()
    }

    /** `toEntities()`: restart from the original system. */
    function ToEntities(): (r: OfClause)
      ensures r.builder == builder && r.isOnUpdate == isOnUpdate
      ensures r.systemLifter == SystemLifter(systemLifter.GetOriginal(), systemLifter.GetOriginal())
    {
      CreateOriginalToClause().ToEntities()
    }

    /** `and(finder)`: one more `apply` with the same system and flag as `of`. */
    method And(entityFinder: Finder) returns (self: ApplyOrToOrOfOrBuildClause)
      modifies builder
      ensures builder.applied == old(builder.applied) + [ApplyCall(systemLifter.Get(), entityFinder, isOnUpdate)]
      ensures self == this
    {
      builder.Apply(systemLifter.Get(), entityFinder, isOnUpdate);
      self := this;
    }

    method Build() returns (engine: VisibilityEngine)
      ensures engine == BuiltFrom(builder.applied)
    {
      engine := builder.Build();
    }
  }

  /** The lifters a chain can hold: the original system, or the original
      under exactly one lift. */
  predicate AtMostOneLift(l: SystemLifter) {
    l.Get() == l.GetOriginal() || l.Get() == Lift(l.GetOriginal())
  }

  /** Along any chain the phase flag and the at-most-one-lift shape are
      kept by every step that builds a clause, and the original system is
      never replaced. */
  lemma ChainKeepsFlagAndLiftDepth(t: ToClause, k: ApplyOrToOrOfOrBuildClause, system: System)
    requires AtMostOneLift(k.systemLifter)
    ensures AtMostOneLift(t.ToChildren().systemLifter) && AtMostOneLift(t.ToEntities().systemLifter)
    ensures AtMostOneLift(k.ToChildren().systemLifter) && AtMostOneLift(k.ToEntities().systemLifter)
    ensures k.ToChildren().systemLifter.GetOriginal() == k.systemLifter.GetOriginal()
    ensures k.ToEntities().systemLifter.GetOriginal() == k.systemLifter.GetOriginal()
    ensures k.AsApplyClause().Apply(system).ToChildren().isOnUpdate == k.isOnUpdate
    ensures k.AsApplyClause().Apply(system).ToEntities().isOnUpdate == k.isOnUpdate
  {
  }

  /** What an `apply` call registers after `toChildren`: a lifted system
      whose per-member hooks reach the original once per container member,
      with the same hook (hence the same time for `update`), nothing for an
      empty container, and `finish` exactly once. */
  lemma ToChildrenRegistersOneLift(t: ToClause, hook: Hook, region: Component)
    requires t.system.Given?
    requires region.Region?
    ensures var s := t.ToChildren().systemLifter.Get();
      && Accepts(s, region)
      && |HookCalls(s, hook, region)| == |region.container|
      && (forall i :: 0 <= i < |region.container| ==>
            HookCalls(s, hook, region)[i] == HookCall(t.system.id, hook, region.container[i]))
      && FinishCalls(s) == [FinishCall(t.system.id)]
  {
    LiftedHookVisitsMembers(t.system.id, hook, region.container);
  }
}
