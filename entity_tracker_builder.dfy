/** The older tracker builder: it groups the applied systems per entity
    finder, one record builder per finder in the insertion order of its Map,
    each record builder keeping its existence systems and tick systems in
    application order. The Map is given to the constructor and may already
    hold record builders; a record builder the builder creates itself
    shares the builder's one existence-systems finisher.

    The class mirrors the source's objects and Map; `View()` is its abstract
    state, and every method is specified by a pure function on that state
    (`Apply`, `BuildSpec`) about which the lemmas below speak. */
module EntityTrackerBuilder {
  import opened Base
  import opened Lifting

  /** An entity finder (storage) identity. */
  type Finder = nat
  /** The identity of an `ExistenceSystemsFinisher` object. */
  type FinisherId = nat

  /** The builder's state: the keys of its Map in insertion order, the
      record builder stored under each key, and the builder's finisher. */
  datatype BuilderState = BuilderState(finders: seq<Finder>, records: map<Finder, RecordBuilder>, finisher: FinisherId)

  /** A builder over an empty Map. */
  function Empty(finisher: FinisherId): BuilderState {
    BuilderState([], map[], finisher)
  }

  /** The keys of a JavaScript Map are distinct, and its key order lists
      exactly its keys. */
  predicate WellFormed(st: BuilderState) {
    && Distinct(st.finders)
    && (forall f :: f in st.records ==> f in st.finders)
    && (forall i :: 0 <= i < |st.finders| ==> st.finders[i] in st.records)
  }

  /** A call on the builder, as the clause language issues it. */
  datatype BuilderCall =
    | AppliedExistenceSystem(system: System, finder: Finder)
    | AppliedTickSystem(system: System, finder: Finder)

  /** The record builder `getTrackingRecordBuilder` hands out: the stored
      one, or a new empty one for the finder with the builder's finisher. */
  function RecordFor(st: BuilderState, f: Finder): RecordBuilder {
    if f in st.records then st.records[f] else RecordBuilder(f, st.finisher, [], [])
  }

  /** The effect of one builder call on the state. */
  function Apply(st: BuilderState, call: BuilderCall): BuilderState {
    var f := call.finder;
    var rec := RecordFor(st, f);
    var finders := if f in st.records then st.finders else st.finders + [f];
    var rec' := match call
      case AppliedExistenceSystem(s, _) => rec.AddExistenceSystem(s)
      case AppliedTickSystem(s, _) => rec.AddTickSystem(s);
    BuilderState(finders, st.records[f := rec'], st.finisher)
  }

  /** The state after a sequence of calls, oldest first. */
  function Replay(st: BuilderState, calls: seq<BuilderCall>): BuilderState {
    if calls == [] then st else Apply(Replay(st, calls[..|calls| - 1]), calls[|calls| - 1])
  }

  /** The keys `known`, followed by the finders of `fs` that are not among
      them, in order of first occurrence, each once: the key order of a Map
      with keys `known` after the finders `fs` are looked up in turn. */
  function FirstUses(known: seq<Finder>, fs: seq<Finder>): seq<Finder> {
    if fs == [] then known
    else
      var earlier := FirstUses(known, fs[..|fs| - 1]);
      if fs[|fs| - 1] in earlier then earlier else earlier + [fs[|fs| - 1]]
  }

  function FindersOf(calls: seq<BuilderCall>): (r: seq<Finder>)
    ensures |r| == |calls| && forall i :: 0 <= i < |calls| ==> r[i] == calls[i].finder
  {
    if calls == [] then [] else FindersOf(calls[..|calls| - 1]) + [calls[|calls| - 1].finder]
  }

  /** The existence systems applied to `f`, in application order. */
  function ExistenceFor(calls: seq<BuilderCall>, f: Finder): seq<System> {
    if calls == [] then []
    else
      var c := calls[|calls| - 1];
      ExistenceFor(calls[..|calls| - 1], f) + (if c.AppliedExistenceSystem? && c.finder == f then [c.system] else [])
  }

  /** The tick systems applied to `f`, in application order. */
  function TickFor(calls: seq<BuilderCall>, f: Finder): seq<System> {
    if calls == [] then []
    else
      var c := calls[|calls| - 1];
      TickFor(calls[..|calls| - 1], f) + (if c.AppliedTickSystem? && c.finder == f then [c.system] else [])
  }

  /** One call keeps the state well formed, appends the system to the end of
      that finder's list of its kind only, adds the finder at the end of the
      order exactly when it is new, and changes no other finder's record. */
  lemma ApplyEffect(st: BuilderState, call: BuilderCall)
    requires WellFormed(st)
    ensures var st' := Apply(st, call);
      && WellFormed(st')
      && st'.finisher == st.finisher
      && (call.finder in st.records ==> st'.finders == st.finders)
      && (call.finder !in st.records ==> st'.finders == st.finders + [call.finder])
      && (call.AppliedExistenceSystem? ==>
            st'.records[call.finder]
              == RecordFor(st, call.finder).(existenceSystems := RecordFor(st, call.finder).existenceSystems + [call.system]))
      && (call.AppliedTickSystem? ==>
            st'.records[call.finder]
              == RecordFor(st, call.finder).(tickSystems := RecordFor(st, call.finder).tickSystems + [call.system]))
      && (forall g :: g in st.records && g != call.finder ==> st'.records[g] == st.records[g])
  {
  }

  /** After any sequence of calls on a well-formed builder the state is
      well formed, keeps its finisher, and its Map holds the keys it had,
      followed by each new finder once, in first-use order. */
  lemma {:induction false} ReplayOrder(st: BuilderState, calls: seq<BuilderCall>)
    requires WellFormed(st)
    ensures WellFormed(Replay(st, calls)) && Replay(st, calls).finisher == st.finisher
    ensures Replay(st, calls).finders == FirstUses(st.finders, FindersOf(calls))
  {
    if calls != [] {
      var prefix := calls[..|calls| - 1];
      ReplayOrder(st, prefix);
      ApplyEffect(Replay(st, prefix), calls[|calls| - 1]);
      assert FindersOf(calls)[..|calls| - 1] == FindersOf(prefix);
    }
  }

  /** After any sequence of calls, each finder's record builder is the one
      it started with (or a new empty one with the builder's finisher), with
      the systems applied to it appended in application order. */
  lemma {:induction false} ReplayRecord(st: BuilderState, calls: seq<BuilderCall>, f: Finder)
    ensures var start := RecordFor(st, f);
      RecordFor(Replay(st, calls), f)
        == start.(existenceSystems := start.existenceSystems + ExistenceFor(calls, f),
                  tickSystems := start.tickSystems + TickFor(calls, f))
  {
    if calls != [] {
      var prefix := calls[..|calls| - 1];
      ReplayRecord(st, prefix, f);
      ReplayFinisher(st, prefix);
      var start := RecordFor(st, f);
      assert start.existenceSystems + ExistenceFor(calls, f)
        == start.existenceSystems + ExistenceFor(prefix, f)
           + (var c := calls[|calls| - 1]; if c.AppliedExistenceSystem? && c.finder == f then [c.system] else []);
      assert start.tickSystems + TickFor(calls, f)
        == start.tickSystems + TickFor(prefix, f)
           + (var c := calls[|calls| - 1]; if c.AppliedTickSystem? && c.finder == f then [c.system] else []);
    }
  }

  lemma {:induction false} ReplayFinisher(st: BuilderState, calls: seq<BuilderCall>)
    ensures Replay(st, calls).finisher == st.finisher
  {
    if calls != [] {
      ReplayFinisher(st, calls[..|calls| - 1]);
    }
  }

  /** The record `new EntityFinderRecord(finder, null)`. */
  datatype EntityFinderRecord = EntityFinderRecord(entityFinder: Finder, currentRegions: Option<seq<Component>>)

  /** `OneEntityFinderToManySystemsRecord`. */
  datatype TrackingRecord = TrackingRecord(
    entityFinderRecord: EntityFinderRecord,
    existenceSystems: seq<System>,
    tickSystems: seq<System>,
    existenceSystemsFinisher: FinisherId)

  /** The `EntityTracker` that `build` constructs. */
  datatype EntityTracker = EntityTracker(
    trackee: nat,
    samplingRadius: real,
    trackingRecords: seq<TrackingRecord>,
    existenceSystemsFinisher: FinisherId)

  const NoFindersMessage := "No entity managers are tracked"

  /** `build()`: a TypeError when the Map is empty; otherwise the build of
      each record builder, in the Map's order. */
  function BuildSpec(st: BuilderState, trackee: nat, samplingRadius: real): Result<EntityTracker> {
    if |st.finders| == 0 then Throw(Error(TypeError, NoFindersMessage))
    else Ok(EntityTracker(trackee, samplingRadius,
                          seq(|st.finders|, i requires 0 <= i < |st.finders| => RecordFor(st, st.finders[i]).Build()),
                          st.finisher))
  }

  /** Building after any sequence of calls fails, with a TypeError, exactly
      when the Map started empty and there were no calls. */
  lemma BuildFailsIffNoCalls(st: BuilderState, calls: seq<BuilderCall>, trackee: nat, samplingRadius: real)
    requires WellFormed(st)
    ensures var r := BuildSpec(Replay(st, calls), trackee, samplingRadius);
      && (r.Throw? <==> st.finders == [] && calls == [])
      && (r.Throw? ==> r.error == Error(TypeError, NoFindersMessage))
  {
    if calls != [] {
      var prefix := calls[..|calls| - 1];
      ReplayOrder(st, prefix);
      ApplyEffect(Replay(st, prefix), calls[|calls| - 1]);
      assert |Replay(st, prefix).finders| <= |Replay(st, calls).finders|;
    }
  }

  /** A tracker built after any sequence of calls holds one record per key
      of the Map: the keys it started with, then each new finder in
      first-use order. Each record is built from the record builder the
      finder started with, with the systems applied to it appended in
      application order, and the tracker gets the builder's finisher. */
  lemma BuiltRecords(st: BuilderState, calls: seq<BuilderCall>, trackee: nat, samplingRadius: real)
    requires WellFormed(st)
    ensures var r := BuildSpec(Replay(st, calls), trackee, samplingRadius);
      r.Ok? ==>
        && r.value.trackee == trackee && r.value.samplingRadius == samplingRadius
        && r.value.existenceSystemsFinisher == st.finisher
        && |r.value.trackingRecords| == |FirstUses(st.finders, FindersOf(calls))|
        && forall i :: 0 <= i < |r.value.trackingRecords| ==>
             var rec := r.value.trackingRecords[i];
             var f := FirstUses(st.finders, FindersOf(calls))[i];
             var start := RecordFor(st, f);
             && rec.entityFinderRecord == EntityFinderRecord(start.entityFinder, None)
             && rec.existenceSystems == start.existenceSystems + ExistenceFor(calls, f)
             && rec.tickSystems == start.tickSystems + TickFor(calls, f)
             && rec.existenceSystemsFinisher == start.existenceSystemsFinisher
  {
    ReplayOrder(st, calls);
    var st' := Replay(st, calls);
    forall i | 0 <= i < |st'.finders|
      ensures var start := RecordFor(st, st'.finders[i]);
        RecordFor(st', st'.finders[i])
          == start.(existenceSystems := start.existenceSystems + ExistenceFor(calls, st'.finders[i]),
                    tickSystems := start.tickSystems + TickFor(calls, st'.finders[i]))
    {
      ReplayRecord(st, calls, st'.finders[i]);
    }
  }

  /** From an empty Map every record builder is created by the builder:
      the tracker holds one record per distinct finder in first-use order,
      each over its own finder with exactly the systems applied to it, and
      all sharing the builder's one finisher. */
  lemma BuiltFromEmpty(finisher: FinisherId, calls: seq<BuilderCall>, trackee: nat, samplingRadius: real)
    ensures var r := BuildSpec(Replay(Empty(finisher), calls), trackee, samplingRadius);
      r.Ok? ==>
        && |r.value.trackingRecords| == |FirstUses([], FindersOf(calls))|
        && forall i :: 0 <= i < |r.value.trackingRecords| ==>
             var rec := r.value.trackingRecords[i];
             var f := FirstUses([], FindersOf(calls))[i];
             && rec.entityFinderRecord == EntityFinderRecord(f, None)
             && rec.existenceSystems == ExistenceFor(calls, f)
             && rec.tickSystems == TickFor(calls, f)
             && rec.existenceSystemsFinisher == finisher
  {
    BuiltRecords(Empty(finisher), calls, trackee, samplingRadius);
  }

  /** `OneEntityFinderToManySystemsRecordBuilder`. The builder hands these
      out only to itself, so the model keeps them as values in its Map and
      writes the updated value back where the source mutates the object. */
  datatype RecordBuilder = RecordBuilder(
    entityFinder: Finder,
    existenceSystemsFinisher: FinisherId,
    existenceSystems: seq<System>,
    tickSystems: seq<System>)
  {
    function AddExistenceSystem(system: System): (r: RecordBuilder)
      ensures r.existenceSystems == existenceSystems + [system] && r.tickSystems == tickSystems
      ensures r.entityFinder == entityFinder && r.existenceSystemsFinisher == existenceSystemsFinisher
    {
      this.(existenceSystems := existenceSystems + [system])
    }

    function AddTickSystem(system: System): (r: RecordBuilder)
      ensures r.tickSystems == tickSystems + [system] && r.existenceSystems == existenceSystems
      ensures r.entityFinder == entityFinder && r.existenceSystemsFinisher == existenceSystemsFinisher
    {
      this.(tickSystems := tickSystems + [system])
    }

    /** `build()`: the record of this finder, with the systems collected so
        far and the shared finisher. */
    function Build(): (r: TrackingRecord)
      ensures r.entityFinderRecord == EntityFinderRecord(entityFinder, None)
      ensures r.existenceSystems == existenceSystems && r.tickSystems == tickSystems
      ensures r.existenceSystemsFinisher == existenceSystemsFinisher
    {
      TrackingRecord(EntityFinderRecord(entityFinder, None), existenceSystems, tickSystems, existenceSystemsFinisher)
    }
  }

  lemma UpdateTwice<K, V>(m: map<K, V>, k: K, v: V, w: V)
    ensures m[k := v][k := w] == m[k := w]
  {
  }

  class EntityTrackerBuilder {
    const trackee: nat
    const samplingRadius: real
    const existenceSystemsFinisher: FinisherId
    /** The Map from finder to its record builder ... */
    var entityFinders: map<Finder, RecordBuilder>
    /** ... and the Map's insertion order. */
    var finderOrder: seq<Finder>

    ghost function View(): BuilderState
      reads this
    {
      BuilderState(finderOrder, entityFinders, existenceSystemsFinisher)
    }

    ghost predicate Valid()
      reads this
    {
      WellFormed(View())
    }

    /** `new EntityTrackerBuilder(trackee, samplingRadius, entityFinders,
        finisher)`, the Map given as its keys in insertion order and the
        record builder under each key. */
    constructor (trackee: nat, samplingRadius: real, finderOrder: seq<Finder>,
                 entityFinders: map<Finder, RecordBuilder>, existenceSystemsFinisher: FinisherId)
      requires WellFormed(BuilderState(finderOrder, entityFinders, existenceSystemsFinisher))
      ensures Valid()
      ensures View() == BuilderState(finderOrder, entityFinders, existenceSystemsFinisher)
      ensures this.trackee == trackee && this.samplingRadius == samplingRadius
    {
      this.trackee := trackee;
      this.samplingRadius := samplingRadius;
      this.existenceSystemsFinisher := existenceSystemsFinisher;
      this.entityFinders := entityFinders;
      this.finderOrder := finderOrder;
    }

    method ApplyExistenceSystem(system: System, entityFinder: Finder) returns (self: EntityTrackerBuilder)
      requires Valid()
      modifies this
      ensures Valid() && self == this
      ensures View() == Apply(old(View()), AppliedExistenceSystem(system, entityFinder))
    {
      ghost var before := View();
      var rb := GetTrackingRecordBuilder(entityFinder);
      var updated := rb.AddExistenceSystem(system);
      if entityFinder !in before.records {
        UpdateTwice(before.records, entityFinder, rb, updated);
      }
      entityFinders := entityFinders[entityFinder := updated];
      self := this;
    }

    method ApplyTickSystem(system: System, entityFinder: Finder) returns (self: EntityTrackerBuilder)
      requires Valid()
      modifies this
      ensures Valid() && self == this
      ensures View() == Apply(old(View()), AppliedTickSystem(system, entityFinder))
    {
      ghost var before := View();
      var rb := GetTrackingRecordBuilder(entityFinder);
      var updated := rb.AddTickSystem(system);
      if entityFinder !in before.records {
        UpdateTwice(before.records, entityFinder, rb, updated);
      }
      entityFinders := entityFinders[entityFinder := updated];
      self := this;
    }

    /** The finder's record builder, created empty with the builder's
        finisher (and put at the end of the Map) only when the finder is
        new. */
    method GetTrackingRecordBuilder(entityFinder: Finder) returns (rb: RecordBuilder)
      requires Valid()
      modifies this
      ensures Valid()
      ensures rb == RecordFor(old(View()), entityFinder)
      ensures entityFinders == old(entityFinders)[entityFinder := rb]
      ensures old(entityFinder in entityFinders) ==> entityFinders == old(entityFinders) && finderOrder == old(finderOrder)
      ensures !old(entityFinder in entityFinders) ==>
        rb == RecordBuilder(entityFinder, existenceSystemsFinisher, [], []) && finderOrder == old(finderOrder) + [entityFinder]
    {
      if entityFinder in entityFinders {
        rb := entityFinders[entityFinder];
        return;
      }
      rb := RecordBuilder(entityFinder, existenceSystemsFinisher, [], []);
      entityFinders := entityFinders[entityFinder := rb];
      finderOrder := finderOrder + [entityFinder];
    }

    /** `build()`: a TypeError when the Map is empty, otherwise the tracker
        with the build of each record builder, in the Map's order. */
    method Build() returns (r: Result<EntityTracker>)
      requires Valid()
      ensures r == BuildSpec(View(), trackee, samplingRadius)
    {
      assert |entityFinders| == 0 <==> finderOrder == [] by {
        if finderOrder != [] {
          assert finderOrder[0] in entityFinders;
        } else {
          assert entityFinders == map[];
        }
      }
      if |entityFinders| == 0 {
        return Throw(Error(TypeError, NoFindersMessage));
      }
      var trackingRecords: seq<TrackingRecord> := [];
      for i := 0 to |finderOrder|
        invariant |trackingRecords| == i
        invariant forall j :: 0 <= j < i ==> trackingRecords[j] == RecordFor(View(), finderOrder[j]).Build()
      {
        var rb := entityFinders[finderOrder[i]];
        trackingRecords := trackingRecords + [rb.Build()];
      }
      ghost var st := View();
      assert trackingRecords == seq(|st.finders|, i requires 0 <= i < |st.finders| => RecordFor(st, st.finders[i]).Build());
      r := Ok(EntityTracker(trackee, samplingRadius, trackingRecords, existenceSystemsFinisher));
    }
  }
}
