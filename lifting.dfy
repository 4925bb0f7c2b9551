/** Lifting: the decorator that turns a per-entity system into a system over
    regions by forwarding each per-member hook to every member of the
    region's container, in iteration order, and forwarding the once-per-tick
    hooks (`finish`, `tick`) exactly once. Both builder languages use it. */
module Lifting {

  /** A system as the builders handle it: one the program supplies (an
      identity), or a lift of another system. */
  datatype System = Given(id: nat) | Lift(inner: System)

  /** What a system's per-member hooks are called with: an entity, or a
      region whose container holds components in iteration order. */
  datatype Component = Entity(id: nat) | Region(id: nat, container: seq<Component>)

  /** The hooks a lift forwards per member; `Update` carries the time
      object (an identity). */
  datatype Hook = Enter | Exit | Update(time: nat)

  /** A call received by a system the program supplied. */
  datatype Call =
    | HookCall(system: nat, hook: Hook, target: Component)
    | FinishCall(system: nat)
    | TickCall(system: nat, time: nat)

  /** The system the lifts wrap. */
  function Original(s: System): nat {
    match s
    case Given(id) => id
    case Lift(inner) => Original(inner)
  }

  /** How many lifts wrap the original system. */
  function Depth(s: System): nat {
    match s
    case Given(_) => 0
    case Lift(inner) => Depth(inner) + 1
  }

  /** The typing the source's generics enforce: a lifted system is only
      ever handed regions whose members its inner system accepts. */
  predicate Accepts(s: System, c: Component)
    decreases s
  {
    match s
    case Given(_) => true
    case Lift(inner) =>
      c.Region? && forall i :: 0 <= i < |c.container| ==> Accepts(inner, c.container[i])
  }

  /** The calls one per-member hook on `s` with `c` makes. */
  function HookCalls(s: System, hook: Hook, c: Component): seq<Call>
    requires Accepts(s, c)
    decreases s, 0
  {
    match s
    case Given(id) => [HookCall(id, hook, c)]
    case Lift(inner) => MembersCalls(inner, hook, c.container)
  }

  /** The calls a lift's loop makes: the hook on each member, in order. */
  function MembersCalls(s: System, hook: Hook, members: seq<Component>): seq<Call>
    requires forall i :: 0 <= i < |members| ==> Accepts(s, members[i])
    decreases s, |members| + 1
  {
    if members == [] then []
    else MembersCalls(s, hook, members[..|members| - 1]) + HookCalls(s, hook, members[|members| - 1])
  }

  /** `finish()`: a lift forwards it to its inner system. */
  function FinishCalls(s: System): seq<Call> {
    match s
    case Given(id) => [FinishCall(id)]
    case Lift(inner) => FinishCalls(inner)
  }

  /** `tick(time)`: a lift forwards it to its inner system. */
  function TickCalls(s: System, time: nat): seq<Call> {
    match s
    case Given(id) => [TickCall(id, time)]
    case Lift(inner) => TickCalls(inner, time)
  }

  /** A per-member hook on `s`: a supplied system receives the call; a lift
      loops over the region's container and calls its inner system on each
      member. */
  method Run(s: System, hook: Hook, c: Component) returns (calls: seq<Call>)
    requires Accepts(s, c)
    ensures calls == HookCalls(s, hook, c)
    decreases s
  {
    match s
    case Given(id) =>
      calls := [HookCall(id, hook, c)];
    case Lift(inner) =>
      calls := [];
      for i := 0 to |c.container|
        invariant calls == MembersCalls(inner, hook, c.container[..i])
      {
        assert c.container[..i + 1][..i] == c.container[..i];
        var more := Run(inner, hook, c.container[i]);
        calls := calls + more;
      }
      assert c.container[..|c.container|] == c.container;
  }

  /** A lift over a supplied system calls it once per member of the
      region's container, in iteration order, with the same hook. */
  lemma {:induction false} LiftedHookVisitsMembers(id: nat, hook: Hook, members: seq<Component>)
    ensures |MembersCalls(Given(id), hook, members)| == |members|
    ensures forall i :: 0 <= i < |members| ==> MembersCalls(Given(id), hook, members)[i] == HookCall(id, hook, members[i])
  {
    if members != [] {
      LiftedHookVisitsMembers(id, hook, members[..|members| - 1]);
    }
  }

  /** Lifted `enter`/`exit` on a region of entities: one inner call per
      member, in order. */
  lemma LiftedEnterExitVisitsMembers(id: nat, region: Component)
    requires region.Region?
    ensures Accepts(Lift(Given(id)), region)
    ensures var calls := HookCalls(Lift(Given(id)), Enter, region);
      |calls| == |region.container| &&
      forall i :: 0 <= i < |calls| ==> calls[i] == HookCall(id, Enter, region.container[i])
    ensures var calls := HookCalls(Lift(Given(id)), Exit, region);
      |calls| == |region.container| &&
      forall i :: 0 <= i < |calls| ==> calls[i] == HookCall(id, Exit, region.container[i])
  {
    LiftedHookVisitsMembers(id, Enter, region.container);
    LiftedHookVisitsMembers(id, Exit, region.container);
  }

  /** Every call a per-member hook makes, however deeply lifted, is that
      same hook: a lifted `update` passes the same time to every member. */
  lemma {:induction false} HookCallsSameHook(s: System, hook: Hook, c: Component)
    requires Accepts(s, c)
    ensures forall k :: 0 <= k < |HookCalls(s, hook, c)| ==>
      HookCalls(s, hook, c)[k].HookCall? && HookCalls(s, hook, c)[k].hook == hook
      && HookCalls(s, hook, c)[k].system == Original(s)
    decreases s, 0
  {
    match s
    case Given(_) =>
    case Lift(inner) => MembersCallsSameHook(inner, hook, c.container);
  }

  lemma {:induction false} MembersCallsSameHook(s: System, hook: Hook, members: seq<Component>)
    requires forall i :: 0 <= i < |members| ==> Accepts(s, members[i])
    ensures forall k :: 0 <= k < |MembersCalls(s, hook, members)| ==>
      MembersCalls(s, hook, members)[k].HookCall? && MembersCalls(s, hook, members)[k].hook == hook
      && MembersCalls(s, hook, members)[k].system == Original(s)
    decreases s, |members| + 1
  {
    if members != [] {
      MembersCallsSameHook(s, hook, members[..|members| - 1]);
      HookCallsSameHook(s, hook, members[|members| - 1]);
    }
  }

  /** A lift over a region with an empty container makes no inner calls. */
  lemma EmptyRegionNoCalls(inner: System, hook: Hook, id: nat)
    ensures HookCalls(Lift(inner), hook, Region(id, [])) == []
  {
  }

  /** `finish` reaches the original system exactly once, whatever the lifts
      and whatever the regions hold. */
  lemma {:induction false} FinishForwardsOnce(s: System)
    ensures FinishCalls(s) == [FinishCall(Original(s))]
    ensures FinishCalls(Lift(s)) == FinishCalls(s)
  {
    match s
    case Given(_) =>
    case Lift(inner) => FinishForwardsOnce(inner);
  }

  /** `tick(time)` reaches the original system exactly once, with the same
      time. */
  lemma {:induction false} TickForwardsOnce(s: System, time: nat)
    ensures TickCalls(s, time) == [TickCall(Original(s), time)]
    ensures TickCalls(Lift(s), time) == TickCalls(s, time)
  {
    match s
    case Given(_) =>
    case Lift(inner) => TickForwardsOnce(inner, time);
  }
}
