/** The blink-aware display system for regions of stationary entities. On
    `enter` each member is dispatched on its blink state: a blinking one is
    drawn uncached and positioned, one whose blink has ended releases it and
    is adopted by the region, one without blink is adopted only if its
    display has no parent. On `exit` each member with a blink leaves the
    uncached drawing, and releases its blink unless still blinking. The
    collaborators' own work is not part of this model: their calls form the
    returned trace. */
module BlinkCachedDisplaySystem {

  /** What a member reports when it is visited: `hasBlink()`,
      `isBlinking()`, and whether `display.parent` is set. For `exit`,
      `isBlinking` is the value read after `addChildUncachedSystem.exit`
      has been called on the member, which is when the source reads it. */
  datatype Member = Member(id: nat, hasBlink: bool, isBlinking: bool, hasParent: bool)

  /** The region: its identity and its container's members in order. */
  datatype Target = Target(id: nat, container: seq<Member>)

  /** One call on a collaborator or a member. */
  datatype Effect =
    | UncachedEnter(entity: nat)
    | PositioningEnter(entity: nat)
    | ReleaseBlink(entity: nat)
    | Adopt(entity: nat, region: nat)
    | UncachedExit(entity: nat)

  /** The calls `enter` makes for one member. */
  function EnterEffects(e: Member, region: nat): seq<Effect> {
    if e.hasBlink then
      if e.isBlinking then [UncachedEnter(e.id), PositioningEnter(e.id)]
      else [ReleaseBlink(e.id), Adopt(e.id, region)]
    else if !e.hasParent then [Adopt(e.id, region)]
    else []
  }

  /** The calls `exit` makes for one member: the lazy pipeline finishes
      each member before it looks at the next. */
  function ExitEffects(e: Member): seq<Effect> {
    if e.hasBlink then [UncachedExit(e.id)] + (if !e.isBlinking then [ReleaseBlink(e.id)] else [])
    else []
  }

  function EnterTrace(members: seq<Member>, region: nat): seq<Effect> {
    if members == [] then [] else EnterTrace(members[..|members| - 1], region) + EnterEffects(members[|members| - 1], region)
  }

  function ExitTrace(members: seq<Member>): seq<Effect> {
    if members == [] then [] else ExitTrace(members[..|members| - 1]) + ExitEffects(members[|members| - 1])
  }

  /** A call is in the `enter` trace exactly when some member makes it. */
  lemma {:induction false} EnterTraceMembers(members: seq<Member>, region: nat, y: Effect)
    ensures y in EnterTrace(members, region) <==> exists i :: 0 <= i < |members| && y in EnterEffects(members[i], region)
  {
    if members != [] {
      var prefix := members[..|members| - 1];
      EnterTraceMembers(prefix, region, y);
      assert forall i :: 0 <= i < |prefix| ==> prefix[i] == members[i];
    }
  }

  /** A call is in the `exit` trace exactly when some member makes it. */
  lemma {:induction false} ExitTraceMembers(members: seq<Member>, y: Effect)
    ensures y in ExitTrace(members) <==> exists i :: 0 <= i < |members| && y in ExitEffects(members[i])
  {
    if members != [] {
      var prefix := members[..|members| - 1];
      ExitTraceMembers(prefix, y);
      assert forall i :: 0 <= i < |prefix| ==> prefix[i] == members[i];
    }
  }

  /** Who gets what on `enter`: an uncached drawing and a position exactly
      for the blinking members; a released blink exactly for members whose
      blink has ended; adoption by the region exactly for those and for
      members without blink and without a parent. */
  lemma {:induction false} EnterDispatch(members: seq<Member>, region: nat, x: nat)
    ensures UncachedEnter(x) in EnterTrace(members, region) <==>
      exists i :: 0 <= i < |members| && members[i].id == x && members[i].hasBlink && members[i].isBlinking
    ensures PositioningEnter(x) in EnterTrace(members, region) <==>
      exists i :: 0 <= i < |members| && members[i].id == x && members[i].hasBlink && members[i].isBlinking
    ensures ReleaseBlink(x) in EnterTrace(members, region) <==>
      exists i :: 0 <= i < |members| && members[i].id == x && members[i].hasBlink && !members[i].isBlinking
    ensures Adopt(x, region) in EnterTrace(members, region) <==>
      exists i :: 0 <= i < |members| && members[i].id == x &&
        ((members[i].hasBlink && !members[i].isBlinking) || (!members[i].hasBlink && !members[i].hasParent))
    ensures UncachedExit(x) !in EnterTrace(members, region)
  {
    EnterTraceMembers(members, region, UncachedEnter(x));
    EnterTraceMembers(members, region, PositioningEnter(x));
    EnterTraceMembers(members, region, ReleaseBlink(x));
    EnterTraceMembers(members, region, Adopt(x, region));
    EnterTraceMembers(members, region, UncachedExit(x));
  }

  /** Who gets what on `exit`: leaving the uncached drawing exactly for
      members with a blink, a released blink exactly for those no longer
      blinking, nothing for members without blink. */
  lemma {:induction false} ExitDispatch(members: seq<Member>, x: nat)
    ensures UncachedExit(x) in ExitTrace(members) <==>
      exists i :: 0 <= i < |members| && members[i].id == x && members[i].hasBlink
    ensures ReleaseBlink(x) in ExitTrace(members) <==>
      exists i :: 0 <= i < |members| && members[i].id == x && members[i].hasBlink && !members[i].isBlinking
    ensures forall r :: Adopt(x, r) !in ExitTrace(members)
    ensures UncachedEnter(x) !in ExitTrace(members) && PositioningEnter(x) !in ExitTrace(members)
  {
    ExitTraceMembers(members, UncachedExit(x));
    ExitTraceMembers(members, ReleaseBlink(x));
    ExitTraceMembers(members, UncachedEnter(x));
    ExitTraceMembers(members, PositioningEnter(x));
    forall r
      ensures Adopt(x, r) !in ExitTrace(members)
    {
      ExitTraceMembers(members, Adopt(x, r));
    }
  }

  /** A blinking member is drawn uncached before it is positioned, and a
      member whose blink ended releases it before it is adopted. */
  lemma EnterOrderPerMember(e: Member, region: nat)
    ensures e.hasBlink && e.isBlinking ==> EnterEffects(e, region) == [UncachedEnter(e.id), PositioningEnter(e.id)]
    ensures e.hasBlink && !e.isBlinking ==> EnterEffects(e, region) == [ReleaseBlink(e.id), Adopt(e.id, region)]
    ensures !e.hasBlink && e.hasParent ==> EnterEffects(e, region) == []
  {
  }

  class BlinkCachedDisplaySystem {
    /** The identities of the positioning and uncached add-child systems. */
    const positioningSystem: nat
    const addChildUncachedSystem: nat

    constructor (positioningSystem: nat, addChildUncachedSystem: nat)
      ensures this.positioningSystem == positioningSystem && this.addChildUncachedSystem == addChildUncachedSystem
    {
      this.positioningSystem := positioningSystem;
      this.addChildUncachedSystem := addChildUncachedSystem;
    }

    method Enter(region: Target) returns (effects: seq<Effect>)
      ensures effects == EnterTrace(region.container, region.id)
    {
      effects := [];
      for i := 0 to |region.container|
        invariant effects == EnterTrace(region.container[..i], region.id)
      {
        var entity := region.container[i];
        assert region.container[..i + 1][..i] == region.container[..i];
        if entity.hasBlink {
          if entity.isBlinking {
            effects := effects + [UncachedEnter(entity.id)];
            effects := effects + [PositioningEnter(entity.id)];
          } else {
            effects := effects + [ReleaseBlink(entity.id)];
            effects := effects + [Adopt(entity.id, region.id)];
          }
        } else {
          if !entity.hasParent {
            effects := effects + [Adopt(entity.id, region.id)];
          }
        }
      }
      assert region.container[..|region.container|] == region.container;
    }

    /** `update`: nothing. */
    method Update()
      ensures unchanged(this)
    {
    }

    method Exit(region: Target) returns (effects: seq<Effect>)
      ensures effects == ExitTrace(region.container)
    {
      effects := [];
      for i := 0 to |region.container|
        invariant effects == ExitTrace(region.container[..i])
      {
        var entity := region.container[i];
        assert region.container[..i + 1][..i] == region.container[..i];
        if entity.hasBlink {
          effects := effects + [UncachedExit(entity.id)];
          if !entity.isBlinking {
            effects := effects + [ReleaseBlink(entity.id)];
          }
        }
      }
      assert region.container[..|region.container|] == region.container;
    }

    /** `finish`: nothing. */
    method Finish()
      ensures unchanged(this)
    {
    }
  }
}
