/** The collision detector: an existence system over regions of renderable
    entities that keeps the Set of regions currently in range, and answers
    whether any entity of those regions satisfies a test (or overlaps a
    given display). Bounds and their intersection are not part of this
    model; they are given as a relation between displays. */
module CollisionDetectionSystem {
  import opened Base
  import opened Space

  /** A renderable entity: its identity and its display's identity. */
  datatype Renderable = Renderable(entity: nat, display: nat)

  /** Whether the bounds of the first display intersect those of the second. */
  type Intersects = (nat, nat) -> bool

  /** Some member of some region satisfies `callback`. */
  predicate AnyMember(regions: seq<Region<Renderable>>, callback: Renderable -> bool) {
    exists i, j :: 0 <= i < |regions| && 0 <= j < |regions[i].container| && callback(regions[i].container[j])
  }

  /** The `any` over the flattened regions, region by region, member by
      member. */
  function AnyIn(regions: seq<Region<Renderable>>, callback: Renderable -> bool): (r: bool)
    ensures r <==> AnyMember(regions, callback)
  {
    if regions == [] then false
    else
      var rest := AnyIn(regions[1..], callback);
      assert forall i :: 1 <= i < |regions| ==> regions[i] == regions[1..][i - 1];
      assert rest ==> AnyMember(regions, callback) by {
        if rest {
          var i, j :| 0 <= i < |regions[1..]| && 0 <= j < |regions[1..][i].container| && callback(regions[1..][i].container[j]);
          assert callback(regions[i + 1].container[j]);
        }
      }
      AnyInContainer(regions[0].container, callback) || rest
  }

  function AnyInContainer(members: seq<Renderable>, callback: Renderable -> bool): (r: bool)
    ensures r <==> exists j :: 0 <= j < |members| && callback(members[j])
  {
    if members == [] then false
    else callback(members[0]) || AnyInContainer(members[1..], callback)
  }

  /** The test `collidesWith(display)` applies: never the queried display
      itself, otherwise the intersection of the bounds. */
  function OverlapsOther(display: nat, intersects: Intersects): Renderable -> bool {
    (entity: Renderable) => entity.display != display && intersects(entity.display, display)
  }

  class CollisionDetectionSystem {
    var currentRegions: seq<Region<Renderable>>

    ghost predicate Valid()
      reads this
    {
      Distinct(currentRegions)
    }

    /** `new CollisionDetectionSystem(currentRegions = new Set())`. */
    constructor (currentRegions: seq<Region<Renderable>>)
      requires Distinct(currentRegions)
      ensures Valid() && this.currentRegions == currentRegions
    {
      this.currentRegions := currentRegions;
    }

    /** `enter`: the region is added to the Set (once, however often it
        enters). */
    method Enter(region: Region<Renderable>)
      requires Valid()
      modifies this
      ensures Valid() && currentRegions == Inserted(old(currentRegions), region)
    {
      currentRegions := Inserted(currentRegions, region);
    }

    /** `exit`: the region is deleted from the Set, if it was there. */
    method Exit(region: Region<Renderable>)
      requires Valid()
      modifies this
      ensures Valid() && currentRegions == Without(old(currentRegions), region)
    {
      currentRegions := Without(currentRegions, region);
    }

    /** `finish`: nothing. */
    method Finish()
      ensures unchanged(this)
    {
    }

    /** `collidesIf(callback)`: whether any entity of any current region
        satisfies the callback. */
    function CollidesIf(callback: Renderable -> bool): (r: bool)
      reads this
      ensures r <==> AnyMember(currentRegions, callback)
    {
      AnyIn(currentRegions, callback)
    }

    /** `collidesWith(display)`: whether any entity of the current regions,
        other than one with that very display, overlaps it. */
    function CollidesWith(display: nat, intersects: Intersects): (r: bool)
      reads this
      ensures r <==> (exists i, j :: 0 <= i < |currentRegions| && 0 <= j < |currentRegions[i].container| &&
                        currentRegions[i].container[j].display != display &&
                        intersects(currentRegions[i].container[j].display, display))
    {
      CollidesIf(OverlapsOther(display, intersects))
    }
  }

  /** Entering is idempotent, and a region that entered is held once. */
  lemma EnterTwiceIsEnterOnce(regions: seq<Region<Renderable>>, region: Region<Renderable>)
    requires Distinct(regions)
    ensures Inserted(Inserted(regions, region), region) == Inserted(regions, region)
    ensures forall i, j :: 0 <= i < j < |Inserted(regions, region)| ==>
      Inserted(regions, region)[i] != Inserted(regions, region)[j]
  {
  }

  /** A new region that enters and then exits leaves the Set as it was. */
  lemma EnterThenExitRestores(regions: seq<Region<Renderable>>, region: Region<Renderable>)
    requires region !in regions
    ensures Without(Inserted(regions, region), region) == regions
  {
    WithoutAppend(regions, region);
  }

  predicate AnyInRegion(region: Region<Renderable>, callback: Renderable -> bool) {
    exists j :: 0 <= j < |region.container| && callback(region.container[j])
  }

  /** Entering a region makes queries see exactly its members in addition. */
  lemma EnterAddsItsMembers(regions: seq<Region<Renderable>>, region: Region<Renderable>, callback: Renderable -> bool)
    ensures AnyMember(Inserted(regions, region), callback) <==> AnyMember(regions, callback) || AnyInRegion(region, callback)
  {
    if region in regions {
      if AnyInRegion(region, callback) {
        var j :| 0 <= j < |region.container| && callback(region.container[j]);
        var k :| 0 <= k < |regions| && regions[k] == region;
        assert callback(regions[k].container[j]);
      }
    } else {
      var ins := regions + [region];
      if AnyInRegion(region, callback) {
        var j :| 0 <= j < |region.container| && callback(region.container[j]);
        assert callback(ins[|regions|].container[j]);
      }
      if AnyMember(regions, callback) {
        var i, j :| 0 <= i < |regions| && 0 <= j < |regions[i].container| && callback(regions[i].container[j]);
        assert callback(ins[i].container[j]);
      }
      if AnyMember(ins, callback) {
        var i, j :| 0 <= i < |ins| && 0 <= j < |ins[i].container| && callback(ins[i].container[j]);
        if i < |regions| {
          assert callback(regions[i].container[j]);
        }
      }
    }
  }

  /** Exiting a region can only take query results away. */
  lemma ExitRemovesOnly(regions: seq<Region<Renderable>>, region: Region<Renderable>, callback: Renderable -> bool)
    ensures AnyMember(Without(regions, region), callback) ==> AnyMember(regions, callback)
  {
    var out := Without(regions, region);
    if AnyMember(out, callback) {
      var i, j :| 0 <= i < |out| && 0 <= j < |out[i].container| && callback(out[i].container[j]);
      var k :| 0 <= k < |regions| && regions[k] == out[i];
      assert callback(regions[k].container[j]);
    }
  }

  /** An entity whose display is the queried one never counts as a
      collision, whatever the bounds say. */
  lemma OwnDisplayNeverCollides(regions: seq<Region<Renderable>>, display: nat, intersects: Intersects)
    requires forall i, j :: 0 <= i < |regions| && 0 <= j < |regions[i].container| ==> regions[i].container[j].display == display
    ensures !AnyIn(regions, OverlapsOther(display, intersects))
  {
  }
}
