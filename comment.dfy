/** Comments: the data a comment is loaded from, the comment entity with
    its coherent (no display) and decoherent (displayed text) states, and
    the manager that builds entities, hands them to the entity manager,
    keeps the font setting and decides whether a rectangle is free of
    displayed comments. Phaser's text objects, colours and rectangle
    intersection are not part of this model: a text is the value it is made
    from, a colour stays the number it is converted from, and intersection
    is a parameter. */
module Comment {
  import opened Base
  import opened Space

  /** The effect a comment carries, by identity. */
  type EffectData = nat

  datatype CommentData = CommentData(
    size: int,
    color: int,
    sendTime: int,
    userId: int,
    text: string,
    coordinateX: real,
    coordinateY: real,
    effectData: Option<EffectData>)

  /** `Phaser.Color.getWebRGB(color)`: the web colour of a number. */
  datatype Fill = WebRgb(color: int)

  /** A `Phaser.Text` made by `makeText`: content and style. */
  datatype TextDisplay = TextDisplay(text: string, font: string, fontSize: int, fill: Fill)

  /** An axis-aligned rectangle. */
  datatype Rectangle = Rectangle(x: real, y: real, width: real, height: real)

  /** Whether a text's bounds intersect a rectangle (with tolerance 0). */
  type Intersects = (TextDisplay, Rectangle) -> bool

  const DecoherentMessage: string := "CommentEntity is decoherent"
  const CoherentMessage: string := "CommentEntity is coherent"

  /** The state change of `decohere`, given the text `makeText` would make:
      a coherent entity takes that text as its display; a decoherent one
      throws and keeps its display. */
  function DecohereStep(display: Option<TextDisplay>, made: TextDisplay): (r: (Option<TextDisplay>, Outcome))
    ensures display.None? ==> r == (Some(made), Done)
    ensures display.Some? ==> r == (display, Raise(Error(PlainError, DecoherentMessage)))
  {
    if display.Some? then (display, Raise(Error(PlainError, DecoherentMessage))) else (Some(made), Done)
  }

  /** The state change of `cohere`: a decoherent entity drops its display;
      a coherent one throws. */
  function CohereStep(display: Option<TextDisplay>): (r: (Option<TextDisplay>, Outcome))
    ensures display.Some? ==> r == (None, Done)
    ensures display.None? ==> r == (None, Raise(Error(PlainError, CoherentMessage)))
  {
    if display.None? then (None, Raise(Error(PlainError, CoherentMessage))) else (None, Done)
  }

  /** `measure()`: the display of a decoherent entity; a coherent one
      throws. */
  function MeasureOf(display: Option<TextDisplay>): (r: Result<TextDisplay>)
    ensures r.Ok? <==> display.Some?
    ensures display.Some? ==> r.value == display.value
    ensures display.None? ==> r.error == Error(PlainError, CoherentMessage)
  {
    if display.None? then Throw(Error(PlainError, CoherentMessage)) else Ok(display.value)
  }

  /** Decohering and then cohering a fresh entity succeeds twice and leaves
      it coherent again; in between it measures as the text made. Cohering
      twice, or decohering twice, throws the second time and changes
      nothing. */
  lemma CoherenceRoundTrip(made: TextDisplay, other: TextDisplay)
    ensures DecohereStep(None, made).1 == Done
    ensures MeasureOf(DecohereStep(None, made).0) == Ok(made)
    ensures CohereStep(DecohereStep(None, made).0) == (None, Done)
    ensures DecohereStep(DecohereStep(None, made).0, other) == (Some(made), Raise(Error(PlainError, DecoherentMessage)))
    ensures CohereStep(CohereStep(Some(made)).0) == (None, Raise(Error(PlainError, CoherentMessage)))
  {
  }

  /** One call the entity manager receives. */
  datatype ManagerCall = LoadOne(entity: CommentEntity) | LoadBatchOf(entities: seq<CommentEntity>)

  /** The entity manager of comment entities; it records the loads it
      receives. */
  class CommentEntityManager {
    var calls: seq<ManagerCall>

    constructor ()
      ensures calls == []
    {
      calls := [];
    }

    method Load(entity: CommentEntity)
      modifies this
      ensures calls == old(calls) + [LoadOne(entity)]
    {
      calls := calls + [LoadOne(entity)];
    }

    method LoadBatch(entities: seq<CommentEntity>)
      modifies this
      ensures calls == old(calls) + [LoadBatchOf(entities)]
    {
      calls := calls + [LoadBatchOf(entities)];
    }
  }

  class CommentEntity {
    const size: int
    const color: int
    const text: string
    const coordinate: Point
    const commentManager: CommentManager
    var display: Option<TextDisplay>

    /** A new entity is coherent. */
    constructor (size: int, color: int, text: string, coordinate: Point, commentManager: CommentManager)
      ensures this.size == size && this.color == color && this.text == text
      ensures this.coordinate == coordinate && this.commentManager == commentManager
      ensures display.None?
    {
      this.size := size;
      this.color := color;
      this.text := text;
      this.coordinate := coordinate;
      this.commentManager := commentManager;
      display := None;
    }

    /** The text `decohere` makes, in the manager's current font. */
    function MadeText(): TextDisplay
      reads this, commentManager
    {
      commentManager.MakeText(text, size, WebRgb(color))
    }

    method Decohere(parentCoordinate: Point) returns (outcome: Outcome)
      modifies this
      ensures (display, outcome) == DecohereStep(old(display), old(MadeText()))
    {
      if display.Some? {
        return Raise(Error(PlainError, DecoherentMessage));
      }
      display := Some(commentManager.MakeText(text, size, WebRgb(color)));
      return Done;
    }

    method Cohere() returns (outcome: Outcome)
      modifies this
      ensures (display, outcome) == CohereStep(old(display))
    {
      if display.None? {
        return Raise(Error(PlainError, CoherentMessage));
      }
      display := None;
      return Done;
    }

    /** `measure()`: the display of a decoherent entity; a coherent one
        throws. */
    function Measure(): (r: Result<TextDisplay>)
      reads this
      ensures r.Ok? <==> display.Some?
      ensures display.Some? ==> r.value == display.value
      ensures display.None? ==> r.error == Error(PlainError, CoherentMessage)
    {
      MeasureOf(display)
    }
  }

  /** The displays of the entities of each region, as `canPlaceIn` sees
      them. */
  function DisplaysOf(regions: seq<Region<CommentEntity>>): (r: seq<seq<Option<TextDisplay>>>)
    reads Members(regions)
    ensures |r| == |regions|
    ensures forall i :: 0 <= i < |regions| ==> |r[i]| == |regions[i].container|
    ensures forall i :: 0 <= i < |regions| ==> r[i] == ContainerDisplays(regions[i].container)
  {
    if regions == [] then []
    else
      assert forall i :: 1 <= i < |regions| ==> regions[1..][i - 1] == regions[i];
      [ContainerDisplays(regions[0].container)] + DisplaysOf(regions[1..])
  }

  /** The entities of all the regions. */
  function Members(regions: seq<Region<CommentEntity>>): (r: set<CommentEntity>)
    ensures forall i, j :: 0 <= i < |regions| && 0 <= j < |regions[i].container| ==> regions[i].container[j] in r
  {
    if regions == [] then {}
    else
      assert forall i :: 1 <= i < |regions| ==> regions[1..][i - 1] == regions[i];
      (set x | x in regions[0].container) + Members(regions[1..])
  }

  function ContainerDisplays(members: seq<CommentEntity>): (r: seq<Option<TextDisplay>>)
    reads members
    ensures |r| == |members| && forall j :: 0 <= j < |members| ==> r[j] == members[j].display
  {
    if members == [] then [] else [members[0].display] + ContainerDisplays(members[1..])
  }

  /** The inner `forEach` of one region: measure entity by entity until one
      intersects the rectangle; measuring a coherent entity throws. */
  function RegionCollides(members: seq<Option<TextDisplay>>, bound: Rectangle, intersects: Intersects): Result<bool> {
    if members == [] then Ok(false)
    else
      match MeasureOf(members[0])
      case Throw(e) => Throw(e)
      case Ok(text) => if intersects(text, bound) then Ok(true) else RegionCollides(members[1..], bound, intersects)
  }

  /** `canPlaceIn(bound)`: regions are scanned in order and the scan stops
      at the first region with a collision; the rectangle is free when no
      region has one. */
  function Placement(regions: seq<seq<Option<TextDisplay>>>, bound: Rectangle, intersects: Intersects): Result<bool> {
    if regions == [] then Ok(true)
    else
      match RegionCollides(regions[0], bound, intersects)
      case Throw(e) => Throw(e)
      case Ok(hit) => if hit then Ok(false) else Placement(regions[1..], bound, intersects)
  }

  /** Over displayed comments only, a region collides exactly when one of
      its texts intersects the rectangle. */
  lemma {:induction false} RegionCollidesIff(members: seq<Option<TextDisplay>>, bound: Rectangle, intersects: Intersects)
    requires forall j :: 0 <= j < |members| ==> members[j].Some?
    ensures RegionCollides(members, bound, intersects)
      == Ok(exists j :: 0 <= j < |members| && intersects(members[j].value, bound))
  {
    if members != [] {
      RegionCollidesIff(members[1..], bound, intersects);
      assert forall j :: 1 <= j < |members| ==> members[j] == members[1..][j - 1];
    }
  }

  /** When every entity of the current regions is displayed, `canPlaceIn`
      returns false exactly when some entity's text intersects the
      rectangle, and never throws. */
  lemma {:induction false} PlacementIff(regions: seq<seq<Option<TextDisplay>>>, bound: Rectangle, intersects: Intersects)
    requires forall i, j :: 0 <= i < |regions| && 0 <= j < |regions[i]| ==> regions[i][j].Some?
    ensures Placement(regions, bound, intersects)
      == Ok(!exists i, j :: 0 <= i < |regions| && 0 <= j < |regions[i]| && intersects(regions[i][j].value, bound))
  {
    if regions != [] {
      RegionCollidesIff(regions[0], bound, intersects);
      PlacementIff(regions[1..], bound, intersects);
      assert forall i :: 1 <= i < |regions| ==> regions[i] == regions[1..][i - 1];
      if exists j :: 0 <= j < |regions[0]| && intersects(regions[0][j].value, bound) {
        var j :| 0 <= j < |regions[0]| && intersects(regions[0][j].value, bound);
        assert intersects(regions[0][j].value, bound);
      }
    }
  }

  /** `canPlaceIn` throws only by measuring a coherent entity. */
  lemma {:induction false} PlacementThrowsOnlyOnCoherent(regions: seq<seq<Option<TextDisplay>>>, bound: Rectangle, intersects: Intersects)
    ensures Placement(regions, bound, intersects).Throw? ==>
      Placement(regions, bound, intersects).error == Error(PlainError, CoherentMessage)
      && exists i, j :: 0 <= i < |regions| && 0 <= j < |regions[i]| && regions[i][j].None?
  {
    if regions != [] {
      RegionThrowsOnlyOnCoherent(regions[0], bound, intersects);
      PlacementThrowsOnlyOnCoherent(regions[1..], bound, intersects);
      if Placement(regions, bound, intersects).Throw? && !RegionCollides(regions[0], bound, intersects).Throw? {
        var i, j :| 0 <= i < |regions[1..]| && 0 <= j < |regions[1..][i]| && regions[1..][i][j].None?;
        assert regions[i + 1][j].None?;
      }
    }
  }

  lemma {:induction false} RegionThrowsOnlyOnCoherent(members: seq<Option<TextDisplay>>, bound: Rectangle, intersects: Intersects)
    ensures RegionCollides(members, bound, intersects).Throw? ==>
      RegionCollides(members, bound, intersects).error == Error(PlainError, CoherentMessage)
      && exists j :: 0 <= j < |members| && members[j].None?
  {
    if members != [] && members[0].Some? {
      RegionThrowsOnlyOnCoherent(members[1..], bound, intersects);
      if RegionCollides(members, bound, intersects).Throw? {
        var j :| 0 <= j < |members[1..]| && members[1..][j].None?;
        assert members[j + 1].None?;
      }
    }
  }

  class CommentManager {
    const entityManager: CommentEntityManager
    var fontFamily: string

    /** The manager starts with the font family setting; the subscription
        to its changes is not part of this model. */
    constructor (entityManager: CommentEntityManager, fontFamilySetting: string)
      ensures this.entityManager == entityManager && fontFamily == fontFamilySetting
    {
      this.entityManager := entityManager;
      fontFamily := fontFamilySetting;
    }

    /** `canPlaceIn(bound)` over the current regions of the entity manager,
        as the entity tracker reports them. */
    method CanPlaceIn(regions: seq<Region<CommentEntity>>, bound: Rectangle, intersects: Intersects) returns (r: Result<bool>)
      ensures r == Placement(DisplaysOf(regions), bound, intersects)
    {
      ghost var displays := DisplaysOf(regions);
      var i := 0;
      while i < |regions|
        invariant 0 <= i <= |regions|
        invariant Placement(displays, bound, intersects) == Placement(displays[i..], bound, intersects)
      {
        var members := regions[i].container;
        ghost var region := displays[i];
        assert displays[i..][0] == region == ContainerDisplays(members);
        var hasCollision := false;
        var j := 0;
        while j < |members| && !hasCollision
          invariant 0 <= j <= |members|
          invariant !hasCollision ==>
            RegionCollides(region, bound, intersects) == RegionCollides(region[j..], bound, intersects)
          invariant hasCollision ==> RegionCollides(region, bound, intersects) == Ok(true)
        {
          var measured := members[j].Measure();
          if measured.Throw? {
            assert Placement(displays[i..], bound, intersects) == Throw(measured.error);
            return Throw(measured.error);
          }
          hasCollision := intersects(measured.value, bound);
          assert region[j..][1..] == region[j + 1..];
          j := j + 1;
        }
        if hasCollision {
          return Ok(false);
        }
        assert displays[i..][1..] == displays[i + 1..];
        i := i + 1;
      }
      assert displays[i..] == [];
      return Ok(true);
    }

    /** The text `makeText` makes: the given content, size and fill in the
        current font. */
    function MakeText(text: string, size: int, fill: Fill): (r: TextDisplay)
      reads this
      ensures r.text == text && r.fontSize == size && r.fill == fill && r.font == fontFamily
    {
      TextDisplay(text, fontFamily, size, fill)
    }

    /** `onFontChanged(fontFamily)`: afterwards the font is the given one,
        whether it was already or not. */
    method OnFontChanged(fontFamily: string)
      modifies this
      ensures this.fontFamily == fontFamily
    {
      if this.fontFamily == fontFamily {
        return;
      }
      this.fontFamily := fontFamily;
    }

    /** `buildEntity(data)`: a coherent entity with the data's size, colour,
        text and coordinates. */
    method BuildEntity(data: CommentData) returns (comment: CommentEntity)
      ensures fresh(comment) && comment.display.None? && comment.commentManager == this
      ensures comment.size == data.size && comment.color == data.color && comment.text == data.text
      ensures comment.coordinate == Point(data.coordinateX, data.coordinateY)
    {
      comment := new CommentEntity(data.size, data.color, data.text, Point(data.coordinateX, data.coordinateY), this);
    }

    /** `loadBatch(commentsData)`: one new entity per item, in order, all
        handed to the entity manager in one call. */
    method LoadBatch(commentsData: seq<CommentData>) returns (comments: seq<CommentEntity>)
      modifies entityManager
      ensures |comments| == |commentsData|
      ensures forall i :: 0 <= i < |comments| ==>
        fresh(comments[i]) && comments[i].display.None? && comments[i].text == commentsData[i].text
        && comments[i].size == commentsData[i].size && comments[i].color == commentsData[i].color
        && comments[i].coordinate == Point(commentsData[i].coordinateX, commentsData[i].coordinateY)
        && comments[i].commentManager == this
      ensures entityManager.calls == old(entityManager.calls) + [LoadBatchOf(comments)]
    {
      comments := [];
      for i := 0 to |commentsData|
        invariant |comments| == i
        invariant forall k :: 0 <= k < i ==>
          fresh(comments[k]) && comments[k].display.None? && comments[k].text == commentsData[k].text
          && comments[k].size == commentsData[k].size && comments[k].color == commentsData[k].color
          && comments[k].coordinate == Point(commentsData[k].coordinateX, commentsData[k].coordinateY)
          && comments[k].commentManager == this
        invariant entityManager.calls == old(entityManager.calls)
      {
        var comment := BuildEntity(commentsData[i]);
        comments := comments + [comment];
      }
      entityManager.LoadBatch(comments);
    }

    /** `load(commentData)`: one new entity, handed to the entity manager. */
    method Load(commentData: CommentData) returns (comment: CommentEntity)
      modifies entityManager
      ensures fresh(comment) && comment.display.None? && comment.commentManager == this
      ensures comment.size == commentData.size && comment.color == commentData.color && comment.text == commentData.text
      ensures comment.coordinate == Point(commentData.coordinateX, commentData.coordinateY)
      ensures entityManager.calls == old(entityManager.calls) + [LoadOne(comment)]
    {
      comment := BuildEntity(commentData);
      entityManager.Load(comment);
    }
  }
}
