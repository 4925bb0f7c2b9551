/** The game's physical constants and the render radius derived from the
    screen size. JavaScript numbers are taken as exact reals, so 1.1 is
    eleven tenths. */
module PhysicalConstants {

  const WorldSize: real := 40000.0
  const BackgroundSamplingRadius: real := WorldSize / 10.0
  const CommentChunksCount: real := 50.0
  const EntityTrackerUpdateRadius: real := WorldSize / CommentChunksCount
  const PlayerMoveDistancePerSecond: real := 216.0
  const MaximumCommentWidth: real := 100.0
  /** A comment is anchored at its centre, so half of it can reach out of
      its chunk. */
  const MaximumCommentWidthOutsideChunk: real := MaximumCommentWidth / 2.0

  /** The derived constants are whole numbers: the world divides evenly
      into chunks. */
  lemma DerivedConstants()
    ensures BackgroundSamplingRadius == 4000.0
    ensures EntityTrackerUpdateRadius == 800.0 && EntityTrackerUpdateRadius * CommentChunksCount == WorldSize
    ensures MaximumCommentWidthOutsideChunk == 50.0
  {
  }

  function Max(a: real, b: real): (r: real)
    ensures r >= a && r >= b && (r == a || r == b)
  {
    if a >= b then a else b
  }

  /** `Math.ceil`: the least integer not below `x`. */
  function Ceil(x: real): (r: int)
    ensures x <= r as real < x + 1.0
  {
    -((-x).Floor)
  }

  /** `getRenderRadius(gameWidth, gameHeight)`: the longer side, plus what a
      comment can reach out of its chunk, plus two seconds of walking, with
      a tenth more, rounded up. */
  function GetRenderRadius(gameWidth: real, gameHeight: real): (r: int)
    ensures var needed := Max(gameWidth, gameHeight) + MaximumCommentWidthOutsideChunk + PlayerMoveDistancePerSecond * 2.0;
      needed * 11.0 / 10.0 <= r as real < needed * 11.0 / 10.0 + 1.0
  {
    var longerSide := Max(gameWidth, gameHeight);
    var bufferingDistance := PlayerMoveDistancePerSecond * 2.0;
    var renderRadius := longerSide + MaximumCommentWidthOutsideChunk + bufferingDistance;
    Ceil(renderRadius * 11.0 / 10.0)
  }

  /** The radius depends on the longer side only: swapping width and height
      changes nothing. */
  lemma RenderRadiusSymmetric(w: real, h: real)
    ensures GetRenderRadius(w, h) == GetRenderRadius(h, w)
  {
    assert Max(w, h) == Max(h, w);
  }

  lemma CeilMonotone(x: real, y: real)
    requires x <= y
    ensures Ceil(x) <= Ceil(y)
  {
  }

  /** A larger screen never gets a smaller radius. */
  lemma RenderRadiusMonotone(w1: real, h1: real, w2: real, h2: real)
    requires Max(w1, h1) <= Max(w2, h2)
    ensures GetRenderRadius(w1, h1) <= GetRenderRadius(w2, h2)
  {
    var a := (Max(w1, h1) + MaximumCommentWidthOutsideChunk + PlayerMoveDistancePerSecond * 2.0) * 11.0 / 10.0;
    var b := (Max(w2, h2) + MaximumCommentWidthOutsideChunk + PlayerMoveDistancePerSecond * 2.0) * 11.0 / 10.0;
    CeilMonotone(a, b);
  }

  /** On a screen of non-negative size the radius covers the longer side,
      the 50 a comment reaches out and the 432 walked in two seconds. */
  lemma RenderRadiusCovers(w: real, h: real)
    requires w >= 0.0 && h >= 0.0
    ensures GetRenderRadius(w, h) as real >= Max(w, h) + 50.0 + 432.0
  {
  }
}
