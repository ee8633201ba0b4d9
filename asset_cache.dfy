/**
 * The two image caches of the decorate page (Javascripts/decorate.js): the peace pattern
 * tile and the bow image. Loading is an event with an outcome; the request, the
 * cache-busting query and the callback are not modelled. The two caches differ in what a
 * failed load does: the peace pattern falls back to a 32 x 32 tile and counts as ready,
 * the bow stays not ready so that the next call tries again.
 */
module AssetCache {
  import opened Geometry
  import opened Options

  /** `PEACE_PATTERN_SCALE`. */
  const PEACE_PATTERN_SCALE: real := 0.7

  /** Side of the fallback tile and the smallest side of a scaled tile. */
  const MIN_TILE := 32

  /** A loaded image's natural size. */
  datatype Image = Image(w: int, h: int)

  /** How an image request ends: `onload` with the image, or `onerror`. */
  datatype Outcome = Loaded(img: Image) | Failed

  /** The size of a cached pattern tile. */
  datatype Tile = Tile(w: int, h: int)

  /** One side of `buildPeaceTileFrom`: the scaled side, at least 32. */
  function TileSide(side: int): int {
    Max(MIN_TILE, Round(side as real * PEACE_PATTERN_SCALE))
  }

  /** `buildPeaceTileFrom`: the image scaled by 0.7 on each side, each side at least 32. */
  function TileFrom(img: Image): Tile {
    Tile(TileSide(img.w), TileSide(img.h))
  }

  /** `buildPeaceFallbackTile`: a 32 x 32 tile. */
  function FallbackTile(): Tile {
    Tile(MIN_TILE, MIN_TILE)
  }

  /** A side of 46 pixels or more is scaled to within half a pixel of 70% of it; a side of
      45 or less gives the minimum 32. */
  lemma TileSideScales(side: int)
    ensures TileSide(side) >= MIN_TILE
    ensures side >= 46 ==>
      side as real * PEACE_PATTERN_SCALE - 0.5 < TileSide(side) as real <= side as real * PEACE_PATTERN_SCALE + 0.5
    ensures side <= 45 ==> TileSide(side) == MIN_TILE
  {
    if side >= 46 {
      assert side as real * PEACE_PATTERN_SCALE >= 32.2;
      RoundBounds(side as real * PEACE_PATTERN_SCALE, MIN_TILE);
    } else {
      assert side as real * PEACE_PATTERN_SCALE <= 31.5;
      RoundBounds(side as real * PEACE_PATTERN_SCALE, 31);
    }
  }

  // ------------------------------------------------------------------ peace pattern

  /** `peaceImg`, `peaceTile` and `peacePatternReady`. */
  datatype PatternState = PatternState(img: Option<Image>, tile: Option<Tile>, ready: bool)

  /** Whether `loadPeacePattern` answers from the cache without a request. */
  predicate PatternCached(s: PatternState) {
    s.ready && s.tile.Some?
  }

  /** `loadPeacePattern` followed by the outcome of its request (when it makes one). */
  function PatternLoad(s: PatternState, outcome: Outcome): PatternState {
    if PatternCached(s) then s
    else
      match outcome
      case Loaded(img) => PatternState(Some(img), Some(TileFrom(img)), true)
      case Failed => PatternState(s.img, Some(FallbackTile()), true)
  }

  /** A series of calls to `loadPeacePattern`, each completed before the next. */
  function PatternLoads(s: PatternState, outcomes: seq<Outcome>): PatternState
    decreases |outcomes|
  {
    if outcomes == [] then s else PatternLoads(PatternLoad(s, outcomes[0]), outcomes[1..])
  }

  /** After any call the pattern is ready with a tile: the scaled image when a fresh load
      succeeded, the 32 x 32 fallback when it failed, the cached tile otherwise. */
  lemma PatternLoadReady(s: PatternState, outcome: Outcome)
    ensures var t := PatternLoad(s, outcome);
      && PatternCached(t)
      && (PatternCached(s) ==> t == s)
      && (!PatternCached(s) && outcome.Loaded? ==> t.tile == Some(TileFrom(outcome.img)) && t.img == Some(outcome.img))
      && (!PatternCached(s) && outcome.Failed? ==> t.tile == Some(FallbackTile()) && t.img == s.img)
  {
  }

  /** Once a first call has completed, the tile never changes again, whatever later
      requests would have returned: the first outcome alone decides the tile. */
  lemma {:induction false} PatternTileFixedByFirstLoad(s: PatternState, outcomes: seq<Outcome>)
    requires !PatternCached(s) && outcomes != []
    ensures var t := PatternLoads(s, outcomes);
      && PatternCached(t)
      && t == PatternLoad(s, outcomes[0])
  {
    PatternCachedStays(PatternLoad(s, outcomes[0]), outcomes[1..]);
  }

  /** Further calls on a cached pattern change nothing. */
  lemma {:induction false} PatternCachedStays(s: PatternState, outcomes: seq<Outcome>)
    requires PatternCached(s)
    ensures PatternLoads(s, outcomes) == s
    decreases |outcomes|
  {
    if outcomes != [] {
      PatternCachedStays(s, outcomes[1..]);
    }
  }

  /** The page's peace pattern cache. */
  class PeacePattern {
    var img: Option<Image>
    var tile: Option<Tile>
    var ready: bool

    ghost function Model(): PatternState
      reads this
    {
      PatternState(img, tile, ready)
    }

    constructor()
      ensures Model() == PatternState(None, None, false)
    {
      img, tile, ready := None, None, false;
    }

    /** `loadPeacePattern`, with `outcome` the result of the request it starts when the
        pattern is not cached; `requested` tells whether it started one. */
    method Load(outcome: Outcome) returns (requested: bool)
      modifies this
      ensures requested == !PatternCached(old(Model()))
      ensures Model() == PatternLoad(old(Model()), outcome)
    {
      if ready && tile.Some? {
        return false;
      }
      requested := true;
      match outcome {
        case Loaded(image) =>
          img := Some(image);
          tile := Some(TileFrom(image));
          ready := true;
        case Failed =>
          tile := Some(FallbackTile());
          ready := true;
      }
    }
  }

  // ------------------------------------------------------------------ bow image

  /** `bowImg` and `bowReady`. */
  datatype BowState = BowState(img: Option<Image>, ready: bool)

  /** Whether `loadBowImage` answers from the cache without a request. */
  predicate BowCached(s: BowState) {
    s.ready && s.img.Some?
  }

  /** `loadBowImage` followed by the outcome of its request (when it makes one): a failure
      leaves the bow not ready and keeps whatever image was there. */
  function BowLoad(s: BowState, outcome: Outcome): BowState {
    if BowCached(s) then s
    else
      match outcome
      case Loaded(img) => BowState(Some(img), true)
      case Failed => BowState(s.img, false)
  }

  /** A series of calls to `loadBowImage`, each completed before the next. */
  function BowLoads(s: BowState, outcomes: seq<Outcome>): BowState
    decreases |outcomes|
  {
    if outcomes == [] then s else BowLoads(BowLoad(s, outcomes[0]), outcomes[1..])
  }

  /** Index of the first successful outcome, if any. */
  function FirstLoaded(outcomes: seq<Outcome>): (r: Option<nat>)
    ensures r.Some? ==>
      && r.value < |outcomes| && outcomes[r.value].Loaded?
      && forall i :: 0 <= i < r.value ==> outcomes[i].Failed?
    ensures r.None? ==> forall i :: 0 <= i < |outcomes| ==> outcomes[i].Failed?
    decreases |outcomes|
  {
    if outcomes == [] then None
    else if outcomes[0].Loaded? then Some(0)
    else
      match FirstLoaded(outcomes[1..])
      case Some(i) => Some(i + 1)
      case None => None
  }

  /** Starting from a bow that is not cached, a series of calls leaves it ready exactly
      when one of the requests succeeded, and then holds the image of the first success:
      a failure never blocks a later retry, and a success is never reloaded. */
  lemma {:induction false} BowRetriesUntilLoaded(s: BowState, outcomes: seq<Outcome>)
    requires !BowCached(s)
    ensures var t := BowLoads(s, outcomes);
      var first := FirstLoaded(outcomes);
      && (first.Some? ==> t == BowState(Some(outcomes[first.value].img), true))
      && (first.None? ==> t == BowState(s.img, outcomes == [] && s.ready))
    decreases |outcomes|
  {
    if outcomes != [] {
      var next := BowLoad(s, outcomes[0]);
      if outcomes[0].Loaded? {
        BowCachedStays(next, outcomes[1..]);
      } else {
        BowRetriesUntilLoaded(next, outcomes[1..]);
      }
    }
  }

  /** Further calls on a cached bow change nothing. */
  lemma {:induction false} BowCachedStays(s: BowState, outcomes: seq<Outcome>)
    requires BowCached(s)
    ensures BowLoads(s, outcomes) == s
    decreases |outcomes|
  {
    if outcomes != [] {
      BowCachedStays(s, outcomes[1..]);
    }
  }

  /** The page's bow image cache. */
  class BowCache {
    var img: Option<Image>
    var ready: bool

    ghost function Model(): BowState
      reads this
    {
      BowState(img, ready)
    }

    constructor()
      ensures Model() == BowState(None, false)
    {
      img, ready := None, false;
    }

    /** `loadBowImage`, with `outcome` the result of the request it starts when the bow is
        not cached; `requested` tells whether it started one. */
    method Load(outcome: Outcome) returns (requested: bool)
      modifies this
      ensures requested == !BowCached(old(Model()))
      ensures Model() == BowLoad(old(Model()), outcome)
    {
      if ready && img.Some? {
        return false;
      }
      requested := true;
      match outcome {
        case Loaded(image) =>
          img := Some(image);
          ready := true;
        case Failed =>
          ready := false;
      }
    }
  }
}
