/**
 * Randomised decoration of the soft-pink frame (Javascripts/decorate.js): bows and gold
 * sparkles scattered over two bands of the card by bounded rejection sampling. A
 * candidate strictly inside the protected photo hole is rejected; a decoration whose
 * every attempt is rejected is skipped.
 */
module Decorations {
  import opened Geometry
  import opened Options
  import opened DecorateLayout

  /** The successive values returned by `Math.random()`: value `k` is the `k`-th call. */
  type Random = nat -> real

  const BOW_TRIES := 80
  const SPARKLE_TRIES := 60

  /** A scatter band `{x1, x2, y1, y2}`. */
  datatype Region = Region(x1: real, x2: real, y1: real, y2: real)

  /** A decoration drawn onto the card. */
  datatype Decoration =
    | Bow(at: Point, w: real, h: real, rot: real)
    | Sparkle(at: Point, size: real, rot: real)

  /** Decorations placed so far and the index of the next unused random value. */
  datatype Placed = Placed(items: seq<Decoration>, next: nat)

  /** `inInner`: strictly inside the protected rectangle. */
  predicate InInner(inner: Rect, p: Point) {
    && p.x > inner.x as real && p.x < (inner.x + inner.w) as real
    && p.y > inner.y as real && p.y < (inner.y + inner.h) as real
  }

  /** The candidate built from random values `i` (for x) and `i + 1` (for y). */
  function CandidateAt(region: Region, rand: Random, i: nat): Point {
    Point(region.x1 + rand(i) * (region.x2 - region.x1), region.y1 + rand(i + 1) * (region.y2 - region.y1))
  }

  /** Attempt `j` of a search that starts at random index `k`. */
  function Attempt(region: Region, rand: Random, k: nat, j: nat): Point {
    CandidateAt(region, rand, k + 2 * j)
  }

  /** Outcome of the retry loop. */
  datatype Search = Found(spot: Point, attempt: nat) | Exhausted

  /** The retry loop of `placeBows` / `placeSparkles`: the first of `tries` attempts that
      is not strictly inside `inner`, or `Exhausted` when every attempt is. */
  function FirstOutside(region: Region, inner: Rect, rand: Random, k: nat, tries: nat): Search
    decreases tries
  {
    if tries == 0 then Exhausted
    else if !InInner(inner, CandidateAt(region, rand, k)) then Found(CandidateAt(region, rand, k), 0)
    else
      match FirstOutside(region, inner, rand, k + 2, tries - 1)
      case Found(p, a) => Found(p, a + 1)
      case Exhausted => Exhausted
  }

  /** A search that finds a spot finds it within `tries` attempts, outside `inner`, after
      only rejected attempts; an exhausted search rejected every one of its attempts. */
  lemma {:induction false} FirstOutsideSpec(region: Region, inner: Rect, rand: Random, k: nat, tries: nat)
    ensures var r := FirstOutside(region, inner, rand, k, tries);
      && (r.Found? ==>
            && r.attempt < tries
            && r.spot == Attempt(region, rand, k, r.attempt)
            && !InInner(inner, r.spot)
            && forall j :: 0 <= j < r.attempt ==> InInner(inner, Attempt(region, rand, k, j)))
      && (r.Exhausted? ==> forall j :: 0 <= j < tries ==> InInner(inner, Attempt(region, rand, k, j)))
    decreases tries
  {
    if tries > 0 && InInner(inner, CandidateAt(region, rand, k)) {
      FirstOutsideSpec(region, inner, rand, k + 2, tries - 1);
      var rest := FirstOutside(region, inner, rand, k + 2, tries - 1);
      var n := if rest.Found? then rest.attempt + 1 else tries;
      forall j | 0 <= j < n
        ensures InInner(inner, Attempt(region, rand, k, j))
      {
        if j > 0 {
          AttemptShift(region, rand, k, j - 1);
        }
      }
      if rest.Found? {
        AttemptShift(region, rand, k, rest.attempt);
      }
    }
  }

  /** Attempt `j` of a search started two values later is attempt `j + 1` of this one. */
  lemma AttemptShift(region: Region, rand: Random, k: nat, j: nat)
    ensures Attempt(region, rand, k + 2, j) == Attempt(region, rand, k, j + 1)
  {
    assert k + 2 + 2 * j == k + 2 * (j + 1);
  }

  /** Conversely, the loop's outcome is fixed by which attempts land inside: attempt `a`
      outside after only rejected ones is the spot found, and `tries` rejected attempts
      mean exhaustion. */
  lemma {:induction false} FirstOutsideIs(region: Region, inner: Rect, rand: Random, k: nat, tries: nat, a: nat)
    requires a <= tries
    requires forall j :: 0 <= j < a ==> InInner(inner, Attempt(region, rand, k, j))
    requires a < tries ==> !InInner(inner, Attempt(region, rand, k, a))
    ensures FirstOutside(region, inner, rand, k, tries)
      == if a < tries then Found(Attempt(region, rand, k, a), a) else Exhausted
    decreases tries
  {
    if tries > 0 {
      assert Attempt(region, rand, k, 0) == CandidateAt(region, rand, k);
      if a > 0 {
        var k2 := k + 2;
        forall j | 0 <= j < a - 1
          ensures InInner(inner, Attempt(region, rand, k2, j))
        {
          AttemptShift(region, rand, k, j);
        }
        AttemptShift(region, rand, k, a - 1);
        FirstOutsideIs(region, inner, rand, k + 2, tries - 1, a - 1);
      }
    }
  }

  /** Random values used by a search: two per attempt made. */
  function Consumed(s: Search, tries: nat): nat {
    match s
    case Found(_, a) => 2 * (a + 1)
    case Exhausted => 2 * tries
  }

  /** A bow's width from one random value: 4% to 10% of the canvas width `w`. */
  function BowWidth(r: real, w: int): real {
    r * (w as real * 0.06) + w as real * 0.04
  }

  /** A bow's tilt from one random value: within 0.3 radians either way. */
  function BowTilt(r: real): real {
    (r - 0.5) * 0.6
  }

  /** A sparkle's size from one random value: 6 to 11 pixels. */
  function SparkleSize(r: real): real {
    r * 5.0 + 6.0
  }

  /** A sparkle's rotation from one random value: up to half a turn. */
  function SparkleTurn(r: real): real {
    r * PI
  }

  /** With a random value in `[0, 1)`: a bow is 4% to 10% of the canvas width wide and
      tilted less than 0.3 radians either way; a sparkle is 6 to 11 pixels across and turned
      less than half a turn. */
  lemma DrawnRanges(r: real, w: int)
    requires 0.0 <= r < 1.0 && w >= 0
    ensures w as real * 0.04 <= BowWidth(r, w) <= w as real * 0.10
    ensures -0.3 <= BowTilt(r) < 0.3
    ensures 6.0 <= SparkleSize(r) < 11.0
    ensures 0.0 <= SparkleTurn(r) < PI
  {
    Between(w as real * 0.04, w as real * 0.10, r);
  }

  /** One iteration of `placeBows`: a width, up to 80 attempts, then a tilt if one was found. */
  function OneBow(region: Region, inner: Rect, rand: Random, k: nat, w: int, aspect: real): Placed {
    var sizeW := BowWidth(rand(k), w);
    var s := FirstOutside(region, inner, rand, k + 1, BOW_TRIES);
    var after := k + 1 + Consumed(s, BOW_TRIES);
    match s
    case Found(p, _) => Placed([Bow(p, sizeW, sizeW * aspect, BowTilt(rand(after)))], after + 1)
    case Exhausted => Placed([], after)
  }

  /** One iteration of `placeSparkles`: up to 60 attempts, then a size and a rotation if one was found. */
  function OneSparkle(region: Region, inner: Rect, rand: Random, k: nat): Placed {
    var s := FirstOutside(region, inner, rand, k, SPARKLE_TRIES);
    var after := k + Consumed(s, SPARKLE_TRIES);
    match s
    case Found(p, _) => Placed([Sparkle(p, SparkleSize(rand(after)), SparkleTurn(rand(after + 1)))], after + 2)
    case Exhausted => Placed([], after)
  }

  /** One loop iteration: from a position in the random sequence, what it places and the
      position it leaves for the next iteration. */
  type Step = nat -> Placed

  /** An iteration of the `placeBows` loop over `region`. */
  function BowStep(region: Region, inner: Rect, rand: Random, w: int, aspect: real): Step {
    (k: nat) => OneBow(region, inner, rand, k, w, aspect)
  }

  /** An iteration of the `placeSparkles` loop over `region`. */
  function SparkleStep(region: Region, inner: Rect, rand: Random): Step {
    (k: nat) => OneSparkle(region, inner, rand, k)
  }

  /** `count` iterations run one after another from position `k`: the first `count - 1`,
      then one more from where they left the random sequence. */
  function Scatter(count: nat, step: Step, k: nat): Placed
    decreases count
  {
    if count == 0 then Placed([], k)
    else
      var done := Scatter(count - 1, step, k);
      var one := step(done.next);
      Placed(done.items + one.items, one.next)
  }

  /** Every decoration in `items` is of the kind `bows` asks for and not strictly inside `inner`. */
  predicate AllOutside(items: seq<Decoration>, inner: Rect, bows: bool) {
    forall d :: d in items ==> !InInner(inner, d.at) && d.Bow? == bows
  }

  lemma AllOutsideConcat(a: seq<Decoration>, b: seq<Decoration>, inner: Rect, bows: bool)
    requires AllOutside(a, inner, bows) && AllOutside(b, inner, bows)
    ensures AllOutside(a + b, inner, bows)
  {
    forall d | d in a + b
      ensures !InInner(inner, d.at) && d.Bow? == bows
    {
      assert d in a || d in b;
    }
  }

  /** An iteration of `placeBows` places at most one bow, never strictly inside `inner`. */
  lemma BowStepOutside(region: Region, inner: Rect, rand: Random, w: int, aspect: real)
    ensures forall k ::
      |BowStep(region, inner, rand, w, aspect)(k).items| <= 1 && AllOutside(BowStep(region, inner, rand, w, aspect)(k).items, inner, true)
  {
    forall k: nat
      ensures |OneBow(region, inner, rand, k, w, aspect).items| <= 1
      ensures AllOutside(OneBow(region, inner, rand, k, w, aspect).items, inner, true)
    {
      FirstOutsideSpec(region, inner, rand, k + 1, BOW_TRIES);
    }
  }

  /** An iteration of `placeSparkles` places at most one sparkle, never strictly inside `inner`. */
  lemma SparkleStepOutside(region: Region, inner: Rect, rand: Random)
    ensures forall k ::
      |SparkleStep(region, inner, rand)(k).items| <= 1 && AllOutside(SparkleStep(region, inner, rand)(k).items, inner, false)
  {
    forall k: nat
      ensures |OneSparkle(region, inner, rand, k).items| <= 1
      ensures AllOutside(OneSparkle(region, inner, rand, k).items, inner, false)
    {
      FirstOutsideSpec(region, inner, rand, k, SPARKLE_TRIES);
    }
  }

  /** When each iteration places at most one decoration of one kind outside `inner`, `count`
      iterations place at most `count`, all of that kind and all outside `inner`. */
  lemma {:induction false} ScatterOutsideInner(count: nat, step: Step, k: nat, inner: Rect, bows: bool)
    requires forall j :: |step(j).items| <= 1 && AllOutside(step(j).items, inner, bows)
    ensures |Scatter(count, step, k).items| <= count
    ensures AllOutside(Scatter(count, step, k).items, inner, bows)
    decreases count
  {
    if count > 0 {
      var done := Scatter(count - 1, step, k);
      ScatterOutsideInner(count - 1, step, k, inner, bows);
      AllOutsideConcat(done.items, step(done.next).items, inner, bows);
    }
  }

  /** Random values in `[0, 1)`. */
  ghost predicate UnitRandom(rand: Random) {
    forall i :: 0.0 <= rand(i) < 1.0
  }

  /** A band whose bounds are in order. */
  predicate Ordered(region: Region) {
    region.x1 <= region.x2 && region.y1 <= region.y2
  }

  /** With random values in `[0, 1)`, a candidate lies inside its band. */
  lemma CandidateInBand(region: Region, rand: Random, i: nat)
    requires 0.0 <= rand(i) < 1.0 && 0.0 <= rand(i + 1) < 1.0 && Ordered(region)
    ensures var p := CandidateAt(region, rand, i);
      region.x1 <= p.x <= region.x2 && region.y1 <= p.y <= region.y2
  {
    Between(region.x1, region.x2, rand(i));
    Between(region.y1, region.y2, rand(i + 1));
  }

  /** A fraction in `[0, 1)` of the way from `lo` to `hi` stays between them. */
  lemma Between(lo: real, hi: real, f: real)
    requires 0.0 <= f < 1.0 && lo <= hi
    ensures lo <= lo + f * (hi - lo) <= hi
  {
    var d := hi - lo;
    ProductNonNegative(f, d);
    ProductNonNegative(1.0 - f, d);
    assert (1.0 - f) * d == d - f * d;
  }

  lemma ProductNonNegative(a: real, b: real)
    requires 0.0 <= a && 0.0 <= b
    ensures 0.0 <= a * b
  {
  }

  /** Every decoration in `items` lies in `region`, and every bow is between 4% and 10% of
      the canvas width `w` wide. */
  predicate AllInBand(items: seq<Decoration>, region: Region, w: int) {
    forall d :: d in items ==> InRegion(region, d.at) && (d.Bow? ==> w as real * 0.04 <= d.w <= w as real * 0.10)
  }

  /** `p` lies in the band `region` (edges included). */
  predicate InRegion(region: Region, p: Point) {
    region.x1 <= p.x <= region.x2 && region.y1 <= p.y <= region.y2
  }

  lemma AllInBandConcat(a: seq<Decoration>, b: seq<Decoration>, region: Region, w: int)
    requires AllInBand(a, region, w) && AllInBand(b, region, w)
    ensures AllInBand(a + b, region, w)
  {
    forall d | d in a + b
      ensures InRegion(region, d.at)
      ensures d.Bow? ==> w as real * 0.04 <= d.w <= w as real * 0.10
    {
      assert d in a || d in b;
    }
  }

  /** With random values in `[0, 1)`, a found spot lies in its band. */
  lemma FoundInBand(region: Region, inner: Rect, rand: Random, start: nat, tries: nat)
    requires UnitRandom(rand) && Ordered(region)
    ensures var s := FirstOutside(region, inner, rand, start, tries);
      s.Found? ==> region.x1 <= s.spot.x <= region.x2 && region.y1 <= s.spot.y <= region.y2
  {
    var s := FirstOutside(region, inner, rand, start, tries);
    FirstOutsideSpec(region, inner, rand, start, tries);
    if s.Found? {
      var i := start + 2 * s.attempt;
      assert 0.0 <= rand(i) < 1.0 && 0.0 <= rand(i + 1) < 1.0;
      CandidateInBand(region, rand, i);
    }
  }

  /** With random values in `[0, 1)`, an iteration of `placeBows` puts its bow in its band,
      between 4% and 10% of the canvas width `w` wide. */
  lemma BowStepInBand(region: Region, inner: Rect, rand: Random, w: int, aspect: real)
    requires UnitRandom(rand) && Ordered(region) && w >= 0
    ensures forall k :: AllInBand(BowStep(region, inner, rand, w, aspect)(k).items, region, w)
  {
    forall k: nat
      ensures AllInBand(OneBow(region, inner, rand, k, w, aspect).items, region, w)
    {
      FoundInBand(region, inner, rand, k + 1, BOW_TRIES);
      assert 0.0 <= rand(k) < 1.0;
      DrawnRanges(rand(k), w);
    }
  }

  /** With random values in `[0, 1)`, an iteration of `placeSparkles` puts its sparkle in its band. */
  lemma SparkleStepInBand(region: Region, inner: Rect, rand: Random, w: int)
    requires UnitRandom(rand) && Ordered(region)
    ensures forall k :: AllInBand(SparkleStep(region, inner, rand)(k).items, region, w)
  {
    forall k: nat
      ensures AllInBand(OneSparkle(region, inner, rand, k).items, region, w)
    {
      FoundInBand(region, inner, rand, k, SPARKLE_TRIES);
    }
  }

  /** When each iteration keeps its decorations in `region` (and its bows within the width
      bounds), so do `count` iterations. */
  lemma {:induction false} ScatterInBand(count: nat, step: Step, k: nat, region: Region, w: int)
    requires forall j :: AllInBand(step(j).items, region, w)
    ensures AllInBand(Scatter(count, step, k).items, region, w)
    decreases count
  {
    if count > 0 {
      var done := Scatter(count - 1, step, k);
      ScatterInBand(count - 1, step, k, region, w);
      AllInBandConcat(done.items, step(done.next).items, region, w);
    }
  }

  /** The retry loop of `placeBows` / `placeSparkles`: draw candidates from `start` until
      one lands outside `inner` or `tries` attempts are spent. */
  method TryPlace(region: Region, inner: Rect, rand: Random, start: nat, tries: nat)
    returns (safe: bool, px: real, py: real, next: nat)
    ensures var s := FirstOutside(region, inner, rand, start, tries);
      && safe == s.Found?
      && (safe ==> Point(px, py) == s.spot)
      && next == start + Consumed(s, tries)
  {
    px, py, safe, next := 0.0, 0.0, false, start;
    var t := 0;
    while t < tries
      invariant 0 <= t <= tries && next == start + 2 * t
      invariant forall j :: 0 <= j < t ==> InInner(inner, Attempt(region, rand, start, j))
    {
      px := region.x1 + rand(next) * (region.x2 - region.x1);
      py := region.y1 + rand(next + 1) * (region.y2 - region.y1);
      next := next + 2;
      assert Point(px, py) == Attempt(region, rand, start, t);
      if !InInner(inner, Point(px, py)) {
        safe := true;
        FirstOutsideIs(region, inner, rand, start, tries, t);
        return;
      }
      t := t + 1;
    }
    FirstOutsideIs(region, inner, rand, start, tries, tries);
  }

  /** One iteration of the `placeBows` loop. */
  method PlaceBow(region: Region, inner: Rect, rand: Random, k: nat, w: int, aspect: real)
    returns (items: seq<Decoration>, next: nat)
    ensures Placed(items, next) == OneBow(region, inner, rand, k, w, aspect)
  {
    var sizeW := BowWidth(rand(k), w);
    var safe, px, py;
    safe, px, py, next := TryPlace(region, inner, rand, k + 1, BOW_TRIES);
    ghost var s := FirstOutside(region, inner, rand, k + 1, BOW_TRIES);
    assert next == k + 1 + Consumed(s, BOW_TRIES);
    if !safe {
      return [], next;
    }
    assert s == Found(Point(px, py), s.attempt);
    var rot := BowTilt(rand(next));
    ghost var expected := OneBow(region, inner, rand, k, w, aspect);
    assert expected.next == next + 1;
    assert |expected.items| == 1;
    assert expected.items[0].at == Point(px, py);
    assert expected.items[0].w == sizeW;
    assert expected.items[0].h == sizeW * aspect;
    assert expected.items[0].rot == rot;
    items, next := [Bow(Point(px, py), sizeW, sizeW * aspect, rot)], next + 1;
  }

  /** One iteration of the `placeSparkles` loop. */
  method PlaceSparkle(region: Region, inner: Rect, rand: Random, k: nat)
    returns (items: seq<Decoration>, next: nat)
    ensures Placed(items, next) == OneSparkle(region, inner, rand, k)
  {
    var safe, px, py;
    safe, px, py, next := TryPlace(region, inner, rand, k, SPARKLE_TRIES);
    ghost var s := FirstOutside(region, inner, rand, k, SPARKLE_TRIES);
    assert next == k + Consumed(s, SPARKLE_TRIES);
    if !safe {
      return [], next;
    }
    assert s == Found(Point(px, py), s.attempt);
    var size := SparkleSize(rand(next));
    var rot := SparkleTurn(rand(next + 1));
    ghost var expected := OneSparkle(region, inner, rand, k);
    assert expected.next == next + 2;
    assert |expected.items| == 1;
    assert expected.items[0] == Sparkle(Point(px, py), size, rot);
    items, next := [Sparkle(Point(px, py), size, rot)], next + 2;
  }

  /** `placeBows`: `count` iterations, each placing one bow at the first accepted
      candidate or skipping it. */
  method PlaceBows(count: nat, region: Region, inner: Rect, rand: Random, cursor: nat, w: int, aspect: real)
    returns (placed: seq<Decoration>, next: nat)
    ensures Placed(placed, next) == Scatter(count, BowStep(region, inner, rand, w, aspect), cursor)
  {
    placed, next := [], cursor;
    for i := 0 to count
      invariant Placed(placed, next) == Scatter(i, BowStep(region, inner, rand, w, aspect), cursor)
    {
      var items, after := PlaceBow(region, inner, rand, next, w, aspect);
      placed, next := placed + items, after;
    }
  }

  /** `placeSparkles`: `count` iterations, each placing one sparkle at the first accepted
      candidate or skipping it. */
  method PlaceSparkles(count: nat, region: Region, inner: Rect, rand: Random, cursor: nat)
    returns (placed: seq<Decoration>, next: nat)
    ensures Placed(placed, next) == Scatter(count, SparkleStep(region, inner, rand), cursor)
  {
    placed, next := [], cursor;
    for i := 0 to count
      invariant Placed(placed, next) == Scatter(i, SparkleStep(region, inner, rand), cursor)
    {
      var items, after := PlaceSparkle(region, inner, rand, next);
      placed, next := placed + items, after;
    }
  }

  /** `rightTopBand`: most of the top edge and the right side of the card. */
  function RightTopBand(outer: Rect): Region {
    Region(outer.x as real + outer.w as real * 0.15, (outer.x + outer.w - 5) as real,
           (outer.y + 5) as real, outer.y as real + outer.h as real * 0.90)
  }

  /** `leftBottomBand`: most of the bottom edge and the left side of the card. */
  function LeftBottomBand(outer: Rect): Region {
    Region((outer.x + 5) as real, outer.x as real + outer.w as real * 0.85,
           outer.y as real + outer.h as real * 0.30, (outer.y + outer.h - 5) as real)
  }

  /** The scattering part of `drawSoftPinkFrame` on a `w` x `h` canvas: nothing when the
      bow image is not ready; otherwise 20 bows in each band, then 5 sparkles in each band.
      `bowAspect` is the bow image's height over its width. */
  method SoftPinkDecorations(bowReady: bool, w: int, h: int, bowAspect: real, rand: Random, cursor: nat)
    returns (decor: seq<Decoration>, next: nat)
    ensures !bowReady ==> decor == [] && next == cursor
    ensures bowReady ==>
      var ring := FrameRing("softPink", w, h);
      var rightTop, leftBottom := RightTopBand(ring.outer), LeftBottomBand(ring.outer);
      var b1 := Scatter(20, BowStep(rightTop, ring.inner, rand, w, bowAspect), cursor);
      var b2 := Scatter(20, BowStep(leftBottom, ring.inner, rand, w, bowAspect), b1.next);
      var s1 := Scatter(5, SparkleStep(rightTop, ring.inner, rand), b2.next);
      var s2 := Scatter(5, SparkleStep(leftBottom, ring.inner, rand), s1.next);
      decor == b1.items + b2.items + s1.items + s2.items && next == s2.next
    ensures |decor| <= 50
    ensures forall d :: d in decor ==> !InInner(FrameRing("softPink", w, h).inner, d.at)
    ensures UnitRandom(rand) && w >= 0 && SoftPinkBandsOrdered(w, h) ==>
      var outer := FrameRing("softPink", w, h).outer;
      forall d :: d in decor ==> InRegion(RightTopBand(outer), d.at) || InRegion(LeftBottomBand(outer), d.at)
  {
    if !bowReady {
      return [], cursor;
    }
    var ring := FrameRing("softPink", w, h);
    var outer, inner := ring.outer, ring.inner;
    var rightTop, leftBottom := RightTopBand(outer), LeftBottomBand(outer);
    var b1, b2, s1, s2;
    ghost var n0 := cursor;
    b1, next := PlaceBows(20, rightTop, inner, rand, cursor, w, bowAspect);
    ghost var n1 := next;
    b2, next := PlaceBows(20, leftBottom, inner, rand, next, w, bowAspect);
    ghost var n2 := next;
    s1, next := PlaceSparkles(5, rightTop, inner, rand, next);
    ghost var n3 := next;
    s2, next := PlaceSparkles(5, leftBottom, inner, rand, next);
    decor := b1 + b2 + s1 + s2;
    BowStepOutside(rightTop, inner, rand, w, bowAspect);
    BowStepOutside(leftBottom, inner, rand, w, bowAspect);
    SparkleStepOutside(rightTop, inner, rand);
    SparkleStepOutside(leftBottom, inner, rand);
    ScatterOutsideInner(20, BowStep(rightTop, inner, rand, w, bowAspect), n0, inner, true);
    ScatterOutsideInner(20, BowStep(leftBottom, inner, rand, w, bowAspect), n1, inner, true);
    ScatterOutsideInner(5, SparkleStep(rightTop, inner, rand), n2, inner, false);
    ScatterOutsideInner(5, SparkleStep(leftBottom, inner, rand), n3, inner, false);
    forall d | d in decor
      ensures !InInner(inner, d.at)
    {
      assert d in b1 || d in b2 || d in s1 || d in s2;
    }
    if UnitRandom(rand) && w >= 0 && SoftPinkBandsOrdered(w, h) {
      BowStepInBand(rightTop, inner, rand, w, bowAspect);
      BowStepInBand(leftBottom, inner, rand, w, bowAspect);
      SparkleStepInBand(rightTop, inner, rand, w);
      SparkleStepInBand(leftBottom, inner, rand, w);
      ScatterInBand(20, BowStep(rightTop, inner, rand, w, bowAspect), n0, rightTop, w);
      ScatterInBand(20, BowStep(leftBottom, inner, rand, w, bowAspect), n1, leftBottom, w);
      ScatterInBand(5, SparkleStep(rightTop, inner, rand), n2, rightTop, w);
      ScatterInBand(5, SparkleStep(leftBottom, inner, rand), n3, leftBottom, w);
      forall d | d in decor
        ensures InRegion(rightTop, d.at) || InRegion(leftBottom, d.at)
      {
        assert d in b1 || d in b2 || d in s1 || d in s2;
      }
    }
  }

  /** Both soft-pink bands have their bounds in order on a `w` x `h` canvas. */
  predicate SoftPinkBandsOrdered(w: int, h: int) {
    var outer := FrameRing("softPink", w, h).outer;
    Ordered(RightTopBand(outer)) && Ordered(LeftBottomBand(outer))
  }
}
