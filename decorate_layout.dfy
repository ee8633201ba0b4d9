/**
 * Geometry of the decorate page (Javascripts/decorate.js): the photo area of each
 * frame, the outer/inner ring of each frame's chrome, the four photo cards, the four
 * source bands cut from the captured strip, and the sprocket columns of the retro frame.
 */
module DecorateLayout {
  import opened Geometry
  import opened Options

  /** Size of the decorate canvas. */
  const W := 950
  const H := 1470

  const CARD_SCALE: real := 0.55
  const OUTSET_Y := 10
  /** Photos per strip. */
  const NUM := 4

  /** The four templates that draw a tall card; any other id takes the plain margin. */
  predicate IsCardFrame(frameId: string) {
    frameId == "retro" || frameId == "softPink" || frameId == "peace" || frameId == "yours"
  }

  /** `CARD_W` for a canvas `w` wide. */
  function CardWidth(w: int): int {
    Round(w as real * CARD_SCALE)
  }

  /** The outer card shared by the four templates on a `w` x `h` canvas. */
  function OuterCard(w: int, h: int): Rect {
    var cardW := CardWidth(w);
    Rect(Round((w - cardW) as real / 2.0), OUTSET_Y, cardW, h - OUTSET_Y * 2)
  }

  /** `r` shrunk by `b` on every side. */
  function Inset(r: Rect, b: int): Rect {
    Rect(r.x + b, r.y + b, r.w - b * 2, r.h - b * 2)
  }

  /** `BORDER`: a fraction of the card width, rounded. */
  function Border(cardW: int, frac: real): int {
    Round(cardW as real * frac)
  }

  /** `photoRect`: where the photos go on the decorate canvas. */
  function PhotoRect(frameId: string): Rect {
    if IsCardFrame(frameId) then
      Inset(OuterCard(W, H), Border(CardWidth(W), 0.06))
    else
      var m := Round(W as real * 0.035);
      Rect(m, m, W - m * 2, H - m * 2)
  }

  /** The outer card lies inside any canvas at least 20px tall, keeps its width, is
      x-centred to within one pixel and spans y from 10 to `h - 10`. */
  lemma OuterCardPlacement(w: int, h: int)
    requires w >= 0 && h >= OUTSET_Y * 2
    ensures var c := OuterCard(w, h);
      && Rect(0, 0, w, h).Contains(c)
      && c.w == CardWidth(w) && c.y == OUTSET_Y && c.Bottom() == h - OUTSET_Y
      && -1 <= (w - c.Right()) - c.x <= 1
  {
    var cardW := CardWidth(w);
    RoundBounds(w as real * CARD_SCALE, w);
    RoundBounds(w as real * CARD_SCALE, 0);
    var d := w - cardW;
    RoundBounds(d as real / 2.0, d);
    RoundBounds(d as real / 2.0, 0);
  }

  /** For the four templates the photo area is the outer card inset by
      `BORDER = round(CARD_W * 0.06)` on every side; any other id gets the uniform
      margin `round(W * 0.035)`. Both lie inside the canvas. */
  lemma PhotoRectShape(frameId: string)
    ensures var ph := PhotoRect(frameId);
      && Rect(0, 0, W, H).Contains(ph) && ph.w > 0 && ph.h > 0
      && (IsCardFrame(frameId) ==>
            var c, b := OuterCard(W, H), Border(CardWidth(W), 0.06);
            && b > 0 && c.Contains(ph)
            && ph.x - c.x == b && c.Right() - ph.Right() == b
            && ph.y - c.y == b && c.Bottom() - ph.Bottom() == b)
      && (!IsCardFrame(frameId) ==>
            var m := Round(W as real * 0.035);
            ph == Rect(m, m, W - m * 2, H - m * 2))
  {
    DecorateConstants();
    var c := OuterCard(W, H);
    assert c == Rect(214, 10, 523, 1450);
    if IsCardFrame(frameId) {
      assert PhotoRect(frameId) == Rect(245, 41, 461, 1388);
    } else {
      assert PhotoRect(frameId) == Rect(33, 33, 884, 1404);
    }
  }

  /** The rounded sizes on the 950 x 1470 canvas. */
  lemma DecorateConstants()
    ensures CardWidth(W) == 523 && OuterCard(W, H).x == 214
    ensures Border(523, 0.06) == 31 && Border(523, 0.10) == 52
    ensures Round(W as real * 0.035) == 33
  {
    assert W as real * CARD_SCALE == 522.5;
    assert (W - 523) as real / 2.0 == 213.5;
    assert 523 as real * 0.06 == 31.38;
    assert 523 as real * 0.10 == 52.3;
    assert W as real * 0.035 == 33.25;
  }

  // ---------------------------------------------------------------- frame chrome rings

  /** Outer boundary and protected photo hole of a frame's chrome. */
  datatype Ring = Ring(outer: Rect, inner: Rect)

  /** The `BORDER` fraction each `draw*Frame` uses: 0.06 for retro, 0.10 for the others. */
  function RingBorderFrac(frameId: string): real {
    if frameId == "retro" then 0.06 else 0.10
  }

  /** The `outer`/`inner` rectangles built by `drawRetroFilm`, `drawSoftPinkFrame`,
      `drawPeaceFrame` and `drawYoursFrame` on a `w` x `h` canvas. */
  function FrameRing(frameId: string, w: int, h: int): Ring {
    var outer := OuterCard(w, h);
    Ring(outer, Inset(outer, Border(outer.w, RingBorderFrac(frameId))))
  }

  /** The retro ring's hole is exactly the photo area; the other three rings use a wider
      border, so their hole sits inside the photo area and the chrome covers its edge. */
  lemma RingHoleWithinPhotoRect(frameId: string)
    requires IsCardFrame(frameId)
    ensures var ring := FrameRing(frameId, W, H);
      && PhotoRect(frameId).Contains(ring.inner)
      && ring.outer.Contains(PhotoRect(frameId))
      && (frameId == "retro" <==> ring.inner == PhotoRect(frameId))
  {
    DecorateConstants();
  }

  /** On any canvas, a larger border fraction gives a hole inside the smaller one's hole. */
  lemma WiderBorderNests(w: int, h: int, f: real, g: real)
    requires w >= 0 && 0.0 <= f <= g
    ensures Inset(OuterCard(w, h), Border(CardWidth(w), f))
              .Contains(Inset(OuterCard(w, h), Border(CardWidth(w), g)))
  {
    var cw := CardWidth(w);
    assert cw >= 0 by {
      RoundBounds(w as real * CARD_SCALE, 0);
    }
    BorderMonotone(cw, f, g);
    InsetNests(OuterCard(w, h), Border(cw, f), Border(cw, g));
  }

  /** A larger fraction of the same card width gives a border at least as wide. */
  lemma BorderMonotone(cardW: int, f: real, g: real)
    requires cardW >= 0 && f <= g
    ensures Border(cardW, f) <= Border(cardW, g)
  {
    assert cardW as real * f <= cardW as real * g;
    RoundMonotone(cardW as real * f, cardW as real * g);
  }

  /** A wider inset lies inside a narrower one. */
  lemma InsetNests(r: Rect, a: int, b: int)
    requires a <= b
    ensures Inset(r, a).Contains(Inset(r, b))
  {
  }

  // ---------------------------------------------------------------- photo cards

  /** `GAP` between cards: 2% of the photo-area height, at least 8. */
  function Gap(ph: Rect): int {
    Max(8, Round(ph.h as real * 0.02))
  }

  /** `slotH`: `floor((ph.h - 3 * GAP) / 4)`. */
  function SlotH(ph: Rect): int {
    (ph.h - (NUM - 1) * Gap(ph)) / NUM
  }

  /** `cardPadX`: 8% of the photo-area width. */
  function CardPadX(ph: Rect): int {
    Round(ph.w as real * 0.08)
  }

  /** Card `i` of the four, as placed inside the photo area. */
  function Card(ph: Rect, i: int): Rect {
    Rect(ph.x + CardPadX(ph), ph.y + i * (SlotH(ph) + Gap(ph)), ph.w - CardPadX(ph) * 2, SlotH(ph))
  }

  /** Consecutive cards are exactly `GAP` apart (so never overlap), every card has the
      same height and the same left/right inset, and the last card ends at or above the
      bottom of the photo area, leaving `(ph.h - 3 * GAP) mod 4` rows unused. */
  lemma CardsStack(ph: Rect, i: int)
    requires 0 <= i < NUM - 1
    ensures Card(ph, i + 1).y == Card(ph, i).Bottom() + Gap(ph) && Gap(ph) >= 8
    ensures Card(ph, i).h == Card(ph, i + 1).h == SlotH(ph)
    ensures Card(ph, i).x - ph.x == ph.Right() - Card(ph, i).Right() == CardPadX(ph)
    ensures ph.Bottom() - Card(ph, NUM - 1).Bottom() == (ph.h - (NUM - 1) * Gap(ph)) % NUM
  {
    var g, s := Gap(ph), SlotH(ph);
    assert Card(ph, i + 1).y == ph.y + i * (s + g) + (s + g);
    var v := ph.h - (NUM - 1) * g;
    assert v == NUM * (v / NUM) + v % NUM;
  }

  // ---------------------------------------------------------------- source bands

  /** `srcSlotH`: a quarter of the strip height, rounded down. */
  function BandH(srcH: int): int {
    srcH / NUM
  }

  /** The band of the captured strip drawn into card `i`. The last band starts at
      `srcH - srcSlotH` and is `srcH - 3 * srcSlotH` tall. */
  function SourceBand(srcW: int, srcH: int, i: int): Rect {
    var b := BandH(srcH);
    if i < NUM - 1 then Rect(0, b * i, srcW, b)
    else Rect(0, srcH - b, srcW, srcH - b * (NUM - 1))
  }

  /** The four bands cover rows `[0, srcH)` back to back, with nothing skipped or doubled. */
  ghost predicate BandsTile(srcW: int, srcH: int) {
    && SourceBand(srcW, srcH, 0).y == 0
    && (forall i :: 0 <= i < NUM - 1 ==> SourceBand(srcW, srcH, i).Bottom() == SourceBand(srcW, srcH, i + 1).y)
    && SourceBand(srcW, srcH, NUM - 1).Bottom() == srcH
  }

  /** Bands 0..2 are contiguous from row 0; between band 2 and band 3 exactly
      `srcH mod 4` rows are skipped and band 3 runs `srcH mod 4` rows past the strip.
      Hence the bands tile the strip exactly when `srcH` is a multiple of 4. */
  lemma BandsTileIffMultipleOfFour(srcW: int, srcH: nat)
    ensures SourceBand(srcW, srcH, 0).y == 0
    ensures forall i :: 0 <= i < NUM - 2 ==> SourceBand(srcW, srcH, i).Bottom() == SourceBand(srcW, srcH, i + 1).y
    ensures SourceBand(srcW, srcH, NUM - 1).y - SourceBand(srcW, srcH, NUM - 2).Bottom() == srcH % NUM
    ensures SourceBand(srcW, srcH, NUM - 1).Bottom() - srcH == srcH % NUM
    ensures BandsTile(srcW, srcH) <==> srcH % NUM == 0
  {
    var b := BandH(srcH);
    assert srcH == NUM * b + srcH % NUM;
    if srcH % NUM == 0 {
      forall i | 0 <= i < NUM - 1
        ensures SourceBand(srcW, srcH, i).Bottom() == SourceBand(srcW, srcH, i + 1).y
      {
        assert i * b + b == (i + 1) * b;
      }
    } else {
      assert SourceBand(srcW, srcH, NUM - 1).Bottom() != srcH;
    }
  }

  // ---------------------------------------------------------------- render

  /** The card loop of `render`: one blit per card, band `i` into card `i`. */
  method DrawCards(ph: Rect, srcW: int, srcH: int) returns (blits: seq<Blit>)
    ensures |blits| == NUM
    ensures forall i :: 0 <= i < NUM ==> blits[i] == Blit(SourceBand(srcW, srcH, i), Card(ph, i))
  {
    var gap := Max(8, Round(ph.h as real * 0.02));
    var totalGaps := (NUM - 1) * gap;
    var slotH := (ph.h - totalGaps) / NUM;
    var srcSlotH := srcH / NUM;
    var cardPadX := Round(ph.w as real * 0.08);
    var cardX := ph.x + cardPadX;
    var cardW := ph.w - cardPadX * 2;
    blits := [];
    for i := 0 to NUM
      invariant |blits| == i
      invariant forall j :: 0 <= j < i ==> blits[j] == Blit(SourceBand(srcW, srcH, j), Card(ph, j))
    {
      var cardY := ph.y + i * (slotH + gap);
      var sy := if i < NUM - 1 then srcSlotH * i else srcH - srcSlotH;
      var sh := if i < NUM - 1 then srcSlotH else srcH - srcSlotH * (NUM - 1);
      blits := blits + [Blit(Rect(0, sy, srcW, sh), Rect(cardX, cardY, cardW, slotH))];
    }
  }

  /** `render`: nothing before the strip has loaded; the four card frames draw one band
      per card; any other frame draws the whole strip over the photo area. */
  method Render(frameId: string, strip: Option<Size>) returns (blits: seq<Blit>)
    ensures strip.None? ==> blits == []
    ensures strip.Some? && IsCardFrame(frameId) ==>
      |blits| == NUM &&
      forall i :: 0 <= i < NUM ==>
        blits[i] == Blit(SourceBand(strip.value.w, strip.value.h, i), Card(PhotoRect(frameId), i))
    ensures strip.Some? && !IsCardFrame(frameId) ==>
      blits == [Blit(Rect(0, 0, strip.value.w, strip.value.h), PhotoRect(frameId))]
  {
    if strip.None? {
      return [];
    }
    var ph := PhotoRect(frameId);
    if IsCardFrame(frameId) {
      blits := DrawCards(ph, strip.value.w, strip.value.h);
    } else {
      blits := [Blit(Rect(0, 0, strip.value.w, strip.value.h), ph)];
    }
  }

  // ---------------------------------------------------------------- sprocket columns

  /** `n` in `placeCol`: as many holes as fit, at least one. */
  function ColCount(span: int, holeH: int, gap: int): int
    requires holeH + gap > 0
  {
    Max(1, (span + gap) / (holeH + gap))
  }

  /** Height of a run of `n` holes separated by `gap`. */
  function RunHeight(n: int, holeH: int, gap: int): int {
    n * holeH + (n - 1) * gap
  }

  /** The unrounded top of the first hole: the run centred in `[startY, endY]`. */
  function ColStart(startY: int, endY: int, holeH: int, gap: int): real
    requires holeH + gap > 0
  {
    var span := endY - startY;
    var used := RunHeight(ColCount(span, holeH, gap), holeH, gap);
    startY as real + (span - used) as real / 2.0
  }

  /** `placeCol`: the rounded tops of the holes of one sprocket column. */
  method PlaceCol(startY: int, endY: int, holeH: int, gap: int) returns (ys: seq<int>)
    requires holeH > 0 && gap >= 0
    ensures |ys| == ColCount(endY - startY, holeH, gap) >= 1
    ensures forall i :: 0 <= i < |ys| ==>
      ys[i] == Round(ColStart(startY, endY, holeH, gap) + (i * (holeH + gap)) as real)
    ensures forall i :: 0 <= i < |ys| - 1 ==> ys[i + 1] == ys[i] + holeH + gap
  {
    var span, step := endY - startY, holeH + gap;
    var n := Max(1, (span + gap) / step);
    var used := n * holeH + (n - 1) * gap;
    var y: real := startY as real + (span - used) as real / 2.0;
    ghost var y0 := y;
    ys := [];
    var i := 0;
    while i < n
      invariant 0 <= i <= n
      invariant |ys| == i
      invariant y == y0 + (i * step) as real
      invariant forall j :: 0 <= j < i ==> ys[j] == Round(y0 + (j * step) as real)
    {
      ys := ys + [Round(y)];
      i, y := i + 1, y + step as real;
    }
    forall j | 0 <= j < |ys| - 1
      ensures ys[j + 1] == ys[j] + step
    {
      assert y0 + ((j + 1) * step) as real == (y0 + (j * step) as real) + step as real;
      RoundShift(y0 + (j * step) as real, step);
    }
  }

  /** When the span holds at least one hole, `placeCol` uses the largest count that fits,
      and the run is centred in `[startY, endY]` with equal margins; after rounding, the
      first hole starts at or below `startY` and the last ends at or above `endY`. */
  lemma ColumnCentred(startY: int, endY: int, holeH: int, gap: int)
    requires holeH > 0 && gap >= 0 && endY - startY >= holeH
    ensures var n := ColCount(endY - startY, holeH, gap);
      var used := RunHeight(n, holeH, gap);
      var y0 := ColStart(startY, endY, holeH, gap);
      && used <= endY - startY < RunHeight(n + 1, holeH, gap)
      && startY as real <= y0 && y0 + used as real <= endY as real
      && y0 - startY as real == endY as real - (y0 + used as real)
      && startY <= Round(y0)
      && Round(y0 + ((n - 1) * (holeH + gap)) as real) + holeH <= endY
  {
    var n := ColCount(endY - startY, holeH, gap);
    ColCountFits(endY - startY, holeH, gap);
    var used := RunHeight(n, holeH, gap);
    var last := (n - 1) * (holeH + gap);
    assert last + holeH == used;
    var y0 := ColStart(startY, endY, holeH, gap);
    assert y0 == startY as real + (endY - startY - used) as real / 2.0;
    CentredRun(startY, endY, used, last);
    assert Round(y0 + last as real) + holeH <= endY;
  }

  /** A run of length `used` centred in `[startY, endY]` starts and ends inside it with
      equal margins, and a point `last` into the run, `holeH` short of its end, rounds to a
      top that still leaves room for the hole. */
  lemma CentredRun(startY: int, endY: int, used: int, last: int)
    requires 0 <= used <= endY - startY && 0 <= last <= used
    ensures var y0 := startY as real + (endY - startY - used) as real / 2.0;
      && startY as real <= y0 && y0 + used as real <= endY as real
      && y0 - startY as real == endY as real - (y0 + used as real)
      && startY <= Round(y0)
      && Round(y0 + last as real) + (used - last) <= endY
  {
    var y0 := startY as real + (endY - startY - used) as real / 2.0;
    RoundBounds(y0, startY);
    RoundBounds(y0 + last as real, endY - (used - last));
  }

  /** The column takes as many holes as fit in the span: the run fits, one more would
      not. */
  lemma ColCountFits(span: int, holeH: int, gap: int)
    requires holeH > 0 && gap >= 0 && span >= holeH
    ensures var n := ColCount(span, holeH, gap);
      && n >= 1
      && RunHeight(n, holeH, gap) <= span < RunHeight(n + 1, holeH, gap)
  {
    var step := holeH + gap;
    var q := (span + gap) / step;
    assert span + gap == q * step + (span + gap) % step;
    assert q >= 1;
    assert ColCount(span, holeH, gap) == q;
    assert RunHeight(q, holeH, gap) == q * step - gap;
    assert RunHeight(q + 1, holeH, gap) == (q + 1) * step - gap;
  }

  /** Sprocket holes of the retro frame: the x of each column and the tops of its holes. */
  datatype Holes = Holes(leftX: int, rightX: int, holeW: int, holeH: int, leftYs: seq<int>, rightYs: seq<int>)

  /** The column geometry of `drawRetroFilm` on a `w` x `h` canvas (h >= 10 keeps the
      holes at least one pixel tall). */
  method RetroFilmHoles(w: int, h: int) returns (holes: Holes)
    requires h >= 10
    ensures var ring := FrameRing("retro", w, h);
      var overY := Round(h as real * 0.02);
      && holes.holeW == Round(CardWidth(w) as real * 0.13)
      && holes.holeH == Round(h as real * 0.05) >= 1
      && holes.leftX == Round((ring.outer.x + ring.inner.x) as real / 2.0 - holes.holeW as real / 2.0)
      && holes.rightX == Round((ring.inner.Right() + ring.outer.Right()) as real / 2.0 - holes.holeW as real / 2.0)
      && |holes.leftYs| == ColCount(ring.inner.h + 2 * overY, holes.holeH, Round(h as real * 0.022))
      && (forall i :: 0 <= i < |holes.leftYs| ==>
            holes.leftYs[i] == Round(ColStart(ring.inner.y - overY, ring.inner.Bottom() + overY,
                                              holes.holeH, Round(h as real * 0.022))
                                     + (i * (holes.holeH + Round(h as real * 0.022))) as real))
      && (forall i :: 0 <= i < |holes.leftYs| - 1 ==>
            holes.leftYs[i + 1] == holes.leftYs[i] + holes.holeH + Round(h as real * 0.022))
      && holes.rightYs == holes.leftYs
  {
    var ring := FrameRing("retro", w, h);
    var outer, inner := ring.outer, ring.inner;
    var vHoleW := Round(CardWidth(w) as real * 0.13);
    var vHoleH := Round(h as real * 0.05);
    var vGap := Round(h as real * 0.022);
    var overY := Round(h as real * 0.02);
    RoundBounds(h as real * 0.05, 1);
    RoundBounds(h as real * 0.022, 0);
    var leftX := Round((outer.x + inner.x) as real / 2.0 - vHoleW as real / 2.0);
    var rightX := Round((inner.Right() + outer.Right()) as real / 2.0 - vHoleW as real / 2.0);
    var leftYs := PlaceCol(inner.y - overY, inner.Bottom() + overY, vHoleH, vGap);
    var rightYs := PlaceCol(inner.y - overY, inner.Bottom() + overY, vHoleH, vGap);
    assert forall i :: 0 <= i < |leftYs| ==> leftYs[i] == rightYs[i];
    assert leftYs == rightYs;
    assert inner.Bottom() + overY - (inner.y - overY) == inner.h + 2 * overY;
    holes := Holes(leftX, rightX, vHoleW, vHoleH, leftYs, rightYs);
  }
}
