/**
 * The base layer of the sticker page (Javascripts/stickers.js): where the photo strip is
 * drawn before any sticker. The 'peace' frame splits the strip into two halves stacked
 * with a gap; any other frame draws the whole strip into the photo area.
 */
module StickerCanvas {
  import opened Geometry

  const LOGICAL_W := 950
  const LOGICAL_H := 1470

  /** `PHOTO_MARGIN_BASE`. */
  const PHOTO_MARGIN_BASE: real := 0.028

  /** The margin of `photoRect`: 2.8% of the width, plus 0.8% for 'retro' or 'hearts'. */
  function Margin(frameId: string): int {
    var extra := Round(LOGICAL_W as real * 0.008);
    Round(LOGICAL_W as real * PHOTO_MARGIN_BASE)
      + (if frameId == "retro" then extra else 0)
      + (if frameId == "hearts" then extra else 0)
  }

  /** `photoRect`: the canvas less a uniform margin. */
  function PhotoRect(frameId: string): Rect {
    var m := Margin(frameId);
    Rect(m, m, LOGICAL_W - m * 2, LOGICAL_H - m * 2)
  }

  /** The photo area keeps the same margin on all four sides: 35 for 'retro' and 'hearts',
      27 otherwise; so it is centred in the canvas and lies inside it. */
  lemma PhotoRectMargins(frameId: string)
    ensures var r := PhotoRect(frameId);
      var m := if frameId == "retro" || frameId == "hearts" then 35 else 27;
      && r.x == m && r.y == m
      && LOGICAL_W - r.Right() == m && LOGICAL_H - r.Bottom() == m
      && Rect(0, 0, LOGICAL_W, LOGICAL_H).Contains(r)
  {
    assert Round(LOGICAL_W as real * 0.008) == 8 by {
      assert LOGICAL_W as real * 0.008 == 7.6;
    }
    assert Round(LOGICAL_W as real * PHOTO_MARGIN_BASE) == 27 by {
      assert LOGICAL_W as real * PHOTO_MARGIN_BASE == 26.6;
    }
  }

  /** The gap between the two halves of `drawPeaceOnCanvas`: 3.5% of the area's height,
      at least 10. */
  function PeaceGap(ph: Rect): int {
    Max(10, Round(ph.h as real * 0.035))
  }

  /** The drawn height of each half. */
  function HalfH(ph: Rect): int {
    (ph.h - PeaceGap(ph)) / 2
  }

  /** The two `drawImage` calls of `drawPeaceOnCanvas`: the top half of the strip above the
      gap, the bottom half below it, each squeezed to the full width of the area. */
  function PeaceHalves(ph: Rect, src: Size): seq<Blit> {
    var gap, halfH, srcHalfH := PeaceGap(ph), HalfH(ph), src.h / 2;
    [ Blit(Rect(0, 0, src.w, srcHalfH), Rect(ph.x, ph.y, ph.w, halfH)),
      Blit(Rect(0, srcHalfH, src.w, srcHalfH), Rect(ph.x, ph.y + halfH + gap, ph.w, halfH)) ]
  }

  /** The halves and the gap between them stack without overlap inside the photo area and
      leave at most one row free at its bottom; the two source halves are contiguous and
      inside the strip, leaving out its last row exactly when its height is odd. */
  lemma PeaceHalvesFit(ph: Rect, src: Size)
    requires ph.h >= PeaceGap(ph) && src.h >= 0
    ensures var b := PeaceHalves(ph, src);
      && ph.Contains(b[0].dst) && ph.Contains(b[1].dst)
      && b[1].dst.y == b[0].dst.Bottom() + PeaceGap(ph)
      && 0 <= ph.Bottom() - b[1].dst.Bottom() <= 1
      && b[0].src.y == 0 && b[1].src.y == b[0].src.Bottom()
      && b[0].src.h == b[1].src.h
      && src.h - b[1].src.Bottom() == src.h % 2
  {
  }

  /** On the 'peace' frame the area is 896 x 1416 at (27, 27), the gap 50 and each half 683
      high, so the halves and the gap fill the area exactly. */
  lemma PeaceConstants()
    ensures PhotoRect("peace") == Rect(27, 27, 896, 1416)
    ensures PeaceGap(PhotoRect("peace")) == 50 && HalfH(PhotoRect("peace")) == 683
    ensures var ph := PhotoRect("peace");
      2 * HalfH(ph) + PeaceGap(ph) == ph.h
  {
    PhotoRectMargins("peace");
    assert Round(1416.0 * 0.035) == 50 by {
      assert 1416.0 * 0.035 == 49.56;
    }
  }

  /** The white ring of the 'peace' frame: the whole canvas outside a band of 9% of the width. */
  function PeaceRingInner(): Rect {
    var border := Round(LOGICAL_W as real * 0.09);
    Rect(border, border, LOGICAL_W - border * 2, LOGICAL_H - border * 2)
  }

  /** The ring's band is 86 wide, so its hole lies inside the photo area and covers 59
      pixels of the photo on each side. */
  lemma PeaceRingOverlapsPhoto()
    ensures PeaceRingInner() == Rect(86, 86, 778, 1298)
    ensures PhotoRect("peace").Contains(PeaceRingInner())
    ensures PeaceRingInner().x - PhotoRect("peace").x == 59
  {
    PhotoRectMargins("peace");
    assert Round(LOGICAL_W as real * 0.09) == 86 by {
      assert LOGICAL_W as real * 0.09 == 85.5;
    }
  }

  /** What the page draws under the stickers when it falls back to the plain strip: the two
      halves for the 'peace' frame (`drawPeaceOnCanvas`), otherwise the whole strip into
      the 'retro' photo area (`drawRawStrip`). */
  function StripLayer(frameId: string, src: Size): (blits: seq<Blit>)
    ensures frameId == "peace" ==> blits == PeaceHalves(PhotoRect("peace"), src) && |blits| == 2
    ensures frameId != "peace" ==> blits == [Blit(Rect(0, 0, src.w, src.h), Rect(35, 35, 880, 1400))]
  {
    if frameId == "peace" then
      PeaceHalves(PhotoRect("peace"), src)
    else
      PhotoRectMargins("retro");
      [Blit(Rect(0, 0, src.w, src.h), PhotoRect("retro"))]
  }
}
