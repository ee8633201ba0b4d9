/** Integer rectangles and the rounding the canvas code applies to exact reals. */
module Geometry {

  /** A canvas rectangle `{x, y, w, h}` in whole pixels. */
  datatype Rect = Rect(x: int, y: int, w: int, h: int) {
    function Right(): int { x + w }
    function Bottom(): int { y + h }

    /** `inner` lies within this rectangle (edges may touch). */
    predicate Contains(inner: Rect) {
      x <= inner.x && inner.Right() <= Right() && y <= inner.y && inner.Bottom() <= Bottom()
    }
  }

  /** One `drawImage(img, sx, sy, sw, sh, dx, dy, dw, dh)` call: source rect onto destination rect. */
  datatype Blit = Blit(src: Rect, dst: Rect)

  /** Size of a loaded image. */
  datatype Size = Size(w: int, h: int)

  /** A point of the canvas in logical (real-valued) coordinates. */
  datatype Point = Point(x: real, y: real)

  /** JavaScript's `Math.round`: the nearest integer, halves rounded up. */
  function Round(v: real): (r: int)
    ensures v - 0.5 < r as real <= v + 0.5
  {
    (v + 0.5).Floor
  }

  /** `Math.round` leaves whole numbers alone and commutes with adding a whole number. */
  lemma RoundShift(v: real, k: int)
    ensures Round(v + k as real) == Round(v) + k
  {
    var a, b := Round(v + k as real), Round(v) + k;
    assert v + k as real - 0.5 < a as real <= v + k as real + 0.5;
    assert v + k as real - 0.5 < b as real <= v + k as real + 0.5;
  }

  /** `Math.round` is monotone. */
  lemma RoundMonotone(u: real, v: real)
    requires u <= v
    ensures Round(u) <= Round(v)
  {
  }

  /** A value at most the integer `k` rounds to at most `k`; at least `k` rounds to at least `k`. */
  lemma RoundBounds(v: real, k: int)
    ensures v <= k as real ==> Round(v) <= k
    ensures k as real <= v ==> k <= Round(v)
  {
  }

  /** `Math.PI`. */
  const PI: real := 3.141592653589793

  function Max(a: int, b: int): int { if a < b then b else a }
  function MaxR(a: real, b: real): real { if a < b then b else a }
  function MinR(a: real, b: real): real { if a < b then a else b }
}
