/**
 * The composition page (Javascripts/final.js): large stickers dragged over the two photos,
 * and the film layout's sprocket holes. Stickers are objects shared between the list and
 * the `selected` reference, so a drag moves the very sticker the list draws.
 */
module FinalScene {
  import opened Geometry

  const WIDTH := 1176
  const HEIGHT := 1470

  /** `HALF = HEIGHT / 2`. */
  const HALF: real := 735.0

  /** A sticker's box `{x, y, w, h}` in canvas units. */
  datatype Box = Box(x: real, y: real, w: real, h: real) {
    /** Whether the point lies in the box, edges included. */
    predicate Holds(p: Point) {
      x <= p.x <= x + w && y <= p.y <= y + h
    }
  }

  /** A placed sticker `{img, x, y, w, h, dragging}`; the image itself is not modelled. */
  class Sticker {
    var x: real
    var y: real
    var w: real
    var h: real
    var dragging: bool

    function Frame(): Box
      reads this
    {
      Box(x, y, w, h)
    }

    constructor(x: real, y: real, w: real, h: real)
      ensures Frame() == Box(x, y, w, h) && !dragging
    {
      this.x, this.y, this.w, this.h := x, y, w, h;
      dragging := false;
    }
  }

  /** The boxes of a list of stickers, in order. */
  ghost function Frames(ss: seq<Sticker>): (r: seq<Box>)
    reads ss
    ensures |r| == |ss|
    ensures forall i :: 0 <= i < |ss| ==> r[i] == ss[i].Frame()
    decreases |ss|
  {
    if ss == [] then [] else Frames(ss[..|ss| - 1]) + [ss[|ss| - 1].Frame()]
  }

  /** The index `pointerDown` picks among the first `n` boxes: the highest whose box holds
      the point, or -1. */
  function TopmostBox(boxes: seq<Box>, n: nat, p: Point): (r: int)
    requires n <= |boxes|
    ensures -1 <= r < n
    ensures r >= 0 ==> boxes[r].Holds(p)
    ensures forall j :: r < j < n ==> !boxes[j].Holds(p)
    decreases n
  {
    if n == 0 then -1
    else if boxes[n - 1].Holds(p) then n - 1
    else TopmostBox(boxes, n - 1, p)
  }

  /** `splice(i, 1)` then `push`: the element at `i` moved to the end. */
  function MoveToEnd<T>(xs: seq<T>, i: nat): seq<T>
    requires i < |xs|
  {
    xs[..i] + xs[i + 1..] + [xs[i]]
  }

  /** Bringing to front keeps the same elements, puts the chosen one last, and keeps every
      other element in its relative order. */
  lemma MoveToEndPermutes<T>(xs: seq<T>, i: nat)
    requires i < |xs|
    ensures var r := MoveToEnd(xs, i);
      && |r| == |xs|
      && multiset(r) == multiset(xs)
      && r[|r| - 1] == xs[i]
      && (forall j :: 0 <= j < i ==> r[j] == xs[j])
      && (forall j :: i <= j < |xs| - 1 ==> r[j] == xs[j + 1])
  {
    assert xs == xs[..i] + [xs[i]] + xs[i + 1..];
    calc {
      multiset(xs);
      multiset(xs[..i]) + multiset{xs[i]} + multiset(xs[i + 1..]);
      multiset(MoveToEnd(xs, i));
    }
  }

  /** The page's `stickers`, `selected` and `dragOffset`. */
  class Scene {
    var stickers: seq<Sticker>
    var selected: Sticker?
    var offsetX: real
    var offsetY: real

    constructor()
      ensures stickers == [] && selected == null && offsetX == 0.0 && offsetY == 0.0
    {
      stickers, selected := [], null;
      offsetX, offsetY := 0.0, 0.0;
    }

    /** `pointerDown`: the topmost sticker whose box holds the point becomes the selected,
        dragging one, remembers the pointer's offset and is brought to the front; a miss
        changes nothing. */
    method PointerDown(p: Point)
      modifies this, stickers
      ensures var i := TopmostBox(old(Frames(stickers)), |old(stickers)|, p);
        && (i < 0 ==> stickers == old(stickers) && selected == old(selected)
                      && offsetX == old(offsetX) && offsetY == old(offsetY))
        && (i >= 0 ==> stickers == MoveToEnd(old(stickers), i) && selected == old(stickers[i])
                       && selected.dragging
                       && offsetX == p.x - selected.x && offsetY == p.y - selected.y)
      ensures forall s :: s in old(stickers) ==> s.Frame() == old(s.Frame())
      ensures forall s :: s in old(stickers) && s != selected ==> s.dragging == old(s.dragging)
    {
      var i := |stickers| - 1;
      while i >= 0 && !stickers[i].Frame().Holds(p)
        invariant -1 <= i < |stickers|
        invariant TopmostBox(Frames(stickers), i + 1, p) == TopmostBox(Frames(stickers), |stickers|, p)
      {
        i := i - 1;
      }
      if i >= 0 {
        var s := stickers[i];
        selected := s;
        s.dragging := true;
        offsetX, offsetY := p.x - s.x, p.y - s.y;
        stickers := stickers[..i] + stickers[i + 1..];
        stickers := stickers + [s];
      }
    }

    /** `pointerMove`: only a dragging selected sticker moves, to the pointer less the
        remembered offset. */
    method PointerMove(p: Point)
      modifies selected
      ensures selected == old(selected)
      ensures old(selected) != null && old(selected.dragging) ==>
        selected.Frame() == old(selected.Frame()).(x := p.x - offsetX, y := p.y - offsetY)
      ensures selected != null && !old(selected.dragging) ==> unchanged(selected)
      ensures selected != null ==> selected.dragging == old(selected.dragging)
    {
      if selected == null || !selected.dragging {
        return;
      }
      selected.x := p.x - offsetX;
      selected.y := p.y - offsetY;
    }

    /** `pointerUp`: the selected sticker stops dragging and the selection is dropped. */
    method PointerUp()
      modifies this, selected
      ensures selected == null
      ensures old(selected) != null ==> !old(selected).dragging && old(selected).Frame() == old(selected.Frame())
      ensures stickers == old(stickers)
      ensures offsetX == old(offsetX) && offsetY == old(offsetY)
    {
      if selected != null {
        selected.dragging := false;
      }
      selected := null;
    }

    /** The reset button: the list is emptied; nothing else changes. */
    method Reset()
      modifies this
      ensures stickers == [] && selected == old(selected)
      ensures offsetX == old(offsetX) && offsetY == old(offsetY)
    {
      stickers := [];
    }

    /** `addSticker`, once its image has loaded with natural size `imgW` x `imgH`: a new
        sticker 1/2.2 of that size, centred on (`WIDTH/2`, `HALF`), on top of the others. */
    method AddSticker(imgW: real, imgH: real)
      modifies this
      ensures |stickers| == |old(stickers)| + 1 && stickers[..|old(stickers)|] == old(stickers)
      ensures var s := stickers[|stickers| - 1];
        && fresh(s) && !s.dragging
        && s.w * 2.2 == imgW && s.h * 2.2 == imgH
        && s.x + s.w / 2.0 == 588.0 && s.y + s.h / 2.0 == HALF
      ensures selected == old(selected)
      ensures offsetX == old(offsetX) && offsetY == old(offsetY)
    {
      var w := imgW / 2.2;
      var h := imgH / 2.2;
      var s := new Sticker(WIDTH as real / 2.0 - w / 2.0, HALF - h / 2.0, w, h);
      stickers := stickers + [s];
    }
  }

  /** A press on a sticker followed by a move drags it by exactly the pointer's
      displacement, keeping its size. */
  method DragMovesByDisplacement(scene: Scene, p0: Point, p1: Point)
    requires TopmostBox(Frames(scene.stickers), |scene.stickers|, p0) >= 0
    modifies scene, scene.stickers
    ensures var i := TopmostBox(old(Frames(scene.stickers)), |old(scene.stickers)|, p0);
      var b := old(scene.stickers[i].Frame());
      && scene.selected == old(scene.stickers[i])
      && |scene.stickers| == |old(scene.stickers)|
      && scene.stickers[|scene.stickers| - 1] == scene.selected
      && scene.selected.Frame() == b.(x := b.x + (p1.x - p0.x), y := b.y + (p1.y - p0.y))
  {
    ghost var i := TopmostBox(Frames(scene.stickers), |scene.stickers|, p0);
    scene.PointerDown(p0);
    scene.PointerMove(p1);
  }

  /** The drag lasts until the pointer is released: after a press, every move (here a
      second one) puts the sticker at its original box shifted by the pointer's total
      displacement since the press. */
  method DragFollowsEveryMove(scene: Scene, p0: Point, p1: Point, p2: Point)
    requires TopmostBox(Frames(scene.stickers), |scene.stickers|, p0) >= 0
    modifies scene, scene.stickers
    ensures var i := TopmostBox(old(Frames(scene.stickers)), |old(scene.stickers)|, p0);
      var b := old(scene.stickers[i].Frame());
      && scene.selected == old(scene.stickers[i])
      && scene.selected.dragging
      && |scene.stickers| == |old(scene.stickers)|
      && scene.stickers[|scene.stickers| - 1] == scene.selected
      && scene.selected.Frame() == b.(x := b.x + (p2.x - p0.x), y := b.y + (p2.y - p0.y))
  {
    scene.PointerDown(p0);
    scene.PointerMove(p1);
    scene.PointerMove(p2);
  }

  // ------------------------------------------------------------------ film sprockets

  const HOLE_W := 18
  const HOLE_H := 40
  const HOLE_GAP := 28

  /** The sprocket loop of the 'film' layout: a hole on each side every 68 units from
      y = 60 while y < HEIGHT - 60. Each hole sits on its black side bar (40 wide) and
      clear of the top and bottom bars (50 high). */
  method FilmSprockets() returns (left: seq<Rect>, right: seq<Rect>)
    ensures |left| == |right| == 20
    ensures forall k :: 0 <= k < |left| ==>
      && left[k] == Rect(10, 60 + (HOLE_H + HOLE_GAP) * k, HOLE_W, HOLE_H)
      && right[k] == Rect(WIDTH - 10 - HOLE_W, 60 + (HOLE_H + HOLE_GAP) * k, HOLE_W, HOLE_H)
      && left[k].y < HEIGHT - 60
      && Rect(0, 50, 40, HEIGHT - 100).Contains(left[k])
      && Rect(WIDTH - 40, 50, 40, HEIGHT - 100).Contains(right[k])
    ensures 60 + (HOLE_H + HOLE_GAP) * |left| >= HEIGHT - 60
  {
    left, right := [], [];
    var y := 60;
    while y < HEIGHT - 60
      invariant y == 60 + (HOLE_H + HOLE_GAP) * |left| && |left| == |right| <= 20
      invariant forall k :: 0 <= k < |left| ==>
        && left[k] == Rect(10, 60 + (HOLE_H + HOLE_GAP) * k, HOLE_W, HOLE_H)
        && right[k] == Rect(WIDTH - 10 - HOLE_W, 60 + (HOLE_H + HOLE_GAP) * k, HOLE_W, HOLE_H)
        && left[k].y < HEIGHT - 60
      decreases HEIGHT - y
    {
      left := left + [Rect(10, y, HOLE_W, HOLE_H)];
      right := right + [Rect(WIDTH - 10 - HOLE_W, y, HOLE_W, HOLE_H)];
      y := y + (HOLE_H + HOLE_GAP);
    }
  }
}
