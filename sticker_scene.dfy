/**
 * The sticker editor of the final page (Javascripts/stickers.js) as values: the `STATE`
 * object, each handler as a function from the old state to the new one, and the
 * properties of the undo/redo history. The `StickerEditor` module runs the same handlers
 * imperatively on an object whose fields mirror `STATE`.
 *
 * Snapshots are the JSON text of the sticker list with each sticker's `img` bitmap left
 * out; here a snapshot is the list itself with the bitmaps dropped, or an unreadable text.
 * Trigonometry is a parameter: `Trig` holds whatever `Math.cos`, `Math.sin` and
 * `Math.atan2` compute.
 */
module StickerScene {
  import opened Geometry
  import opened Options

  const LOGICAL_W: real := 950.0
  const LOGICAL_H: real := 1470.0

  /** Most snapshots `pushHistory` keeps. */
  const HISTORY_LIMIT := 60

  /** Arrow-key step in logical pixels. */
  const NUDGE: real := 6.0

  /** Wheel bounds: emoji font size in [12, 0.7 W], image width in [24, 0.95 W]. */
  const EMOJI_MIN: real := 12.0
  const EMOJI_MAX: real := LOGICAL_W * 0.7
  const IMG_MIN_W: real := 24.0
  const IMG_MAX_W: real := LOGICAL_W * 0.95

  /** The trigonometric functions the handlers call. */
  datatype Trig = Trig(cos: real -> real, sin: real -> real, atan2: (real, real) -> real)

  /** A sticker: an image (`kind: 'img'`) or an emoji (`kind: 'emoji'`). `linked` tells
      whether the image sticker holds its loaded bitmap (`st.img`). */
  datatype Sticker =
    | Img(src: string, w: real, h: real, x: real, y: real, scale: real, rot: real, linked: bool)
    | Emoji(glyph: string, base: int, x: real, y: real, scale: real, rot: real)

  /** A sticker the handlers can divide by: positive scale, and a positive width (image) or
      base font size (emoji). */
  predicate Sized(st: Sticker) {
    st.scale > 0.0 && (if st.Img? then st.w > 0.0 else st.base > 0)
  }

  /** The size the wheel clamps: the emoji's font size or the image's drawn width. */
  function DrawnSize(st: Sticker): real {
    if st.Emoji? then st.base as real * st.scale else st.w * st.scale
  }

  // ------------------------------------------------------------------ snapshots

  /** A history entry: the JSON text of a sticker list, or text `JSON.parse` rejects. */
  datatype Snapshot = Encoded(items: seq<Sticker>) | Unreadable

  /** The sticker as `JSON.stringify` writes it: without its bitmap. */
  function Strip(st: Sticker): Sticker {
    if st.Img? then st.(linked := false) else st
  }

  function StripAll(ss: seq<Sticker>): seq<Sticker> {
    seq(|ss|, i requires 0 <= i < |ss| => Strip(ss[i]))
  }

  /** `JSON.stringify(STATE.stickers, dropping 'img')`. */
  function Serialize(ss: seq<Sticker>): Snapshot {
    Encoded(StripAll(ss))
  }

  /** `JSON.parse(json) || []`, with a parse error giving the empty list. */
  function Parse(snap: Snapshot): seq<Sticker> {
    match snap
    case Encoded(items) => items
    case Unreadable => []
  }

  /** Reading back a written list gives every sticker in its place with all its fields but
      the bitmap, and writing that again gives the same snapshot. */
  lemma ParseSerialize(ss: seq<Sticker>)
    ensures |Parse(Serialize(ss))| == |ss|
    ensures forall i :: 0 <= i < |ss| ==>
      var r := Parse(Serialize(ss))[i];
      && r.x == ss[i].x && r.y == ss[i].y && r.scale == ss[i].scale && r.rot == ss[i].rot
      && r.Img? == ss[i].Img? && (r.Img? ==> !r.linked && r == ss[i].(linked := false))
      && (r.Emoji? ==> r == ss[i])
    ensures Serialize(Parse(Serialize(ss))) == Serialize(ss)
  {
    var r := StripAll(ss);
    assert StripAll(r) == r;
  }

  /** A snapshot the editor itself wrote: readable, without bitmaps, with sized stickers. */
  predicate Written(snap: Snapshot) {
    && snap.Encoded?
    && forall i :: 0 <= i < |snap.items| ==>
         Sized(snap.items[i]) && !(snap.items[i].Img? && snap.items[i].linked)
  }

  /** Reading a written snapshot and writing the result back gives the same snapshot. */
  lemma WrittenRoundTrip(snap: Snapshot)
    requires Written(snap)
    ensures Serialize(Parse(snap)) == snap
  {
    assert StripAll(snap.items) == snap.items;
  }

  // ------------------------------------------------------------------ state

  /** `STATE.dragStart`: the pointer offset of a drag, the rotation and pointer angle at
      the start of a rotation. */
  datatype Grab = Grab(sx: real, sy: real, rotStart: real, angleStart: real)

  /** `STATE` without `baseBitmap`. */
  datatype Scene = Scene(
    stickers: seq<Sticker>,
    selected: int,
    dragging: bool,
    rotating: bool,
    grab: Grab,
    history: seq<Snapshot>,
    future: seq<Snapshot>)

  /** `STATE` as the page starts. */
  function Initial(): Scene {
    Scene([], -1, false, false, Grab(0.0, 0.0, 0.0, 0.0), [], [])
  }

  /** What every handler keeps true: the selection is -1 or an index, stickers are sized,
      the two stacks hold at most 60 snapshots together, and every snapshot is one the
      editor wrote. */
  predicate Valid(s: Scene) {
    && -1 <= s.selected < |s.stickers|
    && (forall i :: 0 <= i < |s.stickers| ==> Sized(s.stickers[i]))
    && |s.history| + |s.future| <= HISTORY_LIMIT
    && (forall i :: 0 <= i < |s.history| ==> Written(s.history[i]))
    && (forall i :: 0 <= i < |s.future| ==> Written(s.future[i]))
  }

  lemma InitialValid()
    ensures Valid(Initial()) && Initial().stickers == [] && Initial().selected == -1
  {
  }

  // ------------------------------------------------------------------ history

  /** `pushHistory`: append a snapshot of the current list, drop the oldest beyond 60,
      and forget the redo stack. */
  function PushHistory(s: Scene): Scene {
    var h := s.history + [Serialize(s.stickers)];
    s.(history := if |h| > HISTORY_LIMIT then h[1..] else h, future := [])
  }

  /** `pushHistory` appends exactly one snapshot of the current list, evicts the oldest
      entry only when 60 were already kept, empties the redo stack and changes nothing else. */
  lemma PushHistoryAppends(s: Scene)
    requires |s.history| <= HISTORY_LIMIT
    ensures var t := PushHistory(s);
      && |t.history| <= HISTORY_LIMIT
      && t.future == []
      && (|s.history| < HISTORY_LIMIT ==> t.history == s.history + [Serialize(s.stickers)])
      && (|s.history| == HISTORY_LIMIT ==> t.history == s.history[1..] + [Serialize(s.stickers)])
      && t.(history := s.history, future := s.future) == s
  {
    if |s.history| == HISTORY_LIMIT {
      assert (s.history + [Serialize(s.stickers)])[1..] == s.history[1..] + [Serialize(s.stickers)];
    }
  }

  /** `pushHistory` on a state whose stickers are sized keeps the state valid. */
  lemma PushHistoryValid(s: Scene)
    requires -1 <= s.selected < |s.stickers|
    requires forall i :: 0 <= i < |s.stickers| ==> Sized(s.stickers[i])
    requires |s.history| <= HISTORY_LIMIT
    requires forall i :: 0 <= i < |s.history| ==> Written(s.history[i])
    ensures Valid(PushHistory(s))
  {
    var snap := Serialize(s.stickers);
    assert Written(snap);
    var h := s.history + [snap];
    assert forall i :: 0 <= i < |h| ==> Written(h[i]);
  }

  /** `applySnapshot`: install the list a snapshot holds and clear the selection. */
  function ApplySnapshot(s: Scene, snap: Snapshot): Scene {
    s.(stickers := Parse(snap), selected := -1)
  }

  /** The undo button: nothing when the history is empty; otherwise push the current list
      onto the redo stack and install the newest history entry. */
  function Undo(s: Scene): Scene {
    if s.history == [] then s
    else
      var n := |s.history|;
      ApplySnapshot(s.(future := s.future + [Serialize(s.stickers)], history := s.history[..n - 1]), s.history[n - 1])
  }

  /** The redo button: the mirror image of `Undo`. */
  function Redo(s: Scene): Scene {
    if s.future == [] then s
    else
      var n := |s.future|;
      ApplySnapshot(s.(history := s.history + [Serialize(s.stickers)], future := s.future[..n - 1]), s.future[n - 1])
  }

  /** Undo and redo move one snapshot between the stacks, so the number kept in both
      together does not change; with nothing to move they change nothing. */
  lemma StacksConserved(s: Scene)
    ensures |Undo(s).history| + |Undo(s).future| == |s.history| + |s.future|
    ensures |Redo(s).history| + |Redo(s).future| == |s.history| + |s.future|
    ensures s.history == [] ==> Undo(s) == s
    ensures s.future == [] ==> Redo(s) == s
  {
  }

  /** Undo then redo gives back the list (without bitmaps) and both stacks exactly, with
      nothing selected. */
  lemma RedoAfterUndo(s: Scene)
    requires Valid(s) && s.history != []
    ensures Redo(Undo(s)) == s.(stickers := StripAll(s.stickers), selected := -1)
  {
    var n := |s.history|;
    WrittenRoundTrip(s.history[n - 1]);
    ParseSerialize(s.stickers);
    assert s.history[..n - 1] + [s.history[n - 1]] == s.history;
    assert (s.future + [Serialize(s.stickers)])[..|s.future|] == s.future;
  }

  /** Redo then undo gives back the list (without bitmaps) and both stacks exactly, with
      nothing selected. */
  lemma UndoAfterRedo(s: Scene)
    requires Valid(s) && s.future != []
    ensures Undo(Redo(s)) == s.(stickers := StripAll(s.stickers), selected := -1)
  {
    var n := |s.future|;
    WrittenRoundTrip(s.future[n - 1]);
    ParseSerialize(s.stickers);
    assert s.future[..n - 1] + [s.future[n - 1]] == s.future;
    assert (s.history + [Serialize(s.stickers)])[..|s.history|] == s.history;
  }

  /** Snapshots are taken after each change: an undo straight after any commit installs the
      list as it already is (bitmaps aside), so a change is not reverted until the second undo. */
  lemma UndoAfterCommit(s: Scene)
    requires |s.history| <= HISTORY_LIMIT
    ensures var u := Undo(PushHistory(s));
      && u.stickers == StripAll(s.stickers)
      && u.selected == -1
      && u.future == [Serialize(s.stickers)]
      && u.history == (if |s.history| < HISTORY_LIMIT then s.history else s.history[1..])
  {
    PushHistoryAppends(s);
    ParseSerialize(s.stickers);
    var h := PushHistory(s).history;
    if |s.history| < HISTORY_LIMIT {
      assert h[..|h| - 1] == s.history;
    } else {
      assert h[..|h| - 1] == s.history[1..];
    }
  }

  // ------------------------------------------------------------------ adding and clearing

  /** `Math.round(LOGICAL_W * 0.18)`. */
  function EmojiBase(): int {
    Round(LOGICAL_W * 0.18)
  }

  lemma EmojiBaseValue()
    ensures EmojiBase() == 171
  {
    assert LOGICAL_W * 0.18 == 171.0;
  }

  /** An entry of `FACE_STICKERS`. */
  datatype Face = Face(src: string, title: string, widthFrac: real)

  const FACE_STICKERS: seq<Face> := [
    Face("heart.png", "Heart Glasses", 0.48),
    Face("moustache.png", "Moustache", 0.36),
    Face("hat.png", "Top Hat", 0.44),
    Face("bow.png", "Red Bow", 0.30),
    Face("bunny.png", "Bunny Ears", 0.46)
  ]

  /** `FACE_STICKERS.find(x => x.src === src)`. */
  function FindFace(faces: seq<Face>, src: string): (r: Option<Face>)
    ensures r.Some? ==> r.value in faces && r.value.src == src
    ensures r.None? ==> forall f :: f in faces ==> f.src != src
  {
    if faces == [] then None
    else if faces[0].src == src then Some(faces[0])
    else FindFace(faces[1..], src)
  }

  /** `addImageSticker`: a sticker `widthFrac` of the canvas wide with the image's aspect
      `ratio` (height over width), centred, unscaled and upright, appended, selected and
      committed. */
  function AddImage(s: Scene, src: string, widthFrac: real, ratio: real): Scene {
    var w := LOGICAL_W * widthFrac;
    var st := Img(src, w, w * ratio, LOGICAL_W / 2.0, LOGICAL_H / 2.0, 1.0, 0.0, true);
    PushHistory(s.(stickers := s.stickers + [st], selected := |s.stickers|))
  }

  /** `addEmojiSticker`: an emoji of base size 171, centred, unscaled and upright,
      appended, selected and committed. */
  function AddEmoji(s: Scene, glyph: string): Scene {
    var st := Emoji(glyph, EmojiBase(), LOGICAL_W / 2.0, LOGICAL_H / 2.0, 1.0, 0.0);
    PushHistory(s.(stickers := s.stickers + [st], selected := |s.stickers|))
  }

  /** A click on a face tile: nothing for a source not in the catalogue or an image that
      failed to load (`ratio` is `None`); otherwise `addImageSticker` with the catalogue
      width. */
  function FaceTile(s: Scene, src: string, ratio: Option<real>): Scene {
    match FindFace(FACE_STICKERS, src)
    case None => s
    case Some(face) => if ratio.None? then s else AddImage(s, face.src, face.widthFrac, ratio.value)
  }

  /** A click on an emoji tile: nothing when the tile's text is empty. */
  function EmojiTile(s: Scene, glyph: string): Scene {
    if glyph == "" then s else AddEmoji(s, glyph)
  }

  /** Adding appends exactly one sticker at the canvas centre (475, 735) with scale 1 and
      no rotation, leaves the others in place, selects the new one and commits once. */
  lemma AddEmojiAppends(s: Scene, glyph: string)
    requires Valid(s)
    ensures var t := AddEmoji(s, glyph);
      && |t.stickers| == |s.stickers| + 1
      && t.stickers[..|s.stickers|] == s.stickers
      && t.stickers[|s.stickers|] == Emoji(glyph, 171, 475.0, 735.0, 1.0, 0.0)
      && t.selected == |t.stickers| - 1
      && t.future == []
      && t.history[|t.history| - 1] == Serialize(t.stickers)
      && (|s.history| < HISTORY_LIMIT ==> |t.history| == |s.history| + 1)
      && Valid(t)
  {
    EmojiBaseValue();
    var u := s.(stickers := s.stickers + [Emoji(glyph, 171, 475.0, 735.0, 1.0, 0.0)], selected := |s.stickers|);
    assert u.stickers[..|s.stickers|] == s.stickers;
    PushHistoryAppends(u);
    PushHistoryValid(u);
  }

  /** Every catalogue width is a positive fraction of the canvas. */
  lemma FaceWidthsPositive()
    ensures forall f :: f in FACE_STICKERS ==> 0.0 < f.widthFrac < 1.0
  {
  }

  /** Adding an image appends exactly one sticker at the canvas centre (475, 735),
      `widthFrac` of the canvas wide with the image's aspect, scale 1 and no rotation;
      selects it and commits once. */
  lemma AddImageAppends(s: Scene, src: string, widthFrac: real, ratio: real)
    requires Valid(s) && widthFrac > 0.0
    ensures var t := AddImage(s, src, widthFrac, ratio);
      && |t.stickers| == |s.stickers| + 1
      && t.stickers[..|s.stickers|] == s.stickers
      && t.stickers[|s.stickers|] == Img(src, 950.0 * widthFrac, 950.0 * widthFrac * ratio, 475.0, 735.0, 1.0, 0.0, true)
      && t.selected == |t.stickers| - 1
      && t.future == []
      && t.history[|t.history| - 1] == Serialize(t.stickers)
      && (|s.history| < HISTORY_LIMIT ==> |t.history| == |s.history| + 1)
      && Valid(t)
  {
    var w := LOGICAL_W * widthFrac;
    var u := s.(stickers := s.stickers + [Img(src, w, w * ratio, 475.0, 735.0, 1.0, 0.0, true)], selected := |s.stickers|);
    assert u.stickers[..|s.stickers|] == s.stickers;
    PushHistoryAppends(u);
    PushHistoryValid(u);
  }

  /** The clear button: no stickers, nothing selected, then a commit. */
  function Clear(s: Scene): Scene {
    PushHistory(s.(stickers := [], selected := -1))
  }

  // ------------------------------------------------------------------ hit testing

  /** Whether the point `p` falls on the sticker: within the circle of radius
      `base * scale * 0.6` for an emoji, within the `w * scale` x `h * scale` box for an
      image, both in the sticker's own frame (the point turned back by its rotation). */
  predicate Hits(st: Sticker, p: Point, trig: Trig) {
    var dx, dy := p.x - st.x, p.y - st.y;
    var a := -st.rot;
    var rx := dx * trig.cos(a) - dy * trig.sin(a);
    var ry := dx * trig.sin(a) + dy * trig.cos(a);
    if st.Emoji? then
      var r := st.base as real * st.scale * 0.6;
      rx * rx + ry * ry <= r * r
    else
      var w, h := st.w * st.scale, st.h * st.scale;
      -w / 2.0 <= rx <= w / 2.0 && -h / 2.0 <= ry <= h / 2.0
  }

  /** `hitTest` over the first `n` stickers: the highest index below `n` that the point
      falls on, or -1. */
  function TopmostBelow(ss: seq<Sticker>, n: nat, p: Point, trig: Trig): (r: int)
    requires n <= |ss|
    ensures -1 <= r < n
    ensures r >= 0 ==> Hits(ss[r], p, trig)
    ensures forall j :: r < j < n ==> !Hits(ss[j], p, trig)
    decreases n
  {
    if n == 0 then -1
    else if Hits(ss[n - 1], p, trig) then n - 1
    else TopmostBelow(ss, n - 1, p, trig)
  }

  /** `hitTest`: the topmost (last drawn) sticker under the point, or -1 when none is. */
  function TopmostHit(ss: seq<Sticker>, p: Point, trig: Trig): int {
    TopmostBelow(ss, |ss|, p, trig)
  }

  // ------------------------------------------------------------------ pointer

  /** `mousedown` at `p`: on a hit, select the sticker and start a rotation (Alt held,
      recording its rotation and the pointer's angle) or a drag (recording the pointer's
      offset); on a miss, clear the selection. */
  function MouseDown(s: Scene, p: Point, alt: bool, trig: Trig): Scene {
    var i := TopmostHit(s.stickers, p, trig);
    if i < 0 then s.(selected := -1)
    else
      var st := s.stickers[i];
      var dx, dy := p.x - st.x, p.y - st.y;
      if alt then s.(selected := i, rotating := true, grab := s.grab.(angleStart := trig.atan2(dy, dx), rotStart := st.rot))
      else s.(selected := i, dragging := true, grab := s.grab.(sx := dx, sy := dy))
  }

  /** `mousemove` to `p`: a drag puts the selected sticker at the pointer less the recorded
      offset; a rotation turns it by how far the pointer's angle has turned. */
  function MouseMove(s: Scene, p: Point, trig: Trig): Scene
    requires s.selected < |s.stickers|
  {
    if s.selected < 0 then s
    else
      var st := s.stickers[s.selected];
      if s.dragging then
        s.(stickers := s.stickers[s.selected := st.(x := p.x - s.grab.sx, y := p.y - s.grab.sy)])
      else if s.rotating then
        var ang := trig.atan2(p.y - st.y, p.x - st.x);
        s.(stickers := s.stickers[s.selected := st.(rot := s.grab.rotStart + (ang - s.grab.angleStart))])
      else s
  }

  /** `mouseup`: end a drag or rotation with one commit; otherwise nothing. */
  function MouseUp(s: Scene): Scene {
    if s.dragging || s.rotating then PushHistory(s.(dragging := false, rotating := false)) else s
  }

  /** A drag moves the grabbed sticker by exactly the pointer's displacement and nothing
      else; releasing commits once, and the undo that follows leaves the sticker where it
      was dropped. */
  lemma DragFollowsPointer(s: Scene, p0: Point, p1: Point, trig: Trig)
    requires Valid(s) && TopmostHit(s.stickers, p0, trig) >= 0
    ensures var i := TopmostHit(s.stickers, p0, trig);
      var down := MouseDown(s, p0, false, trig);
      var moved := MouseMove(down, p1, trig);
      var st := s.stickers[i];
      && down.selected == i && down.dragging
      && |moved.stickers| == |s.stickers|
      && moved.stickers[i] == st.(x := st.x + (p1.x - p0.x), y := st.y + (p1.y - p0.y))
      && (forall j :: 0 <= j < |s.stickers| && j != i ==> moved.stickers[j] == s.stickers[j])
      && MouseUp(moved) == PushHistory(moved.(dragging := false, rotating := false))
      && Undo(MouseUp(moved)).stickers == StripAll(moved.stickers)
  {
    var i := TopmostHit(s.stickers, p0, trig);
    var down := MouseDown(s, p0, false, trig);
    var moved := MouseMove(down, p1, trig);
    UndoAfterCommit(moved.(dragging := false, rotating := false));
  }

  /** `mouseup` commits exactly when a gesture was under way: then it appends one snapshot
      of the list, empties the redo stack and clears both gesture flags. */
  lemma MouseUpCommitsOnce(s: Scene)
    requires Valid(s)
    ensures !(s.dragging || s.rotating) ==> MouseUp(s) == s
    ensures s.dragging || s.rotating ==>
      var t := MouseUp(s);
      && !t.dragging && !t.rotating && t.stickers == s.stickers && t.future == []
      && (|s.history| < HISTORY_LIMIT ==> t.history == s.history + [Serialize(s.stickers)])
      && (|s.history| == HISTORY_LIMIT ==> t.history == s.history[1..] + [Serialize(s.stickers)])
  {
    if s.dragging || s.rotating {
      PushHistoryAppends(s.(dragging := false, rotating := false));
    }
  }

  // ------------------------------------------------------------------ wheel and keys

  /** `Math.max(lo, Math.min(hi, v))`. */
  function Clamp(lo: real, hi: real, v: real): real {
    MaxR(lo, MinR(hi, v))
  }

  /** The wheel's zoom factor: 0.92 when scrolling down (`Math.sign(deltaY) > 0`), else 1.08. */
  function WheelFactor(deltaY: real): real {
    if deltaY > 0.0 then 0.92 else 1.08
  }

  /** The sticker with another scale and every other field kept. */
  function Rescaled(st: Sticker, scale: real): Sticker {
    st.(scale := scale)
  }

  /** One wheel step on a sticker: its emoji font size or image width times `factor`,
      clamped, turned back into a scale. */
  function WheelSticker(st: Sticker, factor: real): Sticker
    requires Sized(st)
  {
    if st.Emoji? then Rescaled(st, Clamp(EMOJI_MIN, EMOJI_MAX, DrawnSize(st) * factor) / st.base as real)
    else Rescaled(st, Clamp(IMG_MIN_W, IMG_MAX_W, DrawnSize(st) * factor) / st.w)
  }

  /** A wheel step changes only the scale, keeps the sticker sized, keeps the drawn size
      within the bounds of its kind, and scales by exactly the factor whenever that stays
      in bounds. */
  lemma WheelStickerClamps(st: Sticker, factor: real)
    requires Sized(st)
    ensures var r := WheelSticker(st, factor);
      var size := DrawnSize(r);
      var want := DrawnSize(st) * factor;
      && Sized(r) && r.(scale := st.scale) == st
      && (st.Emoji? ==> EMOJI_MIN <= size <= EMOJI_MAX && (EMOJI_MIN <= want <= EMOJI_MAX ==> size == want))
      && (st.Img? ==> IMG_MIN_W <= size <= IMG_MAX_W && (IMG_MIN_W <= want <= IMG_MAX_W ==> size == want))
  {
    if st.Emoji? {
      WheelEmojiSize(st, factor);
    } else {
      WheelImageSize(st, factor);
    }
  }

  lemma WheelEmojiSize(st: Sticker, factor: real)
    requires Sized(st) && st.Emoji?
    ensures var size := DrawnSize(WheelSticker(st, factor));
      var want := DrawnSize(st) * factor;
      && Sized(WheelSticker(st, factor))
      && EMOJI_MIN <= size <= EMOJI_MAX && (EMOJI_MIN <= want <= EMOJI_MAX ==> size == want)
  {
    var b := st.base as real;
    var c := Clamp(EMOJI_MIN, EMOJI_MAX, DrawnSize(st) * factor);
    ClampBack(b, DrawnSize(st) * factor, EMOJI_MIN, EMOJI_MAX);
    var r := Rescaled(st, c / b);
    assert WheelSticker(st, factor) == r;
    assert DrawnSize(r) == b * (c / b);
  }

  lemma WheelImageSize(st: Sticker, factor: real)
    requires Sized(st) && st.Img?
    ensures var size := DrawnSize(WheelSticker(st, factor));
      var want := DrawnSize(st) * factor;
      && Sized(WheelSticker(st, factor))
      && IMG_MIN_W <= size <= IMG_MAX_W && (IMG_MIN_W <= want <= IMG_MAX_W ==> size == want)
  {
    var c := Clamp(IMG_MIN_W, IMG_MAX_W, DrawnSize(st) * factor);
    ClampBack(st.w, DrawnSize(st) * factor, IMG_MIN_W, IMG_MAX_W);
    var r := Rescaled(st, c / st.w);
    assert WheelSticker(st, factor) == r;
    assert DrawnSize(r) == st.w * (c / st.w);
  }

  /** Clamping a size `v` and dividing by `b` gives a positive scale that turns `b` back
      into the clamped size. */
  lemma ClampBack(b: real, v: real, lo: real, hi: real)
    requires b > 0.0 && 0.0 < lo <= hi
    ensures var c := Clamp(lo, hi, v);
      && c / b > 0.0
      && lo <= b * (c / b) <= hi
      && (lo <= v <= hi ==> b * (c / b) == v)
  {
    DivideBack(Clamp(lo, hi, v), b);
  }

  /** Scaling by `c / b` turns a size `b` into `c`; a positive `c` gives a positive scale. */
  lemma DivideBack(c: real, b: real)
    requires b > 0.0
    ensures b * (c / b) == c
    ensures c > 0.0 ==> c / b > 0.0
  {
  }

  /** `wheel`: scale the selected sticker by 0.92 (scrolling down) or 1.08, clamping its
      emoji font size or image width, then commit. */
  function Wheel(s: Scene, deltaY: real): Scene
    requires s.selected < |s.stickers|
    requires s.selected >= 0 ==> Sized(s.stickers[s.selected])
  {
    if s.selected < 0 then s
    else
      var st := s.stickers[s.selected];
      PushHistory(s.(stickers := s.stickers[s.selected := WheelSticker(st, WheelFactor(deltaY))]))
  }

  /** The wheel keeps an emoji's font size within [12, 665] and an image's width within
      [24, 902.5], scaling by the factor whenever that stays in bounds; it touches no other
      sticker and commits once. */
  lemma WheelClamps(s: Scene, deltaY: real)
    requires Valid(s) && s.selected >= 0
    ensures var st := s.stickers[s.selected];
      var t := Wheel(s, deltaY);
      var size := DrawnSize(t.stickers[s.selected]);
      var want := DrawnSize(st) * (if deltaY > 0.0 then 0.92 else 1.08);
      && |t.stickers| == |s.stickers|
      && (forall j :: 0 <= j < |s.stickers| && j != s.selected ==> t.stickers[j] == s.stickers[j])
      && (st.Emoji? ==> 12.0 <= size <= 665.0 && (12.0 <= want <= 665.0 ==> size == want))
      && (st.Img? ==> 24.0 <= size <= 902.5 && (24.0 <= want <= 902.5 ==> size == want))
      && t.selected == s.selected
      && t.future == []
      && t.history[|t.history| - 1] == Serialize(t.stickers)
  {
    WheelStickerClamps(s.stickers[s.selected], WheelFactor(deltaY));
  }

  /** The arrow keys' moves. */
  predicate IsArrow(key: string) {
    key == "ArrowUp" || key == "ArrowDown" || key == "ArrowLeft" || key == "ArrowRight"
  }

  /** An arrow key moves the sticker 6 units along one axis. */
  function Nudge(st: Sticker, key: string): Sticker {
    if key == "ArrowUp" then st.(y := st.y - NUDGE)
    else if key == "ArrowDown" then st.(y := st.y + NUDGE)
    else if key == "ArrowLeft" then st.(x := st.x - NUDGE)
    else if key == "ArrowRight" then st.(x := st.x + NUDGE)
    else st
  }

  /** The keys that edit the selected sticker in place. */
  predicate IsEditKey(key: string) {
    IsArrow(key) || key == "=" || key == "+" || key == "-" || key == "_" || key == "[" || key == "]"
  }

  /** What an editing key does to the sticker: the arrows nudge it, `=`/`+` and `-`/`_`
      scale it by 1.06 and 0.94 without any clamp, `[` and `]` turn it by 2 degrees. */
  function KeyEdit(st: Sticker, key: string): Sticker {
    if IsArrow(key) then Nudge(st, key)
    else if key == "=" || key == "+" then Rescaled(st, st.scale * 1.06)
    else if key == "-" || key == "_" then Rescaled(st, st.scale * 0.94)
    else if key == "[" then st.(rot := st.rot - PI / 90.0)
    else if key == "]" then st.(rot := st.rot + PI / 90.0)
    else st
  }

  /** An editing key keeps a sized sticker sized and keeps its kind and size fields. */
  lemma KeyEditSized(st: Sticker, key: string)
    requires Sized(st)
    ensures Sized(KeyEdit(st, key))
    ensures KeyEdit(st, key).Img? == st.Img?
  {
  }

  /** `keydown`: with a sticker selected, Delete/Backspace removes it and an editing key
      changes it; either then commits. Other keys, and any key with nothing selected,
      change nothing. */
  function KeyDown(s: Scene, key: string): Scene
    requires s.selected < |s.stickers|
  {
    if s.selected < 0 then s
    else
      var i := s.selected;
      var st := s.stickers[i];
      if key == "Delete" || key == "Backspace" then
        PushHistory(s.(stickers := s.stickers[..i] + s.stickers[i + 1..], selected := -1))
      else if IsEditKey(key) then
        PushHistory(s.(stickers := s.stickers[i := KeyEdit(st, key)]))
      else s
  }

  /** With nothing selected, keys, the wheel and pointer moves change nothing. */
  lemma InertWithoutSelection(s: Scene, key: string, deltaY: real, p: Point, trig: Trig)
    requires s.selected < 0
    ensures KeyDown(s, key) == s && Wheel(s, deltaY) == s && MouseMove(s, p, trig) == s
  {
  }

  /** Delete removes exactly the selected sticker, keeps the others in order, clears the
      selection and commits once. */
  lemma DeleteRemovesSelected(s: Scene, key: string)
    requires Valid(s) && s.selected >= 0 && (key == "Delete" || key == "Backspace")
    ensures var i := s.selected;
      var t := KeyDown(s, key);
      && |t.stickers| == |s.stickers| - 1
      && (forall j :: 0 <= j < i ==> t.stickers[j] == s.stickers[j])
      && (forall j :: i <= j < |t.stickers| ==> t.stickers[j] == s.stickers[j + 1])
      && multiset(t.stickers) + multiset{s.stickers[i]} == multiset(s.stickers)
      && t.selected == -1
      && t.future == []
      && t.history[|t.history| - 1] == Serialize(t.stickers)
  {
    var i := s.selected;
    assert s.stickers == s.stickers[..i] + [s.stickers[i]] + s.stickers[i + 1..];
    PushHistoryAppends(s.(stickers := s.stickers[..i] + s.stickers[i + 1..], selected := -1));
  }

  /** An arrow key moves the selected sticker exactly 6 units along one axis, leaves every
      other sticker and field alone, and commits once. */
  lemma ArrowMovesSix(s: Scene, key: string)
    requires Valid(s) && s.selected >= 0 && IsArrow(key)
    ensures var i := s.selected;
      var st := s.stickers[i];
      var t := KeyDown(s, key);
      var moved := t.stickers[i];
      && |t.stickers| == |s.stickers|
      && (forall j :: 0 <= j < |s.stickers| && j != i ==> t.stickers[j] == s.stickers[j])
      && moved.(x := st.x, y := st.y) == st
      && ((moved.x == st.x && (moved.y - st.y == 6.0 || st.y - moved.y == 6.0))
          || (moved.y == st.y && (moved.x - st.x == 6.0 || st.x - moved.x == 6.0)))
      && t.selected == i
      && t.future == []
  {
  }

  /** The `+` key is not clamped: an emoji already at the wheel's largest size (665)
      grows past it. */
  lemma PlusKeyUnclamped(s: Scene)
    requires Valid(s) && s.selected >= 0 && s.stickers[s.selected].Emoji?
    requires DrawnSize(s.stickers[s.selected]) == EMOJI_MAX
    ensures DrawnSize(KeyDown(s, "+").stickers[s.selected]) > EMOJI_MAX
  {
    var st := s.stickers[s.selected];
    assert st.base as real * (st.scale * 1.06) == (st.base as real * st.scale) * 1.06;
  }

  // ------------------------------------------------------------------ all events

  /** The user's inputs to the editor. `FaceClick` carries the loaded image's aspect, or
      `None` when loading failed. */
  datatype Event =
    | Down(p: Point, alt: bool)
    | Move(p: Point)
    | Up
    | Scroll(deltaY: real)
    | Key(key: string)
    | UndoClick
    | RedoClick
    | ClearClick
    | EmojiClick(glyph: string)
    | FaceClick(src: string, ratio: Option<real>)

  /** The handler an event runs. */
  function Step(s: Scene, e: Event, trig: Trig): Scene
    requires Valid(s)
  {
    match e
    case Down(p, alt) => MouseDown(s, p, alt, trig)
    case Move(p) => MouseMove(s, p, trig)
    case Up => MouseUp(s)
    case Scroll(deltaY) => Wheel(s, deltaY)
    case Key(key) => KeyDown(s, key)
    case UndoClick => Undo(s)
    case RedoClick => Redo(s)
    case ClearClick => Clear(s)
    case EmojiClick(glyph) => EmojiTile(s, glyph)
    case FaceClick(src, ratio) => FaceTile(s, src, ratio)
  }

  /** Every handler keeps the state valid. */
  lemma StepValid(s: Scene, e: Event, trig: Trig)
    requires Valid(s)
    ensures Valid(Step(s, e, trig))
  {
    match e
    case Down(p, alt) =>
    case Move(p) => MoveValid(s, p, trig);
    case Up =>
      if s.dragging || s.rotating {
        PushHistoryValid(s.(dragging := false, rotating := false));
      }
    case Scroll(deltaY) =>
      if s.selected >= 0 {
        var st := s.stickers[s.selected];
        WheelStickerClamps(st, WheelFactor(deltaY));
        PushHistoryValid(s.(stickers := s.stickers[s.selected := WheelSticker(st, WheelFactor(deltaY))]));
      }
    case Key(key) => KeyValid(s, key);
    case UndoClick => UndoValid(s);
    case RedoClick => RedoValid(s);
    case ClearClick => PushHistoryValid(s.(stickers := [], selected := -1));
    case EmojiClick(glyph) =>
      if glyph != "" {
        AddEmojiAppends(s, glyph);
      }
    case FaceClick(src, ratio) =>
      var face := FindFace(FACE_STICKERS, src);
      if face.Some? && ratio.Some? {
        FaceWidthsPositive();
        AddImageAppends(s, face.value.src, face.value.widthFrac, ratio.value);
      }
  }

  lemma MoveValid(s: Scene, p: Point, trig: Trig)
    requires Valid(s)
    ensures Valid(MouseMove(s, p, trig))
  {
    if s.selected >= 0 {
      var t := MouseMove(s, p, trig);
      assert forall j :: 0 <= j < |t.stickers| ==> t.stickers[j] == s.stickers[j] || j == s.selected;
    }
  }

  lemma KeyValid(s: Scene, key: string)
    requires Valid(s)
    ensures Valid(KeyDown(s, key))
  {
    if s.selected >= 0 {
      if key == "Delete" || key == "Backspace" {
        DeleteValid(s, key);
      } else if IsEditKey(key) {
        EditValid(s, key);
      }
    }
  }

  lemma DeleteValid(s: Scene, key: string)
    requires Valid(s) && s.selected >= 0 && (key == "Delete" || key == "Backspace")
    ensures Valid(KeyDown(s, key))
  {
    var i := s.selected;
    var rest := s.stickers[..i] + s.stickers[i + 1..];
    forall j | 0 <= j < |rest|
      ensures Sized(rest[j])
    {
      if j < i {
        assert rest[j] == s.stickers[j];
      } else {
        assert rest[j] == s.stickers[j + 1];
      }
    }
    PushHistoryValid(s.(stickers := rest, selected := -1));
  }

  lemma EditValid(s: Scene, key: string)
    requires Valid(s) && s.selected >= 0 && !(key == "Delete" || key == "Backspace") && IsEditKey(key)
    ensures Valid(KeyDown(s, key))
  {
    var i := s.selected;
    var edited := s.stickers[i := KeyEdit(s.stickers[i], key)];
    KeyEditSized(s.stickers[i], key);
    assert forall j :: 0 <= j < |edited| ==> Sized(edited[j]);
    PushHistoryValid(s.(stickers := edited));
  }

  lemma UndoValid(s: Scene)
    requires Valid(s)
    ensures Valid(Undo(s))
  {
    if s.history != [] {
      var n := |s.history|;
      assert Written(s.history[n - 1]);
      assert Written(Serialize(s.stickers));
      var f := s.future + [Serialize(s.stickers)];
      assert forall i :: 0 <= i < |f| ==> Written(f[i]);
    }
  }

  lemma RedoValid(s: Scene)
    requires Valid(s)
    ensures Valid(Redo(s))
  {
    if s.future != [] {
      var n := |s.future|;
      assert Written(s.future[n - 1]);
      assert Written(Serialize(s.stickers));
      var h := s.history + [Serialize(s.stickers)];
      assert forall i :: 0 <= i < |h| ==> Written(h[i]);
    }
  }
}
