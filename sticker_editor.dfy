/**
 * The sticker editor as the page runs it (Javascripts/stickers.js): one `STATE` object
 * whose fields the handlers update in place. Each method here is proved to leave the
 * object in the state the matching `StickerScene` function describes, so every property
 * proved there holds of the object.
 */
module StickerEditor {
  import opened Geometry
  import opened Options
  import opened StickerScene

  /** `STATE`. */
  class Editor {
    var stickers: seq<Sticker>
    var selected: int
    var dragging: bool
    var rotating: bool
    var grab: Grab
    var history: seq<Snapshot>
    var future: seq<Snapshot>

    ghost function Model(): Scene
      reads this
    {
      Scene(stickers, selected, dragging, rotating, grab, history, future)
    }

    constructor()
      ensures Model() == Initial() && Valid(Model())
    {
      stickers, selected, dragging, rotating := [], -1, false, false;
      grab := Grab(0.0, 0.0, 0.0, 0.0);
      history, future := [], [];
    }

    /** `hitTest`: scan from the topmost sticker down and answer the first index the point
        falls on, or -1. */
    method HitTest(p: Point, trig: Trig) returns (hit: int)
      ensures hit == TopmostHit(stickers, p, trig)
      ensures -1 <= hit < |stickers|
    {
      var i := |stickers| - 1;
      while i >= 0
        invariant -1 <= i < |stickers|
        invariant TopmostBelow(stickers, i + 1, p, trig) == TopmostHit(stickers, p, trig)
      {
        if Hits(stickers[i], p, trig) {
          return i;
        }
        i := i - 1;
      }
      return -1;
    }

    /** `pushHistory`. */
    method PushHistory()
      modifies this
      ensures Model() == StickerScene.PushHistory(old(Model()))
    {
      history := history + [Serialize(stickers)];
      if |history| > HISTORY_LIMIT {
        history := history[1..];
      }
      future := [];
    }

    /** `applySnapshot`. */
    method ApplySnapshot(snap: Snapshot)
      modifies this
      ensures Model() == StickerScene.ApplySnapshot(old(Model()), snap)
    {
      match snap {
        case Encoded(items) => stickers := items;
        case Unreadable => stickers := [];
      }
      selected := -1;
    }

    /** The undo button. */
    method Undo()
      modifies this
      ensures Model() == StickerScene.Undo(old(Model()))
    {
      if |history| == 0 {
        return;
      }
      future := future + [Serialize(stickers)];
      var prev := history[|history| - 1];
      history := history[..|history| - 1];
      ApplySnapshot(prev);
    }

    /** The redo button. */
    method Redo()
      modifies this
      ensures Model() == StickerScene.Redo(old(Model()))
    {
      if |future| == 0 {
        return;
      }
      history := history + [Serialize(stickers)];
      var next := future[|future| - 1];
      future := future[..|future| - 1];
      ApplySnapshot(next);
    }

    /** The clear button. */
    method Clear()
      modifies this
      ensures Model() == StickerScene.Clear(old(Model()))
    {
      stickers := [];
      selected := -1;
      PushHistory();
    }

    /** `addImageSticker`, with `ratio` the loaded image's height over its width. */
    method AddImageSticker(src: string, widthFrac: real, ratio: real)
      modifies this
      ensures Model() == AddImage(old(Model()), src, widthFrac, ratio)
    {
      ghost var s0 := Model();
      var w := LOGICAL_W * widthFrac;
      var h := w * ratio;
      var st := Img(src, w, h, LOGICAL_W / 2.0, LOGICAL_H / 2.0, 1.0, 0.0, true);
      stickers := stickers + [st];
      selected := |stickers| - 1;
      assert st == Img(src, LOGICAL_W * widthFrac, LOGICAL_W * widthFrac * ratio, LOGICAL_W / 2.0, LOGICAL_H / 2.0, 1.0, 0.0, true);
      assert Model() == s0.(stickers := s0.stickers + [st], selected := |s0.stickers|);
      PushHistory();
    }

    /** `addEmojiSticker`. */
    method AddEmojiSticker(glyph: string)
      modifies this
      ensures Model() == AddEmoji(old(Model()), glyph)
    {
      var base := Round(LOGICAL_W * 0.18);
      stickers := stickers + [Emoji(glyph, base, LOGICAL_W / 2.0, LOGICAL_H / 2.0, 1.0, 0.0)];
      selected := |stickers| - 1;
      PushHistory();
    }

    /** The sticker grid's click handler. */
    method TileClick(e: Event)
      requires e.EmojiClick? || e.FaceClick?
      modifies this
      ensures e.EmojiClick? ==> Model() == EmojiTile(old(Model()), e.glyph)
      ensures e.FaceClick? ==> Model() == FaceTile(old(Model()), e.src, e.ratio)
    {
      if e.FaceClick? {
        var face := FindFace(FACE_STICKERS, e.src);
        if face.None? || e.ratio.None? {
          return;
        }
        AddImageSticker(face.value.src, face.value.widthFrac, e.ratio.value);
        return;
      }
      if e.glyph != "" {
        AddEmojiSticker(e.glyph);
      }
    }

    /** `mousedown`. */
    method MouseDown(p: Point, alt: bool, trig: Trig)
      modifies this
      ensures Model() == StickerScene.MouseDown(old(Model()), p, alt, trig)
    {
      var i := HitTest(p, trig);
      if i >= 0 {
        selected := i;
        var st := stickers[i];
        var dx, dy := p.x - st.x, p.y - st.y;
        if alt {
          rotating := true;
          grab := grab.(angleStart := trig.atan2(dy, dx));
          grab := grab.(rotStart := st.rot);
        } else {
          dragging := true;
          grab := grab.(sx := p.x - st.x);
          grab := grab.(sy := p.y - st.y);
        }
      } else {
        selected := -1;
      }
    }

    /** `mousemove`. */
    method MouseMove(p: Point, trig: Trig)
      requires selected < |stickers|
      modifies this
      ensures Model() == StickerScene.MouseMove(old(Model()), p, trig)
    {
      if selected < 0 {
        return;
      }
      var st := stickers[selected];
      if dragging {
        st := st.(x := p.x - grab.sx);
        st := st.(y := p.y - grab.sy);
        stickers := stickers[selected := st];
      } else if rotating {
        var ang := trig.atan2(p.y - st.y, p.x - st.x);
        stickers := stickers[selected := st.(rot := grab.rotStart + (ang - grab.angleStart))];
      }
    }

    /** `mouseup`. */
    method MouseUp()
      modifies this
      ensures Model() == StickerScene.MouseUp(old(Model()))
    {
      if dragging || rotating {
        dragging := false;
        rotating := false;
        PushHistory();
      }
    }

    /** `wheel`. */
    method Wheel(deltaY: real)
      requires selected < |stickers|
      requires selected >= 0 ==> Sized(stickers[selected])
      modifies this
      ensures Model() == StickerScene.Wheel(old(Model()), deltaY)
    {
      if selected < 0 {
        return;
      }
      var st := WheelScaled(stickers[selected], deltaY);
      ghost var s0 := Model();
      stickers := stickers[selected := st];
      assert Model() == s0.(stickers := s0.stickers[s0.selected := st]);
      PushHistory();
    }

    /** The sticker as `wheel` rescales it: its emoji font size or image width times the
        zoom factor, clamped, divided back into a scale. */
    static method WheelScaled(st: Sticker, deltaY: real) returns (scaled: Sticker)
      requires Sized(st)
      ensures scaled == WheelSticker(st, WheelFactor(deltaY))
    {
      var factor := WheelFactor(deltaY);
      if st.Emoji? {
        var size := st.base as real * st.scale;
        assert size == DrawnSize(st);
        var next := Clamp(EMOJI_MIN, EMOJI_MAX, size * factor);
        scaled := Rescaled(st, next / st.base as real);
      } else {
        var drawnW := st.w * st.scale;
        assert drawnW == DrawnSize(st);
        var nextW := Clamp(IMG_MIN_W, IMG_MAX_W, drawnW * factor);
        scaled := Rescaled(st, nextW / st.w);
      }
    }

    /** `keydown`. */
    method KeyDown(key: string)
      requires selected < |stickers|
      modifies this
      ensures Model() == StickerScene.KeyDown(old(Model()), key)
    {
      if selected < 0 {
        return;
      }
      var st := stickers[selected];
      ghost var s0 := Model();
      if key == "Delete" || key == "Backspace" {
        stickers := stickers[..selected] + stickers[selected + 1..];
        selected := -1;
        PushHistory();
      } else if IsArrow(key) {
        if key == "ArrowUp" { st := st.(y := st.y - NUDGE); }
        if key == "ArrowDown" { st := st.(y := st.y + NUDGE); }
        if key == "ArrowLeft" { st := st.(x := st.x - NUDGE); }
        if key == "ArrowRight" { st := st.(x := st.x + NUDGE); }
        assert st == KeyEdit(s0.stickers[s0.selected], key);
        stickers := stickers[selected := st];
        PushHistory();
      } else if key == "=" || key == "+" {
        stickers := stickers[selected := Rescaled(st, st.scale * 1.06)];
        PushHistory();
      } else if key == "-" || key == "_" {
        stickers := stickers[selected := Rescaled(st, st.scale * 0.94)];
        PushHistory();
      } else if key == "[" {
        stickers := stickers[selected := st.(rot := st.rot - PI / 90.0)];
        PushHistory();
      } else if key == "]" {
        stickers := stickers[selected := st.(rot := st.rot + PI / 90.0)];
        PushHistory();
      }
    }

    /** Any user input, dispatched to its handler; the editor stays valid. */
    method Handle(e: Event, trig: Trig)
      requires Valid(Model())
      modifies this
      ensures Model() == Step(old(Model()), e, trig)
      ensures Valid(Model())
    {
      StepValid(Model(), e, trig);
      match e {
        case Down(p, alt) => MouseDown(p, alt, trig);
        case Move(p) => MouseMove(p, trig);
        case Up => MouseUp();
        case Scroll(deltaY) => Wheel(deltaY);
        case Key(key) => KeyDown(key);
        case UndoClick => Undo();
        case RedoClick => Redo();
        case ClearClick => Clear();
        case EmojiClick(_) => TileClick(e);
        case FaceClick(_, _) => TileClick(e);
      }
    }
  }
}
