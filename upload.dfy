/**
 * The upload page (Javascripts/upload.js): two chosen pictures are cropped to the top and
 * the bottom half of the 1176 x 1470 strip and stored for the composition page. Stored
 * halves are named by the picture and the crop they were drawn from; the PNG encoding and
 * the storage itself are not modelled.
 */
module Upload {
  import opened Options

  const WIDTH: real := 1176.0
  const HEIGHT: real := 1470.0

  /** `HALF = HEIGHT / 2`. */
  const HALF: real := 735.0

  /** `WIDTH / HALF`, the aspect of each half. */
  const TARGET_ASPECT: real := WIDTH / HALF

  /** A rectangle in unrounded canvas or image units. */
  datatype Area = Area(x: real, y: real, w: real, h: real) {
    predicate Inside(outer: Area) {
      outer.x <= x && x + w <= outer.x + outer.w && outer.y <= y && y + h <= outer.y + outer.h
    }
  }

  /** A chosen picture, once loaded: which one it is and its natural size in pixels. */
  datatype Picture = Picture(id: nat, width: int, height: int)

  predicate Loaded(pic: Picture) {
    pic.width > 0 && pic.height > 0
  }

  /** What `drawHalf` stores: the half of the canvas showing `crop` of picture `id`. */
  datatype HalfImage = HalfImage(id: nat, crop: Area)

  /** The part of the picture `drawHalf` draws: the largest centred part with the aspect of
      a half, computed without rounding. */
  function HalfCrop(pic: Picture): Area
    requires Loaded(pic)
  {
    var w := pic.width as real;
    var h := pic.height as real;
    if w / h > TARGET_ASPECT then
      var sw := h * TARGET_ASPECT;
      Area((w - sw) / 2.0, 0.0, sw, h)
    else
      var sh := w / TARGET_ASPECT;
      Area(0.0, (h - sh) / 2.0, w, sh)
  }

  /** The half of the canvas `drawHalf` draws into at stage `stage`. */
  function HalfDest(stage: int): Area {
    Area(0.0, if stage == 0 then 0.0 else HALF, WIDTH, HALF)
  }

  /** The crop lies inside the picture, has exactly the aspect of a half, is centred, and
      keeps the full height of a picture wider than a half, the full width otherwise. */
  lemma HalfCropFits(pic: Picture)
    requires Loaded(pic)
    ensures var c := HalfCrop(pic);
      var w := pic.width as real;
      var h := pic.height as real;
      && c.Inside(Area(0.0, 0.0, w, h))
      && c.w > 0.0 && c.h > 0.0
      && c.w == TARGET_ASPECT * c.h
      && c.x == w - (c.x + c.w) && c.y == h - (c.y + c.h)
      && (w / h > TARGET_ASPECT ==> c.h == h && c.y == 0.0)
      && (w / h <= TARGET_ASPECT ==> c.w == w && c.x == 0.0)
  {
    var w := pic.width as real;
    var h := pic.height as real;
    assert (w / h) * h == w;
    if w / h > TARGET_ASPECT {
      assert w > TARGET_ASPECT * h by {
        assert (w / h) * h > TARGET_ASPECT * h;
      }
    } else {
      assert w <= TARGET_ASPECT * h by {
        assert (w / h) * h <= TARGET_ASPECT * h;
      }
      assert w / TARGET_ASPECT <= h by {
        assert w / TARGET_ASPECT <= (TARGET_ASPECT * h) / TARGET_ASPECT;
      }
    }
  }

  /** The first half drawn is the top of the canvas and every later one the bottom; the
      two halves meet and fill the canvas. */
  lemma HalvesTile(stage: int)
    ensures HalfDest(0) == Area(0.0, 0.0, WIDTH, HALF)
    ensures stage != 0 ==> HalfDest(stage) == Area(0.0, HALF, WIDTH, HALF)
    ensures HalfDest(0).y + HalfDest(0).h == HalfDest(1).y
    ensures HalfDest(1).y + HalfDest(1).h == HEIGHT
  {
  }

  /** `photoStage`, the stored `photoTop` and `photoBottom`, and whether the ready button
      is shown and enabled. */
  datatype UploadState = UploadState(stage: int, top: Option<HalfImage>, bottom: Option<HalfImage>, ready: bool)

  /** The page once loaded: both stored halves removed, stage 0; the ready button starts
      hidden in the page's markup. */
  function InitialUpload(): UploadState {
    UploadState(0, None, None, false)
  }

  /** `drawHalf`: the first picture becomes the top half, any later one the bottom half,
      and the ready button appears. */
  function DrawHalf(s: UploadState, pic: Picture): UploadState
    requires Loaded(pic)
  {
    var data := HalfImage(pic.id, HalfCrop(pic));
    if s.stage == 0 then s.(top := Some(data), stage := 1)
    else s.(bottom := Some(data), stage := 2, ready := true)
  }

  /** The file input's change handler: no file chosen changes nothing. */
  function FileChosen(s: UploadState, file: Option<Picture>): UploadState
    requires file.Some? ==> Loaded(file.value)
  {
    if file.None? then s else DrawHalf(s, file.value)
  }

  /** The pictures drawn one after another, in the order chosen. */
  function Uploads(s: UploadState, pics: seq<Picture>): UploadState
    requires forall i :: 0 <= i < |pics| ==> Loaded(pics[i])
    decreases |pics|
  {
    if pics == [] then s else DrawHalf(Uploads(s, pics[..|pics| - 1]), pics[|pics| - 1])
  }

  /** From a freshly loaded page: the first picture is stored as the top half, the latest
      of any later ones as the bottom half, the stage counts pictures up to two, and the
      ready button appears exactly when both halves are stored. */
  lemma {:induction false} UploadsFill(pics: seq<Picture>)
    requires forall i :: 0 <= i < |pics| ==> Loaded(pics[i])
    ensures var s := Uploads(InitialUpload(), pics);
      && s.stage == (if |pics| < 2 then |pics| else 2)
      && s.top == (if |pics| == 0 then None else Some(HalfImage(pics[0].id, HalfCrop(pics[0]))))
      && s.bottom == (if |pics| < 2 then None
                      else Some(HalfImage(pics[|pics| - 1].id, HalfCrop(pics[|pics| - 1]))))
      && (s.ready <==> |pics| >= 2)
    decreases |pics|
  {
    if pics != [] {
      var before := pics[..|pics| - 1];
      UploadsFill(before);
      if |before| > 0 {
        assert before[0] == pics[0];
      }
    }
  }

  /** The page's `photoStage` and what it has stored. */
  class Uploader {
    var stage: int
    var top: Option<HalfImage>
    var bottom: Option<HalfImage>
    var ready: bool

    ghost function Model(): UploadState
      reads this
    {
      UploadState(stage, top, bottom, ready)
    }

    constructor()
      ensures Model() == InitialUpload()
    {
      stage, top, bottom, ready := 0, None, None, false;
    }

    /** `drawHalf`; `crop` and `dest` are the `drawImage` call's source and destination:
        the crop of the picture into the half for the current stage. */
    method Draw(pic: Picture) returns (crop: Area, dest: Area)
      requires Loaded(pic)
      modifies this
      ensures Model() == DrawHalf(old(Model()), pic)
      ensures crop == HalfCrop(pic) && dest == HalfDest(old(stage))
    {
      var yOffset := if stage == 0 then 0.0 else HALF;
      var w := pic.width as real;
      var h := pic.height as real;
      var imgAspect := w / h;
      if imgAspect > TARGET_ASPECT {
        var sw := h * TARGET_ASPECT;
        crop := Area((w - sw) / 2.0, 0.0, sw, h);
      } else {
        var sh := w / TARGET_ASPECT;
        crop := Area(0.0, (h - sh) / 2.0, w, sh);
      }
      dest := Area(0.0, yOffset, WIDTH, HALF);
      var data := HalfImage(pic.id, crop);
      if stage == 0 {
        top := Some(data);
        stage := 1;
      } else {
        bottom := Some(data);
        stage := 2;
        ready := true;
      }
    }

    /** The file input's change handler. */
    method Choose(file: Option<Picture>)
      requires file.Some? ==> Loaded(file.value)
      modifies this
      ensures Model() == FileChosen(old(Model()), file)
    {
      if file.None? {
        return;
      }
      var crop, dest := Draw(file.value);
    }
  }
}
