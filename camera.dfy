/**
 * The capture page (Javascripts/camera.js): the centre crop of the video into a slot, the
 * size of the backing canvas, and the four-shot capture machine. The 3-2-1 countdown is a
 * timer; here a started countdown is a pending count, and its end is an event.
 */
module Camera {
  import opened Geometry
  import opened Options

  const NUM_SLOTS := 4
  const BASE_W := 900
  const BASE_H := 2100

  // ------------------------------------------------------------------ crop

  /** `{sx, sy, sw, sh}`: the part of the video that is drawn. */
  datatype Crop = Crop(sx: int, sy: int, sw: int, sh: int) {
    function AsRect(): Rect { Rect(sx, sy, sw, sh) }
  }

  /** `computeCrop`: the largest centred part of the source with the target's aspect, its
      sides rounded to whole pixels. */
  function ComputeCrop(srcW: int, srcH: int, targetW: int, targetH: int): Crop
    requires srcW > 0 && srcH > 0 && targetW > 0 && targetH > 0
  {
    var srcAspect := srcW as real / srcH as real;
    var targetAspect := targetW as real / targetH as real;
    if srcAspect > targetAspect then WideCrop(srcW, srcH, targetAspect)
    else TallCrop(srcW, srcH, targetAspect)
  }

  /** A source wider than the target: full height, the width cut down and centred. */
  function WideCrop(srcW: int, srcH: int, ta: real): Crop {
    var sw := Round(ta * srcH as real);
    Crop(Round((srcW - sw) as real / 2.0), 0, sw, srcH)
  }

  /** A source no wider than the target: full width, the height cut down and centred. */
  function TallCrop(srcW: int, srcH: int, ta: real): Crop
    requires ta > 0.0
  {
    var sh := Round(srcW as real / ta);
    Crop(0, Round((srcH - sh) as real / 2.0), srcW, sh)
  }

  /** Half a whole number, rounded the way `Math.round` does, is the upper half. */
  lemma RoundHalf(d: int)
    ensures Round(d as real / 2.0) == (d + 1) / 2
  {
    var q := (d + 1) / 2;
    assert d == 2 * q - 1 || d == 2 * q;
    RoundBounds(d as real / 2.0, q);
    RoundBounds(d as real / 2.0, q - 1);
  }

  /** Comparing a quotient with a value is comparing the dividend with the product. */
  lemma QuotientAbove(a: real, b: real, c: real)
    requires b > 0.0 && c >= 0.0
    ensures a / b > c <==> a > c * b
  {
    assert (a / b) * b == a;
    if a / b > c {
      assert (a / b) * b > c * b;
    }
    if a > c * b {
      assert a / b > (c * b) / b;
    }
  }

  /** Centring a length `len` inside `whole`, rounding the offset: the margins differ by
      at most one, and the part stays inside when it is not longer than the whole. */
  lemma CentredOffset(whole: int, len: int)
    requires 0 <= len <= whole
    ensures var off := Round((whole - len) as real / 2.0);
      && 0 <= off && off + len <= whole
      && -1 <= (whole - off - len) - off <= 1
  {
    RoundHalf(whole - len);
  }

  /** The wide case: the crop keeps the full height, lies inside the source, is centred
      across, and its width is the target aspect times the height, rounded. */
  lemma WideCropFits(srcW: int, srcH: int, ta: real)
    requires srcW > 0 && srcH > 0 && ta > 0.0 && srcW as real > ta * srcH as real
    ensures var c := WideCrop(srcW, srcH, ta);
      && c.sy == 0 && c.sh == srcH
      && Rect(0, 0, srcW, srcH).Contains(c.AsRect()) && c.sw >= 0
      && -1 <= (srcW - c.sx - c.sw) - c.sx <= 1
      && ta * c.sh as real - 0.5 < c.sw as real <= ta * c.sh as real + 0.5
  {
    var sw := Round(ta * srcH as real);
    assert ta * srcH as real >= 0.0;
    RoundBounds(ta * srcH as real, srcW);
    RoundBounds(ta * srcH as real, 0);
    CentredOffset(srcW, sw);
  }

  /** A width `w` no wider than `ta` times the height `h` gives a height `w / ta` of at
      most `h`. */
  lemma WidthOverAspect(w: real, h: real, ta: real)
    requires w > 0.0 && h > 0.0 && ta > 0.0 && w <= ta * h
    ensures 0.0 < w / ta <= h
  {
    assert w / ta <= (ta * h) / ta;
  }

  /** The tall case: the crop keeps the full width, lies inside the source, is centred
      down, and its height is the width over the target aspect, rounded. */
  lemma TallCropFits(srcW: int, srcH: int, ta: real)
    requires srcW > 0 && srcH > 0 && ta > 0.0 && srcW as real <= ta * srcH as real
    ensures var c := TallCrop(srcW, srcH, ta);
      && c.sx == 0 && c.sw == srcW
      && Rect(0, 0, srcW, srcH).Contains(c.AsRect()) && c.sh >= 0
      && -1 <= (srcH - c.sy - c.sh) - c.sy <= 1
      && c.sw as real / ta - 0.5 < c.sh as real <= c.sw as real / ta + 0.5
  {
    var sh := Round(srcW as real / ta);
    WidthOverAspect(srcW as real, srcH as real, ta);
    RoundBounds(srcW as real / ta, srcH);
    RoundBounds(srcW as real / ta, 0);
    CentredOffset(srcH, sh);
  }

  /** The crop lies inside the source and is centred on the axis it cuts (the margins
      differ by at most one pixel). When the source is wider than the target it keeps the
      full height and its width is the target aspect times that height, rounded; otherwise
      it keeps the full width and its height is that width over the aspect, rounded. */
  lemma CropFits(srcW: int, srcH: int, targetW: int, targetH: int)
    requires srcW > 0 && srcH > 0 && targetW > 0 && targetH > 0
    ensures var c := ComputeCrop(srcW, srcH, targetW, targetH);
      var ta := targetW as real / targetH as real;
      && Rect(0, 0, srcW, srcH).Contains(c.AsRect())
      && c.sw >= 0 && c.sh >= 0
      && -1 <= (srcW - c.sx - c.sw) - c.sx <= 1
      && -1 <= (srcH - c.sy - c.sh) - c.sy <= 1
      && (srcW as real / srcH as real > ta ==>
            c.sy == 0 && c.sh == srcH && ta * c.sh as real - 0.5 < c.sw as real <= ta * c.sh as real + 0.5)
      && (srcW as real / srcH as real <= ta ==>
            c.sx == 0 && c.sw == srcW && c.sw as real / ta - 0.5 < c.sh as real <= c.sw as real / ta + 0.5)
  {
    var ta := targetW as real / targetH as real;
    QuotientAbove(srcW as real, srcH as real, ta);
    if srcW as real / srcH as real > ta {
      WideCropFits(srcW, srcH, ta);
    } else {
      TallCropFits(srcW, srcH, ta);
    }
  }

  // ------------------------------------------------------------------ canvas size

  /** `resizeCanvasToBooth`: the booth's device-pixel size `rawW` x `rawH` scaled up, when
      needed, to reach 900 x 2100. */
  function BackingSize(rawW: real, rawH: real): Size
    requires rawW > 0.0 && rawH > 0.0
  {
    var scale := MaxR(MaxR(BASE_W as real / rawW, BASE_H as real / rawH), 1.0);
    Size(Round(rawW * scale), Round(rawH * scale))
  }

  /** `SLOT_H = floor(CANVAS_H / 4)`. */
  function SlotHeight(canvasH: int): int {
    canvasH / NUM_SLOTS
  }

  /** Where the shot of stage `k` is drawn. */
  function SlotRect(canvasW: int, slotH: int, k: int): Rect {
    Rect(0, k * slotH, canvasW, slotH)
  }

  /** Scaling a side `raw` by at least `base / raw` and at least 1, then rounding,
      reaches both `base` and the side's own rounding. */
  lemma ScaledSideReaches(raw: real, base: int, scale: real)
    requires raw > 0.0 && base >= 0 && scale >= base as real / raw && scale >= 1.0
    ensures Round(raw * scale) >= base && Round(raw * scale) >= Round(raw)
  {
    var scaled := raw * scale;
    assert raw * (base as real / raw) == base as real;
    assert scaled >= raw * (base as real / raw);
    assert scaled >= raw by {
      assert raw * scale >= raw * 1.0;
    }
    RoundBounds(scaled, base);
    RoundMonotone(raw, scaled);
  }

  /** The backing canvas is at least 900 x 2100, and never smaller than the booth. */
  lemma BackingAtLeastBase(rawW: real, rawH: real)
    requires rawW > 0.0 && rawH > 0.0
    ensures BackingSize(rawW, rawH).w >= BASE_W && BackingSize(rawW, rawH).h >= BASE_H
    ensures BackingSize(rawW, rawH).w >= Round(rawW) && BackingSize(rawW, rawH).h >= Round(rawH)
  {
    var scale := MaxR(MaxR(BASE_W as real / rawW, BASE_H as real / rawH), 1.0);
    ScaledSideReaches(rawW, BASE_W, scale);
    ScaledSideReaches(rawH, BASE_H, scale);
  }

  /** The four slots stack without gaps from the top and lie inside the canvas, leaving at
      most three rows unused at the bottom; a fifth slot would not fit. */
  lemma SlotsInsideCanvas(canvasW: int, canvasH: int)
    requires canvasW >= 0 && canvasH >= BASE_H
    ensures var slotH := SlotHeight(canvasH);
      && (forall k :: 0 <= k < NUM_SLOTS ==> Rect(0, 0, canvasW, canvasH).Contains(SlotRect(canvasW, slotH, k)))
      && (forall k :: 0 <= k < NUM_SLOTS - 1 ==> SlotRect(canvasW, slotH, k).Bottom() == SlotRect(canvasW, slotH, k + 1).y)
      && 0 <= canvasH - SlotRect(canvasW, slotH, NUM_SLOTS - 1).Bottom() <= 3
      && !Rect(0, 0, canvasW, canvasH).Contains(SlotRect(canvasW, slotH, NUM_SLOTS))
  {
  }

  // ------------------------------------------------------------------ capture machine

  /** `photoStage`, the countdowns running, the three buttons' enabled states, the slot the
      live preview covers (`None` once hidden) and the stages whose shots were drawn since
      the canvas was last cleared. */
  datatype BoothState = BoothState(
    stage: int,
    pending: nat,
    captureEnabled: bool,
    retakeEnabled: bool,
    continueEnabled: bool,
    preview: Option<int>,
    shots: seq<int>)

  /** The page as it opens, with the preview in slot 0 and Continue disabled; whether
      Retake starts enabled is up to the page's markup. */
  function InitialBooth(retakeEnabled: bool): BoothState {
    BoothState(0, 0, true, retakeEnabled, false, Some(0), [])
  }

  /** The capture button's handler: ignored once four shots are taken; otherwise disable
      the button and start a countdown. */
  function ClickCapture(s: BoothState): BoothState {
    if s.stage >= NUM_SLOTS then s else s.(captureEnabled := false, pending := s.pending + 1)
  }

  /** `capturePhoto`: draw into the current stage's slot and advance; the preview moves to
      the next slot and the buttons come back, or after the fourth shot the preview hides
      and Continue is enabled. */
  function CapturePhoto(s: BoothState): BoothState {
    var next := s.stage + 1;
    var drawn := s.(stage := next, shots := s.shots + [s.stage]);
    if next < NUM_SLOTS then drawn.(preview := Some(next), captureEnabled := true, retakeEnabled := true)
    else drawn.(preview := None, continueEnabled := true)
  }

  /** `retake`: clear the canvas, back to stage 0 with the preview in slot 0, Capture
      enabled and Continue disabled. Countdowns already running are not cancelled. */
  function Retake(s: BoothState): BoothState {
    s.(stage := 0, preview := Some(0), captureEnabled := true, continueEnabled := false, shots := [])
  }

  /** What can happen on the page: a click on an enabled button, or a countdown ending. */
  datatype BoothEvent = CaptureClick | RetakeClick | CountdownDone

  function BoothStep(s: BoothState, e: BoothEvent): BoothState {
    match e
    case CaptureClick => if s.captureEnabled then ClickCapture(s) else s
    case RetakeClick => if s.retakeEnabled then Retake(s) else s
    case CountdownDone => if s.pending > 0 then CapturePhoto(s.(pending := s.pending - 1)) else s
  }

  function RunBooth(s: BoothState, es: seq<BoothEvent>): BoothState
    decreases |es|
  {
    if es == [] then s else RunBooth(BoothStep(s, es[0]), es[1..])
  }

  /** What every event keeps: the shots drawn are the stages 0, 1, ... in order, one per
      stage reached, and Continue is enabled only after the fourth shot. */
  predicate ShotsInOrder(s: BoothState) {
    && s.stage >= 0
    && |s.shots| == s.stage
    && (forall i :: 0 <= i < |s.shots| ==> s.shots[i] == i)
    && (s.continueEnabled ==> s.stage >= NUM_SLOTS)
  }

  /** Capture advances the stage by one and draws into the slot of the stage it was at;
      Continue becomes enabled exactly when the stage reaches four. */
  lemma CaptureAdvances(s: BoothState)
    requires ShotsInOrder(s)
    ensures var t := CapturePhoto(s);
      && t.stage == s.stage + 1
      && t.shots == s.shots + [s.stage]
      && (t.stage < NUM_SLOTS ==> t.preview == Some(t.stage) && t.captureEnabled && !t.continueEnabled)
      && (t.stage >= NUM_SLOTS ==> t.preview.None? && t.continueEnabled)
      && ShotsInOrder(t)
  {
  }

  lemma BoothStepKeepsOrder(s: BoothState, e: BoothEvent)
    requires ShotsInOrder(s)
    ensures ShotsInOrder(BoothStep(s, e))
  {
    if e.CountdownDone? && s.pending > 0 {
      CaptureAdvances(s.(pending := s.pending - 1));
    }
  }

  /** Over any run of events the shots stay in stage order and Continue stays disabled
      until the fourth shot. */
  lemma {:induction false} RunKeepsOrder(s: BoothState, es: seq<BoothEvent>)
    requires ShotsInOrder(s)
    ensures ShotsInOrder(RunBooth(s, es))
    decreases |es|
  {
    if es != [] {
      BoothStepKeepsOrder(s, es[0]);
      RunKeepsOrder(BoothStep(s, es[0]), es[1..]);
    }
  }

  /** Capture clicks are ignored from stage four on; below it a click disables the button
      and starts one more countdown, changing nothing else. */
  lemma ClickIgnoredWhenFull(s: BoothState)
    ensures s.stage >= NUM_SLOTS ==> ClickCapture(s) == s
    ensures s.stage < NUM_SLOTS ==> ClickCapture(s) == s.(captureEnabled := false, pending := s.pending + 1)
  {
  }

  /** Retake goes back to stage 0 with no shots, Capture enabled and Continue disabled,
      and leaves the countdowns already running. */
  lemma RetakeResets(s: BoothState)
    ensures var t := Retake(s);
      && t.stage == 0 && t.shots == [] && t.preview == Some(0)
      && t.captureEnabled && !t.continueEnabled
      && t.pending == s.pending && t.retakeEnabled == s.retakeEnabled
      && ShotsInOrder(t)
  {
  }

  /** `n` rounds of a click on Capture followed by one on Retake. */
  function ClickRetakeRounds(s: BoothState, n: nat): BoothState
    decreases n
  {
    if n == 0 then s else ClickRetakeRounds(BoothStep(BoothStep(s, CaptureClick), RetakeClick), n - 1)
  }

  /** `n` countdowns ending one after the other. */
  function Countdowns(s: BoothState, n: nat): BoothState
    decreases n
  {
    if n == 0 then s else Countdowns(BoothStep(s, CountdownDone), n - 1)
  }

  /** Each round of Capture then Retake on a freshly reset page leaves one more countdown
      running and the page still reset. */
  lemma {:induction false} RoundsQueueCountdowns(s: BoothState, n: nat)
    requires s.stage == 0 && s.shots == [] && s.captureEnabled && s.retakeEnabled
    ensures var t := ClickRetakeRounds(s, n);
      && t.stage == 0 && t.shots == [] && t.captureEnabled && t.retakeEnabled
      && t.pending == s.pending + n
    decreases n
  {
    if n > 0 {
      RoundsQueueCountdowns(BoothStep(BoothStep(s, CaptureClick), RetakeClick), n - 1);
    }
  }

  /** `n` pending countdowns ending draw `n` shots into the next `n` slots, whatever the
      stage: nothing in `capturePhoto` stops at the fourth. */
  lemma {:induction false} CountdownsDraw(s: BoothState, n: nat)
    requires s.pending >= n
    ensures var t := Countdowns(s, n);
      && t.stage == s.stage + n
      && t.shots == s.shots + seq(n, i => s.stage + i)
    decreases n
  {
    if n > 0 {
      var next := BoothStep(s, CountdownDone);
      assert next.stage == s.stage + 1 && next.shots == s.shots + [s.stage];
      CountdownsDraw(next, n - 1);
      assert s.shots + [s.stage] + seq(n - 1, i => s.stage + 1 + i) == s.shots + seq(n, i => s.stage + i);
    }
  }

  /** One shot, Retake, then five quick rounds of Capture and Retake within a countdown's
      three seconds, then the five countdowns ending. */
  function OverrunTrace(retakeEnabled: bool): BoothState {
    var first := BoothStep(BoothStep(InitialBooth(retakeEnabled), CaptureClick), CountdownDone);
    var reset := BoothStep(first, RetakeClick);
    Countdowns(ClickRetakeRounds(reset, 5), 5)
  }

  /** As written, Retake leaves running countdowns alone and `capturePhoto` has no guard of
      its own, so the trace above reaches stage 5 and draws a fifth shot into slot 4,
      below the last slot. */
  lemma StageOverrun(retakeEnabled: bool)
    ensures OverrunTrace(retakeEnabled).stage == 5
    ensures OverrunTrace(retakeEnabled).shots == [0, 1, 2, 3, 4]
  {
    var first := BoothStep(BoothStep(InitialBooth(retakeEnabled), CaptureClick), CountdownDone);
    assert first.stage == 1 && first.retakeEnabled && first.pending == 0;
    var reset := BoothStep(first, RetakeClick);
    RoundsQueueCountdowns(reset, 5);
    var queued := ClickRetakeRounds(reset, 5);
    CountdownsDraw(queued, 5);
    assert seq(5, i => 0 + i) == [0, 1, 2, 3, 4];
  }

  /** `capturePhoto` with the guard the capture button already has: nothing from stage
      four on. */
  function CapturePhotoGuarded(s: BoothState): BoothState {
    if s.stage >= NUM_SLOTS then s else CapturePhoto(s)
  }

  function BoothStepGuarded(s: BoothState, e: BoothEvent): BoothState {
    match e
    case CountdownDone => if s.pending > 0 then CapturePhotoGuarded(s.(pending := s.pending - 1)) else s
    case _ => BoothStep(s, e)
  }

  function RunGuarded(s: BoothState, es: seq<BoothEvent>): BoothState
    decreases |es|
  {
    if es == [] then s else RunGuarded(BoothStepGuarded(s, es[0]), es[1..])
  }

  /** With the guard, every run keeps the stage within 0..4, so every shot is drawn into
      one of the four slots. */
  lemma {:induction false} GuardedStaysInSlots(s: BoothState, es: seq<BoothEvent>)
    requires ShotsInOrder(s) && s.stage <= NUM_SLOTS
    ensures var t := RunGuarded(s, es);
      && ShotsInOrder(t) && t.stage <= NUM_SLOTS
      && forall i :: 0 <= i < |t.shots| ==> 0 <= t.shots[i] < NUM_SLOTS
    decreases |es|
  {
    if es != [] {
      var next := BoothStepGuarded(s, es[0]);
      if es[0].CountdownDone? && s.pending > 0 && s.stage < NUM_SLOTS {
        CaptureAdvances(s.(pending := s.pending - 1));
      } else {
        BoothStepKeepsOrder(s, es[0]);
      }
      GuardedStaysInSlots(next, es[1..]);
    }
  }

  // ------------------------------------------------------------------ the page

  /** The page's module variables: `CANVAS_W`, `CANVAS_H`, `SLOT_H`, `photoStage`, and the
      state of the buttons and the preview. A countdown's end runs `capturePhoto` with the
      stage guard of `CapturePhotoGuarded`. */
  class Booth {
    var canvasW: int
    var canvasH: int
    var slotH: int
    var stage: int
    var pending: nat
    var captureEnabled: bool
    var retakeEnabled: bool
    var continueEnabled: bool
    var preview: Option<int>
    var shots: seq<int>

    ghost function Model(): BoothState
      reads this
    {
      BoothState(stage, pending, captureEnabled, retakeEnabled, continueEnabled, preview, shots)
    }

    /** The canvas is sized for capture (at least 900 x 2100, four slots of a quarter of
        its height), the stage is one of 0..4 and the shots drawn are the stages before
        it. */
    ghost predicate Valid()
      reads this
    {
      && canvasW >= BASE_W && canvasH >= BASE_H && slotH == SlotHeight(canvasH)
      && ShotsInOrder(Model()) && stage <= NUM_SLOTS
    }

    /** `initCamera` once the camera has started: `resizeCanvasToBooth` for a booth of
        `rawW` x `rawH` device pixels, and the preview in slot 0. */
    constructor(rawW: real, rawH: real, retakeEnabled: bool)
      requires rawW > 0.0 && rawH > 0.0
      ensures Model() == InitialBooth(retakeEnabled) && Valid()
      ensures Size(canvasW, canvasH) == BackingSize(rawW, rawH)
    {
      stage, pending := 0, 0;
      captureEnabled, this.retakeEnabled, continueEnabled := true, retakeEnabled, false;
      preview, shots := Some(0), [];
      new;
      Resize(rawW, rawH);
    }

    /** `resizeCanvasToBooth`: resize the canvas and move the preview to the current
        slot. */
    method Resize(rawW: real, rawH: real)
      requires rawW > 0.0 && rawH > 0.0 && ShotsInOrder(Model()) && stage <= NUM_SLOTS
      modifies this
      ensures Size(canvasW, canvasH) == BackingSize(rawW, rawH) && Valid()
      ensures Model() == old(Model()).(preview := Some(stage))
    {
      var scale := MaxR(MaxR(BASE_W as real / rawW, BASE_H as real / rawH), 1.0);
      canvasW := Round(rawW * scale);
      canvasH := Round(rawH * scale);
      slotH := canvasH / NUM_SLOTS;
      preview := Some(stage);
      BackingAtLeastBase(rawW, rawH);
    }

    /** The capture button's click handler. */
    method CaptureClicked()
      requires Valid()
      modifies this
      ensures Model() == ClickCapture(old(Model())) && Valid()
      ensures canvasW == old(canvasW) && canvasH == old(canvasH)
    {
      if stage >= NUM_SLOTS {
        return;
      }
      captureEnabled := false;
      pending := pending + 1;
    }

    /** A countdown ends and runs `capturePhoto` on a video of `videoW` x `videoH`. From
        stage four on nothing happens; otherwise `drawn` is the `drawImage` call, the
        centre crop of the video into the current stage's slot (mirrored, which is pixel
        work), and both lie inside their images. */
    method CountdownElapsed(videoW: int, videoH: int) returns (drawn: Option<Blit>)
      requires pending > 0 && Valid() && videoW > 0 && videoH > 0
      modifies this
      ensures Valid() && canvasW == old(canvasW) && canvasH == old(canvasH)
      ensures Model() == CapturePhotoGuarded(old(Model()).(pending := old(pending) - 1))
      ensures drawn.Some? <==> old(stage) < NUM_SLOTS
      ensures drawn.Some? ==>
        && drawn.value == Blit(ComputeCrop(videoW, videoH, canvasW, slotH).AsRect(), SlotRect(canvasW, slotH, old(stage)))
        && Rect(0, 0, videoW, videoH).Contains(drawn.value.src)
        && Rect(0, 0, canvasW, canvasH).Contains(drawn.value.dst)
    {
      pending := pending - 1;
      if stage >= NUM_SLOTS {
        return None;
      }
      var shot := SlotShot(videoW, videoH, canvasW, canvasH, stage);
      drawn := Some(shot);
      Advance();
    }

    /** The rest of `capturePhoto` once the shot is drawn: the next stage, with the
        preview and the buttons back, or the preview hidden and Continue enabled after the
        fourth shot. */
    method Advance()
      requires Valid() && stage < NUM_SLOTS
      modifies this
      ensures Model() == CapturePhoto(old(Model())) && Valid()
      ensures canvasW == old(canvasW) && canvasH == old(canvasH)
    {
      ghost var before := Model();
      CaptureAdvances(before);
      shots := shots + [stage];
      stage := stage + 1;
      if stage < NUM_SLOTS {
        preview := Some(stage);
        captureEnabled := true;
        retakeEnabled := true;
      } else {
        preview := None;
        continueEnabled := true;
      }
    }

    /** The `drawImage` call of `capturePhoto` at stage `k`: the crop of the video into
        slot `k`, each inside its image. */
    static method SlotShot(videoW: int, videoH: int, canvasW: int, canvasH: int, k: int) returns (shot: Blit)
      requires videoW > 0 && videoH > 0 && canvasW >= BASE_W && canvasH >= BASE_H && 0 <= k < NUM_SLOTS
      ensures var slotH := SlotHeight(canvasH);
        && shot == Blit(ComputeCrop(videoW, videoH, canvasW, slotH).AsRect(), SlotRect(canvasW, slotH, k))
        && Rect(0, 0, videoW, videoH).Contains(shot.src)
        && Rect(0, 0, canvasW, canvasH).Contains(shot.dst)
    {
      var slotH := canvasH / NUM_SLOTS;
      var yOffset := k * slotH;
      var crop := ComputeCrop(videoW, videoH, canvasW, slotH);
      shot := Blit(Rect(crop.sx, crop.sy, crop.sw, crop.sh), Rect(0, yOffset, canvasW, slotH));
      CropFits(videoW, videoH, canvasW, slotH);
      SlotsInsideCanvas(canvasW, canvasH);
    }

    /** `retake`. */
    method RetakeClicked()
      requires Valid()
      modifies this
      ensures Model() == Retake(old(Model())) && Valid()
      ensures canvasW == old(canvasW) && canvasH == old(canvasH)
    {
      shots := [];
      stage := 0;
      preview := Some(0);
      captureEnabled := true;
      continueEnabled := false;
    }
  }
}
