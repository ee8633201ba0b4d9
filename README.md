# Photobooth layout, sticker and capture logic in Dafny

This project models the logic behind the browser photobooth's pages and proves properties of it:

- the strip layout and frame chrome of the decorate page (`Javascripts/decorate.js`);
- the sticker editor with its undo/redo history (`Javascripts/stickers.js`);
- the drag scene of the composition page (`Javascripts/final.js`);
- the capture machine and centre crop of the camera page (`Javascripts/camera.js`);
- the two-picture upload page (`Javascripts/upload.js`).

Drawing calls are treated as outputs. A `drawImage` becomes a `Blit` (source and destination rectangles), and a fill becomes the rectangle it covers. Pixels are not modelled.

Arithmetic uses exact `int` and `real`. JavaScript's `Math.round(x)` is `Floor(x + 0.5)` (`Geometry.Round`). `Math.floor` on non-negative values is integer division.

Each `Math.random()` call is taken from a supplied stream `nat -> real`, with a cursor counting the calls. `Math.cos`, `Math.sin` and `Math.atan2` are supplied functions (`StickerScene.Trig`).

Modules:

| module | file | what it holds |
|---|---|---|
| `Geometry` | geometry.dfy | `Rect`, `Point`, `Blit`, `Size`, `Round` and its laws |
| `Options` | options.dfy | `Option` |
| `DecorateLayout` | decorate_layout.dfy | `photoRect`, frame rings, the card/band arithmetic of `render`, `placeCol` |
| `Decorations` | decorations.dfy | `inInner`, the retry loops of `placeBows` / `placeSparkles`, the soft-pink scatter |
| `AssetCache` | asset_cache.dfy | the peace-pattern and bow-image caches |
| `StickerScene` | sticker_scene.dfy | `STATE` as a value and every handler as a function, with the lemmas |
| `StickerEditor` | sticker_editor.dfy | `STATE` as an object whose methods are proved to match `StickerScene` |
| `StickerCanvas` | sticker_canvas.dfy | the stickers page's `photoRect` and peace-frame halves |
| `FinalScene` | final_scene.dfy | shared sticker objects, pointer handlers, film sprockets |
| `Camera` | camera.dfy | the centre crop, the backing-canvas size and the four-shot capture machine |
| `Upload` | upload.dfy | the exact half crop and the top/bottom upload machine |

Code that updates state in place is modelled as a class. The sticker `STATE`, the final page's scene and stickers, the two asset caches, the camera booth and the uploader each become one.

- **Classes with a `Model()`.** `StickerEditor.Editor`, `AssetCache.PeacePattern`, `AssetCache.BowCache`, `Camera.Booth` and `Upload.Uploader` each have a ghost `Model()`. Their methods relate the new `Model()` to the old one through a pure function `F`, usually as `Model() == F(old(Model()), ...)`. `Camera.Booth.Resize` is the exception: it states the new `Model()` as the old one with the preview moved. The lemmas about `F` then carry over to the object.
- **The final page's classes.** `FinalScene.Sticker` and `FinalScene.Scene` have no `Model()`. Their stickers are objects shared by reference between the list and the selection, so their contracts state the object fields directly.

Where the documented behaviour and the code differ, the model follows the code:

- **Last source band.** In `render`, the last band starts at `srcH - floor(srcH/4)`. So when `srcH mod 4 != 0`, rows are skipped before it and it runs past the strip. `DecorateLayout.BandsTileIffMultipleOfFour` proves the bands tile exactly when `srcH` is a multiple of 4.
- **Snapshot timing.** Snapshots are taken after each change, so undo straight after a drag leaves the sticker where it is. It takes a second undo to go back (`StickerScene.UndoAfterCommit`).
- **Ring borders.** The soft-pink, peace and yours chrome uses `BORDER = round(CARD_W * 0.10)`, while `photoRect` uses 0.06. Their ring holes are therefore smaller than the photo area (`DecorateLayout.RingHoleWithinPhotoRect`).

## Model

| member | source | states |
|---|---|---|
| Geometry.Round | Javascripts/decorate.js:281 | `Math.round` lands within half a unit of its argument, halves rounding up |
| Geometry.RoundMonotone | Javascripts/decorate.js:281 | rounding never reverses an order |
| DecorateLayout.OuterCardPlacement | Javascripts/decorate.js:280-287 | the outer card is `CARD_W` wide, lies inside the canvas, spans y from 10 to h-10 and is x-centred to within one pixel |
| DecorateLayout.PhotoRectShape | Javascripts/decorate.js:272-300 | for the four card frames the photo area is the outer card inset by `BORDER` on all four sides; any other id gets the uniform margin `round(W*0.035)`; both lie inside the canvas |
| DecorateLayout.DecorateConstants | Javascripts/decorate.js:280-298 | on 950 x 1470: `CARD_W` 523, card x 214, borders 31 and 52, margin 33 |
| DecorateLayout.RingHoleWithinPhotoRect | Javascripts/decorate.js:432-453 | the retro ring's hole equals the photo area; the other rings' holes lie strictly inside it |
| DecorateLayout.WiderBorderNests | Javascripts/decorate.js:432-453 | a larger border fraction gives a hole inside the smaller one's hole |
| DecorateLayout.CardsStack | Javascripts/decorate.js:121-137 | consecutive cards are exactly `GAP` apart, same height and left/right inset, and the last ends `(ph.h - 3 GAP) mod 4` rows above the area's bottom |
| DecorateLayout.BandsTileIffMultipleOfFour | Javascripts/decorate.js:129-139 | bands 0..2 are contiguous; `srcH mod 4` rows are skipped before band 3, which overruns by as many; the bands tile iff `srcH mod 4 == 0` |
| DecorateLayout.DrawCards | Javascripts/decorate.js:136-148 | the card loop issues exactly one blit per card, band `i` into card `i` |
| DecorateLayout.Render | Javascripts/decorate.js:108-269 | nothing before the strip loads; four band-to-card blits for the card frames; one whole-strip blit onto the photo area otherwise |
| DecorateLayout.PlaceCol | Javascripts/decorate.js:379-388 | `placeCol` yields `n` hole tops, each the rounding of the centred start plus `k` steps, so consecutive tops are one step apart before rounding |
| DecorateLayout.ColumnCentred | Javascripts/decorate.js:379-388 | `n` is the largest count whose run fits the span; the run is centred with equal margins; the first and last rounded holes stay inside `[startY, endY]` |
| DecorateLayout.RetroFilmHoles | Javascripts/decorate.js:390-401 | the retro frame's holes are 13% of the card wide and 5% of the height tall. The left column is centred between the outer and inner left edges, and the right column between the inner and outer right edges. Each column's tops are `placeCol`'s rounded, centred run over the ring's hole plus the overhang (`ColStart`, about which `ColumnCentred` holds), one step apart. The right column's tops equal the left column's |
| Decorations.FirstOutsideSpec | Javascripts/decorate.js:493-501 | a found spot is the first attempt not strictly inside `inner`, all earlier attempts being inside; no spot means every attempt was inside |
| Decorations.FirstOutsideIs | Javascripts/decorate.js:493-501 | conversely, the loop's outcome is determined by which attempts land inside |
| Decorations.FoundInBand | Javascripts/decorate.js:493-501 | with random values in [0, 1), a spot the retry loop finds lies in its band |
| Decorations.CandidateInBand | Javascripts/decorate.js:494-495 | with random values in [0, 1), a candidate lies in its band |
| Decorations.DrawnRanges | Javascripts/decorate.js:488-504 | a bow is 4% to 10% of the canvas width wide and tilted within 0.3 rad; a sparkle is 6 to 11 px |
| Decorations.BowStepOutside | Javascripts/decorate.js:487-511 | one `placeBows` iteration places at most one bow, never strictly inside `inner` |
| Decorations.SparkleStepOutside | Javascripts/decorate.js:538-556 | one `placeSparkles` iteration places at most one sparkle, never strictly inside `inner` |
| Decorations.ScatterOutsideInner | Javascripts/decorate.js:486-512 | `count` iterations place at most `count` decorations, none strictly inside `inner` |
| Decorations.BowStepInBand | Javascripts/decorate.js:487-511 | with random values in [0, 1), an iteration's bow lies in its band with a width in range |
| Decorations.SparkleStepInBand | Javascripts/decorate.js:538-556 | with random values in [0, 1), an iteration's sparkle lies in its band |
| Decorations.ScatterInBand | Javascripts/decorate.js:486-512 | every placed decoration lies in its band |
| Decorations.TryPlace | Javascripts/decorate.js:493-502 | the retry loop succeeds exactly as `FirstOutside` says, at its spot, having used two random values per attempt |
| Decorations.PlaceBow | Javascripts/decorate.js:487-511 | one iteration of `placeBows` equals `OneBow`: a width, up to 80 attempts, a tilt only when found |
| Decorations.PlaceSparkle | Javascripts/decorate.js:538-556 | one iteration of `placeSparkles` equals `OneSparkle`: up to 60 attempts, size and rotation only when found |
| Decorations.PlaceBows | Javascripts/decorate.js:486-512 | `placeBows` runs `count` iterations in sequence on the random stream |
| Decorations.PlaceSparkles | Javascripts/decorate.js:537-557 | `placeSparkles` runs `count` iterations in sequence on the random stream |
| Decorations.SoftPinkDecorations | Javascripts/decorate.js:474-561 | nothing without the bow image; otherwise 20+20 bows then 5+5 sparkles in the two bands, at most 50, none inside the ring's hole, each in its band |
| AssetCache.TileSideScales | Javascripts/decorate.js:58-60 | a tile side is at least 32, within half a pixel of 70% of the image side from 46 up, and 32 below |
| AssetCache.PatternLoadReady | Javascripts/decorate.js:85-101 | after any call the pattern is ready: the scaled tile after a fresh successful load, the 32 x 32 fallback after a failed one |
| AssetCache.PatternTileFixedByFirstLoad | Javascripts/decorate.js:85-101 | after a first completed call, later calls never change the tile |
| AssetCache.PatternCachedStays | Javascripts/decorate.js:85-86 | calls on a cached pattern change nothing |
| AssetCache.PeacePattern.constructor | Javascripts/decorate.js:53-55 | the cache starts empty and not ready |
| AssetCache.PeacePattern.Load | Javascripts/decorate.js:85-101 | `loadPeacePattern` requests an image exactly when not cached and updates the cache as `PatternLoad` |
| AssetCache.FirstLoaded | Javascripts/decorate.js:13-26 | the index of the first successful outcome, or none when all failed |
| AssetCache.BowRetriesUntilLoaded | Javascripts/decorate.js:13-26 | a failed load leaves the bow not ready so later calls retry; it ends ready exactly when some outcome succeeded, holding the first success |
| AssetCache.BowCachedStays | Javascripts/decorate.js:13-14 | calls on a loaded bow change nothing |
| AssetCache.BowCache.constructor | Javascripts/decorate.js:10-11 | no bow and not ready at first |
| AssetCache.BowCache.Load | Javascripts/decorate.js:13-26 | `loadBowImage` requests exactly when not cached and updates as `BowLoad` |
| StickerCanvas.PhotoRectMargins | Javascripts/stickers.js:72-78 | the margin is 35 for retro and hearts, 27 otherwise, equal on all sides, inside the canvas |
| StickerCanvas.PeaceHalvesFit | Javascripts/stickers.js:120-132 | the two halves and the gap stack inside the photo area leaving at most one row; the source halves are contiguous and miss `srcH mod 2` rows |
| StickerCanvas.PeaceConstants | Javascripts/stickers.js:120-132 | on the peace frame the area is 896 x 1416 at (27, 27), the gap 50 and each half 683, so the two halves and the gap fill the area's height exactly |
| StickerCanvas.PeaceRingOverlapsPhoto | Javascripts/stickers.js:135-137 | the ring's hole (86, 86, 778, 1298) lies inside the photo area, 59 units in from its left edge, so the ring covers that band of the photo |
| StickerCanvas.StripLayer | Javascripts/stickers.js:357-368 | the fallback strip. For the peace frame it is exactly the two `drawPeaceOnCanvas` halves into the peace photo area, to which `PeaceHalvesFit` and `PeaceConstants` apply. Otherwise it is one whole-strip blit onto `photoRect('retro')` |
| StickerScene.ParseSerialize | Javascripts/stickers.js:292-300 | reading back a written list gives every sticker with all its fields, without its bitmap |
| StickerScene.WrittenRoundTrip | Javascripts/stickers.js:292-300 | a written snapshot read and written again is unchanged |
| StickerScene.InitialValid | Javascripts/stickers.js:208-217 | the initial `STATE` is valid |
| StickerScene.PushHistoryAppends | Javascripts/stickers.js:292-296 | one snapshot of the current list appended, the oldest evicted beyond 60, so at most 60 kept; `future` emptied; nothing else changes |
| StickerScene.PushHistoryValid | Javascripts/stickers.js:292-296 | `pushHistory` keeps the state valid |
| StickerScene.StacksConserved | Javascripts/stickers.js:393-406 | undo and redo keep `history + future` lengths; on an empty stack they change nothing |
| StickerScene.RedoAfterUndo | Javascripts/stickers.js:393-406 | undo then redo restores the list (without bitmaps) and both stacks exactly |
| StickerScene.UndoAfterRedo | Javascripts/stickers.js:393-406 | redo then undo restores the list (without bitmaps) and both stacks exactly |
| StickerScene.UndoAfterCommit | Javascripts/stickers.js:292-308 | an undo straight after a commit installs the current list again and leaves its snapshot on `future` |
| StickerScene.EmojiBaseValue | Javascripts/stickers.js:332 | the emoji base size `round(950 * 0.18)` is 171 |
| StickerScene.FindFace | Javascripts/stickers.js:448-449 | the first catalogue entry with the source, or none when no entry has it |
| StickerScene.AddEmojiAppends | Javascripts/stickers.js:331-338 | adding an emoji appends exactly one sticker at (475, 735), scale 1, rot 0, selects it and commits once |
| StickerScene.FaceWidthsPositive | Javascripts/stickers.js:188-194 | every catalogue width fraction is positive |
| StickerScene.AddImageAppends | Javascripts/stickers.js:319-328 | adding an image appends exactly one sticker `widthFrac * 950` wide with the image's aspect at (475, 735), selects it and commits once |
| StickerScene.TopmostBelow | Javascripts/stickers.js:274-290 | the highest index the point falls on, every higher one missing, or -1 |
| StickerScene.DragFollowsPointer | Javascripts/stickers.js:462-491 | a press and a move drag the grabbed sticker by exactly the pointer's displacement and change nothing else |
| StickerScene.MouseUpCommitsOnce | Javascripts/stickers.js:500-506 | mouseup commits once exactly when a drag or rotation was active, else changes nothing |
| StickerScene.WheelStickerClamps | Javascripts/stickers.js:512-521 | a wheel step changes only the scale, keeps the sticker sized, and sets the drawn size to the clamped product |
| StickerScene.WheelEmojiSize | Javascripts/stickers.js:514-517 | an emoji's font size after a wheel step is `clamp(12, 665, size * factor)` |
| StickerScene.WheelImageSize | Javascripts/stickers.js:518-521 | an image's drawn width after a wheel step is `clamp(24, 902.5, width * factor)` |
| StickerScene.WheelClamps | Javascripts/stickers.js:508-524 | the wheel keeps emoji sizes in [12, 665] and image widths in [24, 902.5], applies the exact factor when in bounds, touches no other sticker and commits |
| StickerScene.KeyEditSized | Javascripts/stickers.js:535-545 | an editing key keeps a sized sticker sized and its kind |
| StickerScene.InertWithoutSelection | Javascripts/stickers.js:527-528 | with nothing selected, keys, the wheel and pointer moves change nothing |
| StickerScene.DeleteRemovesSelected | Javascripts/stickers.js:531-534 | Delete removes exactly the selected sticker, keeps the rest in order, clears the selection and commits |
| StickerScene.ArrowMovesSix | Javascripts/stickers.js:535-540 | an arrow moves the selected sticker exactly 6 units on one axis and changes no other sticker |
| StickerScene.PlusKeyUnclamped | Javascripts/stickers.js:541 | `+` scales by 1.06 with no clamp, so an emoji at 665 grows past the wheel's maximum |
| StickerScene.StepValid | Javascripts/stickers.js:393-545 | every handler keeps the state valid |
| StickerScene.MoveValid | Javascripts/stickers.js:485-498 | mousemove keeps the state valid |
| StickerScene.KeyValid | Javascripts/stickers.js:527-545 | keydown keeps the state valid |
| StickerScene.DeleteValid | Javascripts/stickers.js:531-534 | deletion keeps the state valid |
| StickerScene.EditValid | Javascripts/stickers.js:535-545 | an editing key keeps the state valid |
| StickerScene.UndoValid | Javascripts/stickers.js:393-399 | undo keeps the state valid |
| StickerScene.RedoValid | Javascripts/stickers.js:400-406 | redo keeps the state valid |
| StickerEditor.Editor.constructor | Javascripts/stickers.js:208-217 | `STATE` starts empty, nothing selected, valid |
| StickerEditor.Editor.HitTest | Javascripts/stickers.js:274-290 | the reverse scan returns `TopmostHit`: the topmost sticker under the point, or -1 |
| StickerEditor.Editor.PushHistory | Javascripts/stickers.js:292-296 | the object changes as `PushHistory` |
| StickerEditor.Editor.ApplySnapshot | Javascripts/stickers.js:299-309 | the list becomes the parsed snapshot (empty when unreadable) and the selection is cleared |
| StickerEditor.Editor.Undo | Javascripts/stickers.js:393-399 | the object changes as `Undo` |
| StickerEditor.Editor.Redo | Javascripts/stickers.js:400-406 | the object changes as `Redo` |
| StickerEditor.Editor.Clear | Javascripts/stickers.js:408-413 | the list is emptied, nothing selected, one commit |
| StickerEditor.Editor.AddImageSticker | Javascripts/stickers.js:319-328 | the object changes as `AddImage` |
| StickerEditor.Editor.AddEmojiSticker | Javascripts/stickers.js:331-338 | the object changes as `AddEmoji` |
| StickerEditor.Editor.TileClick | Javascripts/stickers.js:440-459 | face tiles add the catalogue image, emoji tiles their non-empty text, and unknown tiles nothing |
| StickerEditor.Editor.MouseDown | Javascripts/stickers.js:462-483 | the object changes as `MouseDown` |
| StickerEditor.Editor.MouseMove | Javascripts/stickers.js:485-498 | the object changes as `MouseMove` |
| StickerEditor.Editor.MouseUp | Javascripts/stickers.js:500-506 | the object changes as `MouseUp` |
| StickerEditor.Editor.Wheel | Javascripts/stickers.js:508-524 | the object changes as `Wheel` |
| StickerEditor.Editor.WheelScaled | Javascripts/stickers.js:512-521 | the rescaled sticker is `WheelSticker` with the wheel's factor |
| StickerEditor.Editor.KeyDown | Javascripts/stickers.js:527-545 | the object changes as `KeyDown` |
| StickerEditor.Editor.Handle | Javascripts/stickers.js:393-545 | any event changes the object as `Step` and keeps it valid |
| FinalScene.TopmostBox | Javascripts/final.js:169-173 | the highest index whose box holds the point (edges included), every higher one missing, or -1 |
| FinalScene.MoveToEndPermutes | Javascripts/final.js:176 | bringing to front keeps length and multiset, puts the chosen sticker last and keeps the others' order |
| FinalScene.Sticker.constructor | Javascripts/final.js:151-153 | a sticker with the given box, not dragging |
| FinalScene.Scene.constructor | Javascripts/final.js:27-28 | no stickers, nothing selected, zero offset |
| FinalScene.Scene.PointerDown | Javascripts/final.js:169-181 | a hit selects the topmost sticker, starts its drag, records the offset and moves it to the end; a miss changes nothing; no box moves |
| FinalScene.Scene.PointerMove | Javascripts/final.js:182-188 | only a dragging selected sticker moves, to the pointer less the offset; the move never changes whether it is dragging, so later moves keep dragging it |
| FinalScene.Scene.PointerUp | Javascripts/final.js:190 | the selected sticker stops dragging and keeps its box, and the selection is dropped; the list and the drag offset are unchanged |
| FinalScene.Scene.Reset | Javascripts/final.js:201 | the list is emptied |
| FinalScene.Scene.AddSticker | Javascripts/final.js:147-158 | one new sticker appended, 1/2.2 of the image's size, centred on (588, 735); the selection and the drag offset are unchanged, so a drag in progress continues |
| FinalScene.DragMovesByDisplacement | Javascripts/final.js:169-188 | press then move drags the topmost sticker by exactly the pointer's displacement and leaves it on top |
| FinalScene.DragFollowsEveryMove | Javascripts/final.js:169-188 | after a press and two moves, the sticker is still dragging and sits at its box shifted by the pointer's total displacement since the press |
| FinalScene.FilmSprockets | Javascripts/final.js:62-76 | 20 holes a side, 18 x 40 at y = 60 + 68k, all starting above 1410, each inside its 40-wide side bar; one more would start at or below 1410 |
| Camera.CropFits | Javascripts/camera.js:94-112 | the crop lies inside the source, is centred within one pixel on the cut axis, keeps the full height (wider source) or full width, with the other side the target aspect's rounding |
| Camera.WideCropFits | Javascripts/camera.js:98-103 | the wide branch keeps the full height, fits and is centred |
| Camera.TallCropFits | Javascripts/camera.js:104-110 | the tall branch keeps the full width, fits and is centred |
| Camera.BackingAtLeastBase | Javascripts/camera.js:36-43 | the backing canvas is at least 900 x 2100 and never smaller than the booth |
| Camera.SlotsInsideCanvas | Javascripts/camera.js:51-53 | the four quarter-height slots stack from the top inside the canvas, leaving at most 3 rows; a fifth would not fit |
| Camera.CaptureAdvances | Javascripts/camera.js:136-150 | capture moves to the next stage, draws the current stage's slot, and enables Continue exactly at stage 4 |
| Camera.BoothStepKeepsOrder | Javascripts/camera.js:118-151 | every event keeps the shots in stage order and Continue off before the fourth shot |
| Camera.RunKeepsOrder | Javascripts/camera.js:118-151 | the same over any run of events |
| Camera.ClickIgnoredWhenFull | Javascripts/camera.js:225-229 | clicks are ignored from stage 4; below it a click disables Capture and starts one countdown |
| Camera.RetakeResets | Javascripts/camera.js:182-188 | retake returns to stage 0 with Capture on and Continue off, leaving running countdowns |
| Camera.RoundsQueueCountdowns | Javascripts/camera.js:182-188 | each Capture-then-Retake round leaves one more countdown running at stage 0 |
| Camera.CountdownsDraw | Javascripts/camera.js:118-151 | `n` pending countdowns draw `n` shots into the next `n` slots whatever the stage |
| Camera.StageOverrun | Javascripts/camera.js:118-151 | as written, a reachable trace ends at stage 5 with a shot drawn into slot 4 |
| Camera.GuardedStaysInSlots | Javascripts/camera.js:118-151 | with a stage guard in `capturePhoto`, every run keeps the stage in 0..4 and every shot in slots 0..3 |
| Camera.Booth.constructor | Javascripts/camera.js:191-208 | the page starts at stage 0 with the canvas sized as `BackingSize` |
| Camera.Booth.Resize | Javascripts/camera.js:25-59 | the canvas takes `BackingSize`, `SLOT_H` a quarter of it, and the preview the current slot |
| Camera.Booth.CaptureClicked | Javascripts/camera.js:225-229 | the object changes as `ClickCapture` |
| Camera.Booth.CountdownElapsed | Javascripts/camera.js:118-151 | the guarded capture: nothing from stage 4; otherwise the crop blitted into the stage's slot, both inside their images, then the advance |
| Camera.Booth.SlotShot | Javascripts/camera.js:119-134 | the `drawImage` of stage `k`: the crop into slot `k`, inside the video and the canvas |
| Camera.Booth.Advance | Javascripts/camera.js:136-150 | the object changes as `CapturePhoto` and stays valid |
| Camera.Booth.RetakeClicked | Javascripts/camera.js:182-188 | the object changes as `Retake` and stays valid |
| Upload.HalfCropFits | Javascripts/upload.js:23-27 | the crop lies inside the picture, has aspect exactly `WIDTH/HALF`, is exactly centred, and keeps the full height (wider picture) or full width |
| Upload.HalvesTile | Javascripts/upload.js:22 | the first half is the top of the canvas, every later one the bottom; together they fill it |
| Upload.UploadsFill | Javascripts/upload.js:21-45 | after any pictures: the first is `photoTop`, the latest later one `photoBottom`, the stage is the count capped at 2, and ready shows iff there were two |
| Upload.Uploader.constructor | Javascripts/upload.js:3-6 | both stored halves removed, stage 0 |
| Upload.Uploader.Draw | Javascripts/upload.js:21-45 | the object changes as `DrawHalf`; the draw is the half crop into the stage's half |
| Upload.Uploader.Choose | Javascripts/upload.js:49-55 | no file changes nothing; a file is drawn as `DrawHalf` |

## Findings

| source | as written | input that shows it | evidently intended | confidence | as-written member | corrected member |
|---|---|---|---|---|---|---|
| Javascripts/camera.js:118-151 | `retake` does not cancel running countdowns, and `capturePhoto` does not check the stage; only the click handler does | capture, wait, retake, then five rounds of capture and retake within three seconds: the five countdowns take the stage to 5 and draw a fifth shot into slot 4, below the canvas's four slots | no shot is drawn from stage 4 on | not executed | Camera.StageOverrun | Camera.GuardedStaysInSlots |

`Camera.Booth.CountdownElapsed` uses the corrected, guarded capture.

## Left out

- Pixel work is not modelled: fills, strokes, clipping, gradients, shadows, patterns, the `destination-out` ring compositing, `goldSparkle`, `roundRectPath` and the 'yours' text tiling. Only the rectangles and counts they receive are kept.
- Device-pixel-ratio handling (`fitCanvasToDPR`, the ratio in `drawRingOnMain`, `devicePixelRatio` in `resizeCanvasToBooth`) is not modelled. The booth's device-pixel size is a parameter.
- IEEE floating point is not modelled; arithmetic is exact. `JSON.stringify` of non-finite numbers is not modelled either.
- Zero-sized images, videos and booths are left out. `computeCrop` and `drawHalf` divide by the image or video size and produce NaN. `resizeCanvasToBooth` (Javascripts/camera.js:36-43) divides by the booth's size, giving an infinite scale and a NaN canvas size. So `Camera.ComputeCrop`, `Upload.HalfCrop`, `Camera.BackingSize`, the `Camera.Booth` constructor and `Camera.Booth.Resize` require positive sizes.
- Real trigonometry is left out: `Math.cos`, `Math.sin` and `Math.atan2` are supplied functions, and hit-testing is proved over them.
- `Math.random` is a supplied stream; its distribution is not modelled.
- Browser plumbing is not modelled:
  - localStorage;
  - `toDataURL`, `toBlob` and downloads;
  - navigation;
  - `getUserMedia` and stream cleanup;
  - `createImageBitmap` (`captureBaseLayer`);
  - the cache-busting `?v=` query.
- Timers are not modelled. The 3-2-1 countdown is a pending count, and its end is an event.
- Async image loading is reduced to an explicit success or failure outcome. The asynchronous relinking of bitmaps after `applySnapshot` is left out, because its loads finish in an unknown order. The model tracks only whether a sticker carries its bitmap.
- `addImageSticker`'s `alert` on a failed load is left out. A failed load adds nothing.
- The emoji tile's `textContent.trim()` is left out: the tile's text is given already trimmed.
- The camera page's resize listener redraws a PNG snapshot, which is pixel work. Its resize part is `Camera.Booth.Resize`.
- The stickers page's own peace-pattern loader is not modelled. It repeats the decorate page's loader with a 0.9 scale and draws only the pattern fill.
- `svgToDataURL` in final.js is not modelled; it is an encoding wrapper.
- Javascripts/home.js is not part of this model. Neither is the DOM grid and button construction (`buildTemplateGrid`, the sticker tile grid).
- The markup's initial button states are not part of this model. Whether Retake starts enabled is a parameter of `Camera.InitialBooth`, and the ready button starts hidden.
- Camera.Booth.CountdownElapsed: uses the guarded `capturePhoto` of the Findings row rather than the unguarded code. The unguarded behaviour is `Camera.CapturePhoto` with `Camera.StageOverrun`.
