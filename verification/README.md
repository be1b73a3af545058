# Rear-view camera calibration — Dafny model

The rear-view camera tool captures frames, normalizes them to a 640×480
canvas, crops them to a zoom rectangle, and warps the crop so that four
calibration corners land on the canvas corners (keystone correction). In
calibration mode the operator edits the zoom rectangle by dragging with
the right mouse button in one window. The corners are moved by dragging
with the left button in another. Keys reset the calibration, change the
exposure, or quit.

This project models the integer logic of `main.py`:

- `geometry.dfy` (`Geometry`): points and rectangles.
- `pipeline.dfy` (`Pipeline`): the clamp that forces the zoom rectangle
  into the canvas; the length of a Python slice, which gives the size of
  the cut-out crop; the choice between the resized crop and the
  full-frame fallback; and the four destination corners of the warp.
- `calibration.dfy` (`Calibration`): the calibration record, its defaults,
  the masking of the polled key, and the keyboard command as a pure
  function returning the new record and a quit flag.
- `interaction.dfy` (`Interaction`): class `Session`. It holds the state
  the program keeps in module globals: the record, the zoom drag flag and
  anchor, and the gripped corner. Its methods are the two pointer handlers
  and the keyboard poll, and each one states the whole new state.

The hit test follows the code. A click grips a corner when it is less
than 20 pixels from it on both axes, which is a 39×39-pixel box. The loop
keeps overwriting the grip, so the LAST matching corner wins and
overlapping handles favour the higher index (`OverlapFavorsLaterCorner`).
A first-match reading with a 20×20 box is not what the code does.

## Model

| member | source | states |
|---|---|---|
| `Pipeline.ClampRoi` | main.py:99-101 | the clamped rectangle has 0 ≤ x ≤ 630, 0 ≤ y ≤ 470, w, h ≥ 10 and lies inside the 640×480 canvas; it equals its input exactly when the input already lies inside with sides ≥ 10; each in-range component is kept; an out-of-range component saturates: x < 0 → 0, x > 630 → 630 (y: 0, 470), w < 10 → 10, w > 640 − x′ → 640 − x′ (h: 10, 480 − y′) |
| `Pipeline.ClampIdempotent` | main.py:99-101 | clamping a clamped rectangle changes nothing |
| `Pipeline.ClampExamples` | main.py:99-101 | `[-50,-50,5,5]` clamps to `[0,0,10,10]`; the full canvas `[0,0,640,480]` is kept |
| `Pipeline.SliceBound` | main.py:102 | a Python slice bound lands in [0, n]: an in-range bound is kept, one above n becomes n, a negative one counts from the end and is floored at 0 |
| `Pipeline.SliceLen` | main.py:102 | a slice selects at most n elements, and exactly stop − start when 0 ≤ start ≤ stop ≤ n |
| `Pipeline.CropSize` | main.py:102-104 | `zoomed_area.size` is never negative, and it is zero exactly when the row slice or the column slice is empty |
| `Pipeline.CropExact` | main.py:102 | a rectangle inside the canvas is cut out as exactly h rows and w columns, so the crop holds w·h·3 ≥ 300 elements |
| `Pipeline.SelectKeystoneInput` | main.py:102-107 | the warp is always applied to the resized clamped crop: the zero-size fallback to the full frame is unreachable |
| `Calibration.MaskKey` | main.py:131 | the masked key is a byte congruent to the raw key modulo 256, and a key already in 0..255 is kept |
| `Calibration.KeyStep` | main.py:131-141 | quit exactly on `q`; `r` sets the zoom rectangle and the corners to the defaults and keeps the exposure; `+`/`=` raise and `-` lower the exposure by exactly 1 and change nothing else; every other key (and `q`) leaves the record unchanged; the device is never changed; the corner count is kept or reset to the four defaults |
| `Calibration.ResetKeepsDefaults` | main.py:16-21 | the default record (exposure −6, device 1) is a fixed point of reset |
| `Calibration.NoKeyIgnored` | main.py:131-141 | a poll with no key pressed (−1) changes nothing and does not quit |
| `Calibration.ExposureRoundTrip` | main.py:137-141 | raising then lowering the exposure, or lowering then raising it, restores the record |
| `Calibration.ResetForgetsGeometry` | main.py:134-136 | two records with the same exposure and device reset to the same record; resetting twice equals resetting once |
| `Calibration.ResetIsIdentityCalibration` | main.py:16-21 | after a reset the corners are the warp's destination corners, and the whole canvas is the crop |
| `Interaction.DragRect` | main.py:45-47 | the dragged rectangle has sides ≥ 20; its corner is the smaller of anchor and pointer on each axis; it covers both points; each side is tight (reaches the larger coordinate) unless floored at 20 |
| `Interaction.DragRectSymmetric` | main.py:47 | swapping the anchor and the pointer gives the same rectangle |
| `Interaction.DragInsideCanvasKept` | main.py:47 | a drag between canvas points at least 20 apart on each axis writes a rectangle that the clamp keeps |
| `Interaction.Grips` | main.py:55 | a click lands on a corner exactly when it lies strictly within 20 pixels of it on both axes (a 39×39-pixel box) |
| `Interaction.LastHit` | main.py:53-56 | when the click lands on some corner, the result is the largest index of a corner it lands on; when it lands on none, the previous grip is kept |
| `Interaction.OverlapFavorsLaterCorner` | main.py:54-56 | when the click lands on corners i < j, corner i is not gripped and the grip is at least j |
| `Interaction.Session.constructor` | main.py:35-38 | a session starts from the loaded record with no drag, anchor (0,0) and no grip |
| `Interaction.Session.ZoomEvent` | main.py:40-49 | right-down starts a drag anchored at the click; a move while dragging replaces only the zoom rectangle, by `DragRect` from the anchor; right-up ends the drag; any other event, or a move with no drag, changes nothing; the grip is never touched |
| `Interaction.Session.KeystoneEvent` | main.py:51-60 | left-down sets the grip to `LastHit` over the corners and changes nothing else; a move while gripping corner i sets corner i to the pointer and keeps the other three corners, the zoom rectangle, exposure and device; left-up releases the grip; any other event, or a move with no grip, changes nothing; four corners and an in-range grip are preserved |
| `Interaction.Session.KeyPress` | main.py:131-142 | the shared record becomes `KeyStep` of the old record and the masked key, and the quit flag is `KeyStep`'s; four corners and an in-range grip are preserved |

## Left out

- The frame pipeline's floating-point steps are not modelled: the resize to 640×480 (main.py:96), the resize of the crop (main.py:107), the perspective solve and the warp (main.py:110-113). Only the choice of the warp's input and its four destination corners (`Pipeline.WarpCorners`) are modelled.
- Camera capture, the device fallback, the exposure calls to the device, the window-visibility check, the display calls and the overlay drawing (main.py:70-92, 116-128, 139, 142, 145-147) are I/O. The polled key comes in as a parameter of `KeyPress`.
- The render loop itself (main.py:86-142) is left out; its only non-I/O parts are the clamp, the crop choice and the keyboard step, which are modelled.
- `load_config`, `save_config` and the executable-path logic (main.py:9-33) are file and JSON I/O. A session is built from an already-loaded record.
- Argument parsing and the window and callback wiring (main.py:66-84) are UI plumbing.
- Records whose `points` list does not have exactly four entries are not modelled (`Session` requires four). With any other count, the perspective solve at main.py:112 fails on the first frame, before any handler or key can run.
- The record uses integers only. A record loaded with fractional numbers is not modelled.
- The record has value semantics. After a default load, `points` is shared with `DEFAULT_CONFIG` (main.py:28-29), so the corner update at main.py:58 also edits the defaults. This has no visible effect because reset writes fresh literals (main.py:135-136).
- test_basic.py is a camera smoke test with no logic to model.
