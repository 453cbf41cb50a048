# Chessboard tracker: a verified model of the per-frame tracking layer

This project models the temporal tracking layer of `tracker.cc`. The program follows a
chessboard calibration pattern (11 x 8 inner corners) in a video stream that has been
reduced to a 320 x 240 working image. On every frame the tracker does the following:

- It decides where to look. It makes a seeded attempt in a window around the last
  accepted box. Only when that finds nothing, and only on every third frame, it also
  makes a full-image attempt.
- It gates the new box. A box that overlaps the smoothed box with an
  intersection-over-union (IoU) below 0.15 is a suspected outlier. Such a box is
  accepted only after more than 2 grace frames (frames without an accepted detection).
- It blends an accepted box into the smoothed box. The gain is 0.20, 0.40, 0.55 or
  0.70, depending on how far the box centre moved relative to the box size.
- It counts seeded misses and grace frames. After 5 seeded misses with no accepted
  detection or full-image rescue in between, it drops the seed box. After more than
  5 + 6 grace frames it drops the track altogether.
- It reports the smoothed box while at most 6 grace frames have passed, as "stable"
  with no grace frame and as "hold" otherwise.

Layout, one module per part of the source:

- `options.dfy` (`Options`): the optional value used for results.
- `geometry.dfy` (`Geometry`): integer `Rect` and real `Rect2f` boxes, the `&`
  intersection, `Rect(Point, Point)`, and `rectIoU` with its properties.
- `chessboard_search.dfy` (`ChessboardSearch`): `verifyChessboardInROI`. It clips and
  widens the search window, checks the detector's answer, and moves the rectangle and
  the corners into image coordinates. It also holds the two attempt wrappers.
- `smoothing.dfy` (`Smoothing`): the adaptive gain and the field-by-field blend.
- `tracking.dfy` (`Tracking`): the tracker state and `Next`, which specifies one frame
  as a function. The class `Tracker` keeps the source's globals as fields, and its
  `Step` method is proved to follow `Next`. The module also holds the lemmas about
  single frames and about runs of empty frames.

The corner detector is an oracle. A `Sighting` is the detector's answer on the window
it was given: either nothing, or the corners and their bounding rectangle in window
coordinates. `Step` takes one sighting for the seeded window and one for the whole
image. It consults each only when the plan makes that attempt; the lemmas
`RoiSightingIgnoredWithoutSeed` and `FullSightingIgnoredUnlessPlanned` prove this.

Points where the code is easy to misread, and which the model follows as written:

- The comment on `FULL_DETECT_INTERVAL` (tracker.cc:37) reads "Only try full image
  every N frames when lost". In fact a full-image attempt runs on any frame whose
  seeded attempt found nothing (or was not made), provided the frame number is a
  multiple of 3 (tracker.cc:158-160). A tracker that still holds a box gets these
  attempts too.
- When the track is dropped, `hasSmooth` becomes false but `smooth_bbox` keeps its
  stale value (tracker.cc:220-223). The next accepted box replaces it without blending
  (`RelockAfterLossIsFresh`).
- A rejected outlier only adds one grace frame (tracker.cc:214-217). It never triggers
  the full reset that an empty frame can trigger at tracker.cc:220.
- `verifyChessboardInROI` declares a default widening `expandFrac = 0.10f`
  (tracker.cc:41), but both callers override it: the seeded attempt passes 0.30f and
  the full-image attempt passes 0.02f (tracker.cc:89, 78).
- The status "searching" is chosen from the frame number alone (tracker.cc:252). It
  still always coincides with a full-image scan that ran and found nothing. When no
  box is reported, no detection was accepted. A rejected detection leaves the box
  reported, because a rejection needs at most 2 grace frames beforehand
  (tracker.cc:184). So the search found nothing, and on a multiple of 3 the
  full-image attempt ran (`ReportRule`).

The rectangle intersection `&` is OpenCV's `Rect_` operator, which is not part of this
model's sources. It is modelled with OpenCV's semantics:

- An operand with a non-positive side gives `Rect()`.
- Disjoint boxes give `Rect()`.
- Otherwise the result is the overlap, which may have zero width or height for boxes
  that only touch.

The contract of `Geometry.Intersect` characterises this overlap pixel by pixel.

## Model

| member | source | states |
|---|---|---|
| `Geometry.Intersect` | tracker.cc:43-44 | the clipped box has non-negative sides, covers exactly the pixels covered by both boxes, lies inside both when non-empty, and is `Rect()` when either box has a non-positive side |
| `Geometry.IntersectF` | tracker.cc:97 | the float intersection covers exactly the points of both boxes and, when non-empty, is no wider or taller than either |
| `Geometry.FromCorners` | tracker.cc:65 | `Rect(tl, br)` has non-negative sides and is the box from the first to the second corner when they are ordered, and from the second to the first when they are reversed |
| `Geometry.RectIoU` | tracker.cc:96-102 | IoU lies in [0, 1] for all boxes; it is positive exactly when the intersection area is positive, and then IoU times (areaA + areaB - inter) equals inter |
| `Geometry.IntersectionBelowEachArea` | tracker.cc:97-100 | a positive intersection area is at most each box's area, so the union is never below the intersection |
| `Geometry.IoUSymmetric` | tracker.cc:96-102 | IoU(a, b) == IoU(b, a) |
| `Geometry.IoUSelf` | tracker.cc:96-102 | a box with positive sides has IoU 1 with itself |
| `Geometry.IoUDisjoint` | tracker.cc:96-99 | boxes with no common point have IoU 0 |
| `ChessboardSearch.VerifyChessboardInRoi` | tracker.cc:40-69 | the window computed field by field and the corners shifted in place by a loop give exactly `Verified`: no result for a box with a non-positive side, for a box off the image, or for a sighting without 88 corners; otherwise the rectangle and every corner moved by the window's top-left corner |
| `ChessboardSearch.ShiftedInverse` | tracker.cc:66-67 | in exact arithmetic, moving the corners by the window's top-left corner loses nothing: shifting them back gives the detector's corners again |
| `ChessboardSearch.SearchWindowInsideImage` | tracker.cc:42-52 | a window exists iff the box has positive sides and overlaps the image; it then lies inside the image (x, y >= 0, x + w <= cols, y + h <= rows), has positive sides and contains the clipped box |
| `ChessboardSearch.FullImageWindow` | tracker.cc:47-52 | the full image widened by any fraction is the full image again |
| `ChessboardSearch.VerifiedShiftsByWindow` | tracker.cc:64-67 | a found rectangle with non-negative sides is the detector's bounding rectangle moved by the window's top-left corner |
| `ChessboardSearch.FullScanUnshifted` | tracker.cc:73-82 | a full-image attempt with 88 corners reports the detector's bounding rectangle unchanged |
| `ChessboardSearch.ScansHaveNonNegativeSides` | tracker.cc:65 | both attempts report rectangles with non-negative sides |
| `ChessboardSearch.DetectChessboardBBox` | tracker.cc:73-82 | the full-image wrapper returns the found rectangle or `Rect()`, as `FullScan` |
| `ChessboardSearch.DetectChessboardBBoxRoi` | tracker.cc:85-93 | the seeded wrapper makes an attempt only for a box with positive sides and returns its rectangle or `Rect()`, as `RoiScan` |
| `Smoothing.AdaptiveAlphaIsGainForShift` | tracker.cc:198-207 | when the smoothed box's larger side exceeds 1, the square-root-free gain equals the threshold ladder (>0.40: 0.70, >0.25: 0.55, >0.12: 0.40, else 0.20) applied to shiftNorm = centre distance / maxDim |
| `Smoothing.GainLevels` | tracker.cc:202-207 | the gain is one of 0.20, 0.40, 0.55, 0.70, lies in (0, 1), and is 0.20 when the larger side is at most 1 |
| `Smoothing.GainMonotone` | tracker.cc:204-207 | a larger normalised shift never gets a smaller gain |
| `Smoothing.MixBetween` | tracker.cc:209 | with a gain in [0, 1], alpha * det + (1 - alpha) * old lies between old and det |
| `Smoothing.BlendBetween` | tracker.cc:209-212 | each of x, y, width and height of the blended box lies between the old box's and the detection's |
| `Smoothing.GainExamples` | tracker.cc:202-207 | a 100 x 100 box whose centre moves by 45, 30, 15 and 5 gets gains 0.70, 0.55, 0.40 and 0.20 |
| `Tracking.Tracker.constructor` | tracker.cc:19-37 | the fields start as the globals do: no seed, no smoothed box, counters at 0, gain 0.30, and the invariant holds |
| `Tracking.Tracker.Step` | tracker.cc:142-253 | one pass of the frame loop leaves the fields equal to `Next(old state).state`, returns `Next`'s reported box and status, and keeps the invariant |
| `Tracking.Tracker.SearchFrame` | tracker.cc:142-172 | the counter, the attempts, the seeded-miss counting and the seed reset produce exactly `PlanSearch` |
| `Tracking.Tracker.TakeDetection` | tracker.cc:174-224 | the outlier gate, the smoothing and the grace bookkeeping produce exactly `Absorb` |
| `Tracking.PlanSearchSound` | tracker.cc:145-172 | the search finds a rectangle with non-negative sides, keeps the seeded-miss counter below 5, and either keeps or clears the seed |
| `Tracking.AcceptKeepsInv` | tracker.cc:188-213 | accepting a box with positive sides keeps the invariant, including a smoothed box with sides >= 1 and a gain in (0, 1] |
| `Tracking.NextKeepsInv` | tracker.cc:142-224 | every frame keeps the invariant: seeded misses < 5, a seed with non-negative sides, a smoothed box with sides >= 1, no track past 11 grace frames, and a gain in (0, 1] |
| `Tracking.RoiAttemptPlan` | tracker.cc:145-160 | a seeded attempt happens iff the last box has positive area; a full-image attempt happens iff the seeded result has zero area and the new frame number is a multiple of 3 |
| `Tracking.RoiSightingIgnoredWithoutSeed` | tracker.cc:151-155 | without a seed the frame does not depend on the seeded sighting |
| `Tracking.FullSightingIgnoredUnlessPlanned` | tracker.cc:157-166 | a frame with no full-image attempt does not depend on the full-image sighting |
| `Tracking.RoiMissCounting` | tracker.cc:158-171 | a failed seeded attempt with no full-image rescue adds one seeded miss; reaching 5 clears the seed and resets the counter to 0 |
| `Tracking.FirstDetectionAccepted` | tracker.cc:179-195 | with no smoothed box, any detection is accepted and becomes the smoothed box exactly |
| `Tracking.AcceptanceResets` | tracker.cc:188-191 | an accepted detection becomes the seed, and the grace and seeded-miss counters become 0 |
| `Tracking.OutlierGate` | tracker.cc:179-186 | against an existing smoothed box, a detection with IoU < 0.15 is accepted iff missGrace > 2, and one with IoU >= 0.15 is accepted |
| `Tracking.RejectionIsMiss` | tracker.cc:214-217 | a rejected detection adds exactly one grace frame and leaves the seed, the smoothed box, `hasSmooth` and the gain unchanged |
| `Tracking.AcceptedBlend` | tracker.cc:196-212 | an accepted detection against an existing smoothed box is blended with the adaptive gain, and each new field lies between the old value and the detection's |
| `Tracking.MissFrame` | tracker.cc:218-224 | a frame with nothing found adds one grace frame; past 11 the seed and the track are dropped, and otherwise the smoothed box is kept |
| `Tracking.ReportRule` | tracker.cc:228-253 | a box is reported iff hasSmooth and missGrace <= 6; it is the smoothed box; the status is stable iff reported with missGrace 0, hold iff reported with missGrace > 0, and searching iff nothing is reported on a frame whose number is a multiple of 3, which is exactly when nothing is reported and a full-image attempt was made |
| `Tracking.RelockAfterLossIsFresh` | tracker.cc:179-224 | after a full reset, the next detection is accepted as a first one, with no blending with the stale box |
| `Tracking.EmptyFrameIsMiss` | tracker.cc:73-93 | a frame on which the detector finds nothing anywhere detects nothing |
| `Tracking.IdleGrace` | tracker.cc:218-230 | from a live track, n empty frames add n grace frames; the smoothed box survives unchanged exactly while the total stays <= 11, and the seed is gone beyond that |
| `Tracking.IdleLost` | tracker.cc:218-224 | a lost track stays lost over empty frames, with no seed, while the grace count keeps growing |
| `Tracking.StableTrackGraceWindow` | tracker.cc:218-244 | from a stable track, N empty frames give missGrace = N, with the unchanged smoothed box reported iff N <= 6, and the track lost (no smoothed box, no seed) for N > 11 |

## Left out

- Camera capture, the window, drawing, status text, the key loop and the FPS and
  detection-time measurements (tracker.cc:105-140, 226, 241-276) are I/O and display.
  Only the status value is modelled, as `Status`.
- Colour conversion, downscaling and blurring (tracker.cc:134-140) are OpenCV calls. The
  working image enters only through its size, as the `cols` and `rows` parameters,
  which the program always fixes at `PROC_SIZE` = 320 x 240 (tracker.cc:11, 137).
- `findChessboardCornersSB`, its accuracy flags and `boundingRect` (tracker.cc:60-64)
  are the corner detector, which `Sighting` replaces. The `accurate` flag of
  `verifyChessboardInROI` only selects the detector mode, so it is not modelled. The
  corner-count check against 11 x 8 is modelled.
- Float arithmetic is modelled with exact reals: the blend, the centre shift, IoU, the
  corner shift of tracker.cc:67 and the thresholds 0.15, 0.12, 0.25 and 0.40. The cast
  `(int)(w * expandFrac)` is modelled as `w * pct / 100` with pct = 30 or 2. Near a
  threshold, float rounding can decide differently from the model.
- The rescaling of the reported box to camera size with `cvRound` (tracker.cc:231-237),
  and the `bbox.area() > 0` check on the rescaled box (tracker.cc:242), are not modelled.
  A box counts as reported exactly when tracker.cc:230 holds.
- The counters are unbounded natural numbers. The 32-bit `int` overflow of
  `frameCounter` and `missGrace` after about 2^31 frames is not modelled.
- The `gray` image passed to `verifyChessboardInROI` is represented only by its size.
  The shared static `corners` buffer is represented only by the sighting's corners.
- cany.cc, feature.cc and farned.cc are other camera loops around OpenCV contour
  pipelines. They are not part of this model.
