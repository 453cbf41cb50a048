/**
  The per-frame tracker of tracker.cc: the search plan (a seeded attempt
  around the last accepted box, a periodic full-image attempt), the outlier
  gate, the adaptive smoothing, the miss and grace counters and the reported
  box with its status.

  `Next` states one frame as a function of the tracker state and the
  detector's answers; the class `Tracker` holds the state in fields, as the
  source's static globals do, and its `Step` is proved to follow `Next`.
 */
module Tracking {
  import opened Options
  import opened Geometry
  import opened ChessboardSearch
  import opened Smoothing

  /** After this many seeded misses with no accepted detection or full-image rescue in between, the seed box is dropped. */
  const ROI_MISS_RESET := 5
  /** The smoothed box is still shown for this many frames without an accepted detection. */
  const GRACE_FRAMES := 6
  /** A full-image attempt is allowed on every frame whose number is a multiple of this. */
  const FULL_DETECT_INTERVAL := 3
  /** A detection overlapping the smoothed box less than this is a suspected outlier. */
  const MIN_IOU_ACCEPT := 0.15

  /** The tracker's globals: `last_bbox_small`, `smooth_bbox`, `hasSmooth` and the counters. */
  datatype TrackState = TrackState(
    lastBBoxSmall: Rect,
    smoothBBox: Rect2f,
    hasSmooth: bool,
    missGrace: nat,
    consecutiveRoiMisses: nat,
    frameCounter: nat,
    adaptiveAlpha: real)

  /** The globals' initial values. */
  const INITIAL := TrackState(EMPTY_RECT, EMPTY_RECT2F, false, 0, 0, 0, SMOOTH_ALPHA)

  datatype Status = Stable | Hold | Searching | Lost

  /** The search part of a frame: which attempts ran, what was found, and the seed bookkeeping. */
  datatype Search = Search(
    frameCounter: nat,
    roiTried: bool,
    fullTried: bool,
    found: Rect,
    lastBBoxSmall: Rect,
    misses: nat)

  /** Everything one frame decides. */
  datatype Frame = Frame(
    state: TrackState,
    roiTried: bool,
    fullTried: bool,
    detection: Rect,
    accepted: bool,
    reported: Option<Rect2f>,
    status: Status)

  /** What the seeded attempt gives this frame: its rectangle, or the zero rect when none is made. */
  function RoiAttempt(s: TrackState, cols: int, rows: int, roi: Sighting): Rect
  {
    if Area(s.lastBBoxSmall) > 0 then RoiScan(cols, rows, s.lastBBoxSmall, roi) else EMPTY_RECT
  }

  /**
    The search plan: a seeded attempt when the last box has positive area; a
    full-image attempt only when that gave nothing and the frame number is a
    multiple of FULL_DETECT_INTERVAL; the seeded-miss counter and the seed
    reset.
   */
  function PlanSearch(s: TrackState, cols: int, rows: int, roi: Sighting, full: Sighting): Search
  {
    var fc := s.frameCounter + 1;
    var allowFull := fc % FULL_DETECT_INTERVAL == 0;
    var roiTried := Area(s.lastBBoxSmall) > 0;
    var bbox := RoiAttempt(s, cols, rows, roi);
    if Area(bbox) != 0 then
      Search(fc, roiTried, false, bbox, s.lastBBoxSmall, s.consecutiveRoiMisses)
    else
      var misses := if roiTried then s.consecutiveRoiMisses + 1 else s.consecutiveRoiMisses;
      var candidate := if allowFull then FullScan(cols, rows, full) else EMPTY_RECT;
      var recovered := allowFull && Area(candidate) > 0;
      var found := if recovered then candidate else bbox;
      var misses' := if recovered then 0 else misses;
      if misses' >= ROI_MISS_RESET then Search(fc, roiTried, allowFull, found, EMPTY_RECT, 0)
      else Search(fc, roiTried, allowFull, found, s.lastBBoxSmall, misses')
  }

  /** The outlier gate: a first detection always passes; later ones need IoU >= 0.15 or a miss streak above 2. */
  predicate Accepts(s: TrackState, det: Rect2f)
  {
    !s.hasSmooth || !(RectIoU(det, s.smoothBBox) < MIN_IOU_ACCEPT) || s.missGrace > 2
  }

  /** An accepted detection: it becomes the seed, the counters clear, and the smoothed box takes it in. */
  function Accept(s: TrackState, bbox: Rect): TrackState
  {
    var det := ToRect2f(bbox);
    var s' := s.(lastBBoxSmall := bbox, consecutiveRoiMisses := 0, missGrace := 0);
    if !s.hasSmooth then
      s'.(smoothBBox := det, hasSmooth := true)
    else
      var alpha := AdaptiveAlpha(s.smoothBBox, det);
      s'.(adaptiveAlpha := alpha, smoothBBox := Blend(alpha, det, s.smoothBBox))
  }

  /** A frame with nothing found: one more grace frame, and a full reset once past ROI_MISS_RESET + GRACE_FRAMES. */
  function Miss(s: TrackState): TrackState
  {
    var g := s.missGrace + 1;
    if g > ROI_MISS_RESET + GRACE_FRAMES then
      s.(missGrace := g, lastBBoxSmall := EMPTY_RECT, hasSmooth := false)
    else
      s.(missGrace := g)
  }

  /** The box shown: the smoothed box while it exists and the grace window lasts. */
  function Reported(s: TrackState): Option<Rect2f>
  {
    if s.hasSmooth && s.missGrace <= GRACE_FRAMES then Some(s.smoothBBox) else None
  }

  function StatusOf(s: TrackState): Status
  {
    if Reported(s).Some? then
      (if s.missGrace == 0 then Stable else Hold)
    else if s.frameCounter % FULL_DETECT_INTERVAL == 0 then Searching
    else Lost
  }

  /** The state once the search part of a frame has run. */
  function AfterSearch(s: TrackState, p: Search): TrackState
  {
    s.(frameCounter := p.frameCounter, lastBBoxSmall := p.lastBBoxSmall, consecutiveRoiMisses := p.misses)
  }

  /** The state after the frame's find: accepted, rejected as an outlier (one more grace frame), or a miss. */
  function Absorb(s: TrackState, found: Rect): TrackState
  {
    if Area(found) > 0 then
      (if Accepts(s, ToRect2f(found)) then Accept(s, found) else s.(missGrace := s.missGrace + 1))
    else Miss(s)
  }

  /** One frame of tracking, given the detector's answers on the seeded window and on the whole image. */
  function Next(s: TrackState, cols: int, rows: int, roi: Sighting, full: Sighting): Frame
  {
    var p := PlanSearch(s, cols, rows, roi, full);
    var s1 := AfterSearch(s, p);
    var accepted := Area(p.found) > 0 && Accepts(s1, ToRect2f(p.found));
    var s2 := Absorb(s1, p.found);
    Frame(s2, p.roiTried, p.fullTried, p.found, accepted, Reported(s2), StatusOf(s2))
  }

  /** The tracker's consistency between frames. */
  ghost predicate Inv(s: TrackState)
  {
    && s.consecutiveRoiMisses < ROI_MISS_RESET
    && s.lastBBoxSmall.width >= 0 && s.lastBBoxSmall.height >= 0
    && (s.hasSmooth ==> s.smoothBBox.width >= 1.0 && s.smoothBBox.height >= 1.0)
    && (s.missGrace > ROI_MISS_RESET + GRACE_FRAMES ==> !s.hasSmooth && s.lastBBoxSmall == EMPTY_RECT)
    && 0.0 < s.adaptiveAlpha <= 1.0
  }

  /** The tracker state held in fields, one per global of the source. */
  class Tracker {
    var lastBBoxSmall: Rect
    var smoothBBox: Rect2f
    var hasSmooth: bool
    var missGrace: nat
    var consecutiveRoiMisses: nat
    var frameCounter: nat
    var adaptiveAlpha: real

    function State(): TrackState
      reads this
    {
      TrackState(lastBBoxSmall, smoothBBox, hasSmooth, missGrace, consecutiveRoiMisses,
                 frameCounter, adaptiveAlpha)
    }

    ghost predicate Valid()
      reads this
    {
      Inv(State())
    }

    constructor ()
      ensures Valid() && State() == INITIAL
    {
      lastBBoxSmall := EMPTY_RECT;
      smoothBBox := EMPTY_RECT2F;
      hasSmooth := false;
      missGrace := 0;
      consecutiveRoiMisses := 0;
      frameCounter := 0;
      adaptiveAlpha := SMOOTH_ALPHA;
    }

    /**
      One pass of the frame loop on a `cols` x `rows` working image; `roi`
      and `full` are what the detector would answer on the seeded window and
      on the whole image, and each is consulted only if that attempt runs.
     */
    method Step(cols: int, rows: int, roi: Sighting, full: Sighting)
      returns (reported: Option<Rect2f>, status: Status)
      requires Valid()
      modifies this
      ensures Valid()
      ensures State() == Next(old(State()), cols, rows, roi, full).state
      ensures reported == Next(old(State()), cols, rows, roi, full).reported
      ensures status == Next(old(State()), cols, rows, roi, full).status
    {
      NextKeepsInv(State(), cols, rows, roi, full);
      var bboxSmall := SearchFrame(cols, rows, roi, full);
      TakeDetection(bboxSmall);

      if hasSmooth && missGrace <= GRACE_FRAMES {
        reported := Some(smoothBBox);
        status := if missGrace == 0 then Stable else Hold;
      } else {
        reported := None;
        status := if frameCounter % FULL_DETECT_INTERVAL == 0 then Searching else Lost;
      }
    }

    /** The search part of a frame: the frame counter, the attempts and the seeded-miss bookkeeping. */
    method SearchFrame(cols: int, rows: int, roi: Sighting, full: Sighting) returns (bboxSmall: Rect)
      modifies this
      ensures bboxSmall == PlanSearch(old(State()), cols, rows, roi, full).found
      ensures State() == AfterSearch(old(State()), PlanSearch(old(State()), cols, rows, roi, full))
    {
      frameCounter := frameCounter + 1;
      var allowFull := frameCounter % FULL_DETECT_INTERVAL == 0;
      bboxSmall := EMPTY_RECT;
      var roiTried := false;

      if Area(lastBBoxSmall) > 0 {
        roiTried := true;
        bboxSmall := DetectChessboardBBoxRoi(cols, rows, lastBBoxSmall, roi);
      }

      if Area(bboxSmall) == 0 {
        if roiTried {
          consecutiveRoiMisses := consecutiveRoiMisses + 1;
        }
        if allowFull {
          var fullCandidate := DetectChessboardBBox(cols, rows, full);
          if Area(fullCandidate) > 0 {
            bboxSmall := fullCandidate;
            consecutiveRoiMisses := 0;
          }
        }
        if consecutiveRoiMisses >= ROI_MISS_RESET {
          lastBBoxSmall := EMPTY_RECT;
          consecutiveRoiMisses := 0;
        }
      }
    }

    /** The outlier gate, the smoothing and the miss bookkeeping for what the search found. */
    method TakeDetection(bboxSmall: Rect)
      modifies this
      ensures State() == Absorb(old(State()), bboxSmall)
    {
      if Area(bboxSmall) > 0 {
        var det := ToRect2f(bboxSmall);
        var accept := true;
        if hasSmooth {
          var iou := RectIoU(det, smoothBBox);
          if iou < MIN_IOU_ACCEPT {
            accept := missGrace > 2;
          }
        }
        if accept {
          lastBBoxSmall := bboxSmall;
          consecutiveRoiMisses := 0;
          missGrace := 0;
          if !hasSmooth {
            smoothBBox := det;
            hasSmooth := true;
          } else {
            adaptiveAlpha := AdaptiveAlpha(smoothBBox, det);
            smoothBBox := smoothBBox.(x := Mix(adaptiveAlpha, det.x, smoothBBox.x));
            smoothBBox := smoothBBox.(y := Mix(adaptiveAlpha, det.y, smoothBBox.y));
            smoothBBox := smoothBBox.(width := Mix(adaptiveAlpha, det.width, smoothBBox.width));
            smoothBBox := smoothBBox.(height := Mix(adaptiveAlpha, det.height, smoothBBox.height));
          }
        } else {
          missGrace := missGrace + 1;
        }
      } else {
        missGrace := missGrace + 1;
        if missGrace > ROI_MISS_RESET + GRACE_FRAMES {
          lastBBoxSmall := EMPTY_RECT;
          hasSmooth := false;
        }
      }
    }
  }

  // ---------------------------------------------------------------------
  // Properties of one frame
  // ---------------------------------------------------------------------

  /** The search part finds a rectangle with non-negative sides and keeps the seed bookkeeping in range. */
  lemma PlanSearchSound(s: TrackState, cols: int, rows: int, roi: Sighting, full: Sighting)
    requires Inv(s)
    ensures var p := PlanSearch(s, cols, rows, roi, full);
            p.found.width >= 0 && p.found.height >= 0 &&
            p.lastBBoxSmall.width >= 0 && p.lastBBoxSmall.height >= 0 &&
            p.misses < ROI_MISS_RESET &&
            (p.lastBBoxSmall == s.lastBBoxSmall || p.lastBBoxSmall == EMPTY_RECT)
  {
    ScansHaveNonNegativeSides(cols, rows, s.lastBBoxSmall, roi);
    ScansHaveNonNegativeSides(cols, rows, s.lastBBoxSmall, full);
  }

  /** Accepting a detection with positive sides keeps the tracker consistent. */
  lemma AcceptKeepsInv(s: TrackState, bbox: Rect)
    requires Inv(s)
    requires bbox.width >= 1 && bbox.height >= 1
    ensures Inv(Accept(s, bbox))
  {
    if s.hasSmooth {
      var det := ToRect2f(bbox);
      GainLevels(s.smoothBBox, det);
      BlendBetween(AdaptiveAlpha(s.smoothBBox, det), det, s.smoothBBox);
    }
  }

  /** Every frame keeps the tracker consistent. */
  lemma NextKeepsInv(s: TrackState, cols: int, rows: int, roi: Sighting, full: Sighting)
    requires Inv(s)
    ensures Inv(Next(s, cols, rows, roi, full).state)
  {
    var p := PlanSearch(s, cols, rows, roi, full);
    PlanSearchSound(s, cols, rows, roi, full);
    var s1 := AfterSearch(s, p);
    assert Inv(s1);
    if Area(p.found) > 0 {
      assert p.found.width >= 1 && p.found.height >= 1;
      if Accepts(s1, ToRect2f(p.found)) {
        AcceptKeepsInv(s1, p.found);
      }
    }
  }

  /** A seeded attempt is made exactly when the last accepted box has positive area. */
  lemma RoiAttemptPlan(s: TrackState, cols: int, rows: int, roi: Sighting, full: Sighting)
    ensures Next(s, cols, rows, roi, full).roiTried <==> Area(s.lastBBoxSmall) > 0
    ensures Next(s, cols, rows, roi, full).fullTried <==>
              Area(RoiAttempt(s, cols, rows, roi)) == 0 && (s.frameCounter + 1) % FULL_DETECT_INTERVAL == 0
  {
  }

  /** The seeded answer matters only when a seeded attempt is made. */
  lemma RoiSightingIgnoredWithoutSeed(s: TrackState, cols: int, rows: int, roi1: Sighting, roi2: Sighting, full: Sighting)
    requires Area(s.lastBBoxSmall) <= 0
    ensures Next(s, cols, rows, roi1, full) == Next(s, cols, rows, roi2, full)
  {
  }

  /** The full-image answer matters only when a full-image attempt is made. */
  lemma FullSightingIgnoredUnlessPlanned(s: TrackState, cols: int, rows: int, roi: Sighting, full1: Sighting, full2: Sighting)
    requires !Next(s, cols, rows, roi, full1).fullTried
    ensures Next(s, cols, rows, roi, full1) == Next(s, cols, rows, roi, full2)
  {
  }

  /**
    A seeded attempt that fails, with no full-image rescue, counts one more
    seeded miss; the fifth such miss drops the seed and clears the counter.
   */
  lemma RoiMissCounting(s: TrackState, cols: int, rows: int, roi: Sighting, full: Sighting)
    requires Area(s.lastBBoxSmall) > 0 && Area(RoiScan(cols, rows, s.lastBBoxSmall, roi)) == 0
    requires (s.frameCounter + 1) % FULL_DETECT_INTERVAL == 0 ==> Area(FullScan(cols, rows, full)) <= 0
    ensures var n := Next(s, cols, rows, roi, full).state;
            if s.consecutiveRoiMisses + 1 >= ROI_MISS_RESET
            then n.consecutiveRoiMisses == 0 && n.lastBBoxSmall == EMPTY_RECT
            else n.consecutiveRoiMisses == s.consecutiveRoiMisses + 1
  {
  }

  /** With no smoothed box yet, any detection is accepted and becomes the smoothed box exactly. */
  lemma FirstDetectionAccepted(s: TrackState, cols: int, rows: int, roi: Sighting, full: Sighting)
    requires !s.hasSmooth
    requires Area(Next(s, cols, rows, roi, full).detection) > 0
    ensures var f := Next(s, cols, rows, roi, full);
            f.accepted && f.state.hasSmooth && f.state.smoothBBox == ToRect2f(f.detection)
  {
  }

  /** An accepted detection becomes the seed and clears both miss counters. */
  lemma AcceptanceResets(s: TrackState, cols: int, rows: int, roi: Sighting, full: Sighting)
    requires Next(s, cols, rows, roi, full).accepted
    ensures var f := Next(s, cols, rows, roi, full);
            f.state.lastBBoxSmall == f.detection && f.state.missGrace == 0 &&
            f.state.consecutiveRoiMisses == 0 && f.state.hasSmooth
  {
  }

  /**
    Against an existing smoothed box, a detection overlapping it with IoU
    below 0.15 is accepted exactly when more than 2 grace frames have passed;
    one overlapping it at least that much is accepted.
   */
  lemma OutlierGate(s: TrackState, cols: int, rows: int, roi: Sighting, full: Sighting)
    requires s.hasSmooth
    requires Area(Next(s, cols, rows, roi, full).detection) > 0
    ensures var f := Next(s, cols, rows, roi, full);
            var iou := RectIoU(ToRect2f(f.detection), s.smoothBBox);
            (iou < MIN_IOU_ACCEPT ==> (f.accepted <==> s.missGrace > 2)) &&
            (iou >= MIN_IOU_ACCEPT ==> f.accepted)
  {
  }

  /** A rejected detection is one more grace frame and changes neither box nor the smoothing state. */
  lemma RejectionIsMiss(s: TrackState, cols: int, rows: int, roi: Sighting, full: Sighting)
    requires Area(Next(s, cols, rows, roi, full).detection) > 0
    requires !Next(s, cols, rows, roi, full).accepted
    ensures var n := Next(s, cols, rows, roi, full).state;
            n.missGrace == s.missGrace + 1 && n.lastBBoxSmall == s.lastBBoxSmall &&
            n.smoothBBox == s.smoothBBox && n.hasSmooth == s.hasSmooth &&
            n.adaptiveAlpha == s.adaptiveAlpha
  {
  }

  /** An accepted detection against an existing smoothed box is blended with the adaptive gain. */
  lemma AcceptedBlend(s: TrackState, cols: int, rows: int, roi: Sighting, full: Sighting)
    requires s.hasSmooth && Next(s, cols, rows, roi, full).accepted
    ensures var f := Next(s, cols, rows, roi, full);
            var det := ToRect2f(f.detection);
            f.state.adaptiveAlpha == AdaptiveAlpha(s.smoothBBox, det) &&
            f.state.smoothBBox == Blend(f.state.adaptiveAlpha, det, s.smoothBBox) &&
            MinF(det.x, s.smoothBBox.x) <= f.state.smoothBBox.x <= MaxF(det.x, s.smoothBBox.x) &&
            MinF(det.y, s.smoothBBox.y) <= f.state.smoothBBox.y <= MaxF(det.y, s.smoothBBox.y) &&
            MinF(det.width, s.smoothBBox.width) <= f.state.smoothBBox.width
              <= MaxF(det.width, s.smoothBBox.width) &&
            MinF(det.height, s.smoothBBox.height) <= f.state.smoothBBox.height
              <= MaxF(det.height, s.smoothBBox.height)
  {
    var det := ToRect2f(Next(s, cols, rows, roi, full).detection);
    GainLevels(s.smoothBBox, det);
    BlendBetween(AdaptiveAlpha(s.smoothBBox, det), det, s.smoothBBox);
  }

  /**
    A frame in which nothing is found is one more grace frame; past
    ROI_MISS_RESET + GRACE_FRAMES of them the seed and the smoothed box are
    dropped, and before that the smoothed box is kept as it was.
   */
  lemma MissFrame(s: TrackState, cols: int, rows: int, roi: Sighting, full: Sighting)
    requires Area(Next(s, cols, rows, roi, full).detection) <= 0
    ensures var n := Next(s, cols, rows, roi, full).state;
            n.missGrace == s.missGrace + 1 &&
            (n.missGrace > ROI_MISS_RESET + GRACE_FRAMES ==> !n.hasSmooth && n.lastBBoxSmall == EMPTY_RECT) &&
            (n.missGrace <= ROI_MISS_RESET + GRACE_FRAMES ==>
               n.hasSmooth == s.hasSmooth && n.smoothBBox == s.smoothBBox)
  {
  }

  /**
    A box is reported exactly while a smoothed box exists and at most
    GRACE_FRAMES frames have passed without an accepted detection; it is
    the smoothed box, "stable" with no such frame and "hold" otherwise.
    "Searching" goes by the frame number alone, yet it holds exactly when a
    full-image attempt was made and nothing is reported.
   */
  lemma ReportRule(s: TrackState, cols: int, rows: int, roi: Sighting, full: Sighting)
    ensures var f := Next(s, cols, rows, roi, full);
            (f.reported.Some? <==> f.state.hasSmooth && f.state.missGrace <= GRACE_FRAMES) &&
            (f.reported.Some? ==> f.reported.value == f.state.smoothBBox) &&
            (f.status == Stable <==> f.reported.Some? && f.state.missGrace == 0) &&
            (f.status == Hold <==> f.reported.Some? && f.state.missGrace > 0) &&
            (f.status == Searching <==>
               f.reported.None? && f.state.frameCounter % FULL_DETECT_INTERVAL == 0) &&
            (f.status == Searching <==> f.reported.None? && f.fullTried)
  {
  }

  /** Once the track is lost, the next accepted detection starts afresh, with no blending. */
  lemma RelockAfterLossIsFresh(s: TrackState, cols: int, rows: int, roi: Sighting, full: Sighting)
    requires Inv(s) && s.missGrace > ROI_MISS_RESET + GRACE_FRAMES
    requires Area(Next(s, cols, rows, roi, full).detection) > 0
    ensures var f := Next(s, cols, rows, roi, full);
            f.accepted && f.state.smoothBBox == ToRect2f(f.detection) && f.state.missGrace == 0
  {
    FirstDetectionAccepted(s, cols, rows, roi, full);
  }

  // ---------------------------------------------------------------------
  // Runs of empty frames
  // ---------------------------------------------------------------------

  /** The state after n frames in which the detector finds nothing anywhere. */
  function Idle(s: TrackState, cols: int, rows: int, n: nat): TrackState
    decreases n
  {
    if n == 0 then s else Idle(Next(s, cols, rows, NotFound, NotFound).state, cols, rows, n - 1)
  }

  /** A frame with nothing found by the detector detects nothing. */
  lemma EmptyFrameIsMiss(s: TrackState, cols: int, rows: int)
    ensures Area(Next(s, cols, rows, NotFound, NotFound).detection) <= 0
  {
    assert FullScan(cols, rows, NotFound) == EMPTY_RECT;
    assert RoiScan(cols, rows, s.lastBBoxSmall, NotFound) == EMPTY_RECT;
  }

  /**
    From a track that has a smoothed box and is within
    ROI_MISS_RESET + GRACE_FRAMES grace frames, n empty frames add n grace
    frames; the smoothed box survives, unchanged, exactly while the total
    stays within that bound, and the seed is gone beyond it.
   */
  lemma {:induction false} IdleGrace(s: TrackState, cols: int, rows: int, n: nat)
    requires s.hasSmooth && s.missGrace <= ROI_MISS_RESET + GRACE_FRAMES
    ensures var t := Idle(s, cols, rows, n);
            t.missGrace == s.missGrace + n &&
            (t.hasSmooth <==> s.missGrace + n <= ROI_MISS_RESET + GRACE_FRAMES) &&
            (t.hasSmooth ==> t.smoothBBox == s.smoothBBox) &&
            (!t.hasSmooth ==> t.lastBBoxSmall == EMPTY_RECT)
    decreases n
  {
    if n > 0 {
      var s1 := Next(s, cols, rows, NotFound, NotFound).state;
      EmptyFrameIsMiss(s, cols, rows);
      MissFrame(s, cols, rows, NotFound, NotFound);
      if s1.hasSmooth {
        IdleGrace(s1, cols, rows, n - 1);
      } else {
        IdleLost(s1, cols, rows, n - 1);
      }
    }
  }

  /** Once lost, empty frames keep the track lost and keep counting grace frames. */
  lemma {:induction false} IdleLost(s: TrackState, cols: int, rows: int, n: nat)
    requires !s.hasSmooth && s.missGrace > ROI_MISS_RESET + GRACE_FRAMES && s.lastBBoxSmall == EMPTY_RECT
    ensures var t := Idle(s, cols, rows, n);
            t.missGrace == s.missGrace + n && !t.hasSmooth && t.lastBBoxSmall == EMPTY_RECT
    decreases n
  {
    if n > 0 {
      EmptyFrameIsMiss(s, cols, rows);
      MissFrame(s, cols, rows, NotFound, NotFound);
      IdleLost(Next(s, cols, rows, NotFound, NotFound).state, cols, rows, n - 1);
    }
  }

  /**
    From a stable track, n empty frames give a grace count of n; the
    smoothed box is reported (unchanged) exactly for n <= GRACE_FRAMES, and
    after ROI_MISS_RESET + GRACE_FRAMES + 1 of them the track is lost.
   */
  lemma StableTrackGraceWindow(s: TrackState, cols: int, rows: int, n: nat)
    requires s.hasSmooth && s.missGrace == 0
    ensures var t := Idle(s, cols, rows, n);
            t.missGrace == n &&
            (Reported(t).Some? <==> n <= GRACE_FRAMES) &&
            (Reported(t).Some? ==> Reported(t).value == s.smoothBBox) &&
            (n > ROI_MISS_RESET + GRACE_FRAMES ==> !t.hasSmooth && t.lastBBoxSmall == EMPTY_RECT)
  {
    IdleGrace(s, cols, rows, n);
  }
}
