/**
  The detection attempts of tracker.cc: `verifyChessboardInROI` clips a box to
  the image, widens it into a search window and runs the corner detector on
  that window; `detectChessboardBBox` and `detectChessboardBBoxROI` wrap it
  for a whole-image and a box-seeded attempt.

  The corner detector (`findChessboardCornersSB` followed by `boundingRect`)
  is an oracle: a `Sighting` is what it reports for the window it is given,
  in window-local coordinates.
 */
module ChessboardSearch {
  import opened Options
  import opened Geometry

  /** `PATTERN` has 11 x 8 inner corners; a sighting with another corner count is refused. */
  const PATTERN_AREA := 11 * 8

  /** The widening fractions, in percent, of the full-image and the seeded attempt. */
  const EXPAND_FULL_PCT := 2
  const EXPAND_ROI_PCT := 30

  /** The detector's answer on one window: nothing, or its corners and their bounding rectangle. */
  datatype Sighting = NotFound | Found(corners: seq<Point2f>, bounds: Rect)

  /** A successful attempt: the board's rectangle and corners in image coordinates. */
  datatype Detection = Detection(rect: Rect, corners: seq<Point2f>)

  /** Every corner moved by (dx, dy). */
  function Shifted(corners: seq<Point2f>, dx: int, dy: int): seq<Point2f>
  {
    seq(|corners|, i requires 0 <= i < |corners| =>
      Point2f(corners[i].x + dx as real, corners[i].y + dy as real))
  }

  /**
    The window the detector is run on: the box clipped to the `cols` x `rows`
    image, then widened on every side by `pct` percent of the clipped size
    (at least 2 pixels) and clipped again at the image edges. None when the
    box has a non-positive side or misses the image.
   */
  function SearchWindow(bbox: Rect, cols: int, rows: int, pct: nat): Option<Rect>
  {
    if bbox.width <= 0 || bbox.height <= 0 then None
    else
      var c := Intersect(bbox, Rect(0, 0, cols, rows));
      if c.width <= 0 || c.height <= 0 then None
      else
        var dx := Max(2, c.width * pct / 100);
        var dy := Max(2, c.height * pct / 100);
        var x := Max(0, c.x - dx);
        var y := Max(0, c.y - dy);
        Some(Rect(x, y, Min(cols - x, c.width + 2 * dx), Min(rows - y, c.height + 2 * dy)))
  }

  /** What `verifyChessboardInROI` yields for a box and the detector's answer on its window. */
  function Verified(cols: int, rows: int, bbox: Rect, sighting: Sighting, pct: nat): Option<Detection>
  {
    match SearchWindow(bbox, cols, rows, pct)
    case None => None
    case Some(w) =>
      if sighting.NotFound? || |sighting.corners| != PATTERN_AREA then None
      else
        var b := sighting.bounds;
        Some(Detection(
          FromCorners(b.x + w.x, b.y + w.y, b.x + b.width + w.x, b.y + b.height + w.y),
          Shifted(sighting.corners, w.x, w.y)))
  }

  /**
    `verifyChessboardInROI`: clips and widens the window field by field, asks
    the detector, and moves the rectangle and every corner from window to
    image coordinates.
   */
  method VerifyChessboardInRoi(cols: int, rows: int, bbox: Rect, sighting: Sighting, pct: nat)
    returns (r: Option<Detection>)
    ensures r == Verified(cols, rows, bbox, sighting, pct)
    ensures r.Some? ==> |r.value.corners| == PATTERN_AREA
  {
    if bbox.width <= 0 || bbox.height <= 0 {
      return None;
    }
    var roi := Intersect(bbox, Rect(0, 0, cols, rows));
    if roi.width <= 0 || roi.height <= 0 {
      return None;
    }
    var dx := Max(2, roi.width * pct / 100);
    var dy := Max(2, roi.height * pct / 100);
    roi := roi.(x := Max(0, roi.x - dx));
    roi := roi.(y := Max(0, roi.y - dy));
    roi := roi.(width := Min(cols - roi.x, roi.width + 2 * dx));
    roi := roi.(height := Min(rows - roi.y, roi.height + 2 * dy));
    assert SearchWindow(bbox, cols, rows, pct) == Some(roi);

    if sighting.NotFound? || |sighting.corners| != PATTERN_AREA {
      return None;
    }
    var local := sighting.bounds;
    var chessRect := FromCorners(local.x + roi.x, local.y + roi.y,
                                 local.x + local.width + roi.x, local.y + local.height + roi.y);
    var found := sighting.corners;
    var chessCorners := new Point2f[|found|](i requires 0 <= i < |found| => found[i]);
    for i := 0 to chessCorners.Length
      invariant chessCorners[..i] == Shifted(found[..i], roi.x, roi.y)
      invariant chessCorners[i..] == found[i..]
    {
      chessCorners[i] := Point2f(chessCorners[i].x + roi.x as real, chessCorners[i].y + roi.y as real);
      assert found[..i + 1] == found[..i] + [found[i]];
    }
    assert found[..|found|] == found;
    assert chessCorners[..] == chessCorners[..chessCorners.Length];
    r := Some(Detection(chessRect, chessCorners[..]));
  }

  /** The rectangle a full-image attempt on a `cols` x `rows` image reports, or the zero rect. */
  function FullScan(cols: int, rows: int, sighting: Sighting): Rect
  {
    match Verified(cols, rows, Rect(0, 0, cols, rows), sighting, EXPAND_FULL_PCT)
    case Some(d) => d.rect
    case None => EMPTY_RECT
  }

  /** The rectangle a seeded attempt around `prev` reports, or the zero rect. */
  function RoiScan(cols: int, rows: int, prev: Rect, sighting: Sighting): Rect
  {
    if prev.width > 0 && prev.height > 0 then
      match Verified(cols, rows, prev, sighting, EXPAND_ROI_PCT)
      case Some(d) => d.rect
      case None => EMPTY_RECT
    else EMPTY_RECT
  }

  /** `detectChessboardBBox`: one attempt on the whole working image. */
  method DetectChessboardBBox(cols: int, rows: int, sighting: Sighting) returns (r: Rect)
    ensures r == FullScan(cols, rows, sighting)
  {
    var full := Rect(0, 0, cols, rows);
    var d := VerifyChessboardInRoi(cols, rows, full, sighting, EXPAND_FULL_PCT);
    if d.Some? {
      r := d.value.rect;
    } else {
      r := EMPTY_RECT;
    }
  }

  /** `detectChessboardBBoxROI`: one attempt around the previous box, if it has positive sides. */
  method DetectChessboardBBoxRoi(cols: int, rows: int, prev: Rect, sighting: Sighting) returns (r: Rect)
    ensures r == RoiScan(cols, rows, prev, sighting)
  {
    if prev.width > 0 && prev.height > 0 {
      var d := VerifyChessboardInRoi(cols, rows, prev, sighting, EXPAND_ROI_PCT);
      if d.Some? {
        return d.value.rect;
      }
    }
    return EMPTY_RECT;
  }

  /** Shifting back by (-dx, -dy) restores the corners, so the shift loses nothing. */
  lemma ShiftedInverse(corners: seq<Point2f>, dx: int, dy: int)
    ensures Shifted(Shifted(corners, dx, dy), -dx, -dy) == corners
  {
    var back := Shifted(Shifted(corners, dx, dy), -dx, -dy);
    forall i | 0 <= i < |corners|
      ensures back[i] == corners[i]
    {
    }
  }

  /**
    The window exists exactly when the box has positive sides and overlaps the
    image; it then lies inside the image, has positive sides and contains the
    clipped box.
   */
  lemma SearchWindowInsideImage(bbox: Rect, cols: int, rows: int, pct: nat)
    ensures SearchWindow(bbox, cols, rows, pct).Some? <==>
              !IsEmpty(bbox) && !IsEmpty(Intersect(bbox, Rect(0, 0, cols, rows)))
    ensures SearchWindow(bbox, cols, rows, pct).Some? ==>
              var w := SearchWindow(bbox, cols, rows, pct).value;
              0 <= w.x && 0 <= w.y && w.x + w.width <= cols && w.y + w.height <= rows &&
              w.width > 0 && w.height > 0 &&
              Within(Intersect(bbox, Rect(0, 0, cols, rows)), w)
  {
    var image := Rect(0, 0, cols, rows);
    var c := Intersect(bbox, image);
    if !IsEmpty(bbox) && !IsEmpty(c) {
      assert Within(c, image);
      var dx := Max(2, c.width * pct / 100);
      var dy := Max(2, c.height * pct / 100);
      assert dx >= 2 && dy >= 2;
    }
  }

  /** Widening the whole image by any fraction gives the whole image back. */
  lemma FullImageWindow(cols: int, rows: int, pct: nat)
    requires cols > 0 && rows > 0
    ensures SearchWindow(Rect(0, 0, cols, rows), cols, rows, pct) == Some(Rect(0, 0, cols, rows))
  {
    var image := Rect(0, 0, cols, rows);
    assert Intersect(image, image) == image;
  }

  /** Every detection lies in image coordinates shifted from the window it was found in. */
  lemma VerifiedShiftsByWindow(cols: int, rows: int, bbox: Rect, sighting: Sighting, pct: nat)
    requires Verified(cols, rows, bbox, sighting, pct).Some?
    requires sighting.Found? && sighting.bounds.width >= 0 && sighting.bounds.height >= 0
    ensures var w := SearchWindow(bbox, cols, rows, pct).value;
            var b := sighting.bounds;
            Verified(cols, rows, bbox, sighting, pct).value.rect ==
              Rect(b.x + w.x, b.y + w.y, b.width, b.height)
  {
  }

  /**
    The full-image attempt searches the unwidened working image, so a detector
    sighting of the right corner count comes back in its own coordinates.
   */
  lemma FullScanUnshifted(cols: int, rows: int, sighting: Sighting)
    requires cols > 0 && rows > 0
    requires sighting.Found? && |sighting.corners| == PATTERN_AREA
    requires sighting.bounds.width >= 0 && sighting.bounds.height >= 0
    ensures FullScan(cols, rows, sighting) == sighting.bounds
  {
    var image := Rect(0, 0, cols, rows);
    FullImageWindow(cols, rows, EXPAND_FULL_PCT);
    VerifiedShiftsByWindow(cols, rows, image, sighting, EXPAND_FULL_PCT);
  }

  /** An attempt reports either the zero rect or a rectangle with non-negative sides. */
  lemma ScansHaveNonNegativeSides(cols: int, rows: int, prev: Rect, sighting: Sighting)
    ensures FullScan(cols, rows, sighting).width >= 0 && FullScan(cols, rows, sighting).height >= 0
    ensures RoiScan(cols, rows, prev, sighting).width >= 0 && RoiScan(cols, rows, prev, sighting).height >= 0
  {
  }
}
