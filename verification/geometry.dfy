/**
 Grain separation and length estimation (detect.py:100-125).

 Cropping, binarisation, erosion, contour extraction, contour area and the
 minimum-area rectangle are image-library calls. The model receives their
 outcome per detection: either the crop was empty, or the eroded mask
 yielded a (possibly empty) list of external contours, each reduced to its
 enclosed area and the two sides of its minimum-area rectangle.
 */
module Geometry {
  import opened Wrappers

  datatype Contour = Contour(area: real, rectWidth: real, rectHeight: real)

  /** What cropping a box out of the frame and tracing the eroded mask gives. */
  datatype Crop = EmptyCrop | Mask(contours: seq<Contour>)

  /** Contour `k` encloses at least as much area as every contour in `cs`. */
  predicate IsLargest(cs: seq<Contour>, k: int) {
    0 <= k < |cs| && forall j :: 0 <= j < |cs| ==> cs[j].area <= cs[k].area
  }

  /** Contour `k` is largest and every contour before it is strictly smaller:
      the one a left-to-right scan for the maximum keeps. */
  predicate IsFirstLargest(cs: seq<Contour>, k: int) {
    IsLargest(cs, k) && forall j :: 0 <= j < k ==> cs[j].area < cs[k].area
  }

  /**
   Python's `max(contours, key=contourArea)`: a left-to-right scan that
   replaces the current best only on a strictly larger area, so the first
   of several equally large contours is chosen.
   */
  function LargestIndex(cs: seq<Contour>): (k: nat)
    requires |cs| > 0
    ensures IsFirstLargest(cs, k)
    decreases |cs|
  {
    if |cs| == 1 then 0
    else
      var k := LargestIndex(cs[..|cs| - 1]);
      if cs[|cs| - 1].area > cs[k].area then |cs| - 1 else k
  }

  /** `len` is the longer side of a rectangle with sides `w` and `h`. */
  predicate IsLongSide(len: real, w: real, h: real) {
    w <= len && h <= len && (len == w || len == h)
  }

  /** `max(w_rect, h_rect)`: the long axis, whatever the grain's orientation. */
  function LongAxis(c: Contour): (len: real)
    ensures IsLongSide(len, c.rectWidth, c.rectHeight)
  {
    if c.rectHeight > c.rectWidth then c.rectHeight else c.rectWidth
  }

  /**
   The pixel length measured for one grain: none for an empty crop or a
   mask without contours, otherwise the long side of the rectangle of the
   first contour of largest area.
   */
  function Measure(crop: Crop): (len: Option<real>)
    ensures len.Some? <==> crop.Mask? && |crop.contours| > 0
    ensures len.Some? ==>
              exists k :: IsFirstLargest(crop.contours, k)
                && IsLongSide(len.value, crop.contours[k].rectWidth, crop.contours[k].rectHeight)
  {
    match crop
    case EmptyCrop => None
    case Mask(cs) =>
      if |cs| == 0 then None
      else
        var k := LargestIndex(cs);
        Some(LongAxis(cs[k]))
  }
}
