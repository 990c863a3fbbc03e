/**
 Box geometry and the size filter of the rice inspector (detect.py:78-85).

 The detector reports box corners as floating-point pixel coordinates; the
 loop converts each with Python's `int`, which truncates toward zero, and
 measures the box as the product of its integer width and height.
 */
module Boxes {

  /** Corners as the detector reports them, before conversion. */
  datatype RawBox = RawBox(x1: real, y1: real, x2: real, y2: real)

  /** Corners after `int` conversion. */
  datatype Box = Box(x1: int, y1: int, x2: int, y2: int)

  /** Python's `int` on a float: drop the fractional part, rounding toward zero. */
  function TruncToInt(x: real): (n: int)
    ensures 0.0 <= x ==> 0 <= n && n as real <= x < n as real + 1.0
    ensures x < 0.0 ==> n <= 0 && n as real - 1.0 < x <= n as real
  {
    if x >= 0.0 then x.Floor else -((-x).Floor)
  }

  function PixelBox(raw: RawBox): Box {
    Box(TruncToInt(raw.x1), TruncToInt(raw.y1), TruncToInt(raw.x2), TruncToInt(raw.y2))
  }

  /** Width times height. Neither factor is clamped, so a box given with
      swapped corners on both axes still has a positive area. */
  function Area(b: Box): int {
    (b.x2 - b.x1) * (b.y2 - b.y1)
  }

  /** The keep condition of the size check: neither too small nor too large. */
  predicate AreaAccepted(area: int, minArea: int, maxArea: int) {
    !(area < minArea || area > maxArea)
  }
}
