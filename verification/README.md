# Rice quality inspector: per-frame statistics

This project models the per-frame analysis of the rice quality inspector in
`detect.py`. For each video frame, the detector returns boxes with class
labels. The inspector then does five things:

- It drops boxes whose integer pixel area lies outside
  `[min_grain_area, max_grain_area]`.
- It tallies each remaining box as whole, broken or foreign matter, by
  keyword search in the label.
- For boxes whose label does not mention foreign matter, it measures a grain
  length: the long side of the minimum-area rectangle of the largest contour
  in the eroded crop.
- It averages those lengths and converts the average to millimetres.
- It reports a quality percentage: whole grains as a share of whole plus
  broken grains.

The model is a pure fold, `Frame.Run`, of a one-box step, `Frame.Step`, over
the frame's detections. An imperative copy of the source loop,
`Pipeline.ProcessFrameLoop`, is proved to compute the same statistics. The
fold is also proved equal to a description that does not use the loop: count
each class over the size-filtered detections, and list their length samples
in order (`Frame.ProcessFrame`).

Image-library work is not modelled. This covers cropping, grey-scale
conversion, Otsu thresholding, erosion, contour finding, contour area and the
minimum-area rectangle. Its outcome is an input instead: each detection
carries a `Geometry.Crop`. That value is either an empty crop, or the list of
contours found in the eroded mask. Each contour is reduced to its enclosed
area and the two sides of its minimum-area rectangle.

Modules:

- `Wrappers`: the `Option` type.
- `Labels`: substring search and the keyword precedence.
- `Boxes`: conversion of corners to integers, and box area.
- `Geometry`: contour selection and long-axis length.
- `Aggregate`: mean length and quality score.
- `Frame`: the detection, configuration and statistics types, the step and
  the fold.
- `FrameTheory`: properties of the fold.
- `Pipeline`: the loop as written in the source, the nested loop over
  results, and the frame report.
- `Scenarios`: worked frames.

A surviving label with none of the keywords bumps no counter
(detect.py:92-97). So only `whole + broken + foreign <= survivors` holds in
general, not equality (`FrameTheory.FrameBounds`,
`FrameTheory.ClassesPartition`).

## Model

| member | source | states |
|---|---|---|
| Labels.ContainsIffOccurs | detect.py:92-100 | The keyword scan used for `key in label` finds the key exactly when some window of the label spells it (both directions) |
| Labels.Classify | detect.py:92-97 | A label is whole iff it contains "sound"; broken iff it lacks "sound" and contains "broken"; foreign iff it lacks both and contains "foreign"; otherwise it is unclassified. So "sound" takes precedence over the other keywords |
| Labels.ForeignClassHasForeignKey | detect.py:96-100 | A label counted as foreign matter also fails the `"foreign" not in label` gate, so it never yields a length |
| Boxes.TruncToInt | detect.py:78 | Converting a coordinate to `int` rounds toward zero: the result is within one unit of the coordinate, on the zero side |
| Frame.Filter | detect.py:78-85 | A detection is kept iff `min_grain_area <= (x2-x1)*(y2-y1) <= max_grain_area`, so both bounds are inclusive; nothing is added |
| FrameTheory.FilterAppend | detect.py:75-85 | Filtering distributes over concatenation, so survivors keep their original relative order |
| Geometry.LargestIndex | detect.py:117-119 | The chosen contour's area is at least that of every contour found, and every earlier contour is strictly smaller, so among equal areas the first is chosen, as with Python's `max` |
| Geometry.LongAxis | detect.py:122-124 | The recorded length is one of the rectangle's sides and at least as long as both |
| Geometry.Measure | detect.py:102-125 | A length exists iff the crop is non-empty and has at least one contour; the length is then the long side of the first contour of maximal area (every earlier contour is strictly smaller) |
| Frame.LengthSample | detect.py:100-125 | A detection yields a length iff its label lacks "foreign", its crop is non-empty and a contour was found |
| Frame.Step | detect.py:78-125 | A rejected box changes nothing. Otherwise each counter rises by 0 or 1, at most one of them rises, and each rise matches the keyword precedence. A length is appended after the existing ones exactly when the box survives and yields a sample, and the appended value is that sample |
| FrameTheory.RunAppend | detect.py:75-76 | Running the loop over two runs of boxes equals running it over the first, then the second |
| Frame.StepSurvivor | detect.py:92-125 | For a surviving box, the step adds its class indicator to the counters and appends its sample, if any |
| Frame.RunCounts | detect.py:68-125 | From any state, the loop adds the per-class counts of the surviving detections and appends their samples in order |
| Frame.ProcessFrame | detect.py:68-125 | A frame's counters, run from zero, are the class counts over the size-filtered detections, and its lengths are their samples in order |
| FrameTheory.ClassesPartition | detect.py:92-97 | The four classes (three counters plus "no keyword") partition any list of detections |
| FrameTheory.ForeignClassWithinForeignLabelled | detect.py:96-100 | The foreign counter never exceeds the number of labels mentioning "foreign" |
| FrameTheory.SamplesSkipForeignLabelled | detect.py:100-125 | Samples plus labels mentioning "foreign" never exceed the number of detections |
| FrameTheory.SamplesOrigin | detect.py:100-125 | Every sample is the measured length of some detection in the list |
| FrameTheory.FrameBounds | detect.py:84-125 | `whole + broken + foreign <= #survivors` and `#lengths <= #survivors - foreign` |
| FrameTheory.SamplesComeFromSurvivors | detect.py:84-125 | Every recorded length comes from a detection that passed the size check and whose label lacks "foreign" |
| FrameTheory.RejectedDetectionIsInvisible | detect.py:84-85 | Inserting a rejected box anywhere in a frame changes neither the counters nor the lengths |
| Pipeline.ProcessResults | detect.py:75-76 | The loop over results, and over each result's boxes, equals one loop over all boxes concatenated in order |
| Pipeline.ProcessFrameLoop | detect.py:68-125 | The loop as written (size check, if/elif keyword chain, foreign gate, crop and contour checks) computes the same statistics as the fold |
| Pipeline.Summarize | detect.py:136-145 | Total is whole + broken and excludes foreign matter. Quality is 0 for an empty total; otherwise it is the floor of `100*whole/total`, lies in [0,100], and is 100 iff broken is 0. The average is 0.0 without samples; otherwise average × pixels_per_mm × count = sum of lengths |
| Pipeline.AnalyzeFrame | detect.py:68-145 | The reported counts are the class counts over the size-filtered detections. The total is whole + broken, and total + foreign <= #survivors. Quality is the floor score of the reported whole and broken counts, lies in [0,100], is 0 for an empty total and is 100 iff broken is 0. The average is 0.0 when no grain was measured, and otherwise the millimetre average of the survivors' samples |
| Pipeline.ForeignMatterLeavesQualityAlone | detect.py:92-100 | Adding a foreign-matter detection anywhere leaves total, quality and average length unchanged, and moves the foreign count by at most one |
| Pipeline.ForeignOnlyDiffers | detect.py:92-125 | Two loop states that differ only in the foreign counter still differ only there, by the same amount, after any run of boxes |
| Aggregate.SumBetween | detect.py:138 | If every length lies in [lo, hi], the sum lies in [n·lo, n·hi] |
| Aggregate.MeanBetweenExtremes | detect.py:138 | The unrounded mean pixel length lies between the shortest and the longest sample |
| Aggregate.AvgLengthMm | detect.py:136-139 | 0.0 with no samples, with no division. Otherwise the result times pixels_per_mm times the sample count equals the sum of the lengths |
| Aggregate.AvgLengthBetweenExtremes | detect.py:136-139 | The millimetre average lies between the shortest and the longest grain, each converted to millimetres |
| Aggregate.Quality | detect.py:142-145 | 0 when whole + broken = 0. Otherwise q·total <= 100·whole < (q+1)·total, q <= 100, and q = 100 iff broken = 0 |
| Scenarios.ExampleFrameStats | detect.py:68-125 | Frame "sound_rice" (area 600), "broken_rice" (area 50), "foreign_object" (area 800), with the default constants: the broken box is dropped, whole = 1, broken = 0, foreign = 1, one length of 28 px |
| Scenarios.EndToEndFrame | detect.py:68-145 | The same frame reports total 1, quality 100 and an average of 7.0 mm |
| Scenarios.QualityOfSevenWholeThreeBroken | detect.py:142-145 | 7 whole and 3 broken grains give quality 70 |
| Scenarios.AverageOfTwoLengths | detect.py:136-139 | Lengths 40 and 44 px at 4 px/mm average 10.5 mm |

## Left out

- Model loading, camera probing and frame acquisition (detect.py:29-62): device and runtime I/O. A frame is given as its list of detections.
- The detector itself, including its confidence threshold: `Frame.Config` keeps the threshold, but the frame loop never reads it.
- Class-id to label-name lookup (detect.py:88-89): each detection carries its label string directly.
- CSV creation and appending, image writing, the confirmation flash and the timestamped file names (detect.py:22-27, 172-181): file I/O and wall-clock time. The same-second file-name collision goes with them.
- Drawing of boxes, labels, the overlay and the dashboard text (detect.py:127-133, 147-166): rendering only. The contamination alert only reads `foreign_obj > 0`.
- Keyboard handling and the quit/save controls (detect.py:168-171): interactive I/O.
- Grey-scale conversion, Otsu threshold, 3×3 erosion, `findContours`, `contourArea`, `minAreaRect` (detect.py:106-123): image-library calls. Their outcome enters as `Geometry.Crop`.
- Whether a crop is empty (detect.py:102-103) depends on how array slicing treats boxes that run off the frame. The model takes emptiness as part of `Geometry.Crop` and does not derive it from the box.
- Aggregate.AvgLengthMm: the source rounds the millimetre average to two decimals (detect.py:139) and uses floating point throughout. The model keeps the exact real average and leaves out the rounding.
- Aggregate.Quality: the source computes `int((whole/total)*100)` in floating point. The model uses the exact integer `(100*whole) div total`. The float product can land one below it for some inputs: 29/100 gives 28 instead of 29.
- Pipeline.Summarize: requires `pixels_per_mm > 0`. The source's constant is 4.0; with 0 it would raise a division error whenever a length was measured.
