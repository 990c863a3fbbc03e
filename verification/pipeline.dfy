/**
 The whole per-frame analysis of detect.py:68-145: the loop over detector
 results and their boxes, then the frame summary shown on the dashboard
 and written to a report row.
 */
module Pipeline {
  import opened Wrappers
  import opened Labels
  import opened Geometry
  import opened Aggregate
  import opened Frame
  import opened FrameTheory

  /** All boxes of all detector results, in iteration order. */
  function Flatten(results: seq<seq<Detection>>): seq<Detection> {
    if |results| == 0 then [] else results[0] + Flatten(results[1..])
  }

  /** The nested loop of detect.py:75-76: results in order, the boxes of each
      result in order, all feeding one set of counters. */
  function ProcessResults(st: FrameStats, results: seq<seq<Detection>>, cfg: Config): (r: FrameStats)
    ensures r == Run(st, Flatten(results), cfg)
    decreases |results|
  {
    if |results| == 0 then st
    else
      var next := Run(st, results[0], cfg);
      RunAppend(st, results[0], Flatten(results[1..]), cfg);
      ProcessResults(next, results[1..], cfg)
  }

  /**
   The inner loop written as the source writes it: a size check, the
   keyword chain on the label, and the length measurement for labels that
   do not mention foreign matter. It computes the same statistics as the
   fold.
   */
  method ProcessFrameLoop(ds: seq<Detection>, cfg: Config) returns (st: FrameStats)
    ensures st == ProcessFrame(ds, cfg)
  {
    var whole, broken, foreign: nat := 0, 0, 0;
    var lengths: seq<real> := [];
    var i := 0;
    while i < |ds|
      invariant 0 <= i <= |ds|
      invariant FrameStats(whole, broken, foreign, lengths) == ProcessFrame(ds[..i], cfg)
    {
      RunAppend(Initial, ds[..i], [ds[i]], cfg);
      assert ds[..i + 1] == ds[..i] + [ds[i]];
      var d := ds[i];
      var area := BoxArea(d);
      if !(area < cfg.minGrainArea || area > cfg.maxGrainArea) {
        if Contains(d.labelName, SoundKey) {
          whole := whole + 1;
        } else if Contains(d.labelName, BrokenKey) {
          broken := broken + 1;
        } else if Contains(d.labelName, ForeignKey) {
          foreign := foreign + 1;
        }
        if !Contains(d.labelName, ForeignKey) {
          match d.crop {
            case EmptyCrop =>
            case Mask(contours) =>
              if |contours| > 0 {
                var k := LargestIndex(contours);
                lengths := lengths + [LongAxis(contours[k])];
              }
          }
        }
      }
      i := i + 1;
    }
    assert ds[..|ds|] == ds;
    st := FrameStats(whole, broken, foreign, lengths);
  }

  /** The numbers shown on the dashboard and written to a report row. */
  datatype FrameReport = FrameReport(
    total: nat, whole: nat, broken: nat, foreign: nat, avgLengthMm: real, quality: nat)

  /**
   The summary of detect.py:136-145. Foreign matter is reported separately
   and is neither part of the total nor of the quality ratio.
   */
  function Summarize(st: FrameStats, cfg: Config): (rep: FrameReport)
    requires cfg.pixelsPerMm > 0.0
    ensures rep.whole == st.whole && rep.broken == st.broken && rep.foreign == st.foreign
    ensures rep.total == rep.whole + rep.broken
    ensures rep.quality <= 100
    ensures rep.total == 0 ==> rep.quality == 0
    ensures rep.total > 0 ==>
              rep.quality * rep.total <= 100 * rep.whole < (rep.quality + 1) * rep.total
    ensures rep.total > 0 ==> (rep.quality == 100 <==> rep.broken == 0)
    ensures |st.lengthsPx| == 0 ==> rep.avgLengthMm == 0.0
    ensures |st.lengthsPx| > 0 ==>
              rep.avgLengthMm * cfg.pixelsPerMm * |st.lengthsPx| as real == Sum(st.lengthsPx)
  {
    FrameReport(
      st.whole + st.broken, st.whole, st.broken, st.foreign,
      AvgLengthMm(st.lengthsPx, cfg.pixelsPerMm),
      Quality(st.whole, st.broken))
  }

  /** The complete analysis of one frame's detections. */
  function AnalyzeFrame(ds: seq<Detection>, cfg: Config): (rep: FrameReport)
    requires cfg.pixelsPerMm > 0.0
    ensures rep.whole == CountClass(Filter(ds, cfg), Whole)
    ensures rep.broken == CountClass(Filter(ds, cfg), Broken)
    ensures rep.foreign == CountClass(Filter(ds, cfg), Foreign)
    ensures rep.total == rep.whole + rep.broken
    ensures rep.total + rep.foreign <= |Filter(ds, cfg)|
    ensures rep.quality == Quality(rep.whole, rep.broken)
    ensures rep.quality <= 100
    ensures rep.total == 0 ==> rep.quality == 0
    ensures rep.total > 0 ==> (rep.quality == 100 <==> rep.broken == 0)
    ensures |Samples(Filter(ds, cfg))| == 0 ==> rep.avgLengthMm == 0.0
    ensures rep.avgLengthMm == AvgLengthMm(Samples(Filter(ds, cfg)), cfg.pixelsPerMm)
  {
    FrameBounds(ds, cfg);
    var st := ProcessFrame(ds, cfg);
    assert st.lengthsPx == Samples(Filter(ds, cfg));
    Summarize(st, cfg)
  }

  /**
   A foreign-matter detection only ever moves the foreign counter: the
   total, the quality and the average length are those of the frame
   without it.
   */
  lemma ForeignMatterLeavesQualityAlone(a: seq<Detection>, d: Detection, b: seq<Detection>, cfg: Config)
    requires cfg.pixelsPerMm > 0.0
    requires Classify(d.labelName) == Foreign
    ensures var withIt, without := AnalyzeFrame(a + [d] + b, cfg), AnalyzeFrame(a + b, cfg);
            && withIt.total == without.total
            && withIt.quality == without.quality
            && withIt.avgLengthMm == without.avgLengthMm
            && without.foreign <= withIt.foreign <= without.foreign + 1
  {
    ForeignClassHasForeignKey(d.labelName);
    ContainsIffOccurs(d.labelName, ForeignKey);
    var s0 := ProcessFrame(a, cfg);
    var s1 := Step(s0, d, cfg);
    RunAppend(Initial, a + [d], b, cfg);
    RunAppend(Initial, a, [d], cfg);
    RunAppend(Initial, a, b, cfg);
    assert s1 == s0.(foreign := s1.foreign);
    ForeignOnlyDiffers(s0, s1, b, cfg);
  }

  /** Two states that differ only in the foreign counter stay so through the loop. */
  lemma {:induction false} ForeignOnlyDiffers(s: FrameStats, t: FrameStats, ds: seq<Detection>, cfg: Config)
    requires t == s.(foreign := t.foreign)
    ensures var rs, rt := Run(s, ds, cfg), Run(t, ds, cfg);
            rt == rs.(foreign := rt.foreign) && rt.foreign - rs.foreign == t.foreign - s.foreign
    decreases |ds|
  {
    if |ds| > 0 {
      ForeignOnlyDiffers(Step(s, ds[0], cfg), Step(t, ds[0], cfg), ds[1..], cfg);
    }
  }
}
