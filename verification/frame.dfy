/**
 One pass of the frame loop (detect.py:68-133) as a fold over the frame's
 detections. Every detection either fails the size check and leaves the
 statistics alone, or bumps at most one class counter and then, if its
 label does not mention foreign matter, possibly contributes one length
 sample.
 */
module Frame {
  import opened Wrappers
  import opened Labels
  import opened Boxes
  import opened Geometry

  /**
   The configuration constants of detect.py:12-20. The confidence threshold
   is handed to the detector and never read by the frame loop itself.
   */
  datatype Config = Config(confThreshold: real, pixelsPerMm: real, minGrainArea: int, maxGrainArea: int)

  const DefaultConfig := Config(0.55, 4.0, 100, 5000)

  /** One detector box: its corners, the label of its class, and what the
      image library finds inside it. */
  datatype Detection = Detection(box: RawBox, labelName: string, crop: Crop)

  function BoxArea(d: Detection): int {
    Area(PixelBox(d.box))
  }

  /** The size check of detect.py:84: a box is dropped when its area is
      below the minimum or above the maximum. */
  predicate Survives(d: Detection, cfg: Config) {
    AreaAccepted(BoxArea(d), cfg.minGrainArea, cfg.maxGrainArea)
  }

  /** The detections that pass the size check, in their original order. */
  function Filter(ds: seq<Detection>, cfg: Config): (kept: seq<Detection>)
    ensures |kept| <= |ds|
    ensures forall d :: d in kept <==>
              d in ds && cfg.minGrainArea <= BoxArea(d) <= cfg.maxGrainArea
  {
    if |ds| == 0 then []
    else
      assert forall d :: d in ds <==> d == ds[0] || d in ds[1..];
      (if Survives(ds[0], cfg) then [ds[0]] else []) + Filter(ds[1..], cfg)
  }

  /**
   The length sample a surviving detection contributes (detect.py:100-125):
   none for a label mentioning foreign matter, otherwise whatever the
   contour measurement yields.
   */
  function LengthSample(d: Detection): (len: Option<real>)
    ensures len.Some? <==>
              !Occurs(d.labelName, ForeignKey) && d.crop.Mask? && |d.crop.contours| > 0
    ensures len.Some? ==> len == Measure(d.crop)
  {
    ContainsIffOccurs(d.labelName, ForeignKey);
    if Contains(d.labelName, ForeignKey) then None else Measure(d.crop)
  }

  /** The running counters and the list of pixel lengths of one frame. */
  datatype FrameStats = FrameStats(whole: nat, broken: nat, foreign: nat, lengthsPx: seq<real>)

  /** The state at detect.py:68-71, before any box is looked at. */
  const Initial := FrameStats(0, 0, 0, [])

  function Tally(st: FrameStats, c: GrainClass): FrameStats {
    match c
    case Whole => st.(whole := st.whole + 1)
    case Broken => st.(broken := st.broken + 1)
    case Foreign => st.(foreign := st.foreign + 1)
    case Unclassified => st
  }

  /** One iteration of the inner loop of detect.py:76-125. */
  function Step(st: FrameStats, d: Detection, cfg: Config): (r: FrameStats)
    ensures !Survives(d, cfg) ==> r == st
    ensures r.whole == st.whole + 1 <==> Survives(d, cfg) && Occurs(d.labelName, SoundKey)
    ensures r.broken == st.broken + 1 <==>
              Survives(d, cfg) && !Occurs(d.labelName, SoundKey) && Occurs(d.labelName, BrokenKey)
    ensures r.foreign == st.foreign + 1 <==>
              Survives(d, cfg) && !Occurs(d.labelName, SoundKey) && !Occurs(d.labelName, BrokenKey)
                && Occurs(d.labelName, ForeignKey)
    ensures (r.whole - st.whole) + (r.broken - st.broken) + (r.foreign - st.foreign) in {0, 1}
    ensures st.whole <= r.whole && st.broken <= r.broken && st.foreign <= r.foreign
    ensures |st.lengthsPx| <= |r.lengthsPx| <= |st.lengthsPx| + 1
    ensures r.lengthsPx[..|st.lengthsPx|] == st.lengthsPx
    ensures |r.lengthsPx| > |st.lengthsPx| ==> Survives(d, cfg) && !Occurs(d.labelName, ForeignKey)
    ensures |r.lengthsPx| > |st.lengthsPx| <==> Survives(d, cfg) && LengthSample(d).Some?
    ensures |r.lengthsPx| > |st.lengthsPx| ==> r.lengthsPx[|st.lengthsPx|] == LengthSample(d).value
  {
    if !Survives(d, cfg) then st
    else
      var counted := Tally(st, Classify(d.labelName));
      match LengthSample(d)
      case None => counted
      case Some(len) => counted.(lengthsPx := counted.lengthsPx + [len])
  }

  /** The inner loop over a run of detections, starting from `st`. */
  function Run(st: FrameStats, ds: seq<Detection>, cfg: Config): FrameStats
    decreases |ds|
  {
    if |ds| == 0 then st else Run(Step(st, ds[0], cfg), ds[1..], cfg)
  }


  /** How many detections of `ds` are classified as `c`. */
  function CountClass(ds: seq<Detection>, c: GrainClass): nat {
    if |ds| == 0 then 0
    else (if Classify(ds[0].labelName) == c then 1 else 0) + CountClass(ds[1..], c)
  }

  /** How many detections of `ds` carry the "foreign" keyword anywhere in their label. */
  function CountForeignLabelled(ds: seq<Detection>): nat {
    if |ds| == 0 then 0
    else (if Contains(ds[0].labelName, ForeignKey) then 1 else 0) + CountForeignLabelled(ds[1..])
  }

  /** The length sample of `d` as a list of zero or one elements. */
  function SampleOf(d: Detection): seq<real> {
    match LengthSample(d)
    case None => []
    case Some(len) => [len]
  }

  /** The length samples of `ds`, in order, skipping detections that yield none. */
  function Samples(ds: seq<Detection>): seq<real> {
    if |ds| == 0 then [] else SampleOf(ds[0]) + Samples(ds[1..])
  }

  lemma CountClassCons(d: Detection, rest: seq<Detection>, c: GrainClass)
    ensures CountClass([d] + rest, c) == (if Classify(d.labelName) == c then 1 else 0) + CountClass(rest, c)
  {
    assert ([d] + rest)[1..] == rest;
  }

  lemma SamplesCons(d: Detection, rest: seq<Detection>)
    ensures Samples([d] + rest) == SampleOf(d) + Samples(rest)
  {
    assert ([d] + rest)[1..] == rest;
  }

  /** One step on a surviving detection, described by class and sample. */
  lemma StepSurvivor(st: FrameStats, d: Detection, cfg: Config)
    requires Survives(d, cfg)
    ensures var c := Classify(d.labelName);
            Step(st, d, cfg) == FrameStats(
              st.whole + (if c == Whole then 1 else 0),
              st.broken + (if c == Broken then 1 else 0),
              st.foreign + (if c == Foreign then 1 else 0),
              st.lengthsPx + SampleOf(d))
  {
    match LengthSample(d)
    case None => assert st.lengthsPx + [] == st.lengthsPx;
    case Some(len) =>
  }

  /** `st` advanced by the class counts and samples of `kept`. */
  function Counted(st: FrameStats, kept: seq<Detection>): FrameStats {
    FrameStats(
      st.whole + CountClass(kept, Whole),
      st.broken + CountClass(kept, Broken),
      st.foreign + CountClass(kept, Foreign),
      st.lengthsPx + Samples(kept))
  }

  lemma CountedCons(st: FrameStats, d: Detection, rest: seq<Detection>)
    ensures var c := Classify(d.labelName);
            Counted(st, [d] + rest) == Counted(FrameStats(
              st.whole + (if c == Whole then 1 else 0),
              st.broken + (if c == Broken then 1 else 0),
              st.foreign + (if c == Foreign then 1 else 0),
              st.lengthsPx + SampleOf(d)), rest)
  {
    CountClassCons(d, rest, Whole);
    CountClassCons(d, rest, Broken);
    CountClassCons(d, rest, Foreign);
    SamplesCons(d, rest);
    assert st.lengthsPx + (SampleOf(d) + Samples(rest)) == (st.lengthsPx + SampleOf(d)) + Samples(rest);
  }

  /**
   The fold agrees with counting: from any starting state, the loop adds the
   number of survivors of each class to the counters and appends the
   survivors' length samples, in order.
   */
  lemma {:induction false} RunCounts(st: FrameStats, ds: seq<Detection>, cfg: Config)
    ensures Run(st, ds, cfg) == Counted(st, Filter(ds, cfg))
    decreases |ds|
  {
    if |ds| == 0 {
      assert st.lengthsPx + [] == st.lengthsPx;
    } else {
      var d, rest := ds[0], ds[1..];
      RunCounts(Step(st, d, cfg), rest, cfg);
      if Survives(d, cfg) {
        assert Filter(ds, cfg) == [d] + Filter(rest, cfg);
        StepSurvivor(st, d, cfg);
        CountedCons(st, d, Filter(rest, cfg));
      } else {
        assert Filter(ds, cfg) == Filter(rest, cfg);
      }
    }
  }

  /**
   The statistics of one frame: the loop run from the zeroed counters. They
   are the per-class counts of the detections that pass the size check and
   the length samples of those detections, in order.
   */
  function ProcessFrame(ds: seq<Detection>, cfg: Config): (st: FrameStats)
    ensures var kept := Filter(ds, cfg);
            st == FrameStats(
              CountClass(kept, Whole),
              CountClass(kept, Broken),
              CountClass(kept, Foreign),
              Samples(kept))
  {
    RunFromInitial(ds, cfg);
    Run(Initial, ds, cfg)
  }

  lemma RunFromInitial(ds: seq<Detection>, cfg: Config)
    ensures var kept := Filter(ds, cfg);
            Run(Initial, ds, cfg) == FrameStats(
              CountClass(kept, Whole),
              CountClass(kept, Broken),
              CountClass(kept, Foreign),
              Samples(kept))
  {
    RunCounts(Initial, ds, cfg);
    CountedFromInitial(Filter(ds, cfg));
    SampledFromInitial(Filter(ds, cfg));
  }

  lemma CountedFromInitial(kept: seq<Detection>)
    ensures Counted(Initial, kept).whole == CountClass(kept, Whole)
    ensures Counted(Initial, kept).broken == CountClass(kept, Broken)
    ensures Counted(Initial, kept).foreign == CountClass(kept, Foreign)
  {
  }

  lemma SampledFromInitial(kept: seq<Detection>)
    ensures Counted(Initial, kept).lengthsPx == Samples(kept)
  {
    EmptyPrefix(Samples(kept));
  }

  lemma EmptyPrefix<T>(s: seq<T>)
    ensures [] + s == s
  {
  }
}
