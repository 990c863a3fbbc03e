/**
 Properties of the frame fold: it agrees with an independent description
 by counting over the size-filtered detections, the counters partition the
 survivors, length samples come only from survivors without the "foreign"
 keyword, and rejected boxes are invisible.
 */
module FrameTheory {
  import opened Wrappers
  import opened Labels
  import opened Frame

  /** Running the loop over `a + b` is running it over `a`, then over `b`. */
  lemma {:induction false} RunAppend(st: FrameStats, a: seq<Detection>, b: seq<Detection>, cfg: Config)
    ensures Run(st, a + b, cfg) == Run(Run(st, a, cfg), b, cfg)
    decreases |a|
  {
    if |a| == 0 {
      assert a + b == b;
    } else {
      assert (a + b)[0] == a[0];
      assert (a + b)[1..] == a[1..] + b;
      RunAppend(Step(st, a[0], cfg), a[1..], b, cfg);
    }
  }

  /** Size filtering commutes with concatenation, so survivors keep their order. */
  lemma {:induction false} FilterAppend(a: seq<Detection>, b: seq<Detection>, cfg: Config)
    ensures Filter(a + b, cfg) == Filter(a, cfg) + Filter(b, cfg)
    decreases |a|
  {
    if |a| == 0 {
      assert a + b == b;
    } else {
      assert (a + b)[0] == a[0];
      assert (a + b)[1..] == a[1..] + b;
      FilterAppend(a[1..], b, cfg);
    }
  }

  /** Every detection falls into exactly one of the four classes. */
  lemma {:induction false} ClassesPartition(ds: seq<Detection>)
    ensures CountClass(ds, Whole) + CountClass(ds, Broken) + CountClass(ds, Foreign)
              + CountClass(ds, Unclassified) == |ds|
    decreases |ds|
  {
    if |ds| > 0 {
      ClassesPartition(ds[1..]);
    }
  }

  /** A foreign-class label always mentions "foreign", so it is among those counted here. */
  lemma {:induction false} ForeignClassWithinForeignLabelled(ds: seq<Detection>)
    ensures CountClass(ds, Foreign) <= CountForeignLabelled(ds)
    decreases |ds|
  {
    if |ds| > 0 {
      ForeignClassWithinForeignLabelled(ds[1..]);
      if Classify(ds[0].labelName) == Foreign {
        ForeignClassHasForeignKey(ds[0].labelName);
      }
    }
  }

  /** A detection whose label mentions "foreign" yields no sample. */
  lemma {:induction false} SamplesSkipForeignLabelled(ds: seq<Detection>)
    ensures |Samples(ds)| + CountForeignLabelled(ds) <= |ds|
    decreases |ds|
  {
    if |ds| > 0 {
      SamplesSkipForeignLabelled(ds[1..]);
      ContainsIffOccurs(ds[0].labelName, ForeignKey);
    }
  }

  /** Every sample is the length reported for some detection of `ds`. */
  lemma {:induction false} SamplesOrigin(ds: seq<Detection>)
    ensures forall len :: len in Samples(ds) ==>
              exists d :: d in ds && LengthSample(d) == Some(len)
    decreases |ds|
  {
    if |ds| > 0 {
      SamplesOrigin(ds[1..]);
      forall len | len in Samples(ds)
        ensures exists d :: d in ds && LengthSample(d) == Some(len)
      {
        if LengthSample(ds[0]) == Some(len) {
          assert ds[0] in ds;
        } else {
          assert len in Samples(ds[1..]);
          var d :| d in ds[1..] && LengthSample(d) == Some(len);
          assert d in ds;
        }
      }
    }
  }

  /**
   Frame-level bounds: the three counters together never exceed the number
   of survivors, and the number of length samples never exceeds the
   survivors that are not foreign matter.
   */
  lemma FrameBounds(ds: seq<Detection>, cfg: Config)
    ensures var st := ProcessFrame(ds, cfg);
            && st.whole + st.broken + st.foreign <= |Filter(ds, cfg)|
            && |st.lengthsPx| + st.foreign <= |Filter(ds, cfg)|
  {
    var kept := Filter(ds, cfg);
    ClassesPartition(kept);
    ForeignClassWithinForeignLabelled(kept);
    SamplesSkipForeignLabelled(kept);
  }

  /**
   Every recorded length comes from a detection that passed the size check
   and whose label does not mention "foreign".
   */
  lemma SamplesComeFromSurvivors(ds: seq<Detection>, cfg: Config)
    ensures forall len :: len in ProcessFrame(ds, cfg).lengthsPx ==>
              exists d :: d in ds && Survives(d, cfg) && !Occurs(d.labelName, ForeignKey)
                && LengthSample(d) == Some(len)
  {
    SamplesOrigin(Filter(ds, cfg));
  }

  /** A box rejected by the size check changes no counter and adds no sample,
      wherever it sits in the frame. */
  lemma RejectedDetectionIsInvisible(a: seq<Detection>, d: Detection, b: seq<Detection>, cfg: Config)
    requires !Survives(d, cfg)
    ensures ProcessFrame(a + [d] + b, cfg) == ProcessFrame(a + b, cfg)
  {
    RunAppend(Initial, a + [d], b, cfg);
    RunAppend(Initial, a, [d], cfg);
    RunAppend(Initial, a, b, cfg);
  }
}
