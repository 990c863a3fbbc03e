/**
 Worked frames for the model: the end-to-end example of a sound grain, a
 broken grain too small to pass the size check and a piece of foreign
 matter, plus the arithmetic examples of the quality score and the average
 length.
 */
module Scenarios {
  import opened Wrappers
  import opened Labels
  import opened Boxes
  import opened Geometry
  import opened Aggregate
  import opened Frame
  import opened FrameTheory
  import opened Pipeline

  /** A 30 x 20 box (area 600) holding one sound grain and a speck left by erosion. */
  const SoundGrain := Detection(RawBox(10.0, 10.0, 40.7, 30.2), "sound_rice",
                                Mask([Contour(4.0, 2.0, 2.0), Contour(300.0, 12.0, 28.0)]))
  /** A 10 x 5 box (area 50): below the minimum grain area. */
  const TinyBroken := Detection(RawBox(0.0, 0.0, 10.0, 5.0), "broken_rice",
                                Mask([Contour(20.0, 2.0, 9.0)]))
  /** A 40 x 20 box (area 800) of foreign matter. */
  const Pebble := Detection(RawBox(100.0, 100.0, 140.0, 120.0), "foreign_object", EmptyCrop)

  lemma SoundRiceKeywords()
    ensures Occurs("sound_rice", SoundKey)
    ensures !Occurs("sound_rice", ForeignKey)
  {
    assert KeyAt("sound_rice", SoundKey, 0);
    MissingCharRulesOut("sound_rice", ForeignKey, 'f');
  }

  lemma ForeignObjectLacksSound()
    ensures !Occurs("foreign_object", SoundKey)
  {
    MissingCharRulesOut("foreign_object", SoundKey, 's');
  }

  lemma ForeignObjectLacksBroken()
    ensures !Occurs("foreign_object", BrokenKey)
  {
    MissingCharRulesOut("foreign_object", BrokenKey, 'k');
  }

  lemma ForeignObjectHasForeign()
    ensures Occurs("foreign_object", ForeignKey)
  {
    assert KeyAt("foreign_object", ForeignKey, 0);
  }

  lemma SoundGrainSample()
    ensures Classify(SoundGrain.labelName) == Whole
    ensures LengthSample(SoundGrain) == Some(28.0)
  {
    SoundRiceKeywords();
    assert LargestIndex(SoundGrain.crop.contours) == 1;
  }

  lemma PebbleSample()
    ensures Classify(Pebble.labelName) == Foreign
    ensures LengthSample(Pebble) == None
  {
    ForeignObjectLacksSound();
    ForeignObjectLacksBroken();
    ForeignObjectHasForeign();
  }

  lemma ExampleSizes()
    ensures Survives(SoundGrain, DefaultConfig) && BoxArea(SoundGrain) == 600
    ensures !Survives(TinyBroken, DefaultConfig) && BoxArea(TinyBroken) == 50
    ensures Survives(Pebble, DefaultConfig) && BoxArea(Pebble) == 800
  {
  }

  lemma SoundGrainStep()
    ensures Step(Initial, SoundGrain, DefaultConfig) == FrameStats(1, 0, 0, [28.0])
  {
    SoundGrainSample();
    ExampleSizes();
    StepSurvivor(Initial, SoundGrain, DefaultConfig);
  }

  lemma TinyBrokenStep(st: FrameStats)
    ensures Step(st, TinyBroken, DefaultConfig) == st
  {
    ExampleSizes();
  }

  lemma PebbleStep(st: FrameStats)
    ensures Step(st, Pebble, DefaultConfig) == st.(foreign := st.foreign + 1)
  {
    PebbleSample();
    ExampleSizes();
    StepSurvivor(st, Pebble, DefaultConfig);
    assert st.lengthsPx + [] == st.lengthsPx;
  }

  /** The small broken grain is dropped; one whole grain and one piece of
      foreign matter are counted, and only the grain is measured. */
  lemma ExampleFrameStats()
    ensures ProcessFrame([SoundGrain, TinyBroken, Pebble], DefaultConfig)
              == FrameStats(1, 0, 1, [28.0])
  {
    SoundGrainStep();
    TinyBrokenStep(FrameStats(1, 0, 0, [28.0]));
    PebbleStep(FrameStats(1, 0, 0, [28.0]));
    ThreeSteps(SoundGrain, TinyBroken, Pebble, DefaultConfig);
  }

  /** A frame of three detections is three steps from the zeroed counters. */
  lemma ThreeSteps(a: Detection, b: Detection, c: Detection, cfg: Config)
    ensures ProcessFrame([a, b, c], cfg) == Step(Step(Step(Initial, a, cfg), b, cfg), c, cfg)
  {
    var s1 := Step(Initial, a, cfg);
    var s2 := Step(s1, b, cfg);
    assert [a, b, c][1..] == [b, c];
    assert [b, c][1..] == [c];
    assert [c][1..] == [];
    assert Run(s2, [c], cfg) == Run(Step(s2, c, cfg), [], cfg);
    assert Run(s1, [b, c], cfg) == Run(s2, [c], cfg);
  }

  lemma EndToEndFrame()
    ensures AnalyzeFrame([SoundGrain, TinyBroken, Pebble], DefaultConfig)
              == FrameReport(1, 1, 0, 1, 7.0, 100)
  {
    ExampleFrameStats();
    assert Sum([28.0]) == 28.0;
  }

  lemma QualityOfSevenWholeThreeBroken()
    ensures Quality(7, 3) == 70
  {
  }

  lemma AverageOfTwoLengths()
    ensures AvgLengthMm([40.0, 44.0], 4.0) == 10.5
  {
    assert Sum([40.0, 44.0]) == 84.0;
  }
}
