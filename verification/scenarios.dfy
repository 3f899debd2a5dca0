/**
 Concrete runs of the filter from its default starting point: sleep and
 edge snap enabled, multiplier 0.01, activity threshold 4, resolution 1024,
 smoothed value and error estimate zero.
 */
module Scenarios {
  import opened FixedArith
  import opened FastAnalogRead
  import opened FilterProps

  function DefaultConfig(): (cfg: Config)
    ensures ValidConfig(cfg)
  {
    Config(0, true, true, 0.01, 4.0, 1024)
  }

  /** A freshly constructed channel with the given configuration. */
  function Initial(cfg: Config): (c: Channel)
    ensures ValidConfig(cfg) ==> Valid(c)
  {
    Channel(cfg, 0, 0.0, 0.0, false, 0, 0, false)
  }

  /**
   Sleep disabled, one sample of 512 from rest: the scaled deviation is
   5.12, past the point where the snap curve saturates, so the output lands
   on 512 exactly in one step and the change flag is set.
   */
  lemma FirstSampleSnapsFully()
    ensures var c := Update(Initial(DefaultConfig().(sleepEnable := false)), 512);
            c.responsiveValue == 512 && c.responsiveValueHasChanged
  {
    var c0 := Initial(DefaultConfig().(sleepEnable := false));
    var c1 := c0.(rawValue := 512, prevResponsiveValue := 0);
    assert Deviation(512.0, 0.0) == 512;
    assert SnapWeight(c1.cfg, 0.0, 512.0) == 1.0;
    assert AwakeSmooth(c1.cfg, 0.0, 512.0) == 512.0;
    GetIntegerUnique(512.0, 512);
  }

  /**
   Default configuration, the input held at 300: the first cycle wakes the
   filter and moves the output to 300, and every later cycle keeps it there
   with the change flag clear.
   */
  lemma {:induction false} HeldInputSettles(raws: seq<uint16>)
    requires |raws| >= 1
    requires forall k :: 0 <= k < |raws| ==> raws[k] == 300
    ensures Run(Initial(DefaultConfig()), raws).responsiveValue == 300
    ensures |raws| >= 2 ==> !Run(Initial(DefaultConfig()), raws).responsiveValueHasChanged
  {
    var c0 := Initial(DefaultConfig());
    var c1 := c0.(rawValue := 300, prevResponsiveValue := 0);
    assert EdgeSnap(c1.cfg, 300.0) == 300.0;
    assert !SleepFlag(c1.cfg, false, NextErrorEMA(0.0, 300.0));
    assert Deviation(300.0, 0.0) == 300;
    assert SnapWeight(c1.cfg, 0.0, 300.0) == 1.0;
    assert AwakeSmooth(c1.cfg, 0.0, 300.0) == 300.0;
    GetIntegerUnique(300.0, 300);
    var c2 := Update(c0, 300);
    assert c2.smoothValue == 300.0;
    UpdatePreservesValid(c0, 300);
    RunUnfold(c0, raws);
    RunHoldsSteady(c2, 300, raws[1..]);
  }
}
