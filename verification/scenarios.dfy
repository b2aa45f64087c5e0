/** The end-to-end scenarios of the contour scheduler, each stated as a
    lemma about the model: a steady tone, a sweep with one jump at the midpoint, and a
    repeated contour. */
module Scenarios {
  import opened Contour
  import opened Scheduler
  import opened ScheduleProperties

  /** Exactly one period of length 1 fits a duration of 1. */
  lemma OnePeriodOf(period: real)
    requires period > 0.0
    ensures PeriodCount(period, period) == 1
  {
    var n := PeriodCount(period, period);
    assert Periods(1, period) == period;
    if n > 1 {
      PeriodsMonotone(1, n - 1, period);
    }
  }

  /** 440 Hz with no sweep, no jumps and no repeat over one second: a
      single jump to 440 at the start, every ramp to an equal value
      elided. */
  lemma SteadyTone(sample: Sampler, c: Contour)
    requires PlannedFrom(c, sample, 440.0, Some(0.0), 0.0, 0.0, Some(0.0), Some(0.0))
    ensures RepeatPeriod(Some(0.0), 1.0) == 1.0
    ensures Scheduled(c, 1.0, 1.0, 0.0) == [Instr(0.0, 440.0, SetValue)]
  {
    ZeroJumpsAreSilent(c, sample, 440.0, Some(0.0), 0.0, 0.0, Some(0.0), Some(0.0));
    KeyTimesOrdered(c, sample, 440.0, Some(0.0), 0.0, 0.0, Some(0.0), Some(0.0));
    OnePeriodOf(1.0);
    var plan := PeriodPlan(c, 1.0);
    PeriodPlanScaled(c, 1.0, 0.0, 0.0);
    ElideCandidates(c, 0.0, 0.0, 1.0, 0.0, 0.0, []);
    assert Scheduled(c, 1.0, 1.0, 0.0) == Elide(plan, 0.0, 0.0) + [];
  }

  /** 220 Hz swept up to 440 over two seconds, with a jump by 0.5 at the
      midpoint and a zero jump at the same time: the zero jump collapses
      onto the first, so the schedule is the jump to 220 at 0, the ramp to
      f1 and the jump to 1.5 * f1 at 1, and the ramp to the shifted end
      frequency at 2 (for a sampled midpoint f1 that is not 0, 220 or
      440). */
  lemma MidpointJump(sample: Sampler, c: Contour)
    requires PlannedFrom(c, sample, 220.0, Some(1.0), 0.5, 0.5, Some(0.5), Some(0.0))
    requires sample(220.0, 440.0, 1.0, 0.5) !in {0.0, 220.0, 440.0}
    ensures c.t1 == 0.5 && c.t2 == 0.5
    ensures RepeatPeriod(None, 2.0) == 2.0
    ensures var f1 := sample(220.0, 440.0, 1.0, 0.5);
            Scheduled(c, 2.0, 2.0, 0.0)
            == [ Instr(0.0, 220.0, SetValue),
                 Instr(1.0, f1, ExponentialRamp),
                 Instr(1.0, f1 * 1.5, SetValue),
                 Instr(2.0, 440.0 + f1 * 0.5, ExponentialRamp) ]
  {
    var f1 := sample(220.0, 440.0, 1.0, 0.5);
    MidpointContour(sample, c);
    MidpointSchedule(c, f1);
  }

  /** The key points of the midpoint-jump contour: both key times at 0.5,
      the sampled midpoint f1 jumped by half, the zero jump silent and the
      end frequency raised by the first jump's offset. */
  lemma MidpointContour(sample: Sampler, c: Contour)
    requires PlannedFrom(c, sample, 220.0, Some(1.0), 0.5, 0.5, Some(0.5), Some(0.0))
    ensures var f1 := sample(220.0, 440.0, 1.0, 0.5);
            && c.t1 == 0.5 && c.t2 == 0.5 && c.f0 == 220.0
            && c.f1 == f1 && c.f1b == f1 * 1.5
            && c.f2 == c.f1b && c.f2b == c.f1b
            && c.fn == 440.0 + f1 * 0.5
  {
    assert c.first == Jump(0.5, 0.5) && c.second == Jump(0.5, 0.0);
  }

  /** The schedule of the midpoint-jump contour over one period of two
      seconds. */
  lemma MidpointSchedule(c: Contour, f1: real)
    requires c.t1 == 0.5 && c.t2 == 0.5 && c.f0 == 220.0
    requires c.f1 == f1 && c.f1b == f1 * 1.5 && c.f2 == c.f1b && c.f2b == c.f1b
    requires c.fn == 440.0 + f1 * 0.5
    requires f1 !in {0.0, 220.0, 440.0}
    ensures Scheduled(c, 2.0, 2.0, 0.0)
            == [ Instr(0.0, 220.0, SetValue),
                 Instr(1.0, f1, ExponentialRamp),
                 Instr(1.0, f1 * 1.5, SetValue),
                 Instr(2.0, 440.0 + f1 * 0.5, ExponentialRamp) ]
  {
    OnePeriodOf(2.0);
    var plan := PeriodPlan(c, 2.0);
    PeriodPlanScaled(c, 2.0, 1.0, 1.0);
    ElideCandidates(c, 1.0, 1.0, 2.0, 0.0, 0.0, []);
    assert Keep(Instr(0.0 + 0.0, c.f0, SetValue), 0.0) == [Instr(0.0, 220.0, SetValue)];
    assert Keep(Instr(0.0 + 1.0, c.f1, ExponentialRamp), c.f0) == [Instr(1.0, f1, ExponentialRamp)];
    assert Keep(Instr(0.0 + 1.0, c.f1b, SetValue), c.f1) == [Instr(1.0, f1 * 1.5, SetValue)];
    assert Keep(Instr(0.0 + 1.0, c.f2, ExponentialRamp), c.f1b) == [];
    assert Keep(Instr(0.0 + 1.0, c.f2b, SetValue), c.f2) == [];
    assert Keep(Instr(0.0 + 2.0, c.fn, ExponentialRamp), c.f2b) == [Instr(2.0, 440.0 + f1 * 0.5, ExponentialRamp)];
    var i0, i1, i2, i3 := Instr(0.0, 220.0, SetValue), Instr(1.0, f1, ExponentialRamp),
                          Instr(1.0, f1 * 1.5, SetValue), Instr(2.0, 440.0 + f1 * 0.5, ExponentialRamp);
    var none: seq<Instr> := [];
    assert Elide(plan, 0.0, 0.0) == none + Elide(plan, 0.0, 0.0);
    assert none + [i0] + [i1] + [i2] + none + none + [i3] == [i0, i1, i2, i3];
    assert Scheduled(c, 2.0, 2.0, 0.0) == Elide(plan, 0.0, 0.0) + [];
  }

  /** Periods of 0.25 reach two seconds after exactly eight iterations. */
  lemma EightPeriods()
    ensures PeriodCount(0.25, 2.0) == 8
  {
    var n := PeriodCount(0.25, 2.0);
    PeriodsScale(n, 0.25);
    PeriodsScale(n - 1, 0.25);
  }

  /** A repeat rate of 4 per second gives periods of 0.25. */
  lemma FourPerSecond()
    ensures RepeatPeriod(Some(4.0), 2.0) == 0.25
  {
  }

  /** A repeat rate of 4 over two seconds: periods of 0.25, eight
      iterations, iteration k scheduling the same pattern of candidates at
      0.25 * k. */
  lemma RepeatedContour(c: Contour, k: nat)
    requires k < 8
    ensures RepeatPeriod(Some(4.0), 2.0) == 0.25
    ensures PeriodCount(0.25, 2.0) == 8
    ensures Scheduled(c, 0.25, 2.0, 0.0)
         == Run(PeriodPlan(c, 0.25), 0.0, 0.25, k, 0.0)
          + Elide(PeriodPlan(c, 0.25), 0.25 * k as real, if k == 0 then 0.0 else c.fn)
          + Run(PeriodPlan(c, 0.25), 0.25 * (k + 1) as real, 0.25, 7 - k, c.fn)
  {
    FourPerSecond();
    EightPeriods();
    QuarterPeriods(k);
    QuarterPeriods(k + 1);
    IterationBlock(c, 0.25, 2.0, 0.0, k);
  }

  lemma QuarterPeriods(k: nat)
    ensures Periods(k, 0.25) == 0.25 * k as real
  {
    PeriodsScale(k, 0.25);
  }
}
