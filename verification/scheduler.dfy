/** The periodic scheduler of the pitched-oscillator branch of `play`: it
    repeats the key points of one period across the sound's duration as
    instructions to the oscillator's frequency control. */
module Scheduler {
  import opened Contour

  /** Jump: `setValueAtTime`; Ramp: `exponentialRampToValueAtTime`. */
  datatype Kind = SetValue | ExponentialRamp

  /** One instruction given to the frequency control. */
  datatype Instr = Instr(time: real, value: real, kind: Kind)

  /** The frequency control of an instrument, as far as the scheduler uses
      it: the instructions it has been given, in the order given. */
  class FrequencySignal {
    var events: seq<Instr>

    constructor ()
      ensures events == []
    {
      events := [];
    }

    method SetValueAtTime(value: real, time: real)
      modifies this
      ensures events == old(events) + [Instr(time, value, SetValue)]
    {
      events := events + [Instr(time, value, SetValue)];
    }

    method ExponentialRampToValueAtTime(value: real, time: real)
      modifies this
      ensures events == old(events) + [Instr(time, value, ExponentialRamp)]
    {
      events := events + [Instr(time, value, ExponentialRamp)];
    }
  }

  /** Schedules a jump and returns the value it schedules. */
  method DoJump(signal: FrequencySignal, value: real, time: real) returns (r: real)
    modifies signal
    ensures r == value
    ensures signal.events == old(signal.events) + [Instr(time, value, SetValue)]
  {
    signal.SetValueAtTime(value, time);
    r := value;
  }

  /** Schedules a ramp and returns the value it schedules. */
  method DoRamp(signal: FrequencySignal, value: real, time: real) returns (r: real)
    modifies signal
    ensures r == value
    ensures signal.events == old(signal.events) + [Instr(time, value, ExponentialRamp)]
  {
    signal.ExponentialRampToValueAtTime(value, time);
    r := value;
  }

  // ---------------------------------------------------------------------
  // The period

  /** The time over which the contour repeats: one over the repeat rate,
      the rate capped at 100 per second, or the whole duration when no rate
      is given; never longer than the duration. */
  function RepeatPeriod(repeat: Option<real>, duration: real): (period: real)
    ensures period <= duration
    ensures OrZero(repeat) == 0.0 ==> period == duration
    ensures OrZero(repeat) >= 0.0 && duration > 0.0 ==> period > 0.0
    ensures OrZero(repeat) > 0.0 ==> period >= 0.01 || period == duration
    ensures 0.0 < OrZero(repeat) <= 100.0 && 1.0 / OrZero(repeat) <= duration ==> period == 1.0 / OrZero(repeat)
    ensures 0.0 < OrZero(repeat) <= 100.0 && 1.0 / OrZero(repeat) > duration ==> period == duration
    ensures OrZero(repeat) >= 100.0 ==> period == (if 0.01 <= duration then 0.01 else duration)
  {
    var rate := if OrZero(repeat) > 100.0 then 100.0 else OrZero(repeat);
    var p := if rate != 0.0 then 1.0 / rate else duration;
    if p > duration then duration else p
  }

  /** The smallest integer at or above x. */
  function Ceiling(x: real): (n: int)
    ensures n as real >= x && (n - 1) as real < x
  {
    if x.Floor as real == x then x.Floor else x.Floor + 1
  }

  /** The time `k` periods take, laid end to end. */
  function Periods(k: nat, period: real): real
  {
    if k == 0 then 0.0 else Periods(k - 1, period) + period
  }

  lemma {:induction false} PeriodsScale(k: nat, period: real)
    ensures Periods(k, period) == k as real * period
  {
    if k > 0 {
      PeriodsScale(k - 1, period);
      assert (k - 1) as real * period + period == k as real * period;
    }
  }

  /** How many periods the scheduling loop runs: the least n for which n
      periods reach the duration. */
  function PeriodCount(period: real, duration: real): (n: nat)
    requires duration > 0.0 ==> period > 0.0
    ensures Periods(n, period) >= duration
    ensures n > 0 ==> Periods(n - 1, period) < duration
    ensures duration <= 0.0 <==> n == 0
  {
    if duration <= 0.0 then 0
    else
      var m := Ceiling(duration / period);
      CeilingPeriods(period, duration);
      m
  }

  /** k periods fall short of the duration exactly when k is below the
      period count. */
  lemma PeriodCountLeast(period: real, duration: real, k: nat)
    requires period > 0.0
    ensures Periods(k, period) < duration <==> k < PeriodCount(period, duration)
  {
    var n := PeriodCount(period, duration);
    if k < n {
      PeriodsMonotone(k, n - 1, period);
    } else {
      PeriodsMonotone(n, k, period);
    }
  }

  /** More periods take longer. */
  lemma {:induction false} PeriodsMonotone(j: nat, k: nat, period: real)
    requires j <= k && period >= 0.0
    ensures Periods(j, period) <= Periods(k, period)
    decreases k
  {
    if j < k {
      PeriodsMonotone(j, k - 1, period);
    }
  }

  /** A negative repeat rate gives a negative period, and then no number
      of periods reaches a positive duration: the loop would not end. This
      is why scheduling requires a non-negative rate. */
  lemma NegativeRepeatNeverEnds(repeat: Option<real>, duration: real, k: nat)
    requires OrZero(repeat) < 0.0 && duration > 0.0
    ensures RepeatPeriod(repeat, duration) < 0.0
    ensures Periods(k, RepeatPeriod(repeat, duration)) < duration
  {
    PeriodsNonPositive(k, RepeatPeriod(repeat, duration));
  }

  lemma {:induction false} PeriodsNonPositive(k: nat, period: real)
    requires period <= 0.0
    ensures Periods(k, period) <= 0.0
  {
    if k > 0 {
      PeriodsNonPositive(k - 1, period);
    }
  }

  /** Multiplying out the ceiling of duration / period. */
  lemma CeilingPeriods(period: real, duration: real)
    requires period > 0.0 && duration > 0.0
    ensures Ceiling(duration / period) > 0
    ensures Periods(Ceiling(duration / period), period) >= duration
    ensures Periods(Ceiling(duration / period) - 1, period) < duration
  {
    var x := duration / period;
    assert x * period == duration;
    CeilingScaled(x, period, duration);
    PeriodsScale(Ceiling(x), period);
    PeriodsScale(Ceiling(x) - 1, period);
  }

  lemma CeilingScaled(x: real, p: real, d: real)
    requires p > 0.0 && x * p == d && x > 0.0
    ensures Ceiling(x) > 0
    ensures Ceiling(x) as real * p >= d
    ensures (Ceiling(x) - 1) as real * p < d
  {
    var m := Ceiling(x);
    var mr := m as real;
    assert x <= mr;
    ScaleMonotone(x, mr, p);
    assert x * p <= mr * p;
    assert mr * p >= d;
    ScaleMonotone(mr - 1.0, x, p);
    calc {
      (m - 1) as real * p;
      (mr - 1.0) * p;
    <  x * p;
    ==  d;
    }
  }

  /** Scaling by a positive factor keeps order. */
  lemma ScaleMonotone(a: real, b: real, p: real)
    requires p > 0.0
    ensures a <= b ==> a * p <= b * p
    ensures a < b ==> a * p < b * p
  {
    if a < b {
      assert (b - a) * p > 0.0;
    } else if a == b {
    }
  }

  // ---------------------------------------------------------------------
  // One period, and its repetition

  /** The six candidate instructions of one period, at their offsets within
      the period: jump to f0 at 0, ramp to f1 and jump to f1b at t1, ramp
      to f2 and jump to f2b at t2, ramp to fn at the period's end. */
  function PeriodPlan(c: Contour, period: real): seq<Instr>
  {
    Candidates(c, Stretched(c.t1, period), Stretched(c.t2, period), period)
  }

  /** A key time of the unit period stretched to a period of length `period`. */
  function Stretched(t: real, period: real): real
  {
    t * period
  }

  lemma PeriodPlanScaled(c: Contour, period: real, t1: real, t2: real)
    requires t1 == c.t1 * period && t2 == c.t2 * period
    ensures PeriodPlan(c, period) == Candidates(c, t1, t2, period)
  {
    assert Stretched(c.t1, period) == t1 && Stretched(c.t2, period) == t2;
  }

  /** The six candidates with the jump times already scaled to the period. */
  function Candidates(c: Contour, t1: real, t2: real, tn: real): seq<Instr>
  {
    [ Instr(0.0, c.f0, SetValue),
      Instr(t1, c.f1, ExponentialRamp),
      Instr(t1, c.f1b, SetValue),
      Instr(t2, c.f2, ExponentialRamp),
      Instr(t2, c.f2b, SetValue),
      Instr(tn, c.fn, ExponentialRamp) ]
  }

  /** An instruction moved `base` later. */
  function Shifted(x: Instr, base: real): Instr
  {
    x.(time := base + x.time)
  }

  /** The instructions of one period starting at `base`, given that the
      last value scheduled is `currF`: each candidate is scheduled only if
      its value differs from the last value scheduled. */
  function Elide(plan: seq<Instr>, base: real, currF: real): (r: seq<Instr>)
    ensures |r| <= |plan|
  {
    ElideFrom(plan, 0, base, currF)
  }

  /** Elide on the candidates from index `i` on. */
  function ElideFrom(plan: seq<Instr>, i: nat, base: real, currF: real): (r: seq<Instr>)
    requires i <= |plan|
    ensures |r| <= |plan| - i
    decreases |plan| - i
  {
    if i == |plan| then []
    else Keep(Shifted(plan[i], base), currF) + ElideFrom(plan, i + 1, base, plan[i].value)
  }

  /** The instruction `x` if its value differs from the last value
      scheduled, nothing otherwise. */
  function Keep(x: Instr, currF: real): seq<Instr>
  {
    if x.value != currF then [x] else []
  }

  /** The last value scheduled after `r`, when `currF` was the last before.
      On a period's candidates it is the value the period settles on: each
      candidate either is scheduled or already equals the current value. */
  function After(r: seq<Instr>, currF: real): real
  {
    if r == [] then currF else r[|r| - 1].value
  }

  /** The instructions of `n` consecutive periods, the first at `base`. */
  function Run(plan: seq<Instr>, base: real, period: real, n: nat, currF: real): seq<Instr>
    decreases n
  {
    if n == 0 then []
    else Elide(plan, base, currF) + Run(plan, base + period, period, n - 1, After(plan, currF))
  }

  /** What the scheduling loop gives the frequency control: periods from
      `now` on, the last scheduled value starting at 0, until the duration is
      reached. */
  function Scheduled(c: Contour, period: real, duration: real, now: real): seq<Instr>
    requires duration > 0.0 ==> period > 0.0
  {
    Run(PeriodPlan(c, period), now, period, PeriodCount(period, duration), 0.0)
  }

  // ---------------------------------------------------------------------
  // The scheduling loop

  /** Schedules the contour `c` periodically from `now` until `now + duration`. */
  method ScheduleFrequency(fq: FrequencySignal, c: Contour, period: real, duration: real, now: real)
    requires duration > 0.0 ==> period > 0.0
    modifies fq
    ensures fq.events == old(fq.events) + Scheduled(c, period, duration, now)
  {
    var currF := 0.0;
    var currT := now;
    var end := currT + duration;

    var t0 := 0.0;
    var t1 := c.t1 * period;
    var t2 := c.t2 * period;
    var tn := period;

    ghost var plan := Candidates(c, t1, t2, tn);
    PeriodPlanScaled(c, period, t1, t2);
    ghost var n := PeriodCount(period, duration);
    ghost var k: nat := 0;
    while currT < end
      invariant k <= n
      invariant currT == now + Periods(k, period)
      invariant plan == Candidates(c, t1, t2, tn)
      invariant currF == if k == 0 then 0.0 else c.fn
      invariant old(fq.events) + Run(plan, now, period, n, 0.0) == fq.events + Run(plan, currT, period, n - k, currF)
      decreases n - k
    {
      PeriodCountLeast(period, duration, k);
      ghost var before := fq.events;
      ghost var rest := Run(plan, currT + period, period, n - k - 1, c.fn);
      assert Run(plan, currT, period, n - k, currF) == Elide(plan, currT, currF) + rest;
      currF := SchedulePeriod(fq, c, currF, currT, t0, t1, t2, tn);
      AppendAssoc(before, Elide(plan, currT, if k == 0 then 0.0 else c.fn), rest);
      currT := currT + period;
      k := k + 1;
    }
    if duration > 0.0 {
      PeriodCountLeast(period, duration, k);
    }
  }

  /** The body of the scheduling loop: the six candidate instructions of
      the period starting at `currT`, each given to the frequency control
      only if its value differs from the last value scheduled; returns the
      last value scheduled. */
  method SchedulePeriod(fq: FrequencySignal, c: Contour, currF: real, currT: real,
                        t0: real, t1: real, t2: real, tn: real)
    returns (lastF: real)
    requires t0 == 0.0
    modifies fq
    ensures fq.events == old(fq.events) + Elide(Candidates(c, t1, t2, tn), currT, currF)
    ensures lastF == c.fn
  {
    lastF := JumpUnlessCurrent(fq, currF, c.f0, currT + t0);
    lastF := RampUnlessCurrent(fq, lastF, c.f1, currT + t1);
    lastF := JumpUnlessCurrent(fq, lastF, c.f1b, currT + t1);
    lastF := RampUnlessCurrent(fq, lastF, c.f2, currT + t2);
    lastF := JumpUnlessCurrent(fq, lastF, c.f2b, currT + t2);
    lastF := RampUnlessCurrent(fq, lastF, c.fn, currT + tn);
    ElideCandidates(c, t1, t2, tn, currT, currF, old(fq.events));
  }

  /** Elide on the six candidates, step by step. */
  lemma ElideCandidates(c: Contour, t1: real, t2: real, tn: real, base: real, currF: real, pre: seq<Instr>)
    ensures pre + Elide(Candidates(c, t1, t2, tn), base, currF)
         == pre + Keep(Instr(base + 0.0, c.f0, SetValue), currF)
                + Keep(Instr(base + t1, c.f1, ExponentialRamp), c.f0)
                + Keep(Instr(base + t1, c.f1b, SetValue), c.f1)
                + Keep(Instr(base + t2, c.f2, ExponentialRamp), c.f1b)
                + Keep(Instr(base + t2, c.f2b, SetValue), c.f2)
                + Keep(Instr(base + tn, c.fn, ExponentialRamp), c.f2b)
  {
    var plan := Candidates(c, t1, t2, tn);
    var k := [ Keep(Instr(base + 0.0, c.f0, SetValue), currF),
               Keep(Instr(base + t1, c.f1, ExponentialRamp), c.f0),
               Keep(Instr(base + t1, c.f1b, SetValue), c.f1),
               Keep(Instr(base + t2, c.f2, ExponentialRamp), c.f1b),
               Keep(Instr(base + t2, c.f2b, SetValue), c.f2),
               Keep(Instr(base + tn, c.fn, ExponentialRamp), c.f2b) ];
    assert ElideFrom(plan, 6, base, c.fn) == [];
    assert ElideFrom(plan, 5, base, c.f2b) == k[5];
    assert ElideFrom(plan, 4, base, c.f2) == k[4] + k[5];
    assert ElideFrom(plan, 3, base, c.f1b) == k[3] + (k[4] + k[5]);
    assert ElideFrom(plan, 2, base, c.f1) == k[2] + (k[3] + (k[4] + k[5]));
    assert ElideFrom(plan, 1, base, c.f0) == k[1] + (k[2] + (k[3] + (k[4] + k[5])));
    assert Elide(plan, base, currF) == k[0] + (k[1] + (k[2] + (k[3] + (k[4] + k[5]))));
    AppendAssoc(pre + k[0], k[1], k[2] + (k[3] + (k[4] + k[5])));
    AppendAssoc(pre + k[0] + k[1], k[2], k[3] + (k[4] + k[5]));
    AppendAssoc(pre + k[0] + k[1] + k[2], k[3], k[4] + k[5]);
    AppendAssoc(pre + k[0] + k[1] + k[2] + k[3], k[4], k[5]);
    AppendAssoc(pre, k[0], k[1] + (k[2] + (k[3] + (k[4] + k[5]))));
  }

  lemma AppendAssoc<T>(a: seq<T>, b: seq<T>, c: seq<T>)
    ensures (a + b) + c == a + (b + c)
  {
  }

  /** One guarded jump of the loop body: jumps to `value` unless it is
      already the current value; returns the new current value. */
  method JumpUnlessCurrent(fq: FrequencySignal, currF: real, value: real, time: real) returns (newF: real)
    modifies fq
    ensures newF == value
    ensures fq.events == old(fq.events) + Keep(Instr(time, value, SetValue), currF)
  {
    newF := currF;
    if newF != value { newF := DoJump(fq, value, time); }
  }

  /** One guarded ramp of the loop body: ramps to `value` unless it is
      already the current value; returns the new current value. */
  method RampUnlessCurrent(fq: FrequencySignal, currF: real, value: real, time: real) returns (newF: real)
    modifies fq
    ensures newF == value
    ensures fq.events == old(fq.events) + Keep(Instr(time, value, ExponentialRamp), currF)
  {
    newF := currF;
    if newF != value { newF := DoRamp(fq, value, time); }
  }

}
