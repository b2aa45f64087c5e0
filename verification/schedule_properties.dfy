/** What the scheduling loop promises about the instructions it gives the
    frequency control: no instruction repeats the value before it, the last
    value scheduled is the contour's end frequency, times never go back and
    stay within the duration plus one period, and each iteration schedules
    the key points of one period at its own start. */
module ScheduleProperties {
  import opened Contour
  import opened Scheduler

  // ---------------------------------------------------------------------
  // Elision

  /** No instruction of `r` schedules the value that was already current:
      the first differs from `currF`, every other from the one before it. */
  ghost predicate NoRepeats(r: seq<Instr>, currF: real)
  {
    && (|r| > 0 ==> r[0].value != currF)
    && forall i :: 0 < i < |r| ==> r[i].value != r[i - 1].value
  }

  lemma AfterAppend(a: seq<Instr>, b: seq<Instr>, currF: real)
    ensures After(a + b, currF) == After(b, After(a, currF))
  {
    if b != [] {
      assert (a + b)[|a + b| - 1] == b[|b| - 1];
    }
  }

  lemma NoRepeatsAppend(a: seq<Instr>, b: seq<Instr>, currF: real)
    requires NoRepeats(a, currF) && NoRepeats(b, After(a, currF))
    ensures NoRepeats(a + b, currF)
  {
    var r := a + b;
    if |a| == 0 {
      assert r == b;
    } else {
      assert r[0] == a[0];
    }
    forall i | 0 < i < |r|
      ensures r[i].value != r[i - 1].value
    {
      if i < |a| {
        assert r[i] == a[i] && r[i - 1] == a[i - 1];
      } else if i > |a| {
        assert r[i] == b[i - |a|] && r[i - 1] == b[i - 1 - |a|];
      } else {
        assert r[i] == b[0] && r[i - 1] == a[|a| - 1];
      }
    }
  }

  /** Eliding the candidates from index `i` on leaves no repeated value and
      ends on the last candidate's value (or on `currF` when there is no
      candidate left): a skipped candidate already equals the current
      value. */
  lemma {:induction false} ElideFromSettles(plan: seq<Instr>, i: nat, base: real, currF: real)
    requires i <= |plan|
    ensures NoRepeats(ElideFrom(plan, i, base, currF), currF)
    ensures After(ElideFrom(plan, i, base, currF), currF)
         == (if i == |plan| then currF else plan[|plan| - 1].value)
    decreases |plan| - i
  {
    if i < |plan| {
      var x := Shifted(plan[i], base);
      var k := Keep(x, currF);
      var rest := ElideFrom(plan, i + 1, base, plan[i].value);
      ElideFromSettles(plan, i + 1, base, plan[i].value);
      assert After(k, currF) == plan[i].value;
      NoRepeatsAppend(k, rest, currF);
      AfterAppend(k, rest, currF);
    }
  }

  /** One period leaves no repeated value and ends on its last
      candidate's value. */
  lemma ElideSettles(plan: seq<Instr>, base: real, currF: real)
    ensures NoRepeats(Elide(plan, base, currF), currF)
    ensures After(Elide(plan, base, currF), currF) == After(plan, currF)
  {
    ElideFromSettles(plan, 0, base, currF);
  }

  /** `n` periods leave no repeated value; after at least one period the
      last value scheduled is the period's last candidate's value. */
  lemma {:induction false} RunSettles(plan: seq<Instr>, base: real, period: real, n: nat, currF: real)
    ensures NoRepeats(Run(plan, base, period, n, currF), currF)
    ensures After(Run(plan, base, period, n, currF), currF) == (if n == 0 then currF else After(plan, currF))
    decreases n
  {
    if n > 0 {
      var e := Elide(plan, base, currF);
      var s := After(plan, currF);
      var rest := Run(plan, base + period, period, n - 1, s);
      ElideSettles(plan, base, currF);
      RunSettles(plan, base + period, period, n - 1, s);
      assert After(plan, s) == s;
      NoRepeatsAppend(e, rest, currF);
      AfterAppend(e, rest, currF);
    }
  }

  /** The value the loop keeps as current is always the last value it
      scheduled: 0 before anything, the contour's end frequency once a
      period has been scheduled; and no instruction repeats the value
      before it, the first one differing from 0. */
  lemma ScheduledSettles(c: Contour, period: real, duration: real, now: real)
    requires duration > 0.0 ==> period > 0.0
    ensures NoRepeats(Scheduled(c, period, duration, now), 0.0)
    ensures After(Scheduled(c, period, duration, now), 0.0) == (if duration <= 0.0 then 0.0 else c.fn)
  {
    RunSettles(PeriodPlan(c, period), now, period, PeriodCount(period, duration), 0.0);
  }

  // ---------------------------------------------------------------------
  // Timing

  /** Times never go back. */
  ghost predicate NonDecreasing(r: seq<Instr>)
  {
    forall i, j :: 0 <= i <= j < |r| ==> r[i].time <= r[j].time
  }

  /** Every time lies in [lo, hi]. */
  ghost predicate Within(r: seq<Instr>, lo: real, hi: real)
  {
    forall i :: 0 <= i < |r| ==> lo <= r[i].time <= hi
  }

  lemma ConcatOrdered(a: seq<Instr>, b: seq<Instr>, lo: real, mid: real, hi: real)
    requires lo <= mid <= hi
    requires NonDecreasing(a) && Within(a, lo, mid)
    requires NonDecreasing(b) && Within(b, mid, hi)
    ensures NonDecreasing(a + b) && Within(a + b, lo, hi)
  {
    var r := a + b;
    forall i, j | 0 <= i <= j < |r|
      ensures r[i].time <= r[j].time
    {
      if j < |a| {
        assert r[i] == a[i] && r[j] == a[j];
      } else if i >= |a| {
        assert r[i] == b[i - |a|] && r[j] == b[j - |a|];
      } else {
        assert r[i] == a[i] && r[j] == b[j - |a|];
        assert a[i].time <= mid;
        assert mid <= b[j - |a|].time;
      }
    }
    forall i | 0 <= i < |r|
      ensures lo <= r[i].time <= hi
    {
      if i < |a| {
        assert r[i] == a[i];
        assert lo <= a[i].time <= mid;
      } else {
        assert r[i] == b[i - |a|];
        assert mid <= b[i - |a|].time <= hi;
      }
    }
  }

  /** Eliding keeps the candidates' time order, shifted by `base`. */
  lemma {:induction false} ElideFromOrdered(plan: seq<Instr>, i: nat, base: real, currF: real, lo: real, hi: real)
    requires i <= |plan|
    requires NonDecreasing(plan)
    requires forall j :: i <= j < |plan| ==> lo <= plan[j].time <= hi
    ensures NonDecreasing(ElideFrom(plan, i, base, currF))
    ensures Within(ElideFrom(plan, i, base, currF), base + lo, base + hi)
    decreases |plan| - i
  {
    if i < |plan| {
      var at := plan[i].time;
      var k := Keep(Shifted(plan[i], base), currF);
      var rest := ElideFrom(plan, i + 1, base, plan[i].value);
      ElideFromOrdered(plan, i + 1, base, plan[i].value, at, hi);
      assert Within(k, base + lo, base + at);
      ConcatOrdered(k, rest, base + lo, base + at, base + hi);
    }
  }

  /** One period of a plan whose times lie in [0, period] and never go
      back: the times never go back and lie in [base, base + period]. */
  lemma ElideOrdered(plan: seq<Instr>, base: real, period: real, currF: real)
    requires NonDecreasing(plan) && Within(plan, 0.0, period)
    ensures NonDecreasing(Elide(plan, base, currF))
    ensures Within(Elide(plan, base, currF), base, base + period)
  {
    ElideFromOrdered(plan, 0, base, currF, 0.0, period);
  }

  /** `n` periods of a plan whose times lie in [0, period] and never go
      back: the times never go back and lie in [base, base + n periods]. */
  lemma {:induction false} RunOrdered(plan: seq<Instr>, base: real, period: real, n: nat, currF: real)
    requires period >= 0.0
    requires NonDecreasing(plan) && Within(plan, 0.0, period)
    ensures NonDecreasing(Run(plan, base, period, n, currF))
    ensures Within(Run(plan, base, period, n, currF), base, base + Periods(n, period))
    decreases n
  {
    if n > 0 {
      var s := After(plan, currF);
      var e := Elide(plan, base, currF);
      var rest := Run(plan, base + period, period, n - 1, s);
      ElideOrdered(plan, base, period, currF);
      RunOrdered(plan, base + period, period, n - 1, s);
      PeriodsMonotone(0, n - 1, period);
      assert base + period + Periods(n - 1, period) == base + Periods(n, period);
      ConcatOrdered(e, rest, base, base + period, base + Periods(n, period));
    }
  }

  /** Stretching to a period of non-negative length keeps order and maps
      the unit period onto [0, period]. */
  lemma StretchedMonotone(a: real, b: real, period: real)
    requires a <= b && period >= 0.0
    ensures Stretched(a, period) <= Stretched(b, period)
    ensures a == 0.0 ==> Stretched(a, period) == 0.0
    ensures b == 1.0 ==> Stretched(b, period) == period
  {
    assert (b - a) * period >= 0.0;
    assert b * period - a * period == (b - a) * period;
  }

  /** With key times ordered in the unit period, one period's candidates
      are in time order within [0, period]. */
  lemma PeriodPlanOrdered(c: Contour, period: real)
    requires 0.0 <= c.t1 <= c.t2 <= 1.0 && period >= 0.0
    ensures NonDecreasing(PeriodPlan(c, period)) && Within(PeriodPlan(c, period), 0.0, period)
  {
    var plan := PeriodPlan(c, period);
    StretchedMonotone(0.0, c.t1, period);
    StretchedMonotone(c.t1, c.t2, period);
    StretchedMonotone(c.t2, 1.0, period);
    assert plan[0].time == 0.0;
    assert 0.0 <= plan[1].time == plan[2].time <= plan[3].time == plan[4].time <= plan[5].time == period;
  }

  /** The scheduled times never go back and lie in [now, now + duration +
      period): the loop stops at the first period boundary at or past the
      end. */
  lemma ScheduledOrdered(c: Contour, period: real, duration: real, now: real)
    requires duration > 0.0 ==> period > 0.0
    requires 0.0 <= c.t1 <= c.t2 <= 1.0
    ensures NonDecreasing(Scheduled(c, period, duration, now))
    ensures forall i :: 0 <= i < |Scheduled(c, period, duration, now)| ==>
              now <= Scheduled(c, period, duration, now)[i].time < now + duration + period
  {
    var n := PeriodCount(period, duration);
    if n > 0 {
      var plan := PeriodPlan(c, period);
      PeriodPlanOrdered(c, period);
      RunOrdered(plan, now, period, n, 0.0);
      assert Periods(n, period) == Periods(n - 1, period) + period;
    }
  }

  /** Nothing is scheduled when the duration is not positive. */
  lemma NothingForNoDuration(c: Contour, period: real, duration: real, now: real)
    requires duration <= 0.0
    ensures Scheduled(c, period, duration, now) == []
  {
  }

  // ---------------------------------------------------------------------
  // Structure

  /** `m + n` periods are `m` periods followed by `n` more, from the time
      the first `m` take and from the value they settle on. */
  lemma {:induction false} RunSplit(plan: seq<Instr>, base: real, period: real, m: nat, n: nat, currF: real)
    ensures Run(plan, base, period, m + n, currF)
         == Run(plan, base, period, m, currF)
          + Run(plan, base + Periods(m, period), period, n, if m == 0 then currF else After(plan, currF))
    decreases m
  {
    if m > 0 {
      var s := After(plan, currF);
      assert After(plan, s) == s;
      RunSplit(plan, base + period, period, m - 1, n, s);
      assert base + period + Periods(m - 1, period) == base + Periods(m, period);
      AppendAssoc(Elide(plan, base, currF), Run(plan, base + period, period, m - 1, s),
                  Run(plan, base + Periods(m, period), period, n, s));
    }
  }

  /** Iteration `k` of the loop schedules one period of candidates at
      now + k periods, starting from 0 in the first iteration and from the
      contour's end frequency afterwards, between the first k periods and
      the rest. */
  lemma IterationBlock(c: Contour, period: real, duration: real, now: real, k: nat)
    requires duration > 0.0 ==> period > 0.0
    requires k < PeriodCount(period, duration)
    ensures Scheduled(c, period, duration, now)
         == Run(PeriodPlan(c, period), now, period, k, 0.0)
          + Elide(PeriodPlan(c, period), now + Periods(k, period), if k == 0 then 0.0 else c.fn)
          + Run(PeriodPlan(c, period), now + Periods(k + 1, period), period,
                PeriodCount(period, duration) - k - 1, c.fn)
  {
    var plan := PeriodPlan(c, period);
    var n := PeriodCount(period, duration);
    var s := After(plan, 0.0);
    assert s == c.fn;
    RunSplit(plan, now, period, k, n - k, 0.0);
    var before := Run(plan, now, period, k, 0.0);
    var cf := if k == 0 then 0.0 else s;
    var at := now + Periods(k, period);
    assert at + period == now + Periods(k + 1, period);
    var after := Run(plan, at + period, period, n - k - 1, s);
    assert Run(plan, at, period, n - k, cf) == Elide(plan, at, cf) + after;
    AppendAssoc(before, Elide(plan, at, cf), after);
  }

  /** Every instruction of a period is one of the candidates, moved to the
      period's start. */
  lemma {:induction false} ElideFromCandidates(plan: seq<Instr>, i: nat, base: real, currF: real)
    requires i <= |plan|
    ensures forall x :: x in ElideFrom(plan, i, base, currF) ==>
              exists j :: i <= j < |plan| && x == Shifted(plan[j], base)
    decreases |plan| - i
  {
    if i < |plan| {
      ElideFromCandidates(plan, i + 1, base, plan[i].value);
    }
  }

  /** The candidate instructions of one period, at their key times. */
  lemma ElideCandidateTimes(c: Contour, period: real, base: real, currF: real)
    ensures forall x :: x in Elide(PeriodPlan(c, period), base, currF) ==>
              x == Instr(base, c.f0, SetValue)
              || x == Instr(base + Stretched(c.t1, period), c.f1, ExponentialRamp)
              || x == Instr(base + Stretched(c.t1, period), c.f1b, SetValue)
              || x == Instr(base + Stretched(c.t2, period), c.f2, ExponentialRamp)
              || x == Instr(base + Stretched(c.t2, period), c.f2b, SetValue)
              || x == Instr(base + period, c.fn, ExponentialRamp)
  {
    var plan := PeriodPlan(c, period);
    ElideFromCandidates(plan, 0, base, currF);
    assert Shifted(plan[0], base) == Instr(base, c.f0, SetValue);
  }

  /** The first instruction is the jump to the start frequency at the start
      exactly when that frequency is not 0 (0 is the value the loop starts
      from). */
  lemma ScheduledStart(c: Contour, period: real, duration: real, now: real)
    requires duration > 0.0 && period > 0.0
    ensures var s := Scheduled(c, period, duration, now);
            (|s| > 0 && s[0] == Instr(now, c.f0, SetValue)) <==> c.f0 != 0.0
  {
    var plan := PeriodPlan(c, period);
    var n := PeriodCount(period, duration);
    var s := Scheduled(c, period, duration, now);
    var rest := Run(plan, now + period, period, n - 1, After(plan, 0.0));
    var tail := ElideFrom(plan, 1, now, c.f0);
    assert s == Elide(plan, now, 0.0) + rest;
    assert plan[0] == Instr(0.0, c.f0, SetValue);
    assert Shifted(plan[0], now) == Instr(now, c.f0, SetValue);
    assert ElideFrom(plan, 0, now, 0.0) == Keep(Shifted(plan[0], now), 0.0) + tail;
    assert Elide(plan, now, 0.0) == Keep(Instr(now, c.f0, SetValue), 0.0) + tail;
    if c.f0 != 0.0 {
      assert s[0] == Instr(now, c.f0, SetValue);
    } else {
      ScheduledSettles(c, period, duration, now);
      if |s| > 0 {
        assert s[0].value != 0.0;
      }
    }
  }
}
