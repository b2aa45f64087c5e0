/** The contour planner of the pitched-oscillator branch of `play`: from the
    sweep and jump settings it derives the key (time, frequency) points of one
    unit period. */
module Contour {

  /** An optional setting: JavaScript reads a missing field as `undefined`. */
  datatype Option<T> = None | Some(value: T)

  /** The JavaScript idiom `x || 0` on an optional number. */
  function OrZero(x: Option<real>): (r: real)
    ensures x.None? ==> r == 0.0
    ensures x.Some? ==> r == x.value
  {
    match x
    case None => 0.0
    case Some(v) => v
  }

  /** The ramp sampler of the audio library: the value that a signal set to
      `f0` at time 0 and ramped exponentially to `fn` between time 0 and time
      `span` has at time `at`. Its numerics are the library's own and are
      not part of this model; it is a parameter of every member that
      interpolates. */
  type Sampler = (real, real, real, real) -> real

  /** The value an exponential ramp from (`t0`, `f0`) to (`tn`, `fn`) has at
      time `t`. At the ramp's own start the start value is returned without
      consulting the sampler. */
  function FqInterpolate(sample: Sampler, t0: real, tn: real, f0: real, fn: real, t: real): (f: real)
    ensures t == t0 ==> f == f0
  {
    if t == t0 then f0 else sample(f0, fn, tn - t0, t - t0)
  }

  /** The end frequency of the sweep before any jump: a truthy sweep ratio
      scales the start frequency by (1 + sweep). */
  function SweptEnd(f0: real, sweep: Option<real>): (fn: real)
    ensures OrZero(sweep) == 0.0 ==> fn == f0
  {
    if sweep.Some? && sweep.value != 0.0 then f0 * (1.0 + sweep.value) else f0
  }

  /** The frequency `f` scaled by a relative change `j`: f * (1 + j). */
  function Jumped(f: real, j: real): (g: real)
    ensures j == 0.0 ==> g == f
  {
    f * (1.0 + j)
  }

  /** Whether the sweep is given or not, the swept end is the start
      frequency scaled by (1 + sweep), a missing sweep counting as zero. */
  lemma SweptEndScales(f0: real, sweep: Option<real>)
    ensures SweptEnd(f0, sweep) == f0 * (1.0 + OrZero(sweep))
    ensures SweptEnd(f0, sweep) - f0 == f0 * OrZero(sweep)
  {
  }

  /** A jump definition: where in the period it happens and by how much it
      scales the frequency (a relative multiplier). */
  datatype Jump = Jump(at: real, amount: real)

  /** The two jumps in time order, each time kept with its own magnitude;
      jumps at the same time keep the order they were given in. */
  function TimeOrdered(a: Jump, b: Jump): (r: (Jump, Jump))
    ensures r.0.at <= r.1.at
    ensures (r.0 == a && r.1 == b) || (r.0 == b && r.1 == a)
    ensures a.at == b.at ==> r == (a, b)
  {
    if b.at < a.at then (b, a) else (a, b)
  }

  /** The key points of one unit period: (0, f0), (t1, f1), (t1, f1b),
      (t2, f2), (t2, f2b), (1, fn). `first` and `second` are the two jump
      definitions after order normalisation, before zero jumps collapse. */
  datatype Contour = Contour(
    first: Jump, second: Jump,
    f0: real,
    t1: real, f1: real, f1b: real,
    t2: real, f2: real, f2b: real,
    fn: real)

  /** The contour that the settings determine, stated declaratively.
      The two jumps are the given ones, earlier one first and ties in the
      given order; a zero jump takes the time of the key point before it;
      each jump scales the interpolated baseline and shifts the end
      frequency by the same amount. */
  ghost predicate PlannedFrom(c: Contour, sample: Sampler, f0: real, sweep: Option<real>,
                              jumpAt1: real, jumpAt2: real, jumpBy1: Option<real>, jumpBy2: Option<real>)
  {
    var a := Jump(jumpAt1, OrZero(jumpBy1));
    var b := Jump(jumpAt2, OrZero(jumpBy2));
    var swept := SweptEnd(f0, sweep);
    && (c.first, c.second) == TimeOrdered(a, b)
    && c.t1 == (if c.first.amount == 0.0 then 0.0 else c.first.at)
    && c.t2 == (if c.second.amount == 0.0 then c.t1 else c.second.at)
    && c.f0 == f0
    && c.f1 == FqInterpolate(sample, 0.0, 1.0, f0, swept, c.t1)
    && c.f1b == Jumped(c.f1, c.first.amount)
    && c.f2 == FqInterpolate(sample, c.t1, 1.0, c.f1b, swept + (c.f1b - c.f1), c.t2)
    && c.f2b == Jumped(c.f2, c.second.amount)
    && c.fn == swept + (c.f1b - c.f1) + (c.f2b - c.f2)
  }

  /** Computes the key points step by step, as the oscillator branch of
      `play` does with its local variables. */
  method PlanContour(sample: Sampler, f0: real, sweep: Option<real>,
                     jumpAt1: real, jumpAt2: real, jumpBy1: Option<real>, jumpBy2: Option<real>)
    returns (c: Contour)
    ensures PlannedFrom(c, sample, f0, sweep, jumpAt1, jumpAt2, jumpBy1, jumpBy2)
  {
    var fn := SweptEnd(f0, sweep);
    var t0, tn := 0.0, 1.0;

    var t1 := tn * jumpAt1;
    var t2 := tn * jumpAt2;
    assert t1 == jumpAt1 && t2 == jumpAt2 by { assert tn == 1.0; }
    var j1 := OrZero(jumpBy1);
    var j2 := OrZero(jumpBy2);
    if t2 < t1 {
      var temp := t1; t1 := t2; t2 := temp;
      temp := j1; j1 := j2; j2 := temp;
    }
    var first, second := Jump(t1, j1), Jump(t2, j2);
    assert (first, second) == TimeOrdered(Jump(jumpAt1, OrZero(jumpBy1)), Jump(jumpAt2, OrZero(jumpBy2)));
    ghost var swept := fn;

    if j1 == 0.0 { t1 := 0.0; }
    var f1 := FqInterpolate(sample, t0, tn, f0, fn, t1);
    var f1b := Jumped(f1, j1);
    fn := fn + (f1b - f1);

    if j2 == 0.0 { t2 := t1; }
    var f2 := FqInterpolate(sample, t1, tn, f1b, fn, t2);
    var f2b := Jumped(f2, j2);
    fn := fn + (f2b - f2);

    c := Contour(first, second, f0, t1, f1, f1b, t2, f2, f2b, fn);
  }

  /** The settings determine the contour: planning twice gives the same key
      points. */
  lemma PlannedFromUnique(c: Contour, d: Contour, sample: Sampler, f0: real, sweep: Option<real>,
                          jumpAt1: real, jumpAt2: real, jumpBy1: Option<real>, jumpBy2: Option<real>)
    requires PlannedFrom(c, sample, f0, sweep, jumpAt1, jumpAt2, jumpBy1, jumpBy2)
    requires PlannedFrom(d, sample, f0, sweep, jumpAt1, jumpAt2, jumpBy1, jumpBy2)
    ensures c == d
  {
    assert c.first == d.first && c.second == d.second;
    assert c.t1 == d.t1 && c.t2 == d.t2;
    assert c.f1 == d.f1;
    assert c.f1b == d.f1b;
    assert c.f2 == d.f2;
  }

  /** Order normalisation: exchanging the labels of two jumps at distinct
      times (each time together with its own magnitude) plans the same
      contour. */
  lemma OrderNormalised(c: Contour, sample: Sampler, f0: real, sweep: Option<real>,
                        jumpAt1: real, jumpAt2: real, jumpBy1: Option<real>, jumpBy2: Option<real>)
    requires jumpAt1 != jumpAt2
    requires PlannedFrom(c, sample, f0, sweep, jumpAt1, jumpAt2, jumpBy1, jumpBy2)
    ensures PlannedFrom(c, sample, f0, sweep, jumpAt2, jumpAt1, jumpBy2, jumpBy1)
    ensures c.first.at < c.second.at
  {
  }

  /** Key times: a zero first jump is anchored at the start, a zero second
      jump at the first; with both jump positions in the unit period the key
      times are ordered 0 <= t1 <= t2 <= 1. */
  lemma KeyTimesOrdered(c: Contour, sample: Sampler, f0: real, sweep: Option<real>,
                        jumpAt1: real, jumpAt2: real, jumpBy1: Option<real>, jumpBy2: Option<real>)
    requires PlannedFrom(c, sample, f0, sweep, jumpAt1, jumpAt2, jumpBy1, jumpBy2)
    ensures c.first.amount == 0.0 ==> c.t1 == 0.0
    ensures c.second.amount == 0.0 ==> c.t2 == c.t1
    ensures 0.0 <= jumpAt1 <= 1.0 && 0.0 <= jumpAt2 <= 1.0 ==> 0.0 <= c.t1 <= c.t2 <= 1.0
  {
  }

  /** Zero jumps are no-ops: through the interpolator's shortcut a zero first
      jump gives f1 == f0 == f1b and a zero second jump gives
      f2 == f1b == f2b, and neither moves the end frequency. */
  lemma ZeroJumpsAreSilent(c: Contour, sample: Sampler, f0: real, sweep: Option<real>,
                           jumpAt1: real, jumpAt2: real, jumpBy1: Option<real>, jumpBy2: Option<real>)
    requires PlannedFrom(c, sample, f0, sweep, jumpAt1, jumpAt2, jumpBy1, jumpBy2)
    ensures c.first.amount == 0.0 ==> c.f1 == f0 && c.f1b == f0
    ensures c.second.amount == 0.0 ==> c.f2 == c.f1b && c.f2b == c.f1b
    ensures c.first.amount == 0.0 && c.second.amount == 0.0 ==> c.fn == SweptEnd(f0, sweep)
    ensures OrZero(jumpBy1) == 0.0 && OrZero(jumpBy2) == 0.0 ==> c.fn == SweptEnd(f0, sweep)
  {
  }

  /** The end frequency is the swept end plus the offset each jump adds at
      its own key time; the jump offsets are f1*j1 and f2*j2. */
  lemma EndFrequency(c: Contour, sample: Sampler, f0: real, sweep: Option<real>,
                     jumpAt1: real, jumpAt2: real, jumpBy1: Option<real>, jumpBy2: Option<real>)
    requires PlannedFrom(c, sample, f0, sweep, jumpAt1, jumpAt2, jumpBy1, jumpBy2)
    ensures c.fn == f0 * (1.0 + OrZero(sweep)) + c.f1 * c.first.amount + c.f2 * c.second.amount
    ensures c.f1b - c.f1 == c.f1 * c.first.amount && c.f2b - c.f2 == c.f2 * c.second.amount
  {
  }

  /** Two jumps at the same time compose: whichever is labelled first, the
      frequency after both and the end frequency are the same. */
  lemma SimultaneousJumpsCommute(c: Contour, d: Contour, sample: Sampler, f0: real, sweep: Option<real>,
                                 at: real, jumpBy1: Option<real>, jumpBy2: Option<real>)
    requires OrZero(jumpBy1) != 0.0 && OrZero(jumpBy2) != 0.0
    requires PlannedFrom(c, sample, f0, sweep, at, at, jumpBy1, jumpBy2)
    requires PlannedFrom(d, sample, f0, sweep, at, at, jumpBy2, jumpBy1)
    ensures c.t1 == c.t2 == d.t1 == d.t2 == at
    ensures c.f2b == d.f2b && c.fn == d.fn
  {
    var x, y := OrZero(jumpBy1), OrZero(jumpBy2);
    assert c.f1 == d.f1;
    assert c.f2 == c.f1b && d.f2 == d.f1b;
    calc {
      c.f2b;
      c.f1 * (1.0 + x) * (1.0 + y);
      { assert (1.0 + x) * (1.0 + y) == (1.0 + y) * (1.0 + x); }
      d.f1 * (1.0 + y) * (1.0 + x);
      d.f2b;
    }
  }
}
