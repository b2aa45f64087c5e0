/** The player object: a pool of three pitched instruments and two noise
    instruments handed out round-robin, and `play`, which picks an
    instrument for the settings' source and, for a pitched source, plans
    the frequency contour and schedules it on that instrument's frequency
    control. */
module Instruments {
  import opened Contour
  import opened Scheduler

  /** A pitched instrument; of its state only the frequency control is
      modelled. */
  class Synth {
    const frequency: FrequencySignal

    constructor ()
      ensures fresh(frequency) && frequency.events == []
    {
      frequency := new FrequencySignal();
    }
  }

  /** A noise instrument; its noise type and envelope are not modelled. */
  class NoiseSynth {
    constructor ()
    {
    }
  }

  /** The item a round-robin counter that has been called `k` times before
      hands out next. */
  function RoundRobin<T>(items: seq<T>, k: nat): (x: T)
    requires |items| > 0
    ensures x in items
  {
    items[k % |items|]
  }

  /** Every item is handed out again exactly `|items|` calls later. */
  lemma RoundRobinPeriodic<T>(items: seq<T>, k: nat)
    requires |items| > 0
    ensures RoundRobin(items, k + |items|) == RoundRobin(items, k)
  {
    var n := |items|;
    assert k == (k / n) * n + k % n;
    assert k + n == (k / n + 1) * n + k % n;
    ModOf(k + n, k / n + 1, k % n, n);
  }

  /** Distinct items are not reused within fewer than `|items|` calls. */
  lemma RoundRobinWindow<T>(items: seq<T>, j: nat, k: nat)
    requires |items| > 0
    requires forall a, b :: 0 <= a < b < |items| ==> items[a] != items[b]
    requires j < k < j + |items|
    ensures RoundRobin(items, j) != RoundRobin(items, k)
  {
    var n := |items|;
    var q, r := j / n, j % n;
    assert j == q * n + r;
    if r + (k - j) < n {
      assert k == q * n + (r + (k - j));
      ModOf(k, q, r + (k - j), n);
    } else {
      assert k == (q + 1) * n + (r + (k - j) - n);
      ModOf(k, q + 1, r + (k - j) - n, n);
    }
  }

  /** The remainder of `q * n + r` for `0 <= r < n`. */
  lemma ModOf(k: nat, q: int, r: int, n: nat)
    requires n > 0 && 0 <= r < n && k == q * n + r
    ensures k % n == r
  {
    var d := k / n - q;
    assert k == (k / n) * n + k % n;
    assert d * n == r - k % n by {
      assert (k / n) * n - q * n == d * n;
    }
    if d >= 1 {
      MulAtLeast(d, n);
    } else if d <= -1 {
      MulAtLeast(-d, n);
    }
  }

  lemma {:induction false} MulAtLeast(d: int, n: int)
    requires d >= 1 && n > 0
    ensures d * n >= n
  {
    if d > 1 {
      MulAtLeast(d - 1, n);
      assert d * n == (d - 1) * n + n;
    }
  }

  /** The settings `play` reads. Optional numbers a JavaScript caller may
      leave out are `Option`s; `source` names the sound source. */
  datatype Settings = Settings(
    frequency: real, sweep: Option<real>,
    jumpAt1: real, jumpAt2: real, jumpBy1: Option<real>, jumpBy2: Option<real>,
    repeat: Option<real>,
    duration: real, attack: real, decay: real, release: real,
    source: string)

  /** The length of the whole sound: the hold time (duration, attack and
      decay) plus the release. */
  function SoundDuration(s: Settings): (d: real)
    ensures d - s.release == s.duration + s.attack + s.decay
    ensures s.attack >= 0.0 && s.decay >= 0.0 && s.release >= 0.0 ==> d >= s.duration
  {
    var holdTime := s.duration + s.attack + s.decay;
    holdTime + s.release
  }

  /** "noise" occurs in `source` at position `i`. */
  ghost predicate NoiseAt(source: string, i: int)
  {
    0 <= i <= |source| - 5 && source[i..i + 5] == "noise"
  }

  /** Whether `source` contains "noise" anywhere, as the regular expression
      test that picks the noise branch does: it looks at the start, then
      at the rest of the string. */
  function MentionsNoise(source: string): (b: bool)
    ensures b <==> exists i :: NoiseAt(source, i)
    decreases |source|
  {
    if |source| < 5 then false
    else if source[..5] == "noise" then
      assert NoiseAt(source, 0);
      true
    else
      NoiseInTail(source);
      MentionsNoise(source[1..])
  }

  /** When "noise" is not at the start, it occurs in the string exactly
      when it occurs in the string without its first character. */
  lemma NoiseInTail(source: string)
    requires |source| >= 5 && source[..5] != "noise"
    ensures (exists i :: NoiseAt(source, i)) <==> (exists i :: NoiseAt(source[1..], i))
  {
    var tail := source[1..];
    if exists i :: NoiseAt(tail, i) {
      var i :| NoiseAt(tail, i);
      assert source[i + 1..i + 6] == tail[i..i + 5];
      assert NoiseAt(source, i + 1);
    }
    if exists i :: NoiseAt(source, i) {
      var i :| NoiseAt(source, i);
      if i > 0 {
        assert tail[i - 1..i + 4] == source[i..i + 5];
        assert NoiseAt(tail, i - 1);
      }
    }
  }

  /** The player with its instrument pool. `synthCalls` and `noiseCalls`
      are the counters of the two round-robin closures. */
  class FX {
    const synths: seq<Synth>
    const noises: seq<NoiseSynth>
    var synthCalls: nat
    var noiseCalls: nat

    /** Three distinct pitched instruments, each with its own frequency
        control, and two distinct noise instruments. */
    ghost predicate Valid()
      reads this
    {
      && |synths| == 3 && |noises| == 2
      && (forall a, b :: 0 <= a < b < |synths| ==> synths[a] != synths[b])
      && (forall a, b :: 0 <= a < b < |synths| ==> synths[a].frequency != synths[b].frequency)
      && (forall a, b :: 0 <= a < b < |noises| ==> noises[a] != noises[b])
    }

    /** Fills the pools and starts both counters at 0. */
    constructor ()
      ensures Valid()
      ensures synthCalls == 0 && noiseCalls == 0
      ensures forall i :: 0 <= i < |synths| ==> fresh(synths[i]) && fresh(synths[i].frequency)
      ensures forall i :: 0 <= i < |synths| ==> synths[i].frequency.events == []
    {
      var ss: seq<Synth> := [];
      while |ss| < 3
        invariant |ss| <= 3
        invariant forall a, b :: 0 <= a < b < |ss| ==> ss[a] != ss[b]
        invariant forall a, b :: 0 <= a < b < |ss| ==> ss[a].frequency != ss[b].frequency
        invariant forall i :: 0 <= i < |ss| ==> fresh(ss[i]) && fresh(ss[i].frequency)
        invariant forall i :: 0 <= i < |ss| ==> ss[i].frequency.events == []
      {
        var s := new Synth();
        ss := ss + [s];
      }
      var ns: seq<NoiseSynth> := [];
      while |ns| < 2
        invariant |ns| <= 2
        invariant forall i :: 0 <= i < |ss| ==> ss[i].frequency.events == []
        invariant forall a, b :: 0 <= a < b < |ns| ==> ns[a] != ns[b]
        invariant forall i :: 0 <= i < |ns| ==> fresh(ns[i])
      {
        var n := new NoiseSynth();
        ns := ns + [n];
      }
      synths, noises := ss, ns;
      synthCalls, noiseCalls := 0, 0;
    }

    /** The next pitched instrument, round-robin. */
    method GetSynth() returns (s: Synth)
      requires Valid()
      modifies this
      ensures Valid()
      ensures s == RoundRobin(synths, old(synthCalls))
      ensures synthCalls == old(synthCalls) + 1 && noiseCalls == old(noiseCalls)
    {
      s := synths[synthCalls % |synths|];
      synthCalls := synthCalls + 1;
    }

    /** The next noise instrument, round-robin. */
    method GetNoise() returns (n: NoiseSynth)
      requires Valid()
      modifies this
      ensures Valid()
      ensures n == RoundRobin(noises, old(noiseCalls))
      ensures noiseCalls == old(noiseCalls) + 1 && synthCalls == old(synthCalls)
    {
      n := noises[noiseCalls % |noises|];
      noiseCalls := noiseCalls + 1;
    }

    /** Plays one sound at time `now`. A source mentioning "noise" takes the
        next noise instrument. Any other source takes the next pitched
        instrument; its frequency control is given the planned contour,
        repeated over the whole sound. */
    method Play(s: Settings, now: real, sample: Sampler)
      requires Valid()
      requires SoundDuration(s) > 0.0 ==> OrZero(s.repeat) >= 0.0
      modifies this, RoundRobin(synths, synthCalls).frequency
      ensures Valid()
      ensures MentionsNoise(s.source) ==>
                && noiseCalls == old(noiseCalls) + 1 && synthCalls == old(synthCalls)
                && RoundRobin(synths, old(synthCalls)).frequency.events
                   == old(RoundRobin(synths, synthCalls).frequency.events)
      ensures !MentionsNoise(s.source) ==>
                && synthCalls == old(synthCalls) + 1 && noiseCalls == old(noiseCalls)
                && exists c: Contour ::
                     && PlannedFrom(c, sample, s.frequency, s.sweep, s.jumpAt1, s.jumpAt2, s.jumpBy1, s.jumpBy2)
                     && RoundRobin(synths, old(synthCalls)).frequency.events
                        == old(RoundRobin(synths, synthCalls).frequency.events)
                           + Scheduled(c, RepeatPeriod(s.repeat, SoundDuration(s)), SoundDuration(s), now)
    {
      if MentionsNoise(s.source) {
        var noise := GetNoise();
      } else {
        var synth := GetSynth();
        var c := PlanContour(sample, s.frequency, s.sweep, s.jumpAt1, s.jumpAt2, s.jumpBy1, s.jumpBy2);
        var duration := SoundDuration(s);
        var period := RepeatPeriod(s.repeat, duration);
        ScheduleFrequency(synth.frequency, c, period, duration, now);
      }
    }
  }
}
