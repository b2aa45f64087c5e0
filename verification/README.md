# wafxr frequency contour, modelled in Dafny

wafxr plays procedural sound effects on top of the Tone.js audio library.
Its `play` function takes a set of numeric settings. For a pitched source,
it turns the pitch settings into a timed sequence of instructions for the
oscillator's frequency control. That sequence is made of jumps
(`setValueAtTime`) and exponential ramps (`exponentialRampToValueAtTime`),
built in three stages:

1. **Contour planner.** It computes six key points on a unit period:
   - the start frequency `f0`;
   - the ramp target `f1` and the jumped value `f1b` at `t1`;
   - `f2` and `f2b` at `t2`;
   - the end frequency `fn` at 1.

   The sweep scales the end frequency. The two jumps are put into time
   order, each time kept with its own magnitude. A zero jump collapses
   onto the key time before it. Each jump's offset is folded into `fn`.
2. **Period computation.** The repeat rate is capped at 100 per second.
   The period is one over the rate, or the whole sound when no rate is
   given, and never longer than the sound.
3. **Scheduling loop.** It steps the current time one period at a time
   until the end of the sound. In each period it schedules the six key
   points, but skips any instruction whose value equals the last value
   scheduled.

The player also keeps a pool of three pitched and two noise instruments. Two
counters, one per pool, hand them out round-robin.

The model is split into these modules:

| file | module | contents |
|---|---|---|
| `contour.dfy` | `Contour` | The planner, written as an imperative method (`PlanContour`) and a declarative predicate it satisfies (`PlannedFrom`), plus the lemmas about key times and frequencies. |
| `scheduler.dfy` | `Scheduler` | The frequency control as a class that records its instructions. Also `doJump`/`doRamp`, the period rule, the scheduling loop (`ScheduleFrequency`) and its specification functions (`Elide`, `Run`, `Scheduled`, `PeriodCount`). |
| `schedule_properties.dfy` | `ScheduleProperties` | Elision, timing and block-structure properties of the schedule. |
| `fx.dfy` | `Instruments` | The instrument pool, its round-robin counters and `play`. |
| `scenarios.dfy` | `Scenarios` | Three end-to-end scenarios: a steady tone, a sweep with a midpoint jump, and a repeated contour. |

Times and frequencies are mathematical reals. The values the audio library
computes itself are parameters:
- **Ramp sampler.** The value an exponential ramp has at a given time is a
  `Sampler` function, and every member that interpolates takes it as an
  argument.
- **Start time.** The value of `Tone.now()` is the `now` parameter.

## Model

| member | source | states |
|---|---|---|
| Contour.FqInterpolate | wafxr.js:189-190 | At the ramp's own start time (`t == t0`) the result is the start value, whatever the sampler would give. |
| Contour.SweptEnd | wafxr.js:118 | With a zero or missing sweep, the swept end is the start frequency. |
| Contour.SweptEndScales | wafxr.js:118 | The swept end is `f0 * (1 + sweep)` with a missing sweep read as 0, so it lies `f0 * sweep` above the start. |
| Contour.Jumped | wafxr.js:134 | A zero jump leaves the frequency unchanged. |
| Contour.TimeOrdered | wafxr.js:127-130 | The result is time-ordered and is a permutation of the two jumps, each time kept with its own magnitude. Jumps at equal times keep their given order, because the swap happens only on a strict `<`. |
| Contour.PlanContour | wafxr.js:117-140 | The step-by-step planner meets `PlannedFrom`: jumps time-ordered, zero jumps collapsed, each `f*b = f* (1 + j*)`, each offset folded into `fn`. |
| Contour.PlannedFromUnique | wafxr.js:117-140 | The settings determine the contour completely. |
| Contour.OrderNormalised | wafxr.js:127-130 | For jumps at distinct times, exchanging the two jump definitions (time together with magnitude) plans the same contour, and the first jump is strictly earlier. |
| Contour.KeyTimesOrdered | wafxr.js:123-137 | A zero first jump sits at 0 and a zero second jump at `t1`. With both jump positions in [0, 1], `0 <= t1 <= t2 <= 1`. |
| Contour.ZeroJumpsAreSilent | wafxr.js:132-140 | A zero `j1` gives `f1 == f0 == f1b`, and a zero `j2` gives `f2 == f1b == f2b`, both through the interpolation shortcut. Zero jumps leave `fn` at the swept end. |
| Contour.EndFrequency | wafxr.js:133-140 | `fn` equals `f0 * (1 + sweep)` plus `f1 * j1` plus `f2 * j2`. The jump offsets are `f1b - f1 == f1 * j1` and `f2b - f2 == f2 * j2`. |
| Contour.SimultaneousJumpsCommute | wafxr.js:127-140 | Two nonzero jumps at the same time give the same `f2b` and `fn` whichever is labelled first. |
| Scheduler.FrequencySignal.SetValueAtTime | wafxr.js:180 | Appends one jump instruction and nothing else. |
| Scheduler.FrequencySignal.ExponentialRampToValueAtTime | wafxr.js:185 | Appends one ramp instruction and nothing else. |
| Scheduler.DoJump | wafxr.js:179-182 | Schedules one jump and returns the value it scheduled. |
| Scheduler.DoRamp | wafxr.js:184-187 | Schedules one ramp and returns the value it scheduled. |
| Scheduler.RepeatPeriod | wafxr.js:143-146 | See the period rule below the table. |
| Scheduler.NegativeRepeatNeverEnds | wafxr.js:145-146 | A negative rate gives a negative period. No number of such periods reaches a positive duration, so the loop at line 160 would never end. |
| Scheduler.PeriodCount | wafxr.js:152-168 | The number of loop iterations is the least `n` whose `n` periods reach the duration. It is 0 exactly when the duration is not positive. |
| Scheduler.PeriodCountLeast | wafxr.js:160 | The loop test `currT < end` holds after `k` iterations exactly when `k` is below the iteration count, so the loop ends with `currT >= end`. |
| Scheduler.Elide | wafxr.js:161-166 | One period schedules at most one instruction per candidate. |
| Scheduler.ScheduleFrequency | wafxr.js:149-168 | The loop appends exactly `Scheduled(c, period, duration, now)` to the frequency control, and nothing else. |
| Scheduler.SchedulePeriod | wafxr.js:161-166 | One loop body appends the elided candidates of the period at `currT` and leaves `currF` at `fn`. |
| Scheduler.ElideCandidates | wafxr.js:161-166 | Eliding the six candidates is the six guarded steps in order, each compared with the value before it. |
| Scheduler.JumpUnlessCurrent | wafxr.js:161 | A guarded jump appends the jump only when its value differs from `currF`, and leaves `currF` at the value. |
| Scheduler.RampUnlessCurrent | wafxr.js:162 | A guarded ramp appends the ramp only when its value differs from `currF`, and leaves `currF` at the value. |
| ScheduleProperties.ElideSettles | wafxr.js:161-166 | Within a period no instruction repeats the value before it. The last value scheduled is the last candidate's value. |
| ScheduleProperties.RunSettles | wafxr.js:160-168 | Over any number of periods no instruction repeats the value before it. After at least one period the current value is the period's last candidate. |
| ScheduleProperties.ScheduledSettles | wafxr.js:150-168 | The schedule never repeats the value before an instruction, and the first instruction differs from the initial 0. `currF` ends as the last scheduled value: `fn`, or 0 when nothing was scheduled. |
| ScheduleProperties.ElideOrdered | wafxr.js:161-166 | One period of a time-ordered plan within [0, period] gives non-decreasing times within [base, base + period]. |
| ScheduleProperties.RunOrdered | wafxr.js:160-168 | Periods of a time-ordered plan within [0, period] give non-decreasing times within [base, base + n periods]. |
| ScheduleProperties.PeriodPlanOrdered | wafxr.js:155-166 | With `0 <= t1 <= t2 <= 1`, one period's candidates are time-ordered within [0, period]. |
| ScheduleProperties.ScheduledOrdered | wafxr.js:151-168 | With `0 <= t1 <= t2 <= 1`, emitted times never decrease and lie in `[now, now + duration + period)`. |
| ScheduleProperties.NothingForNoDuration | wafxr.js:152-160 | A duration of 0 or less schedules nothing. |
| ScheduleProperties.RunSplit | wafxr.js:160-168 | `m + n` periods are `m` periods followed by `n` periods, starting `m` periods later from the period's last candidate value. |
| ScheduleProperties.IterationBlock | wafxr.js:160-168 | Iteration `k` schedules the elided candidates at `now + k` periods. It starts from 0 in the first iteration and from `fn` afterwards. |
| ScheduleProperties.ElideCandidateTimes | wafxr.js:161-166 | Every instruction of a period is at `base + {0, t1*period, t2*period, period}`, with the kind and value that belong to that key point. |
| ScheduleProperties.ScheduledStart | wafxr.js:150-161 | For a positive duration, the first instruction is the jump to `f0` at `now` exactly when `f0 != 0`. |
| Instruments.Synth.constructor | wafxr.js:30 | A new pitched instrument has a fresh frequency control with no instructions. |
| Instruments.RoundRobin | wafxr.js:38-45 | The item handed out is one of the pool's items. |
| Instruments.RoundRobinPeriodic | wafxr.js:40 | Every item is handed out again exactly pool-size calls later. |
| Instruments.RoundRobinWindow | wafxr.js:40 | With distinct items, no item is handed out twice within fewer than pool-size calls. |
| Instruments.SoundDuration | wafxr.js:59-60 | The sound length exceeds the hold time (duration + attack + decay) by exactly the release, and with non-negative attack, decay and release it is at least the duration. |
| Instruments.MentionsNoise | wafxr.js:91 | The source test holds exactly when "noise" occurs somewhere in the source name. |
| Instruments.NoiseInTail | wafxr.js:91 | When "noise" is not at the start, it occurs in the source exactly when it occurs after the first character, so the test may move on one character. |
| Instruments.FX.constructor | wafxr.js:28-45 | The pools hold 3 distinct pitched instruments, each with its own fresh and empty frequency control, and 2 distinct noise instruments; both counters start at 0. |
| Instruments.FX.GetSynth | wafxr.js:38-41 | The `k`-th call (0-based) returns `synths[k % 3]` and advances only the pitched counter. |
| Instruments.FX.GetNoise | wafxr.js:42-45 | The `k`-th call (0-based) returns `noises[k % 2]` and advances only the noise counter. |
| Instruments.FX.Play | wafxr.js:57-168 | A noise source takes the next noise instrument and changes no frequency control. Any other source takes the next pitched instrument. Its frequency control receives the schedule of the planned contour for the sound's full length: duration, attack, decay and release. |
| Scenarios.SteadyTone | wafxr.js:117-168 | 440 Hz with no sweep, jumps or repeat over one second schedules exactly one jump to 440 at 0. |
| Scenarios.MidpointJump | wafxr.js:117-168 | 220 Hz swept to 440 over two seconds, with jumps by 0.5 and 0 at the midpoint, schedules four instructions (listed below the table). |
| Scenarios.MidpointContour | wafxr.js:117-140 | For that scenario the planner puts both key times at 0.5, jumps the sampled midpoint `f1` to `1.5 * f1`, keeps the zero jump silent and ends at `440 + 0.5 * f1`. |
| Scenarios.MidpointSchedule | wafxr.js:149-168 | A contour with those key points, over one period of two seconds, schedules the four instructions. |
| Scenarios.FourPerSecond | wafxr.js:143-146 | A rate of 4 over two seconds gives a period of 0.25. |
| Scenarios.RepeatedContour | wafxr.js:143-168 | A rate of 4 over two seconds gives a period of 0.25 and 8 iterations. Iteration `k` schedules the same candidates at `0.25 * k`. |

The period rule (Scheduler.RepeatPeriod):
- The period never exceeds the duration.
- With no rate (or a zero rate) it equals the duration.
- A positive rate gives at least 0.01, or the duration.
- With a non-negative rate and a positive duration it is positive.
- A rate in (0, 100] whose reciprocal fits the duration gives `1 / rate`.
- A rate of 100 or more gives 0.01, or the duration if that is shorter.
- A rate in (0, 100] whose reciprocal exceeds the duration gives the duration.

The four instructions of Scenarios.MidpointJump:
1. jump to 220 at 0;
2. ramp to `f1` at 1;
3. jump to `1.5 * f1` at 1;
4. ramp to `440 + 0.5 * f1` at 2.

This holds when the sampled midpoint `f1` is not 0, 220 or 440.

Four points about what the code does:
- **Sound length.** The code takes it as duration + attack + decay +
  release (wafxr.js:59-60).
- **Jump positions.** These are fractions of the repeat period, not of the
  whole sound, because they are scaled by `period` (wafxr.js:155-156).
- **Interpolation target.** The first interpolation uses the swept end
  before any jump offset (wafxr.js:133). The second uses `fn` after the
  first offset (wafxr.js:138).
- **Domain.** The code is not defined on the full numeric domain: a
  negative repeat rate never ends the loop when the sound length is positive
  (Scheduler.NegativeRepeatNeverEnds).

## Left out

- The Tone.js graph and effect settings (wafxr.js:11-36, 62-88, 175-177) are not modelled: gain, bit-crusher, tremolo, vibrato, filters, master volume and `rampParam` are calls into a library that is not part of this model.
- The `window` globals (wafxr.js:47-49) are left out; they are browser plumbing.
- The noise branch's noise type, envelope and `triggerAttackRelease(holdTime)` (wafxr.js:94-100) are left out; they are foreign calls. The model keeps only the choice of instrument.
- The pitched branch's oscillator type and harmonics, envelope and `triggerAttackRelease(0, holdTime)` (wafxr.js:105-113) are left out; they are foreign calls.
- Instruments.FX.Play: its `ensures` that the frequency control's instructions are the old ones followed by the schedule leaves out whatever `synth.triggerAttackRelease(0, holdTime)` (wafxr.js:113) does to the same frequency control. It presumably sets the note frequency 0 at `now`, which would match the initial `currF = 0` (wafxr.js:150); Tone.js is not part of this model, so this is not verified.
- The exponential ramp numerics of `fqInterpolate` (wafxr.js:191-193) are left out. They are computed by Tone's `TimelineSignal`, so the model takes the sampler as a parameter. The writes to the shared scratch signal are not modelled either.
- `Tone.now()` (wafxr.js:151) is the parameter `now`.
- Floating point is left out. Times and frequencies are reals, so `currT += period` accumulates no rounding error, and the iteration count is exactly the least `n` with `n * period >= duration`.
- The JavaScript counters `i` of the pool are unbounded naturals; precision loss beyond 2^53 calls is not modelled.
- Instruments.FX.Play requires a non-negative repeat rate when the sound length is positive, and Scheduler.ScheduleFrequency requires a positive period when the duration is positive. Otherwise the loop runs forever, as Scheduler.NegativeRepeatNeverEnds shows for a negative rate. The settings are otherwise total: missing optional numbers are `None`, and `jumpAt1`/`jumpAt2` are numbers.
- Scheduler.ScheduleFrequency factors the loop body into Scheduler.SchedulePeriod, and the six guarded calls into Scheduler.JumpUnlessCurrent and Scheduler.RampUnlessCurrent. The instructions and their order are the loop's own.
- Values that are not numbers (`NaN`, `undefined` used arithmetically) are not modelled; JavaScript truthiness of `s.sweep` and `repeat` is modelled as "present and nonzero".
