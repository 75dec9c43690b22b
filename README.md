# music-timer, modelled in Dafny

A model of the core of the `music-timer` crate: musical time (bar, beat,
beat interval) advanced against a time signature, and the drift-compensated
pulse engine that turns elapsed time into one-interval advances and ordered
observer callbacks.

| Dafny file | module | Rust source |
|---|---|---|
| `integers.dfy` | `Integers` | the `u8` / `u16` field types |
| `time_signature.dfy` | `TimeSignatures` | `src/time_signature.rs` |
| `music_time.dfy` | `MusicTimes` | `src/music_time.rs` |
| `music_time_counter.dfy` | `MusicTimeCounters` | `src/music_time_counter.rs` |
| `music_timer_engine.dfy` | `MusicTimerEngines` | `src/music_timer_engine.rs` |

How the Rust maps to Dafny:

- `TimeSignature` and `MusicTime` are `Copy` values, so they are datatypes. Their
  `new` is the datatype constructor and their getters are its destructors
  (`numerator`, `bar`, `beat`, `beatInterval`, ...). The hand-written `PartialEq`
  impls are the `Equals` predicates; lemmas show they coincide with `==`.
- `MusicTime::advance_beat` and `advance_beat_interval` take `&mut self` on a
  `Copy` value. They are functions returning the updated value. The in-place
  update happens in `MusicTimeCounter`, a class whose methods reassign its
  `currentTime` field. The signature is a `const` field, so it cannot change.
- `MusicTimerEngine` is a class with the Rust fields. `start_time` is dropped
  (see below). `Pulse(now)` runs the Rust statements in order and returns the
  observer callbacks as a sequence of `Event`s:
  `OnBeatInterval(t) | OnBeat(t) | OnBar(t)`.
  `State()` reads the fields as an `EngineState` value. `PulseStep` is the
  value-level specification of one pulse, and `Pulse` is proved equal to it.
  A ghost field `advances` counts the advancing pulses. `Valid()` states the
  drift balance: `eventTriggerTime + advances * target == target + totalTime`.
- `Run` chains pulses. The lemmas about runs state the engine's promises:
  the drift balance, a bounded drift when the caller polls often enough, one
  interval per advance, and one beat-interval callback per advance.
- `IntervalIndex` numbers the intervals from the start of bar 0. It is the
  reference meaning of the carry arithmetic: an in-range advance moves it by
  exactly one, and two in-range times with the same index are equal.
- Time is a `nat` count of nanoseconds since the engine started. The trigger
  target is a positive `nat`, standing in for the float-derived duration.
- Integer widths: `u8` and `u16` are subset types. Rust's overflow panics
  become preconditions:
  - `bar += 1` at bar 65535: `CanAdvanceBeat`, `CanAdvanceBeatInterval` and `CanPulse`.
  - The 16-bit weighted sum in `partial_cmp`: `WeightedSumFits`.

Behaviour reproduced as written:

- The bar check in `pulse` is `previous.bar == now.bar`
  (src/music_timer_engine.rs:128). Once the remembered time has caught up
  with the current one, `OnBar` is emitted on every advance inside a bar and
  is missing at a bar line (`SyncedPulseEvents`, `BarEventExamples`).
- A new counter starts at `(0, numerator, 8)`, not at `(1, 1, 1)`. Its first
  advance reaches `(1, 1, 1)`. The first pulse of a new engine therefore
  reports `OnBeatInterval((0, n, 8))` and then `OnBeat((1, 1, 1))`, with no `OnBar`.
- The order compares `bar*100 + beat*10 + beat_interval`. This matches
  lexicographic order only while beat and interval are single digits
  (`PartialCmpIsLexicographic`, `TwoDigitBeatCollides`).
- `set_music_timer` calls `counter.set_current_time`, but
  `src/music_time_counter.rs` defines no such method. `SetMusicTimer` gives
  the evident meaning: it overwrites the counter's current time and touches
  nothing else.

## Model

| member | source | states |
|---|---|---|
| `TimeSignatures.TimeSignature.Default` | src/time_signature.rs:68-76 | the default signature is 4/4, and it is valid |
| `TimeSignatures.NewStoresArguments` | src/time_signature.rs:25-59 | `new` keeps numerator and denominator verbatim; the getters and `as_tuple` return them |
| `TimeSignatures.AsTupleRoundTrip` | src/time_signature.rs:57-59 | rebuilding a signature from `as_tuple` gives the same signature |
| `TimeSignatures.NewPerformsNoValidation` | src/time_signature.rs:32-44 | construction accepts a signature that `is_valid` rejects |
| `TimeSignatures.IsValidIffNoteValue` | src/time_signature.rs:35-44 | valid iff numerator > 0 and denominator is 2^k for some k in 1..5 (i.e. 2, 4, 8, 16 or 32), both directions |
| `TimeSignatures.EqualsIsStructural` | src/time_signature.rs:62-66 | the fieldwise `eq` holds exactly when the two signatures are equal |
| `TimeSignatures.SourceExamples` | src/time_signature.rs:78-94 | the default is valid; (4,5) and (0,2) are invalid; default equals (4,4); (3,4) differs from (4,4) |
| `MusicTimes.MusicTime.Default` | src/music_time.rs:131-140 | the default is (1,1,1); it is in range for every signature with a positive numerator, and it is the first interval of bar 1 |
| `MusicTimes.NewStoresArguments` | src/music_time.rs:26-47 | `new` keeps bar, beat and beat interval verbatim, and the getters return them |
| `MusicTimes.MusicTime.AdvanceBeat` | src/music_time.rs:70-77 | the interval never changes; at or past the numerator the beat becomes 1 and the bar goes up by one, otherwise the beat goes up by one and the bar stays; an in-range time stays in range and moves exactly one beat forward |
| `MusicTimes.MusicTime.AdvanceBeatInterval` | src/music_time.rs:104-112 | below 8 only the interval goes up by one; at 8 or above the interval becomes 1 and bar and beat are those of one beat advance; an in-range time stays in range and moves exactly one interval forward |
| `MusicTimes.EqualsIsStructural` | src/music_time.rs:115-121 | the fieldwise `eq` holds exactly when the two times are equal |
| `MusicTimes.EqualityExamples` | src/music_time.rs:160-174 | (1,2,3) equals (1,2,3); the default equals itself and has bar 1; (2,1,1) differs from (2,3,2) |
| `MusicTimes.PartialCmpIsLexicographic` | src/music_time.rs:123-129 | with single-digit beat and interval and no 16-bit overflow, the weighted order is the (bar, beat, interval) lexicographic order, and it reports Equal only for equal times |
| `MusicTimes.TwoDigitBeatCollides` | src/music_time.rs:123-129 | with beat 10, (1,10,1) and (2,0,1) compare Equal, although they differ and are lexicographically ordered |
| `MusicTimes.WeightedSumBound` | src/music_time.rs:124-126 | the 16-bit sum fits when bar <= 654 and both digits are at most 9, and overflows whenever bar >= 656 |
| `MusicTimes.OrderExamples` | src/music_time.rs:142-158 | the source's `<`, `>`, `<=`, `>=` cases on bars, beats and intervals hold |
| `MusicTimes.AdvanceBeatIntervalIncreasesOrder` | src/music_time.rs:104-129 | with a numerator of at most 9 and in-range fields, an interval advance compares strictly greater |
| `MusicTimes.AdvanceBeatExamples` | src/music_time.rs:176-213 | from the default time, four beat advances in 4/4, 3/4 and 1/4 give the bars and beats the source checks |
| `MusicTimes.AdvanceBeatIntervalExamples` | src/music_time.rs:215-231 | from (1,1,1) in 4/4, one interval advance gives (1,1,2), seven give (1,1,8) and the eighth gives (1,2,1) |
| `MusicTimes.AdvanceIntervalsIndex` | src/music_time.rs:104-112 | k successive interval advances keep an in-range time in range and move it exactly k intervals forward |
| `MusicTimes.CanAdvanceIntervalsBelowLastBar` | src/music_time.rs:70-77 | the bar never overflows while the position stays below the last interval of bar 65535 |
| `MusicTimes.IntervalIndexInjective` | src/music_time.rs:8-12 | two in-range times at the same interval position are the same time |
| `MusicTimeCounters.StartTime` | src/music_time_counter.rs:28-33 | a new counter starts at a time other than the default; its first interval advance yields (1,1,1) for any numerator; for a positive numerator it is in range and exactly one interval before (1,1,1) |
| `MusicTimeCounters.MusicTimeCounter.constructor` | src/music_time_counter.rs:28-33 | the counter keeps the given signature and starts at (0, numerator, 8) |
| `MusicTimeCounters.MusicTimeCounter.Default` | src/music_time_counter.rs:73-78 | the default counter uses the 4/4 signature |
| `MusicTimeCounters.MusicTimeCounter.CurrentTime` | src/music_time_counter.rs:36-38 | returns the stored time and reads nothing else |
| `MusicTimeCounters.MusicTimeCounter.AdvanceBeat` | src/music_time_counter.rs:41-43 | the new time is one beat advance of the old one under the owned signature |
| `MusicTimeCounters.MusicTimeCounter.AdvanceBeatInterval` | src/music_time_counter.rs:46-49 | the new time is one interval advance of the old one under the owned signature |
| `MusicTimerEngines.PulseBookkeeping` | src/music_timer_engine.rs:102-113 | a pulse sets previous := total and total := now; it advances iff accumulator + delta >= target; the accumulator gains the delta and loses exactly one target iff it advanced; target and signature never change |
| `MusicTimerEngines.PulseMusicTime` | src/music_timer_engine.rs:113-137 | an advancing pulse moves the time exactly one interval and remembers the new time; any other pulse emits nothing and leaves the current and remembered times unchanged |
| `MusicTimerEngines.PulseEvents` | src/music_timer_engine.rs:114-133 | an advancing pulse emits 1 to 3 events. The first is OnBeatInterval with the time before the advance. The rest are kinds in strictly increasing callback order, so each kind appears at most once, and all carry the new time. OnBeat appears iff the new beat differs from the remembered one. OnBar appears iff the new bar equals the remembered one |
| `MusicTimerEngines.FirstPulse` | src/music_timer_engine.rs:61-73 | the first pulse of a new engine always advances; it emits exactly [OnBeatInterval((0,n,8)), OnBeat((1,1,1))], leaves the time at (1,1,1) and the accumulator at the elapsed time |
| `MusicTimerEngines.SyncedPulseEvents` | src/music_timer_engine.rs:123-130 | once the remembered time is the current time, OnBeat means the beat changed, while OnBar means the bar did not change |
| `MusicTimerEngines.BarEventExamples` | src/music_timer_engine.rs:128-130 | in 4/4, advancing from (1,1,1) emits OnBar((1,1,2)); advancing from (1,4,8) to (2,1,1) emits OnBeat and no OnBar |
| `MusicTimerEngines.RunDriftBalance` | src/music_timer_engine.rs:109-137 | over any run of pulses, accumulator + advances * target equals the initial accumulator plus the elapsed time; total time ends at the last pulse's value |
| `MusicTimerEngines.EngineDriftBalance` | src/music_timer_engine.rs:61-137 | from a new engine, accumulator + advances * target == target + total time |
| `MusicTimerEngines.RunAccumulatorBounded` | src/music_timer_engine.rs:135-137 | when the caller pulses at least once per target, an accumulator of at most one target stays at most one target |
| `MusicTimerEngines.EngineDriftBounded` | src/music_timer_engine.rs:135-137 | pulsing at least once per target, a new engine's advances * target lies between the elapsed time and the elapsed time plus one target |
| `MusicTimerEngines.RunAdvancesMusicTime` | src/music_timer_engine.rs:113-121 | the music time after a run is exactly `advances` successive interval advances of the starting time |
| `MusicTimerEngines.RunReportsEveryAdvance` | src/music_timer_engine.rs:114-116 | a run emits exactly one OnBeatInterval per advancing pulse |
| `MusicTimerEngines.EnginePosition` | src/music_timer_engine.rs:61-137 | from a new engine with a positive numerator, the time stays in range and sits exactly `advances` intervals past the start time |
| `MusicTimerEngines.CanRunBelowLastBar` | src/music_timer_engine.rs:104-119 | every non-decreasing run is allowed while it is too short to carry the time past the last interval of bar 65535 |
| `MusicTimerEngines.MusicTimerEngine.constructor` | src/music_timer_engine.rs:61-73 | total = previous = 0, accumulator = target, counter at (0, numerator, 8), remembered time (0,0,0), drift balance established |
| `MusicTimerEngines.MusicTimerEngine.Pulse` | src/music_timer_engine.rs:100-139 | the statement-by-statement update equals `PulseStep` in new state and events, keeps the drift balance, and counts one more advance exactly when it advanced |
| `MusicTimerEngines.MusicTimerEngine.GetBeatIntervalDuration` | src/music_timer_engine.rs:158-160 | returns the trigger target fixed at construction, which is positive |
| `MusicTimerEngines.MusicTimerEngine.GetCurrentTime` | src/music_timer_engine.rs:163-165 | returns the counter's current time |
| `MusicTimerEngines.MusicTimerEngine.SetMusicTimer` | src/music_timer_engine.rs:171-174 | replaces the current time and leaves totals, accumulator, target, signature and remembered time unchanged |

## Left out

- The wall clock: `SystemTime::now()` and `start_time` are not modelled. `Pulse` takes the
  elapsed nanoseconds as `now`. The panic on a clock that runs backwards becomes the
  precondition `now >= totalTime`.
- Float durations: `beat_target_frames`, `beat_interval_target_frames` and the float
  `bpm` argument of `MusicTimerEngine::new` are not modelled (f32 arithmetic and a
  truncating cast). The constructor takes the trigger target as a positive number of
  nanoseconds. The 750 ms, 1 s and 125 ms test values are facts about floats and are
  not stated.
- `Duration` is modelled as an unbounded `nat`; its overflow at `u64::MAX` seconds is
  not modelled.
- Integer overflow is a precondition, not wrap-around. This covers `bar + 1` at bar
  65535 and the 16-bit weighted sum in `partial_cmp`.
- `partial_cmp` returns `Option<Ordering>`, but it is always `Some` on `u16`. The model
  returns the `Ordering`. `<`, `<=`, `>` and `>=` are read off the result.
- The observer trait is not modelled as a trait: its callbacks are the `Event`
  values that `Pulse` returns, in call order. Observer side effects are outside
  the model.
- The chaining return value of `set_music_timer` (`&mut Self`) is not modelled.
- `src/lib.rs` (`create_performance_engine`, a factory over the float constructor),
  `tests/lib_interface.rs`, `tests/time_drift.rs` and `examples/event_performance.rs`
  are not part of this model. They drive the engine with thread sleeps and real time.
  `EngineDriftBounded` is the clock-free counterpart of the drift test.
- `Debug` formatting and printing are not modelled.
