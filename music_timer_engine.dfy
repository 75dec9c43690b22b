/**
 * The pulse engine. The caller pulses it with the time elapsed since the
 * engine started; the engine adds the time since the previous pulse to an
 * accumulator and, once the accumulator reaches the trigger target (one beat
 * interval), advances the music time by exactly one interval, reports the
 * change as events, and subtracts the target so that the overshoot carries
 * over to the next interval.
 */
module MusicTimerEngines {
  import opened Integers
  import opened TimeSignatures
  import opened MusicTimes
  import opened MusicTimeCounters

  /** The observer callbacks, in the order a pulse can emit them. */
  datatype Event =
    | OnBeatInterval(time: MusicTime)
    | OnBeat(time: MusicTime)
    | OnBar(time: MusicTime)

  /** Position of an event kind in the fixed callback order. */
  function Rank(e: Event): nat {
    match e
    case OnBeatInterval(_) => 0
    case OnBeat(_) => 1
    case OnBar(_) => 2
  }

  /** Number of beat-interval callbacks in a list of events. */
  function IntervalEventCount(events: seq<Event>): nat {
    if events == [] then 0
    else (if events[0].OnBeatInterval? then 1 else 0) + IntervalEventCount(events[1..])
  }

  /** The engine's state as a value; times are nanoseconds since the engine started. */
  datatype EngineState = EngineState(
    totalTime: nat,
    previousTime: nat,
    eventTriggerTime: nat,
    eventTriggerTarget: nat,
    currentTime: MusicTime,
    timeSignature: TimeSignature,
    previousMusicTime: MusicTime)

  datatype PulseResult = PulseResult(state: EngineState, advanced: bool, events: seq<Event>)

  /**
   * A new engine: no time elapsed, the accumulator primed with a full target,
   * the counter at its start time and the previous time at the sentinel (0, 0, 0).
   */
  function Initial(ts: TimeSignature, eventTriggerTarget: nat): EngineState {
    EngineState(0, 0, eventTriggerTarget, eventTriggerTarget, StartTime(ts), ts, MusicTime(0, 0, 0))
  }

  /** The accumulator once the time since the last pulse is added. */
  function Accumulated(s: EngineState, now: nat): nat
    requires now >= s.totalTime
  {
    s.eventTriggerTime + (now - s.totalTime)
  }

  /** A pulse at now reaches the trigger target. */
  predicate Advances(s: EngineState, now: nat)
    requires now >= s.totalTime
  {
    Accumulated(s, now) >= s.eventTriggerTarget
  }

  /** Time does not run backwards, and an advance does not overflow the bar. */
  predicate CanPulse(s: EngineState, now: nat) {
    now >= s.totalTime
    && (Advances(s, now) ==> s.currentTime.CanAdvanceBeatInterval(s.timeSignature))
  }

  /** One pulse at elapsed time now. */
  function PulseStep(s: EngineState, now: nat): PulseResult
    requires CanPulse(s, now)
  {
    var accumulated := Accumulated(s, now);
    var ticked := s.(previousTime := s.totalTime, totalTime := now, eventTriggerTime := accumulated);
    if accumulated >= s.eventTriggerTarget then
      var post := s.currentTime.AdvanceBeatInterval(s.timeSignature);
      var events :=
        [OnBeatInterval(s.currentTime)]
        + (if s.previousMusicTime.beat != post.beat then [OnBeat(post)] else [])
        + (if s.previousMusicTime.bar == post.bar then [OnBar(post)] else []);
      var recalibrated := ticked.(
        currentTime := post,
        previousMusicTime := post,
        eventTriggerTime := accumulated - s.eventTriggerTarget);
      PulseResult(recalibrated, true, events)
    else
      PulseResult(ticked, false, [])
  }

  /**
   * The clock bookkeeping of a pulse: previous and total time move up, the
   * accumulator gains the elapsed time and loses exactly one target when the
   * pulse advances; the target and the signature never change.
   */
  lemma PulseBookkeeping(s: EngineState, now: nat)
    requires CanPulse(s, now)
    ensures var r := PulseStep(s, now);
            r.state.previousTime == s.totalTime && r.state.totalTime == now
            && (r.advanced <==> Advances(s, now))
            && r.state.eventTriggerTime + (if r.advanced then s.eventTriggerTarget else 0)
               == s.eventTriggerTime + (now - s.totalTime)
            && r.state.eventTriggerTarget == s.eventTriggerTarget
            && r.state.timeSignature == s.timeSignature
  {
  }

  /**
   * An advancing pulse moves the music time one interval and remembers the
   * new time; any other pulse leaves both times alone and reports nothing.
   */
  lemma PulseMusicTime(s: EngineState, now: nat)
    requires CanPulse(s, now)
    ensures var r := PulseStep(s, now);
            (r.advanced ==>
               r.state.currentTime == s.currentTime.AdvanceBeatInterval(s.timeSignature)
               && r.state.previousMusicTime == r.state.currentTime)
            && (!r.advanced ==>
               r.state.currentTime == s.currentTime
               && r.state.previousMusicTime == s.previousMusicTime
               && r.events == [])
  {
  }

  /**
   * The events of an advancing pulse: the interval callback for the time before
   * the advance comes first; then the beat callback for the new time exactly
   * when its beat differs from the remembered one; then the bar callback for
   * the new time exactly when its bar EQUALS the remembered one. Each kind at
   * most once, in that order.
   */
  lemma PulseEvents(s: EngineState, now: nat)
    requires CanPulse(s, now) && Advances(s, now)
    ensures var r := PulseStep(s, now);
            var post := r.state.currentTime;
            1 <= |r.events| <= 3
            && r.events[0] == OnBeatInterval(s.currentTime)
            && (forall i, j :: 0 <= i < j < |r.events| ==> Rank(r.events[i]) < Rank(r.events[j]))
            && (forall i :: 1 <= i < |r.events| ==> r.events[i].time == post)
            && (OnBeat(post) in r.events <==> post.beat != s.previousMusicTime.beat)
            && (OnBar(post) in r.events <==> post.bar == s.previousMusicTime.bar)
  {
  }

  /**
   * The first pulse of a new engine always advances, whatever the elapsed time:
   * it reports the start time and the beat of (1, 1, 1), no bar, and leaves the
   * accumulator holding the whole elapsed time.
   */
  lemma FirstPulse(ts: TimeSignature, eventTriggerTarget: nat, now: nat)
    ensures CanPulse(Initial(ts, eventTriggerTarget), now)
    ensures var r := PulseStep(Initial(ts, eventTriggerTarget), now);
            r.advanced
            && r.events == [OnBeatInterval(MusicTime(0, ts.numerator, 8)), OnBeat(MusicTime(1, 1, 1))]
            && r.state.currentTime == MusicTime(1, 1, 1)
            && r.state.eventTriggerTime == now
  {
  }

  /**
   * Once the remembered time is the current one (after any advance), the beat
   * callback means "the beat changed" but the bar callback means "the bar did
   * NOT change".
   */
  lemma SyncedPulseEvents(s: EngineState, now: nat)
    requires CanPulse(s, now) && Advances(s, now)
    requires s.previousMusicTime == s.currentTime
    ensures var r := PulseStep(s, now);
            var post := r.state.currentTime;
            (OnBeat(post) in r.events <==> post.beat != s.currentTime.beat)
            && (OnBar(post) in r.events <==> post.bar == s.currentTime.bar)
  {
  }

  /** In 4/4 the bar callback follows an advance inside a bar and is missing at the bar line. */
  lemma BarEventExamples(s: EngineState, now: nat)
    requires s.timeSignature == TimeSignature(4, 4)
    requires now >= s.totalTime && Advances(s, now)
    ensures s.currentTime == s.previousMusicTime == MusicTime(1, 1, 1) ==>
              CanPulse(s, now)
              && PulseStep(s, now).events == [OnBeatInterval(MusicTime(1, 1, 1)), OnBar(MusicTime(1, 1, 2))]
    ensures s.currentTime == s.previousMusicTime == MusicTime(1, 4, 8) ==>
              CanPulse(s, now)
              && PulseStep(s, now).events == [OnBeatInterval(MusicTime(1, 4, 8)), OnBeat(MusicTime(2, 1, 1))]
  {
  }

  // ---------------------------------------------------------------------
  // Runs: a sequence of pulses at elapsed times nows[0], nows[1], ...

  /** Every pulse of the run is allowed in the state the previous ones leave. */
  predicate CanRun(s: EngineState, nows: seq<nat>)
    decreases |nows|
  {
    |nows| == 0 || (CanPulse(s, nows[0]) && CanRun(PulseStep(s, nows[0]).state, nows[1..]))
  }

  datatype RunResult = RunResult(state: EngineState, advances: nat, events: seq<Event>)

  /** The final state, the number of advancing pulses and all events of a run. */
  function Run(s: EngineState, nows: seq<nat>): RunResult
    requires CanRun(s, nows)
    decreases |nows|
  {
    if |nows| == 0 then RunResult(s, 0, [])
    else
      var step := PulseStep(s, nows[0]);
      var rest := Run(step.state, nows[1..]);
      RunResult(rest.state, rest.advances + (if step.advanced then 1 else 0), step.events + rest.events)
  }

  /** The elapsed times never decrease, starting from start. */
  predicate NonDecreasing(start: nat, nows: seq<nat>)
    decreases |nows|
  {
    |nows| == 0 || (start <= nows[0] && NonDecreasing(nows[0], nows[1..]))
  }

  /** The caller pulses at least once per trigger target. */
  predicate PolledWithin(start: nat, nows: seq<nat>, target: nat)
    decreases |nows|
  {
    |nows| == 0 || (start <= nows[0] <= start + target && PolledWithin(nows[0], nows[1..], target))
  }

  /**
   * Drift balance: over any run, the accumulator gained exactly the elapsed
   * time and lost exactly one target per advance.
   */
  lemma {:induction false} RunDriftBalance(s: EngineState, nows: seq<nat>)
    requires CanRun(s, nows)
    ensures var r := Run(s, nows);
            r.state.totalTime >= s.totalTime
            && (|nows| > 0 ==> r.state.totalTime == nows[|nows| - 1])
            && r.state.eventTriggerTime + r.advances * s.eventTriggerTarget
               == s.eventTriggerTime + (r.state.totalTime - s.totalTime)
            && r.state.eventTriggerTarget == s.eventTriggerTarget
            && r.state.timeSignature == s.timeSignature
    decreases |nows|
  {
    if |nows| > 0 {
      var step := PulseStep(s, nows[0]);
      PulseBookkeeping(s, nows[0]);
      RunDriftBalance(step.state, nows[1..]);
      var rest := Run(step.state, nows[1..]);
      var k := if step.advanced then 1 else 0;
      assert (rest.advances + k) * s.eventTriggerTarget
             == rest.advances * s.eventTriggerTarget + k * s.eventTriggerTarget;
    }
  }

  /** From a new engine: accumulator + advances * target == target + elapsed time. */
  lemma EngineDriftBalance(ts: TimeSignature, target: nat, nows: seq<nat>)
    requires CanRun(Initial(ts, target), nows)
    ensures var r := Run(Initial(ts, target), nows);
            r.state.eventTriggerTime + r.advances * target == target + r.state.totalTime
  {
    RunDriftBalance(Initial(ts, target), nows);
  }

  /** Polling at least once per target keeps the accumulator at most one target. */
  lemma {:induction false} RunAccumulatorBounded(s: EngineState, nows: seq<nat>)
    requires CanRun(s, nows)
    requires PolledWithin(s.totalTime, nows, s.eventTriggerTarget)
    requires s.eventTriggerTime <= s.eventTriggerTarget
    ensures Run(s, nows).state.eventTriggerTime <= s.eventTriggerTarget
    decreases |nows|
  {
    if |nows| > 0 {
      var step := PulseStep(s, nows[0]);
      PulseBookkeeping(s, nows[0]);
      RunAccumulatorBounded(step.state, nows[1..]);
    }
  }

  /**
   * The verifiable core of drift compensation: when the caller polls at least
   * once per target, the musical time advanced (advances * target) never falls
   * behind the elapsed time and is never more than one target ahead of it.
   */
  lemma EngineDriftBounded(ts: TimeSignature, target: nat, nows: seq<nat>)
    requires CanRun(Initial(ts, target), nows)
    requires PolledWithin(0, nows, target)
    ensures var r := Run(Initial(ts, target), nows);
            r.state.totalTime <= r.advances * target <= r.state.totalTime + target
  {
    RunDriftBalance(Initial(ts, target), nows);
    RunAccumulatorBounded(Initial(ts, target), nows);
  }

  /** A run moves the music time by exactly as many intervals as it has advancing pulses. */
  lemma {:induction false} RunAdvancesMusicTime(s: EngineState, nows: seq<nat>)
    requires CanRun(s, nows)
    ensures var r := Run(s, nows);
            CanAdvanceIntervals(s.currentTime, s.timeSignature, r.advances)
            && r.state.currentTime == AdvanceIntervals(s.currentTime, s.timeSignature, r.advances)
    decreases |nows|
  {
    if |nows| > 0 {
      var step := PulseStep(s, nows[0]);
      PulseBookkeeping(s, nows[0]);
      PulseMusicTime(s, nows[0]);
      RunAdvancesMusicTime(step.state, nows[1..]);
      RunDriftBalance(step.state, nows[1..]);
    }
  }

  /** A run reports one beat-interval callback per advance. */
  lemma {:induction false} RunReportsEveryAdvance(s: EngineState, nows: seq<nat>)
    requires CanRun(s, nows)
    ensures IntervalEventCount(Run(s, nows).events) == Run(s, nows).advances
    decreases |nows|
  {
    if |nows| > 0 {
      var step := PulseStep(s, nows[0]);
      RunReportsEveryAdvance(step.state, nows[1..]);
      IntervalEventCountAppend(step.events, Run(step.state, nows[1..]).events);
      if step.advanced {
        PulseEvents(s, nows[0]);
        assert IntervalEventCount(step.events) == 1 + IntervalEventCount(step.events[1..]);
        NoIntervalEventsAfterFirst(step.events);
      } else {
        PulseMusicTime(s, nows[0]);
      }
    }
  }

  lemma {:induction false} IntervalEventCountAppend(a: seq<Event>, b: seq<Event>)
    ensures IntervalEventCount(a + b) == IntervalEventCount(a) + IntervalEventCount(b)
    decreases |a|
  {
    if a == [] {
      assert a + b == b;
    } else {
      assert (a + b)[0] == a[0];
      assert (a + b)[1..] == a[1..] + b;
      IntervalEventCountAppend(a[1..], b);
    }
  }

  lemma {:induction false} NoIntervalEventsAfterFirst(events: seq<Event>)
    requires |events| >= 1
    requires forall i, j :: 0 <= i < j < |events| ==> Rank(events[i]) < Rank(events[j])
    ensures IntervalEventCount(events[1..]) == 0
    decreases |events|
  {
    var tail := events[1..];
    if |tail| > 0 {
      assert Rank(events[0]) < Rank(tail[0]);
      assert tail[1..] == events[1..][1..];
      NoIntervalEventsAfterFirst(tail);
    }
  }

  /**
   * From a new engine under a signature with at least one beat, the music time
   * stays within the signature and sits exactly `advances` intervals past the
   * start time; with IntervalIndexInjective this fixes the time.
   */
  lemma EnginePosition(ts: TimeSignature, target: nat, nows: seq<nat>)
    requires ts.numerator > 0
    requires CanRun(Initial(ts, target), nows)
    ensures var r := Run(Initial(ts, target), nows);
            r.state.currentTime.WithinSignature(ts)
            && r.state.currentTime.IntervalIndex(ts) == BarLength(ts) - 1 + r.advances
  {
    var s := Initial(ts, target);
    RunAdvancesMusicTime(s, nows);
    AdvanceIntervalsIndex(s.currentTime, ts, Run(s, nows).advances);
  }

  /**
   * Any non-decreasing run is allowed while it is too short to carry the
   * music time past the last interval of bar 65535.
   */
  lemma {:induction false} CanRunBelowLastBar(s: EngineState, nows: seq<nat>)
    requires s.currentTime.WithinSignature(s.timeSignature)
    requires NonDecreasing(s.totalTime, nows)
    requires s.currentTime.IntervalIndex(s.timeSignature) + |nows| < (U16_MAX + 1) * BarLength(s.timeSignature)
    ensures CanRun(s, nows)
    decreases |nows|
  {
    if |nows| > 0 {
      var t := s.currentTime;
      if !t.CanAdvanceBeatInterval(s.timeSignature) {
        TopIntervalIndex(t, s.timeSignature);
      }
      PulseBookkeeping(s, nows[0]);
      PulseMusicTime(s, nows[0]);
      CanRunBelowLastBar(PulseStep(s, nows[0]).state, nows[1..]);
    }
  }

  // ---------------------------------------------------------------------
  // The engine object.

  class MusicTimerEngine {
    var totalTime: nat
    var previousTime: nat
    var eventTriggerTime: nat
    const musicCounter: MusicTimeCounter
    const eventTriggerTarget: nat
    var previousMusicTime: MusicTime
    /** Number of advancing pulses so far. */
    ghost var advances: nat

    /** The target is positive and the drift balance holds. */
    ghost predicate Valid()
      reads this
    {
      eventTriggerTarget > 0
      && previousTime <= totalTime
      && eventTriggerTime + advances * eventTriggerTarget == eventTriggerTarget + totalTime
    }

    /** The engine's fields as a value. */
    function State(): EngineState
      reads this, musicCounter
    {
      EngineState(totalTime, previousTime, eventTriggerTime, eventTriggerTarget,
                  musicCounter.currentTime, musicCounter.timeSignature, previousMusicTime)
    }

    /** A new engine under ts whose trigger target is one beat interval, in nanoseconds. */
    constructor (timeSignature: TimeSignature, eventTriggerTarget: nat)
      requires eventTriggerTarget > 0
      ensures Valid() && fresh(musicCounter)
      ensures State() == Initial(timeSignature, eventTriggerTarget)
      ensures advances == 0
    {
      var counter := new MusicTimeCounter(timeSignature);
      musicCounter := counter;
      this.eventTriggerTarget := eventTriggerTarget;
      totalTime := 0;
      previousTime := 0;
      eventTriggerTime := eventTriggerTarget;
      previousMusicTime := MusicTime(0, 0, 0);
      advances := 0;
    }

    /** One pulse at now, the nanoseconds elapsed since the engine started. */
    method Pulse(now: nat) returns (events: seq<Event>)
      requires Valid() && CanPulse(State(), now)
      modifies this, musicCounter
      ensures Valid()
      ensures State() == PulseStep(old(State()), now).state
      ensures events == PulseStep(old(State()), now).events
      ensures advances == old(advances) + (if PulseStep(old(State()), now).advanced then 1 else 0)
    {
      previousTime := totalTime;
      totalTime := now;
      var timeDelta := totalTime - previousTime;
      eventTriggerTime := eventTriggerTime + timeDelta;
      events := [];
      if eventTriggerTime >= eventTriggerTarget {
        var cachedCurrentTime := musicCounter.CurrentTime();
        events := events + [OnBeatInterval(cachedCurrentTime)];
        musicCounter.AdvanceBeatInterval();
        var nowTime := musicCounter.CurrentTime();
        if previousMusicTime.beat != nowTime.beat {
          events := events + [OnBeat(nowTime)];
        }
        if previousMusicTime.bar == nowTime.bar {
          events := events + [OnBar(nowTime)];
        }
        previousMusicTime := musicCounter.CurrentTime();
        eventTriggerTime := eventTriggerTime - eventTriggerTarget;
        advances := advances + 1;
      }
    }

    /** The trigger target given at construction: positive, and the same on every call. */
    function GetBeatIntervalDuration(): (d: nat)
      reads this
      requires Valid()
      ensures d == eventTriggerTarget && d > 0
    {
      eventTriggerTarget
    }

    /** The counter's current time. */
    function GetCurrentTime(): (t: MusicTime)
      reads this, musicCounter
      ensures t == State().currentTime
    {
      musicCounter.CurrentTime()
    }

    /** Replaces the current time; the clock fields and the remembered time stay as they were. */
    method SetMusicTimer(time: MusicTime)
      requires Valid()
      modifies musicCounter
      ensures Valid()
      ensures State() == old(State()).(currentTime := time)
    {
      musicCounter.currentTime := time;
    }
  }
}
