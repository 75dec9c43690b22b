/**
 * A position in musical time: bar, beat within the bar, and beat interval
 * (subdivision of the beat). Advancing carries interval -> beat -> bar, the
 * beat rolling over at the signature's numerator.
 */
module MusicTimes {
  import opened Integers
  import opened TimeSignatures

  /** The nominal interval resolution; only its first half is reached before the beat advances. */
  const INTERVAL_RESOLUTION: int := 16
  const INTERVALS_PER_BEAT: int := INTERVAL_RESOLUTION / 2

  /** Number of beat intervals in one bar. */
  function BarLength(ts: TimeSignature): int {
    ts.numerator * INTERVALS_PER_BEAT
  }

  datatype Ordering = Less | Equal | Greater

  datatype MusicTime = MusicTime(bar: u16, beat: u8, beatInterval: u8)
  {
    /** The start of a performance, (1, 1, 1). */
    static function Default(): (t: MusicTime)
      ensures t.Equals(MusicTime(1, 1, 1))
      ensures forall ts: TimeSignature :: ts.numerator > 0 ==>
                t.WithinSignature(ts) && t.IntervalIndex(ts) == BarLength(ts)
    {
      MusicTime(1, 1, 1)
    }

    /** The hand-written field-by-field equality of the source. */
    predicate Equals(other: MusicTime) {
      bar == other.bar && beat == other.beat && beatInterval == other.beatInterval
    }

    /** The beat lies in 1..numerator and the interval in 1..8. */
    predicate WithinSignature(ts: TimeSignature) {
      1 <= beat <= ts.numerator && 1 <= beatInterval <= INTERVALS_PER_BEAT
    }

    /** Number of whole beats before this position, counting from bar 0. */
    function BeatIndex(ts: TimeSignature): int {
      bar * ts.numerator + (beat - 1)
    }

    /** Number of whole beat intervals before this position, counting from bar 0. */
    function IntervalIndex(ts: TimeSignature): int {
      bar * BarLength(ts) + IntervalInBar()
    }

    /** Number of whole beat intervals before this position within its bar. */
    function IntervalInBar(): int {
      (beat - 1) * INTERVALS_PER_BEAT + (beatInterval - 1)
    }

    /** The 16-bit bar does not overflow when the beat rolls over. */
    predicate CanAdvanceBeat(ts: TimeSignature) {
      beat < ts.numerator || bar < U16_MAX
    }

    /**
     * One beat forward: past the last beat of the bar the beat returns to 1 and
     * the bar goes up by one; otherwise only the beat goes up.
     */
    function AdvanceBeat(ts: TimeSignature): (r: MusicTime)
      requires CanAdvanceBeat(ts)
      ensures r.beatInterval == beatInterval
      ensures r.bar == if beat >= ts.numerator then bar + 1 else bar
      ensures r.beat == if beat >= ts.numerator then 1 else beat + 1
      ensures WithinSignature(ts) ==>
                r.WithinSignature(ts) && r.BeatIndex(ts) == BeatIndex(ts) + 1
                && r.IntervalIndex(ts) == IntervalIndex(ts) + INTERVALS_PER_BEAT
    {
      if beat >= ts.numerator then
        this.(beat := 1, bar := bar + 1)
      else
        this.(beat := beat + 1)
    }

    /** The bar does not overflow on this interval advance. */
    predicate CanAdvanceBeatInterval(ts: TimeSignature) {
      beatInterval < INTERVALS_PER_BEAT || CanAdvanceBeat(ts)
    }

    /**
     * One beat interval forward: below 8 only the interval goes up; at 8 or
     * above it returns to 1 and the beat advances once.
     */
    function AdvanceBeatInterval(ts: TimeSignature): (r: MusicTime)
      requires CanAdvanceBeatInterval(ts)
      ensures beatInterval < INTERVALS_PER_BEAT ==>
                r.bar == bar && r.beat == beat && r.beatInterval == beatInterval + 1
      ensures beatInterval >= INTERVALS_PER_BEAT ==>
                r.beatInterval == 1 && r.bar == AdvanceBeat(ts).bar && r.beat == AdvanceBeat(ts).beat
      ensures WithinSignature(ts) ==>
                r.WithinSignature(ts) && r.IntervalIndex(ts) == IntervalIndex(ts) + 1
    {
      if beatInterval >= INTERVAL_RESOLUTION / 2 then
        this.(beatInterval := 1).AdvanceBeat(ts)
      else
        this.(beatInterval := beatInterval + 1)
    }

    /** The comparison key bar*100 + beat*10 + interval, as an unbounded integer. */
    function WeightedSum(): int {
      bar * 100 + beat * 10 + beatInterval
    }

    /** The key is computed in 16 bits in the source; it must not overflow. */
    predicate WeightedSumFits() {
      WeightedSum() <= U16_MAX
    }

    /** The source's ordering: compare the weighted sums. */
    function PartialCmp(other: MusicTime): Ordering
      requires WeightedSumFits() && other.WeightedSumFits()
    {
      var selfSum := WeightedSum();
      var otherSum := other.WeightedSum();
      if selfSum < otherSum then Less else if selfSum == otherSum then Equal else Greater
    }
  }

  function CompareInts(x: int, y: int): Ordering {
    if x < y then Less else if x == y then Equal else Greater
  }

  /** The intended musical order: by bar, then beat, then interval. */
  function Lexicographic(a: MusicTime, b: MusicTime): Ordering {
    if a.bar != b.bar then CompareInts(a.bar, b.bar)
    else if a.beat != b.beat then CompareInts(a.beat, b.beat)
    else CompareInts(a.beatInterval, b.beatInterval)
  }

  /** Beat and interval are single decimal digits, so the weighted sum can separate them. */
  predicate SingleDigitFields(t: MusicTime) {
    t.beat <= 9 && t.beatInterval <= 9
  }

  /** k interval advances can be taken one after another without the bar overflowing. */
  predicate CanAdvanceIntervals(t: MusicTime, ts: TimeSignature, k: nat)
    decreases k
  {
    k == 0 || (t.CanAdvanceBeatInterval(ts) && CanAdvanceIntervals(t.AdvanceBeatInterval(ts), ts, k - 1))
  }

  /** The time after k successive interval advances. */
  function AdvanceIntervals(t: MusicTime, ts: TimeSignature, k: nat): MusicTime
    requires CanAdvanceIntervals(t, ts, k)
    decreases k
  {
    if k == 0 then t else AdvanceIntervals(t.AdvanceBeatInterval(ts), ts, k - 1)
  }

  /** The getters return what the constructor was given; equality is structural. */
  lemma NewStoresArguments(bar: u16, beat: u8, beatInterval: u8)
    ensures MusicTime(bar, beat, beatInterval).bar == bar
    ensures MusicTime(bar, beat, beatInterval).beat == beat
    ensures MusicTime(bar, beat, beatInterval).beatInterval == beatInterval
  {
  }

  lemma EqualsIsStructural(a: MusicTime, b: MusicTime)
    ensures a.Equals(b) <==> a == b
  {
  }

  /** The equality cases the source checks. */
  lemma EqualityExamples()
    ensures MusicTime(1, 2, 3).Equals(MusicTime(1, 2, 3))
    ensures MusicTime.Default().Equals(MusicTime.Default()) && MusicTime.Default().bar == 1
    ensures !MusicTime(2, 1, 1).Equals(MusicTime(2, 3, 2))
  {
  }

  /** With single-digit beat and interval the weighted order is the lexicographic one. */
  lemma PartialCmpIsLexicographic(a: MusicTime, b: MusicTime)
    requires SingleDigitFields(a) && SingleDigitFields(b)
    requires a.WeightedSumFits() && b.WeightedSumFits()
    ensures a.PartialCmp(b) == Lexicographic(a, b)
    ensures a.PartialCmp(b) == Equal <==> a == b
  {
  }

  /** With a two-digit beat the weighted order no longer tells positions apart. */
  lemma TwoDigitBeatCollides()
    ensures MusicTime(1, 10, 1).WeightedSumFits() && MusicTime(2, 0, 1).WeightedSumFits()
    ensures MusicTime(1, 10, 1).PartialCmp(MusicTime(2, 0, 1)) == Equal
    ensures MusicTime(1, 10, 1) != MusicTime(2, 0, 1)
    ensures Lexicographic(MusicTime(1, 10, 1), MusicTime(2, 0, 1)) == Less
  {
  }

  /** The key overflows 16 bits from bar 656 on, whatever the beat and interval. */
  lemma WeightedSumBound(t: MusicTime)
    ensures t.bar <= 654 && t.beat <= 9 && t.beatInterval <= 9 ==> t.WeightedSumFits()
    ensures t.bar >= 656 ==> !t.WeightedSumFits()
  {
  }

  /** The ordering cases the source checks (<, >, <=, >= read off PartialCmp). */
  lemma OrderExamples()
    ensures MusicTime(1, 1, 1).PartialCmp(MusicTime(2, 1, 1)) == Less
    ensures MusicTime(2, 1, 1).PartialCmp(MusicTime(1, 1, 1)) == Greater
    ensures MusicTime(1, 1, 1).PartialCmp(MusicTime(1, 1, 1)) != Greater
    ensures MusicTime(1, 1, 1).PartialCmp(MusicTime(1, 1, 1)) != Less
    ensures MusicTime(1, 1, 1).PartialCmp(MusicTime(1, 2, 1)) == Less
    ensures MusicTime(1, 2, 1).PartialCmp(MusicTime(1, 1, 1)) == Greater
    ensures MusicTime(1, 1, 1).PartialCmp(MusicTime(1, 1, 2)) == Less
    ensures MusicTime(1, 1, 2).PartialCmp(MusicTime(1, 1, 1)) == Greater
  {
  }

  /**
   * An interval advance moves strictly forward in the source's order as long
   * as the fields are in range and the numerator is a single digit.
   */
  lemma AdvanceBeatIntervalIncreasesOrder(t: MusicTime, ts: TimeSignature)
    requires ts.numerator <= 9 && t.WithinSignature(ts)
    requires t.CanAdvanceBeatInterval(ts)
    requires t.WeightedSumFits() && t.AdvanceBeatInterval(ts).WeightedSumFits()
    ensures t.PartialCmp(t.AdvanceBeatInterval(ts)) == Less
  {
  }

  /** Beat advances under 4/4, 3/4 and 1/4 from the default time, as the source checks. */
  lemma AdvanceBeatExamples()
    ensures var ts := TimeSignature(4, 4);
            var t1 := MusicTime.Default().AdvanceBeat(ts);
            var t2 := t1.AdvanceBeat(ts);
            var t3 := t2.AdvanceBeat(ts);
            var t4 := t3.AdvanceBeat(ts);
            (t1.bar, t1.beat) == (1, 2) && (t2.bar, t2.beat) == (1, 3)
            && (t3.bar, t3.beat) == (1, 4) && (t4.bar, t4.beat) == (2, 1)
    ensures var ts := TimeSignature(3, 4);
            var t1 := MusicTime.Default().AdvanceBeat(ts);
            var t2 := t1.AdvanceBeat(ts);
            var t3 := t2.AdvanceBeat(ts);
            var t4 := t3.AdvanceBeat(ts);
            (t1.bar, t1.beat) == (1, 2) && (t2.bar, t2.beat) == (1, 3)
            && (t3.bar, t3.beat) == (2, 1) && (t4.bar, t4.beat) == (2, 2)
    ensures var ts := TimeSignature(1, 4);
            var t1 := MusicTime.Default().AdvanceBeat(ts);
            var t2 := t1.AdvanceBeat(ts);
            var t3 := t2.AdvanceBeat(ts);
            var t4 := t3.AdvanceBeat(ts);
            (t1.bar, t1.beat) == (2, 1) && (t2.bar, t2.beat) == (3, 1)
            && (t3.bar, t3.beat) == (4, 1) && (t4.bar, t4.beat) == (5, 1)
  {
  }

  /** From (1, 1, 1) in 4/4: one advance gives (1, 1, 2), seven give (1, 1, 8), the eighth (1, 2, 1). */
  lemma AdvanceBeatIntervalExamples()
    ensures CanAdvanceIntervals(MusicTime.Default(), TimeSignature(4, 4), 8)
    ensures AdvanceIntervals(MusicTime.Default(), TimeSignature(4, 4), 1) == MusicTime(1, 1, 2)
    ensures AdvanceIntervals(MusicTime.Default(), TimeSignature(4, 4), 7) == MusicTime(1, 1, 8)
    ensures AdvanceIntervals(MusicTime.Default(), TimeSignature(4, 4), 8) == MusicTime(1, 2, 1)
  {
    var ts := TimeSignature(4, 4);
    assert MusicTime(1, 1, 8).AdvanceBeatInterval(ts) == MusicTime(1, 2, 1);
    AdvanceIntervalsWithinBeat(MusicTime.Default(), ts, 7);
    AdvanceIntervalsWithinBeat(MusicTime.Default(), ts, 1);
    AdvanceIntervalsSplit(MusicTime.Default(), ts, 7, 1);
  }

  /** Advances that stay inside the current beat only move the interval. */
  lemma {:induction false} AdvanceIntervalsWithinBeat(t: MusicTime, ts: TimeSignature, k: nat)
    requires 1 <= t.beatInterval && t.beatInterval + k <= INTERVALS_PER_BEAT
    ensures CanAdvanceIntervals(t, ts, k)
    ensures AdvanceIntervals(t, ts, k) == t.(beatInterval := t.beatInterval + k)
    decreases k
  {
    if k > 0 {
      AdvanceIntervalsWithinBeat(t.AdvanceBeatInterval(ts), ts, k - 1);
    }
  }

  /** j advances followed by k more are j + k advances. */
  lemma {:induction false} AdvanceIntervalsSplit(t: MusicTime, ts: TimeSignature, j: nat, k: nat)
    requires CanAdvanceIntervals(t, ts, j) && CanAdvanceIntervals(AdvanceIntervals(t, ts, j), ts, k)
    ensures CanAdvanceIntervals(t, ts, j + k)
    ensures AdvanceIntervals(t, ts, j + k) == AdvanceIntervals(AdvanceIntervals(t, ts, j), ts, k)
    decreases j
  {
    if j > 0 {
      AdvanceIntervalsSplit(t.AdvanceBeatInterval(ts), ts, j - 1, k);
    }
  }

  /** k advances move an in-range time exactly k intervals forward and keep it in range. */
  lemma {:induction false} AdvanceIntervalsIndex(t: MusicTime, ts: TimeSignature, k: nat)
    requires t.WithinSignature(ts) && CanAdvanceIntervals(t, ts, k)
    ensures AdvanceIntervals(t, ts, k).WithinSignature(ts)
    ensures AdvanceIntervals(t, ts, k).IntervalIndex(ts) == t.IntervalIndex(ts) + k
    decreases k
  {
    if k > 0 {
      AdvanceIntervalsIndex(t.AdvanceBeatInterval(ts), ts, k - 1);
    }
  }

  /**
   * The advances are possible exactly while the position stays below the last
   * interval of bar 65535.
   */
  lemma {:induction false} CanAdvanceIntervalsBelowLastBar(t: MusicTime, ts: TimeSignature, k: nat)
    requires t.WithinSignature(ts)
    requires t.IntervalIndex(ts) + k < (U16_MAX + 1) * BarLength(ts)
    ensures CanAdvanceIntervals(t, ts, k)
    decreases k
  {
    if k > 0 {
      if !t.CanAdvanceBeatInterval(ts) {
        TopIntervalIndex(t, ts);
      }
      CanAdvanceIntervalsBelowLastBar(t.AdvanceBeatInterval(ts), ts, k - 1);
    }
  }

  /** The one in-range time that cannot advance is the last interval of bar 65535. */
  lemma TopIntervalIndex(t: MusicTime, ts: TimeSignature)
    requires t.WithinSignature(ts) && !t.CanAdvanceBeatInterval(ts)
    ensures t.IntervalIndex(ts) == (U16_MAX + 1) * BarLength(ts) - 1
  {
  }

  /** Two in-range times at the same interval index are the same time. */
  lemma IntervalIndexInjective(a: MusicTime, b: MusicTime, ts: TimeSignature)
    requires a.WithinSignature(ts) && b.WithinSignature(ts)
    requires a.IntervalIndex(ts) == b.IntervalIndex(ts)
    ensures a == b
  {
    IntervalInBarBounds(a, ts);
    IntervalInBarBounds(b, ts);
    DigitsUnique(a.bar, a.IntervalInBar(), b.bar, b.IntervalInBar(), BarLength(ts));
    DigitsUnique(a.beat - 1, a.beatInterval - 1, b.beat - 1, b.beatInterval - 1, INTERVALS_PER_BEAT);
  }

  lemma IntervalInBarBounds(t: MusicTime, ts: TimeSignature)
    requires t.WithinSignature(ts)
    ensures 0 <= t.IntervalInBar() < BarLength(ts)
  {
  }

  /** A number has one quotient and one remainder with respect to a positive base. */
  lemma DigitsUnique(x: int, r: int, y: int, s: int, m: int)
    requires 0 <= r < m && 0 <= s < m
    requires x * m + r == y * m + s
    ensures x == y && r == s
  {
    if x < y {
      MulMonotone(x + 1, y, m);
    } else if y < x {
      MulMonotone(y + 1, x, m);
    }
  }

  lemma MulMonotone(x: int, y: int, c: nat)
    requires x <= y
    ensures x * c <= y * c
  {
  }
}
