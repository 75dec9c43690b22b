/**
 * A counter owning one music time and the signature it advances under. The
 * signature is fixed at construction; the time is updated in place.
 */
module MusicTimeCounters {
  import opened Integers
  import opened TimeSignatures
  import opened MusicTimes

  /**
   * Where a new counter starts: the last interval of the last beat of bar 0,
   * one interval before the default time (1, 1, 1).
   */
  function StartTime(ts: TimeSignature): (t: MusicTime)
    ensures t.CanAdvanceBeatInterval(ts)
    ensures t.AdvanceBeatInterval(ts) == MusicTime.Default()
    ensures t != MusicTime.Default()
    ensures ts.numerator > 0 ==>
              t.WithinSignature(ts) && t.IntervalIndex(ts) + 1 == MusicTime.Default().IntervalIndex(ts)
  {
    MusicTime(0, ts.numerator, INTERVALS_PER_BEAT)
  }

  class MusicTimeCounter {
    var currentTime: MusicTime
    const timeSignature: TimeSignature

    constructor (timeSignature: TimeSignature)
      ensures this.timeSignature == timeSignature
      ensures currentTime == StartTime(timeSignature)
    {
      this.timeSignature := timeSignature;
      currentTime := MusicTime(0, timeSignature.numerator, 8);
    }

    /** The counter built on the default signature, 4/4. */
    constructor Default()
      ensures timeSignature == TimeSignature.Default() && timeSignature.Equals(TimeSignature(4, 4))
      ensures currentTime == StartTime(TimeSignature.Default())
    {
      timeSignature := TimeSignature.Default();
      currentTime := MusicTime(0, TimeSignature.Default().numerator, 8);
    }

    /** The stored time; reading it changes nothing. */
    function CurrentTime(): (t: MusicTime)
      reads this
      ensures t == currentTime
    {
      currentTime
    }

    method AdvanceBeat()
      requires currentTime.CanAdvanceBeat(timeSignature)
      modifies this
      ensures currentTime == old(currentTime).AdvanceBeat(timeSignature)
    {
      currentTime := currentTime.AdvanceBeat(timeSignature);
    }

    method AdvanceBeatInterval()
      requires currentTime.CanAdvanceBeatInterval(timeSignature)
      modifies this
      ensures currentTime == old(currentTime).AdvanceBeatInterval(timeSignature)
    {
      currentTime := currentTime.AdvanceBeatInterval(timeSignature);
    }
  }
}
