/**
 * A musical time signature: the numerator is the number of beats in a bar,
 * the denominator the note value of one beat. Construction never validates;
 * IsValid is an advisory check the caller may run beforehand.
 */
module TimeSignatures {
  import opened Integers

  datatype TimeSignature = TimeSignature(numerator: u8, denominator: u8)
  {
    /** The signature used when none is given: common time, 4/4. */
    static function Default(): (ts: TimeSignature)
      ensures ts.IsValid()
      ensures ts.Equals(TimeSignature(4, 4))
    {
      TimeSignature(4, 4)
    }

    /** At least one beat per bar, and a beat unit the timer supports. */
    predicate IsValid() {
      numerator > 0
      && (denominator == 2 || denominator == 4 || denominator == 8
          || denominator == 16 || denominator == 32)
    }

    /** The pair (numerator, denominator). */
    function AsTuple(): (u8, u8) {
      (numerator, denominator)
    }

    /** The hand-written field-by-field equality of the source. */
    predicate Equals(other: TimeSignature) {
      numerator == other.numerator && denominator == other.denominator
    }
  }

  /** 2 to the power k. */
  function Pow2(k: nat): nat {
    if k == 0 then 1 else 2 * Pow2(k - 1)
  }

  /** d is the note value of a half, quarter, eighth, sixteenth or thirty-second note. */
  ghost predicate IsNoteValue(d: int) {
    exists k: nat :: 1 <= k <= 5 && d == Pow2(k)
  }

  /**
   * The constructor keeps both arguments verbatim, the getters and AsTuple hand
   * them back, and AsTuple is inverted by the constructor.
   */
  lemma NewStoresArguments(numerator: u8, denominator: u8)
    ensures TimeSignature(numerator, denominator).numerator == numerator
    ensures TimeSignature(numerator, denominator).denominator == denominator
    ensures TimeSignature(numerator, denominator).AsTuple() == (numerator, denominator)
  {
  }

  lemma AsTupleRoundTrip(ts: TimeSignature)
    ensures TimeSignature(ts.AsTuple().0, ts.AsTuple().1) == ts
  {
  }

  /** Construction does not reject what IsValid refuses. */
  lemma NewPerformsNoValidation()
    ensures !TimeSignature(0, 3).IsValid() && TimeSignature(0, 3).numerator == 0
  {
  }

  /**
   * IsValid against an independent description: a positive numerator and a
   * denominator 2^k for k in 1..5.
   */
  lemma {:induction false} IsValidIffNoteValue(ts: TimeSignature)
    ensures ts.IsValid() <==> ts.numerator > 0 && IsNoteValue(ts.denominator)
  {
    if ts.IsValid() {
      var d := ts.denominator;
      var k: nat := if d == 2 then 1 else if d == 4 then 2 else if d == 8 then 3
                    else if d == 16 then 4 else 5;
      PowersOfTwoUpTo5();
      assert 1 <= k <= 5 && d == Pow2(k);
    }
    if ts.numerator > 0 && IsNoteValue(ts.denominator) {
      var k: nat :| 1 <= k <= 5 && ts.denominator == Pow2(k);
      PowersOfTwoUpTo5();
    }
  }

  lemma PowersOfTwoUpTo5()
    ensures Pow2(1) == 2 && Pow2(2) == 4 && Pow2(3) == 8 && Pow2(4) == 16 && Pow2(5) == 32
  {
  }

  /** The field-by-field equality is exactly structural equality. */
  lemma EqualsIsStructural(a: TimeSignature, b: TimeSignature)
    ensures a.Equals(b) <==> a == b
  {
  }

  /** The validity and equality cases the source checks. */
  lemma SourceExamples()
    ensures TimeSignature.Default().IsValid()
    ensures !TimeSignature(4, 5).IsValid()
    ensures !TimeSignature(0, 2).IsValid()
    ensures TimeSignature.Default().Equals(TimeSignature(4, 4))
    ensures !TimeSignature(3, 4).Equals(TimeSignature(4, 4))
  {
  }
}
