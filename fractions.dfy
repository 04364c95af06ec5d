/** The fraction lesson's two sliders (`FractionsLesson`). */
module Fractions {

  const MinDenominator: int := 1
  const MaxDenominator: int := 12

  /** The widget's invariant: denominator in [1, 12], numerator in [0, denominator]. */
  predicate ValidFraction(num: int, denom: int)
  {
    MinDenominator <= denom <= MaxDenominator && 0 <= num <= denom
  }

  /**
   * The numerator after the denominator slider moves to `newDenom`: pulled
   * down to `newDenom` when it would exceed it, otherwise untouched (it is
   * not raised again when the denominator grows).
   */
  function NumeratorAfter(num: int, newDenom: int): (r: int)
    ensures r <= num && r <= newDenom
    ensures r == num || r == newDenom
  {
    if num > newDenom then newDenom else num
  }

  /** Moving the denominator keeps the invariant, whatever the old numerator was. */
  lemma DenominatorKeepsFraction(num: int, denom: int, newDenom: int)
    requires ValidFraction(num, denom)
    requires MinDenominator <= newDenom <= MaxDenominator
    ensures ValidFraction(NumeratorAfter(num, newDenom), newDenom)
    ensures newDenom < num ==> NumeratorAfter(num, newDenom) == newDenom
    ensures newDenom >= num ==> NumeratorAfter(num, newDenom) == num
  {
  }

  class FractionsLesson {
    var num: int
    var denom: int

    ghost predicate Valid()
      reads this
    {
      ValidFraction(num, denom)
    }

    /** The lesson opens on 3/4. */
    constructor ()
      ensures Valid() && num == 3 && denom == 4
    {
      num, denom := 3, 4;
    }

    /** The numerator slider: its range is [0, denom]. */
    method SetNumerator(v: int)
      requires Valid() && 0 <= v <= denom
      modifies this
      ensures Valid()
      ensures num == v && denom == old(denom)
    {
      num := v;
    }

    /** The denominator slider: its range is [1, 12]; the numerator follows it down. */
    method SetDenominator(newDenom: int)
      requires Valid() && MinDenominator <= newDenom <= MaxDenominator
      modifies this
      ensures Valid()
      ensures denom == newDenom
      ensures num == NumeratorAfter(old(num), newDenom)
    {
      denom := newDenom;
      if num > newDenom {
        num := newDenom;
      }
    }
  }
}
