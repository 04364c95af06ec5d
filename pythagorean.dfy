/** The right-triangle lesson (`PythagoreanLesson`): integer legs and the squares shown. */
module Pythagorean {

  const MinLeg: int := 1
  const MaxLeg: int := 8

  /** The three numbers of the "a*a + b*b = c*c" line. */
  datatype SquaresLine = SquaresLine(aSquared: int, bSquared: int, cSquared: int)

  /** The squares line under the triangle: a squared plus b squared equals c squared. */
  function Squares(a: int, b: int): (line: SquaresLine)
    ensures line.aSquared == a * a && line.bSquared == b * b
    ensures line.cSquared == line.aSquared + line.bSquared
    ensures line.aSquared >= 0 && line.bSquared >= 0
    ensures a != 0 ==> line.cSquared > line.bSquared
    ensures b != 0 ==> line.cSquared > line.aSquared
  {
    SquaresLine(a * a, b * b, a * a + b * b)
  }

  /** Within the sliders' range [1, 8], c squared lies in [2, 128]. */
  lemma SquaresInSliderRange(a: int, b: int)
    requires MinLeg <= a <= MaxLeg && MinLeg <= b <= MaxLeg
    ensures 2 <= Squares(a, b).cSquared <= 128
  {
    assert a * a <= 64 by { assert a * a <= 8 * a; }
    assert b * b <= 64 by { assert b * b <= 8 * b; }
  }

  /** The "3-4-5 is a famous Pythagorean triple" note: shown only for a = 3 and b = 4. */
  predicate TripleNoteShown(a: int, b: int)
  {
    a == 3 && b == 4
  }

  /** A hypotenuse that is a whole number. */
  ghost predicate WholeHypotenuse(a: int, b: int)
  {
    exists c: int :: c >= 0 && c * c == Squares(a, b).cSquared
  }

  /** When the note shows, the hypotenuse is exactly 5. */
  lemma TripleNoteIsTriple(a: int, b: int)
    requires TripleNoteShown(a, b)
    ensures Squares(a, b).cSquared == 5 * 5
    ensures WholeHypotenuse(a, b)
  {
    assert 5 * 5 == Squares(a, b).cSquared;
  }

  /** No integer squares to 2. */
  lemma {:induction false} NoIntegerRootOfTwo(c: int)
    ensures c * c != 2
  {
    if c >= 2 {
      assert c * c >= 2 * c;
    } else if c <= -2 {
      assert c * c >= -2 * c;
    }
  }

  /** For a = b = 1 the hypotenuse is the irrational square root of 2, and no note shows. */
  lemma UnitLegs()
    ensures Squares(1, 1).cSquared == 2
    ensures !WholeHypotenuse(1, 1)
    ensures !TripleNoteShown(1, 1)
  {
    if WholeHypotenuse(1, 1) {
      var c: int :| c >= 0 && c * c == Squares(1, 1).cSquared;
      NoIntegerRootOfTwo(c);
    }
  }

  /** The note does not cover every whole hypotenuse: 6-8-10 is one it leaves out. */
  lemma NoteOmitsSixEightTen()
    ensures WholeHypotenuse(6, 8) && !TripleNoteShown(6, 8)
  {
    assert 10 * 10 == Squares(6, 8).cSquared;
  }
}
