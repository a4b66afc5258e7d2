/** The hit-dice line strips parentheses from the hit-point notes. The
    code keeps the original notes whenever the closing parenthesis is
    missing; stripping each side on its own would not. This module relates
    the two readings. */
module HitDiceNotes {
  import opened Statblock

  /** Strip one leading `(` if present, then one trailing `)` if present,
      each on its own. */
  function IndependentStrip(notes: string): (r: string)
    ensures |r| <= |notes|
    ensures StartsWithParen(notes) && !EndsWithParen(notes) ==> "(" + r == notes
  {
    var a := if StartsWithParen(notes) then notes[1..] else notes;
    if EndsWithParen(a) then a[..|a| - 1] else a
  }

  /** The renderer's strip agrees with independent stripping exactly when
      the notes do not open a parenthesis they fail to close. */
  lemma HitDiceVsIndependentStrip(notes: string)
    ensures HitDice(notes) == IndependentStrip(notes) <==> !(StartsWithParen(notes) && !EndsWithParen(notes))
  {
    if StartsWithParen(notes) && !EndsWithParen(notes) {
      assert |IndependentStrip(notes)| < |notes|;
    }
  }

  /** Stripping is the identity on notes without a closing parenthesis, and
      a fully parenthesised note loses exactly its outer pair. */
  lemma HitDiceExamples()
    ensures HitDice("(8d10+24)") == "8d10+24"
    ensures HitDice("10") == "10"
    ensures HitDice("(2d6)") == "2d6"
    ensures HitDice("(2d6") == "(2d6"
    ensures IndependentStrip("(2d6") == "2d6"
  {
    assert "(8d10+24)"[1..] == "8d10+24)";
    assert "8d10+24)"[..7] == "8d10+24";
    assert "(2d6)"[1..] == "2d6)";
    assert "2d6)"[..3] == "2d6";
    assert "(2d6"[1..] == "2d6";
  }
}
