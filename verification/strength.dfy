/** The combined strength score: the class count, plus the length bonus once
    all four classes are present. */
module Strength {
  import opened CharClasses
  import opened Classification
  import opened Lengths

  /** Strength of a password on a 0..8 scale. Length is rewarded only once the
      password uses all four classes. */
  function CheckPasswordStrength(s: string): (score: nat)
    ensures score <= 8
    ensures score < 4 ==> score == CharacterClassScore(s).count
    ensures score >= 4 <==> forall n :: Contains(s, n)
    ensures score >= 5 <==> (forall n :: Contains(s, n)) && |s| >= 8
    ensures score == 8 <==> (forall n :: Contains(s, n)) && |s| >= 20
  {
    var classCount := CharacterClassScore(s).count;
    if classCount < 4 then classCount
    else classCount + LengthBonus(s)
  }

  /** Without all four classes the length of a password makes no difference:
      two passwords with the same flags score the same, however long. */
  lemma IncompleteIgnoresLength(s: string, t: string)
    requires CharacterClassScore(s).flags == CharacterClassScore(t).flags
    requires CharacterClassScore(s).count < 4
    ensures CheckPasswordStrength(s) == CheckPasswordStrength(t) == CharacterClassScore(s).count
  {
  }

  /** With all four classes present the score is four plus the number of
      length thresholds reached. */
  lemma CompleteAddsReachedThresholds(s: string)
    requires forall n :: Contains(s, n)
    ensures CheckPasswordStrength(s) == 4 + |Reached(|s|)|
  {
    BonusCountsReachedThresholds(s);
  }

  /** A non-empty password of lowercase letters only scores 1, whatever its
      length. */
  lemma LowercaseOnlyScoresOne(s: string)
    requires |s| > 0
    requires forall i :: 0 <= i < |s| ==> IsLower(s[i])
    ensures CheckPasswordStrength(s) == 1
  {
    assert Contains(s, Lower) by { assert InClass(s[0], Lower); }
    assert !Contains(s, Upper) && !Contains(s, Digit);
    assert !Contains(s, Symbol) by {
      forall i | 0 <= i < |s| ensures !IsSymbol(s[i]) { ClassesDisjoint(s[i]); }
    }
  }

  /** Appending characters never weakens a password: classes can only be
      gained, and once all four are present the length bonus can only grow. */
  lemma StrengthGrowsUnderAppend(s: string, t: string)
    ensures CheckPasswordStrength(s) <= CheckPasswordStrength(s + t)
  {
    CountGrowsUnderAppend(s, t);
    if CharacterClassScore(s).count == 4 {
      assert CharacterClassScore(s + t).count == 4;
      BonusMonotonic(s, s + t);
    }
  }
}
