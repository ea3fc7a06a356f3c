/** Worked examples of the evaluator on concrete passwords.

    Each example takes the password as a parameter fixed by its requires
    clause: applied directly to a string literal, AnyOf would be unrolled by
    the verifier character by character and the proofs would not finish. */
module Scenarios {
  import opened CharClasses
  import opened Classification
  import opened Strength
  import opened Ratings
  import opened Evaluator

  /** Four witness positions, one per class, show that all classes occur. */
  lemma AllClassesFromWitnesses(s: string, u: nat, l: nat, d: nat, y: nat)
    requires u < |s| && l < |s| && d < |s| && y < |s|
    requires IsUpper(s[u]) && IsLower(s[l]) && IsDigit(s[d]) && IsSymbol(s[y])
    ensures forall n :: Contains(s, n)
  {
    assert InClass(s[u], Upper) && InClass(s[l], Lower);
    assert InClass(s[d], Digit) && InClass(s[y], Symbol);
  }

  /** The empty password misses every class, in the fixed order, and scores
      0. */
  lemma EmptyPassword(s: string)
    requires s == ""
    ensures CheckPassword(s, {}) == Incomplete(0, [Upper, Lower, Digit, Symbol])
  {
  }

  /** Any non-empty password of lowercase letters only, outside the common
      set, scores 1 and misses upper, digit and symbol, whatever its length. */
  lemma LowercaseOnlyEvaluation(s: string, commonPasswords: set<string>)
    requires s !in commonPasswords
    requires |s| > 0
    requires forall i :: 0 <= i < |s| ==> IsLower(s[i])
    ensures CheckPassword(s, commonPasswords) == Incomplete(1, [Upper, Digit, Symbol])
  {
    assert Contains(s, Lower) by { assert InClass(s[0], Lower); }
    assert !Contains(s, Upper) && !Contains(s, Digit);
    assert !Contains(s, Symbol) by {
      forall i | 0 <= i < |s| ensures !IsSymbol(s[i]) { ClassesDisjoint(s[i]); }
    }
    IncompleteDeterminedByFlags(s, commonPasswords, ClassFlags(false, true, false, false));
  }

  /** Eight lowercase letters: one class, score 1. */
  lemma LowercaseWord(s: string)
    requires s == "abcdefgh"
    ensures CheckPassword(s, {}) == Incomplete(1, [Upper, Digit, Symbol])
  {
    assert forall i | 0 <= i < |s| :: IsLower(s[i]);
    LowercaseOnlyEvaluation(s, {});
  }

  /** Twenty lowercase letters still score only 1: length is not rewarded
      while classes are missing. */
  lemma LongLowercaseWord(s: string)
    requires s == "abcdefghijklmnopqrst"
    ensures CheckPassword(s, {}) == Incomplete(1, [Upper, Digit, Symbol])
  {
    assert forall i | 0 <= i < |s| :: IsLower(s[i]);
    LowercaseOnlyEvaluation(s, {});
  }

  /** A password of letters and digits only, using both cases and a digit,
      outside the common set, scores 3 and misses only the symbol class. */
  lemma AlphanumericEvaluation(s: string, commonPasswords: set<string>, u: nat, l: nat, d: nat)
    requires s !in commonPasswords
    requires u < |s| && l < |s| && d < |s|
    requires IsUpper(s[u]) && IsLower(s[l]) && IsDigit(s[d])
    requires forall i :: 0 <= i < |s| ==> IsUpper(s[i]) || IsLower(s[i]) || IsDigit(s[i])
    ensures CheckPassword(s, commonPasswords) == Incomplete(3, [Symbol])
  {
    assert InClass(s[u], Upper) && InClass(s[l], Lower) && InClass(s[d], Digit);
    assert !Contains(s, Symbol) by {
      forall i | 0 <= i < |s| ensures !IsSymbol(s[i]) {
        ClassesDisjoint(s[i]);
      }
    }
    IncompleteDeterminedByFlags(s, commonPasswords, ClassFlags(true, true, true, false));
  }

  /** Letters and digits but no symbol: three classes, score 3. */
  lemma NoSymbol(s: string)
    requires s == "Abc12345"
    ensures CheckPassword(s, {}) == Incomplete(3, [Symbol])
  {
    assert forall i | 0 <= i < |s| :: IsUpper(s[i]) || IsLower(s[i]) || IsDigit(s[i]);
    AlphanumericEvaluation(s, {}, 0, 1, 3);
  }

  /** All four classes at length 8: one length point, rated Strong, no tip. */
  lemma FourClassesLengthEight(s: string)
    requires s == "Abc123!@"
    ensures CheckPassword(s, {}) == Complete(5, 8, Strong, false)
  {
    AllClassesFromWitnesses(s, 0, 1, 3, 6);
    CompleteDeterminedByLength(s, {});
  }

  /** All four classes at length 16: three length points, rated Extremely
      strong. */
  lemma FourClassesLengthSixteen(s: string)
    requires s == "Abc123!@#XYZ7890"
    ensures CheckPassword(s, {}) == Complete(7, 16, ExtremelyStrong, false)
  {
    AllClassesFromWitnesses(s, 0, 1, 3, 6);
    CompleteDeterminedByLength(s, {});
  }

  /** All four classes but only four characters: rated Not that strong, with
      the tip to lengthen the password. */
  lemma FourClassesTooShort(s: string)
    requires s == "Ab1!"
    ensures CheckPassword(s, {}) == Complete(4, 4, NotThatStrong, true)
  {
    AllClassesFromWitnesses(s, 0, 1, 2, 3);
    CompleteDeterminedByLength(s, {});
  }

  /** A twenty-character password with all four classes has the top strength
      score, yet the evaluation reports it as common once it is on the list. */
  lemma CommonOverridesComposition(s: string)
    requires s == "Abc123!@Abc123!@Abc1"
    ensures CheckPasswordStrength(s) == 8
    ensures CheckPassword(s, {s}) == Common
  {
    AllClassesFromWitnesses(s, 0, 1, 3, 6);
  }
}
