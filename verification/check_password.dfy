/** The per-password decision: a common password scores 0 outright; otherwise
    the result either lists the missing classes or, once all four classes are
    present, carries a rating and possibly a tip to lengthen the password. */
module Evaluator {
  import opened Classification
  import opened Lengths
  import opened Strength
  import opened Ratings

  /** What an evaluation reports in place of the printed feedback. */
  datatype Evaluation =
    | Common
    | Incomplete(score: nat, missing: seq<ClassName>)
    | Complete(score: nat, length: nat, rating: Rating, lengthTip: bool)

  /** The integer the evaluation returns: 0 for a common password, the
      carried score otherwise. */
  function ReturnedScore(e: Evaluation): nat {
    match e
    case Common => 0
    case Incomplete(score, _) => score
    case Complete(score, _, _, _) => score
  }

  /** Evaluates one password against the common-password set. A common
      password is reported as such without being classified. Otherwise the
      result carries the strength score and either the classes still missing,
      in class order, or, once all four classes are present, the length, the
      rating of the score and whether to advise a longer password. */
  function CheckPassword(password: string, commonPasswords: set<string>): (e: Evaluation)
    ensures e.Common? <==> password in commonPasswords
    ensures ReturnedScore(e) == (if password in commonPasswords then 0 else CheckPasswordStrength(password))
    ensures e.Incomplete? <==> password !in commonPasswords && exists n :: !Contains(password, n)
    ensures e.Incomplete? ==> forall n :: n in e.missing <==> !Contains(password, n)
    ensures e.Incomplete? ==> forall i, j :: 0 <= i < j < |e.missing| ==> Rank(e.missing[i]) < Rank(e.missing[j])
    ensures e.Incomplete? ==> e.score + |e.missing| == |ClassOrder|
    ensures e.Complete? ==> e.length == |password| && 4 <= e.score <= 8
    ensures e.Complete? ==> e.rating != Unknown && e.rating == FriendlyStrengthMessage(e.score)
    ensures e.Complete? ==> (e.lengthTip <==> e.score < 5) && (e.lengthTip <==> |password| < 8)
  {
    if password in commonPasswords then Common
    else
      var cs := CharacterClassScore(password);
      var score := CheckPasswordStrength(password);
      if cs.count < 4 then
        Incomplete(score, Missing(cs.flags))
      else
        Complete(score, |password|, FriendlyStrengthMessage(score), score < 5)
  }

  /** Membership in the common set decides the result before any
      classification: even a password using all four classes at full length
      scores 0 when it is common. */
  lemma CommonShortCircuits(password: string, commonPasswords: set<string>)
    requires password in commonPasswords
    ensures CheckPassword(password, commonPasswords) == Common
    ensures ReturnedScore(CheckPassword(password, commonPasswords)) == 0
  {
  }

  /** Outside the common set the returned score is exactly the strength
      score, so it lies in 0..8. */
  lemma NonCommonReturnsStrength(password: string, commonPasswords: set<string>)
    requires password !in commonPasswords
    ensures ReturnedScore(CheckPassword(password, commonPasswords)) == CheckPasswordStrength(password)
  {
  }

  /** The returned score is always in 0..8. */
  lemma ReturnedScoreBounded(password: string, commonPasswords: set<string>)
    ensures ReturnedScore(CheckPassword(password, commonPasswords)) <= 8
  {
  }

  /** With a class missing, the result outside the common set depends only
      on which classes are present, never on the length. */
  lemma IncompleteDeterminedByFlags(password: string, commonPasswords: set<string>, f: ClassFlags)
    requires password !in commonPasswords
    requires forall n :: Flag(f, n) <==> Contains(password, n)
    requires Count(f) < 4
    ensures CheckPassword(password, commonPasswords) == Incomplete(Count(f), Missing(f))
  {
    var g := CharacterClassScore(password).flags;
    assert Flag(g, Upper) == Flag(f, Upper) && Flag(g, Lower) == Flag(f, Lower);
    assert Flag(g, Digit) == Flag(f, Digit) && Flag(g, Symbol) == Flag(f, Symbol);
    assert g == f;
  }

  /** With all four classes present the result is fixed by the length alone:
      the score is four plus the length bonus, the rating is that score's, and
      the tip appears iff the password is shorter than 8 characters. */
  lemma CompleteDeterminedByLength(password: string, commonPasswords: set<string>)
    requires password !in commonPasswords
    requires forall n :: Contains(password, n)
    ensures var score := 4 + LengthBonus(password);
            CheckPassword(password, commonPasswords) == Complete(score, |password|, FriendlyStrengthMessage(score), |password| < 8)
  {
  }
}
