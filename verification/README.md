# Password strength evaluator — Dafny model

A model of the scoring core of a small Python password-strength checker
(`main.py`). A password is scored on which of four character classes it uses
(uppercase letter, lowercase letter, decimal digit, ASCII punctuation) and, once
all four are present, on how many of the length thresholds 8, 12, 16 and 20 it
reaches. The score (0..8) maps to a fixed rating. The per-password decision
`check_password` first rejects passwords on a common-password list with score 0.
Otherwise it reports either the classes still missing, in the order upper,
lower, digit, symbol, or the rating plus a tip to lengthen the password when
the score is below 5.

Modules, one per part of the scoring pipeline:

- `CharClasses` (`char_classes.dfy`): the four per-character predicates and the
  literal ASCII punctuation set.
- `Classification` (`classification.dfy`): `character_class_score`. This covers
  the flags record, the class count and the ordered list of missing classes.
  `AnyOf` models Python's `any(...)` scan. Its contract ties the scan to the
  existence of a character of the class.
- `Lengths` (`length_bonus.dfy`): `length_bonus`, with the thresholds as
  an independent reference (the set of thresholds reached).
- `Strength` (`strength.dfy`): `check_password_strength`.
- `Ratings` (`rating.dfy`): `friendly_strength_message`, as a `Rating` enum.
  It is checked against an independent score-indexed table.
- `Evaluator` (`check_password.dfy`): `check_password`. It returns an
  `Evaluation` value (`Common`, `Incomplete(score, missing)` or
  `Complete(score, length, rating, lengthTip)`) instead of printing.
  `ReturnedScore` gives the integer the Python function returns.
- `Scenarios` (`scenarios.dfy`): the evaluator on concrete passwords.

All operations are pure functions. Calling one twice on the same password and
common set gives the same result, since nothing is stored between calls.

## Model

| member | source | states |
|---|---|---|
| CharClasses.IsUpper | main.py:15 | the per-character `isupper` test, over ASCII (see Left out) |
| CharClasses.IsLower | main.py:16 | the per-character `islower` test, over ASCII (see Left out) |
| CharClasses.IsDigit | main.py:17 | the per-character `isdigit` test, over ASCII (see Left out) |
| CharClasses.LettersAndDigitsListed | main.py:15-17 | the uppercase, lowercase and digit tests hold exactly for the characters of "A".."Z", "a".."z" and "0".."9" listed out |
| CharClasses.IsSymbol | main.py:18 | a character is in `string.punctuation` iff it lies in one of the ranges `!`-`/`, `:`-`@`, `[`-`` ` ``, `{`-`~` |
| CharClasses.SymbolsArePrintableRest | main.py:18 | a character is punctuation iff it is printable non-space ASCII and neither a letter nor a digit |
| CharClasses.ClassesDisjoint | main.py:15-18 | no character belongs to two of the four classes |
| Classification.AnyOf | main.py:15-18 | the `any(...)` scan is true iff some character of the password is in the class |
| Classification.Count | main.py:25 | the count of set flags is at most 4; it is 0 iff no flag is set and 4 iff all are |
| Classification.Missing | main.py:87 | the missing list holds exactly the classes whose flag is false, in the order upper, lower, digit, symbol, and its length is 4 minus the count |
| Classification.CharacterClassScore | main.py:13-26 | each flag is set iff the password has a character of that class; the count is the number of set flags, in 0..4; it is 0 iff no character is in any class and 4 iff all classes occur; the empty password gives all flags false and count 0 |
| Classification.ContainsAppend | main.py:15-18 | a class occurs in a concatenation iff it occurs in one of the parts |
| Classification.CountGrowsUnderAppend | main.py:13-26 | appending characters keeps every set flag set and never lowers the class count |
| Classification.MissingListsAbsentClasses | main.py:86-87 | the missing list of a password names exactly the classes it lacks and is empty iff the count is 4 |
| Lengths.LengthBonus | main.py:28-39 | the bonus is in 0..4; it is 0 iff the length is below 8 and 4 iff the length is at least 20 |
| Lengths.BonusCountsReachedThresholds | main.py:28-39 | the bonus equals the number of thresholds t in {8, 12, 16, 20} with length >= t |
| Lengths.BonusMonotonic | main.py:28-39 | a longer password never earns a smaller bonus |
| Strength.CheckPasswordStrength | main.py:41-55 | the score is in 0..8; below 4 it is the class count; it is at least 4 iff all four classes occur; at least 5 iff all classes occur and the length is at least 8; 8 iff all classes occur and the length is at least 20 |
| Strength.IncompleteIgnoresLength | main.py:48-52 | with fewer than four classes, passwords with the same flags score the class count whatever their lengths |
| Strength.CompleteAddsReachedThresholds | main.py:53-55 | with all four classes the score is 4 plus the number of length thresholds reached |
| Strength.LowercaseOnlyScoresOne | main.py:48-52 | a non-empty all-lowercase password scores 1 at any length |
| Strength.StrengthGrowsUnderAppend | main.py:41-55 | appending characters never lowers the score |
| Ratings.FriendlyStrengthMessage | main.py:57-72 | scores 0..8 get the table ratings Too weak, Weak, Weak, Average, Not that strong, Strong, Strong, Extremely strong, Extremely strong; every score from 7 up is Extremely strong; Unknown occurs iff the score is negative |
| Ratings.RatingMonotonic | main.py:57-72 | for any two integer scores, the higher never gets a weaker rating (Unknown, for negative scores, ranks lowest) |
| Ratings.Label | main.py:60-72 | the text of each rating is its coloured marker and name, as returned by the source; the text is "Unknown" exactly for the Unknown rating |
| Ratings.FriendlyStrengthText | main.py:57-72 | the returned message text is "Unknown" iff the score is negative, and for scores 0..8 it is the text of the table rating |
| Evaluator.ReturnedScore | main.py:78-97 | the integer `check_password` returns, defined by cases: 0 for `Common`, the carried score otherwise; its value for each password is stated by `CheckPassword` |
| Evaluator.CheckPassword | main.py:74-97 | the result is Common iff the password is in the common set; Incomplete iff it is not common and some class is missing, and then the missing list is exactly the absent classes, in class order, with score 4 minus their number; otherwise Complete with the password length, a score in 4..8, that score's non-Unknown rating, and a length tip iff the score is below 5, which holds iff the password is shorter than 8; the returned score is 0 for a common password and the strength score otherwise |
| Evaluator.CommonShortCircuits | main.py:78-80 | a password in the common set yields Common with returned score 0 |
| Evaluator.NonCommonReturnsStrength | main.py:82-97 | outside the common set the returned score is exactly the strength score |
| Evaluator.ReturnedScoreBounded | main.py:74-97 | the returned score is always in 0..8 |
| Evaluator.IncompleteDeterminedByFlags | main.py:82-90 | with a class missing, the result is fixed by the flags: score = class count, missing = the clear flags |
| Evaluator.CompleteDeterminedByLength | main.py:92-97 | with all classes present, the result is score 4 + length bonus, the length, that score's rating, and a tip iff the length is below 8 |
| Scenarios.EmptyPassword | main.py:82-90 | the empty password scores 0 with all four classes missing |
| Scenarios.LowercaseOnlyEvaluation | main.py:82-90 | a non-empty lowercase-only password outside the common set scores 1 and misses upper, digit and symbol, at any length |
| Scenarios.LowercaseWord | main.py:82-90 | "abcdefgh" scores 1, missing upper, digit and symbol |
| Scenarios.LongLowercaseWord | main.py:48-52 | a 20-letter lowercase password still scores 1 |
| Scenarios.AlphanumericEvaluation | main.py:82-90 | a password of letters and digits only that uses both cases and a digit, outside the common set, scores 3 and misses only symbol |
| Scenarios.NoSymbol | main.py:82-90 | "Abc12345" scores 3, missing only symbol |
| Scenarios.FourClassesLengthEight | main.py:92-97 | "Abc123!@" scores 5, rated Strong, no tip |
| Scenarios.FourClassesLengthSixteen | main.py:92-97 | "Abc123!@#XYZ7890" scores 7, rated Extremely strong |
| Scenarios.FourClassesTooShort | main.py:92-97 | "Ab1!" scores 4, rated Not that strong, with the length tip |
| Scenarios.CommonOverridesComposition | main.py:78-80 | a 20-character four-class password with strength 8 is still reported as common |

## Left out

- `load_common_passwords` (main.py:8-11) reads a file, so it is not modelled. The common-password set is an explicit `set<string>` parameter. The lazy load when `common_passwords` is `None` (main.py:75-76) is left out for the same reason.
- `interactive_loop` and the `__main__` guard (main.py:99-112) are console I/O and keyboard-interrupt handling, so they are not modelled.
- The printed messages (main.py:79, 88-89, 93-96) become fields of `Evaluation`: the missing list, the length, the rating and the `lengthTip` flag. The fixed advisory texts are not reproduced.
- CharClasses.IsUpper, CharClasses.IsLower and CharClasses.IsDigit recognise ASCII `A`-`Z`, `a`-`z` and `0`-`9` only. Python's `str.isupper`, `islower` and `isdigit` are Unicode-aware: a non-ASCII character with Unicode's Uppercase or Lowercase property (e.g. 'É', 'ß', 'Ⓐ') or a non-ASCII digit (e.g. '²', '٣') sets a flag in Python but not in this model; uncased characters such as '中' set no flag in either. The Unicode character database is not part of this model. The symbol class is exactly Python's `string.punctuation` in both.
- Dafny's `string` holds Unicode scalar values only, so a Python `str` containing a lone surrogate (such as U+DC80 from surrogate-escaped input) cannot be represented. Behaviour is unaffected: such a character sets no flag and counts 1 toward the length, like any other uncased character.
- The optional parameters `class_flags` and `length` of `friendly_strength_message` (main.py:57) are not modelled; the function never uses them.
