/** Which of the four character classes a password uses: the flags record,
    the class count, and the ordered list of classes still missing. */
module Classification {
  import opened CharClasses

  datatype ClassName = Upper | Lower | Digit | Symbol

  /** One flag per class; a flag is set iff some character of the password
      belongs to that class. */
  datatype ClassFlags = ClassFlags(upper: bool, lower: bool, digit: bool, symbol: bool)

  /** The class count together with the flags it counts. */
  datatype ClassScore = ClassScore(count: nat, flags: ClassFlags)

  /** The fixed order in which the classes are listed. */
  const ClassOrder: seq<ClassName> := [Upper, Lower, Digit, Symbol]

  /** Position of a class in ClassOrder. */
  function Rank(n: ClassName): (k: nat)
    ensures k < |ClassOrder| && ClassOrder[k] == n
  {
    match n
    case Upper => 0
    case Lower => 1
    case Digit => 2
    case Symbol => 3
  }

  predicate InClass(c: char, n: ClassName) {
    match n
    case Upper => IsUpper(c)
    case Lower => IsLower(c)
    case Digit => IsDigit(c)
    case Symbol => IsSymbol(c)
  }

  function Flag(f: ClassFlags, n: ClassName): bool {
    match n
    case Upper => f.upper
    case Lower => f.lower
    case Digit => f.digit
    case Symbol => f.symbol
  }

  /** The password has at least one character of class n. */
  ghost predicate Contains(s: string, n: ClassName) {
    exists i :: 0 <= i < |s| && InClass(s[i], n)
  }

  /** Scans the password front to back for a character of class n. */
  function AnyOf(s: string, n: ClassName): (r: bool)
    ensures r <==> Contains(s, n)
    decreases |s|
  {
    if |s| == 0 then false
    else
      assert forall i :: 1 <= i < |s| ==> s[1..][i - 1] == s[i];
      InClass(s[0], n) || AnyOf(s[1..], n)
  }

  /** The number of flags that are set. */
  function Count(f: ClassFlags): (k: nat)
    ensures k <= 4
    ensures k == 0 <==> forall n :: !Flag(f, n)
    ensures k == 4 <==> forall n :: Flag(f, n)
  {
    assert Flag(f, Upper) == f.upper && Flag(f, Lower) == f.lower;
    assert Flag(f, Digit) == f.digit && Flag(f, Symbol) == f.symbol;
    (if f.upper then 1 else 0) + (if f.lower then 1 else 0)
    + (if f.digit then 1 else 0) + (if f.symbol then 1 else 0)
  }

  /** The classes whose flag is clear, in the order upper, lower, digit,
      symbol. */
  function Missing(f: ClassFlags): (ms: seq<ClassName>)
    ensures forall n :: n in ms <==> !Flag(f, n)
    ensures forall i, j :: 0 <= i < j < |ms| ==> Rank(ms[i]) < Rank(ms[j])
    ensures Count(f) + |ms| == |ClassOrder|
  {
    (if f.upper then [] else [Upper]) + (if f.lower then [] else [Lower])
    + (if f.digit then [] else [Digit]) + (if f.symbol then [] else [Symbol])
  }

  /** The class count of a password and its four flags. */
  function CharacterClassScore(s: string): (r: ClassScore)
    ensures forall n :: Flag(r.flags, n) <==> Contains(s, n)
    ensures r.count == Count(r.flags) && r.count <= 4
    ensures r.count == 0 <==> forall i :: 0 <= i < |s| ==> !IsUpper(s[i]) && !IsLower(s[i]) && !IsDigit(s[i]) && !IsSymbol(s[i])
    ensures r.count == 4 <==> forall n :: Contains(s, n)
    ensures |s| == 0 ==> r == ClassScore(0, ClassFlags(false, false, false, false))
  {
    var flags := ClassFlags(AnyOf(s, Upper), AnyOf(s, Lower), AnyOf(s, Digit), AnyOf(s, Symbol));
    assert Flag(flags, Upper) == AnyOf(s, Upper);
    assert Flag(flags, Lower) == AnyOf(s, Lower);
    assert Flag(flags, Digit) == AnyOf(s, Digit);
    assert Flag(flags, Symbol) == AnyOf(s, Symbol);
    ClassScore(Count(flags), flags)
  }

  /** A character class is present in a concatenation iff it is present in
      one of the parts. */
  lemma ContainsAppend(s: string, t: string, n: ClassName)
    ensures Contains(s + t, n) <==> Contains(s, n) || Contains(t, n)
  {
    if Contains(s + t, n) {
      var i :| 0 <= i < |s + t| && InClass((s + t)[i], n);
      if i >= |s| {
        assert t[i - |s|] == (s + t)[i];
      }
    }
    if Contains(t, n) {
      var j :| 0 <= j < |t| && InClass(t[j], n);
      assert (s + t)[|s| + j] == t[j];
    }
    if Contains(s, n) {
      var j :| 0 <= j < |s| && InClass(s[j], n);
      assert (s + t)[j] == s[j];
    }
  }

  /** Adding characters never removes a class: the flags of s are a subset of
      the flags of s + t and the class count can only grow. */
  lemma CountGrowsUnderAppend(s: string, t: string)
    ensures forall n :: Flag(CharacterClassScore(s).flags, n) ==> Flag(CharacterClassScore(s + t).flags, n)
    ensures CharacterClassScore(s).count <= CharacterClassScore(s + t).count
  {
    ContainsAppend(s, t, Upper);
    ContainsAppend(s, t, Lower);
    ContainsAppend(s, t, Digit);
    ContainsAppend(s, t, Symbol);
  }

  /** The missing list of a password names exactly the classes it lacks, and
      is empty iff all four classes are present. */
  lemma MissingListsAbsentClasses(s: string)
    ensures forall n :: n in Missing(CharacterClassScore(s).flags) <==> !Contains(s, n)
    ensures Missing(CharacterClassScore(s).flags) == [] <==> CharacterClassScore(s).count == 4
  {
  }
}
