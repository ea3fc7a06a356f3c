/** The four character classes a password is scored on, as predicates on a
    single character.

    Letters and digits are recognised over ASCII only; the punctuation class is
    the fixed set of 32 ASCII punctuation characters. */
module CharClasses {

  /** Every ASCII punctuation character, in code-point order. */
  const Punctuation: string := "!\"#$%&'()*+,-./:;<=>?@[\\]^_`{|}~"

  /** The uppercase test: one of the 26 letters A to Z. */
  predicate IsUpper(c: char)
  {
    'A' <= c <= 'Z'
  }

  /** The lowercase test: one of the 26 letters a to z. */
  predicate IsLower(c: char)
  {
    'a' <= c <= 'z'
  }

  /** The decimal digit test: one of the ten digits 0 to 9. */
  predicate IsDigit(c: char)
  {
    '0' <= c <= '9'
  }

  /** A symbol is a member of the punctuation set, nothing else; the set
      fills the four gaps of printable ASCII around the digits and letters. */
  predicate IsSymbol(c: char)
    ensures IsSymbol(c) <==> ('!' <= c <= '/') || (':' <= c <= '@') || ('[' <= c <= '`') || ('{' <= c <= '~')
  {
    c in Punctuation
  }

  /** The letter and digit tests hold exactly for the 26 uppercase letters,
      the 26 lowercase letters and the ten decimal digits. */
  lemma LettersAndDigitsListed(c: char)
    ensures IsUpper(c) <==> c in "ABCDEFGHIJKLMNOPQRSTUVWXYZ"
    ensures IsLower(c) <==> c in "abcdefghijklmnopqrstuvwxyz"
    ensures IsDigit(c) <==> c in "0123456789"
  {
  }

  /** The punctuation set is exactly the printable, non-space ASCII characters
      that are neither letters nor digits. */
  lemma SymbolsArePrintableRest(c: char)
    ensures IsSymbol(c) <==> ('!' <= c <= '~' && !IsUpper(c) && !IsLower(c) && !IsDigit(c))
  {
  }

  /** No character belongs to two classes, so the four flags are independent
      measurements of a password's composition. */
  lemma ClassesDisjoint(c: char)
    ensures IsUpper(c) ==> !IsLower(c) && !IsDigit(c) && !IsSymbol(c)
    ensures IsLower(c) ==> !IsDigit(c) && !IsSymbol(c)
    ensures IsDigit(c) ==> !IsSymbol(c)
  {
  }
}
