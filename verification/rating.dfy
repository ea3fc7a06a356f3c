/** The rating label shown for a strength score. */
module Ratings {

  datatype Rating = TooWeak | Weak | Average | NotThatStrong | Strong | ExtremelyStrong | Unknown

  /** The text shown for each rating: a coloured marker and the rating's
      name; the defensive fallback has no marker. */
  function Label(r: Rating): string
    ensures Label(r) == "Unknown" <==> r == Unknown
  {
    match r
    case TooWeak => "\U{1F534} Too weak"
    case Weak => "\U{1F534} Weak"
    case Average => "\U{1F7E1} Average"
    case NotThatStrong => "\U{1F7E1} Not that strong"
    case Strong => "\U{2705} Strong"
    case ExtremelyStrong => "\U{1F3C6} Extremely strong"
    case Unknown => "Unknown"
  }

  /** Perceived strength of a rating; Unknown lies below every real rating. */
  function Level(r: Rating): int {
    match r
    case Unknown => -1
    case TooWeak => 0
    case Weak => 1
    case Average => 2
    case NotThatStrong => 3
    case Strong => 4
    case ExtremelyStrong => 5
  }

  /** The rating of each score from 0 to 8, indexed by score. */
  const RatingTable: seq<Rating> :=
    [TooWeak, Weak, Weak, Average, NotThatStrong, Strong, Strong, ExtremelyStrong, ExtremelyStrong]

  /** Maps a score to its rating, checking the bands from the weakest up. */
  function FriendlyStrengthMessage(score: int): (r: Rating)
    ensures r == Unknown <==> score < 0
    ensures score >= 7 ==> r == ExtremelyStrong
    ensures 0 <= score < |RatingTable| ==> r == RatingTable[score]
  {
    if score == 0 then TooWeak
    else if 1 <= score <= 2 then Weak
    else if score == 3 then Average
    else if score == 4 then NotThatStrong
    else if 5 <= score <= 6 then Strong
    else if score >= 7 then ExtremelyStrong
    else Unknown
  }

  /** A higher score never gets a weaker rating; negative scores get
      Unknown, which ranks below every real rating. */
  lemma RatingMonotonic(a: int, b: int)
    requires a <= b
    ensures Level(FriendlyStrengthMessage(a)) <= Level(FriendlyStrengthMessage(b))
  {
  }

  /** The message text for a score: the fallback text "Unknown" is produced
      exactly for negative scores, so every score from 0 up gets a real
      rating's text. */
  function FriendlyStrengthText(score: int): (t: string)
    ensures t == "Unknown" <==> score < 0
    ensures 0 <= score <= 8 ==> t == Label(RatingTable[score])
  {
    Label(FriendlyStrengthMessage(score))
  }
}
