/** Extra points for password length: one per length threshold reached. */
module Lengths {

  /** The length thresholds, each worth one point once reached. */
  const Thresholds: seq<nat> := [8, 12, 16, 20]

  /** The thresholds a password of length n reaches. */
  ghost function Reached(n: nat): set<nat> {
    set t | t in Thresholds && t <= n
  }

  /** One point for each of lengths 8, 12, 16 and 20 that the password
      reaches. */
  function LengthBonus(s: string): (r: nat)
    ensures r <= |Thresholds|
    ensures r == 0 <==> |s| < Thresholds[0]
    ensures r == |Thresholds| <==> |s| >= Thresholds[3]
  {
    var n := |s|;
    (if n >= 8 then 1 else 0) + (if n >= 12 then 1 else 0)
    + (if n >= 16 then 1 else 0) + (if n >= 20 then 1 else 0)
  }

  /** The bonus is the number of thresholds reached, counted independently of
      each other. */
  lemma BonusCountsReachedThresholds(s: string)
    ensures LengthBonus(s) == |Reached(|s|)|
  {
    var n := |s|;
    if n < 8 {
      assert Reached(n) == {};
    } else if n < 12 {
      assert Reached(n) == {8};
    } else if n < 16 {
      assert Reached(n) == {8, 12};
    } else if n < 20 {
      assert Reached(n) == {8, 12, 16};
    } else {
      assert Reached(n) == {8, 12, 16, 20};
    }
  }

  /** A longer password never earns a smaller bonus. */
  lemma BonusMonotonic(s: string, t: string)
    requires |s| <= |t|
    ensures LengthBonus(s) <= LengthBonus(t)
  {
  }
}
