/** The integer draws the simulation takes from Python's `random` module,
    with the generator's own choice made an explicit parameter. Each model
    maps every choice into the library's range and reaches every value of
    it. */
module RandomModel {

  /** `random.randint(lo, hi)`: `pick` stands for the generator's raw choice;
      the result is always in the inclusive range. */
  function RandInt(lo: int, hi: int, pick: nat): (r: int)
    requires lo <= hi
    ensures lo <= r <= hi
  {
    lo + pick % (hi - lo + 1)
  }

  /** Every value of the inclusive range can be drawn. */
  lemma RandIntReaches(lo: int, hi: int, v: int)
    requires lo <= v <= hi
    ensures RandInt(lo, hi, v - lo) == v
  {
  }

  /** `random.choice(s)` on a non-empty sequence: one of its elements. */
  function Choice<T>(s: seq<T>, pick: nat): (r: T)
    requires |s| > 0
    ensures r in s
  {
    s[pick % |s|]
  }

  /** Every element of the sequence can be chosen. */
  lemma ChoiceReaches<T>(s: seq<T>, i: nat)
    requires i < |s|
    ensures Choice(s, i) == s[i]
  {
  }
}
