/**
 * The analysis feedback the result pages display, and the three-way score
 * classification the score cards share (each card with its own cut-offs).
 */
module Feedback {
  import opened Wrappers

  /** A score tier, best first. */
  datatype Tier = Green | Yellow | Red

  /** How good a tier is: the larger, the better. */
  function Rank(t: Tier): nat
  {
    match t
    case Green => 2
    case Yellow => 1
    case Red => 0
  }

  /** A tip, or an ATS suggestion: `type` is `'good'` for a strength; any other value marks something to improve. */
  datatype Tip = Tip(kind: string, tip: string)

  predicate IsGood(kind: string) { kind == "good" }

  /** One feedback category: a score out of 100 and its tips. */
  datatype Category = Category(score: int, tips: seq<Tip>)

  /** The feedback object; `impact` may be missing. */
  datatype Feedback = Feedback(toneAndStyle: Category, content: Category, structure: Category,
                               skills: Category, impact: Option<Category>)

  /**
   * The classification of a score by two cut-offs, `score > high` and
   * `score > low`, as the cards' nested ternaries and `if` chains write it.
   */
  function TierBy(high: int, low: int, score: int): Tier
  {
    if score > high then Green else if score > low then Yellow else Red
  }

  /** With `low <= high`, a higher score never falls into a worse tier. */
  lemma TierByMonotone(high: int, low: int, a: int, b: int)
    requires low <= high && a <= b
    ensures Rank(TierBy(high, low, a)) <= Rank(TierBy(high, low, b))
  {
  }
}
