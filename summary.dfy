/**
 * The summary panel (ai-resume-analyzer-main/src/components/Summary.jsx): one
 * row per category with a bar coloured by the score (80 and up emerald, 50 and
 * up amber, rose below), Impact shown with a default when it is missing.
 */
module SummaryPanel {
  import opened Wrappers
  import opened Feedback

  /** The bar colour, the bar's track and the score text colour of one row. */
  datatype RowColors = RowColors(bar: string, track: string, text: string)

  /** The `if` chain of `Category`, written on the score as the component does. */
  function CategoryColors(score: int): RowColors
  {
    if score >= 80 then RowColors("bg-emerald-500", "bg-emerald-100", "text-emerald-700")
    else if score >= 50 then RowColors("bg-amber-500", "bg-amber-100", "text-amber-700")
    else RowColors("bg-rose-500", "bg-rose-100", "text-rose-700")
  }

  /** The row's tier: 80 and up green, 50 to 79 yellow, below 50 red (scores are whole numbers). */
  function RowTier(score: int): Tier
  {
    TierBy(79, 49, score)
  }

  /** The colour family of a tier, all three classes from the same family. */
  function ColorsOf(t: Tier): RowColors
  {
    match t
    case Green => RowColors("bg-emerald-500", "bg-emerald-100", "text-emerald-700")
    case Yellow => RowColors("bg-amber-500", "bg-amber-100", "text-amber-700")
    case Red => RowColors("bg-rose-500", "bg-rose-100", "text-rose-700")
  }

  /** The `>=` cut-offs of this panel are the `>` cut-offs 79 and 49 of the shared classification. */
  lemma CategoryColorsAreOneTier(score: int)
    ensures CategoryColors(score) == ColorsOf(RowTier(score))
    ensures RowTier(score) == Green <==> score >= 80
    ensures RowTier(score) == Yellow <==> 50 <= score < 80
    ensures RowTier(score) == Red <==> score < 50
  {
  }

  /** A higher score never gets a worse colour. */
  lemma RowTierMonotone(a: int, b: int)
    requires a <= b
    ensures Rank(RowTier(a)) <= Rank(RowTier(b))
  {
    TierByMonotone(79, 49, a, b);
  }

  /** `feedback.impact?.score || 85`: a missing Impact, and a score of 0, both show as 85. */
  function ImpactScore(impact: Option<Category>): (r: int)
    ensures impact.None? ==> r == 85
    ensures impact.Some? && impact.value.score != 0 ==> r == impact.value.score
    ensures impact.Some? && impact.value.score == 0 ==> r == 85
  {
    if impact.Some? && impact.value.score != 0 then impact.value.score else 85
  }

  /** The Impact row never shows 0, and shows a real score exactly when one other than 0 is given. */
  lemma ImpactScoreNeverZero(impact: Option<Category>)
    ensures ImpactScore(impact) != 0
    ensures ImpactScore(impact) != 85 ==> impact.Some? && ImpactScore(impact) == impact.value.score
  {
  }

  /** A row of the panel: its title and the score it shows. */
  datatype Row = Row(title: string, score: int)

  /** The five rows, in the order the component writes them. */
  function Rows(f: Feedback): seq<Row>
  {
    [ Row("Tone & Style", f.toneAndStyle.score),
      Row("Content", f.content.score),
      Row("Structure", f.structure.score),
      Row("Skills", f.skills.score),
      Row("Impact", ImpactScore(f.impact)) ]
  }

  /** Five rows in a fixed order, the first four with their category's own score and Impact with its fallback, never 0. */
  lemma RowsSpec(f: Feedback)
    ensures |Rows(f)| == 5
    ensures Rows(f)[0] == Row("Tone & Style", f.toneAndStyle.score)
    ensures Rows(f)[1] == Row("Content", f.content.score)
    ensures Rows(f)[2] == Row("Structure", f.structure.score)
    ensures Rows(f)[3] == Row("Skills", f.skills.score)
    ensures Rows(f)[4] == Row("Impact", ImpactScore(f.impact)) && Rows(f)[4].score != 0
  {
    ImpactScoreNeverZero(f.impact);
  }
}
