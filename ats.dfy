/**
 * The ATS score card (ai-resume-analyzer-main/src/components/ATS.jsx): five
 * separately written ternaries on the score pick the card's gradient, icon,
 * subtitle, icon background and score colour, and the suggestions are listed
 * with a "good" or "improve" style.
 */
module AtsCard {
  import opened Feedback

  /** The score-dependent parts of the card. */
  datatype AtsLook = AtsLook(gradient: string, icon: string, subtitle: string,
                             iconBackground: string, scoreColor: string)

  /** The card as the component computes it, one ternary per attribute. */
  function Look(score: int): AtsLook
  {
    AtsLook(
      if score > 69 then "from-green-100" else if score > 49 then "from-yellow-100" else "from-red-100",
      if score > 69 then "/icons/ats-good.svg" else if score > 49 then "/icons/ats-warning.svg" else "/icons/ats-bad.svg",
      if score > 69 then "Great Job!" else if score > 49 then "Good Start" else "Needs Improvement",
      if score > 69 then "bg-green-500/20" else if score > 49 then "bg-amber-500/20" else "bg-red-500/20",
      if score > 69 then "text-green-400" else if score > 49 then "text-amber-400" else "text-red-400")
  }

  /** The card's tier: above 69 green, 50 to 69 yellow, 49 or below red. */
  function AtsTier(score: int): Tier
  {
    TierBy(69, 49, score)
  }

  /** The look of each tier, all five attributes together. */
  function LookOf(t: Tier): AtsLook
  {
    match t
    case Green => AtsLook("from-green-100", "/icons/ats-good.svg", "Great Job!", "bg-green-500/20", "text-green-400")
    case Yellow => AtsLook("from-yellow-100", "/icons/ats-warning.svg", "Good Start", "bg-amber-500/20", "text-amber-400")
    case Red => AtsLook("from-red-100", "/icons/ats-bad.svg", "Needs Improvement", "bg-red-500/20", "text-red-400")
  }

  /** The five ternaries never disagree: every attribute comes from the one tier of the score. */
  lemma LookIsOneTier(score: int)
    ensures Look(score) == LookOf(AtsTier(score))
  {
  }

  /** Green with "Great Job!" exactly above 69, yellow with "Good Start" from 50 to 69, red with "Needs Improvement" from 49 down. */
  lemma AtsTierBands(score: int)
    ensures AtsTier(score) == Green <==> score >= 70
    ensures AtsTier(score) == Yellow <==> 50 <= score <= 69
    ensures AtsTier(score) == Red <==> score <= 49
    ensures Look(score).subtitle == "Great Job!" <==> score >= 70
    ensures Look(score).icon == "/icons/ats-warning.svg" <==> 50 <= score <= 69
    ensures Look(score).subtitle == "Needs Improvement" <==> score <= 49
  {
  }

  /** A higher score never gets a worse tier. */
  lemma AtsTierMonotone(a: int, b: int)
    requires a <= b
    ensures Rank(AtsTier(a)) <= Rank(AtsTier(b))
  {
    TierByMonotone(69, 49, a, b);
  }

  /** A listed suggestion: the badge classes, whether the check mark (rather than the warning sign) is drawn, and the text. */
  datatype SuggestionRow = SuggestionRow(badge: string, checkMark: bool, tip: string)

  function SuggestionRowOf(s: Tip): SuggestionRow
  {
    SuggestionRow(
      if s.kind == "good" then "bg-emerald-500/20 text-emerald-400" else "bg-amber-500/20 text-amber-400",
      s.kind == "good",
      s.tip)
  }

  /** `suggestions.map(...)`: each suggestion is a tip, with a `type` and its text. */
  function SuggestionRows(ss: seq<Tip>): seq<SuggestionRow>
  {
    seq(|ss|, i requires 0 <= i < |ss| => SuggestionRowOf(ss[i]))
  }

  /**
   * One row per suggestion, in the given order and with its text; a row gets
   * the check mark and the emerald badge exactly when its type is `"good"`.
   */
  lemma SuggestionRowsSpec(ss: seq<Tip>)
    ensures |SuggestionRows(ss)| == |ss|
    ensures forall i :: 0 <= i < |ss| ==> SuggestionRows(ss)[i].tip == ss[i].tip
    ensures forall i :: 0 <= i < |ss| ==> (SuggestionRows(ss)[i].checkMark <==> IsGood(ss[i].kind))
    ensures forall i :: 0 <= i < |ss| ==>
      (SuggestionRows(ss)[i].badge == "bg-emerald-500/20 text-emerald-400" <==> IsGood(ss[i].kind))
  {
  }
}
