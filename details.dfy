/**
 * The detailed feedback panel (ai-resume-analyzer-main/src/components/Details.jsx):
 * a score badge per category, coloured by its own cut-offs, and the tips of
 * each category headed "Strength" or "Improvement Area".
 */
module DetailsPanel {
  import opened Feedback

  /** `ScoreBadge`: the badge background, the icon and the text colour. */
  datatype Badge = Badge(background: string, icon: string, textColor: string)

  /** The badge as the component computes it, one ternary per attribute. */
  function ScoreBadge(score: int): Badge
  {
    Badge(
      if score > 69 then "bg-badge-green" else if score > 39 then "bg-badge-yellow" else "bg-badge-red",
      if score > 69 then "/icons/check.svg" else "/icons/warning.svg",
      if score > 69 then "text-badge-green-text" else if score > 39 then "text-badge-yellow-text" else "text-badge-red-text")
  }

  /** The badge's tier: above 69 green, 40 to 69 yellow, 39 or below red. */
  function BadgeTier(score: int): Tier
  {
    TierBy(69, 39, score)
  }

  function BadgeOf(t: Tier): Badge
  {
    match t
    case Green => Badge("bg-badge-green", "/icons/check.svg", "text-badge-green-text")
    case Yellow => Badge("bg-badge-yellow", "/icons/warning.svg", "text-badge-yellow-text")
    case Red => Badge("bg-badge-red", "/icons/warning.svg", "text-badge-red-text")
  }

  /** Background, icon and text colour always come from the one tier of the score. */
  lemma BadgeIsOneTier(score: int)
    ensures ScoreBadge(score) == BadgeOf(BadgeTier(score))
  {
  }

  /** The bands, and the check icon exactly for the green tier (the warning icon for both others). */
  lemma BadgeTierBands(score: int)
    ensures BadgeTier(score) == Green <==> score >= 70
    ensures BadgeTier(score) == Yellow <==> 40 <= score <= 69
    ensures BadgeTier(score) == Red <==> score <= 39
    ensures ScoreBadge(score).icon == "/icons/check.svg" <==> BadgeTier(score) == Green
  {
  }

  /** A higher score never gets a worse badge. */
  lemma BadgeTierMonotone(a: int, b: int)
    requires a <= b
    ensures Rank(BadgeTier(a)) <= Rank(BadgeTier(b))
  {
    TierByMonotone(69, 39, a, b);
  }

  /** The heading of one tip in `CategoryContent`. */
  function TipHeading(t: Tip): string
  {
    if t.kind == "good" then "Strength" else "Improvement Area"
  }

  lemma TipHeadingSpec(t: Tip)
    ensures TipHeading(t) == "Strength" <==> IsGood(t.kind)
    ensures TipHeading(t) == "Improvement Area" <==> !IsGood(t.kind)
  {
  }

  /** A section of the accordion: its title, the score its badge shows and the tips it lists. */
  datatype Section = Section(title: string, score: int, tips: seq<Tip>)

  /** The four accordion items, in the order the component writes them. */
  function Sections(f: Feedback): seq<Section>
  {
    [ Section("Tone & Style", f.toneAndStyle.score, f.toneAndStyle.tips),
      Section("Content", f.content.score, f.content.tips),
      Section("Structure", f.structure.score, f.structure.tips),
      Section("Skills", f.skills.score, f.skills.tips) ]
  }

  function SectionTitles(ss: seq<Section>): seq<string>
  {
    seq(|ss|, i requires 0 <= i < |ss| => ss[i].title)
  }

  /** The fixed order of the categories, each shown with its own score and tips; Impact is not among them. */
  lemma SectionsSpec(f: Feedback)
    ensures SectionTitles(Sections(f)) == ["Tone & Style", "Content", "Structure", "Skills"]
    ensures Sections(f)[0].score == f.toneAndStyle.score && Sections(f)[0].tips == f.toneAndStyle.tips
    ensures Sections(f)[1].score == f.content.score && Sections(f)[1].tips == f.content.tips
    ensures Sections(f)[2].score == f.structure.score && Sections(f)[2].tips == f.structure.tips
    ensures Sections(f)[3].score == f.skills.score && Sections(f)[3].tips == f.skills.tips
  {
  }
}
