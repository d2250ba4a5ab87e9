/** The badge shown for a row's verdict (components/JudgmentBadge.tsx). */
module JudgmentBadge {
  import opened Wrappers
  import opened Types

  /** The colour family of a badge's Tailwind classes. */
  datatype Tone = Green | Yellow | Red

  /** What the badge shows: its label text and its colour. */
  datatype Badge = Badge(text: string, tone: Tone)

  /** The badge for each verdict: its label and colour. Each label and each
      colour belongs to exactly one verdict. */
  function BadgeOf(j: Judgment): (b: Badge)
    ensures b.text == "合格" <==> j == Pass
    ensures b.text == "注意" <==> j == Warning
    ensures b.text == "修正要" <==> j == Fail
    ensures b.tone == Green <==> j == Pass
    ensures b.tone == Yellow <==> j == Warning
    ensures b.tone == Red <==> j == Fail
  {
    match j
    case Pass => Badge("合格", Green)
    case Warning => Badge("注意", Yellow)
    case Fail => Badge("修正要", Red)
  }

  /** The component's `switch` over the raw judgment string: the verdict's
      badge for the three verdict names, nothing (`null`) for any other string. */
  function BadgeFor(judgment: string): (b: Option<Badge>)
    ensures b.Some? <==> judgment == "PASS" || judgment == "WARNING" || judgment == "FAIL"
    ensures b.Some? ==> b.value == BadgeOf(ParseJudgment(judgment).value)
  {
    match ParseJudgment(judgment)
    case Some(j) => Some(BadgeOf(j))
    case None => None
  }

  /** The three cases of the switch: PASS shows 合格 in green, WARNING 注意 in
      yellow, FAIL 修正要 in red. */
  lemma BadgeOfName()
    ensures BadgeFor("PASS") == Some(Badge("合格", Green))
    ensures BadgeFor("WARNING") == Some(Badge("注意", Yellow))
    ensures BadgeFor("FAIL") == Some(Badge("修正要", Red))
  {
  }

  /** Distinct verdicts get distinct labels and distinct colours, so a badge
      identifies the judgment string it was drawn for. */
  lemma BadgeInjective(s: string, t: string)
    requires BadgeFor(s).Some? && BadgeFor(t).Some?
    ensures BadgeFor(s).value.text == BadgeFor(t).value.text <==> s == t
    ensures BadgeFor(s).value.tone == BadgeFor(t).value.tone <==> s == t
  {
  }
}
