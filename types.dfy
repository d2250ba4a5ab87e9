/** The report records exchanged with the compliance model (types.ts). */
module Types {
  import opened Wrappers

  /** The three verdicts a review row may carry. */
  datatype Judgment = Pass | Warning | Fail

  /** The wire spelling of a verdict. */
  function JudgmentName(j: Judgment): string
  {
    match j
    case Pass => "PASS"
    case Warning => "WARNING"
    case Fail => "FAIL"
  }

  /** Reads a wire verdict back; every other string is no verdict at all. */
  function ParseJudgment(s: string): (j: Option<Judgment>)
    ensures j.Some? ==> JudgmentName(j.value) == s
    ensures j.None? ==> forall k: Judgment :: JudgmentName(k) != s
  {
    if s == "PASS" then Some(Pass)
    else if s == "WARNING" then Some(Warning)
    else if s == "FAIL" then Some(Fail)
    else None
  }

  /** One row of the report. `judgment` is kept as the string the model sent:
      the response is cast to this shape without any check, so a value
      outside PASS, WARNING and FAIL can reach the presenter. */
  datatype ReviewResult = ReviewResult(
    item: string,
    originalContent: string,
    factCheckResult: string,
    judgment: string,
    suggestion: string,
    source: string,
    sourceUrl: Option<string>)

  /** A cited page or place. */
  datatype SourceRef = SourceRef(uri: string, title: string)

  /** One grounding citation: a web reference, a map reference, or both. */
  datatype GroundingChunk = GroundingChunk(web: Option<SourceRef>, maps: Option<SourceRef>)

  /** The whole report, as parsed from the model's answer. */
  datatype ComplianceReport = ComplianceReport(
    results: seq<ReviewResult>,
    revisedAdCopy: Option<string>,
    overallComment: string,
    groundingSources: Option<seq<GroundingChunk>>)
}
