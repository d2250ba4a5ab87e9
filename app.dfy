/** The page controller (App.tsx): the plain-text report it copies, the rule
    that enables the analyze button, the design payload it sends, and the
    state the page's handlers update. */
module App {
  import opened Wrappers
  import opened Types
  import GeminiService
  import JsStrings

  const REPORT_TITLE := "【不動産広告審査レポート】\n総評: "
  const BULLET_SEPARATOR := "\n\n"
  const REVISED_HEADING := "\n\n【修正案】\n"

  /** The two messages the page ever shows as its error. */
  const EXCEL_ERROR := "エクセル解析エラー"
  const ANALYZE_ERROR := "AI解析中にエラーが発生しました。"

  /** The media type assumed for a design whose file type is unknown. */
  const DEFAULT_DESIGN_MIME := "application/pdf"

  // ---------------------------------------------------------------------
  // The copied report text
  // ---------------------------------------------------------------------

  /** The opening of the report: title, overall comment and a blank line. */
  function ReportHeader(overallComment: string): (h: string)
    ensures |h| == |REPORT_TITLE| + |overallComment| + 2
    ensures h[..|REPORT_TITLE|] == REPORT_TITLE
    ensures h[|REPORT_TITLE|..|REPORT_TITLE| + |overallComment|] == overallComment
    ensures h[|h| - 2..] == "\n\n"
  {
    REPORT_TITLE + overallComment + "\n\n"
  }

  /** One result as a bullet: item, raw judgment in brackets, suggestion, and
      the fact check on an indented second line. */
  function Bullet(r: ReviewResult): (b: string)
    ensures var opening := "・" + r.item + ": [";
            var closing := "\n  (事実: " + r.factCheckResult + ")";
            |opening| + |r.judgment| + 2 + |r.suggestion| + |closing| == |b| &&
            b[..|opening|] == opening &&
            b[|opening|..|opening| + |r.judgment|] == r.judgment &&
            b[|opening| + |r.judgment|..|opening| + |r.judgment| + 2] == "] " &&
            b[|opening| + |r.judgment| + 2..|b| - |closing|] == r.suggestion &&
            b[|b| - |closing|..] == closing
  {
    "・" + r.item + ": [" + r.judgment + "] " + r.suggestion + "\n  (事実: " + r.factCheckResult + ")"
  }

  /** `results.map(...)`: one bullet per result, in result order. */
  function Bullets(results: seq<ReviewResult>): (bs: seq<string>)
    ensures |bs| == |results|
    ensures forall i :: 0 <= i < |results| ==> bs[i] == Bullet(results[i])
  {
    seq(|results|, i requires 0 <= i < |results| => Bullet(results[i]))
  }

  /** The revised-copy section: present exactly when the revised copy is
      present and not empty (a truthy string). */
  function RevisedSection(revisedAdCopy: Option<string>): (s: string)
    ensures s != "" <==> revisedAdCopy.Some? && revisedAdCopy.value != ""
    ensures s != "" ==> s == REVISED_HEADING + revisedAdCopy.value
  {
    match revisedAdCopy
    case Some(copy) => if copy != "" then REVISED_HEADING + copy else ""
    case None => ""
  }

  /** The text `copyFullReport` puts on the clipboard. */
  function ReportText(report: ComplianceReport): (text: string)
    ensures var title := |REPORT_TITLE|;
            title + |report.overallComment| <= |text| &&
            text[..title] == REPORT_TITLE &&
            text[title..title + |report.overallComment|] == report.overallComment
  {
    ReportHeader(report.overallComment) +
    JsStrings.Join(Bullets(report.results), BULLET_SEPARATOR) +
    RevisedSection(report.revisedAdCopy)
  }

  /** The report text opens with the title and the overall comment and ends
      with the revised copy under its heading when there is one; without one,
      nothing follows the last bullet. */
  lemma ReportTextFrame(report: ComplianceReport)
    ensures var text := ReportText(report);
            var head := ReportHeader(report.overallComment);
            |head| <= |text| && text[..|head|] == head &&
            (report.revisedAdCopy.Some? && report.revisedAdCopy.value != "" ==>
               var tail := REVISED_HEADING + report.revisedAdCopy.value;
               |tail| <= |text| && text[|text| - |tail|..] == tail) &&
            (report.revisedAdCopy.None? || report.revisedAdCopy.value == "" ==>
               text == head + JsStrings.Join(Bullets(report.results), BULLET_SEPARATOR))
  {
  }

  /** Where the bullet of result `i` starts in the report text. */
  function BulletOffset(report: ComplianceReport, i: nat): nat
    requires i < |report.results|
  {
    |ReportHeader(report.overallComment)| + JsStrings.JoinOffset(Bullets(report.results), BULLET_SEPARATOR, i)
  }

  /** Every result's bullet appears verbatim in the report text, in result
      order, and a blank line separates it from the next one. */
  lemma ReportBulletsInOrder(report: ComplianceReport, i: nat)
    requires i < |report.results|
    ensures var at := BulletOffset(report, i);
            var b := Bullet(report.results[i]);
            at + |b| <= |ReportText(report)| &&
            ReportText(report)[at..at + |b|] == b &&
            (i + 1 < |report.results| ==>
               at + |b| + |BULLET_SEPARATOR| <= |ReportText(report)| &&
               ReportText(report)[at + |b|..at + |b| + |BULLET_SEPARATOR|] == BULLET_SEPARATOR)
  {
    var bs := Bullets(report.results);
    assert ReportText(report) ==
           ReportHeader(report.overallComment) + JsStrings.Join(bs, BULLET_SEPARATOR) + RevisedSection(report.revisedAdCopy);
    JoinedBetween(ReportHeader(report.overallComment), bs, BULLET_SEPARATOR, RevisedSection(report.revisedAdCopy), i);
  }

  /** `JsStrings.JoinAt` for a join framed by a prefix and a suffix. */
  lemma JoinedBetween(head: string, xs: seq<string>, sep: string, tail: string, i: nat)
    requires i < |xs|
    ensures var text := head + JsStrings.Join(xs, sep) + tail;
            var at := |head| + JsStrings.JoinOffset(xs, sep, i);
            at + |xs[i]| <= |text| &&
            text[at..at + |xs[i]|] == xs[i] &&
            (i + 1 < |xs| ==>
               at + |xs[i]| + |sep| <= |text| && text[at + |xs[i]|..at + |xs[i]| + |sep|] == sep)
  {
    var body := JsStrings.Join(xs, sep);
    JsStrings.JoinAt(xs, sep, i);
    var off := JsStrings.JoinOffset(xs, sep, i);
    SliceOfMiddle(head, body, tail, off, off + |xs[i]|);
    if i + 1 < |xs| {
      SliceOfMiddle(head, body, tail, off + |xs[i]|, off + |xs[i]| + |sep|);
    }
  }

  /** A slice of the middle part of a concatenation. */
  lemma SliceOfMiddle(a: string, b: string, c: string, lo: nat, hi: nat)
    requires lo <= hi <= |b|
    ensures |a| + hi <= |a + b + c|
    ensures (a + b + c)[|a| + lo..|a| + hi] == b[lo..hi]
  {
  }

  /** The report text's length: header, every bullet, one separator fewer
      than there are results, and the revised-copy section. */
  lemma ReportTextLength(report: ComplianceReport)
    ensures var n := |report.results|;
            |ReportText(report)| ==
              |ReportHeader(report.overallComment)| +
              JsStrings.TotalLength(Bullets(report.results)) +
              (if n == 0 then 0 else (n - 1) * |BULLET_SEPARATOR|) +
              |RevisedSection(report.revisedAdCopy)|
  {
    JsStrings.JoinLength(Bullets(report.results), BULLET_SEPARATOR);
  }

  // ---------------------------------------------------------------------
  // Page state
  // ---------------------------------------------------------------------

  /** A browser `File` as far as the page uses it: its name and media type. */
  datatype FileInfo = FileInfo(name: string, fileType: string)

  /** The page's state hooks, read together. */
  datatype PageState = PageState(
    adText: string,
    evidenceText: string,
    isAnalyzing: bool,
    report: Option<ComplianceReport>,
    error: Option<string>,
    userLocation: Option<GeminiService.Location>,
    evidenceFile: Option<FileInfo>,
    designFile: Option<FileInfo>,
    designPreview: Option<string>)

  /** The analyze button is disabled while an analysis runs, and when there is
      neither an evidence file nor any ad text. */
  function AnalyzeDisabled(s: PageState): (disabled: bool)
    ensures s.isAnalyzing ==> disabled
    ensures !disabled ==> s.evidenceFile.Some? || s.adText != ""
    ensures !s.isAnalyzing && (s.evidenceFile.Some? || s.adText != "") ==> !disabled
  {
    s.isAnalyzing || (s.evidenceFile.None? && s.adText == "")
  }

  /** The design sent with an analysis: only when a (non-empty) preview data
      URL exists, with the file's type, or PDF when the type is empty or the
      file is missing. */
  function DesignPayload(preview: Option<string>, file: Option<FileInfo>): (d: Option<GeminiService.DesignFile>)
    ensures d.Some? <==> preview.Some? && preview.value != ""
    ensures d.Some? ==> d.value.data == preview.value && d.value.mimeType != ""
    ensures d.Some? && file.Some? && file.value.fileType != "" ==> d.value.mimeType == file.value.fileType
    ensures d.Some? && (file.None? || file.value.fileType == "") ==> d.value.mimeType == DEFAULT_DESIGN_MIME
  {
    match preview
    case None => None
    case Some(data) =>
      if data == "" then None
      else
        var mimeType := if file.Some? && file.value.fileType != "" then file.value.fileType else DEFAULT_DESIGN_MIME;
        Some(GeminiService.DesignFile(data, mimeType))
  }

  /** The arguments `handleAnalyze` passes to the compliance call. */
  datatype AnalyzeArgs = AnalyzeArgs(
    adText: string,
    evidenceText: string,
    designFile: Option<GeminiService.DesignFile>,
    location: Option<GeminiService.Location>)

  /** The error shown is always one of the page's two messages. */
  predicate KnownError(error: Option<string>)
  {
    error.None? || error.value == EXCEL_ERROR || error.value == ANALYZE_ERROR
  }

  /** The page component: one field per state hook, one method per handler. */
  class AppState {
    var adText: string
    var evidenceText: string
    var isAnalyzing: bool
    var report: Option<ComplianceReport>
    var error: Option<string>
    var userLocation: Option<GeminiService.Location>
    var evidenceFile: Option<FileInfo>
    var designFile: Option<FileInfo>
    var designPreview: Option<string>

    /** All fields as one value. */
    function Snapshot(): PageState
      reads this
    {
      PageState(adText, evidenceText, isAnalyzing, report, error, userLocation,
                evidenceFile, designFile, designPreview)
    }

    ghost predicate Valid()
      reads this
    {
      KnownError(error)
    }

    /** The initial state of every hook. */
    constructor ()
      ensures Valid()
      ensures Snapshot() == PageState("", "", false, None, None, None, None, None, None)
      ensures AnalyzeDisabled(Snapshot())
    {
      adText, evidenceText := "", "";
      isAnalyzing := false;
      report, error := None, None;
      userLocation := None;
      evidenceFile, designFile, designPreview := None, None, None;
    }

    /** The ad text area's change handler. */
    method SetAdText(text: string)
      requires Valid()
      modifies this
      ensures Valid()
      ensures Snapshot() == old(Snapshot()).(adText := text)
    {
      adText := text;
    }

    /** The geolocation success callback; a denial leaves the state alone. */
    method SetUserLocation(location: GeminiService.Location)
      requires Valid()
      modifies this
      ensures Valid()
      ensures Snapshot() == old(Snapshot()).(userLocation := Some(location))
    {
      userLocation := Some(location);
    }

    /** `handleExcelUpload` up to starting the read: with no file chosen it
        returns at once; otherwise it records the evidence file. */
    method HandleExcelUpload(file: Option<FileInfo>)
      requires Valid()
      modifies this
      ensures Valid()
      ensures file.None? ==> Snapshot() == old(Snapshot())
      ensures file.Some? ==> Snapshot() == old(Snapshot()).(evidenceFile := file)
    {
      if file.None? {
        return;
      }
      evidenceFile := file;
    }

    /** The evidence reader's `onload`: `sheetText` is the first sheet as text,
        or `None` when reading the workbook threw. Success replaces the
        evidence text; failure shows the Excel error and keeps the old text. */
    method ExcelLoaded(sheetText: Option<string>)
      requires Valid()
      modifies this
      ensures Valid()
      ensures sheetText.Some? ==> Snapshot() == old(Snapshot()).(evidenceText := sheetText.value)
      ensures sheetText.None? ==> Snapshot() == old(Snapshot()).(error := Some(EXCEL_ERROR))
    {
      match sheetText {
        case Some(text) =>
          evidenceText := text;
        case None =>
          error := Some(EXCEL_ERROR);
      }
    }

    /** `handleDesignUpload` up to starting the read. */
    method HandleDesignUpload(file: Option<FileInfo>)
      requires Valid()
      modifies this
      ensures Valid()
      ensures file.None? ==> Snapshot() == old(Snapshot())
      ensures file.Some? ==> Snapshot() == old(Snapshot()).(designFile := file)
    {
      if file.None? {
        return;
      }
      designFile := file;
    }

    /** The design reader's `onload`: stores the file as a data URL. */
    method DesignLoaded(dataUrl: string)
      requires Valid()
      modifies this
      ensures Valid()
      ensures Snapshot() == old(Snapshot()).(designPreview := Some(dataUrl))
    {
      designPreview := Some(dataUrl);
    }

    /** `handleAnalyze` before the call settles: marks the analysis as running,
        clears the error, and hands over the current inputs. While it runs the
        button is disabled, so no second analysis can start. */
    method BeginAnalyze() returns (args: AnalyzeArgs)
      requires Valid()
      modifies this
      ensures Valid()
      ensures Snapshot() == old(Snapshot()).(isAnalyzing := true, error := None)
      ensures args == AnalyzeArgs(adText, evidenceText, DesignPayload(designPreview, designFile), userLocation)
      ensures AnalyzeDisabled(Snapshot())
    {
      isAnalyzing := true;
      error := None;
      var designData := DesignPayload(designPreview, designFile);
      args := AnalyzeArgs(adText, evidenceText, designData, userLocation);
    }

    /** `handleAnalyze` after the call settles: a report replaces the shown
        one; a failure shows the fixed message and keeps the previous report;
        either way the analysis is no longer running. */
    method FinishAnalyze(outcome: Result<ComplianceReport, GeminiService.Error>)
      requires Valid()
      modifies this
      ensures Valid()
      ensures outcome.Success? ==> Snapshot() == old(Snapshot()).(isAnalyzing := false, report := Some(outcome.value))
      ensures outcome.Failure? ==> Snapshot() == old(Snapshot()).(isAnalyzing := false, error := Some(ANALYZE_ERROR))
      ensures AnalyzeDisabled(Snapshot()) <==> evidenceFile.None? && adText == ""
    {
      match outcome {
        case Success(result) =>
          report := Some(result);
        case Failure(_) =>
          error := Some(ANALYZE_ERROR);
      }
      isAnalyzing := false;
    }

    /** `handleAnalyze` from start to finish, with `service` standing for the
        compliance call (GeminiService.CheckComplianceWithFiles with the model
        call and the parser). */
    method HandleAnalyze(service: AnalyzeArgs -> Result<ComplianceReport, GeminiService.Error>)
      requires Valid()
      modifies this
      ensures Valid()
      ensures var outcome := service(AnalyzeArgs(old(adText), old(evidenceText),
                                                 DesignPayload(old(designPreview), old(designFile)),
                                                 old(userLocation)));
              if outcome.Success? then
                Snapshot() == old(Snapshot()).(isAnalyzing := false, error := None, report := Some(outcome.value))
              else
                Snapshot() == old(Snapshot()).(isAnalyzing := false, error := Some(ANALYZE_ERROR))
    {
      var args := BeginAnalyze();
      var outcome := service(args);
      FinishAnalyze(outcome);
    }

    /** `copyFullReport`: nothing without a report, otherwise the report text.
        Writing it to the clipboard is not modelled. */
    method CopyFullReport() returns (copied: Option<string>)
      ensures copied.None? <==> report.None?
      ensures report.Some? ==> copied.value == ReportText(report.value)
    {
      if report.None? {
        return None;
      }
      copied := Some(ReportText(report.value));
    }
  }
}
