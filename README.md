# Real-estate ad compliance checker — Dafny model

The application lets a reviewer upload a spreadsheet of verified property facts
and a draft advertisement (text and/or an image/PDF mock-up), sends both to a
hosted generative model together with the review rules, and shows the report
that comes back: one row per checked item with a PASS / WARNING / FAIL verdict,
a summary comment and an optional revised ad copy. The report can be copied as
plain text.

This project models the application's own logic around that call:

- `types.dfy` (module `Types`): the report records — `ReviewResult`,
  `GroundingChunk`, `ComplianceReport` — and the three verdicts.
- `gemini_service.dfy` (module `GeminiService`): `checkComplianceWithFiles` —
  the prompt text, the message parts (text part, then the design as inline
  data), extraction of the payload from a data URL, the request configuration
  (model, system instruction, JSON output, search and maps tools, optional
  location bias), the `"{}"` default for an empty answer, attaching grounding
  citations, and rethrowing errors unchanged.
- `judgment_badge.dfy` (module `JudgmentBadge`): the verdict badge — label
  and colour for each verdict, nothing for any other string.
- `app.dfy` (module `App`): the plain-text report of `copyFullReport`, the
  rule that enables the analyze button, the design payload with its media-type
  fallback, and class `AppState`, whose fields are the page's state hooks and
  whose methods are its handlers (spreadsheet and design uploads, the two
  halves of `handleAnalyze` around the awaited call, and the copy action).
- `js_strings.dfy` (module `JsStrings`): the semantics of JavaScript's
  `split` with a one-character separator and of `join`, which the service
  and the report text rely on.
- `wrappers.dfy` (module `Wrappers`): `Option` for `undefined`/`null` and
  `Result` for a call that may throw.

The model call and `JSON.parse` are parameters of
`GeminiService.CheckComplianceWithFiles` (`generate` and `parse`); the
completion of the analysis call is a parameter of `App.AppState.FinishAnalyze`
(and a function `service` for `App.AppState.HandleAnalyze`); the results of
the file readers and of the spreadsheet library are parameters of the
`...Loaded` handlers.

The code does not do the following, although a reader might expect it to:

- The answer text is parsed as it is; no code-fence wrapping is stripped.
- There is no check for a missing access key: the client is created with an
  empty key, and whatever the call then throws is rethrown.
- A verdict outside PASS / WARNING / FAIL is not rejected when the answer is
  parsed (the parse is only a type cast); `ReviewResult.judgment` is therefore
  the raw string, and the badge shows nothing for such a value.
- Errors are rethrown unchanged, not wrapped in a typed error; the page shows
  one fixed message for any analysis failure.
- The grounding list is attached whenever it is present, including an empty
  list (an empty array is truthy in JavaScript).

## Model

| member | source | states |
|---|---|---|
| `JsStrings.Split` | services/geminiService.ts:65 | `split(',')` yields at least one piece and no piece contains the separator |
| `JsStrings.SplitFirst` | services/geminiService.ts:65 | the first piece is everything before the first comma (the whole string when there is none, then the only piece); the later pieces are the split of the text after that comma |
| `JsStrings.Join` | App.tsx:77 | joining nothing gives the empty string; a non-empty join starts with its first element (its full layout is stated by `JsStrings.JoinAt` and `JsStrings.JoinLength`) |
| `JsStrings.JoinLength` | App.tsx:77 | joining n > 0 bullets adds exactly n - 1 separators; joining none gives the empty string |
| `JsStrings.JoinAt` | App.tsx:77 | each joined element occurs verbatim at its offset (elements and separators before it), in order, followed by the separator unless it is the last |
| `Types.ParseJudgment` | types.ts:6 | exactly the three wire names PASS, WARNING, FAIL denote a verdict, and each verdict has that name |
| `JudgmentBadge.BadgeOf` | components/JudgmentBadge.tsx:10-27 | each of the labels 合格, 注意, 修正要 and each of the colours green, yellow, red belongs to exactly one verdict (PASS, WARNING, FAIL respectively) |
| `JudgmentBadge.BadgeFor` | components/JudgmentBadge.tsx:8-31 | a badge exists exactly for the strings PASS, WARNING and FAIL, and it is the badge of that verdict; any other string renders nothing |
| `JudgmentBadge.BadgeOfName` | components/JudgmentBadge.tsx:10-27 | the switch renders PASS as 合格 in green, WARNING as 注意 in yellow and FAIL as 修正要 in red |
| `JudgmentBadge.BadgeInjective` | components/JudgmentBadge.tsx:9-30 | two rendered badges have the same label, or the same colour, only for the same judgment string |
| `GeminiService.PromptText` | services/geminiService.ts:50-59 | the prompt is the ad-text heading, the ad text verbatim, the evidence heading, the evidence text verbatim and the fixed closing instructions, at those positions |
| `GeminiService.InlinePayload` | services/geminiService.ts:65 | the inline payload is either the whole data or a non-empty text without a comma (its exact value is stated by `GeminiService.InlinePayloadBetweenCommas`) |
| `GeminiService.InlinePayloadBetweenCommas` | services/geminiService.ts:65 | the inline payload is the whole data without a comma; otherwise the text between the first comma and the next comma or the end, or the whole data when that text is empty |
| `GeminiService.DataUrlPayload` | services/geminiService.ts:65 | a data URL `<header>,<payload>` with no other comma and a non-empty payload yields exactly the payload |
| `GeminiService.Parts` | services/geminiService.ts:49-69 | one part without a design and two with one; the first is always the prompt text, the second the design's payload with its media type passed through |
| `GeminiService.Config` | services/geminiService.ts:74-86 | the system instruction, JSON output type and the tool list [search, maps] are fixed; the location bias is present exactly when a location is given and carries its latitude and longitude |
| `GeminiService.BuildRequest` | services/geminiService.ts:71-86 | the request names the fixed model and holds one user message whose parts are `GeminiService.Parts` and whose config is `GeminiService.Config` of the location |
| `GeminiService.RequestFixedFields` | services/geminiService.ts:71-86 | model id, instruction, output type and tools are the same for every input; the config depends only on the location and the contents only on the texts and design |
| `GeminiService.ResponseText` | services/geminiService.ts:89 | a missing or empty answer text is parsed as `{}`; any other text is parsed as it is |
| `GeminiService.GroundingChunksOf` | services/geminiService.ts:93 | citations are found exactly when the first candidate exists and has grounding metadata with a chunk list, and they are that chunk list |
| `GeminiService.AttachGrounding` | services/geminiService.ts:93-96 | the grounding sources become the citations when present and are left as parsed otherwise; nothing else in the report changes |
| `GeminiService.CheckComplianceWithFiles` | services/geminiService.ts:39-103 | one request, built as above, is sent; an error from the call or the parse is rethrown unchanged; otherwise the result is the parsed answer text with the citations attached |
| `App.ReportHeader` | App.tsx:76 | the header is the report title, the overall comment verbatim after it, and a closing blank line, nothing else |
| `App.Bullet` | App.tsx:77 | a bullet is `・`, the item, `: [`, the raw judgment, `] `, the suggestion, then the fact check on an indented line as `(事実: ...)`, each at its position |
| `App.Bullets` | App.tsx:77 | one bullet per result, in result order |
| `App.RevisedSection` | App.tsx:78 | the revised-copy section is appended exactly when the revised copy is present and non-empty, and is its heading followed by the copy |
| `App.ReportText` | App.tsx:76-78 | the copied text opens with the report title followed by the overall comment verbatim (its full layout is stated by `App.ReportTextFrame`, `App.ReportBulletsInOrder` and `App.ReportTextLength`) |
| `App.ReportTextFrame` | App.tsx:76-78 | the report text opens with the title and overall comment; it ends with the revised copy under its heading when there is one, and otherwise it is the header followed by the joined bullets |
| `App.ReportBulletsInOrder` | App.tsx:76-78 | each result's bullet occurs verbatim in the text at its position, in result order, with a blank line before the next bullet |
| `App.ReportTextLength` | App.tsx:76-78 | the text is header, bullets, n - 1 separators for n results, and the revised section, nothing more |
| `App.AnalyzeDisabled` | App.tsx:147 | the button is disabled while analyzing; when it is enabled there is an evidence file or ad text; with either and no analysis running it is enabled |
| `App.DesignPayload` | App.tsx:61-64 | a design is sent only when a preview exists; its data is the preview and its media type the file's type, or application/pdf when that is empty or the file is missing, so never empty |
| `App.AppState.constructor` | App.tsx:9-18 | every hook starts empty or false, so the button starts disabled |
| `App.AppState.SetAdText` | App.tsx:130 | only the ad text changes |
| `App.AppState.SetUserLocation` | App.tsx:23 | only the location changes |
| `App.AppState.HandleExcelUpload` | App.tsx:29-32 | without a file nothing changes; otherwise only the evidence file is recorded |
| `App.AppState.ExcelLoaded` | App.tsx:34-44 | a read sheet replaces the evidence text; a failure sets the error to エクセル解析エラー and leaves the evidence text unchanged |
| `App.AppState.HandleDesignUpload` | App.tsx:48-51 | without a file nothing changes; otherwise only the design file is recorded |
| `App.AppState.DesignLoaded` | App.tsx:53 | only the preview changes, to the data URL read |
| `App.AppState.BeginAnalyze` | App.tsx:57-65 | the analysis is marked running and the error cleared, nothing else changes, the button is disabled, and the call gets the current texts, design payload and location |
| `App.AppState.FinishAnalyze` | App.tsx:65-71 | success replaces the report; failure sets the fixed message and keeps the previous report; the analysis is no longer running either way |
| `App.AppState.HandleAnalyze` | App.tsx:57-72 | the whole handler: the call receives the inputs as they were; afterwards nothing is running, and either the new report is shown with no error or the old report stays with the fixed message |
| `App.AppState.CopyFullReport` | App.tsx:74-81 | nothing without a report, otherwise the report text |

## Left out

- The model call and the module-level client (services/geminiService.ts:6, 71-87): a foreign library and remote I/O; the call is the `generate` parameter.
- `JSON.parse` and the cast to the report type (services/geminiService.ts:90): library parsing without validation; it is the `parse` parameter.
- The wording of the system instruction (services/geminiService.ts:8-37): constant prose; `SYSTEM_INSTRUCTION` stands for it and only its presence in every request is stated.
- `console.error` before the rethrow (services/geminiService.ts:100): logging only.
- Spreadsheet parsing (App.tsx:37-39), the file readers and base64 encoding (App.tsx:33-45, 52-54): library and asynchronous I/O; their results are the parameters of `ExcelLoaded` and `DesignLoaded`.
- Geolocation (App.tsx:20-27): an asynchronous browser API; only its success callback is modelled, and coordinates are reals passed through unchanged rather than floating-point numbers.
- The clipboard write, `alert` and `window.print` (App.tsx:79-80, 169): browser side effects; `CopyFullReport` returns the text instead.
- The JSX layout and styling (App.tsx:83-223) and the badge markup beyond its label and colour: presentation only.
- `FileData` (types.ts:24-29): not used by the modelled code.
- Answers that do not parse to a report of the declared shape: `parse` is taken to return only well-formed reports. In the code, an answer without `results` makes `copyFullReport` throw at `report.results.map` (App.tsx:77); a missing comment, item, judgment, suggestion or fact check is printed as the text `undefined` (App.tsx:76-77); an answer that parses to `null` throws a TypeError when citations exist (services/geminiService.ts:95), and without citations is shown as no report, with no error (App.tsx:66).
- String lengths: the model counts characters (Unicode scalar values), JavaScript counts UTF-16 code units; only the positions stated in the lemmas depend on this.
