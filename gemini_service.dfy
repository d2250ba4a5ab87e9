/** Request assembly and response handling of the compliance call
    (services/geminiService.ts, checkComplianceWithFiles). The model call
    itself and JSON.parse are not modelled: they are passed in as functions. */
module GeminiService {
  import opened Wrappers
  import opened Types
  import JsStrings

  /** The hosted model every request names. */
  const MODEL := "gemini-2.5-flash"

  /** The review instructions sent as the system instruction. Their wording is
      not modelled; the model only states that every request carries them. */
  const SYSTEM_INSTRUCTION: string

  /** The structured-output media type requested. */
  const RESPONSE_MIME_TYPE := "application/json"

  /** The text parsed when the answer carries no text. */
  const EMPTY_RESPONSE := "{}"

  /** The fixed pieces of the user prompt around the two interpolated texts. */
  const AD_HEADING := "\n【検証対象テキスト】\n"
  const EVIDENCE_HEADING := "\n\n【物件原本データ（Excel）】\n"
  const PROMPT_CLOSING := "\n\n上記データと添付のデザイン案を照合してください。\n特に、Google検索とGoogle Mapsを使用して、周辺店舗の存続状況や駅までの距離を厳格にファクトチェックしてください。\n"

  /** A location bias, as latitude and longitude, passed through unchanged. */
  datatype Location = Location(latitude: real, longitude: real)

  /** The design mock-up handed to the call: a data URL and its media type. */
  datatype DesignFile = DesignFile(data: string, mimeType: string)

  /** One content part of the outbound message. */
  datatype Part = TextPart(text: string) | InlineDataPart(data: string, mimeType: string)

  datatype Content = Content(role: string, parts: seq<Part>)

  /** The grounding tools the request enables. */
  datatype Tool = GoogleSearch | GoogleMaps

  datatype LatLng = LatLng(latitude: real, longitude: real)
  datatype RetrievalConfig = RetrievalConfig(latLng: LatLng)
  datatype ToolConfig = ToolConfig(retrievalConfig: RetrievalConfig)

  /** `config` of the request; `toolConfig` is absent (`undefined`), not
      empty, when no location is known. */
  datatype GenerateConfig = GenerateConfig(
    systemInstruction: string,
    responseMimeType: string,
    tools: seq<Tool>,
    toolConfig: Option<ToolConfig>)

  datatype GenerateRequest = GenerateRequest(model: string, contents: seq<Content>, config: GenerateConfig)

  /** The parts of the answer the service reads. */
  datatype GroundingMetadata = GroundingMetadata(groundingChunks: Option<seq<GroundingChunk>>)
  datatype Candidate = Candidate(groundingMetadata: Option<GroundingMetadata>)
  datatype GenerateResponse = GenerateResponse(text: Option<string>, candidates: Option<seq<Candidate>>)

  /** A thrown error, rethrown to the caller as it is. */
  datatype Error = Error(message: string)

  /** The user prompt: the ad text and then the evidence text, verbatim, each
      under its heading. */
  function PromptText(adText: string, evidenceText: string): (t: string)
    ensures var adAt := |AD_HEADING|;
            var evAt := adAt + |adText| + |EVIDENCE_HEADING|;
            |t| == evAt + |evidenceText| + |PROMPT_CLOSING| &&
            t[..adAt] == AD_HEADING &&
            t[adAt..adAt + |adText|] == adText &&
            t[adAt + |adText|..evAt] == EVIDENCE_HEADING &&
            t[evAt..evAt + |evidenceText|] == evidenceText &&
            t[evAt + |evidenceText|..] == PROMPT_CLOSING
  {
    AD_HEADING + adText + EVIDENCE_HEADING + evidenceText + PROMPT_CLOSING
  }

  /** `data.split(',')[1] || data`: the second comma-separated piece when
      there is one and it is not empty, otherwise the whole string. */
  function InlinePayload(data: string): (payload: string)
    ensures payload == data || (payload != "" && ',' !in payload)
  {
    var pieces := JsStrings.Split(data, ',');
    if |pieces| > 1 && pieces[1] != "" then pieces[1] else data
  }

  /** The payload read directly off the string: without a comma, the whole
      string; otherwise the text between the first comma and the next comma
      (or the end), falling back to the whole string when that text is empty. */
  lemma InlinePayloadBetweenCommas(data: string)
    ensures ',' !in data ==> InlinePayload(data) == data
    ensures ',' in data ==>
      var rest := data[JsStrings.IndexOf(data, ',') + 1..];
      var segment := rest[..JsStrings.IndexOf(rest, ',')];
      InlinePayload(data) == if segment == "" then data else segment
  {
    JsStrings.SplitFirst(data, ',');
    if ',' in data {
      var rest := data[JsStrings.IndexOf(data, ',') + 1..];
      JsStrings.SplitFirst(rest, ',');
    }
  }

  /** A data URL `<header>,<payload>` whose header and payload hold no comma
      yields exactly its payload, as `readAsDataURL` output
      `data:<type>;base64,<b64>` does. */
  lemma DataUrlPayload(header: string, payload: string)
    requires ',' !in header && ',' !in payload && payload != ""
    ensures InlinePayload(header + "," + payload) == payload
  {
    var data := header + "," + payload;
    InlinePayloadBetweenCommas(data);
    var i := JsStrings.IndexOf(data, ',');
    assert data[|header|] == ',';
    assert i == |header|;
    assert data[i + 1..] == payload;
  }

  /** The message parts: the prompt text first, and the design's inline data
      second when a design is given. */
  function Parts(adText: string, evidenceText: string, designFile: Option<DesignFile>): (parts: seq<Part>)
    ensures |parts| == if designFile.Some? then 2 else 1
    ensures parts[0] == TextPart(PromptText(adText, evidenceText))
    ensures designFile.Some? ==>
      parts[1] == InlineDataPart(InlinePayload(designFile.value.data), designFile.value.mimeType)
  {
    [TextPart(PromptText(adText, evidenceText))] +
    match designFile
    case None => []
    case Some(d) => [InlineDataPart(InlinePayload(d.data), d.mimeType)]
  }

  /** The request configuration: structured output, both grounding tools,
      and a location bias exactly when a location is known. */
  function Config(location: Option<Location>): (c: GenerateConfig)
    ensures c.systemInstruction == SYSTEM_INSTRUCTION
    ensures c.responseMimeType == RESPONSE_MIME_TYPE
    ensures c.tools == [GoogleSearch, GoogleMaps]
    ensures c.toolConfig.Some? <==> location.Some?
    ensures location.Some? ==>
      c.toolConfig.value.retrievalConfig.latLng ==
      LatLng(location.value.latitude, location.value.longitude)
  {
    GenerateConfig(
      SYSTEM_INSTRUCTION,
      RESPONSE_MIME_TYPE,
      [GoogleSearch, GoogleMaps],
      match location
      case None => None
      case Some(l) => Some(ToolConfig(RetrievalConfig(LatLng(l.latitude, l.longitude)))))
  }

  /** The request sent for one analysis. */
  function BuildRequest(adText: string, evidenceText: string, designFile: Option<DesignFile>,
                        location: Option<Location>): (req: GenerateRequest)
    ensures req.model == MODEL
    ensures |req.contents| == 1 && req.contents[0].role == "user"
    ensures req.contents[0].parts == Parts(adText, evidenceText, designFile)
    ensures req.config == Config(location)
  {
    GenerateRequest(MODEL, [Content("user", Parts(adText, evidenceText, designFile))], Config(location))
  }

  /** Only the message varies between requests: the model, the instruction,
      the output type and the tool list are the same for every input, and the
      location bias depends on the location alone. */
  lemma RequestFixedFields(a1: string, e1: string, d1: Option<DesignFile>, l1: Option<Location>,
                           a2: string, e2: string, d2: Option<DesignFile>, l2: Option<Location>)
    ensures var r1 := BuildRequest(a1, e1, d1, l1);
            var r2 := BuildRequest(a2, e2, d2, l2);
            r1.model == r2.model == MODEL &&
            r1.config.systemInstruction == r2.config.systemInstruction &&
            r1.config.responseMimeType == r2.config.responseMimeType &&
            r1.config.tools == r2.config.tools &&
            (l1 == l2 ==> r1.config == r2.config) &&
            (a1 == a2 && e1 == e2 && d1 == d2 ==> r1.contents == r2.contents)
  {
  }

  /** `response.text || "{}"`: the answer's text, or "{}" when it has none
      or it is empty. */
  function ResponseText(response: GenerateResponse): (t: string)
    ensures t != ""
    ensures response.text.Some? && response.text.value != "" ==> t == response.text.value
    ensures response.text.None? || response.text.value == "" ==> t == EMPTY_RESPONSE
  {
    match response.text
    case Some(s) => if s != "" then s else EMPTY_RESPONSE
    case None => EMPTY_RESPONSE
  }

  /** `candidates?.[0]?.groundingMetadata?.groundingChunks`. */
  function GroundingChunksOf(response: GenerateResponse): (chunks: Option<seq<GroundingChunk>>)
    ensures chunks.Some? <==>
      response.candidates.Some? && |response.candidates.value| > 0 &&
      response.candidates.value[0].groundingMetadata.Some? &&
      response.candidates.value[0].groundingMetadata.value.groundingChunks.Some?
    ensures chunks.Some? ==>
      chunks == response.candidates.value[0].groundingMetadata.value.groundingChunks
  {
    match response.candidates
    case None => None
    case Some(cs) =>
      if |cs| == 0 then None
      else match cs[0].groundingMetadata
           case None => None
           case Some(m) => m.groundingChunks
  }

  /** The parsed report with the grounding citations attached when the answer
      has any (an empty list included, as an array is truthy); otherwise the
      report as parsed. */
  function AttachGrounding(report: ComplianceReport, chunks: Option<seq<GroundingChunk>>): (r: ComplianceReport)
    ensures r.groundingSources == if chunks.Some? then chunks else report.groundingSources
    ensures r.results == report.results
    ensures r.revisedAdCopy == report.revisedAdCopy
    ensures r.overallComment == report.overallComment
  {
    if chunks.Some? then report.(groundingSources := chunks) else report
  }

  /** checkComplianceWithFiles: builds the parts list (pushing the inline part
      when a design is given), sends one request, parses the answer's text and
      attaches the grounding citations. `generate` stands for the model call
      and `parse` for `JSON.parse` with the cast; an error from either is
      rethrown unchanged. */
  method CheckComplianceWithFiles(
    adText: string, evidenceText: string, designFile: Option<DesignFile>, location: Option<Location>,
    generate: GenerateRequest -> Result<GenerateResponse, Error>,
    parse: string -> Result<ComplianceReport, Error>)
    returns (r: Result<ComplianceReport, Error>)
    ensures var sent := generate(BuildRequest(adText, evidenceText, designFile, location));
            if sent.Failure? then r == Failure(sent.error)
            else
              var parsed := parse(ResponseText(sent.value));
              if parsed.Failure? then r == Failure(parsed.error)
              else r == Success(AttachGrounding(parsed.value, GroundingChunksOf(sent.value)))
  {
    var parts := [TextPart(PromptText(adText, evidenceText))];
    if designFile.Some? {
      parts := parts + [InlineDataPart(InlinePayload(designFile.value.data), designFile.value.mimeType)];
    }
    assert parts == Parts(adText, evidenceText, designFile);
    var request := GenerateRequest(MODEL, [Content("user", parts)], Config(location));
    assert request == BuildRequest(adText, evidenceText, designFile, location);
    var response :- generate(request);
    var report :- parse(ResponseText(response));
    var chunks := GroundingChunksOf(response);
    if chunks.Some? {
      report := report.(groundingSources := chunks);
    }
    r := Success(report);
  }
}
