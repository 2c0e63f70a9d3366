/**
 * backend/main.py: the three routes of the API. Reading the upload, the image
 * pipeline and the model calls are inputs: `processed` is what
 * `process_image`/`process_pdf` returned or the text of what it raised, and
 * `analyze` stands for `analyze_medical_report` applied to that content.
 * The response record is backend/models.py's `AnalysisResponse`.
 */
module BackendMain {
  import opened Wrappers
  import opened Text
  import opened Python
  import opened AiService

  /** The parts of `UploadFile` the handlers look at. */
  datatype UploadFile = UploadFile(contentType: Option<string>, filename: Option<string>)

  datatype AnalysisResponse = AnalysisResponse(
    success: bool,
    summary: string,
    keyFindings: seq<string>,
    lifestyleRecommendations: seq<string>,
    precautions: seq<string>,
    confidenceScore: real,
    complexTerms: Option<map<string, string>>,
    errorMessage: Option<string>)

  /** What a handler sends back: the record, or an `HTTPException`. */
  datatype Reply = Response(response: AnalysisResponse) | HttpError(status: int, detail: string)

  const ImageExtensions: seq<string> := [".jpg", ".jpeg", ".png", ".gif", ".bmp"]

  /** Python truthiness of an optional string: `None` and `""` are false. */
  predicate PyTruthy(s: Option<string>) {
    s.Some? && s.value != ""
  }

  /** Python's `any(name.endswith(ext) for ext in exts)`. */
  predicate AnyEndsWith(name: string, exts: seq<string>) {
    exists i :: 0 <= i < |exts| && EndsWith(name, exts[i])
  }

  /** The type check of `analyze_image`: the 400's detail, or `None` when the upload passes. */
  function ImageTypeCheck(file: UploadFile): (detail: Option<string>)
    ensures detail.None? <==>
      || (file.contentType.Some? && StartsWith(file.contentType.value, "image/"))
      || (file.contentType.None? && file.filename.Some? &&
          AnyEndsWith(Lower(file.filename.value), ImageExtensions))
    ensures detail.Some? && file.contentType.None? ==> detail.value == "File must be an image (JPG, PNG, GIF, BMP)"
    ensures detail.Some? && file.contentType.Some? ==> detail.value == "File must be an image"
  {
    if file.contentType.None? then
      if !PyTruthy(file.filename) then Some("File must be an image (JPG, PNG, GIF, BMP)")
      else if !AnyEndsWith(Lower(file.filename.value), ImageExtensions) then
        Some("File must be an image (JPG, PNG, GIF, BMP)")
      else None
    else if !StartsWith(file.contentType.value, "image/") then Some("File must be an image")
    else None
  }

  /** The type check of `analyze_pdf`. */
  function PdfTypeCheck(file: UploadFile): (detail: Option<string>)
    ensures detail.None? <==>
      || file.contentType == Some("application/pdf")
      || (file.contentType.None? && file.filename.Some? && EndsWith(Lower(file.filename.value), ".pdf"))
    ensures detail.Some? ==> detail.value == "File must be a PDF"
  {
    if file.contentType.None? then
      if !PyTruthy(file.filename) || !EndsWith(Lower(file.filename.value), ".pdf") then Some("File must be a PDF")
      else None
    else if file.contentType.value != "application/pdf" then Some("File must be a PDF")
    else None
  }

  /** The first of `fields` that `d` lacks: the `KeyError` the constructor call raises. */
  function FirstMissing(fields: seq<string>, d: Dict): (m: Option<string>)
    ensures m.None? <==> forall k :: 0 <= k < |fields| ==> fields[k] in d
    ensures m.Some? ==> (exists k :: 0 <= k < |fields| && fields[k] == m.value && m.value !in d &&
                                     forall j :: 0 <= j < k ==> fields[j] in d)
  {
    if fields == [] then None
    else if fields[0] !in d then Some(fields[0])
    else
      var rest := FirstMissing(fields[1..], d);
      if rest.Some? then
        assert forall k :: 1 <= k < |fields| ==> fields[k] == fields[1..][k - 1];
        rest
      else rest
  }

  /** Pydantic's check of a `List[str]` field. */
  function AsStrings(items: seq<PyValue>): (r: Option<seq<string>>)
    ensures r.Some? ==> |r.value| == |items| && forall i :: 0 <= i < |items| ==> items[i] == PyStr(r.value[i])
    ensures r.None? ==> exists i :: 0 <= i < |items| && !items[i].PyStr?
  {
    if items == [] then Some([])
    else if !items[0].PyStr? then None
    else
      var rest := AsStrings(items[1..]);
      if rest.None? then
        assert forall i :: 1 <= i < |items| ==> items[i] == items[1..][i - 1];
        None
      else
        Some([items[0].s] + rest.value)
  }

  function AsStringList(v: PyValue): (r: Option<seq<string>>)
    ensures r.Some? ==> (v.PyList? && |r.value| == |v.items| &&
                         forall i :: 0 <= i < |v.items| ==> v.items[i] == PyStr(r.value[i]))
    ensures v.PyList? && (forall i :: 0 <= i < |v.items| ==> v.items[i].PyStr?) ==> r.Some?
  {
    if v.PyList? then AsStrings(v.items) else None
  }

  /** Pydantic's check of `Optional[Dict[str, str]]`: `None` when it fails, `Some(None)` for a JSON null. */
  function AsTerms(v: PyValue): (r: Option<Option<map<string, string>>>)
    ensures r == Some(None) <==> v == PyNone
    ensures r.Some? && r.value.Some? ==> (v.PyDict? && r.value.value.Keys == v.entries.Keys &&
                                          forall k :: k in v.entries ==> v.entries[k] == PyStr(r.value.value[k]))
    ensures v.PyDict? && (forall k :: k in v.entries ==> v.entries[k].PyStr?) ==> r.Some? && r.value.Some?
  {
    if v.PyNone? then Some(None)
    else if v.PyDict? && forall k :: k in v.entries ==> v.entries[k].PyStr? then
      Some(Some(map k | k in v.entries :: v.entries[k].s))
    else None
  }

  /** What `AnalysisResponse(...)` can raise. */
  datatype BuildError = KeyError(field: string) | ValidationError

  /**
   * `str()` of the exception. Pydantic's message is shortened to its first words:
   * the count of errors and their list are not modelled.
   */
  function ErrorText(e: BuildError): (text: string)
    ensures e.KeyError? ==> text == "'" + e.field + "'" && |text| == |e.field| + 2
    ensures e.KeyError? <==> |text| > 0 && text[0] == '\''
  {
    match e
    case KeyError(field) => "'" + field + "'"
    case ValidationError => "validation error for AnalysisResponse"
  }

  /** The `AnalysisResponse(success=True, ...)` construction of both handlers. */
  function BuildResponse(analysis: Dict): (r: Result<AnalysisResponse, BuildError>)
    ensures r.Ok? <==> Conforms(analysis)
    ensures r.Ok? ==> r.value.success && r.value.errorMessage.None?
    ensures r.Ok? ==> analysis["summary"] == PyStr(r.value.summary)
    ensures r.Ok? ==> analysis["confidence_score"] == PyNum(r.value.confidenceScore)
    ensures r.Ok? ==> AsStringList(analysis["key_findings"]) == Some(r.value.keyFindings)
    ensures r.Ok? ==> AsStringList(analysis["lifestyle_recommendations"]) == Some(r.value.lifestyleRecommendations)
    ensures r.Ok? ==> AsStringList(analysis["precautions"]) == Some(r.value.precautions)
    ensures r.Ok? && "complex_terms" !in analysis ==> r.value.complexTerms == Some(map[])
    ensures r.Ok? && "complex_terms" in analysis ==> AsTerms(analysis["complex_terms"]) == Some(r.value.complexTerms)
    ensures FirstMissing(RequiredFields, analysis).Some? ==> r == Err(KeyError(FirstMissing(RequiredFields, analysis).value))
    ensures r == Err(ValidationError) ==> RequiredSet <= analysis.Keys
  {
    match FirstMissing(RequiredFields, analysis)
    case Some(field) => Err(KeyError(field))
    case None =>
      AllPresent(analysis);
      if Conforms(analysis) then Ok(Validated(analysis)) else Err(ValidationError)
  }

  /** The response pydantic builds from a conforming record: each field's value, unwrapped. */
  function Validated(analysis: Dict): (response: AnalysisResponse)
    requires Conforms(analysis)
    ensures response.success && response.errorMessage.None?
    ensures analysis["summary"] == PyStr(response.summary)
    ensures analysis["confidence_score"] == PyNum(response.confidenceScore)
    ensures AsStringList(analysis["key_findings"]) == Some(response.keyFindings)
    ensures AsStringList(analysis["lifestyle_recommendations"]) == Some(response.lifestyleRecommendations)
    ensures AsStringList(analysis["precautions"]) == Some(response.precautions)
    ensures "complex_terms" !in analysis ==> response.complexTerms == Some(map[])
    ensures "complex_terms" in analysis ==> AsTerms(analysis["complex_terms"]) == Some(response.complexTerms)
  {
    var terms := AsTerms(if "complex_terms" in analysis then analysis["complex_terms"] else PyDict(map[]));
    AnalysisResponse(true, analysis["summary"].s, AsStringList(analysis["key_findings"]).value,
                     AsStringList(analysis["lifestyle_recommendations"]).value,
                     AsStringList(analysis["precautions"]).value,
                     analysis["confidence_score"].n, terms.value, None)
  }

  /** Every required field is present and has the type `AnalysisResponse` declares for it. */
  predicate Conforms(analysis: Dict) {
    && "summary" in analysis && "key_findings" in analysis && "lifestyle_recommendations" in analysis
    && "precautions" in analysis && "confidence_score" in analysis
    && analysis["summary"].PyStr? && analysis["confidence_score"].PyNum?
    && AsStringList(analysis["key_findings"]).Some?
    && AsStringList(analysis["lifestyle_recommendations"]).Some?
    && AsStringList(analysis["precautions"]).Some?
    && ("complex_terms" in analysis ==> AsTerms(analysis["complex_terms"]).Some?)
  }

  /** No required field is missing exactly when all of them are keys. */
  lemma AllPresent(analysis: Dict)
    requires FirstMissing(RequiredFields, analysis).None?
    ensures RequiredSet <= analysis.Keys
  {
    forall f | f in RequiredSet ensures f in analysis {
      var k :| 0 <= k < |RequiredFields| && RequiredFields[k] == f;
    }
  }

  /** The body shared by both handlers, after their type checks. */
  function Handle(typeError: Option<string>, processed: Result<string, string>,
                  analyze: string -> Result<Dict, string>): (reply: Reply)
    ensures reply.HttpError? ==> reply.status == 500 && StartsWith(reply.detail, "Analysis failed: ")
    ensures typeError.Some? ==> reply == HttpError(500, "Analysis failed: 400: " + typeError.value)
    ensures reply.Response? <==>
      typeError.None? && processed.Ok? && analyze(processed.value).Ok? &&
      BuildResponse(analyze(processed.value).value).Ok?
    ensures reply.Response? ==> reply.response == BuildResponse(analyze(processed.value).value).value
  {
    match typeError
    case Some(detail) => HttpError(500, "Analysis failed: " + ("400: " + detail))
    case None =>
      match processed
      case Err(e) => HttpError(500, "Analysis failed: " + e)
      case Ok(content) =>
        match analyze(content)
        case Err(e) => HttpError(500, "Analysis failed: " + e)
        case Ok(analysis) =>
          match BuildResponse(analysis)
          case Err(e) => HttpError(500, "Analysis failed: " + ErrorText(e))
          case Ok(response) => Response(response)
  }

  /** `POST /analyze/image`. */
  function AnalyzeImage(file: UploadFile, processed: Result<string, string>,
                        analyze: string -> Result<Dict, string>): (reply: Reply)
    ensures ImageTypeCheck(file).Some? ==> reply.HttpError? && reply.status == 500
    ensures reply.Response? ==> reply.response.success && ImageTypeCheck(file).None? && processed.Ok?
  {
    Handle(ImageTypeCheck(file), processed, analyze)
  }

  /** `POST /analyze/pdf`. */
  function AnalyzePdf(file: UploadFile, processed: Result<string, string>,
                      analyze: string -> Result<Dict, string>): (reply: Reply)
    ensures PdfTypeCheck(file).Some? ==> reply.HttpError? && reply.status == 500
    ensures reply.Response? ==> reply.response.success && PdfTypeCheck(file).None? && processed.Ok?
  {
    Handle(PdfTypeCheck(file), processed, analyze)
  }

  /** A one-element list of strings passes the `List[str]` check. */
  lemma SingleStringList(t: string)
    ensures AsStringList(PyList([PyStr(t)])) == Some([t])
  {
    var items := [PyStr(t)];
    assert items[1..] == [];
    assert AsStrings(items[1..]) == Some([]);
    assert AsStrings(items) == Some([t] + []);
    assert [t] + [] == [t];
  }

  /** The fallback record, with empty terms, builds a response. */
  lemma FallbackBuilds(stripped: string)
    ensures var r := BuildResponse(FallbackResponse(stripped)["complex_terms" := PyDict(map[])]);
      && r.Ok?
      && r.value.summary == FallbackLead + Prefix(stripped, 200) + "..."
      && r.value.keyFindings == [UnexpectedFormat]
      && r.value.confidenceScore == 0.5
      && r.value.complexTerms == Some(map[])
  {
    var d := FallbackResponse(stripped)["complex_terms" := PyDict(map[])];
    FallbackConforms(stripped);
    SingleStringList(UnexpectedFormat);
    assert AsTerms(d["complex_terms"]) == Some(Some(map[]));
  }

  /** The fallback record, with the empty terms, has every field `AnalysisResponse` needs. */
  lemma FallbackConforms(stripped: string)
    ensures var d := FallbackResponse(stripped)["complex_terms" := PyDict(map[])];
      && FirstMissing(RequiredFields, d).None? && Conforms(d)
      && d["key_findings"] == PyList([PyStr(UnexpectedFormat)])
  {
    var d := FallbackResponse(stripped)["complex_terms" := PyDict(map[])];
    assert d.Keys == RequiredSet + {"complex_terms"};
    assert forall k :: 0 <= k < |RequiredFields| ==> RequiredFields[k] in d;
    SingleStringList(UnexpectedFormat);
    SingleStringList(ConsultAdvice);
    SingleStringList(InformationalOnly);
    assert d["key_findings"] == PyList([PyStr(UnexpectedFormat)]);
    assert d["lifestyle_recommendations"] == PyList([PyStr(ConsultAdvice)]);
    assert d["precautions"] == PyList([PyStr(InformationalOnly)]);
  }

  /**
   * With the real `analyze_medical_report`: a reply without a brace still
   * yields a successful response, built from the fallback record.
   */
  lemma BracelessReplySucceeds(file: UploadFile, content: string, reply: string, termsError: string,
                               loads: string -> Option<Dict>, analyze: string -> Result<Dict, string>)
    requires ImageTypeCheck(file).None?
    requires '{' !in Strip(reply)
    requires analyze(content) == Report(Ok(reply), Err(termsError), loads)
    ensures var r := AnalyzeImage(file, Ok(content), analyze);
      && r.Response?
      && r.response.summary == FallbackLead + Prefix(Strip(reply), 200) + "..."
      && r.response.keyFindings == [UnexpectedFormat]
      && r.response.confidenceScore == 0.5
      && r.response.complexTerms == Some(map[])
  {
    var d := FallbackResponse(Strip(reply))["complex_terms" := PyDict(map[])];
    ParsedFallbackCases(reply, loads);
    assert analyze(content) == Ok(d);
    FallbackBuilds(Strip(reply));
    assert AnalyzeImage(file, Ok(content), analyze) == Response(BuildResponse(d).value);
  }

  /** `GET /health`: the same two fields on every call. */
  function Health(): (body: Dict)
    ensures body.Keys == {"status", "message"}
    ensures body["status"] == PyStr("healthy")
  {
    map["status" := PyStr("healthy"), "message" := PyStr("Medical Report Analyzer API is running")]
  }
}
