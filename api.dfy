/**
 * lib/api.ts: the record the client expects, the canned result it falls back on,
 * and the three calls to the backend with their try/catch policies.
 *
 * `fetch` and `response.json()` are not modelled as code: a call's outcome is a
 * `FetchOutcome` (no response at all, or a status and a body), and the body is
 * what `response.json()` would make of it (not JSON at all, or a JSON value).
 */
module Api {
  import opened Wrappers
  import opened Web
  import opened Text

  /** The `MedicalAnalysis` interface. */
  datatype MedicalAnalysis = MedicalAnalysis(
    success: bool,
    summary: string,
    keyFindings: seq<string>,
    lifestyleRecommendations: seq<string>,
    precautions: seq<string>,
    confidenceScore: real,
    complexTerms: map<string, string>)

  /**
   * A value `response.json()` decodes: `null`, a boolean, a number, a string, an
   * array, an object of the `MedicalAnalysis` shape, or any other object, with
   * its `detail` member when it has one. A number carries, next to its value,
   * the text `String()` gives it.
   */
  datatype Json =
    | JsonNull
    | JsonBool(b: bool)
    | JsonNumber(n: real, text: string)
    | JsonString(s: string)
    | JsonArray(items: seq<Json>)
    | AnalysisJson(analysis: MedicalAnalysis)
    | ObjectJson(detail: Option<Json>)

  /** JavaScript truthiness: `null`, `false`, `0` and `""` are falsy; arrays and objects are truthy. */
  predicate Truthy(j: Json) {
    match j
    case JsonNull => false
    case JsonBool(b) => b
    case JsonNumber(n, _) => n != 0.0
    case JsonString(s) => s != ""
    case _ => true
  }

  /**
   * `String(j)`: a string is itself, an array is its elements' texts joined by
   * commas (`null` giving the empty text), an object is "[object Object]".
   */
  function StringOf(j: Json): (text: string)
    ensures j.JsonString? ==> text == j.s
    ensures j.JsonNumber? ==> text == j.text
    ensures j.ObjectJson? || j.AnalysisJson? ==> text == "[object Object]"
    ensures j.JsonArray? && j.items == [] ==> text == ""
  {
    match j
    case JsonNull => "null"
    case JsonBool(b) => if b then "true" else "false"
    case JsonNumber(_, text) => text
    case JsonString(s) => s
    case JsonArray(items) => JoinItems(items)
    case AnalysisJson(_) => "[object Object]"
    case ObjectJson(_) => "[object Object]"
  }

  /** `Array.prototype.join(",")`: `null` elements give the empty text. */
  function JoinItems(items: seq<Json>): string
    decreases items
  {
    if items == [] then ""
    else
      var first := if items[0].JsonNull? then "" else StringOf(items[0]);
      if |items| == 1 then first else first + "," + JoinItems(items[1..])
  }

  /** A response body: not JSON (`response.json()` rejects), or a JSON value. */
  datatype Body = Malformed | Wellformed(json: Json)

  /** What `fetch` settles to: no response (it rejects), or a status and a body. */
  datatype FetchOutcome = NetworkFailure | Http(status: int, body: Body)

  /** `response.ok`. */
  predicate IsOk(status: int) {
    200 <= status <= 299
  }

  /**
   * How the `try` block of an `api` method ends: it throws (an awaited step
   * failed, or the code threw), or it returns a promise WITHOUT awaiting it, so
   * that a later rejection of that promise is no longer inside the `try`.
   */
  datatype TryOutcome = Threw(error: JsError) | Returned(promise: Settled<Json>)

  // The texts of the canned result.
  const MockSummaryTail := ". In a real scenario, this would contain AI-generated insights from your medical report."
  const MockFindings := [
    "Sample finding 1: Normal blood pressure readings",
    "Sample finding 2: Cholesterol levels within normal range",
    "Sample finding 3: Blood sugar levels are optimal"]
  const MockRecommendations := [
    "Continue regular exercise routine",
    "Maintain balanced diet",
    "Get adequate sleep (7-9 hours per night)"]
  const MockPrecautions := [
    "Schedule regular check-ups",
    "Monitor any changes in symptoms",
    "Consult healthcare provider for concerns"]
  const MockTerms: map<string, string> := map[
    "Blood Pressure" := "The force of blood against artery walls",
    "Cholesterol" := "A waxy substance in blood that can affect heart health",
    "Blood Sugar" := "Glucose levels in the bloodstream"]

  /** The canned result used instead of the backend's (`getMockAnalysis`). */
  function GetMockAnalysis(fileType: string): (m: MedicalAnalysis)
    ensures m.success
    ensures Contains(m.summary, "mock analysis for " + fileType + " file")
    ensures |m.keyFindings| == 3 && |m.lifestyleRecommendations| == 3 && |m.precautions| == 3
    ensures |m.complexTerms| == 3
    ensures m.confidenceScore == 85.0
  {
    var phrase := "mock analysis for " + fileType + " file";
    var summary := "This is a " + phrase + MockSummaryTail;
    assert summary[10..][..|phrase|] == phrase;
    assert MockTerms.Keys == {"Blood Pressure", "Cholesterol", "Blood Sugar"};
    MedicalAnalysis(true, summary, MockFindings, MockRecommendations, MockPrecautions, 85.0, MockTerms)
  }

  /** `response.json()`: the decoded value, or a `SyntaxError` when the body is not JSON. */
  function ReadJson(body: Body): (p: Settled<Json>)
    ensures p.Rejected? <==> body.Malformed?
    ensures p.Rejected? ==> p.error == SyntaxError
    ensures body.Wellformed? ==> p == Fulfilled(body.json)
  {
    match body
    case Malformed => Rejected(SyntaxError)
    case Wellformed(j) => Fulfilled(j)
  }

  /**
   * The message of `new ApiError(status, errorData.detail || fallback)`: the
   * `detail` member when it is truthy, turned into a string by `Error`, else
   * `fallback`. A value other than an object has no `detail`.
   */
  function DetailOr(j: Json, fallback: string): (message: string)
    ensures j.ObjectJson? && j.detail.Some? && Truthy(j.detail.value) ==> message == StringOf(j.detail.value)
    ensures j.ObjectJson? && j.detail.Some? && j.detail.value.JsonString? && j.detail.value.s != ""
      ==> message == j.detail.value.s
    ensures !(j.ObjectJson? && j.detail.Some? && Truthy(j.detail.value)) ==> message == fallback
  {
    if j.ObjectJson? && j.detail.Some? && Truthy(j.detail.value) then StringOf(j.detail.value) else fallback
  }

  /**
   * What a non-ok analysis response throws: `response.json().catch(() => ({}))`
   * turns a body that is not JSON into `{}`; reading `.detail` of a `null` body
   * throws a `TypeError`; otherwise an `ApiError` with the status and the
   * `detail`, or the default message when there is none.
   */
  function NotOkError(status: int, body: Body, defaultMessage: string): (e: JsError)
    ensures e == TypeError <==> body == Wellformed(JsonNull)
    ensures e != TypeError ==> e.ApiError? && e.status == status
    ensures body.Malformed? ==> e == ApiError(status, defaultMessage)
    ensures body.Wellformed? && body.json.ObjectJson? && body.json.detail.Some? && Truthy(body.json.detail.value)
      ==> e == ApiError(status, StringOf(body.json.detail.value))
    ensures body.Wellformed? && body.json != JsonNull && !(body.json.ObjectJson? && body.json.detail.Some? && Truthy(body.json.detail.value))
      ==> e == ApiError(status, defaultMessage)
  {
    var errorData := if body.Malformed? then ObjectJson(None) else body.json;
    if errorData.JsonNull? then TypeError
    else ApiError(status, DetailOr(errorData, defaultMessage))
  }

  /** The `try` block of `analyzeImage` and `analyzePdf`. */
  function AnalysisTry(fetch: FetchOutcome, defaultMessage: string): (t: TryOutcome)
    ensures t.Threw? <==> fetch.NetworkFailure? || !IsOk(fetch.status)
    ensures fetch.NetworkFailure? ==> t.error == TypeError
    ensures fetch.Http? && !IsOk(fetch.status) ==> t.error == NotOkError(fetch.status, fetch.body, defaultMessage)
    ensures t.Returned? ==> t.promise == ReadJson(fetch.body)
  {
    match fetch
    case NetworkFailure => Threw(TypeError)
    case Http(status, body) =>
      if !IsOk(status) then Threw(NotOkError(status, body, defaultMessage))
      else Returned(ReadJson(body))
  }

  /** An analysis call: whatever the `try` block throws is replaced by the canned result. */
  function AnalysisCall(fetch: FetchOutcome, fileType: string, defaultMessage: string): (r: Settled<Json>)
    ensures fetch.NetworkFailure? || !IsOk(fetch.status)
      ==> r == Fulfilled(AnalysisJson(GetMockAnalysis(fileType)))
    ensures fetch.Http? && IsOk(fetch.status) && fetch.body.Wellformed? ==> r == Fulfilled(fetch.body.json)
    ensures r.Rejected? <==> fetch.Http? && IsOk(fetch.status) && fetch.body.Malformed?
    ensures r.Rejected? ==> r.error == SyntaxError
  {
    match AnalysisTry(fetch, defaultMessage)
    case Threw(_) => Fulfilled(AnalysisJson(GetMockAnalysis(fileType)))
    case Returned(p) => p
  }

  /** `api.analyzeImage`. */
  function AnalyzeImage(fetch: FetchOutcome): (r: Settled<Json>)
    ensures fetch.NetworkFailure? || !IsOk(fetch.status)
      ==> r == Fulfilled(AnalysisJson(GetMockAnalysis("image")))
    ensures fetch.Http? && IsOk(fetch.status) && fetch.body.Wellformed? ==> r == Fulfilled(fetch.body.json)
    ensures r.Rejected? <==> fetch.Http? && IsOk(fetch.status) && fetch.body.Malformed?
    ensures r.Rejected? ==> r.error == SyntaxError
  {
    AnalysisCall(fetch, "image", "Failed to analyze image")
  }

  /** `api.analyzePdf`. */
  function AnalyzePdf(fetch: FetchOutcome): (r: Settled<Json>)
    ensures fetch.NetworkFailure? || !IsOk(fetch.status)
      ==> r == Fulfilled(AnalysisJson(GetMockAnalysis("pdf")))
    ensures fetch.Http? && IsOk(fetch.status) && fetch.body.Wellformed? ==> r == Fulfilled(fetch.body.json)
    ensures r.Rejected? <==> fetch.Http? && IsOk(fetch.status) && fetch.body.Malformed?
    ensures r.Rejected? ==> r.error == SyntaxError
  {
    AnalysisCall(fetch, "pdf", "Failed to analyze PDF")
  }

  /** On a non-ok status the error built is an `ApiError` carrying that status unless the body is `null`, and it never leaves the call. */
  lemma NotOkErrorIsSwallowed(status: int, body: Body)
    requires !IsOk(status)
    ensures AnalysisTry(Http(status, body), "Failed to analyze image").Threw?
    ensures AnalysisTry(Http(status, body), "Failed to analyze image").error
      == NotOkError(status, body, "Failed to analyze image")
    ensures AnalyzeImage(Http(status, body)) == AnalyzeImage(NetworkFailure)
    ensures AnalyzePdf(Http(status, body)) == AnalyzePdf(NetworkFailure)
  {
  }

  /** The `try` block of `healthCheck`. */
  function HealthTry(fetch: FetchOutcome): (t: TryOutcome)
    ensures t.Threw? <==> fetch.NetworkFailure? || !IsOk(fetch.status)
    ensures fetch.NetworkFailure? ==> t.error == TypeError
    ensures fetch.Http? && !IsOk(fetch.status) ==> t.error == ApiError(fetch.status, "Health check failed")
    ensures t.Returned? ==> t.promise == ReadJson(fetch.body)
  {
    match fetch
    case NetworkFailure => Threw(TypeError)
    case Http(status, body) =>
      if !IsOk(status) then Threw(ApiError(status, "Health check failed"))
      else Returned(ReadJson(body))
  }

  const BackendUnavailable := ApiError(0, "Backend server is not available")

  /** `api.healthCheck`: whatever the `try` block throws becomes the same status-0 error. */
  function HealthCheck(fetch: FetchOutcome): (r: Settled<Json>)
    ensures fetch.NetworkFailure? || !IsOk(fetch.status) ==> r == Rejected(BackendUnavailable)
    ensures fetch.Http? && IsOk(fetch.status) && fetch.body.Wellformed? ==> r == Fulfilled(fetch.body.json)
    ensures fetch.Http? && IsOk(fetch.status) && fetch.body.Malformed? ==> r == Rejected(SyntaxError)
  {
    match HealthTry(fetch)
    case Threw(_) => Rejected(BackendUnavailable)
    case Returned(p) => p
  }

  // ---------------------------------------------------------------------------
  // The same calls with the body awaited inside the `try`, so that the `catch`
  // also covers a body that is not JSON.

  function AnalysisCallAwaited(fetch: FetchOutcome, fileType: string, defaultMessage: string): (r: Settled<Json>)
    ensures r.Fulfilled?
    ensures fetch.Http? && IsOk(fetch.status) && fetch.body.Wellformed? ==> r == Fulfilled(fetch.body.json)
    ensures !(fetch.Http? && IsOk(fetch.status) && fetch.body.Wellformed?)
      ==> r == Fulfilled(AnalysisJson(GetMockAnalysis(fileType)))
  {
    match AnalysisTry(fetch, defaultMessage)
    case Threw(_) => Fulfilled(AnalysisJson(GetMockAnalysis(fileType)))
    case Returned(Rejected(_)) => Fulfilled(AnalysisJson(GetMockAnalysis(fileType)))
    case Returned(p) => p
  }

  /** `analyzeImage` with `return await response.json()`: it never rejects. */
  function AnalyzeImageAwaited(fetch: FetchOutcome): (r: Settled<Json>)
    ensures r.Fulfilled?
    ensures fetch.Http? && IsOk(fetch.status) && fetch.body.Wellformed? ==> r == Fulfilled(fetch.body.json)
    ensures !(fetch.Http? && IsOk(fetch.status) && fetch.body.Wellformed?)
      ==> r == Fulfilled(AnalysisJson(GetMockAnalysis("image")))
  {
    AnalysisCallAwaited(fetch, "image", "Failed to analyze image")
  }

  /** `analyzePdf` with `return await response.json()`: it never rejects. */
  function AnalyzePdfAwaited(fetch: FetchOutcome): (r: Settled<Json>)
    ensures r.Fulfilled?
    ensures fetch.Http? && IsOk(fetch.status) && fetch.body.Wellformed? ==> r == Fulfilled(fetch.body.json)
    ensures !(fetch.Http? && IsOk(fetch.status) && fetch.body.Wellformed?)
      ==> r == Fulfilled(AnalysisJson(GetMockAnalysis("pdf")))
  {
    AnalysisCallAwaited(fetch, "pdf", "Failed to analyze PDF")
  }

  /** `healthCheck` with `return await response.json()`: every failure is the status-0 error. */
  function HealthCheckAwaited(fetch: FetchOutcome): (r: Settled<Json>)
    ensures r.Rejected? ==> r.error == BackendUnavailable
    ensures r.Fulfilled? <==> fetch.Http? && IsOk(fetch.status) && fetch.body.Wellformed?
    ensures r.Fulfilled? ==> r.value == fetch.body.json
  {
    match HealthTry(fetch)
    case Threw(_) => Rejected(BackendUnavailable)
    case Returned(Rejected(_)) => Rejected(BackendUnavailable)
    case Returned(p) => p
  }

  /** An ok analysis response whose body is not JSON escapes the fallback, unlike with the awaited body. */
  lemma MalformedOkBodyEscapesFallback()
    ensures AnalyzeImage(Http(200, Malformed)) == Rejected(SyntaxError)
    ensures AnalyzePdf(Http(200, Malformed)) == Rejected(SyntaxError)
    ensures AnalyzeImageAwaited(Http(200, Malformed)) == Fulfilled(AnalysisJson(GetMockAnalysis("image")))
    ensures AnalyzePdfAwaited(Http(200, Malformed)) == Fulfilled(AnalysisJson(GetMockAnalysis("pdf")))
  {
  }

  /** An ok health response whose body is not JSON rejects with a `SyntaxError`, not the status-0 error. */
  lemma MalformedHealthBodyIsNotBackendUnavailable()
    ensures HealthCheck(Http(200, Malformed)) == Rejected(SyntaxError)
    ensures HealthCheck(Http(200, Malformed)) != Rejected(BackendUnavailable)
    ensures HealthCheckAwaited(Http(200, Malformed)) == Rejected(BackendUnavailable)
  {
  }

  /** The awaited calls agree with the written ones on every outcome but an ok response whose body is not JSON. */
  lemma AwaitedAgreesElsewhere(fetch: FetchOutcome)
    requires !(fetch.Http? && IsOk(fetch.status) && fetch.body.Malformed?)
    ensures AnalyzeImageAwaited(fetch) == AnalyzeImage(fetch)
    ensures AnalyzePdfAwaited(fetch) == AnalyzePdf(fetch)
    ensures HealthCheckAwaited(fetch) == HealthCheck(fetch)
  {
  }
}
