/**
 * hooks/useMedicalAnalysis.ts: which backend call a file goes to, how errors
 * coming back are relabelled, and the two flags the hook exposes.
 *
 * The two react-query mutations are not modelled: the outcome of each call is an
 * input (`mutateAsync` settles as the call does), and their pending and error
 * flags are inputs.
 */
module MedicalAnalysisHook {
  import opened Wrappers
  import opened Web
  import opened Text
  import opened Api

  datatype Endpoint = PdfEndpoint | ImageEndpoint

  /** The branch of `analyzeFile` taken for a MIME type; `None` is the `else` branch that throws. */
  function RouteFor(mimeType: string): (e: Option<Endpoint>)
    ensures e == Some(PdfEndpoint) <==> mimeType == "application/pdf"
    ensures e == Some(ImageEndpoint) <==> StartsWith(mimeType, "image/")
    ensures e == None <==> mimeType != "application/pdf" && !StartsWith(mimeType, "image/")
  {
    if mimeType == "application/pdf" then
      assert mimeType[..6][0] != "image/"[0];
      Some(PdfEndpoint)
    else if StartsWith(mimeType, "image/") then Some(ImageEndpoint)
    else None
  }

  const UnsupportedFileType := ApiError(400, "Unsupported file type")

  /** The `catch` of `analyzeFile`: an `ApiError` is rethrown as it is, anything else becomes a 400. */
  function Relabel(error: JsError): (e: JsError)
    ensures e.ApiError?
    ensures error.ApiError? ==> e == error
    ensures !error.ApiError? ==> e == UnsupportedFileType
  {
    if error.ApiError? then error else UnsupportedFileType
  }

  /** Which call `analyzeFile` made, if any, and how its promise settled. */
  datatype Dispatch = Dispatch(call: Option<Endpoint>, outcome: Settled<Json>)

  /**
   * `analyzeFile(file)`, given how each of the two calls would settle. Only the
   * chosen call's outcome is used; an unsupported type makes no call.
   */
  function AnalyzeFile(file: File, pdf: Settled<Json>, image: Settled<Json>): (d: Dispatch)
    ensures d.call == RouteFor(file.mimeType)
    ensures d.call == None ==> d.outcome == Rejected(UnsupportedFileType)
    ensures d.call.Some? ==>
      var chosen := if d.call == Some(PdfEndpoint) then pdf else image;
      && (chosen.Fulfilled? ==> d.outcome == chosen)
      && (chosen.Rejected? ==> d.outcome == Rejected(Relabel(chosen.error)))
    ensures d.outcome.Rejected? ==> d.outcome.error.ApiError?
  {
    var call := RouteFor(file.mimeType);
    var thrown: Settled<Json> :=
      match call
      case Some(PdfEndpoint) => pdf
      case Some(ImageEndpoint) => image
      case None => Rejected(PlainError("Unsupported file type"));
    var outcome := if thrown.Rejected? then Rejected(Relabel(thrown.error)) else thrown;
    Dispatch(call, outcome)
  }

  /** `isAnalyzing`: either mutation is pending. */
  function IsAnalyzing(imagePending: bool, pdfPending: bool): (busy: bool)
    ensures !busy <==> !imagePending && !pdfPending
  {
    imagePending || pdfPending
  }

  /** `error`: the image mutation's error when it has one, otherwise the PDF mutation's. */
  function HookError(imageError: Option<JsError>, pdfError: Option<JsError>): (e: Option<JsError>)
    ensures e.Some? <==> imageError.Some? || pdfError.Some?
    ensures imageError.Some? ==> e == imageError
    ensures imageError.None? ==> e == pdfError
  {
    if imageError.Some? then imageError else pdfError
  }

  /**
   * With the calls as written, `analyzeFile` rejects for a routed file only when
   * the backend answered ok with a body that is not JSON, and then with the
   * misleading "Unsupported file type".
   */
  lemma {:induction false} RoutedFileRejectsOnlyOnMalformedBody(file: File, fetch: FetchOutcome)
    requires RouteFor(file.mimeType).Some?
    ensures var d := AnalyzeFile(file, AnalyzePdf(fetch), AnalyzeImage(fetch));
      d.outcome.Rejected? <==> fetch.Http? && IsOk(fetch.status) && fetch.body.Malformed?
    ensures var d := AnalyzeFile(file, AnalyzePdf(fetch), AnalyzeImage(fetch));
      d.outcome.Rejected? ==> d.outcome.error == UnsupportedFileType
  {
  }

  /** With the awaited calls, a routed file always yields a result: the body, or the canned one for its category. */
  lemma {:induction false} RoutedFileAlwaysFulfilsWhenAwaited(file: File, fetch: FetchOutcome)
    requires RouteFor(file.mimeType).Some?
    ensures var d := AnalyzeFile(file, AnalyzePdfAwaited(fetch), AnalyzeImageAwaited(fetch));
      && d.outcome.Fulfilled?
      && (fetch.Http? && IsOk(fetch.status) && fetch.body.Wellformed? ==> d.outcome.value == fetch.body.json)
      && (!(fetch.Http? && IsOk(fetch.status) && fetch.body.Wellformed?) ==>
            d.outcome.value == AnalysisJson(GetMockAnalysis(
              if file.mimeType == "application/pdf" then "pdf" else "image")))
  {
  }
}
