/**
 * The client's parts put together: a file picked in the uploader, the
 * "Analyze Report" click, the hook's dispatch to one of the two calls, and
 * the page storing what came back; and the health query gating the uploader.
 * Each run starts from a freshly mounted page and uploader.
 */
module Scenarios {
  import opened Wrappers
  import opened Text
  import opened Web
  import opened Api
  import opened MedicalAnalysisHook
  import opened FileUpload
  import opened IndexPage
  import BackendMain

  /** Every file the uploader accepts has an endpoint: the hook never relabels an accepted file as unsupported. */
  lemma AcceptedFilesAreRouted(file: File)
    requires Validate(file) == Accepted
    ensures RouteFor(file.mimeType) == if file.mimeType == "application/pdf" then Some(PdfEndpoint) else Some(ImageEndpoint)
  {
    if file.mimeType != "application/pdf" {
      var m := file.mimeType;
      assert m[..6] == "image/" by {
        if m == "image/jpeg" { assert m[..6] == "image/"; }
        else if m == "image/png" { assert m[..6] == "image/"; }
        else { assert m[..6] == "image/"; }
      }
    }
  }

  /** The hook routes `image/gif` to the image call and the backend's type check passes it, but the uploader refuses it first. */
  lemma GifRefusedOnlyByUploader(name: string, size: nat)
    ensures RouteFor("image/gif") == Some(ImageEndpoint)
    ensures BackendMain.ImageTypeCheck(BackendMain.UploadFile(Some("image/gif"), Some(name))).None?
    ensures Validate(File(name, size, "image/gif")) == WrongType
  {
    assert "image/gif"[..6] == "image/";
  }

  /**
   * One submission: the file is chosen through the input of an uploader with the
   * given `disabled` prop, the button is pressed, and the chosen call, as
   * written, meets the backend as `fetch` describes.
   */
  method Submit(file: File, disabled: bool, fetch: FetchOutcome)
    returns (alert: Option<string>, call: Option<Endpoint>, analysis: Json)
    ensures disabled ==> alert == None && call == None && analysis == JsonNull
    ensures !disabled ==> alert == AlertText(Validate(file))
    ensures Validate(file) != Accepted ==> call == None && analysis == JsonNull
    ensures !disabled && Validate(file) == Accepted ==> call == RouteFor(file.mimeType) && call.Some?
    ensures !disabled && Validate(file) == Accepted ==>
      var fileType := if file.mimeType == "application/pdf" then "pdf" else "image";
      && (fetch.NetworkFailure? || !IsOk(fetch.status) ==> analysis == AnalysisJson(GetMockAnalysis(fileType)))
      && (fetch.Http? && IsOk(fetch.status) && fetch.body.Malformed? ==> analysis == JsonNull)
      && (fetch.Http? && IsOk(fetch.status) && fetch.body.Wellformed? && !Truthy(fetch.body.json) ==> analysis == JsonNull)
      && (fetch.Http? && IsOk(fetch.status) && fetch.body.Wellformed? && Truthy(fetch.body.json) ==>
            analysis == fetch.body.json)
  {
    var page := new Page();
    var uploader := new Uploader(disabled);
    alert := uploader.OnInputChange([file]);
    var uploaded := uploader.OnAnalyzeClick();
    call := None;
    if uploaded.Some? {
      var chosen := uploaded.value;
      AcceptedFilesAreRouted(chosen);
      var dispatch := AnalyzeFile(chosen, AnalyzePdf(fetch), AnalyzeImage(fetch));
      page.HandleFileUpload(chosen, dispatch.outcome);
      call := dispatch.call;
    }
    analysis := page.analysis;
  }

  /** An upload of a 2 MiB PNG answered with a record: the page holds exactly that record. */
  method ChestXrayScenario(returned: MedicalAnalysis) returns (shown: Json)
    ensures shown == AnalysisJson(returned)
  {
    var file := File("chest-xray.png", 2 * 1024 * 1024, "image/png");
    var alert, call;
    alert, call, shown := Submit(file, false, Http(200, Wellformed(AnalysisJson(returned))));
  }

  /** A text file is refused with the type alert and no request goes out. */
  method NotesTxtScenario() returns (alert: Option<string>, call: Option<Endpoint>)
    ensures alert == Some("Please upload only JPG, PNG, or PDF files")
    ensures call == None
  {
    var shown;
    alert, call, shown := Submit(File("notes.txt", 120, "text/plain"), false, NetworkFailure);
    TypeCheckedFirst(File("notes.txt", 120, "text/plain"));
  }

  /** A PDF sent to an unreachable backend shows the mock analysis, on its 0-100 scale. */
  method UnreachablePdfScenario(size: nat) returns (shown: Json)
    requires size <= 10_485_760
    ensures shown.AnalysisJson?
    ensures shown.analysis.success
    ensures Contains(shown.analysis.summary, "mock analysis for pdf file")
    ensures shown.analysis.confidenceScore == 85.0
  {
    var file := File("report.pdf", size, "application/pdf");
    assert Validate(file) == Accepted;
    var alert, call;
    alert, call, shown := Submit(file, false, NetworkFailure);
    assert shown == AnalysisJson(GetMockAnalysis("pdf"));
    assert "mock analysis for " + "pdf" + " file" == "mock analysis for pdf file";
  }

  /** A 12 MiB JPEG is refused as too large. */
  method OversizedScanScenario() returns (alert: Option<string>, call: Option<Endpoint>)
    ensures alert == AlertText(TooLarge) && alert.Some?
    ensures call == None
  {
    var shown;
    alert, call, shown := Submit(File("scan.jpg", 12 * 1024 * 1024, "image/jpeg"), false, NetworkFailure);
  }

  /** A 500 from the image route looks like a successful analysis. */
  method ServerErrorScenario(body: Body) returns (shown: Json)
    ensures shown == AnalysisJson(GetMockAnalysis("image"))
    ensures shown.analysis.success
  {
    var alert, call;
    alert, call, shown := Submit(File("scan.png", 1024, "image/png"), false, Http(500, body));
  }

  /**
   * The health query failing: the indicator shows Disconnected and the
   * uploader, mounted with the page's `disabled`, sends nothing.
   */
  method UnreachableHealthScenario(file: File) returns (shownStatus: string, call: Option<Endpoint>)
    ensures shownStatus == "Backend Disconnected"
    ensures call == None
  {
    var health := HealthCheck(NetworkFailure);
    var healthError := if health.Rejected? then Some(health.error) else None;
    shownStatus := IndicatorText(Indicator(healthError, None));
    var alert, shown;
    alert, call, shown := Submit(file, UploaderDisabled(healthError), NetworkFailure);
  }

  /** Reset after a shown result brings back the upload section with nothing held. */
  method ResetScenario(returned: MedicalAnalysis) returns (uploadShown: bool, resultsShown: bool, held: Option<File>)
    ensures uploadShown && !resultsShown && held == None
  {
    var page := new Page();
    var file := File("chest-xray.png", 1024, "image/png");
    page.HandleFileUpload(file, Fulfilled(AnalysisJson(returned)));
    assert page.ShowsResults();
    page.HandleReset();
    uploadShown := page.ShowsUploadSection(false);
    resultsShown := page.ShowsResults();
    held := page.uploadedFile;
  }
}
