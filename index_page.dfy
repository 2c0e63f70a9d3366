/**
 * pages/Index.tsx: the page's two state cells (`analysis`, `uploadedFile`), the
 * upload and reset handlers that write them, which sections are shown, the
 * connection indicator and the gating of the uploader.
 *
 * The `analysis` cell holds whatever the analysis call fulfilled with; `JsonNull`
 * stands for `null`. Truthiness is JavaScript's (`Api.Truthy`). `isAnalyzing` and the health query's `data` and `error` are
 * library-held state and come in as parameters.
 */
module IndexPage {
  import opened Wrappers
  import opened Web
  import opened Api

  /** The `analysis` cell after `analyzeFile` settles (`handleFileUpload`, from the `try` on). */
  function AnalysisAfter(current: Json, result: Settled<Json>): (next: Json)
    ensures result.Rejected? ==> next == JsonNull
    ensures result.Fulfilled? && Truthy(result.value) ==> next == result.value
    ensures result.Fulfilled? && !Truthy(result.value) ==> next == current
    ensures Truthy(next) ==> result.Fulfilled? && (next == result.value || next == current)
  {
    match result
    case Fulfilled(v) => if Truthy(v) then v else current
    case Rejected(_) => JsonNull
  }

  class Page {
    var analysis: Json
    var uploadedFile: Option<File>

    /** The cell holds `null` or a truthy value: a falsy result is never stored. */
    predicate Valid()
      reads this
    {
      analysis == JsonNull || Truthy(analysis)
    }

    constructor ()
      ensures analysis == JsonNull && uploadedFile == None
      ensures Valid()
    {
      analysis := JsonNull;
      uploadedFile := None;
    }

    /** The first step of `handleFileUpload`, taken before the analysis is awaited. */
    method BeginFileUpload(file: File)
      modifies this`uploadedFile
      ensures uploadedFile == Some(file)
    {
      uploadedFile := Some(file);
    }

    /** The rest of `handleFileUpload`, once `analyzeFile` has settled. */
    method FinishFileUpload(result: Settled<Json>)
      requires Valid()
      modifies this`analysis
      ensures analysis == AnalysisAfter(old(analysis), result)
      ensures Valid()
    {
      match result {
        case Fulfilled(v) =>
          if Truthy(v) {
            analysis := v;
          }
        case Rejected(_) =>
          analysis := JsonNull;
      }
    }

    /** `handleFileUpload`: the file is recorded whatever the analysis does. */
    method HandleFileUpload(file: File, result: Settled<Json>)
      requires Valid()
      modifies this
      ensures uploadedFile == Some(file)
      ensures analysis == AnalysisAfter(old(analysis), result)
      ensures Valid()
    {
      BeginFileUpload(file);
      FinishFileUpload(result);
    }

    /** `handleReset`. */
    method HandleReset()
      modifies this
      ensures analysis == JsonNull && uploadedFile == None
      ensures Valid()
    {
      analysis := JsonNull;
      uploadedFile := None;
    }

    /** The upload section (status, uploader, feature cards). */
    function ShowsUploadSection(isAnalyzing: bool): (shown: bool)
      requires Valid()
      reads this
      ensures shown <==> analysis == JsonNull && !isAnalyzing
    {
      !Truthy(analysis) && !isAnalyzing
    }

    /** The results section. */
    function ShowsResults(): (shown: bool)
      requires Valid()
      reads this
      ensures shown <==> analysis != JsonNull
    {
      Truthy(analysis)
    }

    /** The "Processing: name" line of the progress section, when it is shown. */
    function ProcessingLine(isAnalyzing: bool): (line: Option<string>)
      reads this
      ensures line.Some? <==> isAnalyzing && uploadedFile.Some?
      ensures line.Some? ==> line.value == "Processing: " + uploadedFile.value.name
    {
      if isAnalyzing && uploadedFile.Some? then Some("Processing: " + uploadedFile.value.name) else None
    }

    /** Some section is always shown, and the upload section never together with another. */
    lemma SectionsCoverAllStates(isAnalyzing: bool)
      requires Valid()
      ensures ShowsUploadSection(isAnalyzing) || isAnalyzing || ShowsResults()
      ensures ShowsUploadSection(isAnalyzing) ==> !isAnalyzing && !ShowsResults()
    {
    }
  }

  /** The connection indicator. */
  datatype Connection = Disconnected | Connected | Connecting

  /** The indicator: an error wins over data; with neither, still connecting. */
  function Indicator(healthError: Option<JsError>, healthData: Option<Json>): (c: Connection)
    ensures c == Disconnected <==> healthError.Some?
    ensures c == Connected <==> healthError.None? && healthData.Some? && Truthy(healthData.value)
    ensures c == Connecting <==> healthError.None? && (healthData.None? || !Truthy(healthData.value))
  {
    if healthError.Some? then Disconnected
    else if healthData.Some? && Truthy(healthData.value) then Connected
    else Connecting
  }

  /** The indicator's label; each state has its own. */
  function IndicatorText(c: Connection): (text: string)
    ensures text == "Backend Disconnected" <==> c == Disconnected
    ensures text == "Backend Connected" <==> c == Connected
    ensures text == "Connecting to Backend..." <==> c == Connecting
  {
    match c
    case Disconnected => "Backend Disconnected"
    case Connected => "Backend Connected"
    case Connecting => "Connecting to Backend..."
  }

  /** The `disabled` prop given to the uploader. */
  function UploaderDisabled(healthError: Option<JsError>): (disabled: bool)
    ensures disabled <==> healthError.Some?
  {
    healthError.Some?
  }

  /** The uploader is disabled exactly when the indicator says Disconnected. */
  lemma DisabledIffDisconnected(healthError: Option<JsError>, healthData: Option<Json>)
    ensures UploaderDisabled(healthError) <==> Indicator(healthError, healthData) == Disconnected
  {
  }
}
