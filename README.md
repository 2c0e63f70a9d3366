# Medical Report Analyzer, modelled in Dafny

A model of the decision and transformation steps of the Medical Report Analyzer.
The model covers both halves of the system.

The React client:
- the uploader's file acceptance and its selected-file and drag cells;
- the hook that sends a file to the PDF or the image endpoint;
- the API client's fallback to a canned ("mock") analysis, and its health check;
- the page's `analysis`/`uploadedFile` cells, its views, the connection indicator and the upload gating;
- the results view's expanded-term list and confidence buckets.

The FastAPI backend:
- the content-type checks of the two analysis routes and their mapping of every failure to a 500;
- the construction of the `AnalysisResponse` record;
- the repair of the language model's reply: the JSON window, default fields, the fallback record, the term extraction;
- the PDF page loop, the text clean-up with its 8000-character cut, and the size check.

Network I/O, the language model, the PDF reader and `json.loads` are inputs of the model:
- a fetch is `NetworkFailure` or `Http(status, body)`, and the body is `Malformed` (not JSON) or a decoded value;
- a model reply is the reply text, or the text of the exception the call raised;
- a PDF is the list of its page texts, or the reader's error;
- `json.loads` fails on the empty text and is an arbitrary partial function `loads` on any other text.

Modules follow the source files:

| module | file |
|---|---|
| `FileUpload` | `file_upload.dfy` |
| `MedicalAnalysisHook` | `medical_analysis_hook.dfy` |
| `Api` | `api.dfy` |
| `IndexPage` | `index_page.dfy` |
| `AnalysisResults` | `analysis_results.dfy` |
| `BackendMain` | `backend_main.dfy` |
| `AiService` | `ai_service.dfy` |
| `FileProcessor` | `file_processor.dfy` |

Shared modules:
- `Wrappers` holds Option and Result.
- `Web` holds the browser `File`, JavaScript errors and settled promises.
- `Text` holds prefix and suffix tests.
- `Python` holds the `str` operations the backend uses and the values `json.loads` yields.

`Scenarios` puts the client together, from picking a file to the page showing the outcome.

The uploader, the page and the results view keep state, so each is a class whose methods update its fields. Everything else is a function. Two loops are methods proved against a specification function:
- the PDF page loop (`FileProcessor.ExtractTextFromPdf`, against `JoinPages`);
- the default-filling loop (`AiService.FillDefaults`, against `WithDefaults`).

The canned analysis has `confidence_score` 85. The backend's defaults and fallback, and the prompt's example, are in [0, 1]; the language model's own score is passed through unchecked. The results view multiplies by 100, so the canned result displays as 8500 and counts as "High". The model proves this (`AnalysisResults.MockConfidenceOffScale`). It keeps both scales as written rather than picking one.

## Model

| member | source | states |
|---|---|---|
| FileUpload.Validate | medical-report-reader/src/components/FileUpload.tsx:45-61 | accepted iff the type is image/jpeg, image/png, image/jpg or application/pdf and the size is at most 10,485,760; a wrong type is reported as such whatever the size; too large only for a listed type |
| FileUpload.AlertText | medical-report-reader/src/components/FileUpload.tsx:53-60 | an alert is shown iff the file is not accepted |
| FileUpload.DragActiveAfter | medical-report-reader/src/components/FileUpload.tsx:21-25 | dragenter/dragover set the flag, dragleave clears it, any other event type leaves it |
| FileUpload.TypeCheckedFirst | medical-report-reader/src/components/FileUpload.tsx:53-56 | a file of an unlisted type gets the type alert, whatever its size |
| FileUpload.SizeBoundInclusive | medical-report-reader/src/components/FileUpload.tsx:51-58 | exactly 10 MiB passes, one byte more is too large |
| FileUpload.Uploader.constructor | medical-report-reader/src/components/FileUpload.tsx:10-16 | no file selected, no drag in progress |
| FileUpload.Uploader.SetDisabled | medical-report-reader/src/components/FileUpload.tsx:12 | a new `disabled` prop, the state cells unchanged |
| FileUpload.Uploader.HandleFile | medical-report-reader/src/components/FileUpload.tsx:44-64 | an accepted file becomes the selection, a rejected one leaves the selection as it was; the alert matches the verdict |
| FileUpload.Uploader.HandleDrag | medical-report-reader/src/components/FileUpload.tsx:18-26 | the drag flag follows the event type |
| FileUpload.Uploader.HandleDrop | medical-report-reader/src/components/FileUpload.tsx:28-36 | a drop clears the drag flag; only the first dropped file is handled; no file changes nothing else |
| FileUpload.Uploader.HandleFileChange | medical-report-reader/src/components/FileUpload.tsx:38-42 | the first chosen file is handled; none changes nothing |
| FileUpload.Uploader.RemoveFile | medical-report-reader/src/components/FileUpload.tsx:66-71 | the selection is cleared |
| FileUpload.Uploader.HandleUpload | medical-report-reader/src/components/FileUpload.tsx:73-77 | the selected file is handed on iff there is one |
| FileUpload.Uploader.OnDragEvent | medical-report-reader/src/components/FileUpload.tsx:89-91 | when disabled no drag handler runs and the flag is unchanged |
| FileUpload.Uploader.OnDrop | medical-report-reader/src/components/FileUpload.tsx:92 | when disabled a drop changes nothing and alerts nothing; otherwise as `HandleDrop`: the first dropped file's alert and selection, no alert and no change for an empty drop |
| FileUpload.Uploader.OnInputChange | medical-report-reader/src/components/FileUpload.tsx:94-99 | when disabled the input selects nothing; otherwise as `HandleFileChange` |
| FileUpload.Uploader.OnAnalyzeClick | medical-report-reader/src/components/FileUpload.tsx:147-153 | when disabled nothing is handed on, otherwise the selection |
| MedicalAnalysisHook.RouteFor | medical-report-reader/src/hooks/useMedicalAnalysis.ts:22-27 | exactly application/pdf goes to the PDF call, any image/ type to the image call, anything else to no call |
| MedicalAnalysisHook.Relabel | medical-report-reader/src/hooks/useMedicalAnalysis.ts:29-34 | an ApiError is re-thrown unchanged, any other error becomes ApiError(400, "Unsupported file type") |
| MedicalAnalysisHook.AnalyzeFile | medical-report-reader/src/hooks/useMedicalAnalysis.ts:20-35 | only the routed call's outcome is used; an unsupported type makes no call and rejects with ApiError(400); every rejection is an ApiError |
| MedicalAnalysisHook.IsAnalyzing | medical-report-reader/src/hooks/useMedicalAnalysis.ts:39 | busy iff either call is pending |
| MedicalAnalysisHook.HookError | medical-report-reader/src/hooks/useMedicalAnalysis.ts:40 | the image call's error if set, else the PDF call's |
| MedicalAnalysisHook.RoutedFileRejectsOnlyOnMalformedBody | medical-report-reader/src/hooks/useMedicalAnalysis.ts:20-35 | with the calls as written, a routed file rejects iff the backend answered ok with a body that is not JSON, and then as "Unsupported file type" |
| MedicalAnalysisHook.RoutedFileAlwaysFulfilsWhenAwaited | medical-report-reader/src/hooks/useMedicalAnalysis.ts:20-35 | with the body awaited, a routed file always yields the body or the canned result of its category |
| Api.GetMockAnalysis | medical-report-reader/src/lib/api.ts:21-45 | success, the summary names "mock analysis for <type> file", three findings, recommendations, precautions and terms, score 85 |
| Api.IsOk | medical-report-reader/src/lib/api.ts:58 | `response.ok`: a status from 200 to 299 |
| Api.AnalysisTry | medical-report-reader/src/lib/api.ts:49-63 | the `try` block throws exactly on no response (a TypeError) or a non-ok status (`NotOkError`); otherwise it returns the unawaited `response.json()` promise |
| Api.ReadJson | medical-report-reader/src/lib/api.ts:63 | `response.json()` rejects with a SyntaxError iff the body is not JSON, else yields the decoded value |
| Api.StringOf | medical-report-reader/src/lib/api.ts:13-15 | `String(x)` as `new Error(x)` applies it: a string is itself, a number its text, an object "[object Object]", an empty array "" |
| Api.DetailOr | medical-report-reader/src/lib/api.ts:60 | `String(detail)` when the body is an object whose `detail` is truthy (so a non-empty string is kept as it is), else the default message |
| Api.NotOkError | medical-report-reader/src/lib/api.ts:58-61 | an ApiError with the response's status, except a TypeError exactly when the body is JSON null; its message is `String(detail)` for a truthy detail and the default message otherwise, an undecodable body included |
| Api.AnalysisCall | medical-report-reader/src/lib/api.ts:48-67 | no response or a non-ok status gives the canned result; an ok decoded body is returned unchanged; it rejects iff an ok body is not JSON, and then with a SyntaxError |
| Api.AnalyzeImage | medical-report-reader/src/lib/api.ts:48-68 | as `AnalysisCall`, with the image canned result |
| Api.AnalyzePdf | medical-report-reader/src/lib/api.ts:70-90 | as `AnalysisCall`, with the PDF canned result |
| Api.NotOkErrorIsSwallowed | medical-report-reader/src/lib/api.ts:58-66 | the error built for a non-ok status is thrown and caught: the result equals that of no response at all |
| Api.HealthTry | medical-report-reader/src/lib/api.ts:93-100 | the `try` block throws exactly on no response (a TypeError) or a non-ok status (ApiError(status, "Health check failed")); otherwise it returns the unawaited `response.json()` promise |
| Api.HealthCheck | medical-report-reader/src/lib/api.ts:92-104 | no response or a non-ok status rejects with ApiError(0, "Backend server is not available"); an ok decoded body fulfils; an ok body that is not JSON rejects with a SyntaxError |
| Api.AnalysisCallAwaited | medical-report-reader/src/lib/api.ts:63 | with the body awaited inside the try, the call always fulfils: the body when ok and decodable, else the canned result |
| Api.AnalyzeImageAwaited | medical-report-reader/src/lib/api.ts:63 | `analyzeImage` with the body awaited: never rejects |
| Api.AnalyzePdfAwaited | medical-report-reader/src/lib/api.ts:85 | `analyzePdf` with the body awaited: never rejects |
| Api.HealthCheckAwaited | medical-report-reader/src/lib/api.ts:100-102 | `healthCheck` with the body awaited: every failure is the status-0 error, and it fulfils iff the response is ok and decodable |
| Api.MalformedOkBodyEscapesFallback | medical-report-reader/src/lib/api.ts:63-66 | an ok analysis response whose body is not JSON rejects as written and yields the canned result when awaited |
| Api.MalformedHealthBodyIsNotBackendUnavailable | medical-report-reader/src/lib/api.ts:100-102 | an ok health response whose body is not JSON rejects with a SyntaxError, not the status-0 error, unless awaited |
| Api.AwaitedAgreesElsewhere | medical-report-reader/src/lib/api.ts:48-104 | the awaited and written calls agree on every other outcome |
| IndexPage.AnalysisAfter | medical-report-reader/src/pages/Index.tsx:24-33 | a rejection clears the analysis, a truthy result (in JavaScript's sense) replaces it, a falsy one leaves it |
| IndexPage.Page.constructor | medical-report-reader/src/pages/Index.tsx:12-13 | no analysis, no file; the analysis cell is null or truthy, and every method keeps it so |
| IndexPage.Page.BeginFileUpload | medical-report-reader/src/pages/Index.tsx:22 | the file is recorded before the analysis is awaited |
| IndexPage.Page.FinishFileUpload | medical-report-reader/src/pages/Index.tsx:24-33 | the analysis cell becomes `AnalysisAfter` of its old value and the outcome |
| IndexPage.Page.HandleFileUpload | medical-report-reader/src/pages/Index.tsx:21-34 | the file stays recorded whatever the outcome; the analysis cell follows `AnalysisAfter` |
| IndexPage.Page.HandleReset | medical-report-reader/src/pages/Index.tsx:36-39 | both cells cleared |
| IndexPage.Page.ShowsUploadSection | medical-report-reader/src/pages/Index.tsx:62 | shown iff there is no analysis and nothing is being analysed |
| IndexPage.Page.ShowsResults | medical-report-reader/src/pages/Index.tsx:148-150 | shown iff there is an analysis |
| IndexPage.Page.ProcessingLine | medical-report-reader/src/pages/Index.tsx:129-143 | "Processing: <name>" iff analysing with a recorded file |
| IndexPage.Page.SectionsCoverAllStates | medical-report-reader/src/pages/Index.tsx:62-150 | some section is always shown, and the upload section never together with the others |
| IndexPage.Indicator | medical-report-reader/src/pages/Index.tsx:68-81 | Disconnected iff there is a health error, which takes priority; else Connected iff the data is truthy; else Connecting |
| IndexPage.IndicatorText | medical-report-reader/src/pages/Index.tsx:76-81 | each indicator state has its own label, in both directions |
| IndexPage.UploaderDisabled | medical-report-reader/src/pages/Index.tsx:94 | the uploader is disabled iff there is a health error |
| IndexPage.DisabledIffDisconnected | medical-report-reader/src/pages/Index.tsx:68-94 | the uploader is disabled exactly when the indicator shows Disconnected |
| AnalysisResults.RemoveAll | medical-report-reader/src/components/AnalysisResults.tsx:32 | the term is gone and every other term keeps its membership |
| AnalysisResults.RemoveAbsent | medical-report-reader/src/components/AnalysisResults.tsx:32 | filtering out an absent term changes nothing |
| AnalysisResults.RemoveAppend | medical-report-reader/src/components/AnalysisResults.tsx:32 | filtering distributes over concatenation |
| AnalysisResults.RemoveKeepsDuplicateFree | medical-report-reader/src/components/AnalysisResults.tsx:32 | filtering keeps a duplicate-free list duplicate-free |
| AnalysisResults.Toggled | medical-report-reader/src/components/AnalysisResults.tsx:30-34 | toggling flips the toggled term's membership and no other |
| AnalysisResults.ToggleKeepsOthersInOrder | medical-report-reader/src/components/AnalysisResults.tsx:32 | the other terms keep their relative order |
| AnalysisResults.ToggleTwiceRestores | medical-report-reader/src/components/AnalysisResults.tsx:32 | from a list without the term, two toggles restore the list |
| AnalysisResults.ToggleTwiceMovesToEnd | medical-report-reader/src/components/AnalysisResults.tsx:32 | from a list with the term, two toggles move it to the end |
| AnalysisResults.ToggleKeepsDuplicateFree | medical-report-reader/src/components/AnalysisResults.tsx:32 | toggling keeps a duplicate-free list duplicate-free |
| AnalysisResults.ResultsView.constructor | medical-report-reader/src/components/AnalysisResults.tsx:28 | nothing expanded |
| AnalysisResults.ResultsView.ToggleTerm | medical-report-reader/src/components/AnalysisResults.tsx:30-34 | the list becomes its toggled form, the term's membership flips, no duplicate is introduced |
| AnalysisResults.ResultsView.ExplanationShown | medical-report-reader/src/components/AnalysisResults.tsx:197-207 | a term's explanation is rendered iff the term is expanded |
| AnalysisResults.DisplayedConfidence | medical-report-reader/src/components/AnalysisResults.tsx:71-83 | the value shown and bucketed is the score times 100: a score in [0, 1] is displayed in [0, 100], the bucket is High iff the score is at least 0.8 and Low iff it is below 0.6 |
| AnalysisResults.LevelOf | medical-report-reader/src/components/AnalysisResults.tsx:36-46 | High at 80 and above, Medium from 60 below 80, Low below 60 |
| AnalysisResults.ConfidenceColor | medical-report-reader/src/components/AnalysisResults.tsx:36-40 | green iff High, yellow iff Medium, red iff Low |
| AnalysisResults.ConfidenceText | medical-report-reader/src/components/AnalysisResults.tsx:42-46 | "High Confidence" iff High, "Medium Confidence" iff Medium, "Low Confidence" iff Low |
| AnalysisResults.ColorAndTextAgree | medical-report-reader/src/components/AnalysisResults.tsx:36-46 | two scores share a colour iff they share a bucket iff they share a label |
| AnalysisResults.MockConfidenceOffScale | medical-report-reader/src/components/AnalysisResults.tsx:71-83 | the canned score is off the [0, 1] scale, shows as 8500 and counts as High |
| BackendMain.ImageTypeCheck | backend/main.py:49-54 | passes iff the content type starts with image/, or there is none and the lower-cased file name ends with one of the five image extensions; each refusal carries its own detail |
| BackendMain.PdfTypeCheck | backend/main.py:85-90 | passes iff the content type is application/pdf, or there is none and the lower-cased file name ends with .pdf |
| BackendMain.Conforms | backend/models.py:9-18 | pydantic's check of `AnalysisResponse`: every required field present, a `str` summary, a `float` score, three `List[str]` fields, and `complex_terms`, when given, `Optional[Dict[str, str]]` |
| BackendMain.FirstMissing | backend/main.py:62-68 | the first required key the analysis lacks, in argument order, if any |
| BackendMain.AsStrings | backend/models.py:13-15 | a list passes the `List[str]` check iff every item is a string, and the result holds those strings |
| BackendMain.AsStringList | backend/models.py:13-15 | only a list of strings passes |
| BackendMain.AsTerms | backend/models.py:17 | null passes as absent; a dict passes iff every value is a string, keeping its keys |
| BackendMain.BuildResponse | backend/main.py:62-70 | a missing required field raises the KeyError of the first; a response is built iff every field has its declared type; it has success set, no error message, and copies the summary, the score, the three string lists and the terms; absent terms become an empty map |
| BackendMain.AllPresent | backend/main.py:64-68 | no KeyError means every required field is a key |
| BackendMain.Validated | backend/main.py:62-70 | the response holds each field's value unwrapped: the lists are the strings of the lists, the terms the strings of the dict |
| BackendMain.ErrorText | backend/main.py:72-76 | `str(KeyError(f))` is the quoted field name; only a KeyError's text starts with a quote |
| BackendMain.Handle | backend/main.py:47-76 | every failure, the type refusal included, is a 500 whose detail starts "Analysis failed: "; a response is sent iff every step succeeds |
| BackendMain.AnalyzeImage | backend/main.py:42-76 | a refused type is a 500; a response is successful and came through the type check and processing |
| BackendMain.AnalyzePdf | backend/main.py:78-112 | the same for PDFs |
| BackendMain.FallbackConforms | backend/main.py:62-70 | the fallback record with empty terms has every field, each of its declared type |
| BackendMain.FallbackBuilds | backend/main.py:62-70 | the fallback record with empty terms passes the response checks |
| BackendMain.BracelessReplySucceeds | backend/main.py:42-76 | a model reply without a brace still gives a successful response built from the fallback record, score 0.5 |
| BackendMain.Health | backend/main.py:37-40 | the body holds status "healthy" and the message, nothing else |
| AiService.DefaultValue | backend/services/ai_service.py:153-162 | each required field has a non-empty default, the score's being 0.5; any other name gets "" |
| AiService.FallbackResponse | backend/services/ai_service.py:143-151 | exactly the five fields; the summary quotes the first min(200, n) characters; score 0.5 |
| AiService.JsonWindow | backend/services/ai_service.py:120-125 | none iff a brace is missing; otherwise the slice from the first { through the last }, empty iff the last } comes first |
| AiService.JsonLoads | backend/services/ai_service.py:126 | `json.loads` of the empty window is always a decode error; any other window is handed to `loads` |
| AiService.Candidate | backend/services/ai_service.py:120-129 | the fallback when a brace is missing, else what `json.loads` makes of the window |
| AiService.WithDefaults | backend/services/ai_service.py:131-135 | every required key is present, existing keys untouched, missing ones their defaults |
| AiService.FilledFromFacts | backend/services/ai_service.py:132-135 | visiting a run of field names adds exactly the missing ones, each with its default, and keeps every existing field |
| AiService.FillDefaults | backend/services/ai_service.py:132-135 | the loop yields `WithDefaults` of its input |
| AiService.ParseAnalysisResponse | backend/services/ai_service.py:114-141 | the stripped reply is windowed, decoded and completed, or replaced by the fallback |
| AiService.ParsedHasRequiredFields | backend/services/ai_service.py:131-137 | whatever the reply, the five fields are present |
| AiService.FallbackIsComplete | backend/services/ai_service.py:127-135 | completing the fallback record changes nothing |
| AiService.ParsedFallbackCases | backend/services/ai_service.py:124-141 | without both braces, or on a decode error, the result is the fallback for the stripped reply |
| AiService.ReversedBracesFallback | backend/services/ai_service.py:121-141 | a reply whose last } comes before its first { gets the fallback record, whatever `loads` does |
| AiService.ParsedKeepsDecodedFields | backend/services/ai_service.py:126-135 | a decoded record keeps all its fields; only missing required ones are added |
| AiService.FallbackSummaryLength | backend/services/ai_service.py:146 | the summary's length is the lead, min(200, n), and three |
| AiService.ReversedBracesNoTerms | backend/services/ai_service.py:203-213 | a reply whose last } comes before its first { yields no terms |
| AiService.ExtractedTerms | backend/services/ai_service.py:200-220 | empty on a failed call, a missing brace or a decode error; else the decoded window |
| AiService.Report | backend/services/ai_service.py:35-53 | fails iff the analysis call failed, with "AI analysis failed: " prefixed; a result's complex_terms are the extracted terms |
| AiService.AnalyzeMedicalReport | backend/services/ai_service.py:24-53 | the method yields `Report`; a result holds the five fields and complex_terms |
| AiService.RequiredSurviveTerms | backend/services/ai_service.py:47-48 | setting complex_terms leaves the five fields of a complete record as they were |
| AiService.ComplexTermsOverwritten | backend/services/ai_service.py:47-48 | complex_terms comes from term extraction whatever the analysis held; the five fields are those parsed |
| FileProcessor.JoinPagesAppend | backend/services/file_processor.py:115-118 | the page text of two runs of pages is the concatenation of each |
| FileProcessor.JoinPagesLength | backend/services/file_processor.py:115-118 | one added newline per page and nothing else |
| FileProcessor.CollapseWhitespace | backend/services/file_processor.py:139 | the words (maximal runs of non-whitespace) are kept, in order; between them single spaces, none at either end, no newline |
| FileProcessor.CollapseIdempotent | backend/services/file_processor.py:139 | collapsing again changes nothing |
| FileProcessor.Truncate | backend/services/file_processor.py:146-147 | text up to 8000 characters is unchanged; longer text is its first 8000 plus the suffix; the length is bounded |
| FileProcessor.TruncateKeepsAbsent | backend/services/file_processor.py:146-147 | the cut adds no NUL and no newline to text that has none |
| FileProcessor.CleanExtractedText | backend/services/file_processor.py:128-149 | the collapsed text with every NUL deleted, then cut at 8000; so no NUL, no newline, at most 8000 plus the suffix's length |
| FileProcessor.NulRemovalKeepsNoNewline | backend/services/file_processor.py:142 | removing NULs removes them all and brings no newline back |
| FileProcessor.NewlineReplacementIsNoOp | backend/services/file_processor.py:143 | the triple-newline replacement never finds anything |
| FileProcessor.ExtractTextFromPdf | backend/services/file_processor.py:100-126 | the loop joins the pages in order, each followed by a newline, and cleans the result; a reader failure is prefixed |
| FileProcessor.ProcessPdf | backend/services/file_processor.py:43-63 | a failure carries both prefixes; success is the cleaned page text |
| FileProcessor.ValidateFileSize | backend/services/file_processor.py:151-173 | true iff the length read is within the bound; an unreadable file counts as 0 bytes |
| FileProcessor.DefaultSizeBound | backend/services/file_processor.py:151-173 | with the default the bound is 10 MiB, inclusive, and an unreadable file passes |
| Python.StripLeft | backend/services/ai_service.py:118 | the result is a suffix of the input; exactly the leading whitespace is dropped |
| Python.StripRight | backend/services/ai_service.py:118 | the result is a prefix of the input; exactly the trailing whitespace is dropped |
| Python.Strip | backend/services/ai_service.py:118 | no longer than the input, and neither starts nor ends with whitespace |
| Python.StripKeepsMiddle | backend/services/ai_service.py:118 | the stripped text is a slice of the input with only whitespace before and after it |
| Python.Find | backend/services/ai_service.py:121 | the first occurrence, or -1 |
| Python.RFind | backend/services/ai_service.py:122 | the last occurrence, or -1 |
| Python.Prefix | backend/services/ai_service.py:146 | `s[:n]`: the first min(n, len) characters |
| Python.Slice | backend/services/ai_service.py:125 | `s[i:j]`: the slice when i < j, else empty |
| Python.Lower | backend/main.py:51 | same length, each character lower-cased |
| Python.TakeWord | backend/services/file_processor.py:139 | the leading run of non-whitespace, stopped only by whitespace or the end |
| Python.SplitWhitespace | backend/services/file_processor.py:139 | `str.split()`: every word is non-empty and holds no whitespace |
| Python.JoinWithSpace | backend/services/file_processor.py:139 | `' '.join` of such words is single-spaced, and empty iff there are no words |
| Python.SplitOfJoin | backend/services/file_processor.py:139 | splitting words joined by spaces gives them back |
| Python.ReplaceAll | backend/services/file_processor.py:142-143 | `str.replace`: a replacement no longer than the pattern never lengthens the text, one of equal length keeps its length |
| Python.ReplaceAbsent | backend/services/file_processor.py:143 | a pattern that cannot start anywhere changes nothing |
| Python.Without | backend/services/file_processor.py:142 | every occurrence of the character is gone and every other character keeps its count; text without it is unchanged |
| Python.ReplaceDeletes | backend/services/file_processor.py:142 | replacing a character by nothing is exactly `Without` |
| Scenarios.AcceptedFilesAreRouted | medical-report-reader/src/hooks/useMedicalAnalysis.ts:22-25 | every file the uploader accepts has an endpoint |
| Scenarios.GifRefusedOnlyByUploader | medical-report-reader/src/hooks/useMedicalAnalysis.ts:24-25 | image/gif is routed to the image call and passes the backend's type check, but the uploader refuses it |
| Scenarios.Submit | medical-report-reader/src/pages/Index.tsx:21-34 | with the calls as written: a refused or gated file makes no call; an accepted one is routed; no response or a non-ok status leaves the canned result, a truthy ok body is shown, a falsy one or an ok body that is not JSON leaves no analysis |
| Scenarios.ChestXrayScenario | medical-report-reader/src/lib/api.ts:63 | a PNG answered with a record leaves that exact record on the page |
| Scenarios.NotesTxtScenario | medical-report-reader/src/components/FileUpload.tsx:53-56 | a text file is refused with the type alert and no call |
| Scenarios.UnreachablePdfScenario | medical-report-reader/src/lib/api.ts:86-89 | an unreachable backend gives the PDF canned result, score 85 |
| Scenarios.OversizedScanScenario | medical-report-reader/src/components/FileUpload.tsx:58-61 | a 12 MiB JPEG is refused as too large, with no call |
| Scenarios.ServerErrorScenario | medical-report-reader/src/lib/api.ts:58-66 | a 500 from the image route shows as a successful canned analysis |
| Scenarios.UnreachableHealthScenario | medical-report-reader/src/pages/Index.tsx:68-94 | a failing health check shows "Backend Disconnected" and the uploader sends nothing |
| Scenarios.ResetScenario | medical-report-reader/src/pages/Index.tsx:36-39 | reset after a result brings the upload section back with no file held |

## Left out

- Network I/O is an input: `fetch`, `FormData`, `response.json()`, FastAPI routing, CORS and `UploadFile.read`.
- The language model is an input: its two calls, the chat-to-direct fallback inside `_generate_analysis`, and `_extract_text_from_image`. The prompt templates are fixed strings and are not modelled.
- `process_image` and the PIL image opening are not modelled: the image route takes the processed content, or its error text, as an input.
- The PyPDF2 reader is an input: it gives the page texts or its error.
- `json.loads` is the parameter `loads` on every window but the empty one, which the model always rejects (`AiService.JsonLoads`). Decoding into values other than dicts is not modelled, because every non-empty window begins with `{` and `loads` is only asked about those. Key order of a JSON object is not modelled, since dicts are maps.
- AiService.ExtractedTerms: an exception raised after the reply arrived, outside decoding, is not modelled; only a failed call counts as an exception.
- Polling, retries and timers of the health query (30 s interval, 3 retries, 1 s apart) are not modelled. The health query's `data` and `error` are inputs.
- The mutation library's `isPending` and `error` are inputs.
- Async interleaving is not modelled, for example a response arriving after a reset. The page has no stale-response guard.
- JSX markup, CSS classes, toasts, `alert` and `console` output are left out. Only the alert texts and the class strings that carry a decision are kept.
- Clearing the file input's value in `removeFile` is a DOM side effect and is left out.
- The root route `/` returns fixed API information and is not modelled.
- Python.Lower: lower-cases ASCII letters only. Non-ASCII case mapping is not modelled; every extension compared is ASCII.
- BackendMain.ErrorText: pydantic's validation message is shortened to "validation error for AnalysisResponse"; the error count and the per-field list are not modelled.
- BackendMain.BuildResponse: pydantic's lax coercions are not modelled. Only a JSON string is a `str`, only a number is a `float`, and a bool is not taken as a number.
- A Starlette `HTTPException` is taken to print as "<status>: <detail>".
- JavaScript's number-to-string conversion is not modelled: a decoded number carries the text `String()` gives it.
- Confidence scores are reals; JavaScript and Python floating point are not modelled, since the scores are only compared and multiplied by 100.

The `catch` in `analyzeImage` and `analyzePdf` (api.ts:64-66) is meant to turn every failure into the canned result. The code breaks that for an ok response whose body is not JSON; see Findings. The model follows the code: `Scenarios.Submit` composes the calls as written. `MedicalAnalysisHook.RoutedFileAlwaysFulfilsWhenAwaited` covers the corrected calls, and `Api.AwaitedAgreesElsewhere` proves that they agree with the written calls on every other outcome.

## Findings

| source | as written | input that shows it | evidently intended | confidence | as-written member | corrected member |
|---|---|---|---|---|---|---|
| medical-report-reader/src/lib/api.ts:63 | `return response.json()` is not awaited inside the `try`, so a body that is not JSON rejects after the `catch` has been left; the hook then relabels the SyntaxError as ApiError(400, "Unsupported file type") and the page clears the analysis | an ok (200) response to `/analyze/image` or `/analyze/pdf` whose body is not JSON | every failure of an analysis call falls back to the canned result | high (not executed) | Api.MalformedOkBodyEscapesFallback | Api.AnalyzeImageAwaited, Api.AnalyzePdfAwaited |
| medical-report-reader/src/lib/api.ts:100 | the same unawaited `response.json()` in `healthCheck` rejects with a SyntaxError instead of the status-0 error | an ok (200) response to `/health` whose body is not JSON | every failure of the health check surfaces as ApiError(0, "Backend server is not available") | high (not executed) | Api.MalformedHealthBodyIsNotBackendUnavailable | Api.HealthCheckAwaited |
