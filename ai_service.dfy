/**
 * backend/services/ai_service.py: turning the language model's replies into the
 * analysis record. The model calls are not modelled: each reply is an input,
 * either the reply text or the text of the exception the call raised.
 * `json.loads` is `JsonLoads`: the empty text never decodes, and any other text
 * goes to the parameter `loads`, an arbitrary partial parse (`None` is a
 * `JSONDecodeError`). `loads` yields a dict because every non-empty window
 * starts with `{`.
 */
module AiService {
  import opened Wrappers
  import opened Python

  const RequiredFields: seq<string> :=
    ["summary", "key_findings", "lifestyle_recommendations", "precautions", "confidence_score"]

  /** The required field names as a set. */
  const RequiredSet: set<string> := set f | f in RequiredFields

  /** The default texts. */
  const NoSummary := "Analysis completed but summary not available"
  const NoFindings := "Analysis completed but findings not available"
  const ConsultProfessional := "Please consult with a healthcare professional"

  /** The `defaults` table of `_get_default_value`. */
  const Defaults: Dict := map[
    "summary" := PyStr(NoSummary),
    "key_findings" := PyList([PyStr(NoFindings)]),
    "lifestyle_recommendations" := PyList([PyStr(ConsultProfessional)]),
    "precautions" := PyList([PyStr(InformationalOnly)]),
    "confidence_score" := PyNum(0.5)]

  /** `_get_default_value`: `defaults.get(field, "")`. */
  function DefaultValue(field: string): (v: PyValue)
    ensures field !in RequiredSet ==> v == PyStr("")
    ensures field in RequiredSet ==> v != PyStr("")
    ensures field == "confidence_score" ==> v == PyNum(0.5)
  {
    if field in Defaults then Defaults[field] else PyStr("")
  }

  /** The start of the fallback summary. */
  const FallbackLead := "Analysis completed. Raw response: "

  /** `_create_fallback_response`: the five fields, the summary quoting at most 200 characters. */
  function FallbackResponse(response: string): (d: Dict)
    ensures d.Keys == RequiredSet
    ensures d["summary"] == PyStr(FallbackLead + Prefix(response, 200) + "...")
    ensures d["confidence_score"] == PyNum(0.5)
  {
    FallbackRest["summary" := PyStr(FallbackLead + Prefix(response, 200) + "...")]
  }

  /** The fallback's texts. */
  const UnexpectedFormat := "Analysis completed but response format was unexpected"
  const ConsultAdvice := "Please consult with a healthcare professional for personalized advice"
  const InformationalOnly := "This analysis is for informational purposes only"

  /** The fallback's fields other than the summary, which do not depend on the reply. */
  const FallbackRest: Dict := map[
    "key_findings" := PyList([PyStr(UnexpectedFormat)]),
    "lifestyle_recommendations" := PyList([PyStr(ConsultAdvice)]),
    "precautions" := PyList([PyStr(InformationalOnly)]),
    "confidence_score" := PyNum(0.5)]

  /**
   * The text handed to `json.loads`: from the first `{` through the last `}`
   * (empty when the last `}` comes before the first `{`); `None` when either
   * brace is missing.
   */
  function JsonWindow(s: string): (w: Option<string>)
    ensures w.None? <==> '{' !in s || '}' !in s
    ensures w.Some? ==> w.value == Slice(s, Find(s, '{'), RFind(s, '}') + 1)
    ensures w.Some? && w.value != [] ==> w.value[0] == '{' && w.value[|w.value| - 1] == '}'
    ensures w.Some? ==> (w.value == [] <==> RFind(s, '}') < Find(s, '{'))
  {
    var startIdx := Find(s, '{');
    var endIdx := RFind(s, '}') + 1;
    if startIdx != -1 && endIdx != 0 then Some(Slice(s, startIdx, endIdx)) else None
  }

  /**
   * `json.loads(text)`. The empty text, the window of a reply whose last `}`
   * comes before its first `{`, is always a `JSONDecodeError`.
   */
  function JsonLoads(loads: string -> Option<Dict>, text: string): (parsed: Option<Dict>)
    ensures text == [] ==> parsed == None
    ensures text != [] ==> parsed == loads(text)
  {
    if text == [] then None else loads(text)
  }

  /** The record after the loop has visited `fields`: each one missing gets its default. */
  function FilledFrom(d: Dict, fields: seq<string>): Dict
    decreases |fields|
  {
    if fields == [] then d
    else FilledFrom(if fields[0] in d then d else d[fields[0] := DefaultValue(fields[0])], fields[1..])
  }

  /** Visiting `fields` adds exactly the missing ones, with their defaults, and touches nothing else. */
  lemma {:induction false} FilledFromFacts(d: Dict, fields: seq<string>)
    ensures FilledFrom(d, fields).Keys == d.Keys + set f | f in fields
    ensures forall f :: f in d ==> FilledFrom(d, fields)[f] == d[f]
    ensures forall f :: f in FilledFrom(d, fields) && f !in d ==> FilledFrom(d, fields)[f] == DefaultValue(f)
    decreases |fields|
  {
    if fields != [] {
      var next := if fields[0] in d then d else d[fields[0] := DefaultValue(fields[0])];
      FilledFromFacts(next, fields[1..]);
      assert fields == [fields[0]] + fields[1..];
    }
  }

  /** The record with every missing required field set to its default, the others untouched. */
  function WithDefaults(d: Dict): (r: Dict)
    ensures r.Keys == d.Keys + RequiredSet
    ensures forall f :: f in d ==> r[f] == d[f]
    ensures forall f :: f in r && f !in d ==> r[f] == DefaultValue(f)
  {
    FilledFromFacts(d, RequiredFields);
    FilledFrom(d, RequiredFields)
  }

  /** The `for field in required_fields` loop of `_parse_analysis_response`. */
  method FillDefaults(d: Dict) returns (analysis: Dict)
    ensures analysis == WithDefaults(d)
  {
    analysis := d;
    var k := 0;
    while k < |RequiredFields|
      invariant 0 <= k <= |RequiredFields|
      invariant FilledFrom(analysis, RequiredFields[k..]) == FilledFrom(d, RequiredFields)
    {
      var field := RequiredFields[k];
      if field !in analysis {
        analysis := analysis[field := DefaultValue(field)];
      }
      k := k + 1;
    }
  }

  /**
   * The record the loop of `_parse_analysis_response` completes: the decoded
   * window, or the fallback when there is no window; `None` on a decode error.
   */
  function Candidate(stripped: string, loads: string -> Option<Dict>): (c: Option<Dict>)
    ensures JsonWindow(stripped).None? ==> c == Some(FallbackResponse(stripped))
    ensures JsonWindow(stripped).Some? ==> c == JsonLoads(loads, JsonWindow(stripped).value)
  {
    match JsonWindow(stripped)
    case None => Some(FallbackResponse(stripped))
    case Some(window) => JsonLoads(loads, window)
  }

  /** What `_parse_analysis_response` returns. */
  function ParsedAnalysis(response: string, loads: string -> Option<Dict>): Dict {
    Completed(Candidate(Strip(response), loads), Strip(response))
  }

  /** The candidate record completed with defaults, or the fallback for `stripped` when there is none. */
  function Completed(candidate: Option<Dict>, stripped: string): Dict {
    match candidate
    case None => FallbackResponse(stripped)
    case Some(d) => WithDefaults(d)
  }

  /** `_parse_analysis_response`. */
  method ParseAnalysisResponse(response: string, loads: string -> Option<Dict>) returns (analysis: Dict)
    ensures analysis == ParsedAnalysis(response, loads)
  {
    var stripped := Strip(response);
    var candidate := Candidate(stripped, loads);
    assert ParsedAnalysis(response, loads) == Completed(candidate, stripped);
    if candidate.None? {
      return FallbackResponse(stripped);
    }
    analysis := FillDefaults(candidate.value);
  }

  /** Whatever the reply, the parsed record holds every required field. */
  lemma ParsedHasRequiredFields(response: string, loads: string -> Option<Dict>)
    ensures RequiredSet <= ParsedAnalysis(response, loads).Keys
  {
  }

  /** Filling defaults into the fallback record changes nothing. */
  lemma FallbackIsComplete(response: string)
    ensures WithDefaults(FallbackResponse(response)) == FallbackResponse(response)
  {
  }

  /** Without both braces, or when the window does not decode, the result is the fallback for the stripped reply. */
  lemma ParsedFallbackCases(response: string, loads: string -> Option<Dict>)
    requires var w := JsonWindow(Strip(response)); w.None? || JsonLoads(loads, w.value).None?
    ensures ParsedAnalysis(response, loads) == FallbackResponse(Strip(response))
  {
    FallbackIsComplete(Strip(response));
  }

  /** A reply whose last `}` comes before its first `{` gets the fallback, whatever `loads` does. */
  lemma ReversedBracesFallback(response: string, loads: string -> Option<Dict>)
    requires var s := Strip(response); '{' in s && '}' in s && RFind(s, '}') < Find(s, '{')
    ensures ParsedAnalysis(response, loads) == FallbackResponse(Strip(response))
  {
    var s := Strip(response);
    assert JsonWindow(s) == Some([]);
    ParsedFallbackCases(response, loads);
  }

  /** A reply whose last `}` comes before its first `{` yields no terms. */
  lemma ReversedBracesNoTerms(reply: string, loads: string -> Option<Dict>)
    requires '{' in reply && '}' in reply && RFind(reply, '}') < Find(reply, '{')
    ensures ExtractedTerms(Ok(reply), loads) == map[]
  {
    assert JsonWindow(reply) == Some([]);
  }

  /** A decoded record keeps every field it had; only the missing required ones are added, with their defaults. */
  lemma ParsedKeepsDecodedFields(response: string, loads: string -> Option<Dict>)
    requires var w := JsonWindow(Strip(response)); w.Some? && JsonLoads(loads, w.value).Some?
    ensures var d := JsonLoads(loads, JsonWindow(Strip(response)).value).value;
      && ParsedAnalysis(response, loads).Keys == d.Keys + RequiredSet
      && (forall f :: f in d ==> ParsedAnalysis(response, loads)[f] == d[f])
      && (forall f :: f in RequiredSet && f !in d ==> ParsedAnalysis(response, loads)[f] == DefaultValue(f))
  {
  }

  /** The fallback's summary is the lead, the first min(200, n) characters of the stripped reply, and "...". */
  lemma FallbackSummaryLength(response: string)
    ensures var s := FallbackResponse(Strip(response))["summary"].s;
      |s| == |FallbackLead| + (if |Strip(response)| <= 200 then |Strip(response)| else 200) + 3
  {
  }

  /** `_extract_and_explain_terms`, given the model's reply (the reply is not stripped here). */
  function ExtractedTerms(reply: Result<string, string>, loads: string -> Option<Dict>): (terms: Dict)
    ensures reply.Err? ==> terms == map[]
    ensures reply.Ok? && JsonWindow(reply.value).None? ==> terms == map[]
    ensures reply.Ok? && JsonWindow(reply.value).Some? ==>
      terms == (var parsed := JsonLoads(loads, JsonWindow(reply.value).value); if parsed.Some? then parsed.value else map[])
  {
    match reply
    case Err(_) => map[]
    case Ok(response) =>
      match JsonWindow(response)
      case None => map[]
      case Some(window) =>
        match JsonLoads(loads, window)
        case None => map[]
        case Some(terms) => terms
  }

  /** What `analyze_medical_report` returns or raises. */
  function Report(analysisReply: Result<string, string>, termsReply: Result<string, string>,
                  loads: string -> Option<Dict>): (r: Result<Dict, string>)
    ensures r.Err? <==> analysisReply.Err?
    ensures analysisReply.Err? ==> r.error == "AI analysis failed: " + analysisReply.error
    ensures r.Ok? ==> "complex_terms" in r.value && r.value["complex_terms"] == PyDict(ExtractedTerms(termsReply, loads))
  {
    match analysisReply
    case Err(e) => Err("AI analysis failed: " + e)
    case Ok(response) =>
      Ok(ParsedAnalysis(response, loads)["complex_terms" := PyDict(ExtractedTerms(termsReply, loads))])
  }

  /**
   * `analyze_medical_report`, given the two replies of the model (the analysis
   * prompt's and the terms prompt's).
   */
  method AnalyzeMedicalReport(analysisReply: Result<string, string>, termsReply: Result<string, string>,
                              loads: string -> Option<Dict>) returns (r: Result<Dict, string>)
    ensures r == Report(analysisReply, termsReply, loads)
    ensures r.Err? <==> analysisReply.Err?
    ensures r.Ok? ==> RequiredSet + {"complex_terms"} <= r.value.Keys
  {
    if analysisReply.Err? {
      return Err("AI analysis failed: " + analysisReply.error);
    }
    var analysis := ParseAnalysisResponse(analysisReply.value, loads);
    var complexTerms := ExtractedTerms(termsReply, loads);
    analysis := analysis["complex_terms" := PyDict(complexTerms)];
    r := Ok(analysis);
  }

  /** The final `complex_terms` comes from term extraction, whatever the analysis reply held under that key. */
  lemma ComplexTermsOverwritten(response: string, termsReply: Result<string, string>,
                                loads: string -> Option<Dict>)
    ensures var r := Report(Ok(response), termsReply, loads);
      && r.Ok?
      && r.value["complex_terms"] == PyDict(ExtractedTerms(termsReply, loads))
      && (forall f :: f in RequiredSet ==> f in r.value && r.value[f] == ParsedAnalysis(response, loads)[f])
  {
    var parsed := ParsedAnalysis(response, loads);
    ParsedHasRequiredFields(response, loads);
    RequiredSurviveTerms(parsed, PyDict(ExtractedTerms(termsReply, loads)));
    assert Report(Ok(response), termsReply, loads) == Ok(parsed["complex_terms" := PyDict(ExtractedTerms(termsReply, loads))]);
  }

  /** Setting `complex_terms` leaves the required fields of a complete record as they were. */
  lemma RequiredSurviveTerms(analysis: Dict, terms: PyValue)
    requires RequiredSet <= analysis.Keys
    ensures forall f :: f in RequiredSet ==> f in analysis["complex_terms" := terms] && analysis["complex_terms" := terms][f] == analysis[f]
  {
    assert "complex_terms" !in RequiredSet;
  }
}
