/**
 * components/AnalysisResults.tsx: the list of expanded terms that the view
 * toggles, and the bucketing of the confidence score it displays.
 */
module AnalysisResults {
  import opened Wrappers
  import opened Api

  /** `list.filter((t) => t !== term)`. */
  function RemoveAll(list: seq<string>, term: string): (r: seq<string>)
    ensures term !in r
    ensures forall u :: u != term ==> (u in r <==> u in list)
  {
    if list == [] then []
    else (if list[0] == term then [] else [list[0]]) + RemoveAll(list[1..], term)
  }

  /** The new list `toggleTerm(term)` sets: every occurrence removed if present, else appended. */
  function Toggled(list: seq<string>, term: string): (r: seq<string>)
    ensures term in r <==> term !in list
    ensures forall u :: u != term ==> (u in r <==> u in list)
  {
    if term in list then RemoveAll(list, term) else list + [term]
  }

  /** No term occurs twice. */
  predicate DuplicateFree(list: seq<string>) {
    forall i, j :: 0 <= i < j < |list| ==> list[i] != list[j]
  }

  /** Removing what is not there changes nothing. */
  lemma {:induction false} RemoveAbsent(list: seq<string>, term: string)
    requires term !in list
    ensures RemoveAll(list, term) == list
  {
    if list != [] {
      RemoveAbsent(list[1..], term);
    }
  }

  /** Removal distributes over concatenation. */
  lemma {:induction false} RemoveAppend(a: seq<string>, b: seq<string>, term: string)
    ensures RemoveAll(a + b, term) == RemoveAll(a, term) + RemoveAll(b, term)
  {
    if a == [] {
      assert a + b == b;
    } else {
      assert (a + b)[1..] == a[1..] + b;
      RemoveAppend(a[1..], b, term);
    }
  }

  /** Removal keeps a duplicate-free list duplicate-free. */
  lemma {:induction false} RemoveKeepsDuplicateFree(list: seq<string>, term: string)
    requires DuplicateFree(list)
    ensures DuplicateFree(RemoveAll(list, term))
  {
    if list != [] {
      RemoveKeepsDuplicateFree(list[1..], term);
      var rest := RemoveAll(list[1..], term);
      assert list[0] !in list[1..] by {
        forall i | 0 <= i < |list[1..]| ensures list[1..][i] != list[0] {
          assert list[1..][i] == list[i + 1];
        }
      }
      assert list[0] !in rest;
    }
  }


  /** The other terms keep their relative order: with the toggled term removed, the lists agree. */
  lemma {:induction false} ToggleKeepsOthersInOrder(list: seq<string>, term: string)
    ensures RemoveAll(Toggled(list, term), term) == RemoveAll(list, term)
  {
    if term in list {
      RemoveAbsent(RemoveAll(list, term), term);
    } else {
      RemoveAppend(list, [term], term);
      assert RemoveAll([term], term) == [];
    }
  }

  /** Toggling a term that is not expanded, then toggling it again, restores the list. */
  lemma {:induction false} ToggleTwiceRestores(list: seq<string>, term: string)
    requires term !in list
    ensures Toggled(Toggled(list, term), term) == list
  {
    RemoveAppend(list, [term], term);
    assert RemoveAll([term], term) == [];
    RemoveAbsent(list, term);
  }

  /** Toggling an expanded term twice moves it to the end. */
  lemma {:induction false} ToggleTwiceMovesToEnd(list: seq<string>, term: string)
    requires term in list
    ensures Toggled(Toggled(list, term), term) == RemoveAll(list, term) + [term]
  {
  }

  /** A duplicate-free list stays duplicate-free. */
  lemma {:induction false} ToggleKeepsDuplicateFree(list: seq<string>, term: string)
    requires DuplicateFree(list)
    ensures DuplicateFree(Toggled(list, term))
  {
    if term in list {
      RemoveKeepsDuplicateFree(list, term);
    } else {
      var r := list + [term];
      forall i, j | 0 <= i < j < |r| ensures r[i] != r[j] {
        if j == |list| {
          assert r[i] == list[i];
        }
      }
    }
  }

  /** The view's state cell. */
  class ResultsView {
    const analysis: MedicalAnalysis
    var expandedTerms: seq<string>

    constructor (analysis: MedicalAnalysis)
      ensures this.analysis == analysis && expandedTerms == []
    {
      this.analysis := analysis;
      expandedTerms := [];
    }

    /** `toggleTerm`. */
    method ToggleTerm(term: string)
      modifies this`expandedTerms
      ensures expandedTerms == Toggled(old(expandedTerms), term)
      ensures term in expandedTerms <==> term !in old(expandedTerms)
      ensures DuplicateFree(old(expandedTerms)) ==> DuplicateFree(expandedTerms)
    {
      if DuplicateFree(expandedTerms) {
        ToggleKeepsDuplicateFree(expandedTerms, term);
      }
      expandedTerms := if term in expandedTerms then RemoveAll(expandedTerms, term) else expandedTerms + [term];
    }

    /** The explanation of `term` is rendered iff the term is expanded. */
    function ExplanationShown(term: string): (shown: Option<string>)
      reads this
      ensures shown.Some? <==> term in analysis.complexTerms && term in expandedTerms
      ensures shown.Some? ==> shown.value == analysis.complexTerms[term]
    {
      if term in analysis.complexTerms && term in expandedTerms then Some(analysis.complexTerms[term]) else None
    }
  }

  // ---------------------------------------------------------------------------
  // Confidence

  datatype Level = High | Medium | Low

  /** The value displayed and bucketed: the score times 100. */
  function DisplayedConfidence(analysis: MedicalAnalysis): (shown: real)
    ensures 0.0 <= analysis.confidenceScore <= 1.0 ==> 0.0 <= shown <= 100.0
    ensures LevelOf(shown) == High <==> analysis.confidenceScore >= 0.8
    ensures LevelOf(shown) == Low <==> analysis.confidenceScore < 0.6
  {
    analysis.confidenceScore * 100.0
  }

  /** The three buckets, on the scaled value. */
  function LevelOf(confidence: real): (l: Level)
    ensures l == High <==> confidence >= 80.0
    ensures l == Medium <==> 60.0 <= confidence < 80.0
    ensures l == Low <==> confidence < 60.0
  {
    if confidence >= 80.0 then High else if confidence >= 60.0 then Medium else Low
  }

  const HighColor := "text-green-600 bg-green-100"
  const MediumColor := "text-yellow-600 bg-yellow-100"
  const LowColor := "text-red-600 bg-red-100"

  /** `getConfidenceColor`: one colour per bucket. */
  function ConfidenceColor(confidence: real): (color: string)
    ensures color == HighColor <==> LevelOf(confidence) == High
    ensures color == MediumColor <==> LevelOf(confidence) == Medium
    ensures color == LowColor <==> LevelOf(confidence) == Low
  {
    if confidence >= 80.0 then HighColor
    else if confidence >= 60.0 then MediumColor
    else LowColor
  }

  /** `getConfidenceText`: one label per bucket. */
  function ConfidenceText(confidence: real): (text: string)
    ensures text == "High Confidence" <==> LevelOf(confidence) == High
    ensures text == "Medium Confidence" <==> LevelOf(confidence) == Medium
    ensures text == "Low Confidence" <==> LevelOf(confidence) == Low
  {
    if confidence >= 80.0 then "High Confidence"
    else if confidence >= 60.0 then "Medium Confidence"
    else "Low Confidence"
  }

  /** Colour and text always name the same bucket: two scores share a colour iff they share a label. */
  lemma ColorAndTextAgree(a: real, b: real)
    ensures ConfidenceColor(a) == ConfidenceColor(b) <==> LevelOf(a) == LevelOf(b)
    ensures ConfidenceText(a) == ConfidenceText(b) <==> LevelOf(a) == LevelOf(b)
  {
  }

  /**
   * The canned result's score, 85, is already on a 0-100 scale: it is displayed
   * as 8500 and bucketed High, outside the 0-100 range of any score in [0, 1].
   */
  lemma MockConfidenceOffScale(fileType: string)
    ensures !(0.0 <= GetMockAnalysis(fileType).confidenceScore <= 1.0)
    ensures DisplayedConfidence(GetMockAnalysis(fileType)) == 8500.0
    ensures LevelOf(DisplayedConfidence(GetMockAnalysis(fileType))) == High
  {
  }
}
