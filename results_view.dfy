/**
 * The logic of src/components/AnalysisResults.tsx: the per-category tally
 * kept in the component's state, the summary it shows for more than one
 * result, the icon of a result and the colour of its confidence bar.
 */
module ResultsView {
  import opened Types
  import opened JsStrings
  import opened Scoring
  import opened Classifier

  /** The number of results recommending a category. */
  function Count(results: seq<AnalysisResult>, c: Category): (n: nat)
    ensures n <= |results|
  {
    if results == [] then 0
    else Count(results[..|results| - 1], c) + (if results[|results| - 1].recommended == c then 1 else 0)
  }

  /** `categories[c] || 0`: the count of a category, 0 when it has none yet. */
  function Lookup(counts: map<Category, int>, c: Category): int
  {
    if c in counts then counts[c] else 0
  }

  /**
   * The tally: every category starts at 0 and each result adds one to its
   * category, so every category is present and holds its count.
   */
  method Tally(results: seq<AnalysisResult>) returns (counts: map<Category, int>)
    ensures forall c :: c in counts && counts[c] == Count(results, c)
  {
    counts := map[Voicebot := 0, Chatbot := 0, Livechat := 0, SpeechToText := 0, GeneralAi := 0, Unclear := 0];
    assert results[..0] == [];
    forall c ensures c in counts && counts[c] == 0 {
      assert c == AllCategories[Pos(c)];
    }
    for i := 0 to |results|
      invariant forall c :: c in counts && counts[c] == Count(results[..i], c)
    {
      assert results[..i + 1][..i] == results[..i];
      var c := results[i].recommended;
      counts := counts[c := Lookup(counts, c) + 1];
    }
    assert results[..|results|] == results;
  }

  /** The counts of the six categories add up to the number of results. */
  lemma {:induction false} CountsAddUp(results: seq<AnalysisResult>)
    ensures Count(results, Voicebot) + Count(results, Chatbot) + Count(results, Livechat)
      + Count(results, SpeechToText) + Count(results, GeneralAi) + Count(results, Unclear) == |results|
  {
    if results != [] {
      CountsAddUp(results[..|results| - 1]);
    }
  }

  /** The component's state: the tally of the last non-empty result list. */
  class ResultsPanel {
    var resultsByCategory: map<Category, int>

    /** The tally starts out empty. */
    constructor()
      ensures resultsByCategory == map[]
    {
      resultsByCategory := map[];
    }

    /**
     * The effect that runs when the results change: a non-empty list replaces
     * the tally with its own; an empty list leaves the old tally in place.
     */
    method OnResultsChanged(results: seq<AnalysisResult>)
      modifies this
      ensures results == [] ==> resultsByCategory == old(resultsByCategory)
      ensures results != [] ==> forall c :: c in resultsByCategory && resultsByCategory[c] == Count(results, c)
    {
      if |results| > 0 {
        var counts := Tally(results);
        resultsByCategory := counts;
      }
    }
  }

  /** The rows of the listed categories whose count is present and not 0, in the order listed. */
  function Present(cs: seq<Category>, tally: map<Category, int>): (rows: seq<(Category, int)>)
    ensures |rows| <= |cs|
  {
    if cs == [] then []
    else
      var c := cs[|cs| - 1];
      Present(cs[..|cs| - 1], tally) + (if c in tally && tally[c] != 0 then [(c, tally[c])] else [])
  }

  /** The summary: shown only for more than one result, one row per category with a non-zero count. */
  function SummaryRows(results: seq<AnalysisResult>, tally: map<Category, int>): seq<(Category, int)>
  {
    if |results| > 1 then Present(AllCategories, tally) else []
  }

  /** The sum of the counts in a list of rows. */
  function RowTotal(rows: seq<(Category, int)>): int
  {
    if rows == [] then 0 else RowTotal(rows[..|rows| - 1]) + rows[|rows| - 1].1
  }

  lemma RowTotalAppend(a: seq<(Category, int)>, b: seq<(Category, int)>)
    ensures RowTotal(a + b) == RowTotal(a) + RowTotal(b)
    decreases |b|
  {
    if b != [] {
      assert (a + b)[..|a + b| - 1] == a + b[..|b| - 1];
      RowTotalAppend(a, b[..|b| - 1]);
    } else {
      assert a + b == a;
    }
  }

  /**
   * With the tally of a list of results, the summary of more than one result
   * lists exactly the categories that some result recommends, each with its
   * count, in the order voicebot, chatbot, livechat, speech-to-text,
   * general-ai, unclear, and the counts add up to the number of results.
   */
  lemma SummaryOfTally(results: seq<AnalysisResult>, tally: map<Category, int>)
    requires forall c :: c in tally && tally[c] == Count(results, c)
    requires |results| > 1
    ensures forall row :: row in SummaryRows(results, tally) ==> row.1 == Count(results, row.0) > 0
    ensures forall c :: Count(results, c) > 0 ==> (c, Count(results, c)) in SummaryRows(results, tally)
    ensures forall i, j :: 0 <= i < j < |SummaryRows(results, tally)| ==>
      Pos(SummaryRows(results, tally)[i].0) < Pos(SummaryRows(results, tally)[j].0)
    ensures RowTotal(SummaryRows(results, tally)) == |results|
  {
    SummaryListsCounts(results, tally);
    PresentTotal(tally, results);
    CountsAddUp(results);
  }

  /** With the tally of the results, the rows of all six categories are exactly the non-zero counts, in key order. */
  lemma SummaryListsCounts(results: seq<AnalysisResult>, tally: map<Category, int>)
    requires forall c :: c in tally && tally[c] == Count(results, c)
    ensures forall row :: row in Present(AllCategories, tally) ==> row.1 == Count(results, row.0) > 0
    ensures forall c :: Count(results, c) > 0 ==> (c, Count(results, c)) in Present(AllCategories, tally)
    ensures forall i, j :: 0 <= i < j < |Present(AllCategories, tally)| ==>
      Pos(Present(AllCategories, tally)[i].0) < Pos(Present(AllCategories, tally)[j].0)
  {
    KeyOrder();
    PresentRows(AllCategories, tally);
    forall c | Count(results, c) > 0 ensures (c, Count(results, c)) in Present(AllCategories, tally) {
      assert AllCategories[Pos(c)] == c;
    }
  }

  /** The categories are listed in increasing position. */
  lemma KeyOrder()
    ensures forall i, j :: 0 <= i < j < |AllCategories| ==> Pos(AllCategories[i]) < Pos(AllCategories[j])
  {
    forall i | 0 <= i < |AllCategories| ensures Pos(AllCategories[i]) == i {
      var c := AllCategories[i];
      assert AllCategories[Pos(c)] == c;
    }
  }

  /**
   * The rows of a list of categories: those with a non-zero entry, each with
   * that entry, and in increasing position when the list is.
   */
  lemma {:induction false} PresentRows(cs: seq<Category>, tally: map<Category, int>)
    ensures forall row :: row in Present(cs, tally) ==> row.0 in cs && row.0 in tally && row.1 == tally[row.0] != 0
    ensures forall k :: 0 <= k < |cs| && cs[k] in tally && tally[cs[k]] != 0 ==> (cs[k], tally[cs[k]]) in Present(cs, tally)
    ensures (forall i, j :: 0 <= i < j < |cs| ==> Pos(cs[i]) < Pos(cs[j])) ==>
      forall i, j :: 0 <= i < j < |Present(cs, tally)| ==> Pos(Present(cs, tally)[i].0) < Pos(Present(cs, tally)[j].0)
  {
    if cs != [] {
      var front := cs[..|cs| - 1];
      PresentRows(front, tally);
      forall k | 0 <= k < |front| ensures front[k] == cs[k] { }
    }
  }

  /** The rows of all six categories add up to the six counts. */
  lemma PresentTotal(tally: map<Category, int>, results: seq<AnalysisResult>)
    requires forall c :: c in tally && tally[c] == Count(results, c)
    ensures RowTotal(Present(AllCategories, tally)) == Count(results, Voicebot) + Count(results, Chatbot)
      + Count(results, Livechat) + Count(results, SpeechToText) + Count(results, GeneralAi) + Count(results, Unclear)
  {
    PresentSix(tally);
  }

  /** The rows of all six categories add up to the six entries of a complete tally. */
  lemma PresentSix(tally: map<Category, int>)
    requires forall c :: c in tally
    ensures RowTotal(Present(AllCategories, tally)) == tally[Voicebot] + tally[Chatbot] + tally[Livechat]
      + tally[SpeechToText] + tally[GeneralAi] + tally[Unclear]
  {
    var s1 := [Voicebot];
    var s2 := s1 + [Chatbot];
    var s3 := s2 + [Livechat];
    var s4 := s3 + [SpeechToText];
    var s5 := s4 + [GeneralAi];
    var s6 := s5 + [Unclear];
    PresentSnoc([], Voicebot, tally);
    PresentSnoc(s1, Chatbot, tally);
    PresentSnoc(s2, Livechat, tally);
    PresentSnoc(s3, SpeechToText, tally);
    PresentSnoc(s4, GeneralAi, tally);
    PresentSnoc(s5, Unclear, tally);
    assert s6 == AllCategories;
  }

  /** One more category adds its entry to the total of the rows. */
  lemma PresentSnoc(cs: seq<Category>, c: Category, tally: map<Category, int>)
    requires c in tally
    ensures RowTotal(Present(cs + [c], tally)) == RowTotal(Present(cs, tally)) + tally[c]
  {
    assert (cs + [c])[..|cs|] == cs;
    var row := if tally[c] != 0 then [(c, tally[c])] else [];
    RowTotalAppend(Present(cs, tally), row);
  }

  /** The icon of a result. */
  datatype Icon = HelpIcon | CheckIcon | AlertIcon

  /** `getIconForResult`: help for unclear, a check above 0.7 confidence, an alert otherwise. */
  function IconFor(r: AnalysisResult): Icon
  {
    if r.recommended == Unclear then HelpIcon
    else if r.confidence > 0.7 then CheckIcon
    else AlertIcon
  }

  /** The colour of the confidence bar. */
  datatype BarColour = Green | Amber | Red

  /** Green above 0.7, amber above 0.5, red otherwise. */
  function ColourFor(confidence: real): BarColour
  {
    if confidence > 0.7 then Green
    else if confidence > 0.5 then Amber
    else Red
  }

  /**
   * How a classified inquiry is shown: an unclear one with the help icon and
   * a red bar; a recommendation never with a red bar, with the check icon
   * exactly when its bar is green; and a result without follow-up question
   * always with the check icon.
   */
  lemma ShownClassification(inquiry: Inquiry, hits: set<Booster>)
    ensures var r := Classify(inquiry, hits);
      && (r.recommended == Unclear ==> IconFor(r) == HelpIcon && ColourFor(r.confidence) == Red)
      && (r.recommended != Unclear ==> ColourFor(r.confidence) != Red)
      && (r.recommended != Unclear ==> (IconFor(r) == CheckIcon <==> ColourFor(r.confidence) == Green))
      && (r.followUpQuestion.None? ==> IconFor(r) == CheckIcon)
  {
    var scores := ScoreVector(ToLower(inquiry.text), hits);
    ClassifyShape(inquiry, hits);
    UnclearIffLowScores(scores);
    FollowUpOfPolicy(scores);
  }
}
