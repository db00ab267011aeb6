/**
 * `analyzeBatchInquiries` of src/services/analysisService.ts: the inquiries
 * are analysed one after the other and their results collected in order.
 */
module Batch {
  import opened Types
  import opened JsStrings
  import opened Scoring
  import opened Classifier

  /**
   * The batch driver. `boostersOf` tells which boosters match a lower-cased
   * text. The results line up with the inquiries, one classification each,
   * with a reply exactly for the manual ones (`BatchAlignment`).
   */
  method AnalyzeBatch(inquiries: seq<Inquiry>, boostersOf: string -> set<Booster>)
    returns (results: seq<AnalysisResult>)
    ensures results == ClassifyAll(inquiries, boostersOf)
  {
    results := [];
    for i := 0 to |inquiries|
      invariant results == ClassifyAll(inquiries[..i], boostersOf)
    {
      results := AnalyzeNext(inquiries, boostersOf, i, results);
    }
    assert inquiries[..|inquiries|] == inquiries;
  }

  /** One turn of the loop: analyse inquiry i and append its result. */
  method AnalyzeNext(inquiries: seq<Inquiry>, boostersOf: string -> set<Booster>, i: nat, results: seq<AnalysisResult>)
    returns (next: seq<AnalysisResult>)
    requires i < |inquiries|
    requires results == ClassifyAll(inquiries[..i], boostersOf)
    ensures next == ClassifyAll(inquiries[..i + 1], boostersOf)
  {
    var result := AnalyzeInquiry(inquiries[i], boostersOf(ToLower(inquiries[i].text)));
    ClassifyAllStep(inquiries, boostersOf, i);
    next := results + [result];
  }

  /** A function applied to every element of a list, in order. */
  function Map<T, U>(xs: seq<T>, f: T -> U): (ys: seq<U>)
    ensures |ys| == |xs| && forall k :: 0 <= k < |xs| ==> ys[k] == f(xs[k])
  {
    seq(|xs|, k requires 0 <= k < |xs| => f(xs[k]))
  }

  /** Mapping one more element of a list appends its image. */
  lemma MapStep<T, U>(xs: seq<T>, f: T -> U, i: nat)
    requires i < |xs|
    ensures Map(xs[..i + 1], f) == Map(xs[..i], f) + [f(xs[i])]
  {
    var ys := xs[..i + 1];
    assert forall k :: 0 <= k < i ==> ys[k] == xs[..i][k];
  }

  /** The classification of an inquiry, given the boosters of each lower-cased text. */
  function Analyser(boostersOf: string -> set<Booster>): Inquiry -> AnalysisResult
  {
    (q: Inquiry) => Classify(q, boostersOf(ToLower(q.text)))
  }

  /** Every inquiry of a list classified, in order. */
  function ClassifyAll(inquiries: seq<Inquiry>, boostersOf: string -> set<Booster>): seq<AnalysisResult>
  {
    Map(inquiries, Analyser(boostersOf))
  }

  /** Classifying one more inquiry of a list appends its classification. */
  lemma ClassifyAllStep(inquiries: seq<Inquiry>, boostersOf: string -> set<Booster>, i: nat)
    requires i < |inquiries|
    ensures ClassifyAll(inquiries[..i + 1], boostersOf)
      == ClassifyAll(inquiries[..i], boostersOf) + [Classify(inquiries[i], boostersOf(ToLower(inquiries[i].text)))]
  {
    MapStep(inquiries, Analyser(boostersOf), i);
  }

  /**
   * A successful batch has one result per inquiry, in order: result i holds
   * inquiry i and has a reply exactly when that inquiry's id starts with
   * "manual-".
   */
  lemma BatchAlignment(inquiries: seq<Inquiry>, boostersOf: string -> set<Booster>)
    ensures |ClassifyAll(inquiries, boostersOf)| == |inquiries|
    ensures forall i :: 0 <= i < |inquiries| ==>
      && ClassifyAll(inquiries, boostersOf)[i].inquiry == inquiries[i]
      && (ClassifyAll(inquiries, boostersOf)[i].customerResponse.Some? <==> StartsWith(inquiries[i].id, ManualPrefix))
  {
    forall i | 0 <= i < |inquiries|
      ensures ClassifyAll(inquiries, boostersOf)[i].inquiry == inquiries[i]
      ensures ClassifyAll(inquiries, boostersOf)[i].customerResponse.Some? <==> StartsWith(inquiries[i].id, ManualPrefix)
    {
      ClassifyShape(inquiries[i], boostersOf(ToLower(inquiries[i].text)));
    }
  }
}
