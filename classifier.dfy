/**
 * The decision logic of `analyzeInquiry` and the template of
 * `generateCustomerResponse` in src/services/analysisService.ts: the argmax
 * over the score vector, the confidence, the low-score override, the three
 * analysis sentences, the follow-up question and the reply to a manually
 * entered inquiry.
 */
module Classifier {
  import opened Types
  import opened JsStrings
  import opened Products
  import opened Scoring

  /** The highest score below which an inquiry is unclear (1.5, in tenths). */
  const UnclearThreshold := 15

  // The sentences and questions of the decision logic.
  const ConfidentPrefix := "Die Anfrage deutet auf Bedarf an "
  const ConfidentMiddle := " hin. Die Kundenanforderungen passen zu unserer "
  const ConfidentSuffix := " Lösung."
  const TentativePrefix := "Die Anfrage könnte auf Bedarf an "
  const TentativeSuffix := "-Lösungen hinweisen, aber weitere Klärung ist empfehlenswert."
  const GenericAnalysis := "Die Anfrage ist nicht eindeutig einem bestimmten Produktbereich zuzuordnen. Eine allgemeine Beratung wird empfohlen."
  const GenericQuestion := "Könnten Sie näher erläutern, welche spezifischen Kommunikationsherausforderungen Sie aktuell in Ihrem Unternehmen bewältigen möchten?"
  const VoicebotQuestion := "Wie viele Anrufe erhalten Sie täglich und welche Art von Anfragen kommen am häufigsten vor?"
  const ChatbotQuestion := "Welche spezifischen Funktionen erwarten Sie von einem Chatbot und in welche Systeme soll er integriert werden?"
  const LivechatQuestion := "Wie groß ist Ihr Support-Team und wie möchten Sie den Live-Chat in Ihre bestehenden Prozesse integrieren?"
  const SpeechToTextQuestion := "Welche Art von Analysen möchten Sie mit den transkribierten Gesprächen durchführen?"
  const GeneralAiQuestion := "Welche Kommunikationskanäle sind für Ihr Unternehmen am wichtigsten?"
  const DefaultQuestion := "Können Sie näher erläutern, welche spezifischen Herausforderungen Sie mit einer KI-Lösung angehen möchten?"

  /** The outcome of the decision logic for one score vector. */
  datatype Verdict = Verdict(category: Category, confidence: real, analysis: string, followUp: Option<string>)

  /**
   * The strict `>` scan over the first `n` entries of the scores, starting
   * from `unclear` with highest score 0: the result is a maximum of those
   * entries (or 0), held by the EARLIEST category that reaches it, and it
   * stays `unclear` exactly when no entry is positive.
   */
  function Leader(scores: seq<int>, n: nat): (r: (Category, int))
    requires n <= |scores| && n <= |Scored|
    ensures r.1 >= 0
    ensures forall k :: 0 <= k < n ==> scores[k] <= r.1
    ensures r.0 == Unclear <==> r.1 == 0
    ensures r.0 != Unclear ==>
      Pos(r.0) < n && scores[Pos(r.0)] == r.1 && forall k :: 0 <= k < Pos(r.0) ==> scores[k] < r.1
  {
    if n == 0 then (Unclear, 0)
    else
      var previous := Leader(scores, n - 1);
      if scores[n - 1] > previous.1 then (Scored[n - 1], scores[n - 1]) else previous
  }

  /** `Object.values(scores).reduce((a, b) => a + b, 0)`. */
  function Total(scores: seq<int>): int
  {
    if scores == [] then 0 else Total(scores[..|scores| - 1]) + scores[|scores| - 1]
  }

  /** `Math.min`. */
  function Min(a: real, b: real): (m: real)
    ensures m <= a && m <= b && (m == a || m == b)
  {
    if a <= b then a else b
  }

  /**
   * The confidence before the low-score override, for the highest score `h`
   * and the total `total` (both in tenths): 0.3, or 0.4 plus 0.3 times a fifth
   * of the highest score plus 0.3 times its share of the total, at most 0.95.
   */
  function Confidence(h: int, total: int): real
  {
    if h > 0 && total > 0 then
      Min(0.4 + (h as real / 10.0) / 5.0 * 0.3 + (h as real / total as real) * 0.3, 0.95)
    else 0.3
  }

  /** The category and confidence after the argmax, the confidence formula and the low-score override. */
  function Settle(scores: seq<int>): (Category, real)
    requires |scores| == |Scored|
  {
    var (best, h) := Leader(scores, |Scored|);
    var confidence := Confidence(h, Total(scores));
    if h < UnclearThreshold then (Unclear, Min(confidence, 0.4)) else (best, confidence)
  }

  /** The product name in a template literal: `product.name`, or "undefined" without a product. */
  function ProductName(c: Category): string
  {
    match FindProduct(c)
    case Some(p) => p.name
    case None => "undefined"
  }

  /** The product description in a template literal, "undefined" without a product. */
  function ProductDescription(c: Category): string
  {
    match FindProduct(c)
    case Some(p) => p.description
    case None => "undefined"
  }

  /**
   * The three analysis branches: the category they leave behind (the third
   * one forces `unclear`) and the analysis sentence.
   */
  function Analyse(c: Category, confidence: real): (Category, string)
  {
    if c != Unclear && confidence > 0.6 then
      (c, match FindProduct(c)
          case Some(p) => ConfidentPrefix + p.name + (ConfidentMiddle + Key(c) + ConfidentSuffix)
          case None => "")
    else if c != Unclear && confidence > 0.4 then
      (c, TentativePrefix + Key(c) + TentativeSuffix)
    else
      (Unclear, GenericAnalysis)
  }

  /** The category-specific follow-up question of the `switch`, with its `default`. */
  function Canned(c: Category): string
  {
    match c
    case Voicebot => VoicebotQuestion
    case Chatbot => ChatbotQuestion
    case Livechat => LivechatQuestion
    case SpeechToText => SpeechToTextQuestion
    case GeneralAi => GeneralAiQuestion
    case Unclear => DefaultQuestion
  }

  /**
   * The follow-up question: the generic one for `unclear` or a confidence
   * below 0.7, the category's own below 0.9, none from 0.9 on.
   */
  function FollowUp(c: Category, confidence: real): (q: Option<string>)
    ensures q.None? <==> c != Unclear && confidence >= 0.9
    ensures q == Some(GenericQuestion) <== c == Unclear || confidence < 0.7
    ensures c != Unclear && 0.7 <= confidence < 0.9 ==> q == Some(Canned(c)) && q != Some(DefaultQuestion)
  {
    if c == Unclear || confidence < 0.7 then Some(GenericQuestion)
    else if confidence < 0.9 then Some(Canned(c))
    else None
  }

  /** The whole decision for one score vector. */
  function Policy(scores: seq<int>): Verdict
    requires |scores| == |Scored|
  {
    var (best, confidence) := Settle(scores);
    var (category, analysis) := Analyse(best, confidence);
    Verdict(category, confidence, analysis, FollowUp(category, confidence))
  }

  /**
   * The decision logic as the source runs it: the scan over the scores, the
   * confidence, the override and the branches, reassigning its variables;
   * it yields exactly `Policy`.
   */
  method Decide(scores: seq<int>) returns (v: Verdict)
    requires |scores| == |Scored|
    ensures v == Policy(scores)
  {
    var best, highest := ScanScores(scores);
    var confidence := Confident(scores, highest);
    if highest < UnclearThreshold {
      best := Unclear;
      confidence := Min(confidence, 0.4);
    }
    var analysis;
    best, analysis := Branches(best, confidence);
    var followUp := Ask(best, confidence);
    v := Verdict(best, confidence, analysis, followUp);
  }

  /** The confidence formula as statements: 0.3 unless the highest score and the total are positive. */
  method Confident(scores: seq<int>, highest: int) returns (confidence: real)
    ensures confidence == Confidence(highest, Total(scores))
  {
    confidence := 0.3;
    if highest > 0 {
      var total := Total(scores);
      if total > 0 {
        confidence := Min(0.4 + (highest as real / 10.0) / 5.0 * 0.3 + (highest as real / total as real) * 0.3, 0.95);
      }
    }
  }

  /** The choice of the follow-up question, as statements. */
  method Ask(c: Category, confidence: real) returns (followUp: Option<string>)
    ensures followUp == FollowUp(c, confidence)
  {
    followUp := None;
    if c == Unclear || confidence < 0.7 {
      followUp := Some(GenericQuestion);
    } else if confidence < 0.9 {
      followUp := Some(Canned(c));
    }
  }

  /** The scan for the highest score: a category replaces the leader only with a strictly higher score. */
  method ScanScores(scores: seq<int>) returns (best: Category, highest: int)
    requires |scores| == |Scored|
    ensures (best, highest) == Leader(scores, |Scored|)
  {
    best := Unclear;
    highest := 0;
    for k := 0 to |Scored|
      invariant (best, highest) == Leader(scores, k)
    {
      if scores[k] > highest {
        highest := scores[k];
        best := Scored[k];
      }
    }
  }

  /** The three analysis branches, as statements: the category they leave and the sentence. */
  method Branches(c: Category, confidence: real) returns (best: Category, analysis: string)
    ensures (best, analysis) == Analyse(c, confidence)
  {
    best := c;
    analysis := "";
    if c != Unclear && confidence > 0.6 {
      var product := FindProduct(c);
      if product.Some? {
        analysis := ConfidentPrefix + product.value.name + (ConfidentMiddle + Key(c) + ConfidentSuffix);
      }
    } else if c != Unclear && confidence > 0.4 {
      analysis := TentativePrefix + Key(c) + TentativeSuffix;
    } else {
      analysis := GenericAnalysis;
      best := Unclear;
    }
  }

  /** An optional string in a template literal: its text, or "undefined". */
  function Render(q: Option<string>): string
  {
    match q
    case Some(s) => s
    case None => "undefined"
  }

  /** A JavaScript truthiness test on an optional string: present and not empty. */
  predicate Truthy(q: Option<string>)
  {
    q.Some? && q.value != ""
  }

  const UnclearOpening := "Vielen Dank für Ihre Anfrage. Um Ihnen besser helfen zu können, hätten wir noch eine Frage: "
  const UnclearClosing := " Mit diesen Informationen können wir Ihnen eine maßgeschneiderte Lösung anbieten."
  const TentativeOpening := "Vielen Dank für Ihr Interesse an unseren KI-Lösungen. Basierend auf Ihrer Anfrage könnte "
  const TentativeClosing := " für Sie interessant sein. "
  const TentativeQuestionLead := "Um sicherzustellen, dass wir Ihre Anforderungen optimal verstehen: "
  const ConfidentOpening := "Vielen Dank für Ihre Anfrage. Basierend auf Ihren Anforderungen empfehlen wir Ihnen "
  const ConfidentQuestionLead := "\n\nZur weiteren Optimierung unseres Angebots: "

  /** `generateCustomerResponse`: the reply text for a verdict. */
  function CustomerResponse(v: Verdict): string
  {
    if v.category == Unclear then
      UnclearOpening + Render(v.followUp) + UnclearClosing
    else if v.confidence < 0.6 then
      TentativeOpening + ProductName(v.category) + TentativeClosing
      + (if Truthy(v.followUp) then TentativeQuestionLead + v.followUp.value else "")
    else
      ConfidentOpening + ProductName(v.category) + ". " + ProductDescription(v.category) + " "
      + (if Truthy(v.followUp) then ConfidentQuestionLead + v.followUp.value else "")
  }

  /** The prefix of the ids of manually entered inquiries. */
  const ManualPrefix := "manual-"

  /**
   * The result `analyzeInquiry` resolves with, for an inquiry and the
   * boosters whose expressions match its lower-cased text.
   */
  function Classify(inquiry: Inquiry, hits: set<Booster>): AnalysisResult
  {
    var v := Policy(ScoreVector(ToLower(inquiry.text), hits));
    AnalysisResult(inquiry, v.category, v.confidence, v.followUp, v.analysis,
      if StartsWith(inquiry.id, ManualPrefix) then Some(CustomerResponse(v)) else None)
  }

  /**
   * A result carries its inquiry unchanged and has a reply exactly when the
   * inquiry's id starts with "manual-"; its verdict is that of the inquiry's
   * scores, so every property of `Policy` holds of it.
   */
  lemma ClassifyShape(inquiry: Inquiry, hits: set<Booster>)
    ensures var r := Classify(inquiry, hits);
      && r.inquiry == inquiry
      && (r.customerResponse.Some? <==> StartsWith(inquiry.id, ManualPrefix))
      && IsScoreVector(ScoreVector(ToLower(inquiry.text), hits))
      && Verdict(r.recommended, r.confidence, r.analysis, r.followUpQuestion)
         == Policy(ScoreVector(ToLower(inquiry.text), hits))
  {
    ScorerVectors(ToLower(inquiry.text), hits);
  }

  /**
   * `analyzeInquiry` without its timer: lower-cases the text, scores it,
   * decides, and adds a reply when the id marks a manual entry.
   */
  method AnalyzeInquiry(inquiry: Inquiry, hits: set<Booster>) returns (r: AnalysisResult)
    ensures r == Classify(inquiry, hits)
  {
    var text := ToLower(inquiry.text);
    var scores := AnalyzeContext(text, hits);
    ToLowerIdempotent(inquiry.text);
    var v := Decide(scores);
    r := AnalysisResult(inquiry, v.category, v.confidence, v.followUp, v.analysis, None);
    if StartsWith(inquiry.id, ManualPrefix) {
      r := r.(customerResponse := Some(CustomerResponse(v)));
    }
  }

  // ---------------------------------------------------------------------
  // Properties of the decision
  // ---------------------------------------------------------------------

  /** The scores are a vector the scorer can produce: one non-negative entry per category. */
  predicate IsScoreVector(scores: seq<int>)
  {
    |scores| == |Scored| && forall k :: 0 <= k < |scores| ==> scores[k] >= 0
  }

  /** Every vector of the scorer is such a vector. */
  lemma ScorerVectors(text: string, hits: set<Booster>)
    ensures IsScoreVector(ScoreVector(text, hits))
  {
    forall k | 0 <= k < |Scored| ensures ScoreVector(text, hits)[k] >= 0 {
      ScoreBounds(text, hits, Scored[k]);
    }
  }

  /** A total of non-negative entries is at least each entry and at most the count times a bound. */
  lemma {:induction false} TotalBounds(scores: seq<int>, h: int)
    requires forall k :: 0 <= k < |scores| ==> 0 <= scores[k] <= h
    ensures forall k :: 0 <= k < |scores| ==> scores[k] <= Total(scores)
    ensures 0 <= Total(scores) <= |scores| * h
  {
    if scores != [] {
      var front := scores[..|scores| - 1];
      TotalBounds(front, h);
      assert forall k :: 0 <= k < |front| ==> front[k] == scores[k];
    }
  }

  /** A share of at least a fifth. */
  lemma ShareAtLeastFifth(h: real, t: real)
    requires 0.0 < t <= 5.0 * h
    ensures h / t >= 0.2
  {
    assert h == (h / t) * t;
  }

  /** A positive share. */
  lemma SharePositive(h: real, t: real)
    requires 0.0 < h && 0.0 < t
    ensures h / t > 0.0
  {
  }

  /**
   * The share of the highest score in the confidence formula: with a
   * positive highest score the total is positive, and the highest score
   * holds between a fifth and all of it.
   */
  lemma LeaderShare(scores: seq<int>)
    requires IsScoreVector(scores) && Leader(scores, |Scored|).1 > 0
    ensures Total(scores) > 0
    ensures 0.2 <= (Leader(scores, |Scored|).1 as real) / (Total(scores) as real) <= 1.0
  {
    var (best, h) := Leader(scores, |Scored|);
    TotalBounds(scores, h);
    assert scores[Pos(best)] == h;
    ShareBetween(h as real, Total(scores) as real);
  }

  /** A part between a fifth and all of a positive whole. */
  lemma ShareBetween(h: real, t: real)
    requires 0.0 < h <= t <= 5.0 * h
    ensures 0.2 <= h / t <= 1.0
  {
    ShareAtLeastFifth(h, t);
    assert h == (h / t) * t;
  }

  /**
   * The confidence always lies between 0.3 and 0.95, and it is exactly 0.3
   * when, and only when, every score is 0.
   */
  lemma ConfidenceBounds(scores: seq<int>)
    requires IsScoreVector(scores)
    ensures 0.3 <= Policy(scores).confidence <= 0.95
    ensures Policy(scores).confidence == 0.3 <==> forall k :: 0 <= k < |scores| ==> scores[k] == 0
  {
    var (best, h) := Leader(scores, |Scored|);
    TotalBounds(scores, h);
    if h > 0 {
      SharePositive(h as real, Total(scores) as real);
    }
  }

  /** When every score is 0 the inquiry is unclear, with the base confidence and the generic analysis and question. */
  lemma AllZeroIsBase(scores: seq<int>)
    requires |scores| == |Scored| && forall k :: 0 <= k < |scores| ==> scores[k] == 0
    ensures Policy(scores) == Verdict(Unclear, 0.3, GenericAnalysis, Some(GenericQuestion))
  {
    var (best, h) := Leader(scores, |Scored|);
    assert h == 0;
  }

  /**
   * An inquiry is unclear exactly when every score is below 1.5. A real
   * category always has confidence at least 0.55 (a highest score of at
   * least 1.5 holding at least a fifth of the total), so the third analysis
   * branch never overrides it and its analysis names it.
   */
  lemma UnclearIffLowScores(scores: seq<int>)
    requires IsScoreVector(scores)
    ensures Policy(scores).category == Unclear <==> forall k :: 0 <= k < |scores| ==> scores[k] < UnclearThreshold
    ensures Policy(scores).category != Unclear ==> Policy(scores).confidence >= 0.55
    ensures Policy(scores).category == Unclear ==>
      Policy(scores).confidence <= 0.4 && Policy(scores).analysis == GenericAnalysis
  {
    var (best, h) := Leader(scores, |Scored|);
    var total := Total(scores);
    TotalBounds(scores, h);
    if h >= UnclearThreshold {
      assert total <= 5 * h;
      ShareAtLeastFifth(h as real, total as real);
      assert (h as real / 10.0) / 5.0 * 0.3 >= 0.09;
      assert Settle(scores) == (best, Confidence(h, total));
      assert Confidence(h, total) >= 0.55;
    }
  }

  /**
   * A recommended category holds the highest score, and every category
   * before it in the scan order scores strictly less: ties go to the earliest.
   */
  lemma RecommendationIsEarliestMaximum(scores: seq<int>)
    requires IsScoreVector(scores)
    requires Policy(scores).category != Unclear
    ensures forall k :: 0 <= k < |scores| ==> scores[k] <= scores[Pos(Policy(scores).category)]
    ensures forall k :: 0 <= k < Pos(Policy(scores).category) ==> scores[k] < scores[Pos(Policy(scores).category)]
  {
    var (best, h) := Leader(scores, |Scored|);
    UnclearIffLowScores(scores);
    assert Policy(scores).category == best;
  }

  /**
   * The follow-up question of a decision: none exactly for a real category
   * with confidence of at least 0.9, the category's own question from 0.7,
   * the generic question otherwise; the `default` question is never asked.
   */
  lemma FollowUpOfPolicy(scores: seq<int>)
    requires IsScoreVector(scores)
    ensures var v := Policy(scores);
      && (v.followUp.None? <==> v.category != Unclear && v.confidence >= 0.9)
      && (v.category != Unclear && 0.7 <= v.confidence < 0.9 ==> v.followUp == Some(Canned(v.category)))
      && (v.category == Unclear || v.confidence < 0.7 ==> v.followUp == Some(GenericQuestion))
      && v.followUp != Some(DefaultQuestion)
  {
  }

  /**
   * The analysis of a confident recommendation names its product, and the
   * analysis is never empty: the product lookup cannot fail.
   */
  lemma AnalysisNamesProduct(scores: seq<int>)
    requires IsScoreVector(scores)
    ensures Policy(scores).analysis != ""
    ensures Policy(scores).category != Unclear && Policy(scores).confidence > 0.6 ==>
      Contains(Policy(scores).analysis, ProductName(Policy(scores).category))
  {
    var (best, confidence) := Settle(scores);
    assert Policy(scores).analysis == Analyse(best, confidence).1;
    assert Policy(scores).category == Analyse(best, confidence).0;
    AnalyseNamesProduct(best, confidence);
  }

  /** The three analysis branches never leave the sentence empty, and the first one names the product. */
  lemma AnalyseNamesProduct(c: Category, confidence: real)
    ensures Analyse(c, confidence).1 != ""
    ensures Analyse(c, confidence).0 != Unclear && confidence > 0.6 ==>
      Contains(Analyse(c, confidence).1, ProductName(c))
  {
    if c != Unclear && confidence > 0.6 {
      var p := FindProduct(c).value;
      assert ProductName(c) == p.name;
      ContainsSelf(ConfidentPrefix, p.name, ConfidentMiddle + Key(c) + ConfidentSuffix);
    }
  }

  /**
   * The middle analysis branch and the tentative reply are reachable: a
   * highest score of exactly 1.5 against four equal rivals behind it gives
   * confidence 0.55.
   */
  lemma TentativeExample()
    ensures Policy([15, 15, 15, 15, 15]) ==
      Verdict(Voicebot, 0.55, TentativePrefix + "voicebot" + TentativeSuffix, Some(GenericQuestion))
  {
    var scores := [15, 15, 15, 15, 15];
    assert Leader(scores, 5) == (Voicebot, 15);
    assert scores[..4] == [15, 15, 15, 15] && scores[..4][..3] == [15, 15, 15];
    assert [15, 15, 15][..2] == [15, 15] && [15, 15][..1] == [15] && [15][..0] == [];
    assert Total([15, 15]) == 30;
    assert Total(scores) == 75;
  }

  /**
   * The reply to a manual inquiry asks the follow-up question when the
   * inquiry is unclear, and otherwise names the recommended product.
   */
  lemma ResponseContent(scores: seq<int>)
    requires IsScoreVector(scores)
    ensures var v := Policy(scores);
      && (v.category == Unclear ==> Contains(CustomerResponse(v), GenericQuestion))
      && (v.category != Unclear ==> Contains(CustomerResponse(v), FindProduct(v.category).value.name))
  {
    var v := Policy(scores);
    if v.category == Unclear {
      UnclearReplyAsks(v);
    } else {
      ProductReplyNames(v);
    }
  }

  /** An unclear verdict's reply carries its question. */
  lemma UnclearReplyAsks(v: Verdict)
    requires v.category == Unclear && v.followUp == Some(GenericQuestion)
    ensures Contains(CustomerResponse(v), GenericQuestion)
  {
    ContainsSelf(UnclearOpening, GenericQuestion, UnclearClosing);
  }

  /** The reply to a real category names its product. */
  lemma ProductReplyNames(v: Verdict)
    requires v.category != Unclear
    ensures Contains(CustomerResponse(v), FindProduct(v.category).value.name)
  {
    var name := ProductName(v.category);
    if v.confidence < 0.6 {
      ContainsSelf(TentativeOpening, name, TentativeClosing);
      ContainsExtend(TentativeOpening + name + TentativeClosing,
        if Truthy(v.followUp) then TentativeQuestionLead + v.followUp.value else "", name);
    } else {
      ContainsSelf(ConfidentOpening, name, ". ");
      ContainsExtend(ConfidentOpening + name + ". ", ProductDescription(v.category), name);
      ContainsExtend(ConfidentOpening + name + ". " + ProductDescription(v.category), " ", name);
      ContainsExtend(ConfidentOpening + name + ". " + ProductDescription(v.category) + " ",
        if Truthy(v.followUp) then ConfidentQuestionLead + v.followUp.value else "", name);
    }
  }
}
