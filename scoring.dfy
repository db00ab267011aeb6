/**
 * The rule table `CATEGORY_MAPPINGS` and the context scorer `analyzeContext`
 * of src/services/analysisService.ts.
 *
 * Scores are kept in integer tenths: a trigger pattern weighs 20 (2.0), a
 * business-need phrase 15 (1.5), the five context boosters 10, 8, 10, 10 and
 * 10. A score vector is a `seq<int>` of length 5 whose entry k belongs to
 * `Scored[k]`.
 */
module Scoring {
  import opened Types
  import opened JsStrings

  const PatternWeight := 20
  const NeedWeight := 15

  // The phrase lists of the rule table, already lower case (so the source's
  // `toLowerCase` on each phrase leaves it as it is).
  const VoicebotPatterns: seq<string> := [
    "anrufe", "telefonanrufe", "call center", "callcenter", "telefonisch",
    "anrufbeantworter", "sprachassistent", "voicebot", "spracherkennung",
    "anruf", "telefonie", "telefonieren", "stimme", "automatisch beantworten",
    "anrufvolumen", "telefonservice", "ivr", "interactive voice response"]
  const VoicebotNeeds: seq<string> := [
    "anrufvolumen", "viele anrufe", "24/7", "call-center", "kundenservice telefon",
    "telefonische anfragen", "telefonische beratung", "automatisierte anrufannahme",
    "anrufe außerhalb der geschäftszeiten", "telefonische bestellungen",
    "telefonhotline", "sprachgesteuertes menü", "kundenanrufe", "warteschlange",
    "automatisierte anrufweiterleitung", "sprachgesteuerte selbstbedienung"]
  const ChatbotPatterns: seq<string> := [
    "chatbot", "chat-bot", "automatische antworten", "automatisierte chats",
    "chat automation", "bot für website", "website bot", "textbot",
    "chat-assistent", "automatische textantworten", "webseiten-bot",
    "messengern", "messaging", "nachrichtenbot"]
  const ChatbotNeeds: seq<string> := [
    "website support", "faq beantwortung", "automatische antworten", "digitaler assistent",
    "textnachrichten automatisieren", "website interaktion", "online kundenservice",
    "häufige fragen", "selbstbedienung online", "kundenanfragen auf der website",
    "digitale kundenbetreuung", "automatisches messaging", "schnelle reaktionszeiten",
    "beratung auf der website", "online-hilfe", "rund um die uhr verfügbar"]
  const LivechatPatterns: seq<string> := [
    "live chat", "livechat", "live-chat", "chat mit mitarbeitern", "echten mitarbeitern",
    "echtzeit-chat", "echtzeit chat", "menschlicher chat", "chat support",
    "support chat", "chat-support", "berater im chat", "chat-berater",
    "chat-beratung", "live beratung", "live-beratung", "sofortige unterstützung", "sofortige hilfe"]
  const LivechatNeeds: seq<string> := [
    "persönliche beratung", "echte mitarbeiter", "direkte kommunikation", "sofortige hilfe",
    "menschliche interaktion", "personalisierter service", "beratungsgespräche",
    "vertriebsgespräche online", "komplexe anfragen", "individuelle fälle",
    "verkaufsgespräche", "kundenbeziehungen", "direkter kundenkontakt",
    "professionelle beratung", "höherwertiger support", "online-verkauf"]
  const SpeechToTextPatterns: seq<string> := [
    "transkribieren", "transkription", "speech-to-text", "speech to text",
    "spracherkennung", "gesprächstranskription", "gespräche aufzeichnen",
    "aufgezeichnete gespräche", "aufzeichnung", "anrufanalyse", "call recording",
    "mitschnitt", "mitschrift", "gesprächsmitschrift", "protokoll", "gesprächsprotokoll"]
  const SpeechToTextNeeds: seq<string> := [
    "dokumentation", "protokollierung", "qualitätssicherung", "schulungsmaterial",
    "barrierefreiheit", "compliance", "aufzeichnungspflicht", "gerichtsverwertbarkeit",
    "besprechungsprotokolle", "analyse von kundengesprächen", "auswertung",
    "nachverfolgung", "beweissicherung", "nacharbeit", "rechtliche anforderungen",
    "zugänglichkeit", "gesprächsanalyse", "mehrsprachige kommunikation"]
  const GeneralAiPatterns: seq<string> := [
    "ki-lösung", "ki lösung", "künstliche intelligenz", "ai solution", "ai-lösung",
    "ai lösung", "umfassende lösung", "komplettlösung", "gesamtlösung", "alles-in-einem",
    "alles in einem", "plattform", "suite", "mehrere kanäle", "omnichannel", "alle kanäle"]
  const GeneralAiNeeds: seq<string> := [
    "digitale transformation", "prozessoptimierung", "mehrere kommunikationskanäle",
    "ganzheitliche lösung", "durchgängige kundenerfahrung", "omnichannel",
    "prozessautomatisierung", "effizienzsteigerung", "kostenreduktion",
    "wettbewerbsvorteil", "innovativ", "zukunftssicher", "skalierbar",
    "unternehmensweite lösung", "strategische neuausrichtung", "moderne kommunikation",
    "end-to-end", "datenanalyse", "kundenerfahrung verbessern"]

  /** The trigger patterns of a category (none for `Unclear`). */
  function Patterns(c: Category): seq<string>
  {
    match c
    case Voicebot => VoicebotPatterns
    case Chatbot => ChatbotPatterns
    case Livechat => LivechatPatterns
    case SpeechToText => SpeechToTextPatterns
    case GeneralAi => GeneralAiPatterns
    case Unclear => []
  }

  /** The business-need phrases of a category (none for `Unclear`). */
  function Needs(c: Category): seq<string>
  {
    match c
    case Voicebot => VoicebotNeeds
    case Chatbot => ChatbotNeeds
    case Livechat => LivechatNeeds
    case SpeechToText => SpeechToTextNeeds
    case GeneralAi => GeneralAiNeeds
    case Unclear => []
  }

  /**
   * The five context boosters, each a word-boundary regular expression over the
   * lower-cased text:
   * CallVolumeCue: "hohes/hohe/hoh anrufvolumen", "viele/viel anrufe", "24/7", "rund um die uhr";
   * OnlineCue: "website", "online", "digital", "faq", "häufige/häufig fragen";
   * PersonalCue: "persönlich", "individuell", "komplex", "echtzeit", "sofort", "berater", "beraten", "beratung";
   * RecordCue: "dokumentation", "protokoll", "aufzeichnung", "aufzeichnen", "transkrib…",
   *   "mitschnitt", "geschäftlich", "rechtlich", "analyse";
   * ChannelCue: "mehrere kanäle", "omnichannel", "verschiedene wege", "transformation",
   *   "ganzheitlich", "komplett", "all", "alles", "integriert".
   * Which of them match a text is an input of the model.
   */
  datatype Booster = CallVolumeCue | OnlineCue | PersonalCue | RecordCue | ChannelCue

  /** The booster that adds to a category, and what it adds in tenths. */
  function BoosterOf(c: Category): Option<(Booster, nat)>
  {
    match c
    case Voicebot => Some((CallVolumeCue, 10))
    case Chatbot => Some((OnlineCue, 8))
    case Livechat => Some((PersonalCue, 10))
    case SpeechToText => Some((RecordCue, 10))
    case GeneralAi => Some((ChannelCue, 10))
    case Unclear => None
  }

  /** What the matching boosters add to a category: at most one bonus, never repeated. */
  function Boost(hits: set<Booster>, c: Category): (n: nat)
    ensures n <= 10
    ensures n > 0 <==> BoosterOf(c).Some? && BoosterOf(c).value.0 in hits
  {
    match BoosterOf(c)
    case Some((b, bonus)) => if b in hits then bonus else 0
    case None => 0
  }

  /** How many entries of a phrase list occur in the text (an entry counts once however often it occurs). */
  function Matches(text: string, phrases: seq<string>): (n: nat)
    ensures n <= |phrases|
  {
    if phrases == [] then 0
    else Matches(text, phrases[..|phrases| - 1]) + (if Contains(text, phrases[|phrases| - 1]) then 1 else 0)
  }

  /** The part of a category's score that comes from the phrase lists. */
  function PhraseScore(text: string, c: Category): int
  {
    PatternWeight * Matches(text, Patterns(c)) + NeedWeight * Matches(text, Needs(c))
  }

  /** The score of a category for a lower-cased text and the boosters that match it. */
  function Score(text: string, hits: set<Booster>, c: Category): int
  {
    PhraseScore(text, c) + Boost(hits, c)
  }

  /** The scores record, in the order of `Scored`. */
  function ScoreVector(text: string, hits: set<Booster>): (v: seq<int>)
    ensures |v| == |Scored|
    ensures forall k :: 0 <= k < |Scored| ==> v[k] == Score(text, hits, Scored[k])
  {
    seq(|Scored|, k requires 0 <= k < |Scored| => Score(text, hits, Scored[k]))
  }

  /**
   * One inner loop of `analyzeContext`: adds `weight` to entry `k` of the
   * score vector for every entry of the list that occurs in the text.
   */
  method AddPhraseWeights(lower: string, phrases: seq<string>, weight: int, scores: seq<int>, k: nat)
    returns (updated: seq<int>)
    requires k < |scores|
    ensures updated == scores[k := scores[k] + weight * Matches(lower, phrases)]
  {
    updated := scores;
    for i := 0 to |phrases|
      invariant updated == scores[k := scores[k] + weight * Matches(lower, phrases[..i])]
    {
      assert phrases[..i + 1][..i] == phrases[..i];
      if Contains(lower, phrases[i]) {
        updated := updated[k := updated[k] + weight];
      }
    }
    assert phrases[..|phrases|] == phrases;
  }

  /**
   * `analyzeContext`: lower-cases the text, adds the phrase weights category by
   * category and then the booster bonuses.
   */
  method AnalyzeContext(text: string, hits: set<Booster>) returns (scores: seq<int>)
    ensures scores == ScoreVector(ToLower(text), hits)
  {
    var lower := ToLower(text);
    scores := [0, 0, 0, 0, 0];
    for k := 0 to |Scored|
      invariant |scores| == |Scored|
      invariant forall j :: 0 <= j < k ==> scores[j] == PhraseScore(lower, Scored[j])
      invariant forall j :: k <= j < |Scored| ==> scores[j] == 0
    {
      var c := Scored[k];
      scores := AddPhraseWeights(lower, Patterns(c), PatternWeight, scores, k);
      scores := AddPhraseWeights(lower, Needs(c), NeedWeight, scores, k);
    }
    scores := ApplyBoosters(scores, hits);
  }

  /** The booster step of `analyzeContext`: each matching booster adds its bonus to its category. */
  method ApplyBoosters(scores: seq<int>, hits: set<Booster>) returns (boosted: seq<int>)
    requires |scores| == |Scored|
    ensures |boosted| == |Scored|
    ensures forall k :: 0 <= k < |Scored| ==> boosted[k] == scores[k] + Boost(hits, Scored[k])
  {
    boosted := scores;
    if CallVolumeCue in hits { boosted := boosted[0 := boosted[0] + 10]; }
    if OnlineCue in hits { boosted := boosted[1 := boosted[1] + 8]; }
    if PersonalCue in hits { boosted := boosted[2 := boosted[2] + 10]; }
    if RecordCue in hits { boosted := boosted[3 := boosted[3] + 10]; }
    if ChannelCue in hits { boosted := boosted[4 := boosted[4] + 10]; }
  }

  /**
   * Every score is non-negative and bounded by the full weight of its
   * category's lists plus one booster bonus.
   */
  lemma ScoreBounds(text: string, hits: set<Booster>, c: Category)
    ensures 0 <= Score(text, hits, c)
    ensures Score(text, hits, c) <= PatternWeight * |Patterns(c)| + NeedWeight * |Needs(c)| + 10
  {
  }

  /** A listed phrase that occurs in the text is counted. */
  lemma {:induction false} MatchesCounts(text: string, phrases: seq<string>, p: string)
    requires p in phrases && Contains(text, p)
    ensures Matches(text, phrases) >= 1
  {
    var last := phrases[|phrases| - 1];
    if p != last {
      assert p in phrases[..|phrases| - 1];
      MatchesCounts(text, phrases[..|phrases| - 1], p);
    }
  }

  /** Two texts in which the same entries of a list occur get the same count. */
  lemma {:induction false} MatchesPresenceOnly(t1: string, t2: string, phrases: seq<string>)
    requires forall k :: 0 <= k < |phrases| ==> (Contains(t1, phrases[k]) <==> Contains(t2, phrases[k]))
    ensures Matches(t1, phrases) == Matches(t2, phrases)
  {
    if phrases != [] {
      var front := phrases[..|phrases| - 1];
      assert forall k :: 0 <= k < |front| ==> front[k] == phrases[k];
      MatchesPresenceOnly(t1, t2, front);
    }
  }

  /** If every entry that occurs in `t1` occurs in `t2`, `t2` counts at least as many. */
  lemma {:induction false} MatchesMonotone(t1: string, t2: string, phrases: seq<string>)
    requires forall k :: 0 <= k < |phrases| ==> Contains(t1, phrases[k]) ==> Contains(t2, phrases[k])
    ensures Matches(t1, phrases) <= Matches(t2, phrases)
  {
    if phrases != [] {
      var front := phrases[..|phrases| - 1];
      assert forall k :: 0 <= k < |front| ==> front[k] == phrases[k];
      MatchesMonotone(t1, t2, front);
    }
  }

  /** ... and strictly more when one more entry occurs in `t2`. */
  lemma {:induction false} MatchesStrict(t1: string, t2: string, phrases: seq<string>, m: nat)
    requires forall k :: 0 <= k < |phrases| ==> Contains(t1, phrases[k]) ==> Contains(t2, phrases[k])
    requires m < |phrases| && !Contains(t1, phrases[m]) && Contains(t2, phrases[m])
    ensures Matches(t1, phrases) < Matches(t2, phrases)
  {
    var front := phrases[..|phrases| - 1];
    assert forall k :: 0 <= k < |front| ==> front[k] == phrases[k];
    if m == |phrases| - 1 {
      MatchesMonotone(t1, t2, front);
    } else {
      MatchesStrict(t1, t2, front, m);
    }
  }

  /** Every phrase of the rule table, for statements about all of them. */
  function AllPhrases(c: Category): seq<string>
  {
    Patterns(c) + Needs(c)
  }

  /**
   * Scoring is presence-only: two texts in which the same phrases of the table
   * occur, and the same boosters match, get the same scores, however often
   * each phrase occurs.
   */
  lemma PresenceOnly(t1: string, t2: string, hits: set<Booster>)
    requires forall c, p :: p in AllPhrases(c) ==> (Contains(t1, p) <==> Contains(t2, p))
    ensures ScoreVector(t1, hits) == ScoreVector(t2, hits)
  {
    forall k | 0 <= k < |Scored| ensures Score(t1, hits, Scored[k]) == Score(t2, hits, Scored[k]) {
      var c := Scored[k];
      assert forall j :: 0 <= j < |Patterns(c)| ==> Patterns(c)[j] in AllPhrases(c);
      assert forall j :: 0 <= j < |Needs(c)| ==> Needs(c)[j] in AllPhrases(c);
      MatchesPresenceOnly(t1, t2, Patterns(c));
      MatchesPresenceOnly(t1, t2, Needs(c));
    }
  }

  /**
   * Appending text that makes no new phrase of the table occur, with the
   * boosters unchanged, leaves every score as it was.
   */
  lemma AppendNothingNew(t: string, u: string, hits: set<Booster>)
    requires forall c, p :: p in AllPhrases(c) && Contains(t + u, p) ==> Contains(t, p)
    ensures ScoreVector(t + u, hits) == ScoreVector(t, hits)
  {
    forall c, p | p in AllPhrases(c) ensures Contains(t, p) <==> Contains(t + u, p) {
      if Contains(t, p) {
        ContainsInside([], t, u, p);
        assert [] + t + u == t + u;
      }
    }
    PresenceOnly(t + u, t, hits);
  }

  /** Extending a text, with the same boosters, never lowers a score. */
  lemma ExtensionNeverLowers(t: string, u: string, hits: set<Booster>, c: Category)
    ensures Score(t, hits, c) <= Score(t + u, hits, c)
  {
    forall p | Contains(t, p) ensures Contains(t + u, p) {
      ContainsInside([], t, u, p);
      assert [] + t + u == t + u;
    }
    MatchesMonotone(t, t + u, Patterns(c));
    MatchesMonotone(t, t + u, Needs(c));
  }

  /**
   * A phrase that is in both lists of a category weighs 2.0 + 1.5: any text
   * containing it scores at least 35 tenths for that category. The table has
   * four such phrases ("anrufvolumen", "automatische antworten",
   * "sofortige hilfe", "omnichannel").
   */
  lemma SharedPhraseCountsTwice(t: string, hits: set<Booster>, c: Category, p: string)
    requires p in Patterns(c) && p in Needs(c) && Contains(t, p)
    ensures Score(t, hits, c) >= PatternWeight + NeedWeight
  {
    MatchesCounts(t, Patterns(c), p);
    MatchesCounts(t, Needs(c), p);
  }

  /** The four phrases that are in both lists of their category. */
  lemma SharedPhrases()
    ensures "anrufvolumen" in Patterns(Voicebot) && "anrufvolumen" in Needs(Voicebot)
    ensures "automatische antworten" in Patterns(Chatbot) && "automatische antworten" in Needs(Chatbot)
    ensures "sofortige hilfe" in Patterns(Livechat) && "sofortige hilfe" in Needs(Livechat)
    ensures "omnichannel" in Patterns(GeneralAi) && "omnichannel" in Needs(GeneralAi)
  {
    assert VoicebotPatterns[14] == "anrufvolumen" && VoicebotNeeds[0] == "anrufvolumen";
    assert ChatbotPatterns[2] == "automatische antworten" && ChatbotNeeds[2] == "automatische antworten";
    assert LivechatPatterns[17] == "sofortige hilfe" && LivechatNeeds[3] == "sofortige hilfe";
    assert GeneralAiPatterns[14] == "omnichannel" && GeneralAiNeeds[5] == "omnichannel";
  }
  /**
   * Extending a text so that a pattern of a category occurs that did not
   * occur before raises that category's score by at least a pattern weight.
   */
  lemma NewPatternRaises(t: string, u: string, hits: set<Booster>, c: Category, m: nat)
    requires m < |Patterns(c)| && !Contains(t, Patterns(c)[m]) && Contains(t + u, Patterns(c)[m])
    ensures Score(t + u, hits, c) >= Score(t, hits, c) + PatternWeight
  {
    forall r | Contains(t, r) ensures Contains(t + u, r) {
      ContainsExtend(t, u, r);
    }
    MatchesStrict(t, t + u, Patterns(c), m);
    MatchesMonotone(t, t + u, Needs(c));
  }

  /** "anrufe" does not occur in "echtzeit chat anruf", but does once "echtzeit chat" follows it. */
  lemma AcrossTheSeam()
    ensures !Contains("echtzeit chat anruf", "anrufe")
    ensures Contains("echtzeit chat anruf" + "echtzeit chat", "anrufe")
  {
    var t := "echtzeit chat anruf";
    var q := "anrufe";
    assert OccursAt(t + "echtzeit chat", q, 14);
    forall i: nat | i + |q| <= |t| ensures !OccursAt(t, q, i) {
      assert t[i] != 'a' || t[i + 1] != 'n';
      assert t[i..i + |q|][0] == t[i] && t[i..i + |q|][1] == t[i + 1];
    }
  }

  /**
   * Repeating a phrase that is already present can still raise a score,
   * because occurrences are substring matches: appending the live-chat
   * pattern "echtzeit chat" to "echtzeit chat anruf" makes "anrufe" occur
   * across the seam, and the voicebot score grows by a pattern weight.
   */
  lemma RepeatCanRaise(hits: set<Booster>)
    ensures var t := "echtzeit chat anruf"; var p := "echtzeit chat";
      && p in Patterns(Livechat) && Contains(t, p)
      && Score(t + p, hits, Voicebot) >= Score(t, hits, Voicebot) + PatternWeight
  {
    var t := "echtzeit chat anruf";
    var p := "echtzeit chat";
    assert LivechatPatterns[6] == p;
    ContainsSelf([], p, " anruf");
    assert [] + p + " anruf" == t;
    AcrossTheSeam();
    assert VoicebotPatterns[0] == "anrufe";
    NewPatternRaises(t, p, hits, Voicebot, 0);
  }
}
