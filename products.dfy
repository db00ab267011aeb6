/** The static product catalogue and sample inquiries of src/data/nfon-products.ts. */
module Products {
  import opened Types
  import opened JsStrings

  /** A product category: every category except `Unclear`. */
  type ProductCategory = c: Category | c != Unclear witness Voicebot

  /** `NFONProduct`. */
  datatype Product = Product(
    id: string,
    name: string,
    description: string,
    category: ProductCategory,
    keyFeatures: seq<string>,
    useCases: seq<string>,
    icon: string)

  // The long texts of the catalogue and of the samples.
  const VoicebotDescription := "AI-powered voice assistants that can handle customer calls, answer questions, and route callers to the right department."
  const ChatbotDescription := "Intelligent text-based virtual assistants that can engage with customers on websites and messaging platforms."
  const LivechatDescription := "Real-time chat solution with AI-assistance for customer service teams to engage with website visitors efficiently."
  const SpeechToTextDescription := "Advanced transcription technology that converts spoken language into written text for analysis and documentation."
  const GeneralAiDescription := "Comprehensive AI solution that combines multiple technologies to create a unified customer communication experience."
  const SampleText1 := "Wir suchen nach einer Lösung, die automatisch Kundenanrufe beantworten kann. Unser Call Center ist überlastet und wir würden gerne einige der häufigsten Anfragen automatisieren."
  const SampleText2 := "Unsere Website-Besucher benötigen oft sofortige Unterstützung. Gibt es eine Möglichkeit, einen Chat einzurichten, der von echten Mitarbeitern betreut wird, aber auch KI-Unterstützung hat?"
  const SampleText3 := "Wir möchten unsere Kundengespräche analysieren, um Trends zu erkennen. Haben Sie ein Tool, das Anrufe transkribieren kann?"
  const SampleText4 := "Wir interessieren uns für eine KI-Lösung, die uns helfen kann, Kundenanfragen auf verschiedenen Kanälen zu beantworten. Was können Sie uns anbieten?"
  const SampleText5 := "Unsere Webseite braucht einen Chatbot, der Kunden bei der Produktauswahl beraten kann. Haben Sie so etwas im Angebot?"

  /**
   * `nfonProducts`: one product per scored category, in the order of `Scored`,
   * with distinct ids, five key features and four use cases each.
   */
  function Catalogue(): (ps: seq<Product>)
    ensures |ps| == |Scored|
    ensures forall i :: 0 <= i < |ps| ==> ps[i].category == Scored[i]
    ensures forall i, j :: 0 <= i < j < |ps| ==> ps[i].id != ps[j].id
    ensures forall i :: 0 <= i < |ps| ==> |ps[i].keyFeatures| == 5 && |ps[i].useCases| == 4
  {
    [ Product(
        "botario-voicebot",
        "Botario Voicebot",
        VoicebotDescription,
        Voicebot,
        ["Natural language processing", "24/7 availability", "Seamless call routing",
         "Multi-language support", "Integration with CRM systems"],
        ["Customer service automation", "Appointment scheduling", "FAQ handling",
         "Order status inquiries"],
        "phone"),
      Product(
        "nfon-chatbot",
        "NFON Chatbot",
        ChatbotDescription,
        Chatbot,
        ["Intuitive conversation flows", "Omnichannel deployment",
         "Custom knowledge base integration", "Handoff to human agents", "Analytics dashboard"],
        ["Website customer support", "Lead qualification", "Product recommendations",
         "Technical troubleshooting"],
        "message-circle"),
      Product(
        "nfon-livechat",
        "NFON LiveChat",
        LivechatDescription,
        Livechat,
        ["AI-suggested responses", "Visitor tracking", "File sharing",
         "Chat transcript analysis", "Proactive chat initiation"],
        ["Sales support", "Customer onboarding", "Technical assistance", "Service upgrades"],
        "messages-square"),
      Product(
        "nfon-speech-to-text",
        "NFON Speech-to-Text",
        SpeechToTextDescription,
        SpeechToText,
        ["High accuracy transcription", "Multiple language support", "Speaker identification",
         "Custom vocabulary", "Real-time processing"],
        ["Call center analytics", "Meeting transcription", "Compliance documentation",
         "Customer insight generation"],
        "mic"),
      Product(
        "nfon-ai-suite",
        "NFON AI Suite",
        GeneralAiDescription,
        GeneralAi,
        ["Unified analytics platform", "Cross-channel customer journey mapping",
         "AI-powered workflow automation", "Sentiment analysis", "Predictive customer service"],
        ["Enterprise communication strategy", "Customer experience optimization",
         "Business intelligence", "Operational efficiency improvements"],
        "brain")
    ]
  }

  /** `ps.find(p => p.category === c)`: the first product of the category, if any. */
  function Find(ps: seq<Product>, c: Category): (r: Option<Product>)
    ensures r.Some? ==> r.value in ps && r.value.category == c
    ensures r.None? <==> forall i :: 0 <= i < |ps| ==> ps[i].category != c
    ensures r.Some? ==> exists i :: 0 <= i < |ps| && ps[i] == r.value && forall j :: 0 <= j < i ==> ps[j].category != c
  {
    if |ps| == 0 then None
    else if ps[0].category == c then Some(ps[0])
    else
      var r := Find(ps[1..], c);
      if r.Some? then
        var i :| 0 <= i < |ps[1..]| && ps[1..][i] == r.value && forall j :: 0 <= j < i ==> ps[1..][j].category != c;
        assert ps[i + 1] == r.value && forall j :: 0 <= j < i + 1 ==> ps[j].category != c;
        r
      else r
  }

  /**
   * Looking up the catalogue by category: it succeeds exactly for the five
   * product categories, and then yields that category's single product.
   */
  function FindProduct(c: Category): (r: Option<Product>)
    ensures r.Some? <==> c != Unclear
    ensures r.Some? ==> r.value.category == c && r.value == Catalogue()[Pos(c)]
  {
    var ps := Catalogue();
    FindInLayout(ps, c);
    Find(ps, c)
  }

  /** In a list holding one product per scored category, in order, `Find` picks the one at the category's position. */
  lemma FindInLayout(ps: seq<Product>, c: Category)
    requires |ps| == |Scored| && forall i :: 0 <= i < |ps| ==> ps[i].category == Scored[i]
    ensures Find(ps, c).Some? <==> c != Unclear
    ensures Find(ps, c).Some? ==> Find(ps, c).value == ps[Pos(c)]
  {
    if c != Unclear {
      assert ps[Pos(c)].category == c;
    }
    var r := Find(ps, c);
    if r.Some? {
      var i :| 0 <= i < |ps| && ps[i] == r.value;
      assert Scored[i] == c;
    }
  }

  /**
   * `sampleInquiries`: five inquiries with ids "1" to "5", non-empty texts,
   * a customer and a date each.
   */
  function SampleInquiries(): (qs: seq<Inquiry>)
    ensures |qs| == 5
    ensures forall i :: 0 <= i < |qs| ==> qs[i].id == NatToString(i + 1)
    ensures forall i :: 0 <= i < |qs| ==> qs[i].text != [] && qs[i].customer.Some? && qs[i].date.Some?
    ensures forall i, j :: 0 <= i < j < |qs| ==> qs[i].id != qs[j].id
  {
    var qs := [
      Inquiry("1",
        SampleText1,
        Some("Versicherung AG"), Some("2023-10-15"), None),
      Inquiry("2",
        SampleText2,
        Some("Online Shop GmbH"), Some("2023-10-18"), None),
      Inquiry("3",
        SampleText3,
        Some("Marktforschung KG"), Some("2023-10-20"), None),
      Inquiry("4",
        SampleText4,
        Some("Multinationale GmbH"), Some("2023-10-22"), None),
      Inquiry("5",
        SampleText5,
        Some("TechRetail AG"), Some("2023-10-25"), None)
    ];
    qs
  }
}
