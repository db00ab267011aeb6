/** The records of src/types/index.ts and the category enumeration they share. */
module Types {

  /** An optional field of a record (`field?: T` in the source). */
  datatype Option<+T> = None | Some(value: T)

  /** The six values of `recommendedProductCategory`. */
  datatype Category = Voicebot | Chatbot | Livechat | SpeechToText | GeneralAi | Unclear

  /** The five categories that carry a score, in the insertion order of the scores record. */
  const Scored: seq<Category> := [Voicebot, Chatbot, Livechat, SpeechToText, GeneralAi]

  /** All six categories, in the insertion order of the per-category tally. */
  const AllCategories: seq<Category> := Scored + [Unclear]

  /** The position of a category in `AllCategories` (5 for `Unclear`). */
  function Pos(c: Category): (k: nat)
    ensures k < |AllCategories| && AllCategories[k] == c
    ensures k < |Scored| <==> c != Unclear
  {
    match c
    case Voicebot => 0
    case Chatbot => 1
    case Livechat => 2
    case SpeechToText => 3
    case GeneralAi => 4
    case Unclear => 5
  }

  /** The string the source uses for a category, e.g. inside the analysis sentence. */
  function Key(c: Category): string
  {
    match c
    case Voicebot => "voicebot"
    case Chatbot => "chatbot"
    case Livechat => "livechat"
    case SpeechToText => "speech-to-text"
    case GeneralAi => "general-ai"
    case Unclear => "unclear"
  }

  /** `CustomerInquiry`: a caller-assigned id, the free text and optional metadata. */
  datatype Inquiry = Inquiry(
    id: string,
    text: string,
    customer: Option<string>,
    date: Option<string>,
    sourceFile: Option<string>)

  /** `AnalysisResult`: the classification of one inquiry. */
  datatype AnalysisResult = AnalysisResult(
    inquiry: Inquiry,
    recommended: Category,
    confidence: real,
    followUpQuestion: Option<string>,
    analysis: string,
    customerResponse: Option<string>)
}
