/**
 * `getRecommendation`: pick the completion model for a model name, build
 * the prompt from the retrieved documents, and report every failure as a
 * tagged result instead of an exception.
 */
module AiUtils {
  import opened Wrappers
  import opened Text
  import opened VectorStore

  /**
   * `openai.chat.completions.create` for one model, token budget and user
   * prompt: the first choice's text, or the message of the error it throws.
   */
  type Completion = (String, nat, String) -> Result<String, String>

  /** What the `switch` on the model name selects. */
  datatype Dispatch = Call(model: String, maxTokens: nat) | Disabled | Unsupported

  /** The object `getRecommendation` resolves with; an absent `error` or `disabled` key is `false`. */
  datatype Recommendation = Recommendation(modelName: String, recommendation: String, error: bool, disabled: bool)

  const DisabledMessage: String := "이 모델은 현재 비활성화되어 있습니다."
  const UnsupportedMessage: String := "지원하지 않는 모델입니다."
  const ErrorPrefix: String := "오류가 발생했습니다: "
  const EntrySeparator: String := "\n\n"

  function DispatchOf(modelName: String): Dispatch {
    match modelName
    case "gpt-4o" => Call("gpt-4", 2000)
    case "gpt-o3-mini" => Call("gpt-3.5-turbo", 1000)
    case "gpt-o1" => Disabled
    case _ => Unsupported
  }

  /** `${doc.metadata?.source}`: an absent source prints as `undefined`. */
  function SourceText(doc: Document): String {
    match doc.metadata.source
    case Some(source) => source
    case None => "undefined"
  }

  function Entry(doc: Document): String {
    "파일: " + SourceText(doc) + "\n" + doc.pageContent
  }

  /** The prompt context: one entry per document, in order, separated by a blank line. */
  function Context(docs: seq<Document>): String {
    Join(seq(|docs|, i requires 0 <= i < |docs| => Entry(docs[i])), EntrySeparator)
  }

  /** The user message sent with the request and the context. */
  function Prompt(request: String, context: String): String {
    "다음은 사용자의 요청과 관련된 코드 컨텍스트입니다:\n\n사용자 요청:\n" + request
      + "\n\n관련 코드 컨텍스트:\n" + context
      + "\n\n위 컨텍스트를 바탕으로 사용자의 요청에 대한 코드 추천을 제공해주세요. \n"
      + "코드는 마크다운 코드 블록으로 작성해주시고, 필요한 설명도 함께 제공해주세요."
  }

  /**
   * `getRecommendation`. It never rejects: an unsupported name and a failed
   * completion both come back as `error: true` results, and a disabled model
   * is answered without a completion.
   */
  function GetRecommendation(complete: Completion, request: String, searchResults: seq<Document>, modelName: String)
    : (r: Recommendation)
    ensures r.modelName == modelName
    ensures r.disabled <==> modelName == "gpt-o1"
    ensures r.disabled ==> !r.error && r.recommendation == DisabledMessage
    ensures modelName == "gpt-4o" || modelName == "gpt-o3-mini" ==>
      var (model, maxTokens) := if modelName == "gpt-4o" then ("gpt-4", 2000) else ("gpt-3.5-turbo", 1000);
      match complete(model, maxTokens, Prompt(request, Context(searchResults)))
      case Success(text) => !r.error && r.recommendation == text
      case Failure(message) => r.error && r.recommendation == ErrorPrefix + message
    ensures modelName !in {"gpt-4o", "gpt-o3-mini", "gpt-o1"} ==>
      r.error && r.recommendation == ErrorPrefix + UnsupportedMessage
  {
    match DispatchOf(modelName)
    case Disabled => Recommendation(modelName, DisabledMessage, false, true)
    case Unsupported => Recommendation(modelName, ErrorPrefix + UnsupportedMessage, true, false)
    case Call(model, maxTokens) =>
      match complete(model, maxTokens, Prompt(request, Context(searchResults)))
      case Success(text) => Recommendation(modelName, text, false, false)
      case Failure(message) => Recommendation(modelName, ErrorPrefix + message, true, false)
  }

  /** Only "gpt-4o" and "gpt-o3-mini" reach the completion: for any other name the completion makes no difference. */
  lemma OnlyDispatchedModelsCall(c1: Completion, c2: Completion, request: String, searchResults: seq<Document>, modelName: String)
    requires modelName != "gpt-4o" && modelName != "gpt-o3-mini"
    ensures GetRecommendation(c1, request, searchResults, modelName) == GetRecommendation(c2, request, searchResults, modelName)
  {
  }

  /** A result is never both disabled and an error, and it is an error exactly when it is not a completion's text. */
  lemma TaggingIsExclusive(complete: Completion, request: String, searchResults: seq<Document>, modelName: String)
    ensures var r := GetRecommendation(complete, request, searchResults, modelName);
      !(r.error && r.disabled)
      && (!r.error && !r.disabled <==>
            DispatchOf(modelName).Call?
            && complete(DispatchOf(modelName).model, DispatchOf(modelName).maxTokens, Prompt(request, Context(searchResults))).Success?)
  {
  }

  /** The context grows by a separator and one entry per further document. */
  lemma ContextSnoc(docs: seq<Document>, doc: Document)
    ensures Context(docs + [doc]) == if docs == [] then Entry(doc) else Context(docs) + EntrySeparator + Entry(doc)
  {
    var entries := seq(|docs|, i requires 0 <= i < |docs| => Entry(docs[i]));
    var all := docs + [doc];
    assert seq(|all|, i requires 0 <= i < |all| => Entry(all[i])) == entries + [Entry(doc)];
    if docs != [] {
      JoinSnoc(entries, Entry(doc), EntrySeparator);
    }
  }
}
