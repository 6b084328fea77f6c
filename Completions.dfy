/** The wire protocol both services speak: the chat-completion request they POST,
    what `fetch` can come back with, and the errors they throw. The HTTP layer itself
    is not modelled: a call to `fetch` is a function from the request to its outcome,
    supplied by the caller. */
module Completions {
  import opened Wrappers
  import opened Strings

  const Endpoint := "https://api.groq.com/openai/v1/chat/completions"
  const ModelName := "qwen2.5-72b-instruct"
  const MaxTokens: nat := 2048
  const UnknownError := "Unknown error"

  datatype Role = System | User

  /** One entry `{role, content}` of the request's `messages`. */
  datatype Message = Message(role: Role, content: string)

  /** The POST request: its URL, `Authorization` header and JSON body. The temperature
      is carried in tenths (7 stands for 0.7); `stream` is None when the body has no
      `stream` field. */
  datatype ChatRequest = ChatRequest(
    url: string,
    authorization: string,
    model: string,
    messages: seq<Message>,
    temperatureTenths: nat,
    maxTokens: nat,
    stream: Option<bool>)

  function Bearer(key: string): string {
    "Bearer " + key
  }

  /** `choices[i]`, reduced to `message.content` (None when missing). */
  datatype Choice = Choice(content: Option<string>)

  /** What `response.json()` yields: either it rejects (the body is not JSON) or an
      object of which the services read `error.message` and `choices`. */
  datatype JsonBody =
    | NotJson
    | JsonObject(errorMessage: Option<string>, choices: Option<seq<Choice>>)

  /** How the body reader ends after its chunks: `done`, or a read that rejects. */
  datatype StreamEnd = EndOfStream | ReadError(reason: string)

  /** The body as the reader delivers it, each chunk already decoded to text. */
  datatype ChunkStream = ChunkStream(chunks: seq<string>, end: StreamEnd)

  /** A response: status, the body as JSON, and the body as a stream (None when
      `response.body` is null). */
  datatype HttpResponse = HttpResponse(status: nat, json: JsonBody, body: Option<ChunkStream>) {
    /** `response.ok`. */
    predicate Ok() {
      200 <= status <= 299
    }
  }

  /** `await fetch(...)`: it rejects (network failure) or yields a response. */
  datatype FetchOutcome = Rejected(reason: string) | Responded(response: HttpResponse)

  /** One effectful step as its caller sees it: the answer or the error it throws,
      and the requests it POSTed, in order. */
  datatype Exchange = Exchange(result: Result<string, ServiceError>, sent: seq<ChatRequest>)

  /** The errors the services throw. The engine's own messages (a rejected fetch, a
      failed read) are carried as given; `InvalidJson` and `MissingChoices` stand for
      the engine's SyntaxError and TypeError. */
  datatype ServiceError =
    | ApiKeyNotConfigured
    | NetworkError(reason: string)
    | ApiError(status: nat, detail: Option<string>)
    | InvalidJson
    | MissingChoices
    | NoReader
    | StreamReadError(reason: string)
  {
    /** The error's message text. The texts of `InvalidJson` and `MissingChoices` are
        not the program's: they stand in for the engine's SyntaxError and TypeError
        messages, which are not modelled. */
    function Text(): string {
      match this
      case ApiKeyNotConfigured => "API key not configured"
      case NetworkError(reason) => reason
      case ApiError(status, None) => "Groq API error: " + DecimalString(status)
      case ApiError(status, Some(d)) => "Groq API error: " + DecimalString(status) + " - " + d
      case InvalidJson => "Response body is not valid JSON"
      case MissingChoices => "Response body has no choices"
      case NoReader => "Failed to get response reader"
      case StreamReadError(reason) => reason
    }
  }

  /** An upstream error's message names the status in decimal right after the fixed
      prefix, so the status can be read back from it. */
  lemma ApiErrorNamesStatus(e: ServiceError)
    requires e.ApiError?
    ensures var digits := DecimalString(e.status);
      && StartsWith(e.Text(), "Groq API error: " + digits)
      && DigitsValue(e.Text()[16..16 + |digits|]) == e.status
  {
    var digits := DecimalString(e.status);
    assert e.Text()[..16 + |digits|] == "Groq API error: " + digits;
    assert e.Text()[16..16 + |digits|] == digits;
  }

  /** `errorData.error?.message || 'Unknown error'`, where `errorData` is `{}` when the
      body is not JSON. */
  function UpstreamDetail(json: JsonBody): (d: string)
    ensures d != ""
    ensures json.JsonObject? && Truthy(json.errorMessage) ==> d == json.errorMessage.value
    ensures !(json.JsonObject? && Truthy(json.errorMessage)) ==> d == UnknownError
  {
    if json.JsonObject? && Truthy(json.errorMessage) then json.errorMessage.value else UnknownError
  }

  /** `choices[0]?.message?.content`, with a missing value read as "". */
  function FirstContent(choices: seq<Choice>): string {
    if |choices| > 0 && choices[0].content.Some? then choices[0].content.value else ""
  }

  /** `data.choices[0]?.message?.content || placeholder` after `await response.json()`
      on a successful response: fails when the body is not JSON or has no `choices`
      array, otherwise answers the first choice's content, or the placeholder when
      that content is missing or empty. */
  function ReplyContent(json: JsonBody, placeholder: string): (r: Result<string, ServiceError>)
    requires placeholder != ""
    ensures r.Success? <==> json.JsonObject? && json.choices.Some?
    ensures json.NotJson? ==> r == Failure(InvalidJson)
    ensures json.JsonObject? && json.choices.None? ==> r == Failure(MissingChoices)
    ensures r.Success? ==> r.value != ""
    ensures r.Success? && FirstContent(json.choices.value) != "" ==> r.value == FirstContent(json.choices.value)
    ensures r.Success? && FirstContent(json.choices.value) == "" ==> r.value == placeholder
  {
    match json
    case NotJson => Failure(InvalidJson)
    case JsonObject(_, None) => Failure(MissingChoices)
    case JsonObject(_, Some(choices)) =>
      var content := FirstContent(choices);
      Success(if content != "" then content else placeholder)
  }
}
