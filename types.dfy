/**
 * Records shared by the orchestrator (worker/chat.ts) and the session agent (worker/agent.ts),
 * and the foreign collaborators they call, given as function values.
 */
module Types {
  import opened Wrappers

  /** A JSON value, as produced by `JSON.parse` and consumed by `JSON.stringify`. */
  datatype Json =
    | JNull
    | JBool(b: bool)
    | JNumber(n: int)
    | JString(s: string)
    | JArray(elems: seq<Json>)
    | JObject(fields: seq<(string, Json)>)

  /** `{}` */
  const EmptyObject: Json := JObject([])

  datatype Role = User | Assistant | System | Tool

  /** A tool call as it is stored in history: the provider's id, the name, the parsed arguments
      and the tool's result payload. */
  datatype ToolCall = ToolCall(id: string, name: string, arguments: Json, result: Json)

  /** A history message; its id and timestamp come from an unseen helper and are left out. */
  datatype Message = Message(role: Role, content: string, toolCalls: Option<seq<ToolCall>>)

  /** A session-level provider override. `None` is an omitted field, `Some("")` a field sent empty. */
  datatype ProviderConfig = ProviderConfig(baseUrl: Option<string>, apiKey: Option<string>, model: Option<string>)

  const NoConfig := ProviderConfig(None, None, None)

  /** The persisted session snapshot. `streamingMessage` is absent until the first streamed turn. */
  datatype ChatState = ChatState(
    messages: seq<Message>,
    sessionId: string,
    isProcessing: bool,
    model: string,
    config: ProviderConfig,
    streamingMessage: Option<string>)

  /** JavaScript's `v || fallback` for an optional string: an omitted or empty value falls back. */
  function OrElse(v: Option<string>, fallback: string): string {
    if v.Some? && v.value != "" then v.value else fallback
  }

  /** The laws of `||` the fallbacks rely on: an omitted value and an empty one fall back alike;
      the result is one of the two operands and is empty only when both are; applying the same
      fallback again changes nothing; and a non-empty fallback makes the result non-empty. */
  lemma OrElseLaws(v: Option<string>, fallback: string)
    ensures OrElse(None, fallback) == OrElse(Some(""), fallback) == fallback
    ensures var r := OrElse(v, fallback); r == fallback || (v.Some? && r == v.value)
    ensures OrElse(v, fallback) == "" <==> (v.None? || v.value == "") && fallback == ""
    ensures OrElse(Some(OrElse(v, fallback)), fallback) == OrElse(v, fallback)
    ensures fallback != "" ==> OrElse(v, fallback) != ""
  {
  }

  /** A tool call as the provider sends it and as it is echoed back in the tool round.
      Missing `id`, `function.name` or `function.arguments` are the empty string. */
  datatype WireCall = WireCall(id: string, name: string, arguments: string)

  /** A message of an outbound request. `content` is `null` only for the assistant message that
      carries tool calls; `toolCallId` is set only on tool-role messages. */
  datatype OutMessage = OutMessage(role: Role, content: Option<string>, toolCalls: seq<WireCall>, toolCallId: Option<string>)

  datatype ToolDefinition = ToolDefinition(name: string, parameters: Json)

  /** The token cap of a request: the streaming call sends `max_completion_tokens`, the
      non-streaming one `max_tokens`, the tool round none. */
  datatype TokenLimit = NoLimit | MaxTokens(n: nat) | MaxCompletionTokens(n: nat)

  /** One `chat.completions.create` request. `tools` and `tool_choice: 'auto'` are sent only when
      `tools` is non-empty (`autoToolChoice`). */
  datatype Request = Request(
    model: string,
    messages: seq<OutMessage>,
    tools: seq<ToolDefinition>,
    autoToolChoice: bool,
    limit: TokenLimit,
    stream: bool)

  /** One indexed tool-call fragment of a streamed delta. */
  datatype ToolFragment = ToolFragment(index: Option<int>, id: string, name: string, arguments: string)

  /** `chunk.choices[0]?.delta`: its text (empty when absent) and its tool-call fragments. */
  datatype Chunk = Chunk(content: string, toolCalls: seq<ToolFragment>)

  /** A streamed response: the chunks delivered, and whether iteration then threw. */
  datatype Stream = Stream(chunks: seq<Chunk>, broken: bool)

  /** `choices[0].message` of a non-streamed completion; a null content is the empty string. */
  datatype ResponseMessage = ResponseMessage(content: string, toolCalls: Option<seq<WireCall>>)

  /** A non-streamed completion; `message` is `None` when `choices[0]?.message` is missing. */
  datatype Completion = Completion(message: Option<ResponseMessage>)

  /** Why a turn failed. */
  datatype Fault =
    | ProviderError(reason: string)   // a completion call threw
    | StreamInterrupted               // iterating the stream threw
    | NoHandler                       // `this.chatHandler!` was undefined

  /** An OpenAI client: the base URL and key it was constructed with. A request is answered by
      the endpoint of the client it is sent on. */
  datatype Client = Client(baseUrl: string, apiKey: string)

  /** The foreign collaborators: the completion endpoint, the tool registry and JSON. */
  datatype Oracles = Oracles(
    toolDefinitions: seq<ToolDefinition>,
    complete: (Client, Request) -> Result<Completion, string>,
    completeStream: (Client, Request) -> Result<Stream, string>,
    executeTool: (string, Json) -> Json,
    parse: string -> Option<Json>,
    stringify: Json -> string)

  /** What `JSON.parse` is relied on to do: `JSON.parse('{}')` is `{}`. */
  predicate ParsesEmptyObject(parse: string -> Option<Json>) {
    parse("{}") == Some(EmptyObject)
  }
}
