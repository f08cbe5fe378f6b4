/**
 * The turn orchestrator of worker/chat.ts: the `ChatHandler` class (provider settings, client
 * rebuilds, the streaming loop) and the pure message-list, tool-execution and outcome rules.
 * The OpenAI client is the base URL and key it was built with, plus a ghost count of the
 * clients built so far.
 */
module Chat {
  import opened Wrappers
  import opened Strings
  import opened Types
  import opened StreamAccumulator

  const SystemPrompt := "You are Nafisa AI, a sophisticated and helpful universal AI interface developed for high-performance edge computing. Help the user with their queries accurately and maintain a professional yet engaging persona."
  const ToolRoundPrompt := "You are Nafisa AI. Respond concisely based on the provided tool results."
  const EmptyResponseText := "Node returned empty response."
  const UnknownToolName := "unknown"
  const MaxOutputTokens: nat := 4096
  /** History entries sent with the first completion (`slice(-15)`) and with the tool round (`slice(-10)`). */
  const FirstRoundWindow: nat := 15
  const ToolRoundWindow: nat := 10

  /** What the constructor and `updateConfig` demand: a base URL starting with "http" and a key. */
  predicate ValidConfig(baseUrl: string, apiKey: string) {
    StartsWith(baseUrl, "http") && apiKey != ""
  }

  // ------------------------------------------------------ outbound lists

  function Min(a: nat, b: nat): nat { if a <= b then a else b }

  /** `history.slice(-n)`: the last `n` entries, or all of them when there are fewer. */
  function Window(history: seq<Message>, n: nat): (w: seq<Message>)
    ensures |w| == Min(n, |history|)
    ensures forall i :: 0 <= i < |w| ==> w[i] == history[|history| - |w| + i]
  {
    history[|history| - Min(n, |history|)..]
  }

  /** `{ role: m.role, content: m.content }`: a history entry without its tool calls. */
  function Outbound(m: Message): OutMessage {
    OutMessage(m.role, Some(m.content), [], None)
  }

  function TextMessage(role: Role, text: string): OutMessage {
    OutMessage(role, Some(text), [], None)
  }

  /** `ms.map(m => ({ role: m.role, content: m.content }))` */
  function OutboundAll(ms: seq<Message>): (r: seq<OutMessage>)
    ensures |r| == |ms| && forall i :: 0 <= i < |ms| ==> r[i] == Outbound(ms[i])
  {
    if ms == [] then [] else OutboundAll(ms[..|ms| - 1]) + [Outbound(ms[|ms| - 1])]
  }

  /** `buildConversationMessages`: the system prompt, the last 15 history entries, the user message. */
  function BuildConversationMessages(userMessage: string, history: seq<Message>): (r: seq<OutMessage>)
    ensures var n := Min(FirstRoundWindow, |history|);
      && |r| == n + 2
      && r[0] == TextMessage(System, SystemPrompt)
      && (forall i :: 0 <= i < n ==> r[1 + i] == Outbound(Window(history, FirstRoundWindow)[i]))
      && r[n + 1] == TextMessage(User, userMessage)
  {
    var w := OutboundAll(Window(history, FirstRoundWindow));
    Framed(TextMessage(System, SystemPrompt), w, TextMessage(User, userMessage));
    [TextMessage(System, SystemPrompt)] + w + [TextMessage(User, userMessage)]
  }

  /** Where the parts of `[first] + middle + [last]` sit. */
  lemma Framed<T>(first: T, middle: seq<T>, last: T)
    ensures var r := [first] + middle + [last];
      && |r| == |middle| + 2 && r[0] == first && r[|middle| + 1] == last
      && forall i :: 0 <= i < |middle| ==> r[1 + i] == middle[i]
  {
  }

  /** The message list of `generateToolResponse`. */
  function ToolRoundMessages(userMessage: string, history: seq<Message>, calls: seq<WireCall>,
                             results: seq<ToolCall>, stringify: Json -> string): (r: seq<OutMessage>)
    ensures var n := Min(ToolRoundWindow, |history|);
      && |r| == n + 3 + |results|
      && r[0] == TextMessage(System, ToolRoundPrompt)
      && (forall i :: 0 <= i < n ==> r[1 + i] == Outbound(Window(history, ToolRoundWindow)[i]))
      && r[n + 1] == TextMessage(User, userMessage)
      && r[n + 2] == OutMessage(Assistant, None, calls, None)
      && (forall i :: 0 <= i < |results| ==>
            r[n + 3 + i] == OutMessage(Tool, Some(stringify(results[i].result)), [], Some(results[i].id)))
  {
    var w := Window(history, ToolRoundWindow);
    [TextMessage(System, ToolRoundPrompt)]
      + seq(|w|, i requires 0 <= i < |w| => Outbound(w[i]))
      + [TextMessage(User, userMessage), OutMessage(Assistant, None, calls, None)]
      + seq(|results|, i requires 0 <= i < |results| =>
              OutMessage(Tool, Some(stringify(results[i].result)), [], Some(results[i].id)))
  }

  // ------------------------------------------------------ tool execution

  /** `JSON.parse(arguments || '{}')`, keeping `{}` when the parse throws. */
  function ParseArguments(text: string, parse: string -> Option<Json>): (args: Json)
    ensures text != "" && parse(text).Some? ==> args == parse(text).value
    ensures text != "" && parse(text).None? ==> args == EmptyObject
    ensures text == "" && ParsesEmptyObject(parse) ==> args == EmptyObject
  {
    match parse(if text == "" then "{}" else text)
    case Some(v) => v
    case None => EmptyObject
  }

  /** The name a call is executed under: `"unknown"` when the provider sent none. */
  function ToolName(c: WireCall): string {
    if c.name != "" then c.name else UnknownToolName
  }

  /** `executeToolCalls`: one record per call, in order, each with the call's own id. */
  function ExecuteToolCalls(calls: seq<WireCall>, parse: string -> Option<Json>,
                            executeTool: (string, Json) -> Json): (records: seq<ToolCall>)
    ensures |records| == |calls|
    ensures forall i :: 0 <= i < |calls| ==>
      && records[i].id == calls[i].id
      && records[i].name == ToolName(calls[i])
      && records[i].arguments == ParseArguments(calls[i].arguments, parse)
      && records[i].result == executeTool(records[i].name, records[i].arguments)
  {
    seq(|calls|, i requires 0 <= i < |calls| =>
      var name := ToolName(calls[i]);
      var args := ParseArguments(calls[i].arguments, parse);
      ToolCall(calls[i].id, name, args, executeTool(name, args)))
  }

  /** A call whose arguments buffer is empty or does not parse is executed with `{}` arguments,
      and its name is "unknown" when it has none. */
  lemma MalformedArgumentsBecomeEmpty(calls: seq<WireCall>, parse: string -> Option<Json>,
                                      executeTool: (string, Json) -> Json, i: nat)
    requires ParsesEmptyObject(parse)
    requires i < |calls|
    requires calls[i].arguments == "" || parse(calls[i].arguments).None?
    ensures ExecuteToolCalls(calls, parse, executeTool)[i].arguments == EmptyObject
    ensures calls[i].name == "" ==> ExecuteToolCalls(calls, parse, executeTool)[i].name == "unknown"
  {
  }

  /** A malformed arguments buffer in one call changes that call's record only: every other call
      is still executed as before. */
  lemma MalformedArgumentsIsolated(calls: seq<WireCall>, parse: string -> Option<Json>,
                                   executeTool: (string, Json) -> Json, j: nat, garbage: string)
    requires j < |calls|
    ensures var bad := calls[j := calls[j].(arguments := garbage)];
      var before, after := ExecuteToolCalls(calls, parse, executeTool), ExecuteToolCalls(bad, parse, executeTool);
      |after| == |before| && after[j].id == before[j].id
      && forall i :: 0 <= i < |calls| && i != j ==> after[i] == before[i]
  {
  }

  // ------------------------------------------------------------ requests

  /** The first completion request of `processMessage`. */
  function FirstRequest(model: string, message: string, history: seq<Message>,
                        tools: seq<ToolDefinition>, streaming: bool): Request {
    Request(model, BuildConversationMessages(message, history), tools, |tools| > 0,
            if streaming then MaxCompletionTokens(MaxOutputTokens) else MaxTokens(MaxOutputTokens),
            streaming)
  }

  /** The request of `generateToolResponse`: no tools, no token cap, not streamed. */
  function ToolRoundRequest(model: string, message: string, history: seq<Message>, calls: seq<WireCall>,
                            results: seq<ToolCall>, stringify: Json -> string): Request {
    Request(model, ToolRoundMessages(message, history, calls, results, stringify), [], false, NoLimit, false)
  }

  /** Every tool message of the tool round answers the call at the same position, by its id. */
  lemma ToolMessagesAnswerCalls(model: string, message: string, history: seq<Message>,
                                calls: seq<WireCall>, o: Oracles)
    ensures var results := ExecuteToolCalls(calls, o.parse, o.executeTool);
      var msgs := ToolRoundRequest(model, message, history, calls, results, o.stringify).messages;
      var n := Min(ToolRoundWindow, |history|);
      |msgs| == n + 3 + |calls|
      && msgs[n + 2].content.None? && msgs[n + 2].toolCalls == calls
      && forall i :: 0 <= i < |calls| ==> msgs[n + 3 + i].role == Tool && msgs[n + 3 + i].toolCallId == Some(calls[i].id)
  {
  }

  // ------------------------------------------------------------- outcomes

  /** What `processMessage` resolves to. */
  datatype Reply = Reply(content: string, toolCalls: Option<seq<ToolCall>>)

  /** `completion.choices[0]?.message?.content || ''` */
  function ReplyText(c: Completion): string {
    match c.message
    case Some(m) => m.content
    case None => ""
  }

  /** `generateToolResponse`: the tool-round completion, sent on the handler's client. */
  function GenerateToolResponse(client: Client, model: string, message: string, history: seq<Message>,
                                calls: seq<WireCall>, records: seq<ToolCall>, o: Oracles): Result<string, Fault>
  {
    match o.complete(client, ToolRoundRequest(model, message, history, calls, records, o.stringify))
    case Failure(e) => Failure(ProviderError(e))
    case Success(c) => Success(ReplyText(c))
  }

  /** Executing the calls, then `generateToolResponse`; the reply carries the executed records. */
  function ToolRound(client: Client, model: string, message: string, history: seq<Message>, calls: seq<WireCall>,
                     o: Oracles): Result<Reply, Fault>
  {
    var records := ExecuteToolCalls(calls, o.parse, o.executeTool);
    match GenerateToolResponse(client, model, message, history, calls, records, o)
    case Failure(e) => Failure(e)
    case Success(text) => Success(Reply(text, Some(records)))
  }

  /** The tool calls accumulated from a stream. */
  function StreamedCalls(s: Stream): seq<WireCall> {
    Finalize(Accumulate(Fragments(s.chunks)))
  }

  /** What `handleStreamResponse` resolves to. */
  function StreamOutcome(client: Client, model: string, message: string, history: seq<Message>, s: Stream,
                         o: Oracles): Result<Reply, Fault>
  {
    if s.broken then Failure(StreamInterrupted)
    else if |StreamedCalls(s)| > 0 then ToolRound(client, model, message, history, StreamedCalls(s), o)
    else Success(Reply(TextOf(s.chunks), None))
  }

  /** What `handleNonStreamResponse` resolves to. A present `tool_calls` array, even an empty one,
      leads to a tool round. */
  function NonStreamOutcome(client: Client, model: string, message: string, history: seq<Message>, c: Completion,
                            o: Oracles): Result<Reply, Fault>
  {
    match c.message
    case None => Success(Reply(EmptyResponseText, None))
    case Some(m) =>
      match m.toolCalls
      case Some(calls) => ToolRound(client, model, message, history, calls, o)
      case None => Success(Reply(m.content, None))
  }

  /** What `processMessage` resolves to, with the fragments it hands to `onChunk`. */
  function ProcessOutcome(client: Client, model: string, message: string, history: seq<Message>, streaming: bool,
                          o: Oracles): (Result<Reply, Fault>, seq<string>)
  {
    var request := FirstRequest(model, message, history, o.toolDefinitions, streaming);
    if streaming then
      match o.completeStream(client, request)
      case Failure(e) => (Failure(ProviderError(e)), [])
      case Success(s) => (StreamOutcome(client, model, message, history, s, o), Forwarded(s.chunks))
    else
      match o.complete(client, request)
      case Failure(e) => (Failure(ProviderError(e)), [])
      case Success(c) => (NonStreamOutcome(client, model, message, history, c, o), [])
  }

  /**
   * The final-content rule of a streamed turn: without tool calls the content is the accumulated
   * text; with tool calls it is the tool round's text, the streamed text is discarded, and the
   * executed records are attached, one per accumulated call with that call's id.
   */
  lemma StreamFinalContent(client: Client, model: string, message: string, history: seq<Message>, s: Stream, o: Oracles)
    requires !s.broken
    ensures (forall p :: 0 <= p < |Fragments(s.chunks)| ==> Fragments(s.chunks)[p].index.None?) ==>
      StreamOutcome(client, model, message, history, s, o) == Success(Reply(TextOf(s.chunks), None))
    ensures |StreamedCalls(s)| > 0 ==>
      var records := ExecuteToolCalls(StreamedCalls(s), o.parse, o.executeTool);
      match o.complete(client, ToolRoundRequest(model, message, history, StreamedCalls(s), records, o.stringify))
      case Success(c) =>
        StreamOutcome(client, model, message, history, s, o) == Success(Reply(ReplyText(c), Some(records)))
        && (forall i :: 0 <= i < |records| ==> records[i].id == StreamedCalls(s)[i].id)
      case Failure(e) => StreamOutcome(client, model, message, history, s, o) == Failure(ProviderError(e))
  {
    NoCallsIffNoIndexedFragment(Fragments(s.chunks));
  }

  /**
   * The final-content rule of a non-streamed turn: no message gives the fixed empty-response text;
   * a message without `tool_calls` gives its content ("" for a null content); a message with a
   * `tool_calls` array, even an empty one, gives the tool round's text with the executed records.
   */
  lemma NonStreamFinalContent(client: Client, model: string, message: string, history: seq<Message>,
                              c: Completion, o: Oracles)
    ensures c.message.None? ==>
      NonStreamOutcome(client, model, message, history, c, o) == Success(Reply("Node returned empty response.", None))
    ensures c.message.Some? && c.message.value.toolCalls.None? ==>
      NonStreamOutcome(client, model, message, history, c, o) == Success(Reply(c.message.value.content, None))
    ensures c.message.Some? && c.message.value.toolCalls.Some? ==>
      var calls := c.message.value.toolCalls.value;
      var records := ExecuteToolCalls(calls, o.parse, o.executeTool);
      match o.complete(client, ToolRoundRequest(model, message, history, calls, records, o.stringify))
      case Success(answer) =>
        NonStreamOutcome(client, model, message, history, c, o) == Success(Reply(ReplyText(answer), Some(records)))
      case Failure(e) => NonStreamOutcome(client, model, message, history, c, o) == Failure(ProviderError(e))
  {
  }

  /** The tool round (`executeToolCalls`, then `generateToolResponse`) is sent on the handler's
      client with its model. It fails exactly where that call throws, with the provider's error;
      otherwise the reply carries one executed record per call and the completion's text, which
      is "" when the completion has no message. */
  lemma ToolRoundOutcome(client: Client, model: string, message: string, history: seq<Message>,
                         calls: seq<WireCall>, o: Oracles)
    ensures var records := ExecuteToolCalls(calls, o.parse, o.executeTool);
      var answer := o.complete(client, ToolRoundRequest(model, message, history, calls, records, o.stringify));
      var r := ToolRound(client, model, message, history, calls, o);
      && GenerateToolResponse(client, model, message, history, calls, records, o).Success? == answer.Success?
      && (r.Failure? <==> answer.Failure?)
      && (r.Failure? ==> r.error == ProviderError(answer.error))
      && (r.Success? ==> r.value.toolCalls == Some(records) && |records| == |calls|)
      && (r.Success? && answer.value.message.None? ==> r.value.content == "")
  {
  }

  /** A streamed reply fails with `StreamInterrupted` exactly when the stream broke, and otherwise
      only with a provider error from the tool round; a successful reply carries tool records
      exactly when calls were accumulated, one record per call. */
  lemma StreamOutcomeFaults(client: Client, model: string, message: string, history: seq<Message>, s: Stream, o: Oracles)
    ensures var r := StreamOutcome(client, model, message, history, s, o);
      && (r == Failure(StreamInterrupted) <==> s.broken)
      && (r.Failure? && !s.broken ==> r.error.ProviderError?)
      && (r.Success? ==> (r.value.toolCalls.Some? <==> |StreamedCalls(s)| > 0))
      && (r.Success? && r.value.toolCalls.Some? ==> |r.value.toolCalls.value| == |StreamedCalls(s)|)
  {
  }

  /** Tool-level faults never fail a turn: a turn fails only when a completion call or the stream
      throws, so when the provider answers every request on the client the turn succeeds. A
      turn without `onChunk` forwards nothing. */
  lemma OnlyProviderFaultsFailTurn(client: Client, model: string, message: string, history: seq<Message>,
                                   streaming: bool, o: Oracles)
    ensures var (r, forwarded) := ProcessOutcome(client, model, message, history, streaming, o);
      && (r.Failure? ==> r.error.ProviderError? || r.error == StreamInterrupted)
      && (!streaming ==> forwarded == [])
    ensures (forall req :: o.complete(client, req).Success?) && (forall req :: o.completeStream(client, req).Success?)
      && (streaming ==> !o.completeStream(client, FirstRequest(model, message, history, o.toolDefinitions, true)).value.broken)
      ==> ProcessOutcome(client, model, message, history, streaming, o).0.Success?
  {
    if streaming {
      StreamedTurnFaults(client, model, message, history, o);
    } else {
      RequestedTurnFaults(client, model, message, history, o);
    }
  }

  /** The streamed half of `OnlyProviderFaultsFailTurn`. */
  lemma StreamedTurnFaults(client: Client, model: string, message: string, history: seq<Message>, o: Oracles)
    ensures var r := ProcessOutcome(client, model, message, history, true, o).0;
      r.Failure? ==> r.error.ProviderError? || r.error == StreamInterrupted
    ensures (forall req :: o.complete(client, req).Success?) && (forall req :: o.completeStream(client, req).Success?)
      && !o.completeStream(client, FirstRequest(model, message, history, o.toolDefinitions, true)).value.broken
      ==> ProcessOutcome(client, model, message, history, true, o).0.Success?
  {
    match o.completeStream(client, FirstRequest(model, message, history, o.toolDefinitions, true))
    case Failure(_) =>
    case Success(s) =>
      assert ProcessOutcome(client, model, message, history, true, o).0 == StreamOutcome(client, model, message, history, s, o);
      StreamSucceeds(client, model, message, history, s, o);
  }

  /** A stream that did not break fails only in the tool round, and not when the provider answers. */
  lemma StreamSucceeds(client: Client, model: string, message: string, history: seq<Message>, s: Stream, o: Oracles)
    ensures var r := StreamOutcome(client, model, message, history, s, o);
      r.Failure? ==> r.error.ProviderError? || r.error == StreamInterrupted
    ensures (forall req :: o.complete(client, req).Success?) && !s.broken
      ==> StreamOutcome(client, model, message, history, s, o).Success?
  {
  }

  /** The non-streamed half of `OnlyProviderFaultsFailTurn`. */
  lemma RequestedTurnFaults(client: Client, model: string, message: string, history: seq<Message>, o: Oracles)
    ensures var (r, forwarded) := ProcessOutcome(client, model, message, history, false, o);
      (r.Failure? ==> r.error.ProviderError?) && forwarded == []
    ensures (forall req :: o.complete(client, req).Success?)
      ==> ProcessOutcome(client, model, message, history, false, o).0.Success?
  {
  }

  // ---------------------------------------------------- provider settings

  /** The three settings a `ChatHandler` holds. */
  datatype Settings = Settings(baseUrl: string, apiKey: string, model: string)

  /** `updateConfig`'s field rule: a supplied, non-empty value replaces the current one. */
  function Merged(cur: Settings, c: ProviderConfig): Settings {
    Settings(OrElse(c.baseUrl, cur.baseUrl), OrElse(c.apiKey, cur.apiKey), OrElse(c.model, cur.model))
  }

  predicate Supplies(v: Option<string>, cur: string) {
    v.Some? && v.value != "" && v.value != cur
  }

  /** `changed` in `updateConfig`: some supplied non-empty field differs from the current value. */
  predicate Changed(cur: Settings, c: ProviderConfig) {
    Supplies(c.baseUrl, cur.baseUrl) || Supplies(c.apiKey, cur.apiKey) || Supplies(c.model, cur.model)
  }

  /** `updateConfig` throws: something changed and the merged settings are invalid. */
  predicate Rejects(cur: Settings, c: ProviderConfig) {
    Changed(cur, c) && !ValidConfig(Merged(cur, c).baseUrl, Merged(cur, c).apiKey)
  }

  /** The update `updateModel(m)` performs, as a config. */
  function ModelOnly(m: string): ProviderConfig {
    ProviderConfig(None, None, Some(m))
  }

  /** Each field is overwritten exactly when a non-empty different value is supplied, and the client
      is rebuilt exactly when the merge changes the settings. */
  lemma ChangedIffSettingsDiffer(cur: Settings, c: ProviderConfig)
    ensures Changed(cur, c) <==> Merged(cur, c) != cur
    ensures Merged(cur, c).baseUrl != cur.baseUrl <==> Supplies(c.baseUrl, cur.baseUrl)
    ensures Merged(cur, c).apiKey != cur.apiKey <==> Supplies(c.apiKey, cur.apiKey)
    ensures Merged(cur, c).model != cur.model <==> Supplies(c.model, cur.model)
  {
  }

  /** `updateConfig({})` changes nothing and rebuilds nothing. */
  lemma EmptyUpdateIsNoOp(cur: Settings)
    ensures Merged(cur, NoConfig) == cur && !Changed(cur, NoConfig) && !Rejects(cur, NoConfig)
  {
  }

  /** Repeating an update changes nothing the second time, so it never rebuilds the client twice;
      even a repeat of a rejected update is accepted silently. */
  lemma RepeatedUpdateIsNoOp(cur: Settings, c: ProviderConfig)
    ensures Merged(Merged(cur, c), c) == Merged(cur, c)
    ensures !Changed(Merged(cur, c), c) && !Rejects(Merged(cur, c), c)
  {
  }

  /** `updateModel` follows the same rule for the model alone. */
  lemma ModelOnlyRule(cur: Settings, m: string)
    ensures Changed(cur, ModelOnly(m)) <==> m != "" && m != cur.model
    ensures Merged(cur, ModelOnly(m)) == (if m != "" then cur.(model := m) else cur)
  {
  }

  /** One iteration of the loop over `delta.tool_calls`: a fragment with an index creates the entry
      for it (given its id and name) or extends the existing one by its arguments. */
  method MergeFragment(toolCallMap: map<int, PartialCall>, order: seq<int>, tc: ToolFragment)
    returns (newMap: map<int, PartialCall>, newOrder: seq<int>)
    ensures Accumulation(newMap, newOrder) == Absorb(Accumulation(toolCallMap, order), tc)
  {
    newMap, newOrder := toolCallMap, order;
    if tc.index.Some? {
      var k := tc.index.value;
      var entry: PartialCall;
      if k in newMap {
        entry := newMap[k];
      } else {
        entry := PartialCall(tc.id, tc.name, "");
        newOrder := newOrder + [k];
      }
      if tc.arguments != "" {
        entry := entry.(arguments := entry.arguments + tc.arguments);
      } else {
        assert entry.arguments + tc.arguments == entry.arguments;
      }
      if k in toolCallMap {
        assert entry == toolCallMap[k].(arguments := toolCallMap[k].arguments + tc.arguments);
      } else {
        assert entry == PartialCall(tc.id, tc.name, tc.arguments);
      }
      newMap := newMap[k := entry];
    }
  }

  /** The loop over one chunk's `delta.tool_calls`: the map grows by exactly those fragments. */
  method MergeFragments(toolCallMap: map<int, PartialCall>, order: seq<int>, tcs: seq<ToolFragment>,
                        ghost before: seq<ToolFragment>)
    returns (newMap: map<int, PartialCall>, newOrder: seq<int>)
    requires Accumulation(toolCallMap, order) == Accumulate(before)
    ensures Accumulation(newMap, newOrder) == Accumulate(before + tcs)
  {
    newMap, newOrder := toolCallMap, order;
    var j := 0;
    assert before + tcs[..0] == before;
    while j < |tcs|
      invariant 0 <= j <= |tcs|
      invariant Accumulation(newMap, newOrder) == Accumulate(before + tcs[..j])
    {
      assert before + tcs[..j + 1] == (before + tcs[..j]) + [tcs[j]];
      AccumulateSnoc(before + tcs[..j], tcs[j]);
      newMap, newOrder := MergeFragment(newMap, newOrder, tcs[j]);
      j := j + 1;
    }
    assert tcs[..j] == tcs;
  }

  class ChatHandler {
    var baseUrl: string
    var apiKey: string
    var model: string
    /** The OpenAI client every request is sent on. */
    var client: Client
    /** The number of OpenAI clients this handler has constructed. */
    ghost var generation: nat

    function Current(): Settings
      reads this
    {
      Settings(baseUrl, apiKey, model)
    }

    /** The constructor after its validity check has passed. */
    constructor (baseUrl: string, apiKey: string, model: string)
      requires ValidConfig(baseUrl, apiKey)
      ensures Current() == Settings(baseUrl, apiKey, model)
      ensures generation == 1 && client == Client(baseUrl, apiKey)
    {
      this.baseUrl := baseUrl;
      this.apiKey := apiKey;
      this.model := model;
      generation := 1;
      client := Client(baseUrl, apiKey);
    }

    /** `new ChatHandler(...)`: `None` where the constructor throws, and then no client exists. */
    static method Create(defaultBaseUrl: string, defaultApiKey: string, model: string) returns (h: Option<ChatHandler>)
      ensures h.Some? <==> ValidConfig(defaultBaseUrl, defaultApiKey)
      ensures h.Some? ==> (fresh(h.value)
                           && h.value.Current() == Settings(defaultBaseUrl, defaultApiKey, model)
                           && h.value.generation == 1
                           && h.value.client == Client(defaultBaseUrl, defaultApiKey))
    {
      if !ValidConfig(defaultBaseUrl, defaultApiKey) {
        return None;
      }
      var handler := new ChatHandler(defaultBaseUrl, defaultApiKey, model);
      h := Some(handler);
    }

    /** The field updates of `updateConfig`: each supplied, non-empty, different value is taken,
        and `changed` records whether any was. The client is not touched. */
    method MergeFields(config: ProviderConfig) returns (changed: bool)
      modifies this`baseUrl, this`apiKey, this`model
      ensures Current() == Merged(old(Current()), config)
      ensures changed == Changed(old(Current()), config)
    {
      changed := false;
      if config.baseUrl.Some? && config.baseUrl.value != "" && config.baseUrl.value != baseUrl {
        baseUrl := config.baseUrl.value;
        changed := true;
      }
      if config.apiKey.Some? && config.apiKey.value != "" && config.apiKey.value != apiKey {
        apiKey := config.apiKey.value;
        changed := true;
      }
      if config.model.Some? && config.model.value != "" && config.model.value != model {
        model := config.model.value;
        changed := true;
      }
    }

    /** `updateConfig(config)`; `ok` is false where it throws, after the fields were overwritten. */
    method UpdateConfig(config: ProviderConfig) returns (ok: bool)
      modifies this
      ensures Current() == Merged(old(Current()), config)
      ensures ok <==> !Rejects(old(Current()), config)
      ensures var rebuilt := Changed(old(Current()), config) && ok;
        && generation == old(generation) + (if rebuilt then 1 else 0)
        && client == if rebuilt then Client(baseUrl, apiKey) else old(client)
    {
      var changed := MergeFields(config);
      ok := true;
      if changed {
        if !ValidConfig(baseUrl, apiKey) {
          return false;
        }
        generation := generation + 1;
        client := Client(baseUrl, apiKey);
      }
    }

    /** `updateModel(newModel)`: the same rule for the model alone; the rebuild does not validate. */
    method UpdateModel(newModel: string)
      modifies this
      ensures Current() == Merged(old(Current()), ModelOnly(newModel))
      ensures var rebuilt := Changed(old(Current()), ModelOnly(newModel));
        && generation == old(generation) + (if rebuilt then 1 else 0)
        && client == if rebuilt then Client(baseUrl, apiKey) else old(client)
    {
      if newModel == "" {
        return;
      }
      if newModel != model {
        model := newModel;
        generation := generation + 1;
        client := Client(baseUrl, apiKey);
      }
    }

    /** `processMessage(message, history, onChunk?)`: `streaming` is whether `onChunk` was given,
        and `forwarded` the fragments it received, none without a callback. */
    method ProcessMessage(message: string, history: seq<Message>, streaming: bool, o: Oracles)
      returns (outcome: Result<Reply, Fault>, forwarded: seq<string>)
      ensures (outcome, forwarded) == ProcessOutcome(client, model, message, history, streaming, o)
      ensures !streaming ==> forwarded == []
    {
      var request := FirstRequest(model, message, history, o.toolDefinitions, streaming);
      if streaming {
        match o.completeStream(client, request)
        case Failure(e) =>
          outcome, forwarded := Failure(ProviderError(e)), [];
        case Success(s) =>
          outcome, forwarded := HandleStreamResponse(s, message, history, o);
      } else {
        match o.complete(client, request)
        case Failure(e) =>
          outcome, forwarded := Failure(ProviderError(e)), [];
        case Success(c) =>
          outcome, forwarded := NonStreamOutcome(client, model, message, history, c, o), [];
      }
    }

    /**
     * `handleStreamResponse`: the loop over the stream. `forwarded` lists what `onChunk` received,
     * in order; it spells out the accumulated text exactly.
     */
    method HandleStreamResponse(s: Stream, message: string, history: seq<Message>, o: Oracles)
      returns (outcome: Result<Reply, Fault>, forwarded: seq<string>)
      ensures outcome == StreamOutcome(client, model, message, history, s, o)
      ensures forwarded == Forwarded(s.chunks)
      ensures Concat(forwarded) == TextOf(s.chunks) && forall i :: 0 <= i < |forwarded| ==> forwarded[i] != ""
    {
      var fullContent := "";
      forwarded := [];
      var toolCallMap: map<int, PartialCall> := map[];
      var order: seq<int> := [];
      var i := 0;
      while i < |s.chunks|
        invariant 0 <= i <= |s.chunks|
        invariant fullContent == TextOf(s.chunks[..i])
        invariant forwarded == Forwarded(s.chunks[..i])
        invariant Accumulation(toolCallMap, order) == Accumulate(Fragments(s.chunks[..i]))
      {
        var chunk := s.chunks[i];
        assert s.chunks[..i + 1][..i] == s.chunks[..i];
        if chunk.content != "" {
          fullContent := fullContent + chunk.content;
          forwarded := forwarded + [chunk.content];
        }
        toolCallMap, order := MergeFragments(toolCallMap, order, chunk.toolCalls, Fragments(s.chunks[..i]));
        i := i + 1;
      }
      assert s.chunks[..i] == s.chunks;
      ForwardedSpellsText(s.chunks);
      assert fullContent == TextOf(s.chunks);
      var accumulated := Finalize(Accumulation(toolCallMap, order));
      assert accumulated == StreamedCalls(s);
      if s.broken {
        outcome := Failure(StreamInterrupted);
      } else if |accumulated| > 0 {
        var executed := ExecuteToolCalls(accumulated, o.parse, o.executeTool);
        var finalResponse := GenerateToolResponse(client, model, message, history, accumulated, executed, o);
        match finalResponse
        case Failure(e) =>
          outcome := Failure(e);
        case Success(text) =>
          outcome := Success(Reply(text, Some(executed)));
      } else {
        outcome := Success(Reply(fullContent, None));
      }
    }
  }
}
