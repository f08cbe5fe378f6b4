/**
 * The per-session agent of worker/agent.ts: the `ChatAgent` class owns the session snapshot and
 * the `ChatHandler`, and replaces the snapshot step by step (`setState`). Every `setState` and
 * every write to the streamed response is recorded, in order, in the ghost `trace`.
 */
module Agent {
  import opened Wrappers
  import opened Strings
  import opened Types
  import opened Chat

  const DefaultModel := "@cf/meta/llama-3.1-8b-instruct"
  /** `initialState` */
  const InitialState := ChatState([], "", false, DefaultModel, NoConfig, None)
  const StreamErrorText := "Error processing stream."

  /** `CF_AI_BASE_URL` and `CF_AI_API_KEY`; an unset variable is the empty string. */
  datatype Env = Env(cfAiBaseUrl: string, cfAiApiKey: string)

  /** The body of `POST /chat`; an omitted `message` or `model` is the empty string. */
  datatype ChatRequest = ChatRequest(message: string, stream: bool, model: string)

  /** The `API_RESPONSES` messages the agent answers with. */
  datatype ApiError = MissingMessage | ProcessingError | NotFound

  datatype Response =
    | Ok(data: ChatState)                  // `{ success: true, data: this.state }`
    | Error(status: nat, error: ApiError)  // `{ success: false, error }` with that status
    | StreamBody(chunks: seq<string>)      // the streamed response: every chunk written to it
    | Rejected                             // the request handler threw

  /** The routes of `onRequest`, with their parsed bodies. */
  datatype Route =
    | GetMessagesRoute
    | PostChat(body: ChatRequest)
    | PostConfigRoute(config: ProviderConfig)
    | DeleteClear
    | OtherRoute

  /** What an observer of the session sees: a published snapshot, a chunk written, the end of the stream. */
  datatype Event = Published(state: ChatState) | Wrote(chunk: string) | Closed

  /** The settings `onStart` hands to `new ChatHandler`: each stored config value, or, when it
      is omitted or empty, the environment default for the base URL and key and the session's
      `model` for the model. */
  function EffectiveSettings(config: ProviderConfig, model: string, env: Env): (r: Settings)
    ensures config.baseUrl.Some? && config.baseUrl.value != "" ==> r.baseUrl == config.baseUrl.value
    ensures config.baseUrl.None? || config.baseUrl.value == "" ==> r.baseUrl == env.cfAiBaseUrl
    ensures config.apiKey.Some? && config.apiKey.value != "" ==> r.apiKey == config.apiKey.value
    ensures config.apiKey.None? || config.apiKey.value == "" ==> r.apiKey == env.cfAiApiKey
    ensures config.model.Some? && config.model.value != "" ==> r.model == config.model.value
    ensures config.model.None? || config.model.value == "" ==> r.model == model
  {
    Settings(OrElse(config.baseUrl, env.cfAiBaseUrl), OrElse(config.apiKey, env.cfAiApiKey), OrElse(config.model, model))
  }

  /** What `processMessage` resolves to on the handler's client and model; a missing handler
      fails the turn before anything is sent (`this.chatHandler!` throws). */
  function TurnOutcome(target: Option<(Client, string)>, message: string, history: seq<Message>, streaming: bool,
                       o: Oracles): (Result<Reply, Fault>, seq<string>)
  {
    match target
    case None => (Failure(NoHandler), [])
    case Some((client, model)) => ProcessOutcome(client, model, message, history, streaming, o)
  }

  /** `{ ...current, ...update }`: a provided field overwrites, an omitted one is kept. */
  function MergeConfig(current: ProviderConfig, update: ProviderConfig): ProviderConfig {
    ProviderConfig(
      if update.baseUrl.Some? then update.baseUrl else current.baseUrl,
      if update.apiKey.Some? then update.apiKey else current.apiKey,
      if update.model.Some? then update.model else current.model)
  }

  /** The laws of the object spread `/config` relies on: `{}` is neutral, posting the same body
      twice is posting it once, a later body wins field by field, and a field the body omits is
      kept while one it provides, even as "", is taken. */
  lemma MergeConfigLaws(c: ProviderConfig, u: ProviderConfig, v: ProviderConfig)
    ensures MergeConfig(c, NoConfig) == c
    ensures MergeConfig(MergeConfig(c, u), u) == MergeConfig(c, u)
    ensures MergeConfig(MergeConfig(c, u), v) == MergeConfig(c, MergeConfig(u, v))
    ensures u.baseUrl.None? ==> MergeConfig(c, u).baseUrl == c.baseUrl
    ensures u.apiKey.None? ==> MergeConfig(c, u).apiKey == c.apiKey
    ensures u.model.None? ==> MergeConfig(c, u).model == c.model
    ensures u.baseUrl.Some? ==> MergeConfig(c, u).baseUrl == u.baseUrl
    ensures u.apiKey.Some? ==> MergeConfig(c, u).apiKey == u.apiKey
    ensures u.model.Some? ==> MergeConfig(c, u).model == u.model
  {
  }

  /** The snapshot `/config` publishes: the merged config, and the model replaced by a
      non-empty requested one. */
  function ConfigPosted(s: ChatState, config: ProviderConfig): ChatState {
    s.(config := MergeConfig(s.config, config), model := OrElse(config.model, s.model))
  }

  /** Posting `{}` leaves the snapshot as it was, and posting the same body again publishes the
      same snapshot; only the config and the model are ever touched. */
  lemma ConfigPostLaws(s: ChatState, config: ProviderConfig)
    ensures ConfigPosted(s, NoConfig) == s
    ensures ConfigPosted(ConfigPosted(s, config), config) == ConfigPosted(s, config)
    ensures var t := ConfigPosted(s, config);
      t.messages == s.messages && t.sessionId == s.sessionId && t.isProcessing == s.isProcessing
      && t.streamingMessage == s.streamingMessage
  {
    MergeConfigLaws(s.config, config, config);
  }

  /** The config `/config` passes to `updateConfig`: the stored values with the environment fallback. */
  function HandlerUpdate(stored: ProviderConfig, newModel: string, env: Env): ProviderConfig {
    ProviderConfig(Some(OrElse(stored.baseUrl, env.cfAiBaseUrl)), Some(OrElse(stored.apiKey, env.cfAiApiKey)), Some(newModel))
  }

  /** The effective settings fall back field by field the same way on start and on a config update:
      an accepted update leaves the handler with the settings a restart would compute, wherever
      those are non-empty. */
  lemma UpdateMatchesStart(cur: Settings, stored: ProviderConfig, newModel: string, env: Env)
    requires newModel != ""
    ensures var eff := EffectiveSettings(stored, newModel, env);
      var m := Merged(cur, HandlerUpdate(stored, newModel, env));
      && (eff.baseUrl != "" ==> m.baseUrl == eff.baseUrl)
      && (eff.apiKey != "" ==> m.apiKey == eff.apiKey)
      && m.model == newModel
  {
  }

  /** A model chosen in a `/chat` request is recorded in `model` only; while the stored config
      names another model, a restart goes back to the stored one. */
  lemma RestartPrefersStoredModel(s: ChatState, requested: string, env: Env)
    requires s.config.model.Some? && s.config.model.value != ""
    requires requested != "" && requested != s.config.model.value
    ensures EffectiveSettings(s.config, WithModel(s, requested).model, env).model != WithModel(s, requested).model
  {
  }

  function UserMessage(text: string): Message {
    Message(User, Trim(text), None)
  }

  function AssistantMessage(reply: Reply): Message {
    Message(Assistant, reply.content, reply.toolCalls)
  }

  /** The snapshot after a request's `model` is applied: only a non-empty, different model counts. */
  function WithModel(s: ChatState, requested: string): ChatState {
    if requested != "" && requested != s.model then s.(model := requested) else s
  }

  /** The snapshot once a turn is admitted: the trimmed user message appended, processing set. */
  function Admitted(s: ChatState, body: ChatRequest): ChatState {
    var m := WithModel(s, body.model);
    m.(messages := m.messages + [UserMessage(body.message)], isProcessing := true)
  }

  /** The snapshot a non-streamed turn ends with. */
  function RequestFinal(admitted: ChatState, outcome: Result<Reply, Fault>): ChatState {
    match outcome
    case Success(reply) => admitted.(messages := admitted.messages + [AssistantMessage(reply)], isProcessing := false)
    case Failure(_) => admitted.(isProcessing := false)
  }

  /** The snapshot a streamed turn ends with. */
  function StreamFinal(admitted: ChatState, outcome: Result<Reply, Fault>): ChatState {
    match outcome
    case Success(reply) =>
      admitted.(messages := admitted.messages + [AssistantMessage(reply)], isProcessing := false, streamingMessage := Some(""))
    case Failure(_) => admitted.(isProcessing := false, streamingMessage := Some(""))
  }

  /** A turn adds the user message and, exactly when it succeeds, one assistant message; it always
      ends idle; it touches neither the config nor the session id, and the model only as requested. */
  lemma TurnAppendsUserThenAssistant(s: ChatState, body: ChatRequest, outcome: Result<Reply, Fault>)
    ensures var a := Admitted(s, body);
      forall f :: f == RequestFinal(a, outcome) || f == StreamFinal(a, outcome) ==>
        && f.messages == s.messages + [Message(User, Trim(body.message), None)]
                         + (if outcome.Success? then [Message(Assistant, outcome.value.content, outcome.value.toolCalls)] else [])
        && !f.isProcessing
        && f.config == s.config && f.sessionId == s.sessionId
        && f.model == (if body.model != "" && body.model != s.model then body.model else s.model)
    ensures StreamFinal(Admitted(s, body), outcome).streamingMessage == Some("")
    ensures RequestFinal(Admitted(s, body), outcome).streamingMessage == s.streamingMessage
  {
  }

  /** The events of streaming `chunks` after the buffer was reset in `start`: for each chunk, the
      snapshot with the grown buffer, then the write. */
  ghost function ChunkEvents(start: ChatState, chunks: seq<string>): seq<Event> {
    if chunks == [] then []
    else
      (ChunkEvents(start, chunks[..|chunks| - 1])
       + [Published(start.(streamingMessage := Some(Concat(chunks)))), Wrote(chunks[|chunks| - 1])])
  }

  /** Chunk `k` is written right after a snapshot whose buffer holds every chunk up to and including
      it: the buffer never lags behind, and never runs ahead of, what was sent. */
  lemma {:induction false} BufferLeadsSink(start: ChatState, chunks: seq<string>, k: nat)
    requires k < |chunks|
    ensures |ChunkEvents(start, chunks)| == 2 * |chunks|
    ensures ChunkEvents(start, chunks)[2 * k] == Published(start.(streamingMessage := Some(Concat(chunks[..k + 1]))))
    ensures ChunkEvents(start, chunks)[2 * k + 1] == Wrote(chunks[k])
  {
    var init := chunks[..|chunks| - 1];
    if k < |init| {
      BufferLeadsSink(start, init, k);
      assert init[..k + 1] == chunks[..k + 1];
    } else {
      assert chunks[..k + 1] == chunks;
      if init != [] {
        BufferLeadsSink(start, init, 0);
      }
    }
  }

  /** What follows the chunks: the commit, or the error text and the reset. */
  ghost function StreamTail(mid: ChatState, outcome: Result<Reply, Fault>): seq<Event> {
    match outcome
    case Success(reply) =>
      [Published(mid.(messages := mid.messages + [AssistantMessage(reply)], isProcessing := false, streamingMessage := Some("")))]
    case Failure(_) =>
      [Wrote(StreamErrorText), Published(mid.(isProcessing := false, streamingMessage := Some("")))]
  }

  /** What follows the buffer reset in `start`: the relayed chunks, the tail, the close. */
  ghost function ReplayEvents(start: ChatState, outcome: Result<Reply, Fault>, forwarded: seq<string>): seq<Event> {
    ChunkEvents(start, forwarded) + StreamTail(start.(streamingMessage := Some(Concat(forwarded))), outcome) + [Closed]
  }

  /** The snapshot published when a request chooses a new model, if it does. */
  ghost function ModelEvents(s: ChatState, requested: string): seq<Event> {
    if requested != "" && requested != s.model then [Published(WithModel(s, requested))] else []
  }

  /** The snapshot with the streaming buffer reset. */
  function Reset(s: ChatState): ChatState {
    s.(streamingMessage := Some(""))
  }

  class ChatAgent {
    var state: ChatState
    var handler: ChatHandler?
    const env: Env
    ghost var trace: seq<Event>

    /** The agent as the host creates it: the stored snapshot, or `initialState` for a new session. */
    constructor (env: Env, stored: Option<ChatState>)
      ensures this.env == env && state == stored.GetOr(InitialState) && handler == null && trace == []
    {
      this.env := env;
      state := stored.GetOr(InitialState);
      handler := null;
      trace := [];
    }

    /** The client and model a turn is sent with; `None` when there is no handler. */
    function Target(): Option<(Client, string)>
      reads this`handler, handler
    {
      if handler == null then None else Some((handler.client, handler.model))
    }

    /** `setState(s)` */
    method Publish(s: ChatState)
      modifies this`state, this`trace
      ensures state == s && trace == old(trace) + [Published(s)]
    {
      state := s;
      trace := trace + [Published(s)];
    }

    /** `onStart`: builds the handler from the effective settings; `ok` is false where the
        constructor throws, and then the handler is left as it was. */
    method OnStart() returns (ok: bool)
      modifies this`handler
      ensures var eff := EffectiveSettings(state.config, state.model, env);
        && (ok <==> ValidConfig(eff.baseUrl, eff.apiKey))
        && (ok ==> handler != null && fresh(handler) && handler.Current() == eff && handler.generation == 1
                   && handler.client == Client(eff.baseUrl, eff.apiKey))
        && (!ok ==> handler == old(handler))
    {
      var config := state.config;
      var baseUrl := OrElse(config.baseUrl, env.cfAiBaseUrl);
      var apiKey := OrElse(config.apiKey, env.cfAiApiKey);
      var model := OrElse(config.model, state.model);
      var created := ChatHandler.Create(baseUrl, apiKey, model);
      ok := created.Some?;
      if ok {
        handler := created.value;
      }
    }

    /** `POST /config`: the stored config and model are recorded first, then the handler is
        updated with the environment fallback; if that throws the request is rejected, but the
        stored values stay. */
    method PostConfig(config: ProviderConfig) returns (r: Response)
      modifies this`state, this`trace, handler
      ensures state == ConfigPosted(old(state), config)
      ensures trace == old(trace) + [Published(state)]
      ensures handler != null ==>
        var update := HandlerUpdate(state.config, state.model, env);
        var rebuilt := Changed(old(handler.Current()), update) && !Rejects(old(handler.Current()), update);
        && handler.Current() == Merged(old(handler.Current()), update)
        && handler.generation == old(handler.generation) + (if rebuilt then 1 else 0)
        && handler.client == if rebuilt then Client(handler.baseUrl, handler.apiKey) else old(handler.client)
      ensures r == if handler != null && Rejects(old(handler.Current()), HandlerUpdate(state.config, state.model, env))
                   then Rejected else Ok(state)
    {
      var updatedConfig := MergeConfig(state.config, config);
      var newModel := OrElse(config.model, state.model);
      Publish(state.(config := updatedConfig, model := newModel));
      if handler != null {
        var ok := handler.UpdateConfig(HandlerUpdate(updatedConfig, newModel, env));
        if !ok {
          return Rejected;
        }
      }
      r := Ok(state);
    }

    /** `DELETE /clear`: the history is emptied and nothing else changes. */
    method Clear() returns (r: Response)
      modifies this`state, this`trace
      ensures state == old(state).(messages := [])
      ensures trace == old(trace) + [Published(state)]
      ensures r == Ok(state)
    {
      Publish(state.(messages := []));
      r := Ok(state);
    }

    /** `this.chatHandler!.processMessage(...)` */
    method Dispatch(message: string, history: seq<Message>, streaming: bool, o: Oracles)
      returns (outcome: Result<Reply, Fault>, forwarded: seq<string>)
      ensures (outcome, forwarded) == TurnOutcome(Target(), message, history, streaming, o)
    {
      if handler == null {
        outcome, forwarded := Failure(NoHandler), [];
      } else {
        outcome, forwarded := handler.ProcessMessage(message, history, streaming, o);
      }
    }

    /** The `onChunk` callback replayed: each forwarded fragment grows the buffer, then is written. */
    method Relay(forwarded: seq<string>) returns (written: seq<string>)
      requires state.streamingMessage == Some("")
      modifies this`state, this`trace
      ensures state == old(state).(streamingMessage := Some(Concat(forwarded)))
      ensures trace == old(trace) + ChunkEvents(old(state), forwarded)
      ensures written == forwarded
    {
      ghost var start := state;
      written := [];
      var i := 0;
      while i < |forwarded|
        invariant 0 <= i <= |forwarded|
        invariant state == start.(streamingMessage := Some(Concat(forwarded[..i])))
        invariant trace == old(trace) + ChunkEvents(start, forwarded[..i])
        invariant written == forwarded[..i]
      {
        var chunk := forwarded[i];
        assert forwarded[..i + 1][..i] == forwarded[..i];
        Publish(state.(streamingMessage := Some(state.streamingMessage.GetOr("") + chunk)));
        trace := trace + [Wrote(chunk)];
        written := written + [chunk];
        i := i + 1;
      }
      assert forwarded[..i] == forwarded;
    }

    /** The end of a streamed turn: commit the reply, or write the error text; then close. */
    method Conclude(outcome: Result<Reply, Fault>) returns (tail: seq<string>)
      modifies this`state, this`trace
      ensures state == StreamFinal(old(state), outcome)
      ensures trace == old(trace) + StreamTail(old(state), outcome) + [Closed]
      ensures tail == if outcome.Failure? then [StreamErrorText] else []
    {
      match outcome {
        case Success(reply) =>
          Publish(state.(messages := state.messages + [AssistantMessage(reply)], isProcessing := false, streamingMessage := Some("")));
          tail := [];
        case Failure(_) =>
          trace := trace + [Wrote(StreamErrorText)];
          Publish(state.(isProcessing := false, streamingMessage := Some("")));
          tail := [StreamErrorText];
      }
      trace := trace + [Closed];
    }

    /** The streamed turn after the buffer reset: relay the fragments, then conclude. */
    method Replay(outcome: Result<Reply, Fault>, forwarded: seq<string>) returns (written: seq<string>)
      requires state.streamingMessage == Some("")
      modifies this`state, this`trace
      ensures state == StreamFinal(old(state), outcome)
      ensures trace == old(trace) + ReplayEvents(old(state), outcome, forwarded)
      ensures written == forwarded + (if outcome.Failure? then [StreamErrorText] else [])
    {
      ghost var t0 := trace;
      written := Relay(forwarded);
      ghost var t1 := trace;
      var tail := Conclude(outcome);
      written := written + tail;
      assert trace == t1 + StreamTail(old(state).(streamingMessage := Some(Concat(forwarded))), outcome) + [Closed];
    }

    /** The streamed branch of `handleChatMessage`, run to completion: the buffer is reset, the
        forwarded fragments are relayed, and the turn is committed or reported as failed;
        `written` is everything sent on the stream. */
    method StreamTurn(message: string, history: seq<Message>, o: Oracles) returns (written: seq<string>)
      modifies this`state, this`trace
      ensures var turn := TurnOutcome(Target(), message, history, true, o);
        && state == StreamFinal(old(state), turn.0)
        && trace == old(trace) + [Published(Reset(old(state)))] + ReplayEvents(Reset(old(state)), turn.0, turn.1)
        && written == turn.1 + (if turn.0.Failure? then [StreamErrorText] else [])
    {
      Publish(Reset(state));
      var outcome, forwarded := Dispatch(message, history, true, o);
      written := Replay(outcome, forwarded);
    }

    /** A request's model choice: a non-empty model that differs from the session's is published
        and handed to the handler's `updateModel`. */
    method ApplyModel(requested: string)
      modifies this`state, this`trace, handler
      ensures handler == old(handler)
      ensures state == WithModel(old(state), requested)
      ensures trace == old(trace) + ModelEvents(old(state), requested)
      ensures handler != null ==>
        var update := if requested != "" && requested != old(state).model then ModelOnly(requested) else NoConfig;
        && handler.Current() == Merged(old(handler.Current()), update)
        && handler.generation == old(handler.generation) + (if Changed(old(handler.Current()), update) then 1 else 0)
        && handler.client == if Changed(old(handler.Current()), update) then Client(handler.baseUrl, handler.apiKey) else old(handler.client)
    {
      if requested != "" && requested != state.model {
        Publish(state.(model := requested));
        if handler != null {
          handler.UpdateModel(requested);
        }
      } else {
        assert handler != null ==> !Changed(handler.Current(), NoConfig);
        assert trace + [] == trace;
      }
    }

    /** The admission part of `handleChatMessage` for a non-blank message: the requested model
        is applied to the snapshot and to the handler, then the user message is appended;
        `history` is `this.state.messages.slice(0, -1)` taken afterwards, the history before it. */
    method Admit(body: ChatRequest) returns (history: seq<Message>)
      modifies this`state, this`trace, handler
      ensures handler == old(handler)
      ensures state == Admitted(old(state), body)
      ensures trace == old(trace) + ModelEvents(old(state), body.model) + [Published(state)]
      ensures history == old(state).messages
      ensures handler != null ==>
        var update := if body.model != "" && body.model != old(state).model then ModelOnly(body.model) else NoConfig;
        && handler.Current() == Merged(old(handler.Current()), update)
        && handler.generation == old(handler.generation) + (if Changed(old(handler.Current()), update) then 1 else 0)
        && handler.client == if Changed(old(handler.Current()), update) then Client(handler.baseUrl, handler.apiKey) else old(handler.client)
    {
      ApplyModel(body.model);
      Publish(state.(messages := state.messages + [UserMessage(body.message)], isProcessing := true));
      history := state.messages[..|state.messages| - 1];
    }

    /** The non-streamed branch of `handleChatMessage`: commit the reply, or answer 500. */
    method RequestTurn(message: string, history: seq<Message>, o: Oracles) returns (r: Response)
      modifies this`state, this`trace
      ensures var (outcome, _) := TurnOutcome(Target(), message, history, false, o);
        && state == RequestFinal(old(state), outcome)
        && trace == old(trace) + [Published(state)]
        && r == (if outcome.Success? then Ok(state) else Error(500, ProcessingError))
    {
      var outcome, _ := Dispatch(message, history, false, o);
      match outcome
      case Success(reply) =>
        Publish(state.(messages := state.messages + [AssistantMessage(reply)], isProcessing := false));
        r := Ok(state);
      case Failure(_) =>
        Publish(state.(isProcessing := false));
        r := Error(500, ProcessingError);
    }

    /** A streamed `/chat` turn after the blank check: admission, then the streamed branch, with
        the history as it was before the user message. */
    method ChatStreamed(body: ChatRequest, o: Oracles) returns (r: Response)
      modifies this`state, this`trace, handler
      ensures handler == old(handler)
      ensures handler != null ==>
        var update := if body.model != "" && body.model != old(state).model then ModelOnly(body.model) else NoConfig;
        && handler.Current() == Merged(old(handler.Current()), update)
        && handler.generation == old(handler.generation) + (if Changed(old(handler.Current()), update) then 1 else 0)
        && handler.client == if Changed(old(handler.Current()), update) then Client(handler.baseUrl, handler.apiKey) else old(handler.client)
      ensures var admitted := Admitted(old(state), body);
        var turn := TurnOutcome(Target(), body.message, old(state).messages, true, o);
        && state == StreamFinal(admitted, turn.0)
        && trace == old(trace) + ModelEvents(old(state), body.model) + [Published(admitted)]
                    + [Published(Reset(admitted))] + ReplayEvents(Reset(admitted), turn.0, turn.1)
        && r == StreamBody(turn.1 + (if turn.0.Failure? then [StreamErrorText] else []))
    {
      var history := Admit(body);
      var written := StreamTurn(body.message, history, o);
      r := StreamBody(written);
    }

    /** A non-streamed `/chat` turn after the blank check: admission, then the request branch. */
    method ChatRequested(body: ChatRequest, o: Oracles) returns (r: Response)
      modifies this`state, this`trace, handler
      ensures handler == old(handler)
      ensures handler != null ==>
        var update := if body.model != "" && body.model != old(state).model then ModelOnly(body.model) else NoConfig;
        && handler.Current() == Merged(old(handler.Current()), update)
        && handler.generation == old(handler.generation) + (if Changed(old(handler.Current()), update) then 1 else 0)
        && handler.client == if Changed(old(handler.Current()), update) then Client(handler.baseUrl, handler.apiKey) else old(handler.client)
      ensures var admitted := Admitted(old(state), body);
        var turn := TurnOutcome(Target(), body.message, old(state).messages, false, o);
        && state == RequestFinal(admitted, turn.0)
        && trace == old(trace) + ModelEvents(old(state), body.model) + [Published(admitted)] + [Published(state)]
        && r == (if turn.0.Success? then Ok(state) else Error(500, ProcessingError))
    {
      var history := Admit(body);
      r := RequestTurn(body.message, history, o);
    }

    /**
     * `POST /chat` (`handleChatMessage`), with the streamed turn run to completion. A blank
     * message is refused before anything changes. Otherwise the requested model is applied, the
     * trimmed user message is appended, and the handler gets the history without it (and the
     * message as sent, untrimmed); the turn then commits one assistant message or fails, and
     * always ends idle. There is no check that another turn is in progress.
     */
    method HandleChatMessage(body: ChatRequest, o: Oracles) returns (r: Response)
      modifies this`state, this`trace, handler
      ensures handler == old(handler)
      ensures Trim(body.message) == "" ==>
        && r == Error(400, MissingMessage)
        && state == old(state) && trace == old(trace)
        && (handler != null ==> handler.Current() == old(handler.Current()) && handler.generation == old(handler.generation)
                                && handler.client == old(handler.client))
      ensures Trim(body.message) != "" && handler != null ==>
        var update := if body.model != "" && body.model != old(state).model then ModelOnly(body.model) else NoConfig;
        && handler.Current() == Merged(old(handler.Current()), update)
        && handler.generation == old(handler.generation) + (if Changed(old(handler.Current()), update) then 1 else 0)
        && handler.client == if Changed(old(handler.Current()), update) then Client(handler.baseUrl, handler.apiKey) else old(handler.client)
      ensures Trim(body.message) != "" && body.stream ==>
        var admitted := Admitted(old(state), body);
        var turn := TurnOutcome(Target(), body.message, old(state).messages, true, o);
        && state == StreamFinal(admitted, turn.0)
        && trace == old(trace) + ModelEvents(old(state), body.model) + [Published(admitted)]
                    + [Published(Reset(admitted))] + ReplayEvents(Reset(admitted), turn.0, turn.1)
        && r == StreamBody(turn.1 + (if turn.0.Failure? then [StreamErrorText] else []))
      ensures Trim(body.message) != "" && !body.stream ==>
        var admitted := Admitted(old(state), body);
        var turn := TurnOutcome(Target(), body.message, old(state).messages, false, o);
        && state == RequestFinal(admitted, turn.0)
        && trace == old(trace) + ModelEvents(old(state), body.model) + [Published(admitted)] + [Published(state)]
        && r == (if turn.0.Success? then Ok(state) else Error(500, ProcessingError))
    {
      if Trim(body.message) == "" {
        return Error(400, MissingMessage);
      }
      if body.stream {
        r := ChatStreamed(body, o);
      } else {
        r := ChatRequested(body, o);
      }
    }

    /** `onRequest`: dispatch on method and path; anything else is answered 404. */
    method OnRequest(route: Route, o: Oracles) returns (r: Response)
      modifies this`state, this`trace, handler
      ensures handler == old(handler)
      ensures handler != null && (route == GetMessagesRoute || route == DeleteClear || route == OtherRoute) ==>
        && handler.Current() == old(handler.Current()) && handler.generation == old(handler.generation)
        && handler.client == old(handler.client)
      ensures handler != null && route.PostChat? ==>
        var body := route.body;
        var update := if Trim(body.message) != "" && body.model != "" && body.model != old(state).model
                      then ModelOnly(body.model) else NoConfig;
        && handler.Current() == Merged(old(handler.Current()), update)
        && handler.generation == old(handler.generation) + (if Changed(old(handler.Current()), update) then 1 else 0)
        && handler.client == if Changed(old(handler.Current()), update) then Client(handler.baseUrl, handler.apiKey) else old(handler.client)
      ensures handler != null && route.PostConfigRoute? ==>
        var update := HandlerUpdate(state.config, state.model, env);
        var rebuilt := Changed(old(handler.Current()), update) && !Rejects(old(handler.Current()), update);
        && handler.Current() == Merged(old(handler.Current()), update)
        && handler.generation == old(handler.generation) + (if rebuilt then 1 else 0)
        && handler.client == if rebuilt then Client(handler.baseUrl, handler.apiKey) else old(handler.client)
      ensures route == GetMessagesRoute ==> r == Ok(state) && state == old(state) && trace == old(trace)
      ensures route.PostChat? && Trim(route.body.message) == "" ==>
        r == Error(400, MissingMessage) && state == old(state) && trace == old(trace)
      ensures route.PostChat? && Trim(route.body.message) != "" && route.body.stream ==>
        var admitted := Admitted(old(state), route.body);
        var turn := TurnOutcome(Target(), route.body.message, old(state).messages, true, o);
        && state == StreamFinal(admitted, turn.0)
        && trace == old(trace) + ModelEvents(old(state), route.body.model) + [Published(admitted)]
                    + [Published(Reset(admitted))] + ReplayEvents(Reset(admitted), turn.0, turn.1)
        && r == StreamBody(turn.1 + (if turn.0.Failure? then [StreamErrorText] else []))
      ensures route.PostChat? && Trim(route.body.message) != "" && !route.body.stream ==>
        var admitted := Admitted(old(state), route.body);
        var turn := TurnOutcome(Target(), route.body.message, old(state).messages, false, o);
        && state == RequestFinal(admitted, turn.0)
        && trace == old(trace) + ModelEvents(old(state), route.body.model) + [Published(admitted)] + [Published(state)]
        && r == (if turn.0.Success? then Ok(state) else Error(500, ProcessingError))
      ensures route.PostConfigRoute? ==>
        && state == ConfigPosted(old(state), route.config)
        && trace == old(trace) + [Published(state)]
        && r == if handler != null && Rejects(old(handler.Current()), HandlerUpdate(state.config, state.model, env))
                then Rejected else Ok(state)
      ensures route == DeleteClear ==> r == Ok(state) && state == old(state).(messages := []) && trace == old(trace) + [Published(state)]
      ensures route == OtherRoute ==> r == Error(404, NotFound) && state == old(state) && trace == old(trace)
    {
      match route {
        case GetMessagesRoute =>
          r := Ok(state);
        case PostChat(body) =>
          r := HandleChatMessage(body, o);
        case PostConfigRoute(config) =>
          r := PostConfig(config);
        case DeleteClear =>
          r := Clear();
        case OtherRoute =>
          r := Error(404, NotFound);
      }
    }
  }
}
