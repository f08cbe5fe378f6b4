# Nafisa AI chat core, modelled in Dafny

This project models the session core of the Nafisa AI universal chat interface, a Cloudflare
Worker in which a Durable-Object agent keeps one chat session and talks to any
OpenAI-compatible provider. The model covers three parts:

- **`ChatAgent`** (worker/agent.ts), in `agent.dfy`, module `Agent`. The per-session state
  machine. It builds the handler on start, merges `/config` updates with field-by-field
  environment fallback, clears the history, and runs a chat turn. A turn admits the trimmed user
  message, relays a streamed reply chunk by chunk through the `streamingMessage` buffer, and
  commits one assistant message or resets on failure. Each `setState` and each write to the
  stream is recorded in order in a ghost `trace`.
- **`ChatHandler`** (worker/chat.ts), in `chat.dfy`, module `Chat`, and `accumulator.dfy`,
  module `StreamAccumulator`. The turn orchestrator. It covers:
  - validation of the provider settings, in the constructor and in `updateConfig`;
  - change detection, so the client is rebuilt only when a setting changes;
  - the streaming loop, which concatenates and forwards text and merges tool-call fragments by
    index in first-appearance order;
  - tool execution with the `{}` fallback for arguments that do not parse;
  - the windowed outbound message lists (last 15 or last 10 history entries);
  - the rule that picks the final content.
- **Model labels** (src/lib/chat.ts), in `labels.dfy`, module `ModelLabels`: the Cloudflare and
  external catalogs, `getModelLabel` and `isCloudflareModel`. The Cloudflare ids are written
  as "@cf/" followed by the model path; the strings are the catalog's own.

Shared records are in `types.dfy`: the session snapshot, messages, provider config, wire
requests and stream chunks. `strings.dfy` holds the JavaScript string operations the code
uses (`trim`, `startsWith`), and `wrappers.dfy` holds `Option` and `Result`.

Outside behaviour is passed in as the `Oracles` record. It holds:
- the provider's completion calls (streamed and not), each taking the client the request is
  sent on and returning a result or an error;
- the tool list and the tool executor;
- `JSON.parse`, as a partial function;
- `JSON.stringify`.

The OpenAI client is modelled as a value, `Client`, holding the base URL and key it was built
with. `ChatHandler` keeps it in a `client` field, and every completion is sent on that field's
value. A ghost `generation` counts the clients the handler has built, so "rebuilt exactly when
changed" can be stated directly.

JavaScript's `x || d` treats a missing value and the empty string the same way. So the
handler's settings and the environment variables are plain strings, with `""` for unset. The
session's `ProviderConfig` uses `Option<string>` per field, because the object spread in
`/config` tells an omitted field (`None`) from a field sent empty (`Some("")`).

The streaming callback is modelled this way: `processMessage` returns, in order, the fragments
it handed to `onChunk`. The agent then replays them, growing the buffer and then writing each
chunk. This is exact because the handler never reads the agent's state while streaming.

The model follows these behaviours of the code:
- The code has no in-progress check (worker/agent.ts:57-66). A second `/chat` request is
  admitted like the first (`Agent.ChatAgent.HandleChatMessage`).
- A rejected `updateConfig` throws after the fields were already overwritten
  (worker/chat.ts:22-40), and the **old** client stays in use. Repeating the same update then
  changes nothing, so it no longer throws (`Chat.RepeatedUpdateIsNoOp`).
- `updateModel` rebuilds the client without validating the settings.
- If `onStart` failed, there is no handler. `/config` then updates only the stored state, and a
  chat turn fails at `this.chatHandler!` like any processing error (`Fault.NoHandler`).
- A model chosen in a `/chat` request is stored in `model` only. `onStart` prefers
  `config.model`, so after a restart the session goes back to the stored config's model
  whenever one is set (`Agent.RestartPrefersStoredModel`).
- A non-streamed reply with an empty `tool_calls` array still runs a tool round, because an
  empty array is truthy.
- `processMessage` receives the message as sent, untrimmed, while the history stores the
  trimmed text.

## Model

| member | source | states |
|---|---|---|
| Strings.TrimStart | worker/agent.ts:59 | the leading-whitespace half of `trim`: the result is a suffix of the input, does not start with whitespace, and only whitespace was removed |
| Strings.TrimEnd | worker/agent.ts:65 | the trailing-whitespace half of `trim`: the result is a prefix of the input, does not end with whitespace, and only whitespace was removed |
| Strings.TrimIsSlice | worker/agent.ts:65 | `message.trim()` is the contiguous stretch of the message that starts where the leading whitespace ends |
| Strings.TrimEndsNotWhitespace | worker/agent.ts:65 | a non-empty `message.trim()` neither starts nor ends with whitespace |
| Strings.TrimEmptyIffBlank | worker/agent.ts:59 | `message.trim()` is empty exactly when every character is ECMAScript whitespace or a line terminator (the 400 guard) |
| Types.OrElseLaws | worker/agent.ts:19-21 | JavaScript `v \|\| fallback` on an optional string: an omitted and an empty value fall back alike; the result is one of the operands and is empty exactly when both are; reapplying the fallback is a no-op; a non-empty fallback gives a non-empty result |
| ModelLabels.Find | src/lib/chat.ts:32-34 | `models.find` by id, for either catalog: none exactly when no entry has the id, otherwise the first matching index |
| ModelLabels.GetModelLabel | src/lib/chat.ts:31-37 | the label is empty exactly when the id is empty; which label is chosen is stated by the three `LabelOf…` lemmas |
| ModelLabels.IsCloudflareModel | src/lib/chat.ts:38-40 | `isCloudflareModel` (prefix or catalog membership) holds exactly when the id starts with "@cf/": the catalog test adds nothing |
| ModelLabels.CatalogEntriesNonEmpty | src/lib/chat.ts:7-30 | every catalog entry has a non-empty id and a non-empty name |
| ModelLabels.LastSegment | src/lib/chat.ts:36 | `split('/').pop()`: a suffix of the id without '/', preceded in the id by '/' unless it is the whole id |
| ModelLabels.CloudflareIdsDistinct | src/lib/chat.ts:7-15 | no two Cloudflare catalog entries share an id |
| ModelLabels.ExternalIdsDistinct | src/lib/chat.ts:16-30 | no two external catalog entries share an id |
| ModelLabels.CloudflareIdsPrefixed | src/lib/chat.ts:8-14 | every Cloudflare catalog id starts with "@cf/" |
| ModelLabels.WorkersAiId | src/lib/chat.ts:8-14 | a Cloudflare catalog id is "@cf/" followed by the model path, so the path is what remains after the four-character prefix |
| ModelLabels.CatalogsDisjoint | src/lib/chat.ts:7-30 | no id appears in both catalogs |
| ModelLabels.LabelOfCloudflareModel | src/lib/chat.ts:31-33 | every Cloudflare catalog id is labelled with its catalog name |
| ModelLabels.LabelOfExternalModel | src/lib/chat.ts:34-35 | every external catalog id is labelled with its catalog name, even though the Cloudflare catalog is searched first |
| ModelLabels.LabelOfUncataloguedModel | src/lib/chat.ts:36 | an uncatalogued id is labelled with its text after the last '/', or the whole id when that is empty; an id without '/' is its own label |
| ModelLabels.NoSlashIsOwnLastSegment | src/lib/chat.ts:36 | a string without '/' is its own last segment |
| StreamAccumulator.ForwardedSpellsText | worker/chat.ts:85-90 | the fragments handed to `onChunk` are non-empty and concatenate to exactly `fullContent` |
| StreamAccumulator.Accumulate | worker/chat.ts:91-108 | the tool-call map built from a fragment sequence is well formed: the key order lists each key once and exactly the keys |
| StreamAccumulator.AccumulateSnoc | worker/chat.ts:92-106 | absorbing one more fragment is one step of the inner loop |
| StreamAccumulator.Finalize | worker/chat.ts:110 | `Array.from(toolCallMap.values())` yields exactly as many calls as the key order lists keys; that they are the map's entries is `FinalizeCoversEntries`, and their order is `OrderIsFirstAppearance` |
| StreamAccumulator.MergeOfSnoc | worker/chat.ts:103-105 | a later fragment for a known index only appends its arguments; id and name stay those of the first fragment |
| StreamAccumulator.AccumulateCharacterized | worker/chat.ts:84-110 | the map has one entry per index that occurs; each entry has its first fragment's id and name and all its fragments' arguments, joined in order; keys are ordered by first appearance |
| StreamAccumulator.AbsorbAt | worker/chat.ts:93-105 | one more fragment keeps, for a given index, "has an entry exactly when it has fragments, and the entry is the merge of those fragments" |
| StreamAccumulator.AccumulateEntries | worker/chat.ts:93-105 | after any fragment sequence, an index has an entry exactly when some fragment carries it, and the entry is the merge of that index's fragments in order |
| StreamAccumulator.AccumulateOrder | worker/chat.ts:95-101 | the map's insertion order is the order in which indices first appear |
| StreamAccumulator.AccumulateAt | worker/chat.ts:93-105 | the same characterisation for one index |
| StreamAccumulator.SelectNonEmptyIff | worker/chat.ts:93 | an index has fragments exactly when some fragment carries it |
| StreamAccumulator.InFirstAppearanceIff | worker/chat.ts:95-101 | an index is inserted exactly when some fragment carries it |
| StreamAccumulator.OneEntryPerIndex | worker/chat.ts:93-102 | an index has an entry exactly when some fragment carries it, and it appears in the key order exactly then; fragments without an index are dropped |
| StreamAccumulator.OrderIsFirstAppearance | worker/chat.ts:94-110 | of two accumulated calls, the earlier one's index appeared in the stream before the later one's |
| StreamAccumulator.EarlierFirstExtends | worker/chat.ts:92-107 | more fragments never reverse which of two indices appeared first |
| StreamAccumulator.FirstAppearanceOrdered | worker/chat.ts:95-101 | the insertion order lists indices by first appearance |
| StreamAccumulator.NoCallsIffNoIndexedFragment | worker/chat.ts:93-111 | no tool call is accumulated exactly when no fragment carries an index |
| StreamAccumulator.DistinctCardinality | worker/chat.ts:110 | a duplicate-free key order has as many elements as distinct keys |
| StreamAccumulator.FinalizeCoversEntries | worker/chat.ts:110 | the finalised calls are exactly the map's entries, one per key |
| StreamAccumulator.InterleavingInvariant | worker/chat.ts:84-110 | two fragment streams that give each index the same fragments in the same order produce the same entries, and the same finalised calls up to order (equal multisets), however those indices are interleaved |
| StreamAccumulator.ProjectPermutes | worker/chat.ts:110 | listing the same keys in another order permutes the calls read off the map (equal multisets) |
| StreamAccumulator.DistinctMultiset | worker/chat.ts:95-101 | a key order without repetitions holds each of its keys exactly once (as a multiset); `InterleavingInvariant` uses this to compare two such orders |
| Chat.Window | worker/chat.ts:165 | `history.slice(-n)` for n > 0, the only case the code uses (n is 15 or 10): the last min(n, \|history\|) entries, in order |
| Chat.BuildConversationMessages | worker/chat.ts:159-168 | the system prompt, then the last min(15, \|history\|) history entries without tool calls, then the user message |
| Chat.ToolRoundMessages | worker/chat.ts:149-155 | the tool-round prompt, the last 10 history entries, the user message, an assistant message with null content carrying the calls, then one tool message per result with its stringified result and the result's id |
| Chat.ParseArguments | worker/chat.ts:134-141 | the parsed arguments when they parse; `{}` when they do not, and for an empty buffer |
| Chat.ExecuteToolCalls | worker/chat.ts:132-145 | one record per call, in order, with the call's id, its name or "unknown", its parsed arguments, and the executor's result for that name and those arguments |
| Chat.MalformedArgumentsBecomeEmpty | worker/chat.ts:135-141 | a call whose arguments are empty or do not parse is executed with `{}`; one without a name is executed as "unknown" |
| Chat.MalformedArgumentsIsolated | worker/chat.ts:133-144 | corrupting one call's arguments changes no other call's record and keeps that call's id |
| Chat.ToolMessagesAnswerCalls | worker/chat.ts:146-156 | in the tool round, the assistant message carries exactly the calls, and the i-th tool message answers the i-th call by its id |
| Chat.StreamFinalContent | worker/chat.ts:110-116 | with no indexed fragment, a completed stream's content is the accumulated text; with accumulated calls, it is the tool round's text with the executed records attached (streamed text discarded), or the tool round's error |
| Chat.NonStreamFinalContent | worker/chat.ts:118-131 | a completion without a message yields "Node returned empty response."; a message without `tool_calls` yields its content ("" for null); a `tool_calls` array, even an empty one, yields the tool round's text with the executed records, or the tool round's error |
| Chat.ToolRoundOutcome | worker/chat.ts:146-158 | the tool round is sent on the handler's client and fails exactly when that completion call fails, with the provider's error; on success the reply carries one executed record per call, and "" as content when the completion has no message |
| Chat.StreamOutcomeFaults | worker/chat.ts:85-116 | a streamed reply fails with an interruption exactly when the stream broke, otherwise only with a provider error; a successful reply carries tool records exactly when calls were accumulated, one per call |
| Chat.OnlyProviderFaultsFailTurn | worker/chat.ts:46-76 | a turn fails only when a completion call on the client throws or the stream breaks; a request without `onChunk` forwards nothing; when the provider answers every request on that client and the stream does not break, the turn succeeds |
| Chat.ChangedIffSettingsDiffer | worker/chat.ts:22-35 | each field is overwritten exactly when a non-empty, different value is supplied; `changed` holds exactly when the merged settings differ |
| Chat.EmptyUpdateIsNoOp | worker/chat.ts:22-45 | `updateConfig({})` changes nothing and neither rebuilds nor throws |
| Chat.RepeatedUpdateIsNoOp | worker/chat.ts:22-45 | repeating an update changes nothing and neither rebuilds nor throws, even after a rejected first attempt |
| Chat.ModelOnlyRule | worker/chat.ts:169-178 | `updateModel(m)` changes the settings exactly when `m` is non-empty and differs from the current model |
| Chat.ChatHandler.constructor | worker/chat.ts:10-21 | with valid settings: holds them and has built one client with them |
| Chat.ChatHandler.Create | worker/chat.ts:10-21 | a handler exists exactly when the base URL starts with "http" and the key is non-empty; otherwise no client is built |
| Chat.ChatHandler.UpdateConfig | worker/chat.ts:22-45 | the new settings are the field-wise merge; it throws exactly when something changed and the merged settings are invalid, with the fields already overwritten; the client is rebuilt, once, exactly when something changed and it did not throw |
| Chat.ChatHandler.MergeFields | worker/chat.ts:23-35 | the three field updates: the settings become the field-wise merge, and `changed` holds exactly when that merge differs from the old settings |
| Chat.ChatHandler.UpdateModel | worker/chat.ts:169-178 | the model is replaced by a non-empty different one, and exactly then the client is rebuilt, without validation |
| Chat.ChatHandler.ProcessMessage | worker/chat.ts:46-76 | the outcome and the forwarded fragments of the first request (stream or not, tools offered when any exist, 4096-token cap) followed by the stream or non-stream rule |
| Chat.ChatHandler.HandleStreamResponse | worker/chat.ts:77-117 | the streaming loop ends with the text and the tool-call map the specification functions give; `onChunk` received the non-empty fragments spelling the text; the result follows the final-content rule |
| Chat.MergeFragment | worker/chat.ts:93-105 | the body of the inner loop for one fragment: the map and key order become exactly one absorption step |
| Chat.MergeFragments | worker/chat.ts:92-107 | the inner loop over one chunk's fragments: the map built so far, extended by those fragments, is the accumulation of all fragments seen |
| Agent.EffectiveSettings | worker/agent.ts:16-22 | each stored config value when non-empty; otherwise the environment default for the base URL and key, and the session's `model` for the model |
| Agent.MergeConfigLaws | worker/agent.ts:35 | `{ ...stored, ...update }`: `{}` is neutral, merging the same body twice is merging it once, successive merges compose, omitted fields are kept and provided ones, even "", are taken |
| Agent.ConfigPostLaws | worker/agent.ts:35-41 | the snapshot `/config` publishes: posting `{}` leaves it as it was, posting the same body again changes nothing more, and only the config and model are touched |
| Agent.UpdateMatchesStart | worker/agent.ts:43-48 | an accepted `/config` update leaves the handler with the base URL and key a restart would compute, wherever those are non-empty, and with the new model |
| Agent.RestartPrefersStoredModel | worker/agent.ts:16-23 | while the stored config names a model, a model chosen in a `/chat` request is not the one a restart uses |
| Agent.TurnAppendsUserThenAssistant | worker/agent.ts:65-98 | a turn appends the trimmed user message and, exactly on success, one assistant message with the reply; it ends idle and leaves config and session id alone; a streamed turn ends with an empty buffer |
| Agent.BufferLeadsSink | worker/agent.ts:74-78 | for each chunk, a snapshot whose buffer holds every chunk so far, that one included, is published immediately before that chunk is written |
| Agent.ChatAgent.constructor | worker/agent.ts:9-15 | a new session starts from the stored snapshot, or from the initial state, with no handler |
| Agent.ChatAgent.OnStart | worker/agent.ts:16-23 | a handler is created exactly when the effective settings are valid, holding them; otherwise the handler field is unchanged |
| Agent.ChatAgent.Publish | worker/agent.ts:37-41 | `setState(s)`: the snapshot becomes `s`, and that publication is appended to the trace |
| Agent.ChatAgent.PostConfig | worker/agent.ts:33-50 | the stored config is merged and the model replaced by a non-empty requested one, published before the handler is touched; the handler gets the update with environment fallback; the request is rejected exactly when that update throws |
| Agent.ChatAgent.Clear | worker/agent.ts:51-54 | only the history is emptied |
| Agent.ChatAgent.Dispatch | worker/agent.ts:75 | the handler's `processMessage` outcome on its current client and model, or a failure when there is no handler |
| Agent.ChatAgent.Relay | worker/agent.ts:74-78 | after the relay the buffer holds the concatenation of the fragments, and the trace holds, per fragment, the grown snapshot and then the write |
| Agent.ChatAgent.Conclude | worker/agent.ts:79-87 | a streamed turn commits the reply and empties the buffer, or writes "Error processing stream." and resets; the stream is then closed |
| Agent.ChatAgent.Replay | worker/agent.ts:74-87 | relay and conclusion together: the final snapshot follows the outcome, the trace holds every fragment's snapshot and write, then the commit or error and the close |
| Agent.ChatAgent.StreamTurn | worker/agent.ts:68-90 | the streamed branch: buffer reset, every forwarded fragment relayed, then commit or error; the stream carries the fragments plus the error text on failure |
| Agent.ChatAgent.Admit | worker/agent.ts:58-66 | a model that is non-empty and different from the current one is applied to the snapshot and the handler (any other changes nothing), then the trimmed user message is appended with processing set; the history handed on is the one before that message |
| Agent.ChatAgent.ApplyModel | worker/agent.ts:61-64 | a non-empty model different from the current one is published and handed to the handler's `updateModel`; any other request changes nothing |
| Agent.ChatAgent.ChatStreamed | worker/agent.ts:61-90 | a streamed turn past the blank check: admission, then the streamed branch over the history as it was before the user message; final snapshot, trace and stream body follow the outcome |
| Agent.ChatAgent.ChatRequested | worker/agent.ts:61-99 | a non-streamed turn past the blank check: admission, then the request branch over the history before the user message |
| Agent.ChatAgent.RequestTurn | worker/agent.ts:91-98 | the non-streamed branch commits the reply and answers with the snapshot, or resets and answers 500 |
| Agent.ChatAgent.HandleChatMessage | worker/agent.ts:57-100 | a blank message gets 400 and changes nothing; otherwise the turn is admitted with no in-progress check, the handler sees the history without the new user message, and the final state, event trace and response follow the outcome |
| Agent.ChatAgent.OnRequest | worker/agent.ts:24-56 | `GET /messages` answers the snapshot and changes nothing; `/chat` answers 400 for a blank message, otherwise the streamed or request turn with its final snapshot, trace and response; `/config` publishes the merged snapshot and is rejected exactly when the handler's update throws; `/clear` empties the history; any other request gets 404 and changes nothing. Per route it also states the handler's settings, client and client count: untouched by `GET /messages`, `/clear` and 404, updated as `updateModel` does for a `/chat` model change, and as `updateConfig` does for `/config` |

## Left out

- The OpenAI SDK, `chat.completions.create`, `getToolDefinitions` and `executeTool` are foreign
  calls. They are the `Oracles` record, and worker/tools.ts is not part of this model.
- `getToolDefinitions` and `executeTool` never fail in this model, because their implementation
  is not part of it: the tool list is a fixed value and the executor a total function. So a
  rejected `getToolDefinitions()` (worker/chat.ts:55), which would fail the turn, is not modelled.
- `JSON.parse` and `JSON.stringify` are oracles, not a JSON grammar. Only `JSON.parse('{}')`
  yielding `{}` is assumed, and only where a contract needs it.
- JSON `null` values and non-string message bodies are not modelled: a `/chat` body has a
  string message, and a `null` `config` in the stored state is not represented.
- Logging is not modelled: the `console.error` calls at worker/chat.ts:140, worker/agent.ts:82
  and worker/agent.ts:96 have no effect on state or responses.
- Concurrency is not modelled: the fire-and-forget streaming task, the `TransformStream`
  writer and `Promise.all` are run to completion in order. Whatever another request does while
  a stream is open is out of scope.
- Byte encoding of the stream, `Response.json` bodies and HTTP status plumbing apart from the
  status numbers, and URL parsing are omitted. Routes are the `Route` datatype.
- `createMessage` ids and timestamps, `crypto.randomUUID` and `Date.now` are nondeterministic
  and come from utilities that are not part of this model. Messages have no id or timestamp.
- `ChatService`, `formatTime`, the React components and src/lib/stores.ts are outside the core.
- The provider's response to a tool round is read only for its text; its own tool calls are
  ignored, as in the code.
- Chat.Window: `slice(-0)` returns the whole history, while `Window(h, 0)` is empty; the code
  only ever takes windows of 15 and 10, so that case is not modelled.
- Chat.ChatHandler.HandleStreamResponse: the stream is a finished list of chunks plus a flag for
  an interruption after the last chunk; where exactly a stream breaks is not modelled.
