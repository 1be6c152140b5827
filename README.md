# pydantic-ai model core in Dafny

This project models the core of pydantic-ai's model layer and the in-memory
state persistence of pydantic-graph, and proves properties of the model.

- **Model resolution** (`models/__init__.py`). `infer_model` maps a known
  model name such as `openai:gpt-4o` or `claude-3-5-sonnet-latest` to a model
  class and provider. The global `ALLOW_MODEL_REQUESTS` switch and its
  `override_allow_model_requests` context are modelled too. So is the
  `StreamedResponse` base: its lazily created event iterator, `get` and
  `usage`.
- **OpenAI** (`models/openai.py`). The request side builds the tools, the tool
  choice and the structured response format, and maps messages to chat
  messages. The response side maps usage and the first choice, and decodes
  the stream of chunks into parts-manager calls.
- **Bedrock** (`models/bedrock.py`). Covers the inference configuration,
  tool choice, message mapping with its error cases, and response parsing.
  The stream decoder carries `tool_id` from one chunk to the next.
- **Instrumentation** (`models/instrumented.py`). Covers the OpenTelemetry
  span name, system normalisation, request attributes and the `finish`
  callback. Events are emitted in `logs` mode or `attributes` mode.
- **Providers** (`providers/__init__.py`, `providers/openai.py`, and the
  older `providers.py`). Covers provider inference and the API-key and client
  decision tables of `OpenAIProvider` and `DeepSeekProvider`.
- **Graph state** (`pydantic_graph/state`). Covers node and end snapshots,
  `restore_node_snapshot`, and the two in-memory persistences. Each is a class
  whose snapshot, record and restore methods update its fields. The graph
  test `test_run_graph` is replayed against `FullStatePersistence`.

Classes model the objects whose fields the source updates in place:

- `RequestGate` holds the global switch.
- `StreamedResponse` and `EventIterator` hold a stream and the iteration over
  it.
- `Span`, `EventLogger` and `InstrumentedModel` are the instrumentation.
- `SimpleStatePersistence` and `FullStatePersistence` are the persistences.
- `OpenAIProvider`, `DeepSeekProvider` and `LegacyOpenAIProvider` are the
  providers.

Several things become parameters:

- message conversion, wherever the source loops: the loops are methods proved
  equal to a recursive specification function;
- the process environment (`os.environ`) and the clock;
- the chunks of a stream;
- the behaviour of collaborators whose code is not part of this model. These
  are the response-parts manager, `Usage.__add__`, `otel_event` and
  `model_response`, and the pydantic type adapters.

Their results are symbolic: `Usage.Sum`, `Rendered`, `EventsDump`, `Dumped`.

## Model

| member | source | states |
|---|---|---|
| Models.DefaultRequestStream | pydantic_ai_slim/pydantic_ai/models/__init__.py:196-208 | The default `request_stream` always fails with `NotImplementedError`. The message starts with "Streamed requests not supported by this " and ends with the class name. |
| Models.CheckAllow | pydantic_ai_slim/pydantic_ai/models/__init__.py:284-294 | The check fails if and only if requests are not allowed. The error is the `RuntimeError` with the source's message. |
| Models.OverrideRestores | pydantic_ai_slim/pydantic_ai/models/__init__.py:297-310 | After an override block, the switch has its old value whether the body raised or not. The block's outcome is the body's outcome run under the overriding value. |
| Models.CheckInsideOverride | pydantic_ai_slim/pydantic_ai/models/__init__.py:284-310 | A check inside `override_allow_model_requests(v)` raises if and only if `v` is false, whatever the outer value. |
| Models.RequestGate.CheckAllowModelRequests | pydantic_ai_slim/pydantic_ai/models/__init__.py:284-294 | Against the gate's field: fails if and only if the flag is off, with the source's `RuntimeError`. |
| Models.RequestGate.Run | pydantic_ai_slim/pydantic_ai/models/__init__.py:273-310 | The imperative gate runs a script of checks, assignments, overrides and raises. Its raised error and final flag equal the reference semantics `Exec`. |
| Models.RequestGate.OverrideAllowModelRequests | pydantic_ai_slim/pydantic_ai/models/__init__.py:297-310 | The flag is restored to its old value on exit, in the `finally`. What is raised is what the body raises under the new value. |
| Models.InferModel | pydantic_ai_slim/pydantic_ai/models/__init__.py:313-370 | A `Model` instance is returned as it is. "test" gives `TestModel`. Every failure is `UserError("Unknown model: " + name)` on a name. |
| Models.InferModelBare | pydantic_ai_slim/pydantic_ai/models/__init__.py:322-336 | A name without exactly one ':' is dispatched on its prefix: gpt/o1/o3 go to openai, claude to anthropic, gemini to google-gla, vertexai to google-vertex. Anything else is the `UserError`. |
| Models.BareModelCases | pydantic_ai_slim/pydantic_ai/models/__init__.py:322-336 | The prefixes are tried in the source's order. gpt, o1 and o3 give an OpenAI model, then claude gives Anthropic, gemini gives google-gla and vertexai gives google-vertex. Any other prefix is the `UserError` naming the input. |
| Models.DispatchProviders | pydantic_ai_slim/pydantic_ai/models/__init__.py:338-370 | The provider dispatch gives OpenAI-compatible models only the openai or deepseek provider, and Gemini models only google-gla or google-vertex. |
| Models.InferModelProviders | pydantic_ai_slim/pydantic_ai/models/__init__.py:313-370 | The same holds for every model `infer_model` returns. |
| Models.InferModelQualified | pydantic_ai_slim/pydantic_ai/models/__init__.py:322-370 | `provider:name` goes to the class for that provider, with `vertexai` renamed to `google-vertex`. Every other provider is the `UserError` naming the whole input. |
| KnownModelNames.Qualified | pydantic_ai_slim/pydantic_ai/models/__init__.py:30-171 | Each qualified literal is the provider, ':' and the bare name, index by index. |
| KnownModelNames.QualifiedResolve | pydantic_ai_slim/pydantic_ai/models/__init__.py:313-370 | Every name qualified by a known provider resolves. |
| KnownModelNames.BareResolve | pydantic_ai_slim/pydantic_ai/models/__init__.py:322-336 | Every colon-free name starting with gpt, o1, o3 or claude resolves. |
| KnownModelNames.KnownModelNamesResolve | pydantic_ai_slim/pydantic_ai/models/__init__.py:30-171 | Every literal of `KnownModelName` is accepted by `infer_model`. |
| KnownModelNames.StartsWithChars | pydantic_ai_slim/pydantic_ai/models/__init__.py:327-333 | `startswith` follows from agreeing on the prefix's characters. |
| Strings.SplitCount | pydantic_ai_slim/pydantic_ai/models/__init__.py:322-324 | `split(':')` gives one more piece than there are separators. So the two-name unpacking succeeds exactly when there is one ':'. |
| Strings.SplitAround | pydantic_ai_slim/pydantic_ai/models/__init__.py:322-324 | `split` of `a:b`, where neither part holds ':', is `[a, b]`. |
| Strings.SplitJoin | pydantic_ai_slim/pydantic_ai/models/__init__.py:322-324 | Joining the pieces of `split` with the separator gives back the input. |
| Strings.SplitPiecesFree | pydantic_ai_slim/pydantic_ai/models/__init__.py:322-324 | No piece of `split` contains the separator. |
| Strings.Lower | pydantic_ai_slim/pydantic_ai/models/instrumented.py:121 | For ASCII text this is `lower()`: the length is kept, each capital A-Z becomes its lower-case letter, and every other character is unchanged. |
| Strings.RemoveSuffix | pydantic_ai_slim/pydantic_ai/models/instrumented.py:121 | `removesuffix` removes the suffix exactly when it is there and is not empty. Otherwise the string is unchanged. |
| Models.AsYieldedAppend | pydantic_ai_slim/pydantic_ai/models/__init__.py:231-248 | Yielding two runs of events in order is yielding their concatenation. |
| Models.CallEventsAt | pydantic_ai_slim/pydantic_ai/models/__init__.py:224-258 | The i-th parts-manager call yields an event, or none, from the calls before it. A yielded event is tagged with its call. |
| Models.EmittedOrdered | pydantic_ai_slim/pydantic_ai/models/__init__.py:231-248 | Emitted events come from distinct calls, in increasing call order. |
| Models.CallEventsAppend | pydantic_ai_slim/pydantic_ai/models/__init__.py:224-258 | One more call adds exactly its own event, or none, to the end. |
| Models.StreamedResponse.constructor | pydantic_ai_slim/pydantic_ai/models/__init__.py:223-229 | A new stream has no parts-manager calls, empty usage and no event iterator. |
| Models.StreamedResponse.AIter | pydantic_ai_slim/pydantic_ai/models/__init__.py:231-235 | `__aiter__` creates the iterator once and afterwards returns the same one. Nothing else changes. |
| Models.StreamedResponse.Get | pydantic_ai_slim/pydantic_ai/models/__init__.py:250-254 | `get()` is the manager's parts, with the stream's model name and timestamp. |
| Models.StreamedResponse.CurrentUsage | pydantic_ai_slim/pydantic_ai/models/__init__.py:256-258 | `usage()` is the accumulated usage. |
| Models.StreamedResponse.HandleTextDelta | pydantic_ai_slim/pydantic_ai/models/__init__.py:224-248 | A text delta is appended to the calls, and the event it yields is the manager's for that call. |
| Models.StreamedResponse.HandleToolCallDelta | pydantic_ai_slim/pydantic_ai/models/__init__.py:224-248 | The same for a tool-call delta, whose event may be absent. |
| Models.StreamedResponse.AddUsage | pydantic_ai_slim/pydantic_ai/models/__init__.py:229 | `_usage += u`. The calls and the iterator are unchanged. |
| OpenAI.GetTools | pydantic_ai_slim/pydantic_ai/models/openai.py:141-146 | The function tools followed by the result tools, each mapped index by index. |
| OpenAI.ToolChoiceFor | pydantic_ai_slim/pydantic_ai/models/openai.py:204-209 | No tools gives no choice. Tools with text not allowed give `required`; tools with text allowed give `auto`. All three are if-and-only-if. |
| OpenAI.StructuredSchema | pydantic_ai_slim/pydantic_ai/models/openai.py:190-201 | No result tools is the `ValueError`. One tool gives its schema. Several give `anyOf` of all the schemas in order. |
| OpenAI.MapRequestPart | pydantic_ai_slim/pydantic_ai/models/openai.py:283-310 | System prompts follow `system_prompt_role`: developer, user, or system. A user prompt becomes a user message and a tool return a tool message. A retry becomes a user message without a tool name and a tool message with one. |
| OpenAI.MapRequestPartRoles | pydantic_ai_slim/pydantic_ai/models/openai.py:283-310 | A request part maps to role `tool` exactly for tool returns and tool retries. It maps to `user` exactly for user prompts, plain retries and user-role system prompts, and never to `assistant`. |
| OpenAI.MapUserMessage | pydantic_ai_slim/pydantic_ai/models/openai.py:283-310 | One chat message per request part, in order. |
| OpenAI.MapToolCall | pydantic_ai_slim/pydantic_ai/models/openai.py:348-354 | The call's id, name and arguments are carried over. |
| OpenAI.TextsToolCallsPartition | pydantic_ai_slim/pydantic_ai/models/openai.py:262-272 | Every response part is either a text or a tool call. |
| OpenAI.AssistantKeys | pydantic_ai_slim/pydantic_ai/models/openai.py:262-279 | The assistant message has content if and only if some part is text. It has `tool_calls` if and only if some part is a tool call. |
| OpenAI.MapResponseMessage | pydantic_ai_slim/pydantic_ai/models/openai.py:262-279 | The loop builds exactly the assistant message of the specification. |
| OpenAI.MapMessagesLength | pydantic_ai_slim/pydantic_ai/models/openai.py:211 | One chat message per request part and one per response. |
| OpenAI.MapAllMessages | pydantic_ai_slim/pydantic_ai/models/openai.py:211 | The loop over `messages` gives the concatenation the specification defines. |
| OpenAI.CompletionsCreate | pydantic_ai_slim/pydantic_ai/models/openai.py:181-231 | Fails if and only if the structured format is requested without result tools, with that `ValueError`. Otherwise the arguments satisfy `SentFor`: the model, the mapped messages, n=1, the tools (none in structured mode), the tool choice for those tools, the stream flag, the response format, `include_usage` when streaming, and the forwarded settings. |
| OpenAI.MapUsage | pydantic_ai_slim/pydantic_ai/models/openai.py:356-371 | No usage gives an empty `Usage`. Otherwise the three token counts are carried over, and `details` holds the keys of both detail maps, with prompt details winning on a clash. |
| OpenAI.ResponseParts | pydantic_ai_slim/pydantic_ai/models/openai.py:233-243 | The content first if present, then one tool-call part per tool call, in order. |
| OpenAI.ProcessResponse | pydantic_ai_slim/pydantic_ai/models/openai.py:233-243 | Fails with `IndexError` if and only if there are no choices. Otherwise it gives the first choice's parts, stamped with the model name and the `created` time. |
| OpenAI.ToolDeltaCalls | pydantic_ai_slim/pydantic_ai/models/openai.py:334-340 | One tool-call delta per streamed tool-call chunk, in order. |
| OpenAI.StreamStep | pydantic_ai_slim/pydantic_ai/models/openai.py:321-342 | One more chunk adds its calls to the end and its usage to the sum. |
| OpenAI.FeedChoice | pydantic_ai_slim/pydantic_ai/models/openai.py:327-342 | Handling one choice appends its content delta and its tool deltas to the calls. The events yielded are exactly the new emitted events. |
| OpenAI.FeedToolDeltas | pydantic_ai_slim/pydantic_ai/models/openai.py:334-342 | The tool-delta loop appends its calls, and yields exactly the non-None events. |
| OpenAI.FeedToolDelta | pydantic_ai_slim/pydantic_ai/models/openai.py:334-342 | One iteration of that loop. |
| OpenAI.Advance | pydantic_ai_slim/pydantic_ai/models/openai.py:321-342 | Consuming one chunk keeps the decoder invariant: the calls, usage and yielded events are those of the consumed prefix. |
| OpenAI.FeedChunk | pydantic_ai_slim/pydantic_ai/models/openai.py:321-342 | One chunk adds its usage first, then the calls of its first choice, if any. The events it yields are exactly the newly emitted ones. Nothing else changes. |
| OpenAI.DecodedStep | pydantic_ai_slim/pydantic_ai/models/openai.py:321-342 | Proof helper: one chunk's calls, usage and events extend those of a prefix to those of the prefix one chunk longer. |
| OpenAI.Drain | pydantic_ai_slim/pydantic_ai/models/openai.py:321-342 | Consuming the rest keeps it, up to the last chunk. |
| OpenAI.Consume | pydantic_ai_slim/pydantic_ai/models/openai.py:320-342 | Iterating a fresh stream to the end leaves the calls and usage of all the chunks. The yielded events are the emitted ones, and `get()` holds the manager's parts. |
| OpenAI.DeltaTextsAppend | pydantic_ai_slim/pydantic_ai/models/openai.py:321-342 | The texts of concatenated calls concatenate. |
| OpenAI.DeltaTextsOfToolDeltas | pydantic_ai_slim/pydantic_ai/models/openai.py:334-340 | Tool deltas contribute no text. |
| OpenAI.TextDeltasOnContent | pydantic_ai_slim/pydantic_ai/models/openai.py:330-332 | Every text delta has the vendor part id `content`. |
| OpenAI.StreamTextsFaithful | pydantic_ai_slim/pydantic_ai/models/openai.py:321-342 | The text deltas are exactly the non-None contents of the chunks, in order. |
| OpenAI.ChunkText | pydantic_ai_slim/pydantic_ai/models/openai.py:327-332 | One chunk's text deltas are its first choice's content if it has one, and nothing otherwise. |
| OpenAI.EmptyChoicesOnlyUsage | pydantic_ai_slim/pydantic_ai/models/openai.py:321-326 | A chunk with no choices adds usage and no calls. |
| OpenAI.ProcessStreamedResponse | pydantic_ai_slim/pydantic_ai/models/openai.py:245-256 | An empty stream is `UnexpectedModelBehavior`. Otherwise a fresh stream response is stamped with the first chunk's `created` time. |
| OpenAI.Request | pydantic_ai_slim/pydantic_ai/models/openai.py:129-139 | Fails if and only if the gate is closed, or structured output has no result tool, or the reply has no choices. The errors are the `RuntimeError`, the `ValueError` and the `IndexError`, checked in that order. On success it sent the non-streaming arguments `SentFor` states. The response is the first choice's parts with the model name and the reply's time, and the usage is the reply's usage. |
| OpenAI.RequestStream | pydantic_ai_slim/pydantic_ai/models/openai.py:148-159 | Fails if and only if the gate is closed, or structured output has no result tool, or the stream is empty. The errors are the `RuntimeError`, the `ValueError` and `UnexpectedModelBehavior`, in that order. On success it gives a fresh, unconsumed stream over the chunks: no calls, no usage, the model name and the first chunk's time. Whenever the gate is open and the format check passes, `sent` holds the streaming arguments `SentFor` states, with `stream=True` and `include_usage`. |
| Bedrock.ExcludeNone | pydantic_ai_slim/pydantic_ai/models/bedrock.py:105-107 | A key is kept if and only if its value is not None, with that value. |
| Bedrock.ExcludeNoneIdempotent | pydantic_ai_slim/pydantic_ai/models/bedrock.py:105-107 | Applying `exclude_none` to its own result changes nothing. |
| Bedrock.MapInferenceConfig | pydantic_ai_slim/pydantic_ai/models/bedrock.py:360-373 | `max_tokens`, `temperature` and `top_p` are renamed to `maxTokens`, `temperature` and `topP`. Each is present if and only if it is set and not `None`, with its value, and no other key appears. |
| Bedrock.GetTools | pydantic_ai_slim/pydantic_ai/models/bedrock.py:243-260 | The function tools then the result tools, each mapped to a tool spec. |
| Bedrock.SupportsToolChoiceContains | pydantic_ai_slim/pydantic_ai/models/bedrock.py:331 | The test `startswith('anthropic') or 'anthropic' in name` is the same as containing "anthropic". |
| Bedrock.ToolChoiceFor | pydantic_ai_slim/pydantic_ai/models/bedrock.py:330-337 | No choice exactly when there are no tools or the model does not support it. `any` when text is not allowed and `auto` when it is, each if-and-only-if. |
| Bedrock.StepPart | pydantic_ai_slim/pydantic_ai/models/bedrock.py:381-424 | Each kind of request part, case by case. A system prompt is appended to the system text. A string user prompt becomes one user message with that text, and a non-string one is `NotImplementedError`. A tool return becomes a user message with a successful tool result. A retry naming a tool becomes a user message with a failed tool result. A retry with no tool becomes plain user text, and its non-string content is the `AssertionError` with the source's message. A missing `tool_call_id` is an `AssertionError`. The step fails if and only if one of those errors applies. |
| Bedrock.MapToolCall | pydantic_ai_slim/pydantic_ai/models/bedrock.py:438-447 | Fails if and only if the call has no id. Otherwise it is a `toolUse` block with id, name and input. |
| Bedrock.AssistantBlocksFaithful | pydantic_ai_slim/pydantic_ai/models/bedrock.py:425-433 | Mapping a response fails if and only if some tool call has no id. Otherwise the blocks are the parts, text for text and `toolUse` for calls, index by index. |
| Bedrock.StepPartsStops | pydantic_ai_slim/pydantic_ai/models/bedrock.py:381-424 | The first failing part decides the failure of the whole request. |
| Bedrock.AssistantBlocksStops | pydantic_ai_slim/pydantic_ai/models/bedrock.py:425-433 | The first failing tool call decides the failure of the whole response. |
| Bedrock.MapMessagesStops | pydantic_ai_slim/pydantic_ai/models/bedrock.py:375-436 | The first failing message decides the failure of `_map_message`. |
| Bedrock.StepPartsShape | pydantic_ai_slim/pydantic_ai/models/bedrock.py:381-424 | On success the system prompts are concatenated in order, and there is one message per non-system part. |
| Bedrock.MapMessagesShape | pydantic_ai_slim/pydantic_ai/models/bedrock.py:375-436 | On success the system text is every system prompt joined without separator. There is one message per non-system request part and per response. |
| Bedrock.StepPartsRejectsItems | pydantic_ai_slim/pydantic_ai/models/bedrock.py:384-388 | Any non-string user prompt in a request makes it fail. |
| Bedrock.MapMessagesRejectsItems | pydantic_ai_slim/pydantic_ai/models/bedrock.py:384-388 | Any non-string user prompt anywhere in the history makes `_map_message` fail. |
| Bedrock.MapRequestParts | pydantic_ai_slim/pydantic_ai/models/bedrock.py:381-424 | The loop over request parts computes the specification `StepParts`, including its first failure. |
| Bedrock.MapResponseParts | pydantic_ai_slim/pydantic_ai/models/bedrock.py:425-433 | The loop over response parts computes `AssistantBlocks`. |
| Bedrock.MapAllMessages | pydantic_ai_slim/pydantic_ai/models/bedrock.py:375-436 | The loop over messages computes `MapMessages`. |
| Bedrock.MessagesCreate | pydantic_ai_slim/pydantic_ai/models/bedrock.py:323-358 | Fails if and only if the message mapping fails, with its error. Otherwise the arguments satisfy `SentFor`: `converse` or `converse_stream` as the stream flag says, the model id, the messages, the system text, the inference config, and a tool config exactly when there are tools, with the computed tool choice. |
| Bedrock.OutputPartsFaithful | pydantic_ai_slim/pydantic_ai/models/bedrock.py:281-301 | Parsing fails if and only if some item has neither text nor `toolUse`. Otherwise there is one part per item, a text part exactly for items with text. |
| Bedrock.OutputPartsStops | pydantic_ai_slim/pydantic_ai/models/bedrock.py:283-299 | The first item without text or tool use decides the failure. |
| Bedrock.MapUsage | pydantic_ai_slim/pydantic_ai/models/bedrock.py:193-198 | Input, output and total tokens are carried over, with no details. |
| Bedrock.ProcessResponse | pydantic_ai_slim/pydantic_ai/models/bedrock.py:281-301 | The loop gives the parsed parts with the model name and usage, or the first item's failure. |
| Bedrock.DecodeStep | pydantic_ai_slim/pydantic_ai/models/bedrock.py:146-182 | The decoder state after one more chunk is one step from the state before it. |
| Bedrock.SkippedChunks | pydantic_ai_slim/pydantic_ai/models/bedrock.py:148-155 | `messageStart`, `messageStop` and metadata chunks yield nothing and keep `tool_id`. Metadata usage is added only when neither start nor stop is present. |
| Bedrock.ToolIdCarried | pydantic_ai_slim/pydantic_ai/models/bedrock.py:156-182 | Without error, `tool_id` is the id of the latest tool-use start. The decoder fails if and only if some tool-use delta comes before any tool-use start, and then it is the `UnboundLocalError` on `tool_id`. |
| Bedrock.ToolDeltaUsesLastStart | pydantic_ai_slim/pydantic_ai/models/bedrock.py:175-182 | A tool-use delta's call carries the id of the latest tool-use start. |
| Bedrock.Yield | pydantic_ai_slim/pydantic_ai/models/bedrock.py:163-181 | Each yield appends one call and one event, the manager's, and changes nothing else. |
| Bedrock.FeedBlocks | pydantic_ai_slim/pydantic_ai/models/bedrock.py:156-182 | The block-start and block-delta handling of one chunk equals the specification's steps. |
| Bedrock.Advance | pydantic_ai_slim/pydantic_ai/models/bedrock.py:146-182 | One loop iteration keeps the decoder invariant. |
| Bedrock.Drain | pydantic_ai_slim/pydantic_ai/models/bedrock.py:146-182 | The loop runs to the end of the stream or stops at the error. |
| Bedrock.Consume | pydantic_ai_slim/pydantic_ai/models/bedrock.py:139-182 | Iterating a fresh stream leaves the decoder state of the consumed prefix. That prefix is the whole stream unless an error stopped it. Every call's event was yielded. |
| Bedrock.Request | pydantic_ai_slim/pydantic_ai/models/bedrock.py:262-270 | Fails if and only if the message mapping or the reply's parsing fails, with the mapping's error first. On success it sent the arguments `SentFor` states. The response is the parsed parts with the model name and time, and the usage is the reply's usage. |
| Bedrock.RequestStream | pydantic_ai_slim/pydantic_ai/models/bedrock.py:272-279 | Fails if and only if the mapping fails, and then with the mapping's own error. Otherwise it gives a fresh, unconsumed stream with the given parts manager, the model name and the creation time, and `sent` holds the `converse_stream` arguments `SentFor` states. |
| Instrumented.SpanName | pydantic_ai_slim/pydantic_ai/models/instrumented.py:118-120 | The span name is "chat " followed by the model name. |
| Instrumented.RawSystem | pydantic_ai_slim/pydantic_ai/models/instrumented.py:121 | A truthy `system` is used. Otherwise it is the class name without the `Model` suffix, lower-cased. |
| Instrumented.NormalizeSystem | pydantic_ai_slim/pydantic_ai/models/instrumented.py:122 | google-gla becomes gemini, google-vertex becomes vertex_ai, and mistral becomes mistral_ai. Any other name is kept. |
| Instrumented.NormalizeSystemIdempotent | pydantic_ai_slim/pydantic_ai/models/instrumented.py:122 | The renaming is idempotent and never yields one of the renamed names. |
| Instrumented.SystemFromClassName | pydantic_ai_slim/pydantic_ai/models/instrumented.py:121-122 | A model without a system named `OpenAIModel` reports `openai`. |
| Instrumented.SystemGiven | pydantic_ai_slim/pydantic_ai/models/instrumented.py:121-122 | A given system wins and is normalised. An empty system falls back to the class name. |
| Instrumented.PrefixedInjective | pydantic_ai_slim/pydantic_ai/models/instrumented.py:137 | Distinct setting keys give distinct `gen_ai.request.` attributes. |
| Instrumented.AddSettingsExact | pydantic_ai_slim/pydantic_ai/models/instrumented.py:134-137 | Exactly the numeric settings among the listed keys are added, prefixed, with their values. Other attributes are unchanged. |
| Instrumented.BaseKeysUntouched | pydantic_ai_slim/pydantic_ai/models/instrumented.py:128-137 | No setting attribute overwrites operation, system or model. |
| Instrumented.RequestAttributesExact | pydantic_ai_slim/pydantic_ai/models/instrumented.py:128-137 | The span attributes are the three base ones plus one per numeric setting in `MODEL_SETTING_ATTRIBUTES`, and nothing else. |
| Instrumented.RequestAttributesOf | pydantic_ai_slim/pydantic_ai/models/instrumented.py:134-137 | The loop over `MODEL_SETTING_ATTRIBUTES` computes those attributes. |
| Instrumented.OtelEventsAppend | pydantic_ai_slim/pydantic_ai/models/instrumented.py:193-202 | The events of a concatenated history are the concatenated events. |
| Instrumented.PartEventsCount | pydantic_ai_slim/pydantic_ai/models/instrumented.py:197-199 | A request gives one event per part that has `otel_event`. |
| Instrumented.EventIndicesSnoc | pydantic_ai_slim/pydantic_ai/models/instrumented.py:197-199 | Proof helper: adding one part adds one index exactly when that part has an event. |
| Instrumented.RequestEvents | pydantic_ai_slim/pydantic_ai/models/instrumented.py:196-199 | The loop over a request's parts gives those events. |
| Instrumented.MessagesToOtelEvents | pydantic_ai_slim/pydantic_ai/models/instrumented.py:193-202 | The loop over messages gives the specification's events. |
| Instrumented.OtelEventsResponse | pydantic_ai_slim/pydantic_ai/models/instrumented.py:200-201 | A response contributes its own `otel_events`. |
| Instrumented.ChoiceEvent | pydantic_ai_slim/pydantic_ai/models/instrumented.py:148-155 | A `gen_ai.choice` event with no attributes. Its body is exactly index 0 and the response event's body as `message`. |
| Instrumented.Choices | pydantic_ai_slim/pydantic_ai/models/instrumented.py:146-156 | One `gen_ai.choice` event per response event, in order. |
| Instrumented.FinishEventsShape | pydantic_ai_slim/pydantic_ai/models/instrumented.py:145-156 | The events are the history's events followed by one choice event per response event, in order. |
| Instrumented.CollectEvents | pydantic_ai_slim/pydantic_ai/models/instrumented.py:145-156 | The loop builds those events. |
| Instrumented.WithSystem | pydantic_ai_slim/pydantic_ai/models/instrumented.py:172-173 | Logs mode keeps name and body. It adds or overwrites `gen_ai.system` and keeps every other attribute. |
| Instrumented.Stamped | pydantic_ai_slim/pydantic_ai/models/instrumented.py:171-174 | Every event in order, each stamped with `gen_ai.system`. |
| Instrumented.InstrumentedModel.constructor | pydantic_ai_slim/pydantic_ai/models/instrumented.py:55-67 | It stores the wrapped model and the event mode, with a fresh event logger that has emitted nothing. |
| Instrumented.InstrumentedModel.Instrument | pydantic_ai_slim/pydantic_ai/models/instrumented.py:112-139 | It opens a fresh span with the span name and the request attributes. |
| Instrumented.InstrumentedModel.EmitEvents | pydantic_ai_slim/pydantic_ai/models/instrumented.py:169-191 | Logs mode emits every event with the system attribute and leaves the span alone. Attributes mode emits nothing and sets `events` and the JSON schema on the span. |
| Instrumented.InstrumentedModel.Finish | pydantic_ai_slim/pydantic_ai/models/instrumented.py:141-165 | A span that is not recording is left unchanged. A recording span gets the response model, or the model name, and the usage, and the collected events are emitted (the state `FinishedFrom` names). |
| Instrumented.InstrumentedModel.Request | pydantic_ai_slim/pydantic_ai/models/instrumented.py:83-92 | It returns the wrapped result. The span carries the request attributes. On success it finishes exactly once, leaving the span attributes, usages and emitted events `finish` produces. On failure it never finishes and emits nothing. |
| Instrumented.InstrumentedModel.RequestStream | pydantic_ai_slim/pydantic_ai/models/instrumented.py:94-110 | A failure to open the stream is raised with no finish and nothing emitted, and the span keeps the request attributes. Otherwise it finishes once with the stream's `get()` and `usage()`, leaving the span attributes, usages and emitted events `finish` produces, and re-raises the body's error. |
| Providers.InferProvider | pydantic_ai_slim/pydantic_ai/providers/__init__.py:45-64 | Exactly the four names give their providers, each if-and-only-if. Anything else is `ValueError("Unknown provider: ...")`. |
| Providers.VertexAliasRejected | pydantic_ai_slim/pydantic_ai/providers/__init__.py:45-64 | The `vertexai` alias that `infer_model` accepts is not a provider name. |
| Providers.InferredProvidersKnown | pydantic_ai_slim/pydantic_ai/providers/__init__.py:45-64 | Every provider that `infer_model` gives an OpenAI or Gemini model is accepted by `infer_provider`. |
| Providers.OpenAIClientChoice | pydantic_ai_slim/pydantic_ai/providers/openai.py:39-57 | A client conflicts with an HTTP client or a key; the two assertions are reported in that order. A given client is used as it is. Otherwise a client is built on the OpenAI URL, over the given or the cached HTTP client. The placeholder key is used exactly when neither a key nor `OPENAI_API_KEY` is there. |
| Providers.OpenAIProvider.Name | pydantic_ai_slim/pydantic_ai/providers/openai.py:27-29 | The name is `openai`. |
| Providers.OpenAIProvider.BaseUrl | pydantic_ai_slim/pydantic_ai/providers/openai.py:31-33 | The base URL is `https://api.openai.com/v1`. |
| Providers.NewOpenAIProvider | pydantic_ai_slim/pydantic_ai/providers/openai.py:39-57 | The constructor fails exactly as the decision table says. Otherwise it gives a fresh provider holding the chosen client. |
| LegacyProviders.DeepSeekBaseUrlMisspelt | pydantic_ai_slim/pydantic_ai/providers.py:53-55 | The URL as written is not on the `api.deepseek.com` host. |
| LegacyProviders.DeepSeekBaseUrlHost | pydantic_ai_slim/pydantic_ai/providers.py:53-55 | The corrected URL is on `api.deepseek.com` and ends in `/v1`, like OpenAI's. |
| LegacyProviders.DeepSeekKey | pydantic_ai_slim/pydantic_ai/providers.py:67 | A truthy key wins. Otherwise `DEEPSEEK_API_KEY` is used when it is set. |
| LegacyProviders.DeepSeekClientChoice | pydantic_ai_slim/pydantic_ai/providers.py:67-80 | No key and no client is the `ValueError`. A client conflicts with an HTTP client or a key. Otherwise a client is built with the key on `base_url` as written, the misspelt URL. |
| LegacyProviders.DeepSeekClientMisdirected | pydantic_ai_slim/pydantic_ai/providers.py:53-55 | Every client the provider builds itself has a URL that is not on the `api.deepseek.com` host. |
| LegacyProviders.CorrectedDeepSeekClient | pydantic_ai_slim/pydantic_ai/providers.py:53-55 | With the corrected URL, a built client is on the DeepSeek host and keeps its key and HTTP client. A caller's own client is kept as it is. |
| LegacyProviders.DeepSeekClientRefusedWithEnvKey | pydantic_ai_slim/pydantic_ai/providers.py:67-75 | While `DEEPSEEK_API_KEY` is set, a caller's own client is always refused. |
| LegacyProviders.DeepSeekProvider.ProviderName | pydantic_ai_slim/pydantic_ai/providers.py:49-51 | The provider is `deepseek`. |
| LegacyProviders.DeepSeekProvider.BaseUrl | pydantic_ai_slim/pydantic_ai/providers.py:53-55 | The base URL as written, which is not on the DeepSeek host. |
| LegacyProviders.NewDeepSeekProvider | pydantic_ai_slim/pydantic_ai/providers.py:61-80 | The constructor fails exactly as the decision table says. Otherwise it holds the chosen client. |
| LegacyProviders.LegacyOpenAIProvider.ProviderName | pydantic_ai_slim/pydantic_ai/providers.py:86-88 | The provider is `openai`. |
| LegacyProviders.LegacyOpenAIProvider.BaseUrl | pydantic_ai_slim/pydantic_ai/providers.py:90-92 | The base URL is OpenAI's. |
| LegacyProviders.InferLegacyProvider | pydantic_ai_slim/pydantic_ai/providers.py:119-126 | `openai` always succeeds. `deepseek` succeeds if and only if `DEEPSEEK_API_KEY` is set, and otherwise gives the key-required `ValueError`. The client it then builds is on the misspelt URL. Any other name is the unknown-provider `ValueError`. |
| LegacyProviders.LegacyNamesSubset | pydantic_ai_slim/pydantic_ai/providers.py:119-126 | The older dispatch accepts a subset of the newer one's names, and strictly fewer. |
| GraphState.Snapshot.Kind | pydantic_graph/pydantic_graph/state/__init__.py:35-49 | `kind` is `node` exactly for node snapshots and `end` exactly for end snapshots. |
| GraphState.Snapshot.NodeOf | pydantic_graph/pydantic_graph/state/__init__.py:29-58 | `node` is the next node of a node snapshot, and the `result` of an end snapshot. |
| GraphState.NewNodeSnapshot | pydantic_graph/pydantic_graph/state/__init__.py:23-36 | A new node snapshot has kind `node`, the given state and node, and no start time or duration. |
| GraphState.NewEndSnapshot | pydantic_graph/pydantic_graph/state/__init__.py:39-50 | A new end snapshot has kind `end`, the state and result, and the current time. |
| GraphState.RestoreNodeSnapshot | pydantic_graph/pydantic_graph/state/__init__.py:124-130 | Nothing restored and an end snapshot are the two `GraphRuntimeError`s. A node snapshot, and only that, is returned as it is. |
| GraphState.Timed | pydantic_graph/pydantic_graph/state/memory.py:42-51 | Recording a run gives a node snapshot its start time and duration. Anything else is unchanged. |
| GraphMemory.SimpleStatePersistence.PrepState | pydantic_graph/pydantic_graph/state/memory.py:56-61 | With deep copy, a fresh copy of a non-None state with the same value. Without it, the same object. |
| GraphMemory.SimpleStatePersistence.SnapshotNode | pydantic_graph/pydantic_graph/state/memory.py:27-31 | The last snapshot becomes a new node snapshot of the prepared state. |
| GraphMemory.SimpleStatePersistence.SnapshotEnd | pydantic_graph/pydantic_graph/state/memory.py:33-37 | The last snapshot becomes a new end snapshot of the prepared state. |
| GraphMemory.SimpleStatePersistence.Restore | pydantic_graph/pydantic_graph/state/memory.py:53-54 | Returns the last snapshot. |
| GraphMemory.SimpleStatePersistence.RecordRun | pydantic_graph/pydantic_graph/state/memory.py:39-51 | The body's error is re-raised. A node snapshot is timed whether or not the body raised. |
| GraphMemory.SimpleStatePersistence.RestoreNodeSnapshot | pydantic_graph/pydantic_graph/state/__init__.py:124-130 | The base method applied to `restore()`. |
| GraphMemory.FullStatePersistence.PrepState | pydantic_graph/pydantic_graph/state/memory.py:121-126 | The same copy rule as the simple persistence. |
| GraphMemory.FullStatePersistence.SnapshotNode | pydantic_graph/pydantic_graph/state/memory.py:74-80 | Appends a node snapshot of the prepared state. Earlier entries and the adapter are unchanged. |
| GraphMemory.FullStatePersistence.SnapshotEnd | pydantic_graph/pydantic_graph/state/memory.py:82-88 | Appends an end snapshot. Earlier entries and the adapter are unchanged. |
| GraphMemory.FullStatePersistence.Restore | pydantic_graph/pydantic_graph/state/memory.py:104-106 | `None` exactly for an empty history, otherwise the last entry. |
| GraphMemory.FullStatePersistence.RecordRun | pydantic_graph/pydantic_graph/state/memory.py:90-102 | Only the last entry may change, and it is timed when it is a node snapshot. The body's error is re-raised. |
| GraphMemory.FullStatePersistence.RestoreNodeSnapshot | pydantic_graph/pydantic_graph/state/__init__.py:124-130 | The base method applied to the last entry. |
| GraphMemory.FullStatePersistence.SetTypes | pydantic_graph/pydantic_graph/state/memory.py:116-119 | The adapter is built only the first time. The history is unchanged. |
| GraphMemory.FullStatePersistence.DumpJson | pydantic_graph/pydantic_graph/state/memory.py:108-110 | Fails with the assertion exactly when no adapter is set. Otherwise it dumps the whole history with that adapter and the given indent. |
| GraphMemory.FullStatePersistence.LoadJson | pydantic_graph/pydantic_graph/state/memory.py:112-114 | Without an adapter it fails and leaves the history. A parse error is raised and leaves the history. Otherwise the history is replaced by the parsed snapshots. |
| GraphMemory.Decimal | tests/graph/test_state.py:40 | The f-string rendering of any integer: a minus sign exactly for negatives, then digits without leading zeros that denote the magnitude. |
| GraphMemory.Digits | tests/graph/test_state.py:40 | The digits of a natural number denote that number, with no leading zero. |
| GraphMemory.RunFooBar | tests/graph/test_state.py:24-65 | Running Foo then Bar gives "x=2 y=y" and three snapshots: Foo, Bar and the end. With deep copy their states are (1,''), (2,'') and (2,'y'). Without it all three are the caller's state object. |

## Left out

- OpenAI.MapToolCall: `_guard_tool_call_id` and `args_as_json_str()` are not part of this model. The tool call's id is the symbolic `GuardedId` of the part's `tool_call_id`, and its arguments are the part's `ToolArgs`, unchanged.
- Network and SDK calls are left out. The OpenAI and Bedrock responses and streams are parameters.
- `AsyncIteratorWrapper` and the peekable stream of `_utils` are left out: the Bedrock and OpenAI chunks are a sequence.
- `cached_async_http_client` is the symbolic `CachedHttp`; the `lru_cache` and the closed-client check are left out.
- The response-parts manager is left out. Its merging of deltas into parts is not part of this model. It is a parameter (`PartsManagerSpec`) giving each call's event and the final parts.
- `Usage.__add__` and `Usage.opentelemetry_attributes` are left out. Adding usage is the symbolic `Usage.Sum`, and the span keeps the list of usages.
- `otel_event`, `otel_events`, `model_response` and `model_response_str` of the message parts are left out; they are parameters or symbolic values.
- The OpenTelemetry tracer, logfire and `InstrumentedModel.from_logfire` are left out. `is_recording()` is a parameter.
- What `ANY_ADAPTER.dump_json` encodes is left out. In attributes mode the `events` attribute is the symbolic `EventsDump(events)` of the events list as written. The per-event dictionaries the loop builds are not used by the source.
- The pydantic type adapters of `FullStatePersistence` are left out. `build_snapshots_type_adapter` is not part of this model, so the adapter and the dump are symbolic, and `load_json`'s parse result is a parameter.
- Clocks (`now_utc`, `perf_counter`, `datetime.now`) are parameters.
- `Graph.run` is not part of this model. `RunFooBar` drives the persistence in the order `test_run_graph` shows, and a `record_run` body is an abstract error or none.
- Snapshots are values, so record_run replaces the last snapshot with a timed copy. Aliasing between a snapshot object returned earlier and the stored one is not modelled.
- The node's and `End`'s `deep_copy` are the identity on values. States are `StateCell` objects, so their copy and aliasing are modelled.
- `providers/vertexai.py` and the `deepseek`, `google_vertexai` and `google_gla` provider modules are left out. `InferProvider` returns a provider kind for them.
- `OpenAIModel.__init__` and `BedrockModel.__init__` are left out because they only build clients. The tests under `tests/models` and the other tests are not modelled beyond `test_run_graph`.
- OpenAI: `OpenAIStreamedResponse` is constructed with `_model_name`, which it does not declare. Its `timestamp` is a method rather than a property, and the module uses the missing `AgentRequestConfig`. The model follows evident intent: the stream has a model name and a timestamp, and the request configuration is `ModelRequestParameters`.
- OpenAI.CompletionsCreate: the settings passed through (`max_tokens`, `timeout`, `logit_bias` and the rest) are one map restricted to `ForwardedSettings`, an unset one being an absent key rather than `NOT_GIVEN`. The response format is the JSON schema without its `{'type': 'json_schema'}` envelope.
- Bedrock.Request and Bedrock.RequestStream: the Bedrock model never calls `check_allow_model_requests`, as written, so they take no request gate.
- Bedrock.Consume: every `handle_tool_call_delta` result is yielded, including `None`, as written.
- Strings.Lower: lowers ASCII letters only. Python's `str.lower()` also lowers non-ASCII letters, and can change the length, as `'İ'.lower()` does. The system names it is applied to are class names.

## Findings

| source | as written | input that shows it | evidently intended | confidence | as-written member | corrected member |
|---|---|---|---|---|---|---|
| pydantic_ai_slim/pydantic_ai/providers.py:53-55 | `DeepSeekProvider.base_url` returns `https://api.deepsek.com/v1` | `DeepSeekProvider(api_key='k')`: its built client points at the host `api.deepsek.com` | `https://api.deepseek.com/v1` | not executed | LegacyProviders.DeepSeekClientMisdirected | LegacyProviders.CorrectedDeepSeekClient |
