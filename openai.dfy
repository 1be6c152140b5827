/** pydantic_ai/models/openai.py: translation of a request into the parameters of
    a chat-completions call, of the completion back into a `ModelResponse`, and the
    decoder of a streamed completion. */
module OpenAI {
  import opened Wrappers
  import opened Exceptions
  import opened Strings
  import opened Messages
  import opened Models

  /** The fields of `OpenAIModel` the translation reads; the client it holds is
      not part of this model. `systemPromptRole` is `'system'`, `'developer'`,
      `'user'` or unset. */
  datatype OpenAIModel = OpenAIModel(modelName: string, systemPromptRole: Option<string>)

  // ---------------------------------------------------------------------------
  // Tools, tool choice and the structured response format

  /** A `ChatCompletionToolParam` of type `'function'`. */
  datatype ChatToolParam = FunctionTool(name: string, description: string, parameters: Json)

  /** `_map_tool_definition` */
  function MapToolDefinition(f: ToolDefinition): ChatToolParam {
    FunctionTool(f.name, f.description, f.parametersJsonSchema)
  }

  /** `_get_tools`: the function tools, then the result tools, each mapped. */
  function GetTools(params: ModelRequestParameters): (tools: seq<ChatToolParam>)
    ensures |tools| == |params.functionTools| + |params.resultTools|
    ensures forall i | 0 <= i < |params.functionTools| :: tools[i] == MapToolDefinition(params.functionTools[i])
    ensures forall j | 0 <= j < |params.resultTools| ::
      tools[|params.functionTools| + j] == MapToolDefinition(params.resultTools[j])
  {
    seq(|params.functionTools|, i requires 0 <= i < |params.functionTools| => MapToolDefinition(params.functionTools[i]))
    + seq(|params.resultTools|, j requires 0 <= j < |params.resultTools| => MapToolDefinition(params.resultTools[j]))
  }

  datatype ToolChoice = Required | Auto

  /** `tool_choice`: unset without tools, `'required'` when a text result is not
      allowed, `'auto'` otherwise. */
  function ToolChoiceFor(tools: seq<ChatToolParam>, allowTextResult: bool): (r: Option<ToolChoice>)
    ensures r.None? <==> tools == []
    ensures r == Some(Required) <==> tools != [] && !allowTextResult
    ensures r == Some(Auto) <==> tools != [] && allowTextResult
  {
    if tools == [] then None
    else if !allowTextResult then Some(Required)
    else Some(Auto)
  }

  const NoResultTool := "structured response_format requires at least one result tool"

  /** The JSON schema of the structured `response_format`: a `ValueError` without
      result tools, the only tool's schema, or `{'anyOf': [schemas in order]}`. */
  function StructuredSchema(resultTools: seq<ToolDefinition>): (r: Result<Json, Error>)
    ensures r.Failure? <==> resultTools == []
    ensures r.Failure? ==> r.error == ValueError(NoResultTool)
    ensures |resultTools| == 1 ==> r == Success(resultTools[0].parametersJsonSchema)
    ensures |resultTools| > 1 ==>
      r.Success? && r.value.JObject? && r.value.fields.Keys == {"anyOf"}
      && r.value.fields["anyOf"].JArray?
      && |r.value.fields["anyOf"].items| == |resultTools|
      && forall i | 0 <= i < |resultTools| :: r.value.fields["anyOf"].items[i] == resultTools[i].parametersJsonSchema
  {
    if |resultTools| == 0 then Failure(ValueError(NoResultTool))
    else if |resultTools| == 1 then Success(resultTools[0].parametersJsonSchema)
    else
      Success(JObject(map["anyOf" := JArray(seq(|resultTools|, i requires 0 <= i < |resultTools| =>
                                                   resultTools[i].parametersJsonSchema))]))
  }

  // ---------------------------------------------------------------------------
  // Messages

  /** `_guard_tool_call_id(t=part, model_source='OpenAI')` for a part with this
      `tool_call_id`; the guard itself is not part of this model. */
  datatype GuardedId = GuardedId(toolCallId: Option<string>)

  /** A `ChatCompletionMessageToolCallParam`; `arguments` stands for
      `args_as_json_str()` of these arguments. */
  datatype ChatToolCall = ChatToolCall(id: GuardedId, name: string, arguments: ToolArgs)

  /** A `ChatCompletionMessageParam`. An assistant message has a `content` key only
      when `content` is `Some`, and a `tool_calls` key only when `toolCalls` is. */
  datatype ChatMessage =
    | SystemMessage(content: string)
    | DeveloperMessage(content: string)
    | UserMessage(user: Rendered)
    | ToolMessage(toolCallId: GuardedId, rendered: Rendered)
    | AssistantMessage(text: Option<string>, toolCalls: Option<seq<ChatToolCall>>)

  function Role(m: ChatMessage): string {
    match m
    case SystemMessage(_) => "system"
    case DeveloperMessage(_) => "developer"
    case UserMessage(_) => "user"
    case ToolMessage(_, _) => "tool"
    case AssistantMessage(_, _) => "assistant"
  }

  /** One message of `_map_user_message`, for one request part. */
  function MapRequestPart(role: Option<string>, part: ModelRequestPart): (m: ChatMessage)
    ensures part.SystemPromptPart? ==>
      && (role == Some("developer") ==> m == DeveloperMessage(part.content))
      && (role == Some("user") ==> m == UserMessage(UserContentOf(UserText(part.content))))
      && (role != Some("developer") && role != Some("user") ==> m == SystemMessage(part.content))
    ensures part.UserPromptPart? ==> m == UserMessage(UserContentOf(part.user))
    ensures part.ToolReturnPart? ==> m == ToolMessage(GuardedId(part.toolCallId), ModelResponseStrOf(part))
    ensures part.RetryPromptPart? ==>
      m == if part.retryToolName.None? then UserMessage(ModelResponseOf(part))
           else ToolMessage(GuardedId(part.toolCallId), ModelResponseOf(part))
  {
    match part
    case SystemPromptPart(content) =>
      if role == Some("developer") then DeveloperMessage(content)
      else if role == Some("user") then UserMessage(UserContentOf(UserText(content)))
      else SystemMessage(content)
    case UserPromptPart(user) => UserMessage(UserContentOf(user))
    case ToolReturnPart(_, _, id) => ToolMessage(GuardedId(id), ModelResponseStrOf(part))
    case RetryPromptPart(_, toolName, id) =>
      if toolName.None? then UserMessage(ModelResponseOf(part))
      else ToolMessage(GuardedId(id), ModelResponseOf(part))
  }

  /** Which role each request part ends up in: tool messages are exactly the tool
      returns and the retries that name a tool; user messages are the user prompts,
      the retries without a tool, and system prompts under the `'user'` role. */
  lemma MapRequestPartRoles(role: Option<string>, part: ModelRequestPart)
    ensures Role(MapRequestPart(role, part)) == "tool" <==>
      part.ToolReturnPart? || (part.RetryPromptPart? && part.retryToolName.Some?)
    ensures Role(MapRequestPart(role, part)) == "user" <==>
      part.UserPromptPart? || (part.RetryPromptPart? && part.retryToolName.None?)
      || (part.SystemPromptPart? && role == Some("user"))
    ensures Role(MapRequestPart(role, part)) != "assistant"
  {
  }

  /** `_map_user_message`: one message per part, in order. */
  function MapUserMessage(role: Option<string>, parts: seq<ModelRequestPart>): (r: seq<ChatMessage>)
    ensures |r| == |parts|
    ensures forall i | 0 <= i < |parts| :: r[i] == MapRequestPart(role, parts[i])
  {
    seq(|parts|, i requires 0 <= i < |parts| => MapRequestPart(role, parts[i]))
  }

  /** `_map_tool_call` */
  function MapToolCall(t: ModelResponsePart): (c: ChatToolCall)
    requires t.ToolCallPart?
    ensures c.id == GuardedId(t.toolCallId) && c.name == t.toolName && c.arguments == t.args
  {
    ChatToolCall(GuardedId(t.toolCallId), t.toolName, t.args)
  }

  /** The contents of the text parts, in order. */
  function Texts(parts: seq<ModelResponsePart>): (r: seq<string>)
    ensures |r| <= |parts|
  {
    if parts == [] then []
    else
      var last := parts[|parts| - 1];
      Texts(parts[..|parts| - 1]) + (if last.TextPart? then [last.content] else [])
  }

  /** The tool-call parts, mapped, in order. */
  function ToolCalls(parts: seq<ModelResponsePart>): (r: seq<ChatToolCall>)
    ensures |r| <= |parts|
  {
    if parts == [] then []
    else
      var last := parts[|parts| - 1];
      ToolCalls(parts[..|parts| - 1]) + (if last.ToolCallPart? then [MapToolCall(last)] else [])
  }

  /** The single assistant message a `ModelResponse` maps to. */
  function AssistantFor(parts: seq<ModelResponsePart>): ChatMessage {
    var texts := Texts(parts);
    var calls := ToolCalls(parts);
    AssistantMessage(if texts == [] then None else Some(Join(texts, "\n\n")),
                     if calls == [] then None else Some(calls))
  }

  /** Every part is either a text or a tool call, so the two lists share the parts. */
  lemma {:induction false} TextsToolCallsPartition(parts: seq<ModelResponsePart>)
    ensures |Texts(parts)| + |ToolCalls(parts)| == |parts|
  {
    if parts != [] {
      TextsToolCallsPartition(parts[..|parts| - 1]);
    }
  }

  /** The assistant message has `content` exactly when the response has a text
      part, and `tool_calls` exactly when it has a tool call. */
  lemma AssistantKeys(parts: seq<ModelResponsePart>)
    ensures AssistantFor(parts).text.Some? <==> exists i | 0 <= i < |parts| :: parts[i].TextPart?
    ensures AssistantFor(parts).toolCalls.Some? <==> exists i | 0 <= i < |parts| :: parts[i].ToolCallPart?
  {
    NoTexts(parts);
    NoToolCalls(parts);
  }

  /** No texts exactly when no part is a text. */
  lemma {:induction false} NoTexts(parts: seq<ModelResponsePart>)
    ensures Texts(parts) == [] <==> forall i | 0 <= i < |parts| :: !parts[i].TextPart?
  {
    if parts != [] {
      var prefix := parts[..|parts| - 1];
      NoTexts(prefix);
      assert forall i | 0 <= i < |prefix| :: prefix[i] == parts[i];
    }
  }

  /** No tool calls exactly when no part is a tool call. */
  lemma {:induction false} NoToolCalls(parts: seq<ModelResponsePart>)
    ensures ToolCalls(parts) == [] <==> forall i | 0 <= i < |parts| :: !parts[i].ToolCallPart?
  {
    if parts != [] {
      var prefix := parts[..|parts| - 1];
      NoToolCalls(prefix);
      assert forall i | 0 <= i < |prefix| :: prefix[i] == parts[i];
    }
  }

  /** The assistant half of `_map_message`: collects texts and tool calls in a loop. */
  method MapResponseMessage(response: ModelResponse) returns (m: ChatMessage)
    ensures m == AssistantFor(response.parts)
  {
    var texts: seq<string> := [];
    var toolCalls: seq<ChatToolCall> := [];
    var i := 0;
    while i < |response.parts|
      invariant 0 <= i <= |response.parts|
      invariant texts == Texts(response.parts[..i])
      invariant toolCalls == ToolCalls(response.parts[..i])
    {
      assert response.parts[..i + 1][..i] == response.parts[..i];
      var item := response.parts[i];
      if item.TextPart? {
        texts := texts + [item.content];
      } else {
        toolCalls := toolCalls + [MapToolCall(item)];
      }
      i := i + 1;
    }
    assert response.parts[..i] == response.parts;
    m := AssistantMessage(if texts == [] then None else Some(Join(texts, "\n\n")),
                          if toolCalls == [] then None else Some(toolCalls));
  }

  /** `_map_message` of one message. */
  function MapMessage(role: Option<string>, message: ModelMessage): seq<ChatMessage> {
    match message
    case ModelRequest(parts) => MapUserMessage(role, parts)
    case Response(response) => [AssistantFor(response.parts)]
  }

  /** `list(chain(*(self._map_message(m) for m in messages)))` */
  function MapMessages(role: Option<string>, messages: seq<ModelMessage>): seq<ChatMessage> {
    if messages == [] then []
    else MapMessages(role, messages[..|messages| - 1]) + MapMessage(role, messages[|messages| - 1])
  }

  /** Each request contributes one message per part and each response exactly one. */
  lemma {:induction false} MapMessagesLength(role: Option<string>, messages: seq<ModelMessage>)
    ensures |MapMessages(role, messages)| == MessageCount(messages)
  {
    if messages != [] {
      MapMessagesLength(role, messages[..|messages| - 1]);
    }
  }

  function MessageCount(messages: seq<ModelMessage>): nat {
    if messages == [] then 0
    else
      var last := messages[|messages| - 1];
      MessageCount(messages[..|messages| - 1]) + (if last.ModelRequest? then |last.parts| else 1)
  }

  /** Maps the message history, one message after the other. */
  method MapAllMessages(role: Option<string>, messages: seq<ModelMessage>) returns (out: seq<ChatMessage>)
    ensures out == MapMessages(role, messages)
  {
    out := [];
    var i := 0;
    while i < |messages|
      invariant 0 <= i <= |messages|
      invariant out == MapMessages(role, messages[..i])
    {
      assert messages[..i + 1][..i] == messages[..i];
      assert MapMessages(role, messages[..i + 1]) == MapMessages(role, messages[..i]) + MapMessage(role, messages[i]);
      match messages[i] {
        case ModelRequest(parts) =>
          out := out + MapUserMessage(role, parts);
        case Response(response) =>
          var m := MapResponseMessage(response);
          out := out + [m];
      }
      i := i + 1;
    }
    assert messages[..i] == messages;
  }

  // ---------------------------------------------------------------------------
  // _completions_create

  /** The settings forwarded to `chat.completions.create` under their own names. */
  const ForwardedSettings: set<string> :=
    {"parallel_tool_calls", "max_tokens", "temperature", "top_p", "timeout", "seed",
     "presence_penalty", "frequency_penalty", "logit_bias"}

  /** The keyword arguments of `chat.completions.create`; `None` is `NOT_GIVEN`. */
  datatype CompletionParams = CompletionParams(
    model: string,
    messages: seq<ChatMessage>,
    n: int,
    tools: Option<seq<ChatToolParam>>,
    toolChoice: Option<ToolChoice>,
    stream: bool,
    responseFormat: Option<Json>,
    includeUsage: Option<bool>,
    settings: map<string, SettingValue>)

  /** `use_structured_response_format` is set to a truthy value. */
  predicate UsesStructured(settings: ModelSettings) {
    var structured := Get(settings, "use_structured_response_format");
    structured.Some? && Truthy(structured.value)
  }

  /** The keyword arguments `_completions_create` passes when it does not raise:
      the model name, the mapped messages, one choice, the tools (none under
      structured output, and `NOT_GIVEN` when empty), their tool choice, the
      stream flag, the response format under structured output, usage reporting
      when streaming, and exactly the forwarded settings that are set. */
  predicate SentFor(p: CompletionParams, model: OpenAIModel, messages: seq<ModelMessage>, stream: bool,
                    settings: ModelSettings, params: ModelRequestParameters)
  {
    var tools := if UsesStructured(settings) then [] else GetTools(params);
    && p.model == model.modelName
    && p.messages == MapMessages(model.systemPromptRole, messages)
    && p.n == 1
    && p.tools == (if tools == [] then None else Some(tools))
    && p.toolChoice == ToolChoiceFor(tools, params.allowTextResult)
    && p.stream == stream
    && p.responseFormat == (if UsesStructured(settings) && params.resultTools != []
                            then Some(StructuredSchema(params.resultTools).value) else None)
    && p.includeUsage == (if stream then Some(true) else None)
    && p.settings.Keys == settings.Keys * ForwardedSettings
    && forall k | k in p.settings :: p.settings[k] == settings[k]
  }

  /** `_completions_create` up to the network call. */
  method CompletionsCreate(model: OpenAIModel, messages: seq<ModelMessage>, stream: bool,
                           settings: ModelSettings, params: ModelRequestParameters)
    returns (r: Result<CompletionParams, Error>)
    ensures r.Failure? <==> UsesStructured(settings) && params.resultTools == []
    ensures r.Failure? ==> r.error == ValueError(NoResultTool)
    ensures r.Success? ==> SentFor(r.value, model, messages, stream, settings, params)
  {
    var tools := GetTools(params);
    var responseFormat: Option<Json> := None;
    var structured := Get(settings, "use_structured_response_format");
    if structured.Some? && Truthy(structured.value) {
      tools := [];
      var schema :- StructuredSchema(params.resultTools);
      responseFormat := Some(schema);
    }
    var toolChoice := ToolChoiceFor(tools, params.allowTextResult);
    var openaiMessages := MapAllMessages(model.systemPromptRole, messages);
    r := Success(CompletionParams(
      model.modelName, openaiMessages, 1,
      if tools == [] then None else Some(tools),
      toolChoice, stream, responseFormat,
      if stream then Some(true) else None,
      map k | k in settings && k in ForwardedSettings :: settings[k]));
  }

  // ---------------------------------------------------------------------------
  // Responses and usage

  /** `CompletionUsage`; the two detail records are already without `None` entries. */
  datatype CompletionUsage = CompletionUsage(
    promptTokens: int, completionTokens: int, totalTokens: int,
    completionDetails: Option<map<string, int>>, promptDetails: Option<map<string, int>>)

  datatype ResponseToolCall = ResponseToolCall(id: string, name: string, arguments: string)

  datatype ResponseChoice = ResponseChoice(content: Option<string>, toolCalls: Option<seq<ResponseToolCall>>)

  datatype ChatCompletion = ChatCompletion(created: Timestamp, choices: seq<ResponseChoice>, usage: Option<CompletionUsage>)

  /** `_map_usage`: no usage gives `Usage()`; otherwise prompt, completion and total
      become request, response and total tokens, and the details are the completion
      details overwritten by the prompt details. */
  function MapUsage(usage: Option<CompletionUsage>): (u: Usage)
    ensures usage.None? ==> u == NoUsage
    ensures usage.Some? ==>
      && u.Usage?
      && u.requestTokens == Some(usage.value.promptTokens)
      && u.responseTokens == Some(usage.value.completionTokens)
      && u.totalTokens == Some(usage.value.totalTokens)
      && u.details.Some?
      && (forall k :: k in u.details.value <==>
            (usage.value.completionDetails.Some? && k in usage.value.completionDetails.value)
            || (usage.value.promptDetails.Some? && k in usage.value.promptDetails.value))
      && (forall k | usage.value.promptDetails.Some? && k in usage.value.promptDetails.value ::
            u.details.value[k] == usage.value.promptDetails.value[k])
      && (forall k | usage.value.completionDetails.Some? && k in usage.value.completionDetails.value
                     && (usage.value.promptDetails.None? || k !in usage.value.promptDetails.value) ::
            u.details.value[k] == usage.value.completionDetails.value[k])
  {
    match usage
    case None => NoUsage
    case Some(cu) =>
      var details := cu.completionDetails.GetOr(map[]) + cu.promptDetails.GetOr(map[]);
      Usage(Some(cu.promptTokens), Some(cu.completionTokens), Some(cu.totalTokens), Some(details))
  }

  /** The parts of a non-streamed response: the text first, when there is one,
      then one tool-call part per tool call, in order. */
  function ResponseParts(choice: ResponseChoice): (parts: seq<ModelResponsePart>)
    ensures var calls := choice.toolCalls.GetOr([]);
      var offset := if choice.content.Some? then 1 else 0;
      && |parts| == offset + |calls|
      && (choice.content.Some? ==> parts[0] == TextPart(choice.content.value))
      && forall j | 0 <= j < |calls| ::
           parts[offset + j] == ToolCallPart(calls[j].name, ArgsJson(calls[j].arguments), Some(calls[j].id))
  {
    var calls := choice.toolCalls.GetOr([]);
    (if choice.content.Some? then [TextPart(choice.content.value)] else [])
    + seq(|calls|, j requires 0 <= j < |calls| =>
            ToolCallPart(calls[j].name, ArgsJson(calls[j].arguments), Some(calls[j].id)))
  }

  const IndexOutOfRange := "list index out of range"

  /** `_process_response`: reads the first choice, so a completion without
      choices raises `IndexError`. */
  method ProcessResponse(model: OpenAIModel, response: ChatCompletion) returns (r: Result<ModelResponse, Error>)
    ensures r.Failure? <==> response.choices == []
    ensures r.Failure? ==> r.error == IndexError(IndexOutOfRange)
    ensures r.Success? ==>
      r.value == ModelResponse(ResponseParts(response.choices[0]), Some(model.modelName), response.created)
  {
    if response.choices == [] {
      return Failure(IndexError(IndexOutOfRange));
    }
    var choice := response.choices[0];
    var items: seq<ModelResponsePart> := [];
    if choice.content.Some? {
      items := items + [TextPart(choice.content.value)];
    }
    if choice.toolCalls.Some? {
      var calls := choice.toolCalls.value;
      var j := 0;
      while j < |calls|
        invariant 0 <= j <= |calls|
        invariant items == (if choice.content.Some? then [TextPart(choice.content.value)] else [])
          + seq(j, k requires 0 <= k < j => ToolCallPart(calls[k].name, ArgsJson(calls[k].arguments), Some(calls[k].id)))
      {
        items := items + [ToolCallPart(calls[j].name, ArgsJson(calls[j].arguments), Some(calls[j].id))];
        j := j + 1;
      }
    }
    r := Success(ModelResponse(items, Some(model.modelName), response.created));
  }

  // ---------------------------------------------------------------------------
  // The streamed response

  datatype FunctionDelta = FunctionDelta(name: Option<string>, arguments: Option<string>)

  datatype ToolCallChunk = ToolCallChunk(index: int, fn: Option<FunctionDelta>, id: Option<string>)

  datatype ChunkChoice = ChunkChoice(content: Option<string>, toolCalls: Option<seq<ToolCallChunk>>)

  /** A `ChatCompletionChunk`. */
  datatype OpenAIChunk = OpenAIChunk(created: Timestamp, choices: seq<ChunkChoice>, usage: Option<CompletionUsage>)

  /** The decoder carries no locals from one chunk to the next. */
  type OpenAIStream = StreamedResponse<OpenAIChunk, ()>

  /** The parts-manager call of one tool-call delta: routed by the delta's own
      index, `dtc.function and dtc.function.name` as the name. */
  function ToolDeltaCall(d: ToolCallChunk): ManagerCall {
    ToolCallDelta(IndexId(d.index),
                  if d.fn.Some? then d.fn.value.name else None,
                  if d.fn.Some? then d.fn.value.arguments else None,
                  d.id)
  }

  function ToolDeltaCalls(deltas: seq<ToolCallChunk>): (r: seq<ManagerCall>)
    ensures |r| == |deltas|
    ensures forall j | 0 <= j < |deltas| :: r[j] == ToolDeltaCall(deltas[j])
  {
    if deltas == [] then []
    else ToolDeltaCalls(deltas[..|deltas| - 1]) + [ToolDeltaCall(deltas[|deltas| - 1])]
  }

  /** The calls of one choice: a text delta on `'content'` when it has content,
      then its tool-call deltas. */
  function ChoiceCalls(choice: ChunkChoice): seq<ManagerCall> {
    ContentCalls(choice) + ToolDeltaCalls(choice.toolCalls.GetOr([]))
  }

  function ContentCalls(choice: ChunkChoice): seq<ManagerCall> {
    if choice.content.Some? then [TextDelta(ContentId, choice.content.value)] else []
  }

  /** The calls one chunk makes: none without choices, else those of the first. */
  function ChunkCalls(chunk: OpenAIChunk): seq<ManagerCall> {
    if chunk.choices == [] then [] else ChoiceCalls(chunk.choices[0])
  }

  /** The calls a prefix of the stream makes. */
  function StreamCalls(chunks: seq<OpenAIChunk>): seq<ManagerCall> {
    if chunks == [] then []
    else StreamCalls(chunks[..|chunks| - 1]) + ChunkCalls(chunks[|chunks| - 1])
  }

  /** The usage after a prefix of the stream: every chunk's usage is added, those
      without choices included. */
  function StreamUsage(chunks: seq<OpenAIChunk>): Usage {
    if chunks == [] then NoUsage
    else Sum(StreamUsage(chunks[..|chunks| - 1]), MapUsage(chunks[|chunks| - 1].usage))
  }

  /** The generator state after `it.pos` chunks: the calls and usage of that prefix,
      and only the non-`None` events yielded. */
  predicate Decoded(it: EventIterator<OpenAIChunk, ()>)
    reads it, it.response
  {
    var r := it.response;
    && it.pos <= |r.chunks|
    && it.error == None
    && r.calls == StreamCalls(r.chunks[..it.pos])
    && r.usage == StreamUsage(r.chunks[..it.pos])
    && it.yielded == AsYielded(Emitted(r.manager, r.calls))
  }

  /** The prefix of one more chunk. */
  lemma StreamStep(chunks: seq<OpenAIChunk>, k: int)
    requires 0 <= k < |chunks|
    ensures StreamCalls(chunks[..k + 1]) == StreamCalls(chunks[..k]) + ChunkCalls(chunks[k])
    ensures StreamUsage(chunks[..k + 1]) == Sum(StreamUsage(chunks[..k]), MapUsage(chunks[k].usage))
  {
    assert chunks[..k + 1][..k] == chunks[..k];
  }

  /** The body of the loop for the first choice of a chunk: the text delta, then
      the tool-call deltas, yielding only what is not `None`. */
  method FeedChoice(r: OpenAIStream, choice: ChunkChoice) returns (events: seq<StreamEvent>)
    modifies r
    ensures r.calls == old(r.calls) + ChoiceCalls(choice)
    ensures Emitted(r.manager, r.calls) == Emitted(r.manager, old(r.calls)) + events
    ensures r.usage == old(r.usage) && r.eventIterator == old(r.eventIterator)
  {
    events := [];
    if choice.content.Some? {
      CallEventsAppend(r.manager, r.calls, TextDelta(ContentId, choice.content.value));
      var e := r.HandleTextDelta(ContentId, choice.content.value);
      events := [e];
    }
    assert r.calls == old(r.calls) + ContentCalls(choice);
    var more := FeedToolDeltas(r, choice.toolCalls.GetOr([]));
    Associative(old(r.calls), ContentCalls(choice), ToolDeltaCalls(choice.toolCalls.GetOr([])));
    Associative(Emitted(r.manager, old(r.calls)), events, more);
    events := events + more;
  }

  /** `for dtc in choice.delta.tool_calls or []`, yielding what is not `None`. */
  method FeedToolDeltas(r: OpenAIStream, deltas: seq<ToolCallChunk>) returns (events: seq<StreamEvent>)
    modifies r
    ensures r.calls == old(r.calls) + ToolDeltaCalls(deltas)
    ensures Emitted(r.manager, r.calls) == Emitted(r.manager, old(r.calls)) + events
    ensures r.usage == old(r.usage) && r.eventIterator == old(r.eventIterator)
  {
    events := [];
    var before := r.calls;
    var j := 0;
    while j < |deltas|
      invariant 0 <= j <= |deltas|
      invariant r.calls == before + ToolDeltaCalls(deltas[..j])
      invariant Emitted(r.manager, r.calls) == Emitted(r.manager, before) + events
      invariant r.usage == old(r.usage) && r.eventIterator == old(r.eventIterator)
    {
      var maybeEvent := FeedToolDelta(r, before, deltas, j);
      Associative(Emitted(r.manager, before), events, Listed(maybeEvent));
      events := events + Listed(maybeEvent);
      j := j + 1;
    }
    assert deltas[..j] == deltas;
  }

  lemma Associative<T>(a: seq<T>, b: seq<T>, c: seq<T>)
    ensures a + b + c == a + (b + c)
  {
  }

  /** The tool-call delta `deltas[j]` handed to the parts manager. */
  method FeedToolDelta(r: OpenAIStream, before: seq<ManagerCall>, deltas: seq<ToolCallChunk>, j: nat)
    returns (e: Option<StreamEvent>)
    requires j < |deltas| && r.calls == before + ToolDeltaCalls(deltas[..j])
    modifies r
    ensures r.calls == before + ToolDeltaCalls(deltas[..j + 1])
    ensures Emitted(r.manager, r.calls) == Emitted(r.manager, old(r.calls)) + Listed(e)
    ensures r.usage == old(r.usage) && r.eventIterator == old(r.eventIterator)
  {
    var d := deltas[j];
    assert deltas[..j + 1][..j] == deltas[..j];
    assert before + ToolDeltaCalls(deltas[..j]) + [ToolDeltaCall(d)] == before + ToolDeltaCalls(deltas[..j + 1]);
    CallEventsAppend(r.manager, r.calls, ToolDeltaCall(d));
    e := r.HandleToolCallDelta(
      IndexId(d.index),
      if d.fn.Some? then d.fn.value.name else None,
      if d.fn.Some? then d.fn.value.arguments else None,
      d.id);
  }

  /** The body of `async for chunk in self._response` for one chunk: the usage
      first, then, when the chunk has a choice, its deltas. */
  method FeedChunk(r: OpenAIStream, chunk: OpenAIChunk) returns (events: seq<StreamEvent>)
    modifies r
    ensures r.calls == old(r.calls) + ChunkCalls(chunk)
    ensures Emitted(r.manager, r.calls) == Emitted(r.manager, old(r.calls)) + events
    ensures r.usage == Sum(old(r.usage), MapUsage(chunk.usage)) && r.eventIterator == old(r.eventIterator)
  {
    r.AddUsage(MapUsage(chunk.usage));
    events := [];
    if chunk.choices != [] {
      events := FeedChoice(r, chunk.choices[0]);
    }
  }

  /** What one chunk does to the calls, the usage and the yielded events keeps
      them those of the prefix one chunk longer. */
  lemma DecodedStep(chunks: seq<OpenAIChunk>, k: int, manager: PartsManagerSpec,
                    calls: seq<ManagerCall>, usage: Usage, yielded: seq<Option<StreamEvent>>,
                    calls': seq<ManagerCall>, events: seq<StreamEvent>)
    requires 0 <= k < |chunks|
    requires calls == StreamCalls(chunks[..k]) && usage == StreamUsage(chunks[..k])
    requires yielded == AsYielded(Emitted(manager, calls))
    requires calls' == calls + ChunkCalls(chunks[k])
    requires Emitted(manager, calls') == Emitted(manager, calls) + events
    ensures calls' == StreamCalls(chunks[..k + 1])
    ensures Sum(usage, MapUsage(chunks[k].usage)) == StreamUsage(chunks[..k + 1])
    ensures yielded + AsYielded(events) == AsYielded(Emitted(manager, calls'))
  {
    StreamStep(chunks, k);
    AsYieldedAppend(Emitted(manager, calls), events);
  }

  /** One turn of the generator: one chunk fed, its events yielded. */
  method Advance(it: EventIterator<OpenAIChunk, ()>)
    requires Decoded(it) && it.pos < |it.response.chunks|
    modifies it, it.response
    ensures Decoded(it) && it.pos == old(it.pos) + 1
    ensures it.response.eventIterator == old(it.response.eventIterator)
  {
    var r := it.response;
    var k := it.pos;
    ghost var calls, usage := r.calls, r.usage;
    var events := FeedChunk(r, r.chunks[k]);
    DecodedStep(r.chunks, k, r.manager, calls, usage, it.yielded, r.calls, events);
    it.yielded := it.yielded + AsYielded(events);
    it.pos := k + 1;
  }

  /** Runs the generator to the end of the stream. */
  method Drain(it: EventIterator<OpenAIChunk, ()>)
    requires Decoded(it)
    modifies it, it.response
    ensures Decoded(it) && it.pos == |it.response.chunks|
    ensures it.response.eventIterator == old(it.response.eventIterator)
  {
    while it.pos < |it.response.chunks|
      invariant Decoded(it)
      invariant it.response.eventIterator == old(it.response.eventIterator)
      decreases |it.response.chunks| - it.pos
    {
      Advance(it);
    }
  }

  /** Iterating a fresh streamed response to the end: the parts manager sees every
      chunk's calls in order, every chunk's usage is added, and what is yielded is
      the parts manager's non-`None` events; `get()` then holds the parts of all calls. */
  method Consume(response: OpenAIStream) returns (it: EventIterator<OpenAIChunk, ()>)
    requires response.eventIterator == null && response.calls == [] && response.usage == NoUsage
    modifies response
    ensures fresh(it) && response.eventIterator == it && it.response == response
    ensures response.calls == StreamCalls(response.chunks)
    ensures response.usage == StreamUsage(response.chunks)
    ensures it.yielded == AsYielded(Emitted(response.manager, StreamCalls(response.chunks)))
    ensures response.Get().parts == response.manager.parts(StreamCalls(response.chunks))
  {
    it := response.AIter();
    Drain(it);
    assert response.chunks[..it.pos] == response.chunks;
  }

  /** The text deltas' contents, in order. */
  function DeltaTexts(calls: seq<ManagerCall>): seq<string> {
    if calls == [] then []
    else
      var last := calls[|calls| - 1];
      DeltaTexts(calls[..|calls| - 1]) + (if last.TextDelta? then [last.content] else [])
  }

  /** The first choice's content of every chunk that has one, in order. */
  function ChunkTexts(chunks: seq<OpenAIChunk>): seq<string> {
    if chunks == [] then []
    else
      var last := chunks[|chunks| - 1];
      ChunkTexts(chunks[..|chunks| - 1])
      + (if last.choices != [] && last.choices[0].content.Some? then [last.choices[0].content.value] else [])
  }

  lemma {:induction false} DeltaTextsAppend(a: seq<ManagerCall>, b: seq<ManagerCall>)
    ensures DeltaTexts(a + b) == DeltaTexts(a) + DeltaTexts(b)
    decreases |b|
  {
    if b != [] {
      var b' := b[..|b| - 1];
      assert (a + b)[..|a + b| - 1] == a + b';
      DeltaTextsAppend(a, b');
    } else {
      assert a + b == a;
    }
  }

  lemma {:induction false} DeltaTextsOfToolDeltas(deltas: seq<ToolCallChunk>)
    ensures DeltaTexts(ToolDeltaCalls(deltas)) == []
  {
    if deltas != [] {
      var n := |deltas| - 1;
      assert ToolDeltaCalls(deltas)[..n] == ToolDeltaCalls(deltas[..n]);
      DeltaTextsOfToolDeltas(deltas[..n]);
    }
  }

  /** Every text delta is routed to the one vendor part id `'content'`. */
  lemma {:induction false} TextDeltasOnContent(chunks: seq<OpenAIChunk>)
    ensures forall i | 0 <= i < |StreamCalls(chunks)| && StreamCalls(chunks)[i].TextDelta? ::
      StreamCalls(chunks)[i].vendorPartId == ContentId
  {
    if chunks != [] {
      TextDeltasOnContent(chunks[..|chunks| - 1]);
    }
  }

  /** The streamed text is exactly the chunks' contents, in order and in full. */
  lemma {:induction false} StreamTextsFaithful(chunks: seq<OpenAIChunk>)
    ensures DeltaTexts(StreamCalls(chunks)) == ChunkTexts(chunks)
  {
    if chunks != [] {
      var prefix := chunks[..|chunks| - 1];
      var last := chunks[|chunks| - 1];
      StreamTextsFaithful(prefix);
      DeltaTextsAppend(StreamCalls(prefix), ChunkCalls(last));
      ChunkText(last);
    }
  }

  /** One chunk's text deltas: its first choice's content, if any. */
  lemma ChunkText(chunk: OpenAIChunk)
    ensures DeltaTexts(ChunkCalls(chunk)) ==
      if chunk.choices != [] && chunk.choices[0].content.Some? then [chunk.choices[0].content.value] else []
  {
    if chunk.choices != [] {
      var choice := chunk.choices[0];
      var deltas := ToolDeltaCalls(choice.toolCalls.GetOr([]));
      DeltaTextsOfToolDeltas(choice.toolCalls.GetOr([]));
      if choice.content.Some? {
        DeltaTextsAppend([TextDelta(ContentId, choice.content.value)], deltas);
        assert DeltaTexts([TextDelta(ContentId, choice.content.value)]) == [choice.content.value] by {
          assert [TextDelta(ContentId, choice.content.value)][..0] == [];
        }
      } else {
        assert [] + deltas == deltas;
      }
    }
  }

  /** A chunk without choices changes only the usage. */
  lemma EmptyChoicesOnlyUsage(chunks: seq<OpenAIChunk>, chunk: OpenAIChunk)
    requires chunk.choices == []
    ensures StreamCalls(chunks + [chunk]) == StreamCalls(chunks)
    ensures StreamUsage(chunks + [chunk]) == Sum(StreamUsage(chunks), MapUsage(chunk.usage))
  {
    assert (chunks + [chunk])[..|chunks|] == chunks;
  }

  const EmptyStream := "Streamed response ended without content or tool calls"

  /** `_process_streamed_response`: an empty stream is an error; otherwise the
      response is stamped with the first chunk's creation time. */
  method ProcessStreamedResponse(model: OpenAIModel, chunks: seq<OpenAIChunk>, manager: PartsManagerSpec)
    returns (r: Result<OpenAIStream, Error>)
    ensures chunks == [] <==> r.Failure?
    ensures r.Failure? ==> r.error == UnexpectedModelBehavior(EmptyStream)
    ensures r.Success? ==>
      && fresh(r.value) && r.value.chunks == chunks && r.value.manager == manager
      && r.value.modelName == model.modelName && r.value.timestamp == chunks[0].created
      && r.value.calls == [] && r.value.usage == NoUsage && r.value.eventIterator == null
  {
    if chunks == [] {
      return Failure(UnexpectedModelBehavior(EmptyStream));
    }
    var response := new StreamedResponse(model.modelName, chunks[0].created, chunks, manager, ());
    r := Success(response);
  }

  // ---------------------------------------------------------------------------
  // request / request_stream

  /** What a unary request produces: the parameters sent, and the mapped reply. */
  datatype Exchange = Exchange(sent: CompletionParams, response: ModelResponse, usage: Usage)

  /** `request`: the gate, the parameters, then the reply `completion` (the network
      call itself is not part of this model) mapped into a response and a usage. */
  method Request(gate: RequestGate, model: OpenAIModel, messages: seq<ModelMessage>,
                 settings: Option<ModelSettings>, params: ModelRequestParameters, completion: ChatCompletion)
    returns (r: Result<Exchange, Error>)
    ensures r.Failure? <==>
      || !gate.allowModelRequests
      || (UsesStructured(OrEmpty(settings)) && params.resultTools == [])
      || completion.choices == []
    ensures !gate.allowModelRequests ==> r == Failure(RuntimeError(RequestsNotAllowed))
    ensures gate.allowModelRequests && UsesStructured(OrEmpty(settings)) && params.resultTools == [] ==>
      r == Failure(ValueError(NoResultTool))
    ensures gate.allowModelRequests && !(UsesStructured(OrEmpty(settings)) && params.resultTools == [])
            && completion.choices == [] ==>
      r == Failure(IndexError(IndexOutOfRange))
    ensures r.Success? ==>
      && SentFor(r.value.sent, model, messages, false, OrEmpty(settings), params)
      && r.value.response == ModelResponse(ResponseParts(completion.choices[0]), Some(model.modelName), completion.created)
      && r.value.usage == MapUsage(completion.usage)
  {
    var allowed := gate.CheckAllowModelRequests();
    if allowed.Fail? {
      return Failure(allowed.error);
    }
    var sent :- CompletionsCreate(model, messages, false, OrEmpty(settings), params);
    var response :- ProcessResponse(model, completion);
    r := Success(Exchange(sent, response, MapUsage(completion.usage)));
  }

  /** `request_stream` up to the point where the streamed response is yielded:
      the gate, the parameters, then the reply `chunks`. `sent` holds the arguments
      of the streaming `chat.completions.create` call, when it is made. */
  method RequestStream(gate: RequestGate, model: OpenAIModel, messages: seq<ModelMessage>,
                       settings: Option<ModelSettings>, params: ModelRequestParameters,
                       chunks: seq<OpenAIChunk>, manager: PartsManagerSpec)
    returns (r: Result<OpenAIStream, Error>, sent: Option<CompletionParams>)
    ensures sent.Some? <==> gate.allowModelRequests && !(UsesStructured(OrEmpty(settings)) && params.resultTools == [])
    ensures sent.Some? ==> SentFor(sent.value, model, messages, true, OrEmpty(settings), params)
    ensures r.Failure? <==>
      || !gate.allowModelRequests
      || (UsesStructured(OrEmpty(settings)) && params.resultTools == [])
      || chunks == []
    ensures !gate.allowModelRequests ==> r == Failure(RuntimeError(RequestsNotAllowed))
    ensures gate.allowModelRequests && UsesStructured(OrEmpty(settings)) && params.resultTools == [] ==>
      r == Failure(ValueError(NoResultTool))
    ensures gate.allowModelRequests && !(UsesStructured(OrEmpty(settings)) && params.resultTools == [])
            && chunks == [] ==>
      r == Failure(UnexpectedModelBehavior(EmptyStream))
    ensures r.Success? ==>
      && fresh(r.value) && r.value.chunks == chunks && r.value.manager == manager
      && r.value.modelName == model.modelName && r.value.timestamp == chunks[0].created
      && r.value.calls == [] && r.value.usage == NoUsage && r.value.eventIterator == null
  {
    sent := None;
    var allowed := gate.CheckAllowModelRequests();
    if allowed.Fail? {
      return Failure(allowed.error), None;
    }
    var created := CompletionsCreate(model, messages, true, OrEmpty(settings), params);
    if created.Failure? {
      return Failure(created.error), None;
    }
    sent := Some(created.value);
    r := ProcessStreamedResponse(model, chunks, manager);
  }
}
