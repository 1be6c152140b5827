/** pydantic_ai/models/bedrock.py: translation of a request into the parameters of
    a Converse call, of the reply back into a `ModelResponse`, and the decoder of a
    Converse stream. */
module Bedrock {
  import opened Wrappers
  import opened Exceptions
  import opened Strings
  import opened Messages
  import opened Models

  /** The field of `BedrockModel` the translation reads; `system` is always
      `'bedrock'` and the boto3 client is not part of this model. */
  datatype BedrockModel = BedrockModel(modelName: string)

  const System := "bedrock"

  // ---------------------------------------------------------------------------
  // exclude_none and the inference configuration

  /** `exclude_none`: the entries whose value is not `None`, values unchanged. */
  function ExcludeNone<K(!new), V>(data: map<K, Option<V>>): (r: map<K, V>)
    ensures forall k :: k in r <==> k in data && data[k].Some?
    ensures forall k | k in r :: r[k] == data[k].value
  {
    map k | k in data && data[k].Some? :: data[k].value
  }

  /** A dictionary without `None` values, seen as one that may hold them. */
  function Lift<K, V>(data: map<K, V>): (r: map<K, Option<V>>)
    ensures r.Keys == data.Keys
    ensures forall k | k in data :: r[k] == Some(data[k])
  {
    map k | k in data :: Some(data[k])
  }

  /** Removing `None`s a second time changes nothing. */
  lemma ExcludeNoneIdempotent<K(!new), V>(data: map<K, Option<V>>)
    ensures ExcludeNone(Lift(ExcludeNone(data))) == ExcludeNone(data)
  {
  }

  /** `_map_inference_config`: the settings among `max_tokens`, `temperature`
      and `top_p` that are present and not `None`, renamed. */
  function MapInferenceConfig(settings: Option<ModelSettings>): (r: map<string, SettingValue>)
    ensures var s := OrEmpty(settings);
      && r.Keys <= {"maxTokens", "temperature", "topP"}
      && ("maxTokens" in r <==> HasValue(s, "max_tokens"))
      && ("temperature" in r <==> HasValue(s, "temperature"))
      && ("topP" in r <==> HasValue(s, "top_p"))
      && ("maxTokens" in r ==> r["maxTokens"] == s["max_tokens"])
      && ("temperature" in r ==> r["temperature"] == s["temperature"])
      && ("topP" in r ==> r["topP"] == s["top_p"])
  {
    var s := OrEmpty(settings);
    ExcludeNone(map["maxTokens" := Get(s, "max_tokens"),
                    "temperature" := Get(s, "temperature"),
                    "topP" := Get(s, "top_p")])
  }

  // ---------------------------------------------------------------------------
  // Tools and the tool configuration

  /** `{'toolSpec': {'name', 'description', 'inputSchema': {'json': schema}}}` */
  datatype ToolSpec = ToolSpec(name: string, description: string, inputSchema: Json)

  /** `_map_tool_definition` */
  function MapToolDefinition(f: ToolDefinition): ToolSpec {
    ToolSpec(f.name, f.description, f.parametersJsonSchema)
  }

  /** `_get_tools`: the function tools, then the result tools, each mapped. */
  function GetTools(params: ModelRequestParameters): (tools: seq<ToolSpec>)
    ensures |tools| == |params.functionTools| + |params.resultTools|
    ensures forall i | 0 <= i < |params.functionTools| :: tools[i] == MapToolDefinition(params.functionTools[i])
    ensures forall j | 0 <= j < |params.resultTools| ::
      tools[|params.functionTools| + j] == MapToolDefinition(params.resultTools[j])
  {
    seq(|params.functionTools|, i requires 0 <= i < |params.functionTools| => MapToolDefinition(params.functionTools[i]))
    + seq(|params.resultTools|, j requires 0 <= j < |params.resultTools| => MapToolDefinition(params.resultTools[j]))
  }

  /** `{'any': {}}` or `{'auto': {}}` */
  datatype ToolChoice = AnyTool | AutoTool

  /** `model_name.startswith('anthropic') or 'anthropic' in model_name` */
  predicate SupportsToolChoice(modelName: string) {
    StartsWith(modelName, "anthropic") || Contains(modelName, "anthropic")
  }

  /** The `startswith` test adds nothing to the containment test. */
  lemma SupportsToolChoiceContains(modelName: string)
    ensures SupportsToolChoice(modelName) <==> Contains(modelName, "anthropic")
  {
    if StartsWith(modelName, "anthropic") {
      StartsWithContains(modelName, "anthropic");
    }
  }

  /** The tool choice: none without tools or for a model whose name does not
      mention `anthropic`; otherwise `any` when text results are disallowed, else `auto`. */
  function ToolChoiceFor(modelName: string, tools: seq<ToolSpec>, allowTextResult: bool): (r: Option<ToolChoice>)
    ensures r.None? <==> tools == [] || !SupportsToolChoice(modelName)
    ensures r == Some(AnyTool) <==> tools != [] && SupportsToolChoice(modelName) && !allowTextResult
    ensures r == Some(AutoTool) <==> tools != [] && SupportsToolChoice(modelName) && allowTextResult
  {
    if tools == [] || !SupportsToolChoice(modelName) then None
    else if !allowTextResult then Some(AnyTool)
    else Some(AutoTool)
  }

  /** `toolConfig`: the tools, and the tool choice only when there is one. */
  datatype ToolConfig = ToolConfig(tools: seq<ToolSpec>, toolChoice: Option<ToolChoice>)

  // ---------------------------------------------------------------------------
  // Messages

  datatype Role = UserRole | AssistantRole

  datatype ToolStatus = StatusSuccess | StatusError

  /** A content block. A tool result's text is `model_response_str()` of a tool
      return or `model_response()` of a retry; a tool use's input stands for
      `args_as_dict()` of these arguments. */
  datatype ContentBlock =
    | TextBlock(text: string)
    | ToolResultBlock(toolUseId: string, rendered: Rendered, status: ToolStatus)
    | ToolUseBlock(toolUseId: string, name: string, input: ToolArgs)

  datatype BedrockMessage = BedrockMessage(role: Role, content: seq<ContentBlock>)

  const UserPromptNotString := "User prompt can only be a string for now."
  const RetryNotString := "TODO(Marcelo): Should we do something here?"

  /** The two results `_map_message` builds as it goes. */
  datatype Mapped = Mapped(systemPrompt: string, messages: seq<BedrockMessage>)

  /** One request part added to what has been mapped so far. */
  function StepPart(st: Mapped, part: ModelRequestPart): (r: Result<Mapped, Error>)
    ensures part.SystemPromptPart? ==> r == Success(Mapped(st.systemPrompt + part.content, st.messages))
    ensures part.UserPromptPart? && part.user.UserText? ==>
      r == Success(Mapped(st.systemPrompt, st.messages + [BedrockMessage(UserRole, [TextBlock(part.user.text)])]))
    ensures part.UserPromptPart? && part.user.UserItems? ==> r == Failure(NotImplementedError(UserPromptNotString))
    ensures part.ToolReturnPart? && part.toolCallId.None? ==> r == Failure(AssertionError(""))
    ensures part.ToolReturnPart? && part.toolCallId.Some? ==>
      r == Success(Mapped(st.systemPrompt, st.messages +
        [BedrockMessage(UserRole, [ToolResultBlock(part.toolCallId.value, ModelResponseStrOf(part), StatusSuccess)])]))
    ensures part.RetryPromptPart? && part.retryToolName.None? && part.retry.RetryText? ==>
      r == Success(Mapped(st.systemPrompt, st.messages + [BedrockMessage(UserRole, [TextBlock(part.retry.text)])]))
    ensures part.RetryPromptPart? && part.retryToolName.None? && part.retry.RetryErrors? ==>
      r == Failure(AssertionError(RetryNotString))
    ensures part.RetryPromptPart? && part.retryToolName.Some? && part.toolCallId.None? ==> r == Failure(AssertionError(""))
    ensures part.RetryPromptPart? && part.retryToolName.Some? && part.toolCallId.Some? ==>
      r == Success(Mapped(st.systemPrompt, st.messages +
        [BedrockMessage(UserRole, [ToolResultBlock(part.toolCallId.value, ModelResponseOf(part), StatusError)])]))
    ensures r.Failure? <==>
      || (part.UserPromptPart? && part.user.UserItems?)
      || (part.ToolReturnPart? && part.toolCallId.None?)
      || (part.RetryPromptPart? && part.retryToolName.None? && part.retry.RetryErrors?)
      || (part.RetryPromptPart? && part.retryToolName.Some? && part.toolCallId.None?)
    ensures r.Success? && !part.SystemPromptPart? ==>
      r.value.systemPrompt == st.systemPrompt && |r.value.messages| == |st.messages| + 1
      && r.value.messages[..|st.messages|] == st.messages && r.value.messages[|st.messages|].role == UserRole
  {
    match part
    case SystemPromptPart(content) => Success(Mapped(st.systemPrompt + content, st.messages))
    case UserPromptPart(user) =>
      if user.UserText? then Success(Mapped(st.systemPrompt, st.messages + [BedrockMessage(UserRole, [TextBlock(user.text)])]))
      else Failure(NotImplementedError(UserPromptNotString))
    case ToolReturnPart(_, _, id) =>
      if id.None? then Failure(AssertionError(""))
      else Success(Mapped(st.systemPrompt, st.messages +
        [BedrockMessage(UserRole, [ToolResultBlock(id.value, ModelResponseStrOf(part), StatusSuccess)])]))
    case RetryPromptPart(retry, toolName, id) =>
      if toolName.None? then
        if retry.RetryText? then Success(Mapped(st.systemPrompt, st.messages + [BedrockMessage(UserRole, [TextBlock(retry.text)])]))
        else Failure(AssertionError(RetryNotString))
      else if id.None? then Failure(AssertionError(""))
      else Success(Mapped(st.systemPrompt, st.messages +
        [BedrockMessage(UserRole, [ToolResultBlock(id.value, ModelResponseOf(part), StatusError)])]))
  }

  /** `_map_tool_call`: a tool call must carry an id. */
  function MapToolCall(t: ModelResponsePart): (r: Result<ContentBlock, Error>)
    requires t.ToolCallPart?
    ensures r.Failure? <==> t.toolCallId.None?
    ensures r.Success? ==> r.value == ToolUseBlock(t.toolCallId.value, t.toolName, t.args)
  {
    if t.toolCallId.None? then Failure(AssertionError(""))
    else Success(ToolUseBlock(t.toolCallId.value, t.toolName, t.args))
  }

  /** The blocks of the assistant message of a response, in part order. */
  function AssistantBlocks(parts: seq<ModelResponsePart>): (r: Result<seq<ContentBlock>, Error>)
    ensures r.Success? ==> |r.value| == |parts|
  {
    if parts == [] then Success([])
    else
      var blocks :- AssistantBlocks(parts[..|parts| - 1]);
      var last := parts[|parts| - 1];
      if last.TextPart? then Success(blocks + [TextBlock(last.content)])
      else
        var block :- MapToolCall(last);
        Success(blocks + [block])
  }

  /** The blocks follow the parts one to one, and mapping fails exactly when a
      tool call has no id. */
  lemma {:induction false} AssistantBlocksFaithful(parts: seq<ModelResponsePart>)
    ensures AssistantBlocks(parts).Failure? <==>
      exists i | 0 <= i < |parts| :: parts[i].ToolCallPart? && parts[i].toolCallId.None?
    ensures AssistantBlocks(parts).Success? ==> forall i | 0 <= i < |parts| ::
      AssistantBlocks(parts).value[i] ==
        if parts[i].TextPart? then TextBlock(parts[i].content)
        else ToolUseBlock(parts[i].toolCallId.value, parts[i].toolName, parts[i].args)
  {
    if parts != [] {
      var prefix := parts[..|parts| - 1];
      AssistantBlocksFaithful(prefix);
      assert forall i | 0 <= i < |prefix| :: prefix[i] == parts[i];
    }
  }

  /** Request parts added in order; the first failure stops the mapping. */
  function StepParts(st: Mapped, parts: seq<ModelRequestPart>): Result<Mapped, Error> {
    if parts == [] then Success(st)
    else
      var before :- StepParts(st, parts[..|parts| - 1]);
      StepPart(before, parts[|parts| - 1])
  }

  /** One message added to what has been mapped so far. */
  function StepMessage(st: Mapped, m: ModelMessage): Result<Mapped, Error> {
    match m
    case ModelRequest(parts) => StepParts(st, parts)
    case Response(response) =>
      var blocks :- AssistantBlocks(response.parts);
      Success(Mapped(st.systemPrompt, st.messages + [BedrockMessage(AssistantRole, blocks)]))
  }

  /** Once a prefix of the parts fails, the mapping of all of them fails the same way. */
  lemma {:induction false} StepPartsStops(st: Mapped, parts: seq<ModelRequestPart>, i: int)
    requires 0 <= i <= |parts| && StepParts(st, parts[..i]).Failure?
    ensures StepParts(st, parts) == StepParts(st, parts[..i])
  {
    if i < |parts| {
      var n := |parts| - 1;
      assert parts[..n][..i] == parts[..i];
      StepPartsStops(st, parts[..n], i);
    } else {
      assert parts[..i] == parts;
    }
  }

  /** Once a prefix of the parts fails, the assistant blocks of all of them fail the same way. */
  lemma {:induction false} AssistantBlocksStops(parts: seq<ModelResponsePart>, i: int)
    requires 0 <= i <= |parts| && AssistantBlocks(parts[..i]).Failure?
    ensures AssistantBlocks(parts) == AssistantBlocks(parts[..i])
  {
    if i < |parts| {
      var n := |parts| - 1;
      assert parts[..n][..i] == parts[..i];
      AssistantBlocksStops(parts[..n], i);
    } else {
      assert parts[..i] == parts;
    }
  }

  /** `_map_message(messages)`: the system prompt and the Bedrock messages. */
  function MapMessages(messages: seq<ModelMessage>): Result<Mapped, Error> {
    if messages == [] then Success(Mapped("", []))
    else
      var before :- MapMessages(messages[..|messages| - 1]);
      StepMessage(before, messages[|messages| - 1])
  }

  /** Once a prefix of the history fails, the mapping of all of it fails the same way. */
  lemma {:induction false} MapMessagesStops(messages: seq<ModelMessage>, i: int)
    requires 0 <= i <= |messages| && MapMessages(messages[..i]).Failure?
    ensures MapMessages(messages) == MapMessages(messages[..i])
  {
    if i < |messages| {
      var n := |messages| - 1;
      assert messages[..n][..i] == messages[..i];
      MapMessagesStops(messages[..n], i);
    } else {
      assert messages[..i] == messages;
    }
  }

  /** The system prompts of a history, in order, with no separator. */
  function SystemPrompts(messages: seq<ModelMessage>): string {
    if messages == [] then ""
    else SystemPrompts(messages[..|messages| - 1]) + SystemPromptsOf(messages[|messages| - 1])
  }

  function SystemPromptsOf(m: ModelMessage): string {
    if m.Response? then "" else PartsSystemPrompts(m.parts)
  }

  function PartsSystemPrompts(parts: seq<ModelRequestPart>): string {
    if parts == [] then ""
    else
      var last := parts[|parts| - 1];
      PartsSystemPrompts(parts[..|parts| - 1]) + (if last.SystemPromptPart? then last.content else "")
  }

  /** How many Bedrock messages a history gives: one per request part other than
      a system prompt, and one per response. */
  function MessageCount(messages: seq<ModelMessage>): nat {
    if messages == [] then 0
    else
      var last := messages[|messages| - 1];
      MessageCount(messages[..|messages| - 1])
      + (if last.Response? then 1 else NonSystemCount(last.parts))
  }

  function NonSystemCount(parts: seq<ModelRequestPart>): nat {
    if parts == [] then 0
    else NonSystemCount(parts[..|parts| - 1]) + (if parts[|parts| - 1].SystemPromptPart? then 0 else 1)
  }

  lemma {:induction false} StepPartsShape(st: Mapped, parts: seq<ModelRequestPart>)
    ensures StepParts(st, parts).Success? ==>
      && StepParts(st, parts).value.systemPrompt == st.systemPrompt + PartsSystemPrompts(parts)
      && |StepParts(st, parts).value.messages| == |st.messages| + NonSystemCount(parts)
  {
    if parts != [] {
      StepPartsShape(st, parts[..|parts| - 1]);
    }
  }

  /** On success the system prompt is all system prompts joined in order with no
      separator, and the messages are one per non-system request part and one per
      response: system prompts are never sent as messages. */
  lemma {:induction false} MapMessagesShape(messages: seq<ModelMessage>)
    ensures MapMessages(messages).Success? ==>
      && MapMessages(messages).value.systemPrompt == SystemPrompts(messages)
      && |MapMessages(messages).value.messages| == MessageCount(messages)
  {
    if messages != [] {
      var prefix := messages[..|messages| - 1];
      MapMessagesShape(prefix);
      var before := MapMessages(prefix);
      if before.Success? && messages[|messages| - 1].ModelRequest? {
        StepPartsShape(before.value, messages[|messages| - 1].parts);
      }
    }
  }

  /** A non-string user prompt anywhere in the parts makes the mapping fail. */
  lemma {:induction false} StepPartsRejectsItems(st: Mapped, parts: seq<ModelRequestPart>, i: int)
    requires 0 <= i < |parts| && parts[i].UserPromptPart? && parts[i].user.UserItems?
    ensures StepParts(st, parts).Failure?
  {
    var n := |parts| - 1;
    if i < n {
      StepPartsRejectsItems(st, parts[..n], i);
    }
  }

  /** A non-string user prompt anywhere in the history makes the mapping fail. */
  lemma {:induction false} MapMessagesRejectsItems(messages: seq<ModelMessage>, j: int, i: int)
    requires 0 <= j < |messages| && messages[j].ModelRequest?
    requires 0 <= i < |messages[j].parts| && messages[j].parts[i].UserPromptPart?
    requires messages[j].parts[i].user.UserItems?
    ensures MapMessages(messages).Failure?
  {
    var n := |messages| - 1;
    if j < n {
      MapMessagesRejectsItems(messages[..n], j, i);
    } else if MapMessages(messages[..n]).Success? {
      StepPartsRejectsItems(MapMessages(messages[..n]).value, messages[n].parts, i);
    }
  }

  /** The request half of the loop: the parts of one `ModelRequest`. */
  method MapRequestParts(st: Mapped, parts: seq<ModelRequestPart>) returns (r: Result<Mapped, Error>)
    ensures r == StepParts(st, parts)
  {
    var systemPrompt := st.systemPrompt;
    var out := st.messages;
    var i := 0;
    while i < |parts|
      invariant 0 <= i <= |parts|
      invariant StepParts(st, parts[..i]) == Success(Mapped(systemPrompt, out))
    {
      assert parts[..i + 1][..i] == parts[..i];
      var next := StepPart(Mapped(systemPrompt, out), parts[i]);
      if next.Failure? {
        StepPartsStops(st, parts, i + 1);
        return Failure(next.error);
      }
      systemPrompt, out := next.value.systemPrompt, next.value.messages;
      i := i + 1;
    }
    assert parts[..i] == parts;
    r := Success(Mapped(systemPrompt, out));
  }

  /** The response half of the loop: the blocks of one `ModelResponse`. */
  method MapResponseParts(parts: seq<ModelResponsePart>) returns (r: Result<seq<ContentBlock>, Error>)
    ensures r == AssistantBlocks(parts)
  {
    var content: seq<ContentBlock> := [];
    var i := 0;
    while i < |parts|
      invariant 0 <= i <= |parts|
      invariant AssistantBlocks(parts[..i]) == Success(content)
    {
      assert parts[..i + 1][..i] == parts[..i];
      var item := parts[i];
      if item.TextPart? {
        content := content + [TextBlock(item.content)];
      } else {
        var block := MapToolCall(item);
        if block.Failure? {
          AssistantBlocksStops(parts, i + 1);
          return Failure(block.error);
        }
        content := content + [block.value];
      }
      i := i + 1;
    }
    assert parts[..i] == parts;
    r := Success(content);
  }

  /** `_map_message`: one pass over the history. */
  method MapAllMessages(messages: seq<ModelMessage>) returns (r: Result<Mapped, Error>)
    ensures r == MapMessages(messages)
  {
    var st := Mapped("", []);
    var i := 0;
    while i < |messages|
      invariant 0 <= i <= |messages|
      invariant MapMessages(messages[..i]) == Success(st)
    {
      assert messages[..i + 1][..i] == messages[..i];
      match messages[i] {
        case ModelRequest(parts) =>
          var next := MapRequestParts(st, parts);
          if next.Failure? {
            MapMessagesStops(messages, i + 1);
            return Failure(next.error);
          }
          st := next.value;
        case Response(response) =>
          var blocks := MapResponseParts(response.parts);
          if blocks.Failure? {
            MapMessagesStops(messages, i + 1);
            return Failure(blocks.error);
          }
          st := Mapped(st.systemPrompt, st.messages + [BedrockMessage(AssistantRole, blocks.value)]);
      }
      i := i + 1;
    }
    assert messages[..i] == messages;
    r := Success(st);
  }

  // ---------------------------------------------------------------------------
  // _messages_create

  /** The keyword arguments of `converse` (`stream` false) or `converse_stream`
      (`stream` true). */
  datatype ConverseParams = ConverseParams(
    stream: bool,
    modelId: string,
    messages: seq<BedrockMessage>,
    system: seq<string>,
    inferenceConfig: map<string, SettingValue>,
    toolConfig: Option<ToolConfig>)

  /** The arguments `_messages_create` passes to the client when the messages map:
      the model id, the mapped messages, the system prompt as a one-element list,
      the inference configuration, and a tool configuration only when there are
      tools. */
  predicate SentFor(p: ConverseParams, model: BedrockModel, messages: seq<ModelMessage>, stream: bool,
                    settings: Option<ModelSettings>, params: ModelRequestParameters)
  {
    var tools := GetTools(params);
    && MapMessages(messages).Success?
    && p.stream == stream
    && p.modelId == model.modelName
    && p.messages == MapMessages(messages).value.messages
    && p.system == [MapMessages(messages).value.systemPrompt]
    && p.inferenceConfig == MapInferenceConfig(settings)
    && (p.toolConfig.None? <==> tools == [])
    && (p.toolConfig.Some? ==>
          p.toolConfig.value == ToolConfig(tools, ToolChoiceFor(model.modelName, tools, params.allowTextResult)))
  }

  /** `_messages_create` up to the call of the client. */
  method MessagesCreate(model: BedrockModel, messages: seq<ModelMessage>, stream: bool,
                        settings: Option<ModelSettings>, params: ModelRequestParameters)
    returns (r: Result<ConverseParams, Error>)
    ensures r.Failure? <==> MapMessages(messages).Failure?
    ensures r.Failure? ==> r.error == MapMessages(messages).error
    ensures r.Success? ==> SentFor(r.value, model, messages, stream, settings, params)
  {
    var tools := GetTools(params);
    var toolChoice := ToolChoiceFor(model.modelName, tools, params.allowTextResult);
    var mapped :- MapAllMessages(messages);
    var inferenceConfig := MapInferenceConfig(settings);
    var toolConfig := if tools != [] then Some(ToolConfig(tools, toolChoice)) else None;
    r := Success(ConverseParams(stream, model.modelName, mapped.messages, [mapped.systemPrompt], inferenceConfig, toolConfig));
  }

  // ---------------------------------------------------------------------------
  // Non-streamed responses

  datatype ToolUse = ToolUse(toolUseId: string, name: string, input: map<string, Json>)

  /** An item of `response['output']['message']['content']`. */
  datatype OutputBlock = OutputBlock(text: Option<string>, toolUse: Option<ToolUse>)

  datatype TokenUsage = TokenUsage(inputTokens: int, outputTokens: int, totalTokens: int)

  datatype ConverseResponse = ConverseResponse(content: seq<OutputBlock>, usage: TokenUsage)

  /** `item.get('text')` is truthy. */
  predicate HasText(item: OutputBlock) {
    item.text.Some? && item.text.value != ""
  }

  /** The part of one output item; an item with neither text nor a tool use fails
      the `assert`. */
  function OutputPart(item: OutputBlock): Result<ModelResponsePart, Error> {
    if HasText(item) then Success(TextPart(item.text.value))
    else if item.toolUse.None? then Failure(AssertionError(""))
    else Success(ToolCallPart(item.toolUse.value.name, ArgsDict(item.toolUse.value.input), Some(item.toolUse.value.toolUseId)))
  }

  function OutputParts(content: seq<OutputBlock>): Result<seq<ModelResponsePart>, Error> {
    if content == [] then Success([])
    else
      var parts :- OutputParts(content[..|content| - 1]);
      var part :- OutputPart(content[|content| - 1]);
      Success(parts + [part])
  }

  /** Once a prefix of the items fails, the parts of all of them fail the same way. */
  lemma {:induction false} OutputPartsStops(content: seq<OutputBlock>, i: int)
    requires 0 <= i <= |content| && OutputParts(content[..i]).Failure?
    ensures OutputParts(content) == OutputParts(content[..i])
  {
    if i < |content| {
      var n := |content| - 1;
      assert content[..n][..i] == content[..i];
      OutputPartsStops(content[..n], i);
    } else {
      assert content[..i] == content;
    }
  }

  /** One part per item in order: a text part for truthy text, otherwise a tool
      call; the reply is rejected exactly when some item has neither. */
  lemma {:induction false} OutputPartsFaithful(content: seq<OutputBlock>)
    ensures OutputParts(content).Failure? <==>
      exists i | 0 <= i < |content| :: !HasText(content[i]) && content[i].toolUse.None?
    ensures OutputParts(content).Success? ==>
      && |OutputParts(content).value| == |content|
      && forall i | 0 <= i < |content| ::
           (OutputParts(content).value[i].TextPart? <==> HasText(content[i]))
           && OutputParts(content).value[i] == OutputPart(content[i]).value
  {
    if content != [] {
      var prefix := content[..|content| - 1];
      OutputPartsFaithful(prefix);
      assert forall i | 0 <= i < |prefix| :: prefix[i] == content[i];
    }
  }

  /** The usage of a reply: input, output and total tokens, no details. */
  function MapUsage(u: TokenUsage): (r: Usage)
    ensures r.Usage? && r.details.None?
    ensures r.requestTokens == Some(u.inputTokens) && r.responseTokens == Some(u.outputTokens)
    ensures r.totalTokens == Some(u.totalTokens)
  {
    Usage(Some(u.inputTokens), Some(u.outputTokens), Some(u.totalTokens), None)
  }

  /** `_process_response`; `now` is the default timestamp of the `ModelResponse`. */
  method ProcessResponse(model: BedrockModel, response: ConverseResponse, now: Timestamp)
    returns (r: Result<(ModelResponse, Usage), Error>)
    ensures OutputParts(response.content).Failure? ==> r == Failure(OutputParts(response.content).error)
    ensures OutputParts(response.content).Success? ==>
      r == Success((ModelResponse(OutputParts(response.content).value, Some(model.modelName), now), MapUsage(response.usage)))
  {
    var items: seq<ModelResponsePart> := [];
    var i := 0;
    while i < |response.content|
      invariant 0 <= i <= |response.content|
      invariant OutputParts(response.content[..i]) == Success(items)
    {
      assert response.content[..i + 1][..i] == response.content[..i];
      var part := OutputPart(response.content[i]);
      if part.Failure? {
        OutputPartsStops(response.content, i + 1);
        return Failure(part.error);
      }
      items := items + [part.value];
      i := i + 1;
    }
    assert response.content[..i] == response.content;
    r := Success((ModelResponse(items, Some(model.modelName), now), MapUsage(response.usage)));
  }

  // ---------------------------------------------------------------------------
  // The streamed response

  datatype Metadata = Metadata(usage: Option<TokenUsage>)
  datatype ToolUseStart = ToolUseStart(toolUseId: string, name: string)
  datatype BlockStart = BlockStart(index: int, toolUse: Option<ToolUseStart>)
  datatype ToolUseDelta = ToolUseDelta(name: Option<string>, input: Option<string>)
  datatype BlockDelta = BlockDelta(index: int, text: Option<string>, toolUse: Option<ToolUseDelta>)

  /** A `ConverseStreamOutput` event: which of its keys are present. */
  datatype BedrockChunk = BedrockChunk(
    messageStart: bool, messageStop: bool, metadata: Option<Metadata>,
    blockStart: Option<BlockStart>, blockDelta: Option<BlockDelta>)

  /** The decoder carries the local `tool_id`, unbound (`None`) until the first
      `toolUse` block start. */
  type BedrockStream = StreamedResponse<BedrockChunk, Option<string>>

  const ToolIdVariable := "tool_id"

  /** The generator's state between chunks: calls made, `tool_id`, usage, and the
      exception that ended it. */
  datatype Decoder = Decoder(calls: seq<ManagerCall>, toolId: Option<string>, usage: Usage, error: Option<Error>)

  /** A chunk the loop passes over with `continue`. */
  predicate Skipped(c: BedrockChunk) {
    c.messageStart || c.messageStop || c.metadata.Some?
  }

  /** `contentBlockStart` with a `toolUse` start. */
  function StartStep(d: Decoder, c: BedrockChunk): Decoder {
    if c.blockStart.Some? && c.blockStart.value.toolUse.Some? then
      var tu := c.blockStart.value.toolUse.value;
      d.(calls := d.calls + [ToolCallDelta(IndexId(c.blockStart.value.index), Some(tu.name), None, Some(tu.toolUseId))],
         toolId := Some(tu.toolUseId))
    else d
  }

  /** The text part of `contentBlockDelta`. */
  function TextStep(d: Decoder, c: BedrockChunk): Decoder {
    if c.blockDelta.Some? && c.blockDelta.value.text.Some? then
      d.(calls := d.calls + [TextDelta(IndexId(c.blockDelta.value.index), c.blockDelta.value.text.value)])
    else d
  }

  /** The `toolUse` part of `contentBlockDelta`: reads `tool_id`. */
  function ToolDeltaStep(d: Decoder, c: BedrockChunk): Decoder {
    if c.blockDelta.Some? && c.blockDelta.value.toolUse.Some? then
      var tu := c.blockDelta.value.toolUse.value;
      if d.toolId.None? then d.(error := Some(UnboundLocalError(ToolIdVariable)))
      else d.(calls := d.calls + [ToolCallDelta(IndexId(c.blockDelta.value.index), tu.name, tu.input, d.toolId)])
    else d
  }

  /** One turn of the loop. */
  function Step(d: Decoder, c: BedrockChunk): Decoder {
    if d.error.Some? then d
    else if c.messageStart || c.messageStop then d
    else if c.metadata.Some? then
      (if c.metadata.value.usage.Some? then d.(usage := Sum(d.usage, MapUsage(c.metadata.value.usage.value))) else d)
    else ToolDeltaStep(TextStep(StartStep(d, c), c), c)
  }

  /** The generator after a prefix of the stream. */
  function Decode(chunks: seq<BedrockChunk>): Decoder {
    if chunks == [] then Decoder([], None, NoUsage, None)
    else Step(Decode(chunks[..|chunks| - 1]), chunks[|chunks| - 1])
  }

  lemma DecodeStep(chunks: seq<BedrockChunk>, k: int)
    requires 0 <= k < |chunks|
    ensures Decode(chunks[..k + 1]) == Step(Decode(chunks[..k]), chunks[k])
  {
    assert chunks[..k + 1][..k] == chunks[..k];
  }

  /** `messageStart`, `messageStop` and `metadata` chunks make no call; a
      `metadata` chunk with usage adds its mapped usage. */
  lemma SkippedChunks(chunks: seq<BedrockChunk>, c: BedrockChunk)
    requires Skipped(c) && Decode(chunks).error.None?
    ensures Decode(chunks + [c]).calls == Decode(chunks).calls
    ensures Decode(chunks + [c]).toolId == Decode(chunks).toolId
    ensures !c.messageStart && !c.messageStop && c.metadata.value.usage.Some? ==>
      Decode(chunks + [c]).usage == Sum(Decode(chunks).usage, MapUsage(c.metadata.value.usage.value))
    ensures c.messageStart || c.messageStop || c.metadata.value.usage.None? ==>
      Decode(chunks + [c]).usage == Decode(chunks).usage
  {
    assert (chunks + [c])[..|chunks|] == chunks;
  }

  /** The id of the most recent `toolUse` block start. */
  function LastToolStart(chunks: seq<BedrockChunk>): Option<string> {
    if chunks == [] then None
    else
      var c := chunks[|chunks| - 1];
      if !Skipped(c) && c.blockStart.Some? && c.blockStart.value.toolUse.Some? then
        Some(c.blockStart.value.toolUse.value.toolUseId)
      else LastToolStart(chunks[..|chunks| - 1])
  }

  /** A chunk whose delta is a `toolUse` delta. */
  predicate ReadsToolId(c: BedrockChunk) {
    !Skipped(c) && c.blockDelta.Some? && c.blockDelta.value.toolUse.Some?
  }

  /** Chunk `k` reads `tool_id` while no `toolUse` start has bound it. */
  predicate UnboundAt(chunks: seq<BedrockChunk>, k: int) {
    0 <= k < |chunks| && ReadsToolId(chunks[k]) && LastToolStart(chunks[..k + 1]).None?
  }

  /** The carried `tool_id` is the id of the most recent `toolUse` start, and the
      stream fails with an unbound `tool_id` exactly when some `toolUse` delta
      comes before any `toolUse` start (one in its own chunk counts as before). */
  lemma {:induction false} ToolIdCarried(chunks: seq<BedrockChunk>)
    ensures Decode(chunks).error.None? ==> Decode(chunks).toolId == LastToolStart(chunks)
    ensures Decode(chunks).error.Some? <==>
      exists k :: UnboundAt(chunks, k)
    ensures Decode(chunks).error.Some? ==> Decode(chunks).error == Some(UnboundLocalError(ToolIdVariable))
  {
    if chunks != [] {
      var n := |chunks| - 1;
      var prefix := chunks[..n];
      ToolIdCarried(prefix);
      assert chunks[..n + 1] == chunks;
      forall k | 0 <= k < n
        ensures UnboundAt(chunks, k) == UnboundAt(prefix, k)
      {
        assert chunks[..k + 1] == prefix[..k + 1];
      }
      if Decode(prefix).error.None? && ReadsToolId(chunks[n]) && LastToolStart(chunks).None? {
        assert UnboundAt(chunks, n);
      }
    }
  }

  /** Every `toolUse` delta call carries the id of the latest `toolUse` start. */
  lemma ToolDeltaUsesLastStart(chunks: seq<BedrockChunk>, c: BedrockChunk)
    requires ReadsToolId(c) && Decode(chunks + [c]).error.None?
    ensures Decode(chunks + [c]).calls[|Decode(chunks + [c]).calls| - 1].toolCallId == LastToolStart(chunks + [c])
  {
    ToolIdCarried(chunks + [c]);
    assert (chunks + [c])[..|chunks|] == chunks;
    ToolIdCarried(chunks);
  }

  /** The generator state after `it.pos` chunks; every call's result is yielded,
      `None` included. */
  predicate Decoded(it: EventIterator<BedrockChunk, Option<string>>)
    reads it, it.response
  {
    var r := it.response;
    && it.pos <= |r.chunks|
    && var d := Decode(r.chunks[..it.pos]);
    && r.calls == d.calls
    && it.locals == d.toolId
    && r.usage == d.usage
    && it.error == d.error
    && it.yielded == CallEvents(r.manager, r.calls)
  }

  /** Hands one call to the parts manager and yields what it returns. */
  method Yield(it: EventIterator<BedrockChunk, Option<string>>, c: ManagerCall)
    requires it.yielded == CallEvents(it.response.manager, it.response.calls)
    modifies it, it.response
    ensures it.response.calls == old(it.response.calls) + [c]
    ensures it.yielded == CallEvents(it.response.manager, it.response.calls)
    ensures it.pos == old(it.pos) && it.locals == old(it.locals) && it.error == old(it.error)
    ensures it.response.usage == old(it.response.usage)
    ensures it.response.eventIterator == old(it.response.eventIterator)
  {
    var r := it.response;
    CallEventsAppend(r.manager, r.calls, c);
    var e: Option<StreamEvent>;
    match c {
      case TextDelta(id, content) =>
        var event := r.HandleTextDelta(id, content);
        e := Some(event);
      case ToolCallDelta(id, name, args, toolCallId) =>
        e := r.HandleToolCallDelta(id, name, args, toolCallId);
    }
    it.yielded := it.yielded + [e];
  }

  /** The block part of one turn: the start, then the delta. */
  method FeedBlocks(it: EventIterator<BedrockChunk, Option<string>>, c: BedrockChunk)
    requires it.yielded == CallEvents(it.response.manager, it.response.calls)
    requires it.error.None?
    modifies it, it.response
    ensures var d := ToolDeltaStep(TextStep(StartStep(Decoder(old(it.response.calls), old(it.locals), old(it.response.usage), None), c), c), c);
      && it.response.calls == d.calls && it.locals == d.toolId && it.error == d.error
      && it.response.usage == d.usage
    ensures it.yielded == CallEvents(it.response.manager, it.response.calls)
    ensures it.pos == old(it.pos) && it.response.eventIterator == old(it.response.eventIterator)
  {
    if c.blockStart.Some? && c.blockStart.value.toolUse.Some? {
      var tu := c.blockStart.value.toolUse.value;
      it.locals := Some(tu.toolUseId);
      Yield(it, ToolCallDelta(IndexId(c.blockStart.value.index), Some(tu.name), None, Some(tu.toolUseId)));
    }
    if c.blockDelta.Some? {
      var delta := c.blockDelta.value;
      if delta.text.Some? {
        Yield(it, TextDelta(IndexId(delta.index), delta.text.value));
      }
      if delta.toolUse.Some? {
        if it.locals.None? {
          it.error := Some(UnboundLocalError(ToolIdVariable));
          return;
        }
        Yield(it, ToolCallDelta(IndexId(delta.index), delta.toolUse.value.name, delta.toolUse.value.input, it.locals));
      }
    }
  }

  /** One turn of `async for chunk in ...`. */
  method Advance(it: EventIterator<BedrockChunk, Option<string>>)
    requires Decoded(it) && !it.Done()
    modifies it, it.response
    ensures Decoded(it) && it.pos == old(it.pos) + 1
    ensures it.response.eventIterator == old(it.response.eventIterator)
  {
    var r := it.response;
    var c := r.chunks[it.pos];
    DecodeStep(r.chunks, it.pos);
    if c.messageStart || c.messageStop {
    } else if c.metadata.Some? {
      if c.metadata.value.usage.Some? {
        r.AddUsage(MapUsage(c.metadata.value.usage.value));
      }
    } else {
      FeedBlocks(it, c);
    }
    it.pos := it.pos + 1;
  }

  /** Runs the generator until the stream ends or it raises. */
  method Drain(it: EventIterator<BedrockChunk, Option<string>>)
    requires Decoded(it)
    modifies it, it.response
    ensures Decoded(it) && it.Done()
    ensures it.response.eventIterator == old(it.response.eventIterator)
  {
    while !it.Done()
      invariant Decoded(it)
      invariant it.response.eventIterator == old(it.response.eventIterator)
      decreases |it.response.chunks| - it.pos
    {
      Advance(it);
    }
  }

  /** Iterating a fresh streamed response: it stops at the end of the stream or at
      the first `toolUse` delta with no `tool_id`, having made exactly the calls of
      the chunks before it and yielded every call's result. */
  method Consume(response: BedrockStream) returns (it: EventIterator<BedrockChunk, Option<string>>)
    requires response.eventIterator == null && response.calls == [] && response.usage == NoUsage
    requires response.initialLocals == None
    modifies response
    ensures fresh(it) && response.eventIterator == it && it.response == response
    ensures it.pos <= |response.chunks| && Decode(response.chunks[..it.pos]) == Decoder(response.calls, it.locals, response.usage, it.error)
    ensures it.error.None? ==> it.pos == |response.chunks|
    ensures it.yielded == CallEvents(response.manager, response.calls)
  {
    it := response.AIter();
    Drain(it);
  }

  // ---------------------------------------------------------------------------
  // request / request_stream

  /** `request`: no request gate; the reply `response` (the call of the client is
      not part of this model) is processed. */
  method Request(model: BedrockModel, messages: seq<ModelMessage>, settings: Option<ModelSettings>,
                 params: ModelRequestParameters, response: ConverseResponse, now: Timestamp)
    returns (r: Result<(ConverseParams, ModelResponse, Usage), Error>)
    ensures r.Failure? <==> MapMessages(messages).Failure? || OutputParts(response.content).Failure?
    ensures MapMessages(messages).Failure? ==> r == Failure(MapMessages(messages).error)
    ensures MapMessages(messages).Success? && OutputParts(response.content).Failure? ==>
      r == Failure(OutputParts(response.content).error)
    ensures r.Success? ==>
      && SentFor(r.value.0, model, messages, false, settings, params)
      && r.value.1 == ModelResponse(OutputParts(response.content).value, Some(model.modelName), now)
      && r.value.2 == MapUsage(response.usage)
  {
    var sent :- MessagesCreate(model, messages, false, settings, params);
    var processed :- ProcessResponse(model, response, now);
    r := Success((sent, processed.0, processed.1));
  }

  /** `request_stream`: the streamed response, stamped with the time `now` it is
      created at; `sent` holds the arguments of the `converse_stream` call. */
  method RequestStream(model: BedrockModel, messages: seq<ModelMessage>, settings: Option<ModelSettings>,
                       params: ModelRequestParameters, chunks: seq<BedrockChunk>, manager: PartsManagerSpec,
                       now: Timestamp)
    returns (r: Result<BedrockStream, Error>, sent: Option<ConverseParams>)
    ensures MapMessages(messages).Failure? <==> r.Failure?
    ensures sent.Some? <==> r.Success?
    ensures sent.Some? ==> SentFor(sent.value, model, messages, true, settings, params)
    ensures r.Failure? ==> r.error == MapMessages(messages).error
    ensures r.Success? ==>
      && fresh(r.value) && r.value.modelName == model.modelName && r.value.timestamp == now
      && r.value.chunks == chunks && r.value.manager == manager && r.value.initialLocals == None
      && r.value.calls == [] && r.value.usage == NoUsage && r.value.eventIterator == null
  {
    var created := MessagesCreate(model, messages, true, settings, params);
    if created.Failure? {
      return Failure(created.error), None;
    }
    sent := Some(created.value);
    var response := new StreamedResponse(model.modelName, now, chunks, manager, None);
    r := Success(response);
  }
}
