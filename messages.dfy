/** The data the core reads from pydantic_ai's `messages`, `usage`, `tools` and
    `settings` modules. Only the fields the core looks at are kept; the methods of
    those modules that the core calls but whose code is not part of this model
    (`model_response_str`, `model_response`, `args_as_json_str`, `args_as_dict`,
    `Usage.__add__`) are represented by constructors that record their argument. */
module Messages {
  import opened Wrappers

  /** An instant (`datetime`); its representation is irrelevant to the core. */
  type Timestamp = int

  datatype Json =
    | JNull
    | JBool(b: bool)
    | JInt(i: int)
    | JReal(r: real)
    | JString(s: string)
    | JArray(items: seq<Json>)
    | JObject(fields: map<string, Json>)

  /** Token usage. `Sum(a, b)` is the value of `a + b`; how `Usage.__add__`
      combines the counters is not part of this model. */
  datatype Usage =
    | Usage(requestTokens: Option<int>, responseTokens: Option<int>, totalTokens: Option<int>,
            details: Option<map<string, int>>)
    | Sum(left: Usage, right: Usage)

  /** `Usage()`: every counter unset. */
  const NoUsage := Usage(None, None, None, None)

  /** Tool-call arguments: a JSON text or an already decoded mapping. */
  datatype ToolArgs = ArgsJson(text: string) | ArgsDict(fields: map<string, Json>)

  datatype ModelResponsePart =
    | TextPart(content: string)
    | ToolCallPart(toolName: string, args: ToolArgs, toolCallId: Option<string>)

  datatype ModelResponse = ModelResponse(parts: seq<ModelResponsePart>, modelName: Option<string>, timestamp: Timestamp)

  /** The content of a user prompt: a plain string, or a list of multimodal items. */
  datatype UserContent = UserText(text: string) | UserItems(items: seq<Json>)

  /** The content of a retry prompt: a message, or a list of validation errors. */
  datatype RetryContent = RetryText(text: string) | RetryErrors(errors: seq<Json>)

  datatype ModelRequestPart =
    | SystemPromptPart(content: string)
    | UserPromptPart(user: UserContent)
    | ToolReturnPart(toolName: string, returned: Json, toolCallId: Option<string>)
    | RetryPromptPart(retry: RetryContent, retryToolName: Option<string>, toolCallId: Option<string>)

  datatype ModelMessage = ModelRequest(parts: seq<ModelRequestPart>) | Response(response: ModelResponse)

  /** Text handed to a vendor as message content. */
  datatype Rendered =
    | UserContentOf(user: UserContent)
      /** `part.model_response_str()` of a tool return */
    | ModelResponseStrOf(part: ModelRequestPart)
      /** `part.model_response()` of a retry prompt */
    | ModelResponseOf(part: ModelRequestPart)

  datatype ToolDefinition = ToolDefinition(name: string, description: string, parametersJsonSchema: Json)

  /** `ModelRequestParameters` (models/__init__.py); openai.py calls it `AgentRequestConfig`. */
  datatype ModelRequestParameters = ModelRequestParameters(
    functionTools: seq<ToolDefinition>, allowTextResult: bool, resultTools: seq<ToolDefinition>)

  /** A value stored in the `ModelSettings` dictionary. */
  datatype SettingValue =
    | IntSetting(i: int)
    | FloatSetting(r: real)
    | BoolSetting(b: bool)
    | StrSetting(s: string)
    | OtherSetting(j: Json)

  /** `ModelSettings`: a dictionary. A key may hold `None`, `OtherSetting(JNull)`. */
  type ModelSettings = map<string, SettingValue>

  /** The key is present and not `None`. */
  predicate HasValue(settings: ModelSettings, key: string) {
    key in settings && settings[key] != OtherSetting(JNull)
  }

  /** `model_settings.get(key)`, with a `None` value read as missing. */
  function Get(settings: ModelSettings, key: string): Option<SettingValue> {
    if HasValue(settings, key) then Some(settings[key]) else None
  }

  /** `model_settings or {}` */
  function OrEmpty(settings: Option<ModelSettings>): ModelSettings {
    if settings.Some? then settings.value else map[]
  }

  /** Python truthiness of a setting value. */
  predicate Truthy(v: SettingValue) {
    match v
    case IntSetting(i) => i != 0
    case FloatSetting(r) => r != 0.0
    case BoolSetting(b) => b
    case StrSetting(s) => s != ""
    case OtherSetting(j) => JsonTruthy(j)
  }

  predicate JsonTruthy(j: Json) {
    match j
    case JNull => false
    case JBool(b) => b
    case JInt(i) => i != 0
    case JReal(r) => r != 0.0
    case JString(s) => s != ""
    case JArray(items) => items != []
    case JObject(fields) => fields != map[]
  }

  /** `isinstance(v, (float, int))`; a Python `bool` is an `int`. */
  predicate IsNumber(v: SettingValue) {
    v.IntSetting? || v.FloatSetting? || v.BoolSetting?
  }

  /** Python truthiness of an optional string (`x or y` falls through on `None` and `''`). */
  predicate Present(s: Option<string>) {
    s.Some? && s.value != ""
  }
}
