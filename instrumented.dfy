/** pydantic_ai/models/instrumented.py: the OpenTelemetry span opened around a
    model request (its name and `gen_ai.*` attributes), the `finish` callback that
    completes it once, and the events it emits. The tracer and event logger are
    reduced to the state they are given: a span's attributes and an event list. */
module Instrumented {
  import opened Wrappers
  import opened Exceptions
  import opened Strings
  import opened Messages
  import opened Models

  /** `MODEL_SETTING_ATTRIBUTES`, in order. */
  const ModelSettingAttributes: seq<string> :=
    ["max_tokens", "top_p", "seed", "temperature", "presence_penalty", "frequency_penalty"]

  const Operation := "chat"
  const RequestPrefix := "gen_ai.request."

  /** An OpenTelemetry attribute value. `EventsDump(events)` is
      `ANY_ADAPTER.dump_json(events)`, whose encoding is not part of this model. */
  datatype AttrValue =
    | AttrStr(s: string)
    | AttrInt(i: int)
    | AttrFloat(r: real)
    | AttrBool(b: bool)
    | EventsDump(events: seq<Event>)

  /** An OpenTelemetry event; a `None` body or attribute set is the empty map. */
  datatype Event = Event(name: string, body: map<string, Json>, attributes: map<string, AttrValue>)

  datatype EventMode = AttributesMode | LogsMode

  /** The wrapped model as `_instrument` sees it: its `system` attribute (`None`
      when missing or `None`), its class name and its model name. */
  datatype WrappedModel = WrappedModel(className: string, system: Option<string>, modelName: string)

  /** `otel_event()` of a request part (`None` when the part has no such method)
      and `otel_events()` of a response; their code is not part of this model. */
  datatype MessageTelemetry = MessageTelemetry(
    partEvent: ModelRequestPart -> Option<Event>,
    responseEvents: ModelResponse -> seq<Event>)

  // ---------------------------------------------------------------------------
  // Span name and system

  /** `f'{operation} {model_name}'` */
  function SpanName(modelName: string): (r: string)
    ensures StartsWith(r, "chat ") && r[|"chat "|..] == modelName
  {
    Operation + " " + modelName
  }

  /** The system before normalisation: the wrapped model's non-empty `system`,
      else its class name without the `Model` suffix, lower-cased. */
  function RawSystem(w: WrappedModel): (r: string)
    ensures Present(w.system) ==> r == w.system.value
    ensures !Present(w.system) ==> r == Lower(RemoveSuffix(w.className, "Model"))
  {
    if Present(w.system) then w.system.value else Lower(RemoveSuffix(w.className, "Model"))
  }

  /** The renaming of `google-gla`, `google-vertex` and `mistral`; other names are kept. */
  function NormalizeSystem(system: string): (r: string)
    ensures system == "google-gla" ==> r == "gemini"
    ensures system == "google-vertex" ==> r == "vertex_ai"
    ensures system == "mistral" ==> r == "mistral_ai"
    ensures system !in {"google-gla", "google-vertex", "mistral"} ==> r == system
  {
    match system
    case "google-gla" => "gemini"
    case "google-vertex" => "vertex_ai"
    case "mistral" => "mistral_ai"
    case _ => system
  }

  /** Normalising twice is normalising once: no renamed name is itself renamed. */
  lemma NormalizeSystemIdempotent(system: string)
    ensures NormalizeSystem(NormalizeSystem(system)) == NormalizeSystem(system)
    ensures NormalizeSystem(system) !in {"google-gla", "google-vertex", "mistral"}
  {
  }

  /** A model without a `system` falls back to its class name. */
  lemma SystemFromClassName()
    ensures NormalizeSystem(RawSystem(WrappedModel("OpenAIModel", None, "gpt-4o"))) == "openai"
  {
    var name := "OpenAIModel";
    assert name[|name| - 5..] == "Model";
    assert RemoveSuffix(name, "Model") == "OpenAI";
    var low := Lower("OpenAI");
    assert LowerChar('O') == 'o' && LowerChar('A') == 'a' && LowerChar('I') == 'i';
    assert low == "openai";
  }

  /** An empty `system` counts as missing; a present one is normalised. */
  lemma SystemGiven()
    ensures NormalizeSystem(RawSystem(WrappedModel("GeminiModel", Some("google-gla"), "gemini-1.5-pro"))) == "gemini"
    ensures NormalizeSystem(RawSystem(WrappedModel("BedrockModel", Some("bedrock"), "anthropic.claude"))) == "bedrock"
    ensures RawSystem(WrappedModel("GeminiModel", Some(""), "gemini-1.5-pro")) == Lower("Gemini")
  {
    var name := "GeminiModel";
    assert name[|name| - 5..] == "Model";
    assert RemoveSuffix(name, "Model") == "Gemini";
  }

  // ---------------------------------------------------------------------------
  // Request attributes

  function BaseAttributes(modelName: string, system: string): map<string, AttrValue> {
    map["gen_ai.operation.name" := AttrStr(Operation),
        "gen_ai.system" := AttrStr(system),
        "gen_ai.request.model" := AttrStr(modelName)]
  }

  /** The attribute value of a number setting. */
  function SettingAttr(v: SettingValue): AttrValue
    requires IsNumber(v)
  {
    match v
    case IntSetting(i) => AttrInt(i)
    case FloatSetting(r) => AttrFloat(r)
    case BoolSetting(b) => AttrBool(b)
  }

  /** The setting `key` is present and a number (`isinstance(value, (float, int))`). */
  predicate Numeric(settings: ModelSettings, key: string) {
    key in settings && IsNumber(settings[key])
  }

  /** The loop over the allow-listed keys, one key after the other. */
  function AddSettings(attrs: map<string, AttrValue>, settings: ModelSettings, keys: seq<string>): map<string, AttrValue> {
    if keys == [] then attrs
    else
      var before := AddSettings(attrs, settings, keys[..|keys| - 1]);
      var key := keys[|keys| - 1];
      if Numeric(settings, key) then before[RequestPrefix + key := SettingAttr(settings[key])] else before
  }

  /** The attributes the span is opened with. */
  function RequestAttributes(modelName: string, system: string, settings: Option<ModelSettings>): map<string, AttrValue> {
    var base := BaseAttributes(modelName, system);
    if settings.Some? && settings.value != map[] then AddSettings(base, settings.value, ModelSettingAttributes)
    else base
  }

  /** The keys the setting loop adds. */
  function SettingKeys(settings: ModelSettings, keys: seq<string>): set<string> {
    set k | k in keys && Numeric(settings, k) :: RequestPrefix + k
  }

  lemma PrefixedInjective(a: string, b: string)
    requires RequestPrefix + a == RequestPrefix + b
    ensures a == b
  {
    assert a == (RequestPrefix + a)[|RequestPrefix|..];
    assert b == (RequestPrefix + b)[|RequestPrefix|..];
  }

  /** The setting loop adds exactly the prefixed number settings among `keys`,
      each with its own value, and keeps every other attribute. */
  lemma {:induction false} AddSettingsExact(attrs: map<string, AttrValue>, settings: ModelSettings, keys: seq<string>)
    ensures AddSettings(attrs, settings, keys).Keys == attrs.Keys + SettingKeys(settings, keys)
    ensures forall k | k in keys && Numeric(settings, k) ::
      AddSettings(attrs, settings, keys)[RequestPrefix + k] == SettingAttr(settings[k])
    ensures forall key | key in attrs && key !in SettingKeys(settings, keys) ::
      AddSettings(attrs, settings, keys)[key] == attrs[key]
  {
    if keys != [] {
      var prefix := keys[..|keys| - 1];
      var last := keys[|keys| - 1];
      AddSettingsExact(attrs, settings, prefix);
      assert keys == prefix + [last];
      assert SettingKeys(settings, keys) ==
        SettingKeys(settings, prefix) + (if Numeric(settings, last) then {RequestPrefix + last} else {});
      forall k | k in keys && Numeric(settings, k)
        ensures AddSettings(attrs, settings, keys)[RequestPrefix + k] == SettingAttr(settings[k])
      {
        if k != last && Numeric(settings, last) && RequestPrefix + k == RequestPrefix + last {
          PrefixedInjective(k, last);
        }
      }
    }
  }

  /** No allow-listed key collides with a base attribute. */
  lemma BaseKeysUntouched(settings: ModelSettings)
    ensures forall key | key in BaseAttributes("", "") :: key !in SettingKeys(settings, ModelSettingAttributes)
  {
    forall k | k in ModelSettingAttributes
      ensures RequestPrefix + k != "gen_ai.operation.name" && RequestPrefix + k != "gen_ai.system"
      ensures RequestPrefix + k != "gen_ai.request.model"
    {
      assert (RequestPrefix + k)[7] == 'r';
      assert (RequestPrefix + k)[|RequestPrefix|..] == k;
      assert "gen_ai.request.model"[|RequestPrefix|..] == "model";
    }
  }

  /** The span starts with operation `chat`, the system and the request model,
      plus `gen_ai.request.<key>` for exactly the allow-listed settings that are
      numbers, carrying their values; absent or non-number settings add nothing. */
  lemma RequestAttributesExact(modelName: string, system: string, settings: Option<ModelSettings>)
    ensures var r := RequestAttributes(modelName, system, settings);
      && r.Keys == BaseAttributes(modelName, system).Keys + SettingKeys(OrEmpty(settings), ModelSettingAttributes)
      && r["gen_ai.operation.name"] == AttrStr("chat")
      && r["gen_ai.system"] == AttrStr(system)
      && r["gen_ai.request.model"] == AttrStr(modelName)
      && forall k | k in ModelSettingAttributes && Numeric(OrEmpty(settings), k) ::
           r[RequestPrefix + k] == SettingAttr(OrEmpty(settings)[k])
  {
    var s := OrEmpty(settings);
    BaseKeysUntouched(s);
    AddSettingsExact(BaseAttributes(modelName, system), s, ModelSettingAttributes);
    if !(settings.Some? && settings.value != map[]) {
      assert SettingKeys(s, ModelSettingAttributes) == {};
    }
  }

  /** The attribute loop of `_instrument`. */
  method RequestAttributesOf(modelName: string, system: string, settings: Option<ModelSettings>)
    returns (attributes: map<string, AttrValue>)
    ensures attributes == RequestAttributes(modelName, system, settings)
  {
    attributes := BaseAttributes(modelName, system);
    if settings.Some? && settings.value != map[] {
      var i := 0;
      while i < |ModelSettingAttributes|
        invariant 0 <= i <= |ModelSettingAttributes|
        invariant attributes == AddSettings(BaseAttributes(modelName, system), settings.value, ModelSettingAttributes[..i])
      {
        assert ModelSettingAttributes[..i + 1][..i] == ModelSettingAttributes[..i];
        var key := ModelSettingAttributes[i];
        if key in settings.value && IsNumber(settings.value[key]) {
          attributes := attributes[RequestPrefix + key := SettingAttr(settings.value[key])];
        }
        i := i + 1;
      }
      assert ModelSettingAttributes[..i] == ModelSettingAttributes;
    }
  }

  // ---------------------------------------------------------------------------
  // Events

  /** The events of one message. */
  function MessageEvents(tel: MessageTelemetry, m: ModelMessage): seq<Event> {
    match m
    case ModelRequest(parts) => PartEvents(tel, parts)
    case Response(response) => tel.responseEvents(response)
  }

  /** The events of the request parts that have `otel_event`, in order. */
  function PartEvents(tel: MessageTelemetry, parts: seq<ModelRequestPart>): seq<Event> {
    if parts == [] then []
    else
      var e := tel.partEvent(parts[|parts| - 1]);
      PartEvents(tel, parts[..|parts| - 1]) + (if e.Some? then [e.value] else [])
  }

  /** `messages_to_otel_events` */
  function OtelEvents(tel: MessageTelemetry, messages: seq<ModelMessage>): seq<Event> {
    if messages == [] then []
    else OtelEvents(tel, messages[..|messages| - 1]) + MessageEvents(tel, messages[|messages| - 1])
  }

  /** The events of a history are those of its parts, in order: concatenating
      histories concatenates their events. */
  lemma {:induction false} OtelEventsAppend(tel: MessageTelemetry, a: seq<ModelMessage>, b: seq<ModelMessage>)
    ensures OtelEvents(tel, a + b) == OtelEvents(tel, a) + OtelEvents(tel, b)
  {
    if b != [] {
      var b' := b[..|b| - 1];
      assert (a + b)[..|a + b| - 1] == a + b';
      assert (a + b)[|a + b| - 1] == b[|b| - 1];
      OtelEventsAppend(tel, a, b');
    } else {
      assert a + b == a;
    }
  }

  /** A request contributes one event per part that has one. */
  lemma {:induction false} PartEventsCount(tel: MessageTelemetry, parts: seq<ModelRequestPart>)
    ensures |PartEvents(tel, parts)| == |EventIndices(tel, parts)|
  {
    if parts != [] {
      var n := |parts| - 1;
      PartEventsCount(tel, parts[..n]);
      EventIndicesSnoc(tel, parts);
    }
  }

  /** The positions of the request parts that have an event. */
  ghost function EventIndices(tel: MessageTelemetry, parts: seq<ModelRequestPart>): set<int> {
    set i | 0 <= i < |parts| && tel.partEvent(parts[i]).Some?
  }

  /** One more part adds its position exactly when it has an event. */
  lemma EventIndicesSnoc(tel: MessageTelemetry, parts: seq<ModelRequestPart>)
    requires parts != []
    ensures var n := |parts| - 1;
      |EventIndices(tel, parts)| ==
        |EventIndices(tel, parts[..n])| + (if tel.partEvent(parts[n]).Some? then 1 else 0)
  {
    var n := |parts| - 1;
    var before := EventIndices(tel, parts[..n]);
    assert before == set i | 0 <= i < n && tel.partEvent(parts[i]).Some?;
    assert n !in before;
    if tel.partEvent(parts[n]).Some? {
      assert EventIndices(tel, parts) == before + {n};
    } else {
      assert EventIndices(tel, parts) == before;
    }
  }

  /** The events of one request, a loop over its parts. */
  method RequestEvents(tel: MessageTelemetry, parts: seq<ModelRequestPart>) returns (events: seq<Event>)
    ensures events == PartEvents(tel, parts)
  {
    events := [];
    var i := 0;
    while i < |parts|
      invariant 0 <= i <= |parts|
      invariant events == PartEvents(tel, parts[..i])
    {
      assert parts[..i + 1][..i] == parts[..i];
      var e := tel.partEvent(parts[i]);
      if e.Some? {
        events := events + [e.value];
      }
      i := i + 1;
    }
    assert parts[..i] == parts;
  }

  /** `messages_to_otel_events`, the loop over the history. */
  method MessagesToOtelEvents(tel: MessageTelemetry, messages: seq<ModelMessage>) returns (events: seq<Event>)
    ensures events == OtelEvents(tel, messages)
  {
    events := [];
    var i := 0;
    while i < |messages|
      invariant 0 <= i <= |messages|
      invariant events == OtelEvents(tel, messages[..i])
    {
      assert messages[..i + 1][..i] == messages[..i];
      match messages[i] {
        case ModelRequest(parts) =>
          var more := RequestEvents(tel, parts);
          events := events + more;
        case Response(response) =>
          events := events + tel.responseEvents(response);
      }
      i := i + 1;
    }
    assert messages[..i] == messages;
  }

  /** The events of a lone response are its own events. */
  lemma OtelEventsResponse(tel: MessageTelemetry, response: ModelResponse)
    ensures OtelEvents(tel, [Response(response)]) == tel.responseEvents(response)
  {
    assert [Response(response)][..0] == [];
  }

  /** A response event wrapped as a `gen_ai.choice` event at index 0. */
  function ChoiceEvent(e: Event): (r: Event)
    ensures r.name == "gen_ai.choice" && r.attributes == map[]
    ensures r.body.Keys == {"index", "message"} && r.body["index"] == JInt(0) && r.body["message"] == JObject(e.body)
  {
    Event("gen_ai.choice", map["index" := JInt(0), "message" := JObject(e.body)], map[])
  }

  /** The events `finish` reports: those of the request history, then each event
      of the response as a choice. */
  function FinishEvents(tel: MessageTelemetry, messages: seq<ModelMessage>, response: ModelResponse): seq<Event> {
    OtelEvents(tel, messages) + Choices(OtelEvents(tel, [Response(response)]))
  }

  /** Each response event as a choice, in order. */
  function Choices(answer: seq<Event>): (r: seq<Event>)
    ensures |r| == |answer|
    ensures forall j | 0 <= j < |answer| :: r[j] == ChoiceEvent(answer[j])
  {
    seq(|answer|, j requires 0 <= j < |answer| => ChoiceEvent(answer[j]))
  }

  /** `finish` reports the history's events unchanged and in order, followed by
      one choice per event of the response, in order. */
  lemma FinishEventsShape(tel: MessageTelemetry, messages: seq<ModelMessage>, response: ModelResponse)
    ensures |FinishEvents(tel, messages, response)| == |OtelEvents(tel, messages)| + |tel.responseEvents(response)|
    ensures FinishEvents(tel, messages, response)[..|OtelEvents(tel, messages)|] == OtelEvents(tel, messages)
    ensures FinishEvents(tel, messages, response)[|OtelEvents(tel, messages)|..] == Choices(tel.responseEvents(response))
  {
    var history := OtelEvents(tel, messages);
    var answer := tel.responseEvents(response);
    OtelEventsResponse(tel, response);
    var choices := Choices(answer);
    assert FinishEvents(tel, messages, response) == history + choices;
    assert (history + choices)[|history|..] == choices;
  }

  /** The event list `finish` builds. */
  method CollectEvents(tel: MessageTelemetry, messages: seq<ModelMessage>, response: ModelResponse)
    returns (events: seq<Event>)
    ensures events == FinishEvents(tel, messages, response)
  {
    events := MessagesToOtelEvents(tel, messages);
    var answer := MessagesToOtelEvents(tel, [Response(response)]);
    ghost var history := events;
    var j := 0;
    while j < |answer|
      invariant 0 <= j <= |answer|
      invariant events == history + seq(j, k requires 0 <= k < j => ChoiceEvent(answer[k]))
    {
      events := events + [ChoiceEvent(answer[j])];
      j := j + 1;
    }
  }

  /** An event as emitted in `logs` mode: its attributes with `gen_ai.system` set. */
  function WithSystem(e: Event, system: string): (r: Event)
    ensures r.name == e.name && r.body == e.body
    ensures r.attributes.Keys == e.attributes.Keys + {"gen_ai.system"}
    ensures r.attributes["gen_ai.system"] == AttrStr(system)
    ensures forall k | k in e.attributes && k != "gen_ai.system" :: r.attributes[k] == e.attributes[k]
  {
    e.(attributes := e.attributes + map["gen_ai.system" := AttrStr(system)])
  }

  /** The events as emitted in `logs` mode, in order. */
  function Stamped(events: seq<Event>, system: string): (r: seq<Event>)
    ensures |r| == |events|
    ensures forall i | 0 <= i < |events| :: r[i] == WithSystem(events[i], system)
  {
    if events == [] then []
    else Stamped(events[..|events| - 1], system) + [WithSystem(events[|events| - 1], system)]
  }

  /** `json.dumps` of the schema attached in `attributes` mode. */
  const EventsSchema := "{\"type\": \"object\", \"properties\": {\"events\": {\"type\": \"array\"}}}"

  // ---------------------------------------------------------------------------
  // Span, event logger and the instrumented model

  /** An OpenTelemetry span. `recording` is `span.is_recording()`; `usages` are the
      `Usage` values whose `opentelemetry_attributes()` were set on it, in order;
      `finished` are the arguments of each call of the `finish` callback bound to it. */
  class Span {
    const name: string
    const recording: bool
    var attributes: map<string, AttrValue>
    var usages: seq<Usage>
    var finished: seq<(ModelResponse, Usage)>

    constructor(name: string, attributes: map<string, AttrValue>, recording: bool)
      ensures this.name == name && this.attributes == attributes && this.recording == recording
      ensures usages == [] && finished == []
    {
      this.name := name;
      this.attributes := attributes;
      this.recording := recording;
      usages := [];
      finished := [];
    }
  }

  /** An OpenTelemetry event logger: the events emitted so far. */
  class EventLogger {
    var emitted: seq<Event>

    constructor()
      ensures emitted == []
    {
      emitted := [];
    }
  }

  class InstrumentedModel {
    const wrapped: WrappedModel
    const eventLogger: EventLogger
    const eventMode: EventMode
    const telemetry: MessageTelemetry

    constructor(wrapped: WrappedModel, eventMode: EventMode, telemetry: MessageTelemetry)
      ensures this.wrapped == wrapped && this.eventMode == eventMode && this.telemetry == telemetry
      ensures fresh(eventLogger) && eventLogger.emitted == []
    {
      this.wrapped := wrapped;
      this.eventMode := eventMode;
      this.telemetry := telemetry;
      eventLogger := new EventLogger();
    }

    /** `model_name`, the wrapped model's. */
    function ModelName(): string {
      wrapped.modelName
    }

    /** The `gen_ai.system` value of every span of this model. */
    function System(): string {
      NormalizeSystem(RawSystem(wrapped))
    }

    /** The span `_instrument` opens; the tracer decides whether it records. */
    method Instrument(settings: Option<ModelSettings>, recording: bool) returns (span: Span)
      ensures fresh(span) && span.name == SpanName(ModelName()) && span.recording == recording
      ensures span.attributes == RequestAttributes(ModelName(), System(), settings)
      ensures span.usages == [] && span.finished == []
    {
      var attributes := RequestAttributesOf(ModelName(), System(), settings);
      span := new Span(SpanName(ModelName()), attributes, recording);
    }

    /** `_emit_events`: in `logs` mode every event is emitted with `gen_ai.system`
        set; in `attributes` mode the span gets `events`, the dump of the events
        as they are, and its JSON schema, and nothing is emitted. */
    method EmitEvents(span: Span, events: seq<Event>)
      modifies span, eventLogger
      ensures eventMode == LogsMode ==>
        && eventLogger.emitted == old(eventLogger.emitted) + Stamped(events, System())
        && span.attributes == old(span.attributes)
      ensures eventMode == AttributesMode ==>
        && eventLogger.emitted == old(eventLogger.emitted)
        && span.attributes == old(span.attributes)["events" := EventsDump(events)]["logfire.json_schema" := AttrStr(EventsSchema)]
      ensures span.usages == old(span.usages) && span.finished == old(span.finished)
    {
      var system := System();
      if eventMode == LogsMode {
        var i := 0;
        while i < |events|
          invariant 0 <= i <= |events|
          invariant eventLogger.emitted == old(eventLogger.emitted) + Stamped(events[..i], system)
          invariant span.attributes == old(span.attributes)
          invariant span.usages == old(span.usages) && span.finished == old(span.finished)
        {
          assert events[..i + 1][..i] == events[..i];
          eventLogger.emitted := eventLogger.emitted + [WithSystem(events[i], system)];
          i := i + 1;
        }
        assert events[..i] == events;
      } else {
        span.attributes := span.attributes["events" := EventsDump(events)]["logfire.json_schema" := AttrStr(EventsSchema)];
      }
    }

    /** The state the `finish` callback leaves, from the span attributes `attrs`,
        span usages `usages` and emitted events `emitted` before it: nothing changes
        unless the span records; then the response model (the response's own name,
        else the request's), the usage attributes and the events of the exchange. */
    predicate FinishedFrom(span: Span, attrs: map<string, AttrValue>, usages: seq<Usage>, emitted: seq<Event>,
                           messages: seq<ModelMessage>, response: ModelResponse, usage: Usage)
      reads span, eventLogger
    {
      if !span.recording then
        span.attributes == attrs && span.usages == usages && eventLogger.emitted == emitted
      else
        var model := if Present(response.modelName) then response.modelName.value else ModelName();
        var events := FinishEvents(telemetry, messages, response);
        var attrs' := attrs["gen_ai.response.model" := AttrStr(model)];
        && span.usages == usages + [usage]
        && (eventMode == LogsMode ==>
              span.attributes == attrs'
              && eventLogger.emitted == emitted + Stamped(events, System()))
        && (eventMode == AttributesMode ==>
              span.attributes == attrs'["events" := EventsDump(events)]["logfire.json_schema" := AttrStr(EventsSchema)]
              && eventLogger.emitted == emitted)
    }

    /** The `finish` callback, recorded in `span.finished`. */
    method Finish(span: Span, messages: seq<ModelMessage>, response: ModelResponse, usage: Usage)
      modifies span, eventLogger
      ensures span.finished == old(span.finished) + [(response, usage)]
      ensures FinishedFrom(span, old(span.attributes), old(span.usages), old(eventLogger.emitted), messages, response, usage)
    {
      span.finished := span.finished + [(response, usage)];
      if !span.recording {
        return;
      }
      var events := CollectEvents(telemetry, messages, response);
      var model := if Present(response.modelName) then response.modelName.value else ModelName();
      span.attributes := span.attributes["gen_ai.response.model" := AttrStr(model)];
      span.usages := span.usages + [usage];
      EmitEvents(span, events);
    }

    /** `request`: the wrapped model's outcome `wrapped` is returned unchanged, and
        `finish` runs once with it when it succeeds. */
    method Request(messages: seq<ModelMessage>, settings: Option<ModelSettings>,
                   wrappedResult: Result<(ModelResponse, Usage), Error>, recording: bool)
      returns (span: Span, r: Result<(ModelResponse, Usage), Error>)
      modifies eventLogger
      ensures fresh(span) && span.name == SpanName(ModelName())
      ensures r == wrappedResult
      ensures span.recording == recording
      ensures wrappedResult.Success? ==>
        && span.finished == [wrappedResult.value]
        && FinishedFrom(span, RequestAttributes(ModelName(), System(), settings), [], old(eventLogger.emitted),
                        messages, wrappedResult.value.0, wrappedResult.value.1)
      ensures wrappedResult.Failure? ==>
        && span.finished == [] && span.usages == []
        && span.attributes == RequestAttributes(ModelName(), System(), settings)
        && eventLogger.emitted == old(eventLogger.emitted)
    {
      span := Instrument(settings, recording);
      if wrappedResult.Failure? {
        return span, wrappedResult;
      }
      Finish(span, messages, wrappedResult.value.0, wrappedResult.value.1);
      r := wrappedResult;
    }

    /** `request_stream`: `wrappedStream` is what the wrapped `request_stream` gives (or
        raises), `body` what the caller's `async with` block raises. `finish` runs
        exactly once on exit, with the stream's `get()` and `usage()` as they are
        then, whenever a stream was obtained, whether or not the body raised. */
    method RequestStream<C, L>(messages: seq<ModelMessage>, settings: Option<ModelSettings>,
                               wrappedStream: Result<StreamedResponse<C, L>, Error>, body: Option<Error>, recording: bool)
      returns (span: Span, raised: Option<Error>)
      modifies eventLogger
      ensures fresh(span) && span.name == SpanName(ModelName())
      ensures span.recording == recording
      ensures wrappedStream.Failure? ==>
        && raised == Some(wrappedStream.error)
        && span.finished == [] && span.usages == []
        && span.attributes == RequestAttributes(ModelName(), System(), settings)
        && eventLogger.emitted == old(eventLogger.emitted)
      ensures wrappedStream.Success? ==>
        && raised == body
        && span.finished == [(wrappedStream.value.Get(), wrappedStream.value.CurrentUsage())]
        && FinishedFrom(span, RequestAttributes(ModelName(), System(), settings), [], old(eventLogger.emitted),
                        messages, wrappedStream.value.Get(), wrappedStream.value.CurrentUsage())
    {
      span := Instrument(settings, recording);
      if wrappedStream.Failure? {
        return span, Some(wrappedStream.error);
      }
      var stream := wrappedStream.value;
      raised := body;
      Finish(span, messages, stream.Get(), stream.CurrentUsage());
    }
  }
}
