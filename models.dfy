/** pydantic_ai/models/__init__.py: the `Model` contract the vendors implement, the
    base of every streamed response, the global request gate and the resolution of
    model names. */
module Models {
  import opened Wrappers
  import opened Exceptions
  import opened Strings
  import opened Messages

  /** What the rest of the core reads from a `Model` instance: the name of its
      concrete class, its `model_name` and its `system`. */
  datatype ModelInfo = ModelInfo(className: string, modelName: string, system: Option<string>)

  // ---------------------------------------------------------------------------
  // Default `Model.request_stream`

  /** The default `request_stream` raises before it yields anything; the message
      names the concrete class. */
  function DefaultRequestStream(model: ModelInfo): (r: Outcome<Error>)
    ensures r.Fail? && r.error.NotImplementedError?
    ensures EndsWith(r.error.message, model.className)
    ensures StartsWith(r.error.message, "Streamed requests not supported by this ")
  {
    var message := "Streamed requests not supported by this " + model.className;
    assert message[|message| - |model.className|..] == model.className;
    assert message[..|"Streamed requests not supported by this "|] == "Streamed requests not supported by this ";
    Fail(NotImplementedError(message))
  }

  // ---------------------------------------------------------------------------
  // The request gate: `ALLOW_MODEL_REQUESTS` and its scoped override

  const RequestsNotAllowed := "Model requests are not allowed, since ALLOW_MODEL_REQUESTS is False"

  /** A statement run inside (or outside) `override_allow_model_requests` scopes:
      a call of `check_allow_model_requests`, a direct assignment of the global,
      a nested `with override_allow_model_requests(value):` block, or a raise. */
  datatype ScopeStep =
    | Check
    | Assign(value: bool)
    | Override(value: bool, body: seq<ScopeStep>)
    | Raise(error: Error)

  /** Where a run of statements stops: the exception that escaped, if any, and the
      value of the global afterwards. */
  datatype ScopeResult = ScopeResult(raised: Option<Error>, allowed: bool)

  /** `check_allow_model_requests()` for a given value of the global. */
  function CheckAllow(allowed: bool): (r: Outcome<Error>)
    ensures r.Fail? <==> !allowed
    ensures r.Fail? ==> r.error == RuntimeError(RequestsNotAllowed)
  {
    if !allowed then Fail(RuntimeError(RequestsNotAllowed)) else Pass
  }

  /** The meaning of a run of statements, starting with the global at `allowed`. */
  function Exec(allowed: bool, steps: seq<ScopeStep>): ScopeResult
    decreases steps
  {
    if steps == [] then ScopeResult(None, allowed)
    else
      match steps[0]
      case Check =>
        if !allowed then ScopeResult(Some(RuntimeError(RequestsNotAllowed)), allowed)
        else Exec(allowed, steps[1..])
      case Assign(v) => Exec(v, steps[1..])
      case Override(v, body) =>
        var inner := Exec(v, body);
        // the `finally` clause puts the saved value back, whatever the body did
        if inner.raised.Some? then ScopeResult(inner.raised, allowed)
        else Exec(allowed, steps[1..])
      case Raise(e) => ScopeResult(Some(e), allowed)
  }

  /** A scope leaves the global as it found it, whether its body raises or not,
      and the statements after it run with the value from before the scope; so
      nested scopes unwind one level at a time. */
  lemma OverrideRestores(allowed: bool, v: bool, body: seq<ScopeStep>, rest: seq<ScopeStep>)
    ensures Exec(allowed, [Override(v, body)]).allowed == allowed
    ensures Exec(v, body).raised.Some? ==>
      Exec(allowed, [Override(v, body)] + rest) == ScopeResult(Exec(v, body).raised, allowed)
    ensures Exec(v, body).raised.None? ==>
      Exec(allowed, [Override(v, body)] + rest) == Exec(allowed, rest)
  {
    assert ([Override(v, body)] + rest)[0] == Override(v, body);
    assert ([Override(v, body)] + rest)[1..] == rest;
  }

  /** Inside a scope the check sees the scope's value, not the outer one. */
  lemma CheckInsideOverride(allowed: bool, v: bool)
    ensures Exec(allowed, [Override(v, [Check])]).raised.Some? <==> !v
  {
    assert [Check][1..] == [];
  }

  /** The module-level global `ALLOW_MODEL_REQUESTS`. */
  class RequestGate {
    var allowModelRequests: bool

    /** The flag starts out `True`. */
    constructor ()
      ensures allowModelRequests
    {
      allowModelRequests := true;
    }

    /** `check_allow_model_requests()`. */
    function CheckAllowModelRequests(): (r: Outcome<Error>)
      reads this
      ensures r.Fail? <==> !allowModelRequests
      ensures r.Fail? ==> r.error == RuntimeError(RequestsNotAllowed)
    {
      CheckAllow(allowModelRequests)
    }

    /** Runs statements one after the other until one raises. */
    method Run(steps: seq<ScopeStep>) returns (raised: Option<Error>)
      modifies this
      ensures ScopeResult(raised, allowModelRequests) == Exec(old(allowModelRequests), steps)
      decreases steps, 0
    {
      var i := 0;
      raised := None;
      while i < |steps|
        invariant 0 <= i <= |steps|
        invariant raised == None
        invariant Exec(old(allowModelRequests), steps) == Exec(allowModelRequests, steps[i..])
        decreases |steps| - i
      {
        assert steps[i..][0] == steps[i] && steps[i..][1..] == steps[i + 1..];
        match steps[i] {
          case Check =>
            var outcome := CheckAllowModelRequests();
            if outcome.Fail? {
              raised := Some(outcome.error);
              return;
            }
          case Assign(v) =>
            allowModelRequests := v;
          case Override(v, body) =>
            raised := OverrideAllowModelRequests(v, body);
            if raised.Some? {
              return;
            }
          case Raise(e) =>
            raised := Some(e);
            return;
        }
        i := i + 1;
      }
    }

    /** `with override_allow_model_requests(value): body`: save, set, run the
        body, and restore the saved value on every exit. */
    method OverrideAllowModelRequests(value: bool, body: seq<ScopeStep>) returns (raised: Option<Error>)
      modifies this
      ensures allowModelRequests == old(allowModelRequests)
      ensures raised == Exec(value, body).raised
      decreases body, 1
    {
      var oldValue := allowModelRequests;
      allowModelRequests := value;
      raised := Run(body);
      allowModelRequests := oldValue;
    }
  }

  // ---------------------------------------------------------------------------
  // infer_model

  /** The argument of `infer_model`: a `Model` instance or a name. */
  datatype ModelRef = Instance(model: ModelInfo) | Named(name: string)

  /** The model `infer_model` builds, with the arguments it passes. */
  datatype InferredModel =
    | Given(model: ModelInfo)
    | TestModel
    | CohereModel(modelName: string)
    | OpenAIInterface(modelName: string, provider: string)
    | GeminiModel(modelName: string, provider: string)
    | GroqModel(modelName: string)
    | MistralModel(modelName: string)
    | AnthropicModel(modelName: string)

  /** The providers the dispatch knows, `vertexai` being an alias. */
  const KnownProviders: set<string> :=
    {"cohere", "deepseek", "openai", "google-gla", "google-vertex", "vertexai", "groq", "mistral", "anthropic"}

  /** The provider a bare name is classified under, by prefix. */
  function BareProvider(name: string): Option<string> {
    if StartsWith(name, "gpt") || StartsWith(name, "o1") || StartsWith(name, "o3") then Some("openai")
    else if StartsWith(name, "claude") then Some("anthropic")
    else if StartsWith(name, "gemini") then Some("google-gla")
    else if StartsWith(name, "vertexai") then Some("google-vertex")
    else None
  }

  /** The dispatch on a provider once the alias is applied. */
  function Dispatch(provider: string, modelName: string, original: string): Result<InferredModel, Error> {
    var p := if provider == "vertexai" then "google-vertex" else provider;
    if p == "cohere" then Success(CohereModel(modelName))
    else if p == "deepseek" || p == "openai" then Success(OpenAIInterface(modelName, p))
    else if p == "google-gla" || p == "google-vertex" then Success(GeminiModel(modelName, p))
    else if p == "groq" then Success(GroqModel(modelName))
    else if p == "mistral" then Success(MistralModel(modelName))
    else if p == "anthropic" then Success(AnthropicModel(modelName))
    else Failure(UserError("Unknown model: " + original))
  }

  /** `infer_model(model)`. Tuple unpacking of `model.split(':')` succeeds only
      for exactly two pieces; any other count falls back to the bare-name rules. */
  function InferModel(model: ModelRef): (r: Result<InferredModel, Error>)
    ensures model.Instance? ==> r == Success(Given(model.model))
    ensures model == Named("test") ==> r == Success(TestModel)
    ensures r.Failure? ==> model.Named? && r.error == UserError("Unknown model: " + model.name)
  {
    match model
    case Instance(m) => Success(Given(m))
    case Named(s) =>
      if s == "test" then Success(TestModel)
      else
        var pieces := Split(s, ':');
        if |pieces| == 2 then Dispatch(pieces[0], pieces[1], s)
        else BareModel(s)
  }

  /** The providers an OpenAI-compatible or a Gemini model can be given. */
  predicate KnownInterfaceProvider(r: Result<InferredModel, Error>) {
    && (r.Success? && r.value.OpenAIInterface? ==> r.value.provider in {"openai", "deepseek"})
    && (r.Success? && r.value.GeminiModel? ==> r.value.provider in {"google-gla", "google-vertex"})
  }

  lemma DispatchProviders(provider: string, modelName: string, original: string)
    ensures KnownInterfaceProvider(Dispatch(provider, modelName, original))
  {
  }

  lemma InferModelProviders(model: ModelRef)
    ensures KnownInterfaceProvider(InferModel(model))
  {
    if model.Named? && model.name != "test" {
      var pieces := Split(model.name, ':');
      if |pieces| == 2 {
        DispatchProviders(pieces[0], pieces[1], model.name);
      } else if BareProvider(model.name).Some? {
        DispatchProviders(BareProvider(model.name).value, model.name, model.name);
      }
    }
  }

  /** The bare-name rules: the provider the prefix names, under the whole name. */
  function BareModel(s: string): Result<InferredModel, Error> {
    match BareProvider(s)
    case Some(p) => Dispatch(p, s, s)
    case None => Failure(UserError("Unknown model: " + s))
  }

  /** The bare-name rules, prefix by prefix, in the order they are tried. */
  lemma BareModelCases(s: string)
    ensures (StartsWith(s, "gpt") || StartsWith(s, "o1") || StartsWith(s, "o3")) ==>
      BareModel(s) == Success(OpenAIInterface(s, "openai"))
    ensures !StartsWith(s, "gpt") && !StartsWith(s, "o1") && !StartsWith(s, "o3") ==>
      && (StartsWith(s, "claude") ==> BareModel(s) == Success(AnthropicModel(s)))
      && (!StartsWith(s, "claude") && StartsWith(s, "gemini") ==>
            BareModel(s) == Success(GeminiModel(s, "google-gla")))
      && (!StartsWith(s, "claude") && !StartsWith(s, "gemini") && StartsWith(s, "vertexai") ==>
            BareModel(s) == Success(GeminiModel(s, "google-vertex")))
      && (!StartsWith(s, "claude") && !StartsWith(s, "gemini") && !StartsWith(s, "vertexai") ==>
            BareModel(s) == Failure(UserError("Unknown model: " + s)))
  {
  }

  /** A name with no `:` or with two or more is classified by its prefix, and
      the model keeps the whole string as its name. */
  lemma InferModelBare(s: string)
    requires s != "test" && Count(s, ':') != 1
    ensures (StartsWith(s, "gpt") || StartsWith(s, "o1") || StartsWith(s, "o3")) ==>
      InferModel(Named(s)) == Success(OpenAIInterface(s, "openai"))
    ensures !StartsWith(s, "gpt") && !StartsWith(s, "o1") && !StartsWith(s, "o3") ==>
      && (StartsWith(s, "claude") ==> InferModel(Named(s)) == Success(AnthropicModel(s)))
      && (!StartsWith(s, "claude") && StartsWith(s, "gemini") ==>
            InferModel(Named(s)) == Success(GeminiModel(s, "google-gla")))
      && (!StartsWith(s, "claude") && !StartsWith(s, "gemini") && StartsWith(s, "vertexai") ==>
            InferModel(Named(s)) == Success(GeminiModel(s, "google-vertex")))
      && (!StartsWith(s, "claude") && !StartsWith(s, "gemini") && !StartsWith(s, "vertexai") ==>
            InferModel(Named(s)) == Failure(UserError("Unknown model: " + s)))
  {
    SplitCount(s, ':');
    assert |Split(s, ':')| != 2;
    assert InferModel(Named(s)) == BareModel(s);
    BareModelCases(s);
  }

  /** `provider:name` with no other `:` dispatches on the provider, with
      `vertexai` read as `google-vertex`; an unknown provider is a `UserError`. */
  lemma InferModelQualified(p: string, n: string)
    requires ':' !in p && ':' !in n
    ensures var r := InferModel(Named(p + ":" + n));
      && (p == "cohere" ==> r == Success(CohereModel(n)))
      && (p == "deepseek" || p == "openai" ==> r == Success(OpenAIInterface(n, p)))
      && (p == "google-gla" || p == "google-vertex" ==> r == Success(GeminiModel(n, p)))
      && (p == "vertexai" ==> r == Success(GeminiModel(n, "google-vertex")))
      && (p == "groq" ==> r == Success(GroqModel(n)))
      && (p == "mistral" ==> r == Success(MistralModel(n)))
      && (p == "anthropic" ==> r == Success(AnthropicModel(n)))
      && (p !in KnownProviders ==> r == Failure(UserError("Unknown model: " + p + ":" + n)))
  {
    SplitAround(p, n, ':');
    assert p + ":" + n == p + [':'] + n;
    assert "Unknown model: " + (p + ":" + n) == "Unknown model: " + p + ":" + n;
    assert (p + ":" + n)[|p|] == ':';
    assert p + ":" + n != "test";
  }

  // ---------------------------------------------------------------------------
  // StreamedResponse

  /** The `vendor_part_id` handed to the parts manager. */
  datatype VendorPartId = ContentId | IndexId(index: int)

  /** One call on the response's parts manager. */
  datatype ManagerCall =
    | TextDelta(vendorPartId: VendorPartId, content: string)
    | ToolCallDelta(vendorPartId: VendorPartId, toolName: Option<string>, args: Option<string>,
                    toolCallId: Option<string>)

  /** `ModelResponsePartsManager` is not part of this model. It is known only
      through the parts it holds after a sequence of calls, and whether a tool-call
      delta, given the calls before it, returns an event (a text delta always does). */
  datatype PartsManagerSpec = PartsManagerSpec(
    parts: seq<ManagerCall> -> seq<ModelResponsePart>,
    toolDeltaEmits: (seq<ManagerCall>, ManagerCall) -> bool)

  /** The event returned by the parts manager for the call at position `call`. */
  datatype StreamEvent = StreamEvent(call: nat)

  /** What the parts manager returns for call `c` after the calls `prior`. */
  function CallEvent(manager: PartsManagerSpec, prior: seq<ManagerCall>, c: ManagerCall): Option<StreamEvent> {
    if c.TextDelta? || manager.toolDeltaEmits(prior, c) then Some(StreamEvent(|prior|)) else None
  }

  /** What the parts manager returns for each call of a trace. */
  function CallEvents(manager: PartsManagerSpec, calls: seq<ManagerCall>): (r: seq<Option<StreamEvent>>)
    ensures |r| == |calls|
  {
    if calls == [] then []
    else CallEvents(manager, calls[..|calls| - 1]) + [CallEvent(manager, calls[..|calls| - 1], calls[|calls| - 1])]
  }

  /** `[e]` for `Some(e)`, `[]` for `None`. */
  function Listed(e: Option<StreamEvent>): seq<StreamEvent> {
    if e.Some? then [e.value] else []
  }

  /** The events of a trace that are not `None`, in order. */
  function Emitted(manager: PartsManagerSpec, calls: seq<ManagerCall>): (r: seq<StreamEvent>)
    ensures |r| <= |calls|
  {
    if calls == [] then []
    else
      var prior := calls[..|calls| - 1];
      Emitted(manager, prior) + Listed(CallEvent(manager, prior, calls[|calls| - 1]))
  }

  /** The events of a generator that only yields events, as the `Option`s the
      iterator records. */
  function AsYielded(events: seq<StreamEvent>): (r: seq<Option<StreamEvent>>)
    ensures |r| == |events|
    ensures forall i | 0 <= i < |events| :: r[i] == Some(events[i])
  {
    seq(|events|, i requires 0 <= i < |events| => Some(events[i]))
  }

  lemma AsYieldedAppend(a: seq<StreamEvent>, b: seq<StreamEvent>)
    ensures AsYielded(a + b) == AsYielded(a) + AsYielded(b)
  {
  }

  /** Every event in a trace's outcomes names its own call, and it is `None`
      exactly for the tool-call deltas the parts manager swallows. */
  lemma {:induction false} CallEventsAt(manager: PartsManagerSpec, calls: seq<ManagerCall>, i: int)
    requires 0 <= i < |calls|
    ensures CallEvents(manager, calls)[i] == CallEvent(manager, calls[..i], calls[i])
    ensures CallEvents(manager, calls)[i].Some? ==> CallEvents(manager, calls)[i].value == StreamEvent(i)
    ensures CallEvents(manager, calls)[i].None? <==>
      calls[i].ToolCallDelta? && !manager.toolDeltaEmits(calls[..i], calls[i])
  {
    var n := |calls| - 1;
    if i < n {
      CallEventsAt(manager, calls[..n], i);
      assert calls[..n][..i] == calls[..i];
    } else {
      assert calls[..n] == calls[..i];
    }
  }

  /** Emitted events name strictly increasing calls, so no event is repeated and
      the order of the calls is kept. */
  lemma {:induction false} EmittedOrdered(manager: PartsManagerSpec, calls: seq<ManagerCall>)
    ensures forall j | 0 <= j < |Emitted(manager, calls)| :: Emitted(manager, calls)[j].call < |calls|
    ensures forall j, k | 0 <= j < k < |Emitted(manager, calls)| ::
      Emitted(manager, calls)[j].call < Emitted(manager, calls)[k].call
  {
    if calls != [] {
      EmittedOrdered(manager, calls[..|calls| - 1]);
    }
  }

  /** Appending one call extends the outcomes and the emitted events by that call's own. */
  lemma CallEventsAppend(manager: PartsManagerSpec, calls: seq<ManagerCall>, c: ManagerCall)
    ensures CallEvents(manager, calls + [c]) == CallEvents(manager, calls) + [CallEvent(manager, calls, c)]
    ensures Emitted(manager, calls + [c]) == Emitted(manager, calls) + Listed(CallEvent(manager, calls, c))
  {
    assert (calls + [c])[..|calls|] == calls;
  }

  /** The shared part of every vendor's streamed response. `C` is the vendor's chunk
      type and `L` the local variables its decoder carries from chunk to chunk. */
  class StreamedResponse<C, L> {
    const modelName: string
    const timestamp: Timestamp
    /** The raw vendor stream the event iterator consumes. */
    const chunks: seq<C>
    const manager: PartsManagerSpec
    /** The decoder's locals before the first chunk. */
    const initialLocals: L
    /** `_parts_manager`: the calls made on it so far. */
    var calls: seq<ManagerCall>
    /** `_usage` */
    var usage: Usage
    /** `_event_iterator` */
    var eventIterator: EventIterator?<C, L>

    constructor (modelName: string, timestamp: Timestamp, chunks: seq<C>, manager: PartsManagerSpec, initialLocals: L)
      ensures this.modelName == modelName && this.timestamp == timestamp && this.chunks == chunks
      ensures this.manager == manager && this.initialLocals == initialLocals
      ensures calls == [] && usage == NoUsage && eventIterator == null
    {
      this.modelName := modelName;
      this.timestamp := timestamp;
      this.chunks := chunks;
      this.manager := manager;
      this.initialLocals := initialLocals;
      calls := [];
      usage := NoUsage;
      eventIterator := null;
    }

    /** `__aiter__`: the event iterator is created on the first call only; every
        later call returns that same object. */
    method AIter() returns (it: EventIterator<C, L>)
      modifies this
      ensures old(eventIterator) != null ==> it == old(eventIterator)
      ensures old(eventIterator) == null ==>
        fresh(it) && it.response == this && it.pos == 0 && it.locals == initialLocals
        && it.yielded == [] && it.error == None
      ensures eventIterator == it
      ensures calls == old(calls) && usage == old(usage)
    {
      if eventIterator == null {
        eventIterator := new EventIterator(this);
      }
      it := eventIterator;
    }

    /** `get()`: the response built from the parts received so far. */
    function Get(): (r: ModelResponse)
      reads this
      ensures r.parts == manager.parts(calls)
      ensures r.modelName == Some(modelName) && r.timestamp == timestamp
    {
      ModelResponse(manager.parts(calls), Some(modelName), timestamp)
    }

    /** `usage()`: the running usage. */
    function CurrentUsage(): (u: Usage)
      reads this
      ensures u == usage
    {
      usage
    }

    /** `_parts_manager.handle_text_delta(...)`: always returns an event. */
    method HandleTextDelta(id: VendorPartId, content: string) returns (e: StreamEvent)
      modifies this
      ensures calls == old(calls) + [TextDelta(id, content)]
      ensures Some(e) == CallEvent(manager, old(calls), TextDelta(id, content))
      ensures usage == old(usage) && eventIterator == old(eventIterator)
    {
      e := StreamEvent(|calls|);
      calls := calls + [TextDelta(id, content)];
    }

    /** `_parts_manager.handle_tool_call_delta(...)`: may return `None`. */
    method HandleToolCallDelta(id: VendorPartId, toolName: Option<string>, args: Option<string>,
                               toolCallId: Option<string>) returns (e: Option<StreamEvent>)
      modifies this
      ensures calls == old(calls) + [ToolCallDelta(id, toolName, args, toolCallId)]
      ensures e == CallEvent(manager, old(calls), ToolCallDelta(id, toolName, args, toolCallId))
      ensures usage == old(usage) && eventIterator == old(eventIterator)
    {
      e := CallEvent(manager, calls, ToolCallDelta(id, toolName, args, toolCallId));
      calls := calls + [ToolCallDelta(id, toolName, args, toolCallId)];
    }

    /** `self._usage += u` */
    method AddUsage(u: Usage)
      modifies this
      ensures usage == Sum(old(usage), u)
      ensures calls == old(calls) && eventIterator == old(eventIterator)
    {
      usage := Sum(usage, u);
    }
  }

  /** The generator returned by `_get_event_iterator`, suspended between chunks:
      how many chunks it has consumed, its carried locals, what it has yielded,
      and the exception that ended it, if any. */
  class EventIterator<C, L> {
    const response: StreamedResponse<C, L>
    var pos: nat
    var locals: L
    var yielded: seq<Option<StreamEvent>>
    var error: Option<Error>

    constructor (response: StreamedResponse<C, L>)
      ensures this.response == response && pos == 0 && locals == response.initialLocals
      ensures yielded == [] && error == None
    {
      this.response := response;
      pos := 0;
      locals := response.initialLocals;
      yielded := [];
      error := None;
    }

    /** The generator is finished: the stream is used up or it raised. */
    predicate Done()
      reads this, response
    {
      error.Some? || pos >= |response.chunks|
    }
  }
}
