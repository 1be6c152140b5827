/** pydantic_ai/providers/__init__.py and pydantic_ai/providers/openai.py: the
    dispatch from a provider name to a provider, and how `OpenAIProvider` picks
    its API key and client. The process environment is a parameter. */
module Providers {
  import opened Wrappers
  import opened Exceptions
  import opened Messages
  import opened Models

  /** `os.environ` */
  type Environment = map<string, string>

  /** An `httpx.AsyncClient` supplied by the caller, by its identity. */
  datatype HttpClient = HttpClient(id: nat)

  /** An `AsyncOpenAI` supplied by the caller, by its identity. */
  datatype ClientRef = ClientRef(id: nat)

  /** Where a built client gets its HTTP client from. */
  datatype HttpSource = GivenHttp(client: HttpClient) | CachedHttp

  /** The `_client` of a provider: the caller's, or one built with
      `AsyncOpenAI(base_url=..., api_key=..., http_client=...)`. */
  datatype OpenAIClient =
    | GivenClient(client: ClientRef)
    | BuiltClient(baseUrl: string, apiKey: Option<string>, http: HttpSource)

  /** The providers the dispatch can produce. */
  datatype ProviderKind = OpenAIKind | DeepSeekKind | VertexAIKind | GoogleGLAKind

  /** `infer_provider` of providers/__init__.py: an exact match on four names. */
  function InferProvider(provider: string): (r: Result<ProviderKind, Error>)
    ensures provider == "openai" <==> r == Success(OpenAIKind)
    ensures provider == "deepseek" <==> r == Success(DeepSeekKind)
    ensures provider == "google-vertex" <==> r == Success(VertexAIKind)
    ensures provider == "google-gla" <==> r == Success(GoogleGLAKind)
    ensures r.Failure? <==> provider !in {"openai", "deepseek", "google-vertex", "google-gla"}
    ensures r.Failure? ==> r.error == ValueError("Unknown provider: " + provider)
  {
    if provider == "openai" then Success(OpenAIKind)
    else if provider == "deepseek" then Success(DeepSeekKind)
    else if provider == "google-vertex" then Success(VertexAIKind)
    else if provider == "google-gla" then Success(GoogleGLAKind)
    else Failure(ValueError("Unknown provider: " + provider))
  }

  /** The alias `infer_model` accepts is not a provider name here. */
  lemma VertexAliasRejected()
    ensures InferProvider("vertexai") == Failure(ValueError("Unknown provider: vertexai"))
  {
    assert "Unknown provider: " + "vertexai" == "Unknown provider: vertexai";
  }

  /** Every provider `infer_model` hands to an OpenAI or Gemini model is one the
      dispatch accepts. */
  lemma InferredProvidersKnown(model: ModelRef)
    ensures InferModel(model).Success? && InferModel(model).value.OpenAIInterface? ==>
      InferProvider(InferModel(model).value.provider).Success?
    ensures InferModel(model).Success? && InferModel(model).value.GeminiModel? ==>
      InferProvider(InferModel(model).value.provider).Success?
  {
    InferModelProviders(model);
    assert KnownInterfaceProvider(InferModel(model));
  }

  const OpenAIName := "openai"
  const OpenAIBaseUrl := "https://api.openai.com/v1"
  const PlaceholderKey := "api-key-not-set"
  const BothHttpClient := "Cannot provide both `openai_client` and `http_client`"
  const BothApiKey := "Cannot provide both `openai_client` and `api_key`"

  /** The key and client decision of `OpenAIProvider.__init__`. With no key, no
      `OPENAI_API_KEY` and no client, the placeholder key is used; a given client
      excludes an HTTP client and a key; otherwise a client is built on the given
      HTTP client, else on the cached one. */
  function OpenAIClientChoice(apiKey: Option<string>, openaiClient: Option<ClientRef>,
                              httpClient: Option<HttpClient>, env: Environment): (r: Result<OpenAIClient, Error>)
    ensures r.Failure? <==> openaiClient.Some? && (httpClient.Some? || apiKey.Some?)
    ensures r.Failure? ==> r.error == AssertionError(if httpClient.Some? then BothHttpClient else BothApiKey)
    ensures r.Success? && openaiClient.Some? ==> r.value == GivenClient(openaiClient.value)
    ensures r.Success? && openaiClient.None? ==>
      && r.value.BuiltClient? && r.value.baseUrl == OpenAIBaseUrl
      && r.value.http == (if httpClient.Some? then GivenHttp(httpClient.value) else CachedHttp)
      && (apiKey.Some? ==> r.value.apiKey == apiKey)
      && (apiKey.None? ==> (r.value.apiKey == Some(PlaceholderKey) <==> "OPENAI_API_KEY" !in env))
      && (apiKey.None? ==> (r.value.apiKey == None <==> "OPENAI_API_KEY" in env))
  {
    var key := if apiKey.None? && "OPENAI_API_KEY" !in env && openaiClient.None? then Some(PlaceholderKey) else apiKey;
    if openaiClient.Some? then
      if httpClient.Some? then Failure(AssertionError(BothHttpClient))
      else if key.Some? then Failure(AssertionError(BothApiKey))
      else Success(GivenClient(openaiClient.value))
    else if httpClient.Some? then Success(BuiltClient(OpenAIBaseUrl, key, GivenHttp(httpClient.value)))
    else Success(BuiltClient(OpenAIBaseUrl, key, CachedHttp))
  }

  /** `OpenAIProvider` of providers/openai.py. */
  class OpenAIProvider {
    const client: OpenAIClient

    constructor(client: OpenAIClient)
      ensures this.client == client
    {
      this.client := client;
    }

    /** The `name` property. */
    function Name(): (n: string)
      ensures n == OpenAIName
    {
      OpenAIName
    }

    /** The `base_url` property. */
    function BaseUrl(): (u: string)
      ensures u == OpenAIBaseUrl
    {
      OpenAIBaseUrl
    }
  }

  /** `OpenAIProvider(api_key, openai_client, http_client)`, whose assertions
      become a `Failure`. */
  method NewOpenAIProvider(apiKey: Option<string>, openaiClient: Option<ClientRef>,
                           httpClient: Option<HttpClient>, env: Environment)
    returns (r: Result<OpenAIProvider, Error>)
    ensures var choice := OpenAIClientChoice(apiKey, openaiClient, httpClient, env);
      && (choice.Failure? ==> r == Failure(choice.error))
      && (choice.Success? ==> r.Success? && fresh(r.value) && r.value.client == choice.value)
  {
    var choice := OpenAIClientChoice(apiKey, openaiClient, httpClient, env);
    if choice.Failure? {
      return Failure(choice.error);
    }
    var p := new OpenAIProvider(choice.value);
    r := Success(p);
  }
}
