/** pydantic_ai/providers.py, the older single-file providers module: its
    `infer_provider` and the key and client decisions of `DeepSeekProvider` and
    `OpenAIProvider`. */
module LegacyProviders {
  import opened Wrappers
  import opened Exceptions
  import opened Strings
  import opened Messages
  import opened Providers

  const DeepSeekName := "deepseek"
  const KeyRequired := "API key is required for DeepSeek provider"

  /** `base_url` of `DeepSeekProvider` as written: the host is misspelt. */
  const DeepSeekBaseUrlAsWritten := "https://api.deepsek.com/v1"

  /** The DeepSeek API base URL the provider is evidently meant to return. */
  const DeepSeekBaseUrl := "https://api.deepseek.com/v1"

  /** The URL as written does not name the DeepSeek host. */
  lemma DeepSeekBaseUrlMisspelt()
    ensures !StartsWith(DeepSeekBaseUrlAsWritten, "https://api.deepseek.com/")
    ensures DeepSeekBaseUrlAsWritten != DeepSeekBaseUrl
  {
    assert DeepSeekBaseUrlAsWritten[18] == 'k';
    assert "https://api.deepseek.com/"[18] == 'e';
  }

  /** The corrected URL is the DeepSeek host with the same `/v1` path as the
      OpenAI one. */
  lemma DeepSeekBaseUrlHost()
    ensures StartsWith(DeepSeekBaseUrl, "https://api.deepseek.com/")
    ensures EndsWith(DeepSeekBaseUrl, "/v1") && EndsWith(OpenAIBaseUrl, "/v1")
  {
    assert DeepSeekBaseUrl[..25] == "https://api.deepseek.com/";
    assert DeepSeekBaseUrl[|DeepSeekBaseUrl| - 3..] == "/v1";
    assert OpenAIBaseUrl[|OpenAIBaseUrl| - 3..] == "/v1";
  }

  /** `api_key or os.environ.get('DEEPSEEK_API_KEY')`: an empty key counts as
      missing. */
  function DeepSeekKey(apiKey: Option<string>, env: Environment): (k: Option<string>)
    ensures Present(apiKey) ==> k == apiKey
    ensures !Present(apiKey) ==> (k.Some? <==> "DEEPSEEK_API_KEY" in env)
    ensures !Present(apiKey) && k.Some? ==> k.value == env["DEEPSEEK_API_KEY"]
  {
    if Present(apiKey) then apiKey
    else if "DEEPSEEK_API_KEY" in env then Some(env["DEEPSEEK_API_KEY"])
    else None
  }

  /** The key and client decision of `DeepSeekProvider.__init__`: a key (after the
      environment fallback) or a client is required; a given client excludes an
      HTTP client and a key; otherwise a client is built on `base_url`, as written,
      and the given HTTP client, else the cached one. */
  function DeepSeekClientChoice(apiKey: Option<string>, openaiClient: Option<ClientRef>,
                                httpClient: Option<HttpClient>, env: Environment): (r: Result<OpenAIClient, Error>)
    ensures var key := DeepSeekKey(apiKey, env);
      && (key.None? && openaiClient.None? ==> r == Failure(ValueError(KeyRequired)))
      && (openaiClient.Some? ==>
            && (httpClient.Some? ==> r == Failure(AssertionError(BothHttpClient)))
            && (httpClient.None? && key.Some? ==> r == Failure(AssertionError(BothApiKey)))
            && (httpClient.None? && key.None? ==> r == Success(GivenClient(openaiClient.value))))
      && (openaiClient.None? && key.Some? ==>
            r == Success(BuiltClient(DeepSeekBaseUrlAsWritten, key,
                                     if httpClient.Some? then GivenHttp(httpClient.value) else CachedHttp)))
  {
    var key := DeepSeekKey(apiKey, env);
    if key.None? && openaiClient.None? then Failure(ValueError(KeyRequired))
    else if openaiClient.Some? then
      if httpClient.Some? then Failure(AssertionError(BothHttpClient))
      else if key.Some? then Failure(AssertionError(BothApiKey))
      else Success(GivenClient(openaiClient.value))
    else if httpClient.Some? then Success(BuiltClient(DeepSeekBaseUrlAsWritten, key, GivenHttp(httpClient.value)))
    else Success(BuiltClient(DeepSeekBaseUrlAsWritten, key, CachedHttp))
  }

  /** Every client the provider builds itself points at the misspelt host, so no
      request of a `DeepSeekProvider` without a caller's client reaches DeepSeek. */
  lemma DeepSeekClientMisdirected(apiKey: Option<string>, httpClient: Option<HttpClient>, env: Environment)
    ensures var choice := DeepSeekClientChoice(apiKey, None, httpClient, env);
      choice.Success? ==> choice.value.BuiltClient? && !StartsWith(choice.value.baseUrl, "https://api.deepseek.com/")
  {
    DeepSeekBaseUrlMisspelt();
  }

  /** The client the provider would build on the corrected URL is on the DeepSeek
      host. */
  function CorrectedDeepSeekClient(client: OpenAIClient): (c: OpenAIClient)
    ensures client.BuiltClient? ==>
      && c.BuiltClient? && StartsWith(c.baseUrl, "https://api.deepseek.com/")
      && c.apiKey == client.apiKey && c.http == client.http
    ensures client.GivenClient? ==> c == client
  {
    DeepSeekBaseUrlHost();
    if client.BuiltClient? then client.(baseUrl := DeepSeekBaseUrl) else client
  }

  /** Because the environment key is read before the client check, a caller's
      client is refused whenever `DEEPSEEK_API_KEY` is set. */
  lemma DeepSeekClientRefusedWithEnvKey(openaiClient: ClientRef, env: Environment)
    requires "DEEPSEEK_API_KEY" in env
    ensures DeepSeekClientChoice(None, Some(openaiClient), None, env) == Failure(AssertionError(BothApiKey))
  {
  }

  /** `DeepSeekProvider` */
  class DeepSeekProvider {
    const client: OpenAIClient

    constructor(client: OpenAIClient)
      ensures this.client == client
    {
      this.client := client;
    }

    /** The `provider` property. */
    function ProviderName(): (n: string)
      ensures n == DeepSeekName
    {
      DeepSeekName
    }

    /** The `base_url` property, as written: not on the DeepSeek host. */
    function BaseUrl(): (u: string)
      ensures u == DeepSeekBaseUrlAsWritten && !StartsWith(u, "https://api.deepseek.com/")
    {
      DeepSeekBaseUrlMisspelt();
      DeepSeekBaseUrlAsWritten
    }
  }

  /** `DeepSeekProvider(api_key, openai_client, http_client)` */
  method NewDeepSeekProvider(apiKey: Option<string>, openaiClient: Option<ClientRef>,
                             httpClient: Option<HttpClient>, env: Environment)
    returns (r: Result<DeepSeekProvider, Error>)
    ensures var choice := DeepSeekClientChoice(apiKey, openaiClient, httpClient, env);
      && (choice.Failure? ==> r == Failure(choice.error))
      && (choice.Success? ==> r.Success? && fresh(r.value) && r.value.client == choice.value)
  {
    var choice := DeepSeekClientChoice(apiKey, openaiClient, httpClient, env);
    if choice.Failure? {
      return Failure(choice.error);
    }
    var p := new DeepSeekProvider(choice.value);
    r := Success(p);
  }

  /** The older `OpenAIProvider`: the same decision as the newer one, with the
      name exposed as `provider`. */
  class LegacyOpenAIProvider {
    const client: OpenAIClient

    constructor(client: OpenAIClient)
      ensures this.client == client
    {
      this.client := client;
    }

    /** The `provider` property. */
    function ProviderName(): (n: string)
      ensures n == OpenAIName
    {
      OpenAIName
    }

    /** The `base_url` property. */
    function BaseUrl(): (u: string)
      ensures u == OpenAIBaseUrl
    {
      OpenAIBaseUrl
    }
  }

  /** What `infer_provider` of providers.py builds. */
  datatype LegacyProvider = LegacyOpenAI(client: OpenAIClient) | LegacyDeepSeek(client: OpenAIClient)

  /** `infer_provider` of providers.py: `openai` and `deepseek` only, each built
      with no arguments, so DeepSeek needs `DEEPSEEK_API_KEY`. */
  function InferLegacyProvider(provider: string, env: Environment): (r: Result<LegacyProvider, Error>)
    ensures provider == "openai" ==> r.Success? && r.value.LegacyOpenAI?
    ensures provider == "deepseek" ==>
      (r.Success? <==> "DEEPSEEK_API_KEY" in env)
      && (r.Failure? ==> r.error == ValueError(KeyRequired))
      && (r.Success? ==> r.value.LegacyDeepSeek? && r.value.client.BuiltClient?
                         && r.value.client.baseUrl == DeepSeekBaseUrlAsWritten)
    ensures provider !in {"openai", "deepseek"} ==> r == Failure(ValueError("Unknown provider: " + provider))
  {
    if provider == "openai" then
      Success(LegacyOpenAI(OpenAIClientChoice(None, None, None, env).value))
    else if provider == "deepseek" then
      var client :- DeepSeekClientChoice(None, None, None, env);
      Success(LegacyDeepSeek(client))
    else Failure(ValueError("Unknown provider: " + provider))
  }

  /** The older dispatch accepts a strict subset of the names the newer one does. */
  lemma LegacyNamesSubset(provider: string, env: Environment)
    ensures provider !in {"openai", "deepseek"} ==> InferLegacyProvider(provider, env).Failure?
    ensures InferLegacyProvider(provider, env).Success? ==> InferProvider(provider).Success?
    ensures InferLegacyProvider("google-gla", env).Failure? && InferProvider("google-gla").Success?
  {
  }
}
