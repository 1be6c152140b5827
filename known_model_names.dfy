/** The `KnownModelName` literal type of pydantic_ai/models/__init__.py, in source
    order, and the fact that `infer_model` resolves every entry. Entries of the form
    `provider:name` are stored by provider, without the prefix. */
module KnownModelNames {
  import opened Wrappers
  import opened Strings
  import opened Models

  /** `provider:<name>` for every name. */
  function Qualified(provider: string, names: seq<string>): (r: seq<string>)
    ensures |r| == |names|
    ensures forall k | 0 <= k < |names| :: r[k] == provider + ":" + names[k]
  {
    seq(|names|, k requires 0 <= k < |names| => provider + ":" + names[k])
  }

  /** `anthropic:<name>` entries */
  const KnownAnthropic: seq<string> := [
    "claude-3-5-haiku-latest",
    "claude-3-5-sonnet-latest",
    "claude-3-opus-latest"]

  /** bare `claude...` entries */
  const KnownClaude: seq<string> := [
    "claude-3-5-haiku-latest",
    "claude-3-5-sonnet-latest",
    "claude-3-opus-latest"]

  /** `cohere:<name>` entries */
  const KnownCohere: seq<string> := [
    "c4ai-aya-expanse-32b",
    "c4ai-aya-expanse-8b",
    "command",
    "command-light",
    "command-light-nightly",
    "command-nightly",
    "command-r",
    "command-r-03-2024",
    "command-r-08-2024",
    "command-r-plus",
    "command-r-plus-04-2024",
    "command-r-plus-08-2024",
    "command-r7b-12-2024"]

  /** `deepseek:<name>` entries */
  const KnownDeepSeek: seq<string> := [
    "deepseek-chat",
    "deepseek-reasoner"]

  /** `google-gla:<name>` entries */
  const KnownGoogleGla: seq<string> := [
    "gemini-1.0-pro",
    "gemini-1.5-flash",
    "gemini-1.5-flash-8b",
    "gemini-1.5-pro",
    "gemini-2.0-flash-exp",
    "gemini-2.0-flash-thinking-exp-01-21",
    "gemini-exp-1206",
    "gemini-2.0-flash",
    "gemini-2.0-flash-lite-preview-02-05"]

  /** `google-vertex:<name>` entries */
  const KnownGoogleVertex: seq<string> := [
    "gemini-1.0-pro",
    "gemini-1.5-flash",
    "gemini-1.5-flash-8b",
    "gemini-1.5-pro",
    "gemini-2.0-flash-exp",
    "gemini-2.0-flash-thinking-exp-01-21",
    "gemini-exp-1206",
    "gemini-2.0-flash",
    "gemini-2.0-flash-lite-preview-02-05"]

  /** bare `gpt...` entries */
  const KnownGpt1: seq<string> := [
    "gpt-3.5-turbo",
    "gpt-3.5-turbo-0125",
    "gpt-3.5-turbo-0301",
    "gpt-3.5-turbo-0613",
    "gpt-3.5-turbo-1106",
    "gpt-3.5-turbo-16k",
    "gpt-3.5-turbo-16k-0613",
    "gpt-4"]

  /** bare `gpt...` entries */
  const KnownGpt2: seq<string> := [
    "gpt-4-0125-preview",
    "gpt-4-0314",
    "gpt-4-0613",
    "gpt-4-1106-preview",
    "gpt-4-32k",
    "gpt-4-32k-0314",
    "gpt-4-32k-0613",
    "gpt-4-turbo"]

  /** bare `gpt...` entries */
  const KnownGpt3: seq<string> := [
    "gpt-4-turbo-2024-04-09",
    "gpt-4-turbo-preview",
    "gpt-4-vision-preview",
    "gpt-4.5-preview",
    "gpt-4.5-preview-2025-02-27",
    "gpt-4o",
    "gpt-4o-2024-05-13",
    "gpt-4o-2024-08-06"]

  /** bare `gpt...` entries */
  const KnownGpt4: seq<string> := [
    "gpt-4o-2024-11-20",
    "gpt-4o-audio-preview",
    "gpt-4o-audio-preview-2024-10-01",
    "gpt-4o-audio-preview-2024-12-17",
    "gpt-4o-mini",
    "gpt-4o-mini-2024-07-18",
    "gpt-4o-mini-audio-preview",
    "gpt-4o-mini-audio-preview-2024-12-17"]

  /** `groq:<name>` entries */
  const KnownGroq: seq<string> := [
    "gemma2-9b-it",
    "llama-3.1-8b-instant",
    "llama-3.2-11b-vision-preview",
    "llama-3.2-1b-preview",
    "llama-3.2-3b-preview",
    "llama-3.2-90b-vision-preview",
    "llama-3.3-70b-specdec",
    "llama-3.3-70b-versatile",
    "llama3-70b-8192",
    "llama3-8b-8192",
    "mixtral-8x7b-32768"]

  /** `mistral:<name>` entries */
  const KnownMistral: seq<string> := [
    "codestral-latest",
    "mistral-large-latest",
    "mistral-moderation-latest",
    "mistral-small-latest"]

  /** bare `o1...` entries */
  const KnownO1: seq<string> := [
    "o1",
    "o1-2024-12-17",
    "o1-mini",
    "o1-mini-2024-09-12",
    "o1-preview",
    "o1-preview-2024-09-12"]

  /** bare `o3...` entries */
  const KnownO3: seq<string> := [
    "o3-mini",
    "o3-mini-2025-01-31"]

  /** `openai:<name>` entries */
  const KnownOpenAI1: seq<string> := [
    "chatgpt-4o-latest",
    "gpt-3.5-turbo",
    "gpt-3.5-turbo-0125",
    "gpt-3.5-turbo-0301",
    "gpt-3.5-turbo-0613",
    "gpt-3.5-turbo-1106",
    "gpt-3.5-turbo-16k",
    "gpt-3.5-turbo-16k-0613",
    "gpt-4",
    "gpt-4-0125-preview",
    "gpt-4-0314",
    "gpt-4-0613",
    "gpt-4-1106-preview"]

  /** `openai:<name>` entries */
  const KnownOpenAI2: seq<string> := [
    "gpt-4-32k",
    "gpt-4-32k-0314",
    "gpt-4-32k-0613",
    "gpt-4-turbo",
    "gpt-4-turbo-2024-04-09",
    "gpt-4-turbo-preview",
    "gpt-4-vision-preview",
    "gpt-4.5-preview",
    "gpt-4.5-preview-2025-02-27",
    "gpt-4o",
    "gpt-4o-2024-05-13",
    "gpt-4o-2024-08-06",
    "gpt-4o-2024-11-20"]

  /** `openai:<name>` entries */
  const KnownOpenAI3: seq<string> := [
    "gpt-4o-audio-preview",
    "gpt-4o-audio-preview-2024-10-01",
    "gpt-4o-audio-preview-2024-12-17",
    "gpt-4o-mini",
    "gpt-4o-mini-2024-07-18",
    "gpt-4o-mini-audio-preview",
    "gpt-4o-mini-audio-preview-2024-12-17",
    "o1",
    "o1-2024-12-17",
    "o1-mini",
    "o1-mini-2024-09-12",
    "o1-preview",
    "o1-preview-2024-09-12"]

  /** `openai:<name>` entries */
  const KnownOpenAI4: seq<string> := [
    "o3-mini",
    "o3-mini-2025-01-31"]

  /** `KnownModelName`, in the order of its literals. */
  function KnownModelNames(): seq<string> {
    KnownAnthropicToGemini() + KnownVertexAndGpt() + KnownGroqToO3() + KnownOpenAIAndTest()
  }

  /** The anthropic, claude, cohere, deepseek and google-gla entries. */
  function KnownAnthropicToGemini(): seq<string> {
    Qualified("anthropic", KnownAnthropic)
    + KnownClaude
    + Qualified("cohere", KnownCohere)
    + Qualified("deepseek", KnownDeepSeek)
    + Qualified("google-gla", KnownGoogleGla)
  }

  /** The google-vertex and bare gpt entries. */
  function KnownVertexAndGpt(): seq<string> {
    Qualified("google-vertex", KnownGoogleVertex)
    + KnownGpt1
    + KnownGpt2
    + KnownGpt3
    + KnownGpt4
  }

  /** The groq, mistral and bare o1/o3 entries. */
  function KnownGroqToO3(): seq<string> {
    Qualified("groq", KnownGroq)
    + Qualified("mistral", KnownMistral)
    + KnownO1
    + KnownO3
  }

  /** The openai entries and `test`. */
  function KnownOpenAIAndTest(): seq<string> {
    Qualified("openai", KnownOpenAI1)
    + Qualified("openai", KnownOpenAI2)
    + Qualified("openai", KnownOpenAI3)
    + Qualified("openai", KnownOpenAI4)
    + ["test"]
  }

  /** Names with no `:` in them. */
  predicate ColonFree(names: seq<string>) {
    forall k | 0 <= k < |names| :: ':' !in names[k]
  }

  /** Names that all start with `prefix`. */
  predicate AllStartWith(names: seq<string>, prefix: string) {
    forall k | 0 <= k < |names| :: StartsWith(names[k], prefix)
  }

  lemma StartsWithChars(s: string, prefix: string)
    requires |prefix| <= |s| && forall i | 0 <= i < |prefix| :: s[i] == prefix[i]
    ensures StartsWith(s, prefix)
  {
    assert s[..|prefix|] == prefix;
  }

  lemma QualifiedResolve(p: string, names: seq<string>)
    requires p in KnownProviders && ':' !in p && ColonFree(names)
    ensures forall s | s in Qualified(p, names) :: InferModel(Named(s)).Success?
  {
    forall s | s in Qualified(p, names)
      ensures InferModel(Named(s)).Success?
    {
      var k :| 0 <= k < |names| && Qualified(p, names)[k] == s;
      InferModelQualified(p, names[k]);
    }
  }

  lemma BareResolve(prefix: string, names: seq<string>)
    requires prefix in ["gpt", "o1", "o3", "claude"] && ColonFree(names) && AllStartWith(names, prefix)
    ensures forall s | s in names :: InferModel(Named(s)).Success?
  {
    forall s | s in names
      ensures InferModel(Named(s)).Success?
    {
      CountAbsent(s, ':');
      InferModelBare(s);
    }
  }

  /** Every name of a group resolves without `UserError`. */
  predicate AllResolve(names: seq<string>) {
    forall s | s in names :: InferModel(Named(s)).Success?
  }

  lemma KnownAnthropicToGeminiResolve()
    ensures AllResolve(KnownAnthropicToGemini())
  {
    WellFormedAnthropic();
    WellFormedClaude();
    WellFormedCohere();
    WellFormedDeepSeek();
    WellFormedGoogleGla();
    QualifiedResolve("anthropic", KnownAnthropic);
    BareResolve("claude", KnownClaude);
    QualifiedResolve("cohere", KnownCohere);
    QualifiedResolve("deepseek", KnownDeepSeek);
    QualifiedResolve("google-gla", KnownGoogleGla);
  }

  lemma KnownVertexAndGptResolve()
    ensures AllResolve(KnownVertexAndGpt())
  {
    WellFormedGoogleVertex();
    WellFormedGpt1();
    WellFormedGpt2();
    WellFormedGpt3();
    WellFormedGpt4();
    QualifiedResolve("google-vertex", KnownGoogleVertex);
    BareResolve("gpt", KnownGpt1);
    BareResolve("gpt", KnownGpt2);
    BareResolve("gpt", KnownGpt3);
    BareResolve("gpt", KnownGpt4);
  }

  lemma KnownGroqToO3Resolve()
    ensures AllResolve(KnownGroqToO3())
  {
    WellFormedGroq();
    WellFormedMistral();
    WellFormedO1();
    WellFormedO3();
    QualifiedResolve("groq", KnownGroq);
    QualifiedResolve("mistral", KnownMistral);
    BareResolve("o1", KnownO1);
    BareResolve("o3", KnownO3);
  }

  lemma KnownOpenAIAndTestResolve()
    ensures AllResolve(KnownOpenAIAndTest())
  {
    WellFormedOpenAI1();
    WellFormedOpenAI2();
    WellFormedOpenAI3();
    WellFormedOpenAI4();
    QualifiedResolve("openai", KnownOpenAI1);
    QualifiedResolve("openai", KnownOpenAI2);
    QualifiedResolve("openai", KnownOpenAI3);
    QualifiedResolve("openai", KnownOpenAI4);
    assert InferModel(Named("test")).Success?;
  }

  /** Every entry of `KnownModelName` resolves without `UserError`. */
  lemma KnownModelNamesResolve()
    ensures forall s | s in KnownModelNames() :: InferModel(Named(s)).Success?
  {
    KnownAnthropicToGeminiResolve();
    KnownVertexAndGptResolve();
    KnownGroqToO3Resolve();
    KnownOpenAIAndTestResolve();
  }

  // The stored names carry no `:` and the bare ones start with their prefix,
  // one group at a time.

  lemma WellFormedAnthropic()
    ensures ColonFree(KnownAnthropic)
  {
  }

  lemma WellFormedClaude()
    ensures ColonFree(KnownClaude) && AllStartWith(KnownClaude, "claude")
  {
    forall k | 0 <= k < |KnownClaude|
      ensures ':' !in KnownClaude[k] && StartsWith(KnownClaude[k], "claude")
    {
      StartsWithChars(KnownClaude[k], "claude");
    }
  }


  lemma WellFormedCohere()
    ensures ColonFree(KnownCohere)
  {
  }

  lemma WellFormedDeepSeek()
    ensures ColonFree(KnownDeepSeek)
  {
  }

  lemma WellFormedGoogleGla()
    ensures ColonFree(KnownGoogleGla)
  {
  }

  lemma WellFormedGoogleVertex()
    ensures ColonFree(KnownGoogleVertex)
  {
  }

  lemma WellFormedGpt1()
    ensures ColonFree(KnownGpt1) && AllStartWith(KnownGpt1, "gpt")
  {
    forall k | 0 <= k < |KnownGpt1|
      ensures ':' !in KnownGpt1[k] && StartsWith(KnownGpt1[k], "gpt")
    {
      StartsWithChars(KnownGpt1[k], "gpt");
    }
  }


  lemma WellFormedGpt2()
    ensures ColonFree(KnownGpt2) && AllStartWith(KnownGpt2, "gpt")
  {
    forall k | 0 <= k < |KnownGpt2|
      ensures ':' !in KnownGpt2[k] && StartsWith(KnownGpt2[k], "gpt")
    {
      StartsWithChars(KnownGpt2[k], "gpt");
    }
  }


  lemma WellFormedGpt3()
    ensures ColonFree(KnownGpt3) && AllStartWith(KnownGpt3, "gpt")
  {
    forall k | 0 <= k < |KnownGpt3|
      ensures ':' !in KnownGpt3[k] && StartsWith(KnownGpt3[k], "gpt")
    {
      StartsWithChars(KnownGpt3[k], "gpt");
    }
  }


  lemma WellFormedGpt4()
    ensures ColonFree(KnownGpt4) && AllStartWith(KnownGpt4, "gpt")
  {
    forall k | 0 <= k < |KnownGpt4|
      ensures ':' !in KnownGpt4[k] && StartsWith(KnownGpt4[k], "gpt")
    {
      StartsWithChars(KnownGpt4[k], "gpt");
    }
  }


  lemma WellFormedGroq()
    ensures ColonFree(KnownGroq)
  {
  }

  lemma WellFormedMistral()
    ensures ColonFree(KnownMistral)
  {
  }

  lemma WellFormedO1()
    ensures ColonFree(KnownO1) && AllStartWith(KnownO1, "o1")
  {
    forall k | 0 <= k < |KnownO1|
      ensures ':' !in KnownO1[k] && StartsWith(KnownO1[k], "o1")
    {
      StartsWithChars(KnownO1[k], "o1");
    }
  }


  lemma WellFormedO3()
    ensures ColonFree(KnownO3) && AllStartWith(KnownO3, "o3")
  {
    forall k | 0 <= k < |KnownO3|
      ensures ':' !in KnownO3[k] && StartsWith(KnownO3[k], "o3")
    {
      StartsWithChars(KnownO3[k], "o3");
    }
  }


  lemma WellFormedOpenAI1()
    ensures ColonFree(KnownOpenAI1)
  {
  }

  lemma WellFormedOpenAI2()
    ensures ColonFree(KnownOpenAI2)
  {
  }

  lemma WellFormedOpenAI3()
    ensures ColonFree(KnownOpenAI3)
  {
  }

  lemma WellFormedOpenAI4()
    ensures ColonFree(KnownOpenAI4)
  {
  }
}
