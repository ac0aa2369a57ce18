/**
 * The language-model backends (src/models/base.js, src/models/openai.js and the
 * capability flags of the other backends). What a backend would send over the
 * network is returned as a `Payload` value: the OpenAI chat request is built
 * exactly, the requests of the other SDKs are handed over as `Delegated`.
 */
module Models {
  import opened Wrappers
  import opened JsText
  import Config
  import DocumentFetcher

  /** The backend classes: `BaseLLM` and its four subclasses. */
  datatype Backend = Base | OpenAI | Claude | Gemini | Ollama

  /** `constructor.name` of each backend's class. */
  function ClassName(b: Backend): string {
    match b
    case Base => "BaseLLM"
    case OpenAI => "OpenAILLM"
    case Claude => "ClaudeLLM"
    case Gemini => "GeminiLLM"
    case Ollama => "OllamaLLM"
  }

  /** The provider name each subclass reads its model and API key under. */
  function ProviderKey(b: Backend): string {
    match b
    case Base => "base"
    case OpenAI => "openai"
    case Claude => "anthropic"
    case Gemini => "google"
    case Ollama => "ollama"
  }

  /**
   * `hasBrowsingCapability` as each constructor leaves it: false in the base
   * class, true for Claude and Gemini, explicitly false for OpenAI, inherited
   * false for Ollama.
   */
  function BrowsingCapability(b: Backend): bool {
    b == Claude || b == Gemini
  }

  const NotImplemented: string := "Method not implemented"
  const BrowsingNotSupported: string := "Web browsing not supported by this model"
  const ContentRequired: string := "Document content is required for OpenAI when using generateWithBrowsing"
  const DefaultSystemPrompt: string := "You are a helpful assistant."
  const DefaultMaxTokens: int := 1000

  /** The error a lazily initialising backend throws when its client cannot be created. */
  function InitFailure(b: Backend): string {
    match b
    case OpenAI => "Failed to initialize OpenAI client"
    case Claude => "Failed to initialize Anthropic client"
    case Gemini => "Failed to initialize Google Generative AI client"
    case _ => NotImplemented
  }

  /** The options object of `generate` and `generateWithBrowsing`; temperature is not modelled. */
  datatype CallOptions = CallOptions(
    systemPrompt: Option<string>,
    documentContent: Option<string>,
    model: Option<string>,
    maxTokens: Option<int>)

  /** `{ systemPrompt }`. */
  function SystemOnly(systemPrompt: string): CallOptions {
    CallOptions(Some(systemPrompt), None, None, None)
  }

  /** `{ systemPrompt, documentContent }`. */
  function WithContent(systemPrompt: string, content: string): CallOptions {
    CallOptions(Some(systemPrompt), Some(content), None, None)
  }

  /** What a backend sends: an OpenAI chat completion, or a call into another SDK. */
  datatype Payload =
    | ChatCompletion(model: string, system: string, user: string, maxTokens: int)
    | Delegated(backend: Backend, url: Option<string>, prompt: string, options: CallOptions)

  /** `v || fallback` for a possibly missing string. */
  function StringOr(v: Option<string>, fallback: string): (r: string)
    ensures Config.Truthy(v) ==> r == v.value
    ensures !Config.Truthy(v) ==> r == fallback
  {
    if Config.Truthy(v) then v.value else fallback
  }

  /** `options.maxTokens || 1000`: a missing or zero limit becomes 1000. */
  function MaxTokensOr(v: Option<int>): (r: int)
    ensures r != 0
    ensures v.Some? && v.value != 0 ==> r == v.value
    ensures v.None? || v.value == 0 ==> r == DefaultMaxTokens
  {
    if v.Some? && v.value != 0 then v.value else DefaultMaxTokens
  }

  /** `content.replace(/\s+/g, ' ').trim()`: the document as the OpenAI backend embeds it. */
  function EmbeddedContent(content: string): (r: string)
    ensures |r| <= |content|
    ensures DocumentFetcher.Compact(r)
    ensures NonWhitespace(r) == NonWhitespace(content)
    ensures r == JoinWords(Words(content))
  {
    var spaced := ReplaceWhitespaceRuns(content, ' ');
    DocumentFetcher.TrimSingleSpaced(spaced);
    SqueezeIsJoinedWords(content);
    Trim(spaced)
  }

  /** The embedding is the aggressive compression tier: its later replacements find nothing to do. */
  lemma EmbeddedIsAggressiveTier(content: string)
    ensures EmbeddedContent(content) == DocumentFetcher.AggressiveCompression(content)
  {
    var spaced := ReplaceWhitespaceRuns(content, ' ');
    DocumentFetcher.SingleSpacedFacts(spaced);
    assert ReplaceChar(ReplaceChar(spaced, '\n', ' '), '\t', ' ') == spaced;
  }

  /** The user message of the OpenAI embedded-content request. */
  function BrowsingUserMessage(url: string, content: string, prompt: string): (r: string)
    ensures StartsWith(r, "The following is the content from " + url + ":\n\n" + EmbeddedContent(content))
    ensures EndsWith(r, "\n\nBased on this content, " + prompt)
    ensures |r| == |"The following is the content from " + url + ":\n\n" + EmbeddedContent(content)|
                 + |"\n\nBased on this content, " + prompt|
  {
    var head := "The following is the content from " + url + ":\n\n" + EmbeddedContent(content);
    var tail := "\n\nBased on this content, " + prompt;
    StartsWithAppend(head, tail);
    EndsWithAppend(head, tail);
    head + tail
  }

  /** The chat request OpenAI `generate` sends once its client exists. */
  function OpenAIChat(name: string, prompt: string, options: CallOptions): (r: Payload)
    ensures r.ChatCompletion? && r.user == prompt
    ensures r.model == StringOr(options.model, name) && r.maxTokens == MaxTokensOr(options.maxTokens)
    ensures r.system == StringOr(options.systemPrompt, DefaultSystemPrompt)
  {
    ChatCompletion(StringOr(options.model, name), StringOr(options.systemPrompt, DefaultSystemPrompt),
      prompt, MaxTokensOr(options.maxTokens))
  }

  /** The chat request OpenAI `generateWithBrowsing` sends once its client exists. */
  function OpenAIBrowsingChat(name: string, url: string, prompt: string, options: CallOptions): (r: Result<Payload>)
    ensures r.Failure? <==> !Config.Truthy(options.documentContent)
    ensures r.Failure? ==> r.error == ContentRequired
    ensures r.Success? ==> r.value == OpenAIChat(name, BrowsingUserMessage(url, options.documentContent.value, prompt), options)
  {
    if !Config.Truthy(options.documentContent) then Failure(ContentRequired)
    else Success(OpenAIChat(name, BrowsingUserMessage(url, options.documentContent.value, prompt), options))
  }

  /** Without options the OpenAI request uses the backend's model, 1000 tokens and the stock system prompt. */
  lemma OpenAIDefaults(name: string, prompt: string)
    ensures OpenAIChat(name, prompt, CallOptions(None, None, None, None))
      == ChatCompletion(name, DefaultSystemPrompt, prompt, 1000)
  {
  }

  /** A backend object. Its fields are set once by the constructor; `client` is created lazily. */
  class LLM {
    const backend: Backend
    const name: string
    const apiKey: Option<string>
    const baseUrl: Option<string>
    var client: bool

    /** What every constructor guarantees about the fixed fields. */
    predicate Valid() {
      && (backend == Base ==> name == "base")
      && (backend == Base || backend == Ollama ==> apiKey == None)
      && (backend != Ollama ==> baseUrl == None)
    }

    /** `new XLLM(config)`: name and API key from the configuration, no client yet. */
    constructor(backend: Backend, config: Config.Config, env: map<string, string>)
      ensures Valid() && this.backend == backend && !client
      ensures backend != Base ==> Some(name) == config.GetDefaultModel(ProviderKey(backend))
      ensures backend in {OpenAI, Claude, Gemini} ==> apiKey == config.GetApiKey(ProviderKey(backend), env)
      ensures backend == Ollama ==> baseUrl == Config.Lookup(config.GetOllamaConfig(), "host")
    {
      this.backend := backend;
      if backend == Base {
        name := "base";
      } else {
        Config.KnownProvidersHaveModels(config, ProviderKey(backend));
        name := config.GetDefaultModel(ProviderKey(backend)).value;
      }
      apiKey := if backend in {OpenAI, Claude, Gemini} then config.GetApiKey(ProviderKey(backend), env) else None;
      baseUrl := if backend == Ollama then Config.Lookup(config.GetOllamaConfig(), "host") else None;
      client := false;
    }

    /** `supportsBrowsing()`: the capability flag, unchanged. */
    function SupportsBrowsing(): (r: bool)
      ensures r <==> backend == Claude || backend == Gemini
    {
      BrowsingCapability(backend)
    }

    /** `getModelName()`: `"base"` unless a subclass set its configured model. */
    function GetModelName(): (r: string)
      requires Valid()
      ensures backend == Base ==> r == "base"
      ensures r == name
    {
      name
    }

    /**
     * `isReady()`: the base class throws; the SDK backends are ready iff they
     * hold a key; Ollama is ready iff the model list its server reports
     * (`served`, `None` when the request fails) names this model.
     */
    function IsReady(served: Option<seq<string>>): (r: Result<bool>)
      ensures backend == Base <==> r.Failure?
      ensures r.Failure? ==> r.error == NotImplemented
      ensures backend in {OpenAI, Claude, Gemini} ==> r == Success(Config.Truthy(apiKey))
      ensures backend == Ollama ==> (r == Success(true) <==> served.Some? && name in served.value)
    {
      match backend
      case Base => Failure(NotImplemented)
      case Ollama => Success(served.Some? && name in served.value)
      case _ => Success(Config.Truthy(apiKey))
    }

    /**
     * `initialize()`: the base class throws; an SDK backend creates its client
     * iff it holds a key; Ollama reports whether its server answered (`serverUp`).
     */
    method Initialize(serverUp: bool) returns (r: Result<bool>)
      modifies this
      ensures backend == Base ==> r == Failure(NotImplemented)
      ensures backend in {OpenAI, Claude, Gemini} ==> r == Success(Config.Truthy(apiKey))
      ensures backend == Ollama ==> r == Success(serverUp)
      ensures client == (old(client) || (backend in {OpenAI, Claude, Gemini} && Config.Truthy(apiKey)))
    {
      match backend
      case Base =>
        return Failure(NotImplemented);
      case Ollama =>
        return Success(serverUp);
      case _ =>
        if !Config.Truthy(apiKey) {
          return Success(false);
        }
        client := true;
        return Success(true);
    }

    /** The lazy-initialisation guard of the SDK backends: a missing client is created first. */
    method EnsureClient() returns (ok: bool)
      requires backend in {OpenAI, Claude, Gemini}
      modifies this
      ensures ok <==> old(client) || Config.Truthy(apiKey)
      ensures client == ok
    {
      if !client {
        var initialized := Initialize(false);
        return initialized == Success(true);
      }
      return true;
    }

    /** `generate(prompt, options)`. */
    method Generate(prompt: string, options: CallOptions) returns (r: Result<Payload>)
      modifies this
      ensures backend == Base ==> r == Failure(NotImplemented)
      ensures backend == Ollama ==> r == Success(Delegated(Ollama, None, prompt, options))
      ensures backend in {OpenAI, Claude, Gemini} && !old(client) && !Config.Truthy(apiKey) ==>
        r == Failure(InitFailure(backend))
      ensures backend == OpenAI && (old(client) || Config.Truthy(apiKey)) ==>
        r == Success(OpenAIChat(name, prompt, options))
      ensures backend in {Claude, Gemini} && (old(client) || Config.Truthy(apiKey)) ==>
        r == Success(Delegated(backend, None, prompt, options))
      ensures client == (old(client) || (backend in {OpenAI, Claude, Gemini} && Config.Truthy(apiKey)))
    {
      match backend
      case Base =>
        return Failure(NotImplemented);
      case Ollama =>
        return Success(Delegated(Ollama, None, prompt, options));
      case _ =>
        var ok := EnsureClient();
        if !ok {
          return Failure(InitFailure(backend));
        }
        if backend == OpenAI {
          return Success(OpenAIChat(name, prompt, options));
        }
        return Success(Delegated(backend, None, prompt, options));
    }

    /** `generateWithBrowsing(url, prompt, options)`. */
    method GenerateWithBrowsing(url: string, prompt: string, options: CallOptions) returns (r: Result<Payload>)
      modifies this
      ensures backend == Base || backend == Ollama ==> r == Failure(BrowsingNotSupported)
      ensures backend in {OpenAI, Claude, Gemini} && !old(client) && !Config.Truthy(apiKey) ==>
        r == Failure(InitFailure(backend))
      ensures backend == OpenAI && (old(client) || Config.Truthy(apiKey)) ==>
        r == OpenAIBrowsingChat(name, url, prompt, options)
      ensures backend in {Claude, Gemini} && (old(client) || Config.Truthy(apiKey)) ==>
        r == Success(Delegated(backend, Some(url), prompt, options))
      ensures client == (old(client) || (backend in {OpenAI, Claude, Gemini} && Config.Truthy(apiKey)))
    {
      if backend == Base || backend == Ollama {
        return Failure(BrowsingNotSupported);
      }
      var ok := EnsureClient();
      if !ok {
        return Failure(InitFailure(backend));
      }
      if backend == OpenAI {
        return OpenAIBrowsingChat(name, url, prompt, options);
      }
      return Success(Delegated(backend, Some(url), prompt, options));
    }
  }
}
