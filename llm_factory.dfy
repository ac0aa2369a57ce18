/**
 * `LLMFactory` (src/models/index.js): a cache of backend objects keyed by the
 * provider string exactly as given, filled on first use through an alias
 * switch on its lower-cased form.
 */
module LlmFactory {
  import opened Wrappers
  import opened JsText
  import Config
  import Models

  /** The alias switch of `getLLM`, on an already lower-cased provider name. */
  function ProviderBackend(lower: string): (r: Option<Models.Backend>)
    ensures r.Some? ==> r.value != Models.Base
    ensures r == Some(Models.OpenAI) <==> lower == "openai"
    ensures r == Some(Models.Claude) <==> lower == "anthropic" || lower == "claude"
    ensures r == Some(Models.Gemini) <==> lower == "google" || lower == "gemini"
    ensures r == Some(Models.Ollama) <==> lower == "ollama"
  {
    if lower == "openai" then Some(Models.OpenAI)
    else if lower == "anthropic" || lower == "claude" then Some(Models.Claude)
    else if lower == "google" || lower == "gemini" then Some(Models.Gemini)
    else if lower == "ollama" then Some(Models.Ollama)
    else None
  }

  function UnsupportedProvider(provider: string): string {
    "Unsupported LLM provider: " + provider
  }

  class Factory {
    const config: Config.Config
    const env: map<string, string>
    var models: map<string, Models.LLM>

    /** Every cached backend is a constructed one of the kind its key selects. */
    predicate Valid()
      reads this, models.Values
    {
      forall p :: p in models ==>
        models[p].Valid() && ProviderBackend(ToLower(p)) == Some(models[p].backend)
    }

    constructor(config: Config.Config, env: map<string, string>)
      ensures this.config == config && this.env == env && models == map[] && Valid()
    {
      this.config := config;
      this.env := env;
      models := map[];
    }

    /**
     * `getLLM(provider)`: the cached object for this exact key if there is one;
     * otherwise a new backend chosen by the lower-cased name, cached under the
     * original key; an unknown name throws and caches nothing.
     */
    method GetLLM(provider: string) returns (r: Result<Models.LLM>)
      requires Valid()
      modifies this
      ensures Valid()
      ensures provider in old(models) ==> r == Success(old(models)[provider]) && models == old(models)
      ensures provider !in old(models) && ProviderBackend(ToLower(provider)).None? ==>
        r == Failure(UnsupportedProvider(provider)) && models == old(models)
      ensures provider !in old(models) && ProviderBackend(ToLower(provider)).Some? ==>
        && r.Success? && fresh(r.value) && !r.value.client
        && r.value.backend == ProviderBackend(ToLower(provider)).value
        && models == old(models)[provider := r.value]
      ensures r.Success? ==> provider in models && models[provider] == r.value
    {
      if provider in models {
        return Success(models[provider]);
      }
      var kind := ProviderBackend(ToLower(provider));
      if kind.None? {
        return Failure(UnsupportedProvider(provider));
      }
      var llm := new Models.LLM(kind.value, config, env);
      models := models[provider := llm];
      return Success(llm);
    }

    /** `getSupportedProviders()`. */
    function GetSupportedProviders(): (r: seq<string>)
      ensures |r| == 4
      ensures forall i :: 0 <= i < |r| ==> ProviderBackend(ToLower(r[i])).Some?
      ensures forall i, j :: 0 <= i < j < |r| ==> ProviderBackend(r[i]) != ProviderBackend(r[j])
      ensures "openrouter" !in r
    {
      var r := ["openai", "anthropic", "google", "ollama"];
      LowerOfLower(r[0]);
      LowerOfLower(r[1]);
      LowerOfLower(r[2]);
      LowerOfLower(r[3]);
      r
    }
  }

  /** The aliases: `claude` reaches the Anthropic backend and `gemini` the Google one, in any case. */
  lemma Aliases()
    ensures ProviderBackend(ToLower("Claude")) == Some(Models.Claude)
    ensures ProviderBackend(ToLower("GEMINI")) == Some(Models.Gemini)
    ensures ProviderBackend(ToLower("openrouter")) == None
  {
    assert ToLower("Claude") == "claude";
    assert ToLower("GEMINI") == "gemini";
  }

  /** Asking twice for the same key returns the same object and creates it once. */
  method SameKeySameInstance(config: Config.Config, env: map<string, string>)
    returns (first: Models.LLM, second: Models.LLM)
    ensures first == second && first.backend == Models.Claude
  {
    var factory := new Factory(config, env);
    var a := factory.GetLLM("claude");
    var b := factory.GetLLM("claude");
    first, second := a.value, b.value;
  }

  /** The cache is keyed by the raw string: `OpenAI` and `openai` are two objects of the same class. */
  method CaseSplitsCache(config: Config.Config, env: map<string, string>)
    returns (upper: Models.LLM, lower: Models.LLM)
    ensures upper != lower
    ensures upper.backend == lower.backend == Models.OpenAI
  {
    var factory := new Factory(config, env);
    assert ToLower("OpenAI") == "openai";
    var a := factory.GetLLM("OpenAI");
    var b := factory.GetLLM("openai");
    upper, lower := a.value, b.value;
  }
}
