/**
 * The configuration singleton (src/config/config.js): a parsed TOML file that
 * may or may not have been loaded, consulted after the process environment.
 * Reading and parsing the file is abstracted as the parse outcome; the
 * environment is a map from variable name to value.
 */
module Config {
  import opened Wrappers

  /** A table of the parsed file, reduced to its string-valued entries. */
  type Table = map<string, string>

  /** The tables the getters read; a table the file does not define is `None`. */
  datatype ConfigFile = ConfigFile(
    apiKeys: Option<Table>,
    models: Option<Table>,
    ollama: Option<Table>,
    output: Option<Table>)

  /** The `{}` a fresh configuration starts from. */
  const Empty: ConfigFile := ConfigFile(None, None, None, None)

  const DefaultOllamaHost: string := "http://localhost:11434"
  const DefaultOutputFormat: string := "text"

  /** JavaScript truthiness of a possibly missing string: missing and `""` are both false. */
  predicate Truthy(v: Option<string>) {
    v.Some? && v.value != ""
  }

  function Lookup(t: Table, key: string): Option<string> {
    if key in t then Some(t[key]) else None
  }

  /** The environment variable that holds each provider's API key (`envVarMap`). */
  function EnvVarName(provider: string): Option<string> {
    if provider == "openai" then Some("OPENAI_API_KEY")
    else if provider == "anthropic" then Some("ANTHROPIC_API_KEY")
    else if provider == "google" then Some("GOOGLE_API_KEY")
    else if provider == "openrouter" then Some("OPENROUTER_API_KEY")
    else None
  }

  /**
   * The key under `[models]` that overrides each provider's model (`modelKeyMap`).
   * A provider without an entry looks up the property name `"undefined"`, which
   * is what indexing an object with `undefined` does.
   */
  function ModelKey(provider: string): string {
    if provider == "openai" then "openai_default"
    else if provider == "anthropic" then "anthropic_default"
    else if provider == "google" then "gemini_default"
    else if provider == "ollama" then "ollama_default"
    else if provider == "openrouter" then "openrouter_default"
    else "undefined"
  }

  /** The built-in model of each provider; `None` stands for `undefined`. */
  function BuiltInModel(provider: string): Option<string> {
    if provider == "openai" then Some("gpt-4o")
    else if provider == "anthropic" then Some("claude-3-opus-20240229")
    else if provider == "google" then Some("gemini-1.5-pro")
    else if provider == "ollama" then Some("llama3")
    else if provider == "openrouter" then Some("openai/gpt-4o")
    else None
  }

  /** The key the environment supplies for `provider`, when its variable is set and non-empty. */
  function EnvApiKey(provider: string, env: map<string, string>): (r: Option<string>)
    ensures r.Some? ==> EnvVarName(provider).Some? && r == Lookup(env, EnvVarName(provider).value)
    ensures r.Some? <==> EnvVarName(provider).Some? && Truthy(Lookup(env, EnvVarName(provider).value))
  {
    match EnvVarName(provider)
    case None => None
    case Some(name) => if Truthy(Lookup(env, name)) then Lookup(env, name) else None
  }

  /** `path.join(dir, leaf)` for a directory without `.` or `..` segments. */
  function JoinPath(dir: string, leaf: string): (r: string)
    ensures |r| > |leaf| && r[|r| - |leaf|..] == leaf && r[|r| - |leaf| - 1] == '/'
  {
    if dir == [] then "./" + leaf
    else if dir[|dir| - 1] == '/' then dir + leaf
    else dir + "/" + leaf
  }

  class Config {
    var config: ConfigFile
    var loaded: bool

    constructor()
      ensures config == Empty && !loaded
    {
      config := Empty;
      loaded := false;
    }

    /**
     * `loadFromFile`: a successful parse replaces the configuration and marks it
     * loaded; a failed read or parse is rethrown and changes nothing.
     */
    method LoadFromFile(parsed: Result<ConfigFile>) returns (r: Result<ConfigFile>)
      modifies this
      ensures r == parsed
      ensures parsed.Success? ==> config == parsed.value && loaded
      ensures parsed.Failure? ==> config == old(config) && loaded == old(loaded)
    {
      match parsed
      case Failure(e) =>
        return Failure(e);
      case Success(file) =>
        config := file;
        loaded := true;
        return Success(config);
    }

    /** The key the loaded file supplies for `provider` under `[api_keys]`, if non-empty. */
    function FileApiKey(provider: string): (r: Option<string>)
      reads this
      ensures r.Some? <==> loaded && config.apiKeys.Some? && Truthy(Lookup(config.apiKeys.value, provider))
      ensures r.Some? ==> r == Lookup(config.apiKeys.value, provider)
    {
      if loaded && config.apiKeys.Some? && Truthy(Lookup(config.apiKeys.value, provider))
      then Lookup(config.apiKeys.value, provider) else None
    }

    /** `getApiKey`: the environment first, then the loaded file, otherwise `null`. */
    function GetApiKey(provider: string, env: map<string, string>): (r: Option<string>)
      reads this
      ensures r.Some? ==> r.value != ""
      ensures EnvApiKey(provider, env).Some? ==> r == EnvApiKey(provider, env)
      ensures EnvApiKey(provider, env).None? ==> r == FileApiKey(provider)
      ensures r.None? <==> EnvApiKey(provider, env).None? && FileApiKey(provider).None?
    {
      if EnvApiKey(provider, env).Some? then EnvApiKey(provider, env) else FileApiKey(provider)
    }

    /** The model the loaded file names for `provider` under `[models]`, if non-empty. */
    function FileModel(provider: string): (r: Option<string>)
      reads this
      ensures r.Some? <==> loaded && config.models.Some? && Truthy(Lookup(config.models.value, ModelKey(provider)))
      ensures r.Some? ==> r == Lookup(config.models.value, ModelKey(provider))
    {
      if loaded && config.models.Some? && Truthy(Lookup(config.models.value, ModelKey(provider)))
      then Lookup(config.models.value, ModelKey(provider)) else None
    }

    /** `getDefaultModel`: the loaded file's override, otherwise the built-in model. */
    function GetDefaultModel(provider: string): (r: Option<string>)
      reads this
      ensures FileModel(provider).Some? ==> r == FileModel(provider)
      ensures FileModel(provider).None? ==> r == BuiltInModel(provider)
      ensures r.Some? ==> r.value != ""
    {
      if FileModel(provider).Some? then FileModel(provider) else BuiltInModel(provider)
    }

    /** `getOllamaConfig`: the loaded `[ollama]` table, otherwise the local default host. */
    function GetOllamaConfig(): (r: Table)
      reads this
      ensures loaded && config.ollama.Some? ==> r == config.ollama.value
      ensures !(loaded && config.ollama.Some?) ==> r == map["host" := DefaultOllamaHost]
    {
      if loaded && config.ollama.Some? then config.ollama.value else map["host" := DefaultOllamaHost]
    }

    /**
     * `getOutputConfig`: the loaded `[output]` table, otherwise text output into
     * `output` under the working directory `cwd`.
     */
    function GetOutputConfig(cwd: string): (r: Table)
      reads this
      ensures loaded && config.output.Some? ==> r == config.output.value
      ensures !(loaded && config.output.Some?) ==>
        r == map["default_format" := DefaultOutputFormat, "output_dir" := JoinPath(cwd, "output")]
    {
      if loaded && config.output.Some? then config.output.value
      else map["default_format" := DefaultOutputFormat, "output_dir" := JoinPath(cwd, "output")]
    }
  }

  /** A set environment variable wins over whatever the file says. */
  lemma EnvironmentWins(c: Config, provider: string, env: map<string, string>)
    requires EnvVarName(provider).Some? && Truthy(Lookup(env, EnvVarName(provider).value))
    ensures c.GetApiKey(provider, env) == Some(env[EnvVarName(provider).value])
  {
  }

  /** Until a file is loaded, only the environment can supply a key. */
  lemma UnloadedFileIgnored(c: Config, provider: string, env: map<string, string>)
    requires !c.loaded
    ensures c.GetApiKey(provider, env) == EnvApiKey(provider, env)
    ensures c.GetDefaultModel(provider) == BuiltInModel(provider)
    ensures c.GetOllamaConfig() == map["host" := DefaultOllamaHost]
    ensures c.GetOutputConfig("/srv")["default_format"] == "text"
  {
  }

  /** Ollama has no environment variable: its key can only come from the file. */
  lemma OllamaKeyFromFileOnly(c: Config, env: map<string, string>)
    ensures c.GetApiKey("ollama", env) == c.FileApiKey("ollama")
  {
  }

  /** The `google` provider is overridden by the `gemini_default` entry. */
  lemma GoogleReadsGeminiDefault(c: Config)
    requires c.loaded && c.config.models.Some?
    requires Truthy(Lookup(c.config.models.value, "gemini_default"))
    ensures c.GetDefaultModel("google") == Some(c.config.models.value["gemini_default"])
  {
  }

  /** Every provider the file or the built-ins know has a model; any other gets none unless `"undefined"` is set. */
  lemma KnownProvidersHaveModels(c: Config, provider: string)
    ensures provider in {"openai", "anthropic", "google", "ollama", "openrouter"} ==> c.GetDefaultModel(provider).Some?
    ensures provider !in {"openai", "anthropic", "google", "ollama", "openrouter"} ==>
      (c.GetDefaultModel(provider).Some? <==> c.loaded && c.config.models.Some? && Truthy(Lookup(c.config.models.value, "undefined")))
  {
  }

  /** Loading a file makes its non-empty keys visible behind the environment. */
  method LoadThenLookup(parsed: ConfigFile, env: map<string, string>) returns (key: Option<string>)
    requires parsed.apiKeys.Some? && Truthy(Lookup(parsed.apiKeys.value, "anthropic"))
    requires !Truthy(Lookup(env, "ANTHROPIC_API_KEY"))
    ensures key == Some(parsed.apiKeys.value["anthropic"])
  {
    var c := new Config();
    var _ := c.LoadFromFile(Success(parsed));
    key := c.GetApiKey("anthropic", env);
  }

  /** A failed load leaves a fresh configuration unloaded, so the defaults still apply. */
  method FailedLoadKeepsDefaults(error: string) returns (model: Option<string>, host: Table)
    ensures model == Some("gpt-4o")
    ensures host == map["host" := DefaultOllamaHost]
  {
    var c := new Config();
    var r := c.LoadFromFile(Failure(error));
    model := c.GetDefaultModel("openai");
    host := c.GetOllamaConfig();
  }
}
