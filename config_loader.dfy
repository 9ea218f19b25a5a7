/** Provider configuration lookup: the `llm` section of the configuration
    file and the process environment, both passed in explicitly instead of
    being read at import time. */
module ConfigLoader {
  import opened Wrappers
  import opened Strings

  /** The fields of one provider's entry (`api_key_env`, `model`, ...). */
  type ProviderConfig = map<string, string>

  /** The `llm` section; a key missing from the file is `None`. */
  datatype LlmSection = LlmSection(defaultProvider: Option<string>, providers: Option<map<string, ProviderConfig>>)

  /** The parsed configuration; `llm` is `None` when the file has no such section. */
  datatype Config = Config(llm: Option<LlmSection>)

  /** A `KeyError` raised by a dictionary lookup, with the missing key. */
  datatype KeyError = KeyError(key: string)

  /** `get_provider_config(name)`: the entry of `name`, or of the default
      provider when `name` is `None` or empty. Each subscript that misses
      raises a `KeyError` for its key, in the order the lookups happen. */
  function GetProviderConfig(config: Config, name: Option<string>): (r: Result<ProviderConfig, KeyError>)
    ensures r.Ok? ==> config.llm.Some? && config.llm.value.providers.Some?
    ensures r.Ok? ==> exists p :: p in config.llm.value.providers.value && r.value == config.llm.value.providers.value[p]
  {
    if config.llm.None? then Err(KeyError("llm"))
    else
      var cfg := config.llm.value;
      if !Truthy(name) && cfg.defaultProvider.None? then Err(KeyError("default_provider"))
      else
        var provider := if Truthy(name) then name.value else cfg.defaultProvider.value;
        if cfg.providers.None? then Err(KeyError("providers"))
        else if provider !in cfg.providers.value then Err(KeyError(provider))
        else Ok(cfg.providers.value[provider])
  }

  /** A configuration whose `llm` section has both keys the lookup needs. */
  predicate HasSection(config: Config) {
    config.llm.Some? && config.llm.value.defaultProvider.Some? && config.llm.value.providers.Some?
  }

  /** Without a name, or with an empty one, the default provider's entry is
      returned, and the lookup fails exactly when that provider is unlisted. */
  lemma DefaultProviderIsUsed(config: Config, name: Option<string>)
    requires HasSection(config)
    requires name == None || name == Some("")
    ensures var cfg := config.llm.value;
      var d := cfg.defaultProvider.value;
      GetProviderConfig(config, name)
        == if d in cfg.providers.value then Ok(cfg.providers.value[d]) else Err(KeyError(d))
  {
  }

  /** A non-empty name selects its own entry whatever the default is, and
      an unlisted one raises a `KeyError` for that name. */
  lemma NamedProviderIsUsed(config: Config, name: string, otherDefault: Option<string>)
    requires config.llm.Some? && config.llm.value.providers.Some?
    requires name != []
    ensures var providers := config.llm.value.providers.value;
      GetProviderConfig(config, Some(name)) == (if name in providers then Ok(providers[name]) else Err(KeyError(name)))
    ensures GetProviderConfig(config, Some(name))
         == GetProviderConfig(Config(Some(config.llm.value.(defaultProvider := otherDefault))), Some(name))
  {
  }

  /** Why `load_api_key` fails; the first field is the provider asked for. */
  datatype LoadError =
    | NotInConfig(provider: string)
    | NoApiKeyEnv(provider: string)
    | MissingApiKey(provider: string, variable: string)

  /** `load_api_key(provider_name)`: the stripped value of the environment
      variable the provider's entry names in `api_key_env`. A failed lookup
      of the entry is reported as the provider not being configured; a
      missing or empty `api_key_env`, and an unset or all-whitespace value,
      are errors of their own. */
  function LoadApiKey(config: Config, env: map<string, string>, providerName: string): (r: Result<string, LoadError>)
    ensures r.Ok? ==> r.value != [] && !IsSpace(r.value[0]) && !IsSpace(r.value[|r.value| - 1])
    ensures r.Err? ==> r.error.provider == providerName
    ensures r.Err? && r.error.MissingApiKey? ==> r.error.variable != []
  {
    match GetProviderConfig(config, Some(providerName))
    case Err(_) => Err(NotInConfig(providerName))
    case Ok(entry) =>
      if "api_key_env" !in entry || entry["api_key_env"] == [] then Err(NoApiKeyEnv(providerName))
      else
        var variable := entry["api_key_env"];
        if variable in env && Strip(env[variable]) != [] then
          StripProperties(env[variable]);
          Ok(Strip(env[variable]))
        else Err(MissingApiKey(providerName, variable))
  }

  /** The variable a provider's configuration entry names, when it has one. */
  function KeyVariable(config: Config, providerName: string): Option<string> {
    match GetProviderConfig(config, Some(providerName))
    case Err(_) => None
    case Ok(entry) => if "api_key_env" in entry && entry["api_key_env"] != [] then Some(entry["api_key_env"]) else None
  }

  /** A key is returned exactly when the configured variable is set to
      something other than whitespace. */
  lemma LoadApiKeySucceedsExactly(config: Config, env: map<string, string>, providerName: string)
    ensures LoadApiKey(config, env, providerName).Ok?
        <==> var v := KeyVariable(config, providerName);
             v.Some? && v.value in env && exists i :: 0 <= i < |env[v.value]| && !IsSpace(env[v.value][i])
  {
    var v := KeyVariable(config, providerName);
    if v.Some? && v.value in env {
      StripEmptyIffAllSpace(env[v.value]);
    }
  }

  /** The key returned is the variable's value with the surrounding
      whitespace cut away: a piece of the value, found at some position. */
  lemma LoadApiKeyIsStrippedValue(config: Config, env: map<string, string>, providerName: string)
    requires LoadApiKey(config, env, providerName).Ok?
    ensures KeyVariable(config, providerName).Some? && KeyVariable(config, providerName).value in env
    ensures var value := env[KeyVariable(config, providerName).value];
      var key := LoadApiKey(config, env, providerName).value;
      key == Strip(value) && exists k :: OccursAt(value, key, k)
  {
    var value := env[KeyVariable(config, providerName).value];
    StripProperties(value);
    assert OccursAt(value, Strip(value), |value| - |StripLeft(value)|);
  }

  /** The failure cases follow the lookups in order: an entry that cannot
      be found, an entry without a variable name, then a variable that is
      unset or blank, reported with the variable's name. */
  lemma LoadApiKeyFailures(config: Config, env: map<string, string>, providerName: string)
    ensures GetProviderConfig(config, Some(providerName)).Err? ==>
      LoadApiKey(config, env, providerName) == Err(NotInConfig(providerName))
    ensures GetProviderConfig(config, Some(providerName)).Ok? && KeyVariable(config, providerName).None? ==>
      LoadApiKey(config, env, providerName) == Err(NoApiKeyEnv(providerName))
    ensures var v := KeyVariable(config, providerName);
      v.Some? && (v.value !in env || forall i :: 0 <= i < |env[v.value]| ==> IsSpace(env[v.value][i])) ==>
      LoadApiKey(config, env, providerName) == Err(MissingApiKey(providerName, v.value))
  {
    var v := KeyVariable(config, providerName);
    if v.Some? && v.value in env {
      StripProperties(env[v.value]);
    }
  }

  /** An empty provider name is not rejected: the lookup falls back to the
      default provider, so the default provider's key is loaded. */
  lemma EmptyNameLoadsDefaultKey(config: Config, env: map<string, string>)
    requires HasSection(config) && config.llm.value.defaultProvider.value != []
    ensures var d := config.llm.value.defaultProvider.value;
      LoadApiKey(config, env, "").Ok? <==> LoadApiKey(config, env, d).Ok?
    ensures var d := config.llm.value.defaultProvider.value;
      LoadApiKey(config, env, "").Ok? ==> LoadApiKey(config, env, "").value == LoadApiKey(config, env, d).value
  {
  }
}
