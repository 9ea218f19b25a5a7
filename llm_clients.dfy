/** The provider layer: choosing a provider from what the user typed,
    building a client from the configuration and the environment, retrying
    a rate-limited call with exponential backoff, and the shape of the
    answers collected from the providers. The SDK clients themselves are
    opaque: a client is the provider key and the API key it was built with,
    and what a provider answers is a parameter. */
module LlmClients {
  import opened Wrappers
  import opened Strings
  import ConfigLoader

  /** The provider keys used in the configuration and in every result. */
  predicate IsProvider(p: string) {
    p == "openai" || p == "anthropic" || p == "google"
  }

  /** The provider a user alias names: `gpt`, `claude` and `gemini`. */
  function Alias(choice: string): (r: Option<string>)
    ensures r.Some? ==> IsProvider(r.value)
  {
    if choice == "gpt" then Some("openai")
    else if choice == "claude" then Some("anthropic")
    else if choice == "gemini" then Some("google")
    else None
  }

  /** `pick_provider(name)`: a non-empty name is looked up lower-cased;
      otherwise the line typed at the prompt is stripped, lower-cased and
      looked up. Anything that is not an alias gives `None`. */
  function PickProvider(name: Option<string>, typed: string): (r: Option<string>)
    ensures r.Some? ==> IsProvider(r.value)
    ensures Truthy(name) ==> r == Alias(Lower(name.value))
  {
    if Truthy(name) then Alias(Lower(name.value)) else Alias(Lower(Strip(typed)))
  }

  /** Each alias selects its provider, whatever its capitalisation, and no
      other non-empty name selects anything. */
  lemma PickProviderAliases(name: string, typed: string)
    requires name != []
    ensures PickProvider(Some(name), typed) == Some("openai") <==> Lower(name) == "gpt"
    ensures PickProvider(Some(name), typed) == Some("anthropic") <==> Lower(name) == "claude"
    ensures PickProvider(Some(name), typed) == Some("google") <==> Lower(name) == "gemini"
    ensures PickProvider(Some(name), typed) == None <==> Lower(name) != "gpt" && Lower(name) != "claude" && Lower(name) != "gemini"
  {
  }

  /** A name and its lower-cased form select the same provider. */
  lemma PickProviderIgnoresCase(name: string, typed: string)
    ensures PickProvider(Some(name), typed) == PickProvider(Some(Lower(name)), typed)
  {
    LowerIsIdempotent(name);
  }

  /** `"GPT"` names OpenAI. */
  lemma UpperCaseAlias(typed: string)
    ensures PickProvider(Some("GPT"), typed) == Some("openai")
  {
    assert Lower("GPT") == "gpt" by {
      assert Lower("GPT")[0] == 'g' && Lower("GPT")[1] == 'p' && Lower("GPT")[2] == 't';
    }
  }

  /** How the queries are run: on every provider, or on one. */
  datatype Mode = All | Single

  /** The decision of `pick_mode`, given the line typed at its prompt and
      the line typed at the second prompt `pick_provider` shows when the
      first one was blank. */
  function PickMode(typed: string, typedAgain: string): (r: (Mode, Option<string>))
    ensures r.1.Some? <==> r.0 == Single
    ensures r.1.Some? ==> IsProvider(r.1.value)
  {
    var choice := Lower(Strip(typed));
    if choice == "all" then (All, None)
    else
      var provider := PickProvider(Some(choice), typedAgain);
      if provider.Some? then (Single, provider) else (All, None)
  }

  /** `all` runs on every provider, an alias runs on its provider alone, and
      any other non-blank answer falls back to every provider. */
  lemma PickModeChoices(typed: string, typedAgain: string)
    ensures var choice := Lower(Strip(typed));
      choice != [] ==> PickMode(typed, typedAgain) == (if Alias(choice).Some? then (Single, Alias(choice)) else (All, None))
  {
    var choice := Lower(Strip(typed));
    if choice != [] {
      LowerIsIdempotent(Strip(typed));
      StripIsIdempotent(Lower(Strip(typed)));
      assert PickProvider(Some(choice), typedAgain) == Alias(Lower(choice));
    }
  }

  /** A blank answer is passed on as an empty name, so the provider prompt
      is shown and its answer decides the mode. */
  lemma BlankModeAsksForProvider(typed: string, typedAgain: string)
    requires forall i :: 0 <= i < |typed| ==> IsSpace(typed[i])
    ensures var p := Alias(Lower(Strip(typedAgain)));
      PickMode(typed, typedAgain) == (if p.Some? then (Single, p) else (All, None))
  {
    StripEmptyIffAllSpace(typed);
    assert Lower(Strip(typed)) == [];
  }

  /** The errors `build_client` raises. */
  datatype ClientError =
    | ProviderNotFound(name: string)
    | InvalidConfiguration(name: string)
    | ApiKeyMissing(display: string)

  /** The provider name shown in the missing-key message. */
  function DisplayName(p: string): string {
    if p == "openai" then "OpenAI" else if p == "anthropic" then "Anthropic" else "Google"
  }

  /** `validate_api_key`: an unset or empty key is refused. */
  function ValidateApiKey(display: string, apiKey: Option<string>): (r: Option<ClientError>)
    ensures r.Some? ==> r.value == ApiKeyMissing(display)
  {
    if Truthy(apiKey) then None else Some(ApiKeyMissing(display))
  }

  /** Only a missing or empty key is refused; a key of spaces passes. */
  lemma ValidateApiKeyRefusesOnlyEmpty(display: string, apiKey: Option<string>)
    ensures ValidateApiKey(display, apiKey).Some? <==> apiKey == None || apiKey == Some("")
  {
  }

  /** A built client: its provider key and the API key it holds. */
  datatype Client = Client(provider: string, apiKey: string)

  /** `os.getenv(variable)`. */
  function GetEnv(env: map<string, string>, variable: string): Option<string> {
    if variable in env then Some(env[variable]) else None
  }

  /** `build_client(name)`: no client for a missing or empty name; an
      unsupported name is refused; a configuration lookup that misses
      (the provider's entry or its `api_key_env`) is reported as an invalid
      configuration; the key read from the environment must be set and not
      empty, and is kept as it is. */
  function BuildClient(config: ConfigLoader.Config, env: map<string, string>, name: Option<string>)
    : (r: Result<Option<Client>, ClientError>)
    ensures r == Ok(None) <==> !Truthy(name)
    ensures r.Ok? && r.value.Some? ==>
      IsProvider(r.value.value.provider) && r.value.value.provider == name.value && r.value.value.apiKey != []
  {
    if !Truthy(name) then Ok(None)
    else
      var p := name.value;
      if !IsProvider(p) then Err(ProviderNotFound(p))
      else
        match ConfigLoader.GetProviderConfig(config, Some(p))
        case Err(_) => Err(InvalidConfiguration(p))
        case Ok(entry) =>
          if "api_key_env" !in entry then Err(InvalidConfiguration(p))
          else
            var apiKey := GetEnv(env, entry["api_key_env"]);
            match ValidateApiKey(DisplayName(p), apiKey)
            case Some(e) => Err(e)
            case None => Ok(Some(Client(p, apiKey.value)))
  }

  /** The variable a supported provider's key is read from, when its
      configuration entry can be found and names one. */
  function ClientKeyVariable(config: ConfigLoader.Config, p: string): Option<string> {
    match ConfigLoader.GetProviderConfig(config, Some(p))
    case Err(_) => None
    case Ok(entry) => if "api_key_env" in entry then Some(entry["api_key_env"]) else None
  }

  /** The four outcomes of `build_client` for a non-empty name, each exactly
      when its condition holds. */
  lemma BuildClientOutcomes(config: ConfigLoader.Config, env: map<string, string>, p: string)
    requires p != []
    ensures BuildClient(config, env, Some(p)) == Err(ProviderNotFound(p)) <==> !IsProvider(p)
    ensures BuildClient(config, env, Some(p)) == Err(InvalidConfiguration(p))
        <==> IsProvider(p) && ClientKeyVariable(config, p).None?
    ensures BuildClient(config, env, Some(p)) == Err(ApiKeyMissing(DisplayName(p)))
        <==> IsProvider(p) && ClientKeyVariable(config, p).Some?
             && !Truthy(GetEnv(env, ClientKeyVariable(config, p).value))
    ensures BuildClient(config, env, Some(p)).Ok?
        <==> IsProvider(p) && ClientKeyVariable(config, p).Some?
             && Truthy(GetEnv(env, ClientKeyVariable(config, p).value))
    ensures BuildClient(config, env, Some(p)).Ok? ==>
      BuildClient(config, env, Some(p)) == Ok(Some(Client(p, env[ClientKeyVariable(config, p).value])))
  {
  }

  /** A key of blanks builds a client, while loading the same key through the
      configuration loader is refused, since only the loader strips it. */
  lemma BlankKeyBuildsClient(config: ConfigLoader.Config, env: map<string, string>, p: string)
    requires IsProvider(p) && ClientKeyVariable(config, p) == Some("KEY")
    requires ConfigLoader.KeyVariable(config, p) == Some("KEY")
    requires "KEY" in env && env["KEY"] == "  "
    ensures BuildClient(config, env, Some(p)) == Ok(Some(Client(p, "  ")))
    ensures ConfigLoader.LoadApiKey(config, env, p) == Err(ConfigLoader.MissingApiKey(p, "KEY"))
  {
    ConfigLoader.LoadApiKeyFailures(config, env, p);
    BuildClientOutcomes(config, env, p);
  }

  // ---------------------------------------------------------------------
  // Retrying rate-limited calls
  // ---------------------------------------------------------------------

  /** What one call of the wrapped function does: return a value, hit the
      provider's rate limit, or raise any other exception. */
  datatype Attempt<T, E> = Success(value: T) | RateLimited(error: E) | Failed(error: E)

  /** How `call_with_retry` ends: with a value, by raising an exception, or
      by raising `None` (a `TypeError`) when no attempt was made. */
  datatype Outcome<T, E> = Returned(value: T) | Raised(error: E) | RaisedNone

  /** The number of attempts `range(max_retries)` allows. */
  function AttemptLimit(maxRetries: int): nat {
    if maxRetries > 0 then maxRetries else 0
  }

  /** `f` to the power `k`. */
  function Pow(f: real, k: nat): real {
    if k == 0 then 1.0 else Pow(f, k - 1) * f
  }

  /** The `k`-th delay of the backoff, counted from 0. */
  function Delay(d: real, f: real, k: nat): real {
    d * Pow(f, k)
  }

  /** The first `n` delays of the backoff: `d`, `d * f`, `d * f * f`, ... */
  function Delays(d: real, f: real, n: nat): (r: seq<real>)
    ensures |r| == n
    ensures forall j :: 0 <= j < n ==> r[j] == Delay(d, f, j)
  {
    if n == 0 then [] else Delays(d, f, n - 1) + [Delay(d, f, n - 1)]
  }

  /** The index of the first attempt from `k` on that is not rate-limited,
      or `n` when every attempt up to `n` is. */
  function FirstStop<T, E>(call: nat -> Attempt<T, E>, n: nat, k: nat): (r: nat)
    requires k <= n
    ensures k <= r <= n
    ensures forall j :: k <= j < r ==> call(j).RateLimited?
    ensures r < n ==> !call(r).RateLimited?
    decreases n - k
  {
    if k == n then n else if call(k).RateLimited? then FirstStop(call, n, k + 1) else k
  }

  /** `call_with_retry(func, max_retries, initial_delay, backoff_factor)`,
      where `call(k)` is what the `k`-th call of `func` does. It returns the
      calls made and the delays slept, in order. The calls stop at the first
      one that is not rate-limited, whose value is returned or whose
      exception is raised, or after `max_retries` calls; the `k`-th sleep
      lasts `initial_delay * backoff_factor^k`, and there is a sleep between
      two calls but none after the last. */
  method CallWithRetry<T, E>(call: nat -> Attempt<T, E>, maxRetries: int, initialDelay: real, backoffFactor: real)
    returns (r: Outcome<T, E>, calls: nat, sleeps: seq<real>)
    ensures var n := AttemptLimit(maxRetries);
      var k := FirstStop(call, n, 0);
      calls == (if k < n then k + 1 else n)
    ensures calls <= AttemptLimit(maxRetries) && |sleeps| == (if calls == 0 then 0 else calls - 1)
    ensures sleeps == Delays(initialDelay, backoffFactor, |sleeps|)
    ensures var n := AttemptLimit(maxRetries);
      var k := FirstStop(call, n, 0);
      k < n ==> r == (if call(k).Success? then Returned(call(k).value) else Raised(call(k).error))
    ensures var n := AttemptLimit(maxRetries);
      FirstStop(call, n, 0) == n ==> r == (if n == 0 then RaisedNone else Raised(call(n - 1).error))
  {
    var n := AttemptLimit(maxRetries);
    var delay := initialDelay;
    var lastException: Option<E> := None;
    calls, sleeps := 0, [];
    for attempt := 0 to n
      invariant calls == attempt
      invariant forall j :: 0 <= j < attempt ==> call(j).RateLimited?
      invariant |sleeps| == (if attempt == n && n > 0 then n - 1 else attempt)
      invariant sleeps == Delays(initialDelay, backoffFactor, |sleeps|)
      invariant delay == Delay(initialDelay, backoffFactor, |sleeps|)
      invariant lastException == (if attempt == 0 then None else Some(call(attempt - 1).error))
    {
      var outcome := call(attempt);
      calls := calls + 1;
      match outcome {
        case Success(v) =>
          StopsAt(call, n, attempt);
          return Returned(v), calls, sleeps;
        case Failed(e) =>
          StopsAt(call, n, attempt);
          return Raised(e), calls, sleeps;
        case RateLimited(e) =>
          lastException := Some(e);
          if attempt < n - 1 {
            DelaysStep(initialDelay, backoffFactor, |sleeps|);
            sleeps := sleeps + [delay];
            delay := delay * backoffFactor;
          }
      }
    }
    NeverStops(call, n);
    if lastException.Some? {
      r := Raised(lastException.value);
    } else {
      r := RaisedNone;
    }
  }

  /** One more delay is the last one multiplied by the factor. */
  lemma DelaysStep(d: real, f: real, n: nat)
    ensures Delays(d, f, n + 1) == Delays(d, f, n) + [Delay(d, f, n)]
    ensures Delay(d, f, n + 1) == Delay(d, f, n) * f
  {
    assert d * (Pow(f, n) * f) == (d * Pow(f, n)) * f;
  }

  /** A call that is not rate-limited after rate-limited ones is where the
      attempts stop. */
  lemma StopsAt<T, E>(call: nat -> Attempt<T, E>, n: nat, k: nat)
    requires k < n && !call(k).RateLimited?
    requires forall j :: 0 <= j < k ==> call(j).RateLimited?
    ensures FirstStop(call, n, 0) == k
  {
  }

  /** When every call is rate-limited the attempts run out. */
  lemma NeverStops<T, E>(call: nat -> Attempt<T, E>, n: nat)
    requires forall j :: 0 <= j < n ==> call(j).RateLimited?
    ensures FirstStop(call, n, 0) == n
  {
  }

  /** With the default settings (three attempts, a first delay of 2 and a
      factor of 2) the sleeps before the second and third calls last 2 and 4. */
  lemma DefaultBackoff()
    ensures Delays(2.0, 2.0, 2) == [2.0, 4.0]
  {
    assert Pow(2.0, 1) == 2.0;
  }

  /** With a factor of at least one the delays never shrink. */
  lemma DelaysGrow(d: real, f: real, n: nat, i: nat, j: nat)
    requires d >= 0.0 && f >= 1.0
    requires i <= j < n
    ensures Delays(d, f, n)[i] <= Delays(d, f, n)[j]
  {
    PowGrows(f, i, j);
    assert d * (Pow(f, j) - Pow(f, i)) >= 0.0;
  }

  lemma {:induction false} PowGrows(f: real, i: nat, j: nat)
    requires f >= 1.0 && i <= j
    ensures 1.0 <= Pow(f, i) <= Pow(f, j)
    decreases j
  {
    if i < j {
      PowGrows(f, i, j - 1);
      var x := Pow(f, j - 1);
      assert x * (f - 1.0) >= 0.0;
    } else if i > 0 {
      PowGrows(f, i - 1, i - 1);
      var x := Pow(f, i - 1);
      assert x * (f - 1.0) >= 0.0;
    }
  }

  // ---------------------------------------------------------------------
  // Answers
  // ---------------------------------------------------------------------

  /** Token counts as reported in every answer. */
  datatype Tokens = Tokens(input: int, output: int, total: int)

  /** The answer dictionary `ask_openai`, `ask_anthropic` and `ask_google`
      build: its text, the model and the token counts. */
  datatype Reply = Reply(text: string, model: string, tokens: Tokens)

  /** What each SDK returns, reduced to the fields the answer is built from.
      Gemini may leave out any count. */
  datatype RawReply =
    | OpenAiReply(text: string, model: string, promptTokens: int, completionTokens: int, totalTokens: int)
    | AnthropicReply(text: string, model: string, inputTokens: int, outputTokens: int)
    | GoogleReply(text: string, promptCount: Option<int>, candidatesCount: Option<int>, totalCount: Option<int>)

  /** A count Gemini may leave out, read with a default of 0. */
  function CountOrZero(c: Option<int>): int {
    if c.Some? then c.value else 0
  }

  /** The answer built from a provider's reply: OpenAI reports its own total,
      Anthropic's total is the sum of the input and output counts, and Gemini
      reports the requested model. A reply of another provider's shape lacks
      the fields read from it, which raises; that is `None` here. */
  function Normalize(provider: string, raw: RawReply, model: string): (r: Option<Reply>)
    ensures r.Some? <==> (provider == "openai" && raw.OpenAiReply?) || (provider == "anthropic" && raw.AnthropicReply?)
                         || (provider == "google" && raw.GoogleReply?)
    ensures r.Some? ==> r.value.text == raw.text
    ensures r.Some? && provider == "anthropic" ==> r.value.tokens.total == r.value.tokens.input + r.value.tokens.output
    ensures r.Some? && provider == "google" ==> r.value.model == model
    ensures r.Some? && provider != "google" ==> r.value.model == raw.model
  {
    match raw
    case OpenAiReply(text, replyModel, p, c, t) =>
      if provider == "openai" then Some(Reply(text, replyModel, Tokens(p, c, t))) else None
    case AnthropicReply(text, replyModel, i, o) =>
      if provider == "anthropic" then Some(Reply(text, replyModel, Tokens(i, o, i + o))) else None
    case GoogleReply(text, p, c, t) =>
      if provider == "google" then Some(Reply(text, model, Tokens(CountOrZero(p), CountOrZero(c), CountOrZero(t)))) else None
  }

  /** `ask_provider(provider_name, question)`: build the client, read the
      provider's model from the configuration and ask it. `answer` is what the
      retried SDK call of a client gives for a model and a question, `None`
      when it raises. Every failure on the way is turned into `None`. */
  function AskProvider(config: ConfigLoader.Config, env: map<string, string>, providerName: string, question: string,
                       answer: (Client, string, string) -> Option<RawReply>): (r: Option<Reply>)
    ensures r.Some? ==> (IsProvider(providerName) && BuildClient(config, env, Some(providerName)).Ok?
                         && BuildClient(config, env, Some(providerName)).value.Some?)
    ensures var built := BuildClient(config, env, Some(providerName));
      built.Err? || built.value.None? ==> r == None
    ensures var built := BuildClient(config, env, Some(providerName));
      built.Ok? && built.value.Some? ==>
        var client := built.value.value;
        var entry := ConfigLoader.GetProviderConfig(config, Some(client.provider));
        (entry.Err? ==> r == None)
        && (entry.Ok? && "model" !in entry.value ==> r == None)
        && (entry.Ok? && "model" in entry.value && answer(client, entry.value["model"], question).None? ==> r == None)
        && (entry.Ok? && "model" in entry.value && answer(client, entry.value["model"], question).Some? ==>
              r == Normalize(client.provider, answer(client, entry.value["model"], question).value, entry.value["model"]))
  {
    match BuildClient(config, env, Some(providerName))
    case Err(_) => None
    case Ok(built) =>
      if built.None? then None
      else
        var client := built.value;
        match ConfigLoader.GetProviderConfig(config, Some(client.provider))
        case Err(_) => None
        case Ok(entry) =>
          if "model" !in entry then None
          else
            var raw := answer(client, entry["model"], question);
            if raw.None? then None else Normalize(client.provider, raw.value, entry["model"])
  }

  /** `ask_all_providers(question)`: one slot per provider, each holding that
      provider's answer or `None`, whatever happened to the others. */
  function AskAllProviders(config: ConfigLoader.Config, env: map<string, string>, question: string,
                           answer: (Client, string, string) -> Option<RawReply>): (r: map<string, Option<Reply>>)
    ensures r.Keys == {"openai", "anthropic", "google"}
    ensures forall p :: p in r ==> IsProvider(p) && r[p] == AskProvider(config, env, p, question, answer)
  {
    map["openai" := AskProvider(config, env, "openai", question, answer),
        "anthropic" := AskProvider(config, env, "anthropic", question, answer),
        "google" := AskProvider(config, env, "google", question, answer)]
  }

  /** A provider without a usable key gets `None`, and the Anthropic slot,
      when filled, adds up its token counts. */
  lemma AskAllProvidersSlots(config: ConfigLoader.Config, env: map<string, string>, question: string,
                             answer: (Client, string, string) -> Option<RawReply>, p: string)
    requires IsProvider(p)
    ensures BuildClient(config, env, Some(p)).Err? ==> AskAllProviders(config, env, question, answer)[p] == None
    ensures var slot := AskAllProviders(config, env, question, answer)["anthropic"];
      slot.Some? ==> slot.value.tokens.total == slot.value.tokens.input + slot.value.tokens.output
  {
  }
}
