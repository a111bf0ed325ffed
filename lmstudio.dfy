/**
 * The LMStudio provider (src/gitai/providers/lmstudio.py): a local
 * OpenAI-compatible server, so no key is required; the chat-completions
 * payload and generate with three attempts.
 */
module LMStudio {
  import opened Wrappers
  import opened Dicts
  import opened Values
  import opened Strings
  import opened Errors
  import opened Python
  import opened ProviderBase

  datatype LMStudioProvider = LMStudioProvider(
    config: Dict<Value>, apiKey: Value, model: Value, baseUrl: string, timeout: Value, temperature: Value, maxTokens: Value)

  const Vendor := "LMStudio"
  const DefaultModel := "local-model"
  const DefaultBaseUrl := "http://localhost:1234/v1"
  const UnavailableText := "LMStudio is not available. Make sure LMStudio is running on localhost:1234"

  /**
   * LMStudioProvider.__init__: the settings are read with their defaults
   * (the key is a placeholder and is never checked), the temperature and
   * timeout are validated, and trailing slashes are cut from the URL.
   */
  function Create(config: Dict<Value>): (r: Result<LMStudioProvider, Error>)
    ensures CheckTemperatureAndTimeout(Setting(config, "temperature", VFloat(0.7)), Setting(config, "timeout", VInt(30))).Err? ==>
              r == Err(CheckTemperatureAndTimeout(Setting(config, "temperature", VFloat(0.7)), Setting(config, "timeout", VInt(30))).error)
    ensures r.Ok? ==> r.value.config == config
    ensures r.Ok? ==> Number(r.value.temperature).Some? && 0.0 <= Number(r.value.temperature).value <= 1.0
    ensures r.Ok? ==> Number(r.value.timeout).Some? && Number(r.value.timeout).value > 0.0
    ensures r.Ok? ==> |r.value.baseUrl| == 0 || r.value.baseUrl[|r.value.baseUrl| - 1] != '/'
    ensures r.Ok? ==> r.value.apiKey == Setting(config, "api_key", VStr("lm-studio"))
  {
    var temperature := Setting(config, "temperature", VFloat(0.7));
    var timeout := Setting(config, "timeout", VInt(30));
    match CheckTemperatureAndTimeout(temperature, timeout)
    case Err(e) => Err(e)
    case Ok(_) =>
      match RStripSlashes(Setting(config, "base_url", VStr(DefaultBaseUrl)))
      case Err(e) => Err(e)
      case Ok(url) =>
        Ok(LMStudioProvider(config, Setting(config, "api_key", VStr("lm-studio")), Setting(config, "model", VStr(DefaultModel)),
                            url, timeout, temperature, Setting(config, "max_tokens", VInt(1000))))
  }

  /** A configuration without temperature, timeout and base_url is always accepted. */
  lemma DefaultsAccepted(config: Dict<Value>)
    requires !HasKey(config, "temperature") && !HasKey(config, "timeout") && !HasKey(config, "base_url")
    ensures Create(config).Ok?
  {
  }

  /** The JSON body of the POST to /chat/completions: the provider's own settings and the bare prompt. */
  function Payload(p: LMStudioProvider, request: GenerationRequest): Dict<Value>
  {
    [("model", p.model), ("messages", ChatMessages(request.prompt)),
     ("temperature", p.temperature), ("max_tokens", p.maxTokens)]
  }

  /** One attempt: the response, or the error its handler raises should it be the last. */
  function Answer(p: LMStudioProvider, o: Outcome): (r: Result<GenerationResponse, Error>)
    ensures o.Replied? ==> (r.Ok? <==> ChoicesContent(Vendor, o.body).Ok?)
    ensures !o.Replied? ==> r.Err?
  {
    match o
    case Replied(body, elapsed) =>
      var reply := ChoicesResponse(Vendor, "lmstudio", p.model, body, elapsed);
      if reply.Ok? then Ok(reply.value) else Err(HostedFailure(Vendor, p.timeout, o, reply.error))
    case _ => Err(HostedFailure(Vendor, p.timeout, o, ""))
  }

  function Steps(p: LMStudioProvider, payload: Dict<Value>, posts: (Dict<Value>, nat) -> Outcome, n: nat)
    : (s: seq<Result<GenerationResponse, Error>>)
    ensures |s| == n && forall i :: 0 <= i < n ==> s[i] == Answer(p, posts(payload, i))
  {
    if n == 0 then [] else Steps(p, payload, posts, n - 1) + [Answer(p, posts(payload, n - 1))]
  }

  const Fallback := Error(Provider, "Unexpected error in LMStudio generation")

  /** LMStudioProvider.generate, as a value of the health check and the replies to each POST. */
  function Generate(p: LMStudioProvider, request: GenerationRequest, healthy: bool, posts: (Dict<Value>, nat) -> Outcome): Run
  {
    if !healthy then Run(Err(Error(ProviderUnavailable, UnavailableText)), 0, [])
    else Steady(Steps(p, Payload(p, request), posts, HostedRetries), Fallback)
  }

  /** LMStudioProvider.generate */
  method GenerateLoop(p: LMStudioProvider, request: GenerationRequest, healthy: bool, posts: (Dict<Value>, nat) -> Outcome)
    returns (r: Result<GenerationResponse, Error>, sent: nat, sleeps: seq<int>)
    ensures Run(r, sent, sleeps) == Generate(p, request, healthy, posts)
  {
    if !healthy {
      return Err(Error(ProviderUnavailable, UnavailableText)), 0, [];
    }
    var payload := Payload(p, request);
    var step := (i: nat) => Answer(p, posts(payload, i));
    r, sent, sleeps := HostedAttempts(step, Fallback);
    assert Tries(step, HostedRetries) == Steps(p, payload, posts, HostedRetries);
  }

  /** Generate succeeds exactly when one of the three replies is usable, and then returns the first usable one. */
  lemma SucceedsIffUsableReply(p: LMStudioProvider, request: GenerationRequest, posts: (Dict<Value>, nat) -> Outcome)
    ensures Generate(p, request, true, posts).result.Ok? <==>
              exists i :: 0 <= i < HostedRetries && posts(Payload(p, request), i).Replied?
                       && ChoicesContent(Vendor, posts(Payload(p, request), i).body).Ok?
  {
    var steps := Steps(p, Payload(p, request), posts, HostedRetries);
    RetrySucceedsIff(steps, Fallback);
    assert forall i :: 0 <= i < HostedRetries ==>
      (steps[i].Ok? <==> posts(Payload(p, request), i).Replied? && ChoicesContent(Vendor, posts(Payload(p, request), i).body).Ok?);
  }

  /** Three failed attempts take three POSTs and two one-second pauses. */
  lemma AllAttemptsFail(p: LMStudioProvider, request: GenerationRequest, posts: (Dict<Value>, nat) -> Outcome)
    requires forall i :: 0 <= i < HostedRetries ==> Answer(p, posts(Payload(p, request), i)).Err?
    ensures Generate(p, request, true, posts).result == Answer(p, posts(Payload(p, request), 2))
    ensures Generate(p, request, true, posts).attempts == 3 && Generate(p, request, true, posts).pauses == [1, 1]
  {
    var steps := Steps(p, Payload(p, request), posts, HostedRetries);
    RetryAllFail(steps, Fallback);
    assert FixedPauses(2) == [1, 1];
  }

  /** get_available_models: a fixed list. */
  const AvailableModels := ["local-model", "mistral", "llama-2", "llama-3", "codellama", "phi-2", "gemma"]
}
