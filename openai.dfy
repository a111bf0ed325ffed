/**
 * The OpenAI provider (src/gitai/providers/openai.py): settings read with
 * defaults and validated, the chat-completions payload, and generate with
 * three attempts. The response is built as the code writes it (with two
 * keyword arguments GenerationResponse does not declare) and as evidently
 * intended (with them moved into the metadata, as the LMStudio provider does).
 */
module OpenAI {
  import opened Wrappers
  import opened Dicts
  import opened Values
  import opened Strings
  import opened Errors
  import opened Python
  import opened ProviderBase

  datatype OpenAIProvider = OpenAIProvider(
    config: Dict<Value>, apiKey: Value, model: Value, baseUrl: string, timeout: Value, temperature: Value, maxTokens: Value)

  const Vendor := "OpenAI"
  const DefaultModel := "gpt-3.5-turbo"
  const DefaultBaseUrl := "https://api.openai.com/v1"
  const KeyRequiredText := "OpenAI API key is required. Set OPENAI_API_KEY environment variable or provide api_key in config."
  const UnavailableText := "OpenAI API is not available. Check your API key and internet connection."
  const UnexpectedKeywordText := "GenerationResponse.__init__() got an unexpected keyword argument 'generation_time'"

  /** validate_config on the settings already read. */
  function ValidateConfig(apiKey: Value, temperature: Value, timeout: Value): (r: Result<(), Error>)
    ensures r.Ok? <==> Truthy(apiKey) && CheckTemperatureAndTimeout(temperature, timeout).Ok?
    ensures !Truthy(apiKey) ==> r == Err(Error(ProviderConfig, KeyRequiredText))
  {
    if !Truthy(apiKey) then Err(Error(ProviderConfig, KeyRequiredText))
    else CheckTemperatureAndTimeout(temperature, timeout)
  }

  /**
   * OpenAIProvider.__init__: the settings are read with their defaults
   * (the key falling back to OPENAI_API_KEY), validated (the base class
   * validates them a second time, with the same outcome), and trailing
   * slashes are cut from the URL, which fails for a URL that is no string.
   */
  function Create(config: Dict<Value>, environ: map<string, string>): (r: Result<OpenAIProvider, Error>)
    ensures r.Ok? ==> r.value.config == config && Truthy(r.value.apiKey)
    ensures r.Ok? ==> Number(r.value.temperature).Some? && 0.0 <= Number(r.value.temperature).value <= 1.0
    ensures r.Ok? ==> Number(r.value.timeout).Some? && Number(r.value.timeout).value > 0.0
    ensures r.Ok? ==> |r.value.baseUrl| == 0 || r.value.baseUrl[|r.value.baseUrl| - 1] != '/'
    ensures r.Ok? ==> r.value.model == Setting(config, "model", VStr(DefaultModel))
    ensures !Truthy(ApiKeyFrom(config, environ, "OPENAI_API_KEY")) ==> r == Err(Error(ProviderConfig, KeyRequiredText))
  {
    var apiKey := ApiKeyFrom(config, environ, "OPENAI_API_KEY");
    var temperature := Setting(config, "temperature", VFloat(0.7));
    var timeout := Setting(config, "timeout", VInt(30));
    match ValidateConfig(apiKey, temperature, timeout)
    case Err(e) => Err(e)
    case Ok(_) =>
      match RStripSlashes(Setting(config, "base_url", VStr(DefaultBaseUrl)))
      case Err(e) => Err(e)
      case Ok(url) =>
        Ok(OpenAIProvider(config, apiKey, Setting(config, "model", VStr(DefaultModel)), url, timeout, temperature,
                          Setting(config, "max_tokens", VInt(1000))))
  }

  /** The JSON body of the POST to /chat/completions: the provider's own settings and the bare prompt. */
  function Payload(p: OpenAIProvider, request: GenerationRequest): Dict<Value>
  {
    [("model", p.model), ("messages", ChatMessages(request.prompt)),
     ("temperature", p.temperature), ("max_tokens", p.maxTokens)]
  }

  /** generate sends the prompt alone: the request's context, model, max_tokens and temperature are not used. */
  lemma PayloadUsesPromptOnly(p: OpenAIProvider, r1: GenerationRequest, r2: GenerationRequest)
    requires r1.prompt == r2.prompt
    ensures Payload(p, r1) == Payload(p, r2)
  {
  }

  /** A usable reply as the code writes it: constructing the response raises TypeError. */
  function ReplyAsWritten(body: Value): (r: Result<GenerationResponse, string>)
    ensures r.Err?
    ensures ChoicesContent(Vendor, body).Ok? ==> r == Err(UnexpectedKeywordText)
  {
    match ChoicesContent(Vendor, body)
    case Err(m) => Err(m)
    case Ok(_) => Err(UnexpectedKeywordText)
  }

  /** A usable reply with generation_time and provider_name placed in the metadata. */
  function Reply(p: OpenAIProvider, body: Value, elapsed: real): (r: Result<GenerationResponse, string>)
    ensures r.Ok? <==> ChoicesContent(Vendor, body).Ok?
  {
    ChoicesResponse(Vendor, "openai", p.model, body, elapsed)
  }

  /** One attempt: the response, or the error its handler raises should it be the last. */
  function Answer(p: OpenAIProvider, o: Outcome, asWritten: bool): (r: Result<GenerationResponse, Error>)
    ensures asWritten ==> r.Err?
    ensures !asWritten && o.Replied? ==> (r.Ok? <==> ChoicesContent(Vendor, o.body).Ok?)
  {
    match o
    case Replied(body, elapsed) =>
      var reply := if asWritten then ReplyAsWritten(body) else Reply(p, body, elapsed);
      if reply.Ok? then Ok(reply.value) else Err(HostedFailure(Vendor, p.timeout, o, reply.error))
    case _ => Err(HostedFailure(Vendor, p.timeout, o, ""))
  }

  function Steps(p: OpenAIProvider, payload: Dict<Value>, posts: (Dict<Value>, nat) -> Outcome, n: nat, asWritten: bool)
    : (s: seq<Result<GenerationResponse, Error>>)
    ensures |s| == n && forall i :: 0 <= i < n ==> s[i] == Answer(p, posts(payload, i), asWritten)
  {
    if n == 0 then [] else Steps(p, payload, posts, n - 1, asWritten) + [Answer(p, posts(payload, n - 1), asWritten)]
  }

  const Fallback := Error(Provider, "Unexpected error in OpenAI generation")

  /** OpenAIProvider.generate, as a value of the health check and the replies to each POST. */
  function Generate(p: OpenAIProvider, request: GenerationRequest, healthy: bool, posts: (Dict<Value>, nat) -> Outcome, asWritten: bool): Run
  {
    if !healthy then Run(Err(Error(ProviderUnavailable, UnavailableText)), 0, [])
    else Steady(Steps(p, Payload(p, request), posts, HostedRetries, asWritten), Fallback)
  }

  /** OpenAIProvider.generate, with the response built as intended. */
  method GenerateLoop(p: OpenAIProvider, request: GenerationRequest, healthy: bool, posts: (Dict<Value>, nat) -> Outcome)
    returns (r: Result<GenerationResponse, Error>, sent: nat, sleeps: seq<int>)
    ensures Run(r, sent, sleeps) == Generate(p, request, healthy, posts, false)
  {
    if !healthy {
      return Err(Error(ProviderUnavailable, UnavailableText)), 0, [];
    }
    var payload := Payload(p, request);
    var step := (i: nat) => Answer(p, posts(payload, i), false);
    r, sent, sleeps := HostedAttempts(step, Fallback);
    assert Tries(step, HostedRetries) == Steps(p, payload, posts, HostedRetries, false);
  }

  /** As written, generate never returns a response: every attempt ends in an error. */
  lemma AsWrittenNeverSucceeds(p: OpenAIProvider, request: GenerationRequest, healthy: bool, posts: (Dict<Value>, nat) -> Outcome)
    ensures Generate(p, request, healthy, posts, true).result.Err?
  {
    if healthy {
      var steps := Steps(p, Payload(p, request), posts, HostedRetries, true);
      RetryAllFail(steps, Fallback);
    }
  }

  /** As written, three usable replies still make three POSTs and raise the wrapped TypeError. */
  lemma AsWrittenUsableReplies(p: OpenAIProvider, request: GenerationRequest, posts: (Dict<Value>, nat) -> Outcome)
    requires forall i :: 0 <= i < HostedRetries ==>
               posts(Payload(p, request), i).Replied? && ChoicesContent(Vendor, posts(Payload(p, request), i).body).Ok?
    ensures Generate(p, request, true, posts, true)
              == Run(Err(Error(Provider, Vendor + " generation failed: " + UnexpectedKeywordText)), 3, [1, 1])
  {
    var payload := Payload(p, request);
    var steps := Steps(p, payload, posts, HostedRetries, true);
    RetryAllFail(steps, Fallback);
    var last := posts(payload, 2);
    assert ReplyAsWritten(last.body) == Err(UnexpectedKeywordText);
    assert steps[2] == Err(HostedFailure(Vendor, p.timeout, last, UnexpectedKeywordText));
    assert FixedPauses(2) == [1, 1];
  }

  /** As intended, a usable first reply is returned after one POST, with its content. */
  lemma UsableFirstReply(p: OpenAIProvider, request: GenerationRequest, posts: (Dict<Value>, nat) -> Outcome)
    requires posts(Payload(p, request), 0).Replied? && ChoicesContent(Vendor, posts(Payload(p, request), 0).body).Ok?
    ensures Generate(p, request, true, posts, false).result.Ok?
    ensures Generate(p, request, true, posts, false).result.value.content == ChoicesContent(Vendor, posts(Payload(p, request), 0).body).value.0
    ensures Generate(p, request, true, posts, false).attempts == 1
  {
    var steps := Steps(p, Payload(p, request), posts, HostedRetries, false);
    RetryFirstSuccess(steps, Fallback, 0);
  }

  /** get_available_models: a fixed list. */
  const AvailableModels := ["gpt-3.5-turbo", "gpt-3.5-turbo-16k", "gpt-4", "gpt-4-turbo",
                            "gpt-4-turbo-preview", "gpt-4o", "gpt-4o-mini"]
}
