/**
 * The Anthropic provider (src/gitai/providers/anthropic.py): settings read
 * with defaults and validated, the messages payload, and generate with three
 * attempts. The response is built as the code writes it (with two keyword
 * arguments GenerationResponse does not declare) and as evidently intended
 * (with them moved into the metadata, as the LMStudio provider does).
 */
module Anthropic {
  import opened Wrappers
  import opened Dicts
  import opened Values
  import opened Strings
  import opened Errors
  import opened Python
  import opened ProviderBase

  datatype AnthropicProvider = AnthropicProvider(
    config: Dict<Value>, apiKey: Value, model: Value, baseUrl: string, timeout: Value, temperature: Value, maxTokens: Value)

  const Vendor := "Anthropic"
  const DefaultModel := "claude-3-haiku-20240307"
  const DefaultBaseUrl := "https://api.anthropic.com/v1"
  const KeyRequiredText := "Anthropic API key is required. Set ANTHROPIC_API_KEY environment variable or provide api_key in config."
  const UnavailableText := "Anthropic API is not available. Check your API key and internet connection."
  const UnexpectedKeywordText := "GenerationResponse.__init__() got an unexpected keyword argument 'generation_time'"

  /** validate_config on the settings already read. */
  function ValidateConfig(apiKey: Value, temperature: Value, timeout: Value): (r: Result<(), Error>)
    ensures r.Ok? <==> Truthy(apiKey) && CheckTemperatureAndTimeout(temperature, timeout).Ok?
    ensures !Truthy(apiKey) ==> r == Err(Error(ProviderConfig, KeyRequiredText))
  {
    if !Truthy(apiKey) then Err(Error(ProviderConfig, KeyRequiredText))
    else CheckTemperatureAndTimeout(temperature, timeout)
  }

  /**
   * AnthropicProvider.__init__: the settings are read with their defaults
   * (the key falling back to ANTHROPIC_API_KEY), validated (the base class
   * validates them a second time, with the same outcome), and trailing
   * slashes are cut from the URL, which fails for a URL that is no string.
   */
  function Create(config: Dict<Value>, environ: map<string, string>): (r: Result<AnthropicProvider, Error>)
    ensures r.Ok? ==> r.value.config == config && Truthy(r.value.apiKey)
    ensures r.Ok? ==> Number(r.value.temperature).Some? && 0.0 <= Number(r.value.temperature).value <= 1.0
    ensures r.Ok? ==> Number(r.value.timeout).Some? && Number(r.value.timeout).value > 0.0
    ensures r.Ok? ==> |r.value.baseUrl| == 0 || r.value.baseUrl[|r.value.baseUrl| - 1] != '/'
    ensures r.Ok? ==> r.value.model == Setting(config, "model", VStr(DefaultModel))
    ensures !Truthy(ApiKeyFrom(config, environ, "ANTHROPIC_API_KEY")) ==> r == Err(Error(ProviderConfig, KeyRequiredText))
  {
    var apiKey := ApiKeyFrom(config, environ, "ANTHROPIC_API_KEY");
    var temperature := Setting(config, "temperature", VFloat(0.7));
    var timeout := Setting(config, "timeout", VInt(30));
    match ValidateConfig(apiKey, temperature, timeout)
    case Err(e) => Err(e)
    case Ok(_) =>
      match RStripSlashes(Setting(config, "base_url", VStr(DefaultBaseUrl)))
      case Err(e) => Err(e)
      case Ok(url) =>
        Ok(AnthropicProvider(config, apiKey, Setting(config, "model", VStr(DefaultModel)), url, timeout, temperature,
                          Setting(config, "max_tokens", VInt(1000))))
  }

  /** The JSON body of the POST to /messages: the provider's own settings and the bare prompt. */
  function Payload(p: AnthropicProvider, request: GenerationRequest): Dict<Value>
  {
    [("model", p.model), ("max_tokens", p.maxTokens), ("temperature", p.temperature),
     ("system", VStr(SystemPrompt)), ("messages", VList([VDict([("role", VStr("user")), ("content", VStr(request.prompt))])]))]
  }

  /** generate sends the prompt alone: the request's context, model, max_tokens and temperature are not used. */
  lemma PayloadUsesPromptOnly(p: AnthropicProvider, r1: GenerationRequest, r2: GenerationRequest)
    requires r1.prompt == r2.prompt
    ensures Payload(p, r1) == Payload(p, r2)
  {
  }

  /**
   * The text of a reply: the first content block must be of type "text";
   * a failing subscript or strip() gives str() of the raised error.
   */
  function BlocksContent(body: Value): (r: Result<string, string>)
    ensures r.Ok? ==> body.VDict? && HasKey(body.entries, "content") && r.value != ""
    ensures body.VDict? && !(HasKey(body.entries, "content") && Truthy(Get(body.entries, "content").value)) ==>
              r == Err("No response from Anthropic")
  {
    match In("content", body)
    case Err(m) => Err(m)
    case Ok(present) =>
      if !present then Err("No response from Anthropic")
      else
        match Key(body, "content")
        case Err(m) => Err(m)
        case Ok(blocks) =>
          if !Truthy(blocks) then Err("No response from Anthropic")
          else
            match First(blocks)
            case Err(m) => Err(m)
            case Ok(block) =>
              match Key(block, "type")
              case Err(m) => Err(m)
              case Ok(kind) =>
                if kind != VStr("text") then Err("Invalid response format from Anthropic")
                else
                  match Key(block, "text")
                  case Err(m) => Err(m)
                  case Ok(text) =>
                    match StripValue(text)
                    case Err(m) => Err(m)
                    case Ok(content) => if content == "" then Err("Empty response from Anthropic") else Ok(content)
  }

  /** A usable reply as the code writes it: constructing the response raises TypeError. */
  function ReplyAsWritten(body: Value): (r: Result<GenerationResponse, string>)
    ensures r.Err?
    ensures BlocksContent(body).Ok? ==> r == Err(UnexpectedKeywordText)
  {
    match BlocksContent(body)
    case Err(m) => Err(m)
    case Ok(_) => Err(UnexpectedKeywordText)
  }

  /** A usable reply with generation_time and provider_name placed in the metadata. */
  function Reply(p: AnthropicProvider, body: Value, elapsed: real): (r: Result<GenerationResponse, string>)
    ensures r.Ok? <==> BlocksContent(body).Ok?
    ensures r.Ok? ==> r.value.content == BlocksContent(body).value && r.value.modelUsed == p.model
  {
    match BlocksContent(body)
    case Err(m) => Err(m)
    case Ok(content) =>
      var es := body.entries;
      Ok(GenerationResponse(content, p.model, VNone, Some([
        ("usage", Setting(es, "usage", VDict([]))), ("stop_reason", Setting(es, "stop_reason", VNone)),
        ("stop_sequence", Setting(es, "stop_sequence", VNone)),
        ("generation_time", VFloat(elapsed)), ("provider_name", VStr("anthropic"))])))
  }

  /** One attempt: the response, or the error its handler raises should it be the last. */
  function Answer(p: AnthropicProvider, o: Outcome, asWritten: bool): (r: Result<GenerationResponse, Error>)
    ensures asWritten ==> r.Err?
    ensures !asWritten && o.Replied? ==> (r.Ok? <==> BlocksContent(o.body).Ok?)
  {
    match o
    case Replied(body, elapsed) =>
      var reply := if asWritten then ReplyAsWritten(body) else Reply(p, body, elapsed);
      if reply.Ok? then Ok(reply.value) else Err(HostedFailure(Vendor, p.timeout, o, reply.error))
    case _ => Err(HostedFailure(Vendor, p.timeout, o, ""))
  }

  function Steps(p: AnthropicProvider, payload: Dict<Value>, posts: (Dict<Value>, nat) -> Outcome, n: nat, asWritten: bool)
    : (s: seq<Result<GenerationResponse, Error>>)
    ensures |s| == n && forall i :: 0 <= i < n ==> s[i] == Answer(p, posts(payload, i), asWritten)
  {
    if n == 0 then [] else Steps(p, payload, posts, n - 1, asWritten) + [Answer(p, posts(payload, n - 1), asWritten)]
  }

  const Fallback := Error(Provider, "Unexpected error in Anthropic generation")

  /** AnthropicProvider.generate, as a value of the health check and the replies to each POST. */
  function Generate(p: AnthropicProvider, request: GenerationRequest, healthy: bool, posts: (Dict<Value>, nat) -> Outcome, asWritten: bool): Run
  {
    if !healthy then Run(Err(Error(ProviderUnavailable, UnavailableText)), 0, [])
    else Steady(Steps(p, Payload(p, request), posts, HostedRetries, asWritten), Fallback)
  }

  /** AnthropicProvider.generate, with the response built as intended. */
  method GenerateLoop(p: AnthropicProvider, request: GenerationRequest, healthy: bool, posts: (Dict<Value>, nat) -> Outcome)
    returns (r: Result<GenerationResponse, Error>, sent: nat, sleeps: seq<int>)
    ensures Run(r, sent, sleeps) == Generate(p, request, healthy, posts, false)
  {
    if !healthy {
      return Err(Error(ProviderUnavailable, UnavailableText)), 0, [];
    }
    var payload := Payload(p, request);
    var step := (i: nat) => Answer(p, posts(payload, i), false);
    r, sent, sleeps := HostedAttempts(step, Fallback);
    assert Tries(step, HostedRetries) == Steps(p, payload, posts, HostedRetries, false);
  }

  /** As written, generate never returns a response: every attempt ends in an error. */
  lemma AsWrittenNeverSucceeds(p: AnthropicProvider, request: GenerationRequest, healthy: bool, posts: (Dict<Value>, nat) -> Outcome)
    ensures Generate(p, request, healthy, posts, true).result.Err?
  {
    if healthy {
      var steps := Steps(p, Payload(p, request), posts, HostedRetries, true);
      RetryAllFail(steps, Fallback);
    }
  }

  /** As written, three usable replies still make three POSTs and raise the wrapped TypeError. */
  lemma AsWrittenUsableReplies(p: AnthropicProvider, request: GenerationRequest, posts: (Dict<Value>, nat) -> Outcome)
    requires forall i :: 0 <= i < HostedRetries ==>
               posts(Payload(p, request), i).Replied? && BlocksContent(posts(Payload(p, request), i).body).Ok?
    ensures Generate(p, request, true, posts, true)
              == Run(Err(Error(Provider, Vendor + " generation failed: " + UnexpectedKeywordText)), 3, [1, 1])
  {
    var payload := Payload(p, request);
    var steps := Steps(p, payload, posts, HostedRetries, true);
    RetryAllFail(steps, Fallback);
    var last := posts(payload, 2);
    assert ReplyAsWritten(last.body) == Err(UnexpectedKeywordText);
    assert steps[2] == Err(HostedFailure(Vendor, p.timeout, last, UnexpectedKeywordText));
    assert FixedPauses(2) == [1, 1];
  }

  /** As intended, a usable first reply is returned after one POST, with its content. */
  lemma UsableFirstReply(p: AnthropicProvider, request: GenerationRequest, posts: (Dict<Value>, nat) -> Outcome)
    requires posts(Payload(p, request), 0).Replied? && BlocksContent(posts(Payload(p, request), 0).body).Ok?
    ensures Generate(p, request, true, posts, false).result.Ok?
    ensures Generate(p, request, true, posts, false).result.value.content == BlocksContent(posts(Payload(p, request), 0).body).value
    ensures Generate(p, request, true, posts, false).attempts == 1
  {
    var steps := Steps(p, Payload(p, request), posts, HostedRetries, false);
    RetryFirstSuccess(steps, Fallback, 0);
  }

  /** get_available_models: a fixed list. */
  const AvailableModels := ["claude-3-haiku-20240307", "claude-3-sonnet-20240229",
                            "claude-3-opus-20240229", "claude-3-5-sonnet-20240620"]
}
