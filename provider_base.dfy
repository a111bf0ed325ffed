/**
 * What all providers share (src/gitai/providers/base.py): the request and
 * response records, the default prompt preparation, the configuration
 * checkers, the provider name, and the retry discipline that every
 * provider's generate follows. Each HTTP attempt is an oracle outcome.
 */
module ProviderBase {
  import opened Wrappers
  import opened Dicts
  import opened Values
  import opened Strings
  import opened Errors
  import opened Python

  /** GenerationRequest; max_tokens, temperature and model are optional. */
  datatype GenerationRequest = GenerationRequest(
    prompt: string, context: Dict<Value>, maxTokens: Option<int>, temperature: Option<real>, model: Option<string>)

  /** GenerationResponse: content, model_used, tokens_used (None by default) and metadata (None by default). */
  datatype GenerationResponse = GenerationResponse(
    content: string, modelUsed: Value, tokensUsed: Value, metadata: Option<Dict<Value>>)

  /**
   * What one POST ends in, as the exception handlers of generate see it:
   * a decoded JSON reply (with the seconds the request took), a Timeout, a
   * ConnectionError, any other RequestException (an HTTP error status, a
   * body that is not JSON), or another exception.
   */
  datatype Outcome =
    | Replied(body: Value, elapsed: real)
    | TimedOut(message: string)
    | ConnectionFailed(message: string)
    | RequestFailed(message: string)
    | Crashed(message: string)

  // ---------------------------------------------------------------------
  // prepare_prompt

  const ContextHeader := "\n\nContext:\n"

  /** str/int/float/bool values are written out in full. */
  predicate IsScalar(v: Value)
  {
    v.VStr? || v.VInt? || v.VFloat? || v.VBool?
  }

  /** str(value)[:200], with "..." when the text is longer than 200 characters. */
  function Clip(s: string): (r: string)
    ensures |s| <= 200 ==> r == s
    ensures |s| > 200 ==> |r| == 203 && r[..200] == s[..200] && r[200..] == "..."
  {
    if |s| > 200 then s[..200] + "..." else s
  }

  /** One context entry: scalars in full, lists and dicts clipped, anything else omitted. */
  function ContextLine(k: string, v: Value): (r: string)
    ensures r == "" <==> !(IsScalar(v) || v.VList? || v.VDict?)
    ensures IsScalar(v) ==> r == "- " + k + ": " + Str(v) + "\n"
  {
    if IsScalar(v) then "- " + k + ": " + Str(v) + "\n"
    else if v.VList? || v.VDict? then "- " + k + ": " + Clip(Str(v)) + "\n"
    else ""
  }

  /** The entry lines in dict order. */
  function ContextLines(ctx: Dict<Value>): string
  {
    if |ctx| == 0 then ""
    else ContextLines(ctx[..|ctx| - 1]) + ContextLine(ctx[|ctx| - 1].0, ctx[|ctx| - 1].1)
  }

  /** The context part: nothing for an empty context. */
  function ContextBlock(ctx: Dict<Value>): string
  {
    if |ctx| == 0 then "" else ContextHeader + ContextLines(ctx)
  }

  /** The lines of two consecutive parts of a context are the two parts' lines in order. */
  lemma {:induction false} ContextLinesAppend(a: Dict<Value>, b: Dict<Value>)
    ensures ContextLines(a + b) == ContextLines(a) + ContextLines(b)
  {
    if |b| > 0 {
      var b' := b[..|b| - 1];
      ContextLinesAppend(a, b');
      var line := ContextLinesLast(a, b);
      AppendStep(ContextLines(a + b), ContextLines(a + b'), ContextLines(a), ContextLines(b), ContextLines(b'), line);
    } else {
      assert a + b == a;
    }
  }

  /** The last entry of a + b, for a non-empty b, adds its line after those of a and the rest of b. */
  lemma ContextLinesLast(a: Dict<Value>, b: Dict<Value>) returns (line: string)
    requires |b| > 0
    ensures ContextLines(a + b) == ContextLines(a + b[..|b| - 1]) + line
    ensures ContextLines(b) == ContextLines(b[..|b| - 1]) + line
  {
    line := ContextLine(b[|b| - 1].0, b[|b| - 1].1);
    assert (a + b)[..|a + b| - 1] == a + b[..|b| - 1];
  }

  lemma AppendStep(ab: string, ab': string, a: string, b: string, b': string, line: string)
    requires ab == ab' + line && ab' == a + b' && b == b' + line
    ensures ab == a + b
  {
    AppendAssoc(a, b', line);
  }

  /** One more entry adds its line at the end. */
  lemma ContextLinesStep(ctx: Dict<Value>, i: nat)
    requires i < |ctx|
    ensures ContextLines(ctx[..i + 1]) == ContextLines(ctx[..i]) + ContextLine(ctx[i].0, ctx[i].1)
  {
    assert ctx[..i + 1][..i] == ctx[..i];
  }

  /** An entry holding None or some other object adds nothing, wherever it stands. */
  lemma OmittedEntry(a: Dict<Value>, b: Dict<Value>, k: string, v: Value)
    requires !(IsScalar(v) || v.VList? || v.VDict?)
    ensures ContextLines(a + [(k, v)] + b) == ContextLines(a + b)
  {
    var a' := a + [(k, v)];
    assert a'[..|a'| - 1] == a;
    assert ContextLines(a') == ContextLines(a) + ContextLine(k, v);
    assert ContextLines(a') == ContextLines(a);
    ContextLinesAppend(a', b);
    ContextLinesAppend(a, b);
  }

  /** The body of prepare_prompt's loop for one entry. */
  method FormatEntry(key: string, value: Value) returns (line: string)
    ensures line == ContextLine(key, value)
  {
    line := "";
    if IsScalar(value) {
      line := "- " + key + ": " + Str(value) + "\n";
    } else if value.VList? || value.VDict? {
      line := "- " + key + ": " + Clip(Str(value)) + "\n";
    }
  }

  /** BaseProvider.prepare_prompt */
  method PreparePrompt(prompt: string, context: Dict<Value>) returns (p: string)
    ensures p == prompt + ContextBlock(context)
    ensures context == [] ==> p == prompt
  {
    var contextStr := "";
    if |context| > 0 {
      contextStr := ContextHeader;
      var i := 0;
      ghost var lines := "";
      while i < |context|
        invariant 0 <= i <= |context|
        invariant lines == ContextLines(context[..i])
        invariant contextStr == ContextHeader + lines
      {
        var line := FormatEntry(context[i].0, context[i].1);
        ContextLinesStep(context, i);
        AppendAssoc(ContextHeader, lines, line);
        contextStr := contextStr + line;
        lines := lines + line;
        i := i + 1;
      }
      assert context[..i] == context;
    }
    p := prompt + contextStr;
  }

  // ---------------------------------------------------------------------
  // Configuration checkers

  /** config.get(k, default): Get's value for a present key, the default for an absent one. */
  function Setting(config: Dict<Value>, k: string, default: Value): (v: Value)
    ensures Get(config, k).Some? ==> Get(config, k) == Some(v)
    ensures Get(config, k).None? ==> v == default
  {
    if HasKey(config, k) then Get(config, k).value else default
  }

  /**
   * A present key reads a value the dict stores under it, which in a dict with distinct
   * keys is the value of every pair with that key.
   */
  lemma SettingStored(config: Dict<Value>, k: string, default: Value)
    ensures HasKey(config, k) ==> exists i :: 0 <= i < |config| && config[i] == (k, Setting(config, k, default))
    ensures DistinctKeys(config) ==>
              forall i :: 0 <= i < |config| && config[i].0 == k ==> Setting(config, k, default) == config[i].1
  {
    GetFound(config, k);
    if DistinctKeys(config) {
      forall i | 0 <= i < |config| && config[i].0 == k {
        GetAt(config, i);
      }
    }
  }

  /** Storing a setting changes what that key reads and no other. */
  lemma SettingAfterPut(config: Dict<Value>, k: string, x: Value, k': string, default: Value)
    ensures Setting(Put(config, k, x), k', default) == if k' == k then x else Setting(config, k', default)
  {
    GetPut(config, k, x, k');
  }

  /** What all attempts of a generate call came to: the result, the POSTs made, the pauses slept. */
  datatype Run = Run(result: Result<GenerationResponse, Error>, attempts: nat, pauses: seq<int>)

  /** [key for key in required_keys if key not in config] */
  function MissingKeys(config: Dict<Value>, required: seq<string>): (r: seq<string>)
    ensures |r| <= |required|
  {
    if |required| == 0 then []
    else
      var rest := MissingKeys(config, required[1..]);
      if HasKey(config, required[0]) then rest else [required[0]] + rest
  }

  /** The missing keys are exactly the required keys the config lacks. */
  lemma {:induction false} MissingKeysMembers(config: Dict<Value>, required: seq<string>)
    ensures forall k :: k in MissingKeys(config, required) <==> k in required && !HasKey(config, k)
  {
    if |required| > 0 {
      MissingKeysMembers(config, required[1..]);
      assert required == [required[0]] + required[1..];
    }
  }

  /** A key that comes first in the required list comes first among the missing keys. */
  lemma {:induction false} MissingKeysOrder(config: Dict<Value>, required: seq<string>, k: string, rest: seq<string>)
    requires required == [k] + rest && !HasKey(config, k)
    ensures MissingKeys(config, required) == [k] + MissingKeys(config, rest)
  {
    assert required[1..] == rest;
  }

  const MissingKeysText := "Missing required configuration keys: "

  /** _validate_required_config */
  function ValidateRequiredConfig(config: Dict<Value>, required: seq<string>): (r: Result<(), Error>)
    ensures r.Ok? <==> forall k :: k in required ==> HasKey(config, k)
    ensures r.Err? ==> r.error == Error(ProviderConfig, MissingKeysText + Join(", ", MissingKeys(config, required)))
  {
    MissingKeysMembers(config, required);
    var missing := MissingKeys(config, required);
    if |missing| > 0 then
      assert missing[0] in missing;
      Err(Error(ProviderConfig, MissingKeysText + Join(", ", missing)))
    else
      Ok(())
  }

  /** The types that _validate_config_types is given. */
  datatype PyType = StrType | IntType | FloatType | BoolType | ListType | DictType

  function PyTypeName(t: PyType): string
  {
    match t
    case StrType => "str"
    case IntType => "int"
    case FloatType => "float"
    case BoolType => "bool"
    case ListType => "list"
    case DictType => "dict"
  }

  /** isinstance(v, t); a bool is also an int. */
  predicate IsInstance(v: Value, t: PyType)
  {
    match t
    case StrType => v.VStr?
    case IntType => v.VInt? || v.VBool?
    case FloatType => v.VFloat?
    case BoolType => v.VBool?
    case ListType => v.VList?
    case DictType => v.VDict?
  }

  /** An expectation is met when the key is absent or its value has the type. */
  predicate Meets(config: Dict<Value>, e: (string, PyType))
  {
    !HasKey(config, e.0) || IsInstance(Get(config, e.0).value, e.1)
  }

  function TypeMismatch(config: Dict<Value>, e: (string, PyType)): Error
    requires HasKey(config, e.0)
  {
    Error(ProviderConfig, "Configuration key '" + e.0 + "' must be of type " + PyTypeName(e.1)
      + ", got " + TypeName(Get(config, e.0).value))
  }

  /** _validate_config_types: the first unmet expectation, in the order given, is reported. */
  function ValidateConfigTypes(config: Dict<Value>, expected: Dict<PyType>): (r: Result<(), Error>)
    ensures r.Ok? <==> forall i :: 0 <= i < |expected| ==> Meets(config, expected[i])
    ensures r.Err? ==>
              exists i :: 0 <= i < |expected| && HasKey(config, expected[i].0)
                && !Meets(config, expected[i]) && (forall j :: 0 <= j < i ==> Meets(config, expected[j]))
                && r.error == TypeMismatch(config, expected[i])
  {
    if |expected| == 0 then Ok(())
    else if !Meets(config, expected[0]) then
      Err(TypeMismatch(config, expected[0]))
    else
      var r := ValidateConfigTypes(config, expected[1..]);
      assert forall i :: 1 <= i < |expected| ==> expected[i] == expected[1..][i - 1];
      if r.Err? then
        var i :| 0 <= i < |expected[1..]| && HasKey(config, expected[1..][i].0)
          && !Meets(config, expected[1..][i]) && (forall j :: 0 <= j < i ==> Meets(config, expected[1..][j]))
          && r.error == TypeMismatch(config, expected[1..][i]);
        assert forall j :: 0 <= j < i + 1 ==> Meets(config, expected[j]) by {
          forall j | 0 <= j < i + 1 ensures Meets(config, expected[j]) {
            if j > 0 { assert expected[j] == expected[1..][j - 1]; }
          }
        }
        r
      else r
  }

  // ---------------------------------------------------------------------
  // get_provider_name

  /** s.replace(pat, ""): occurrences are removed left to right, without overlap. */
  function RemoveAll(s: string, pat: string): (r: string)
    requires |pat| > 0
    ensures |r| <= |s|
  {
    if |s| == 0 then ""
    else if StartsWith(s, pat) then RemoveAll(s[|pat|..], pat)
    else [s[0]] + RemoveAll(s[1..], pat)
  }

  /** get_provider_name: the class name without "Provider", lower-cased. */
  function ProviderName(className: string): string
  {
    Lower(RemoveAll(className, "Provider"))
  }

  /**
   * A class name made of a stem without a capital P and the suffix
   * "Provider" loses exactly the suffix, so its provider name is the stem
   * in lower case.
   */
  lemma {:induction false} ProviderNameOfStem(stem: string)
    requires forall i :: 0 <= i < |stem| ==> stem[i] != 'P'
    ensures RemoveAll(stem + "Provider", "Provider") == stem
    ensures ProviderName(stem + "Provider") == Lower(stem)
  {
    var s := stem + "Provider";
    if |stem| == 0 {
      assert s == "Provider";
      assert StartsWith(s, "Provider");
      assert s[|"Provider"|..] == "";
    } else {
      assert s[0] == stem[0] != 'P';
      assert !StartsWith(s, "Provider") by {
        assert s[..8][0] == s[0];
        assert "Provider"[0] == 'P';
      }
      assert s[1..] == stem[1..] + "Provider";
      ProviderNameOfStem(stem[1..]);
      assert [stem[0]] + stem[1..] == stem;
    }
  }

  // ---------------------------------------------------------------------
  // Retries

  /**
   * The outcome of a sequence of attempts: the first success ends it;
   * otherwise the error of the last attempt is raised, or `exhausted` when
   * there was no attempt at all.
   */
  function Retry(steps: seq<Result<GenerationResponse, Error>>, exhausted: Error): Result<GenerationResponse, Error>
  {
    if |steps| == 0 then Err(exhausted)
    else if steps[0].Ok? || |steps| == 1 then steps[0]
    else Retry(steps[1..], exhausted)
  }

  /** The results of the first n attempts. */
  function Tries(step: nat -> Result<GenerationResponse, Error>, n: nat): (s: seq<Result<GenerationResponse, Error>>)
    ensures |s| == n && forall i :: 0 <= i < n ==> s[i] == step(i)
  {
    if n == 0 then [] else Tries(step, n - 1) + [step(n - 1)]
  }

  /** How many POSTs the attempts make: up to and including the first success. */
  function PostsMade(steps: seq<Result<GenerationResponse, Error>>): (n: nat)
    ensures n <= |steps|
    ensures |steps| > 0 ==> n > 0
  {
    if |steps| == 0 then 0
    else if steps[0].Ok? then 1
    else 1 + PostsMade(steps[1..])
  }

  /** The first successful attempt decides the result, after exactly j + 1 POSTs. */
  lemma {:induction false} RetryFirstSuccess(steps: seq<Result<GenerationResponse, Error>>, exhausted: Error, j: nat)
    requires j < |steps| && steps[j].Ok?
    requires forall i :: 0 <= i < j ==> steps[i].Err?
    ensures Retry(steps, exhausted) == steps[j]
    ensures PostsMade(steps) == j + 1
  {
    if j > 0 {
      RetryFirstSuccess(steps[1..], exhausted, j - 1);
    }
  }

  /** When every attempt fails, all are made and the last one's error is raised. */
  lemma {:induction false} RetryAllFail(steps: seq<Result<GenerationResponse, Error>>, exhausted: Error)
    requires forall i :: 0 <= i < |steps| ==> steps[i].Err?
    ensures Retry(steps, exhausted) == if |steps| == 0 then Err(exhausted) else steps[|steps| - 1]
    ensures PostsMade(steps) == |steps|
  {
    if |steps| > 1 {
      RetryAllFail(steps[1..], exhausted);
    }
  }

  /** The attempts succeed exactly when one of them does. */
  lemma RetrySucceedsIff(steps: seq<Result<GenerationResponse, Error>>, exhausted: Error)
    ensures Retry(steps, exhausted).Ok? <==> exists i :: 0 <= i < |steps| && steps[i].Ok?
  {
    if exists i :: 0 <= i < |steps| && steps[i].Ok? {
      var j := FirstOk(steps);
      RetryFirstSuccess(steps, exhausted, j);
    } else {
      RetryAllFail(steps, exhausted);
    }
  }

  /** The index of the first success. */
  function FirstOk(steps: seq<Result<GenerationResponse, Error>>): (j: nat)
    requires exists i :: 0 <= i < |steps| && steps[i].Ok?
    ensures j < |steps| && steps[j].Ok? && forall i :: 0 <= i < j ==> steps[i].Err?
  {
    if steps[0].Ok? then 0
    else
      var i :| 0 <= i < |steps| && steps[i].Ok?;
      assert steps[1..][i - 1].Ok?;
      1 + FirstOk(steps[1..])
  }

  /** time.sleep(retry_delay * (attempt + 1)) after each of the first k attempts. */
  function LinearBackoff(delay: int, k: nat): (w: seq<int>)
    ensures |w| == k && forall i :: 0 <= i < k ==> w[i] == delay * (i + 1)
  {
    if k == 0 then [] else LinearBackoff(delay, k - 1) + [delay * k]
  }

  /** time.sleep(1) after each of the first k attempts. */
  function FixedPauses(k: nat): (w: seq<int>)
    ensures |w| == k && forall i :: 0 <= i < k ==> w[i] == 1
  {
    if k == 0 then [] else FixedPauses(k - 1) + [1]
  }

  // ---------------------------------------------------------------------
  // What the hosted-API providers (OpenAI, Anthropic, LMStudio) share

  /**
   * config.get("api_key") or os.environ.get(variable): a usable key exists exactly when the
   * configuration or the environment supplies a non-empty one, and a configured key wins.
   */
  function ApiKeyFrom(config: Dict<Value>, environ: map<string, string>, variable: string): (v: Value)
    ensures Truthy(v) <==> Truthy(Setting(config, "api_key", VNone)) || (variable in environ && environ[variable] != "")
    ensures Truthy(Setting(config, "api_key", VNone)) ==> v == Setting(config, "api_key", VNone)
    ensures !Truthy(Setting(config, "api_key", VNone)) ==> v == (if variable in environ then VStr(environ[variable]) else VNone)
  {
    var given := Setting(config, "api_key", VNone);
    if Truthy(given) then given else if variable in environ then VStr(environ[variable]) else VNone
  }

  const TemperatureRangeText := "Temperature must be between 0 and 1"

  /**
   * The temperature and timeout checks of validate_config: a value that is
   * no number fails the comparison itself with a TypeError.
   */
  function CheckTemperatureAndTimeout(temperature: Value, timeout: Value): (r: Result<(), Error>)
    ensures r.Ok? <==> Number(temperature).Some? && 0.0 <= Number(temperature).value <= 1.0
                       && Number(timeout).Some? && Number(timeout).value > 0.0
    ensures r.Err? ==> r.error.kind == ProviderConfig || r.error.kind == TypeError
  {
    match Number(temperature)
    case None => Err(ComparisonError("<", temperature))
    case Some(t) =>
      if t < 0.0 || t > 1.0 then Err(Error(ProviderConfig, TemperatureRangeText))
      else
        match Number(timeout)
        case None => Err(ComparisonError("<=", timeout))
        case Some(s) => if s <= 0.0 then Err(Error(ProviderConfig, "Timeout must be positive")) else Ok(())
  }

  /**
   * How a failed attempt of a hosted-API provider is raised on the last
   * attempt, by the handler that catches it; `reason` is str() of the
   * exception for every handler but the Timeout one.
   */
  function HostedFailure(vendor: string, timeout: Value, o: Outcome, reason: string): (e: Error)
    ensures o.TimedOut? ==> e.kind == GenerationTimeout
    ensures !o.TimedOut? ==> e.kind == Provider
  {
    match o
    case TimedOut(_) => Error(GenerationTimeout, vendor + " request timed out after " + Str(timeout) + " seconds")
    case ConnectionFailed(m) => Error(Provider, vendor + " request failed: " + m)
    case RequestFailed(m) => Error(Provider, vendor + " request failed: " + m)
    case Crashed(m) => Error(Provider, vendor + " generation failed: " + m)
    case Replied(_, _) => Error(Provider, vendor + " generation failed: " + reason)
  }

  /** The hosted-API providers make three attempts. */
  const HostedRetries := 3

  /**
   * The attempts of a hosted-API provider: the first success is returned,
   * a failure before the last attempt is followed by a one-second pause,
   * and the last attempt's failure is raised.
   */
  function Steady(steps: seq<Result<GenerationResponse, Error>>, fallback: Error): Run
  {
    var made := PostsMade(steps);
    Run(Retry(steps, fallback), made, FixedPauses(if made > 0 then made - 1 else 0))
  }

  /** The retry loop of a hosted-API provider's generate, over what each attempt comes to. */
  method HostedAttempts(step: nat -> Result<GenerationResponse, Error>, fallback: Error)
    returns (r: Result<GenerationResponse, Error>, sent: nat, sleeps: seq<int>)
    ensures Run(r, sent, sleeps) == Steady(Tries(step, HostedRetries), fallback)
  {
    ghost var steps := Tries(step, HostedRetries);
    r, sent, sleeps := Err(fallback), 0, [];
    var done := false;
    var attempt := 0;
    while attempt < HostedRetries && !done
      invariant 0 <= attempt <= HostedRetries && sent == attempt
      invariant !done ==> attempt < HostedRetries && sleeps == FixedPauses(attempt)
      invariant !done ==> forall i :: 0 <= i < attempt ==> steps[i].Err?
      invariant done ==> Run(r, sent, sleeps) == Steady(steps, fallback)
    {
      r := step(attempt);
      sent := sent + 1;
      if r.Ok? {
        RetryFirstSuccess(steps, fallback, attempt);
        done := true;
      } else if attempt == HostedRetries - 1 {
        RetryAllFail(steps, fallback);
        done := true;
      } else {
        sleeps := sleeps + [1];
      }
      attempt := attempt + 1;
    }
  }

  /** The content of an OpenAI-style reply: choices[0]["message"]["content"], stripped. */
  function ChoicesContent(vendor: string, body: Value): (r: Result<(string, Value), string>)
    ensures r.Ok? ==> body.VDict? && HasKey(body.entries, "choices") && Truthy(Get(body.entries, "choices").value)
    ensures r.Ok? ==> r.value.0 != "" && r.value.1.VDict?
    ensures body.VDict? && !(HasKey(body.entries, "choices") && Truthy(Get(body.entries, "choices").value)) ==>
      r == Err("No response from " + vendor)
  {
    match In("choices", body)
    case Err(m) => Err(m)
    case Ok(present) =>
      if !present then Err("No response from " + vendor)
      else
        match Key(body, "choices")
        case Err(m) => Err(m)
        case Ok(choices) =>
          if !Truthy(choices) then Err("No response from " + vendor)
          else
            match First(choices)
            case Err(m) => Err(m)
            case Ok(choice) =>
              match Key(choice, "message")
              case Err(m) => Err(m)
              case Ok(message) =>
                match Key(message, "content")
                case Err(m) => Err(m)
                case Ok(text) =>
                  match StripValue(text)
                  case Err(m) => Err(m)
                  case Ok(content) =>
                    if content == "" then Err("Empty response from " + vendor) else Ok((content, choice))
  }

  /** The OpenAI-style response, with the provider's name and the request time in the metadata. */
  function ChoicesResponse(vendor: string, name: string, model: Value, body: Value, elapsed: real): (r: Result<GenerationResponse, string>)
    ensures r.Ok? <==> ChoicesContent(vendor, body).Ok?
    ensures r.Ok? ==> r.value.content == ChoicesContent(vendor, body).value.0 && r.value.modelUsed == model
    ensures r.Ok? ==>
              r.value.metadata.Some? && |r.value.metadata.value| == 4
              && r.value.metadata.value[2] == ("generation_time", VFloat(elapsed))
              && r.value.metadata.value[3] == ("provider_name", VStr(name))
  {
    match ChoicesContent(vendor, body)
    case Err(m) => Err(m)
    case Ok((content, choice)) =>
      var es := body.entries;
      var usage := if HasKey(es, "usage") then Get(es, "usage").value else VDict([]);
      var finish := if HasKey(choice.entries, "finish_reason") then Get(choice.entries, "finish_reason").value else VNone;
      Ok(GenerationResponse(content, model, VNone, Some([
        ("usage", usage), ("finish_reason", finish),
        ("generation_time", VFloat(elapsed)), ("provider_name", VStr(name))])))
  }

  /** The messages list of an OpenAI-style chat payload. */
  const SystemPrompt := "You are a helpful assistant that generates clear, concise commit messages and PR descriptions based on git changes. Follow the template format provided and focus on the actual changes made."

  function ChatMessages(prompt: string): Value
  {
    VList([VDict([("role", VStr("system")), ("content", VStr(SystemPrompt))]),
           VDict([("role", VStr("user")), ("content", VStr(prompt))])])
  }
}
