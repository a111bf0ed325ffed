/**
 * The Ollama provider (src/gitai/providers/ollama.py): its configuration
 * checks and settings, its own prompt layout, the request payload and the
 * generate loop with linear back-off between attempts.
 */
module Ollama {
  import opened Wrappers
  import opened Dicts
  import opened Values
  import opened Strings
  import opened Errors
  import opened Python
  import opened ProviderBase

  /** The settings OllamaProvider.__init__ derives from its configuration. */
  datatype OllamaProvider = OllamaProvider(
    config: Dict<Value>, baseUrl: string, model: string, timeout: int, maxRetries: int, retryDelay: int)

  const DefaultBaseUrl := "http://localhost:11434"
  const DefaultModel := "llama3.1"

  predicate IsHttpUrl(s: string)
  {
    StartsWith(s, "http://") || StartsWith(s, "https://")
  }

  /** validate_config: each key is checked only when present. */
  function ValidateConfig(config: Dict<Value>): (r: Result<(), Error>)
    ensures r.Ok? <==>
              (HasKey(config, "base_url") ==> Get(config, "base_url").value.VStr? && IsHttpUrl(Get(config, "base_url").value.s))
              && (HasKey(config, "model") ==> Get(config, "model").value.VStr?)
              && (HasKey(config, "timeout") ==> Number(Get(config, "timeout").value).Some? && Number(Get(config, "timeout").value).value > 0.0)
    ensures r.Err? ==> r.error.kind == ProviderConfig
  {
    var url := Setting(config, "base_url", VStr(DefaultBaseUrl));
    var model := Setting(config, "model", VStr(DefaultModel));
    var timeout := Setting(config, "timeout", VInt(30));
    if HasKey(config, "base_url") && !(url.VStr? && IsHttpUrl(url.s)) then
      Err(Error(ProviderConfig, "base_url must be a valid HTTP/HTTPS URL"))
    else if HasKey(config, "model") && !model.VStr? then
      Err(Error(ProviderConfig, "model must be a string"))
    else if HasKey(config, "timeout") && !(Number(timeout).Some? && Number(timeout).value > 0.0) then
      Err(Error(ProviderConfig, "timeout must be a positive number"))
    else Ok(())
  }

  /**
   * OllamaProvider.__init__: the configuration is stored and validated,
   * then the settings are read with str() and int() (an int() that fails
   * raises ValueError or TypeError), and trailing slashes are cut from the URL.
   */
  function Create(config: Dict<Value>): (r: Result<OllamaProvider, Error>)
    ensures ValidateConfig(config).Err? ==> r == Err(ValidateConfig(config).error)
    ensures r.Ok? ==> ValidateConfig(config).Ok? && r.value.config == config
    ensures r.Ok? ==> |r.value.baseUrl| == 0 || r.value.baseUrl[|r.value.baseUrl| - 1] != '/'
    ensures r.Ok? ==> r.value.timeout >= 0
    ensures r.Ok? && !HasKey(config, "model") ==> r.value.model == DefaultModel
    ensures r.Ok? && HasKey(config, "model") ==> r.value.model == Get(config, "model").value.s
    ensures r.Err? ==> r.error.kind in {ProviderConfig, ValueError, TypeError}
  {
    match ValidateConfig(config)
    case Err(e) => Err(e)
    case Ok(_) =>
      var url := Str(Setting(config, "base_url", VStr(DefaultBaseUrl)));
      var model := Str(Setting(config, "model", VStr(DefaultModel)));
      match IntOf(Setting(config, "timeout", VInt(30)))
      case Err(e) => Err(e)
      case Ok(timeout) =>
        match IntOf(Setting(config, "max_retries", VInt(3)))
        case Err(e) => Err(e)
        case Ok(retries) =>
          match IntOf(Setting(config, "retry_delay", VInt(1)))
          case Err(e) => Err(e)
          case Ok(delay) =>
            assert timeout >= 0 by { TimeoutNonNegative(config); }
            Ok(OllamaProvider(config, RStripChars(url, {'/'}), model, timeout, retries, delay))
  }

  /** A validated timeout is a positive number, so int() of it is not negative. */
  lemma TimeoutNonNegative(config: Dict<Value>)
    requires ValidateConfig(config).Ok?
    requires IntOf(Setting(config, "timeout", VInt(30))).Ok?
    ensures IntOf(Setting(config, "timeout", VInt(30))).value >= 0
  {
    var t := Setting(config, "timeout", VInt(30));
    if t.VFloat? {
      assert t.f > 0.0;
    }
  }

  /** A configuration that sets none of the five settings is accepted, and each takes its default. */
  lemma CreateDefaults(config: Dict<Value>)
    requires !HasKey(config, "base_url") && !HasKey(config, "model") && !HasKey(config, "timeout")
    requires !HasKey(config, "max_retries") && !HasKey(config, "retry_delay")
    ensures Create(config) == Ok(OllamaProvider(config, DefaultBaseUrl, DefaultModel, 30, 3, 1))
  {
    assert RStripChars(DefaultBaseUrl, {'/'}) == DefaultBaseUrl by {
      assert DefaultBaseUrl[|DefaultBaseUrl| - 1] == '4';
    }
  }

  // ---------------------------------------------------------------------
  // prepare_prompt

  const Instruction := "\nPlease provide a concise, clear response. Avoid unnecessary explanations."

  /** The "- path: type (+added, -removed)" line of one changed file. */
  function FileText(es: Dict<Value>): string
  {
    "- " + Str(Setting(es, "path", VStr("unknown"))) + ": "
    + Str(Setting(es, "change_type", VStr("M"))) + " "
    + "(+" + Str(Setting(es, "lines_added", VInt(0))) + ", -" + Str(Setting(es, "lines_removed", VInt(0))) + ")\n"
  }

  /** The line of one changed file; .get fails on anything but a dict. */
  function FileLine(fc: Value): (r: Result<string, Error>)
    ensures r.Ok? <==> fc.VDict?
  {
    if fc.VDict? then Ok(FileText(fc.entries))
    else Err(Error(OtherError, "'" + TypeName(fc) + "' object has no attribute 'get'"))
  }

  /** Two parts in order; the first error wins. */
  function Then(a: Result<string, Error>, b: Result<string, Error>): (r: Result<string, Error>)
    ensures r.Ok? <==> a.Ok? && b.Ok?
  {
    if a.Err? then a else if b.Err? then b else Ok(a.value + b.value)
  }

  /** The lines of the given files in order; the first file that is no dict stops it. */
  function FileLines(files: seq<Value>): Result<string, Error>
  {
    if |files| == 0 then Ok("")
    else Then(FileLines(files[..|files| - 1]), FileLine(files[|files| - 1]))
  }

  lemma AllDictsSnoc(files: seq<Value>, init: seq<Value>)
    requires |files| > 0 && init == files[..|files| - 1]
    ensures (forall i :: 0 <= i < |files| ==> files[i].VDict?)
        <==> (forall i :: 0 <= i < |init| ==> init[i].VDict?) && files[|files| - 1].VDict?
  {
    assert forall i :: 0 <= i < |init| ==> init[i] == files[i];
  }

  /** The lines are written exactly when every file is a dict. */
  lemma {:induction false} FileLinesOk(files: seq<Value>)
    ensures FileLines(files).Ok? <==> forall i :: 0 <= i < |files| ==> files[i].VDict?
  {
    if |files| > 0 {
      var init := files[..|files| - 1];
      var last := files[|files| - 1];
      FileLinesOk(init);
      AllDictsSnoc(files, init);
      assert FileLines(files) == Then(FileLines(init), FileLine(last));
    }
  }

  function Min(a: int, b: int): int
  {
    if a < b then a else b
  }

  /** The header and the footer of the files part for n changed files. */
  function FilesHeader(n: nat): string
  {
    "\nFiles changed (" + NatToString(n) + "):\n"
  }

  function MoreFiles(n: nat): string
  {
    if n > 10 then "... and " + NatToString(n - 10) + " more files\n" else ""
  }

  /**
   * The files part: nothing when the key is absent or its value is falsy,
   * otherwise a header, the first ten files and a line counting the rest.
   * Only a list is modelled. Any other truthy value fails with one TypeError
   * here, where Python fails in different ways: a number has no len(), a dict
   * cannot be sliced, and the characters of a string have no `.get`
   * (AttributeError).
   */
  function FilesInfo(context: Dict<Value>): (r: Result<string, Error>)
    ensures !HasKey(context, "files_changed") ==> r == Ok("")
  {
    if !HasKey(context, "files_changed") then Ok("")
    else
      var fc := Get(context, "files_changed").value;
      if !Truthy(fc) then Ok("")
      else if !fc.VList? then Err(Error(TypeError, "files_changed of type '" + TypeName(fc) + "' is not a list of dicts"))
      else
        match FileLines(fc.items[..Min(|fc.items|, 10)])
        case Err(e) => Err(e)
        case Ok(lines) => Ok(FilesHeader(|fc.items|) + lines + MoreFiles(|fc.items|))
  }

  /** The repository, summary and statistics parts. */
  function RepoInfo(context: Dict<Value>): (r: Result<string, Error>)
    ensures !HasKey(context, "repository_info") ==> r == Ok("")
  {
    if !HasKey(context, "repository_info") then Ok("")
    else
      match GetOr(Get(context, "repository_info").value, "name", VStr("unknown"))
      case Err(m) => Err(Error(OtherError, m))
      case Ok(name) => Ok("\nRepository: " + Str(name) + "\n")
  }

  function SummaryInfo(context: Dict<Value>): string
  {
    if HasKey(context, "change_summary") then "\nSummary: " + Str(Get(context, "change_summary").value) + "\n" else ""
  }

  function StatsInfo(context: Dict<Value>): string
  {
    if HasKey(context, "total_additions") && HasKey(context, "total_deletions") then
      "\nStatistics: +" + Str(Get(context, "total_additions").value) + " -" + Str(Get(context, "total_deletions").value) + " lines\n"
    else ""
  }

  /** OllamaProvider.prepare_prompt, as a value: the parts in the order repository, summary, statistics, files. */
  function OllamaPrompt(prompt: string, context: Dict<Value>): (r: Result<string, Error>)
    ensures r.Ok? ==> StartsWith(r.value, prompt + "\n") && EndsWith(r.value, Instruction)
  {
    match FilesInfo(context)
    case Err(e) => Err(e)
    case Ok(files) =>
      match RepoInfo(context)
      case Err(e) => Err(e)
      case Ok(repo) =>
        var head := prompt + "\n";
        var body := repo + SummaryInfo(context) + StatsInfo(context) + files;
        var whole := head + body + Instruction;
        assert whole[..|head|] == head;
        assert whole[|whole| - |Instruction|..] == Instruction;
        Ok(whole)
  }

  /** Files after the tenth change only the count in the "... and N more files" line. */
  lemma OnlyFirstTenFilesListed(c1: Dict<Value>, c2: Dict<Value>, xs: seq<Value>, ys: seq<Value>)
    requires !HasKey(c1, "files_changed") && !HasKey(c2, "files_changed")
    requires |xs| == |ys| && xs[..Min(|xs|, 10)] == ys[..Min(|ys|, 10)]
    ensures FilesInfo(c1 + [("files_changed", VList(xs))]) == FilesInfo(c2 + [("files_changed", VList(ys))])
  {
    GetAppend(c1, [("files_changed", VList(xs))], "files_changed");
    GetAppend(c2, [("files_changed", VList(ys))], "files_changed");
  }

  /** The loop of prepare_prompt over the first ten files. */
  method ListFiles(files: seq<Value>) returns (r: Result<string, Error>)
    ensures r == FileLines(files[..Min(|files|, 10)])
  {
    var shown := files[..Min(|files|, 10)];
    var text := "";
    var i := 0;
    while i < |shown|
      invariant 0 <= i <= |shown|
      invariant FileLines(shown[..i]) == Ok(text)
    {
      assert shown[..i + 1][..i] == shown[..i];
      match FileLine(shown[i])
      case Err(e) =>
        FileLinesStopAt(shown, i);
        return Err(e);
      case Ok(line) =>
        text := text + line;
      i := i + 1;
    }
    assert shown[..i] == shown;
    r := Ok(text);
  }

  /** A failing line at i makes every longer prefix fail with that line's error. */
  lemma {:induction false} FileLinesStopAt(files: seq<Value>, i: nat)
    requires i < |files| && FileLines(files[..i]).Ok? && FileLine(files[i]).Err?
    ensures FileLines(files) == Err(FileLine(files[i]).error)
    decreases |files|
  {
    var init := files[..|files| - 1];
    if i == |files| - 1 {
      assert init == files[..i];
    } else {
      assert init[..i] == files[..i];
      FileLinesStopAt(init, i);
    }
  }

  /** OllamaProvider.prepare_prompt */
  method PreparePrompt(prompt: string, context: Dict<Value>) returns (r: Result<string, Error>)
    ensures r == OllamaPrompt(prompt, context)
  {
    var filesInfo := "";
    if HasKey(context, "files_changed") {
      var fc := Get(context, "files_changed").value;
      if Truthy(fc) {
        if !fc.VList? {
          return Err(Error(TypeError, "files_changed of type '" + TypeName(fc) + "' is not a list of dicts"));
        }
        var listed := ListFiles(fc.items);
        if listed.Err? {
          return Err(listed.error);
        }
        filesInfo := FilesHeader(|fc.items|) + listed.value + MoreFiles(|fc.items|);
      }
    }
    var statsInfo := StatsInfo(context);
    var summaryInfo := SummaryInfo(context);
    var repoInfo := RepoInfo(context);
    if repoInfo.Err? {
      return Err(repoInfo.error);
    }
    var finalPrompt := prompt + "\n" + (repoInfo.value + summaryInfo + statsInfo + filesInfo);
    finalPrompt := finalPrompt + Instruction;
    return Ok(finalPrompt);
  }

  // ---------------------------------------------------------------------
  // generate

  const UnavailableText := "Ollama is not available or not responding"
  const ExhaustedText := "Generation failed after all retries"
  const SleepErrorText := "sleep length must be non-negative"

  /**
   * request.model or self.model: the model is the request's or the provider's, a non-empty
   * request model wins, and the model is empty only when the provider's own is.
   */
  function ModelFor(p: OllamaProvider, request: GenerationRequest): (m: string)
    ensures m == p.model || (request.model.Some? && m == request.model.value)
    ensures request.model.Some? && request.model.value != "" ==> m == request.model.value
    ensures m == "" ==> p.model == ""
  {
    if request.model.Some? && request.model.value != "" then request.model.value else p.model
  }

  /** The options of the payload: num_predict for a non-zero max_tokens, temperature when given. */
  function Options(request: GenerationRequest): (o: Dict<Value>)
    ensures |o| == 0 <==> !(request.maxTokens.Some? && request.maxTokens.value != 0) && request.temperature.None?
  {
    var o := if request.maxTokens.Some? && request.maxTokens.value != 0 then [("num_predict", VInt(request.maxTokens.value))] else [];
    if request.temperature.Some? then Put(o, "temperature", VFloat(request.temperature.value)) else o
  }

  /** The JSON body of the POST to /api/generate. */
  function Payload(model: string, finalPrompt: string, request: GenerationRequest): (d: Dict<Value>)
    ensures |d| >= 3 && d[..3] == [("model", VStr(model)), ("prompt", VStr(finalPrompt)), ("stream", VBool(false))]
    ensures |d| == 3 <==> |Options(request)| == 0
    ensures |d| == 4 ==> d[3] == ("options", VDict(Options(request)))
  {
    var base := [("model", VStr(model)), ("prompt", VStr(finalPrompt)), ("stream", VBool(false))];
    var o := Options(request);
    if |o| == 0 then base else base + [("options", VDict(o))]
  }

  /** The response built from a reply holding a non-blank "response" text; the error text otherwise. */
  function Reply(model: string, body: Value, elapsed: real): (r: Result<GenerationResponse, string>)
    ensures r.Ok? <==> body.VDict? && HasKey(body.entries, "response")
                       && Get(body.entries, "response").value.VStr? && Strip(Get(body.entries, "response").value.s) != ""
    ensures r.Ok? ==> r.value.content == Strip(Get(body.entries, "response").value.s) && r.value.modelUsed == VStr(model)
    ensures body.VDict? && !HasKey(body.entries, "response") ==> r == Err("Invalid response format from Ollama")
  {
    match In("response", body)
    case Err(m) => Err(m)
    case Ok(present) =>
      if !present then Err("Invalid response format from Ollama")
      else
        match Key(body, "response")
        case Err(m) => Err(m)
        case Ok(text) =>
          match StripValue(text)
          case Err(m) => Err(m)
          case Ok(content) =>
            if content == "" then Err("Empty response from Ollama")
            else
              var es := body.entries;
              Ok(GenerationResponse(content, VStr(model), Setting(es, "eval_count", VNone), Some([
                ("generation_time", VFloat(elapsed)),
                ("eval_duration", Setting(es, "eval_duration", VNone)),
                ("total_duration", Setting(es, "total_duration", VNone))])))
  }

  /** One attempt: the response, or the error the matching handler records. */
  function Step(p: OllamaProvider, model: string, o: Outcome): (r: Result<GenerationResponse, Error>)
    ensures o.TimedOut? ==> r.Err? && r.error.kind == GenerationTimeout
    ensures o.ConnectionFailed? ==> r.Err? && r.error.kind == ProviderUnavailable
    ensures o.Replied? ==> (r.Ok? <==> Reply(model, o.body, o.elapsed).Ok?)
  {
    match o
    case Replied(body, elapsed) =>
      (match Reply(model, body, elapsed)
       case Ok(resp) => Ok(resp)
       case Err(m) => Err(Error(Provider, "Unexpected error: " + m)))
    case TimedOut(_) => Err(Error(GenerationTimeout, "Ollama request timed out after " + IntToString(p.timeout) + "s"))
    case ConnectionFailed(m) => Err(Error(ProviderUnavailable, "Could not connect to Ollama: " + m))
    case RequestFailed(m) => Err(Error(Provider, "Ollama request failed: " + m))
    case Crashed(m) => Err(Error(Provider, "Unexpected error: " + m))
  }

  /** The first n attempts, each POSTing the payload. */
  function Steps(p: OllamaProvider, model: string, payload: Dict<Value>, posts: (Dict<Value>, nat) -> Outcome, n: nat)
    : (s: seq<Result<GenerationResponse, Error>>)
    ensures |s| == n && forall i :: 0 <= i < n ==> s[i] == Step(p, model, posts(payload, i))
  {
    if n == 0 then [] else Steps(p, model, payload, posts, n - 1) + [Step(p, model, posts(payload, n - 1))]
  }

  function Attempts(p: OllamaProvider): nat
  {
    if p.maxRetries > 0 then p.maxRetries else 0
  }

  /**
   * The attempts of generate: the retry discipline with a pause of
   * retry_delay * (attempt + 1) after each failed attempt but the last; a
   * negative delay makes the first pause raise ValueError.
   */
  function Backoff(retryDelay: int, steps: seq<Result<GenerationResponse, Error>>): Run
  {
    if retryDelay < 0 && |steps| > 1 && steps[0].Err? then Run(Err(Error(ValueError, SleepErrorText)), 1, [])
    else
      var made := PostsMade(steps);
      Run(Retry(steps, Error(Provider, ExhaustedText)), made, LinearBackoff(retryDelay, if made > 0 then made - 1 else 0))
  }

  /** OllamaProvider.generate, as a value of the health check and the replies to each POST. */
  function Generate(p: OllamaProvider, request: GenerationRequest, healthy: bool, posts: (Dict<Value>, nat) -> Outcome): Run
  {
    if !healthy then Run(Err(Error(ProviderUnavailable, UnavailableText)), 0, [])
    else
      match OllamaPrompt(request.prompt, request.context)
      case Err(e) => Run(Err(e), 0, [])
      case Ok(finalPrompt) =>
        var model := ModelFor(p, request);
        Backoff(p.retryDelay, Steps(p, model, Payload(model, finalPrompt, request), posts, Attempts(p)))
  }

  /** OllamaProvider.generate */
  method GenerateLoop(p: OllamaProvider, request: GenerationRequest, healthy: bool, posts: (Dict<Value>, nat) -> Outcome)
    returns (r: Result<GenerationResponse, Error>, sent: nat, sleeps: seq<int>)
    ensures Run(r, sent, sleeps) == Generate(p, request, healthy, posts)
  {
    if !healthy {
      return Err(Error(ProviderUnavailable, UnavailableText)), 0, [];
    }
    var prepared := PreparePrompt(request.prompt, request.context);
    if prepared.Err? {
      return Err(prepared.error), 0, [];
    }
    var model := ModelFor(p, request);
    var payload := Payload(model, prepared.value, request);
    var step := (i: nat) => Step(p, model, posts(payload, i));
    r, sent, sleeps := Attempt(step, Attempts(p), p.retryDelay);
    assert Tries(step, Attempts(p)) == Steps(p, model, payload, posts, Attempts(p));
  }

  /** The retry loop of generate, over what each attempt comes to. */
  method Attempt(step: nat -> Result<GenerationResponse, Error>, n: nat, retryDelay: int)
    returns (r: Result<GenerationResponse, Error>, sent: nat, sleeps: seq<int>)
    ensures Run(r, sent, sleeps) == Backoff(retryDelay, Tries(step, n))
  {
    ghost var steps := Tries(step, n);
    var exhausted := Error(Provider, ExhaustedText);
    var lastError: Option<Error> := None;
    sent, sleeps := 0, [];
    var attempt := 0;
    while attempt < n
      invariant 0 <= attempt <= n && sent == attempt
      invariant forall i :: 0 <= i < attempt ==> steps[i].Err?
      invariant attempt == 0 <==> lastError.None?
      invariant attempt > 0 ==> lastError == Some(steps[attempt - 1].error)
      invariant attempt > 0 && n > 1 ==> retryDelay >= 0
      invariant sleeps == LinearBackoff(retryDelay, if attempt == n && n > 0 then attempt - 1 else attempt)
    {
      var result := step(attempt);
      sent := sent + 1;
      if result.Ok? {
        RetryFirstSuccess(steps, exhausted, attempt);
        return result, sent, sleeps;
      }
      lastError := Some(result.error);
      if attempt < n - 1 {
        if retryDelay * (attempt + 1) < 0 {
          return Err(Error(ValueError, SleepErrorText)), sent, [];
        }
        sleeps := sleeps + [retryDelay * (attempt + 1)];
      }
      attempt := attempt + 1;
    }
    RetryAllFail(steps, exhausted);
    if lastError.Some? {
      r := Err(lastError.value);
    } else {
      r := Err(exhausted);
    }
  }

  /** The first successful attempt's response is returned, after that many POSTs and one pause fewer. */
  lemma FirstSuccessWins(p: OllamaProvider, request: GenerationRequest, posts: (Dict<Value>, nat) -> Outcome, finalPrompt: string, j: nat)
    requires OllamaPrompt(request.prompt, request.context) == Ok(finalPrompt)
    requires j < Attempts(p) && (p.retryDelay >= 0 || j == 0)
    requires Step(p, ModelFor(p, request), posts(Payload(ModelFor(p, request), finalPrompt, request), j)).Ok?
    requires forall i :: 0 <= i < j ==> Step(p, ModelFor(p, request), posts(Payload(ModelFor(p, request), finalPrompt, request), i)).Err?
    ensures Generate(p, request, true, posts).result == Step(p, ModelFor(p, request), posts(Payload(ModelFor(p, request), finalPrompt, request), j))
    ensures Generate(p, request, true, posts).attempts == j + 1
    ensures Generate(p, request, true, posts).pauses == LinearBackoff(p.retryDelay, j)
  {
    var model := ModelFor(p, request);
    var steps := Steps(p, model, Payload(model, finalPrompt, request), posts, Attempts(p));
    RetryFirstSuccess(steps, Error(Provider, ExhaustedText), j);
  }

  /** When every attempt fails, max_retries POSTs are made and the last attempt's error is raised. */
  lemma AllAttemptsFail(p: OllamaProvider, request: GenerationRequest, posts: (Dict<Value>, nat) -> Outcome, finalPrompt: string)
    requires OllamaPrompt(request.prompt, request.context) == Ok(finalPrompt)
    requires Attempts(p) > 0 && p.retryDelay >= 0
    requires forall i :: 0 <= i < Attempts(p) ==> Step(p, ModelFor(p, request), posts(Payload(ModelFor(p, request), finalPrompt, request), i)).Err?
    ensures Generate(p, request, true, posts).result
              == Step(p, ModelFor(p, request), posts(Payload(ModelFor(p, request), finalPrompt, request), Attempts(p) - 1))
    ensures Generate(p, request, true, posts).attempts == Attempts(p)
    ensures |Generate(p, request, true, posts).pauses| == Attempts(p) - 1
  {
    var model := ModelFor(p, request);
    var steps := Steps(p, model, Payload(model, finalPrompt, request), posts, Attempts(p));
    RetryAllFail(steps, Error(Provider, ExhaustedText));
  }

  /** With max_retries at most 0 no POST is made and the generic error is raised. */
  lemma NoAttempts(p: OllamaProvider, request: GenerationRequest, posts: (Dict<Value>, nat) -> Outcome)
    requires OllamaPrompt(request.prompt, request.context).Ok? && p.maxRetries <= 0
    ensures Generate(p, request, true, posts) == Run(Err(Error(Provider, ExhaustedText)), 0, [])
  {
  }

  /** Whatever the replies, generate never makes more than max_retries POSTs. */
  lemma AttemptsBounded(p: OllamaProvider, request: GenerationRequest, healthy: bool, posts: (Dict<Value>, nat) -> Outcome)
    ensures Generate(p, request, healthy, posts).attempts <= Attempts(p)
  {
  }
}
