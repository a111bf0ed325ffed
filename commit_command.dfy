/**
 * The commit command (src/gitai/commands/commit.py): the checks in order,
 * the fallbacks of the template and of the provider configuration, the
 * fallback prompt, the preview text, and the mapping of git's failures to
 * the tool's errors. The repository, the template manager, the provider
 * and git are answers fixed in a CommitWorld.
 */
module CommitCommand {
  import opened Wrappers
  import opened Dicts
  import opened Values
  import opened Strings
  import opened Errors
  import opened ChangeModels
  import ConfigModels
  import Validation

  // ---------------------------------------------------------------------
  // _build_fallback_prompt

  function FallbackIntro(template: string): string
  {
    "Generate a commit message using the '" + template + "' style for the following changes.\n\n"
  }

  /** The counts and the change summary, which every fallback prompt carries. */
  function FiguresBlock(a: DiffAnalysis): string
  {
    "Files changed: " + IntToString(|a.filesChanged|) + "\nLines added: " + IntToString(a.totalAdditions)
      + "\nLines removed: " + IntToString(a.totalDeletions) + "\n\nChange summary: " + a.changeSummary
  }

  const FallbackClosing := "\n\nMake it clear, concise, and descriptive."
  const ConventionalHint :=
    "\n\nUse conventional commit format: type(scope): description\n"
    + "Where type is one of: feat, fix, docs, style, refactor, test, chore"
  const MinimalHint := "\n\nKeep it under 50 characters and use present tense."

  /** The style instruction appended for the two built-in templates; other names get none. */
  function StyleHint(template: string): (h: string)
    ensures h != "" <==> template == "conventional" || template == "minimal"
  {
    if template == "conventional" then ConventionalHint
    else if template == "minimal" then MinimalHint
    else ""
  }

  /**
   * _build_fallback_prompt: the introduction naming the template, the
   * figures of the analysis, the closing request, then the style hint.
   */
  function FallbackPrompt(template: string, a: DiffAnalysis): (r: string)
    ensures StartsWith(r, FallbackIntro(template))
    ensures OccursAt(r, FiguresBlock(a), |FallbackIntro(template)|)
    ensures EndsWith(r, FallbackClosing + StyleHint(template))
    ensures template != "conventional" && template != "minimal" ==> EndsWith(r, FallbackClosing)
  {
    ConcatParts(FallbackIntro(template), FiguresBlock(a), FallbackClosing + StyleHint(template));
    FallbackIntro(template) + FiguresBlock(a) + (FallbackClosing + StyleHint(template))
  }

  // ---------------------------------------------------------------------
  // _format_preview

  function PreviewHeader(template: string, provider: string): string
  {
    "Generated Commit Message (template: " + template + ", provider: " + provider + "):\n\n"
  }

  const PreviewFooter := "\n\nRun without --preview to apply this commit message."

  /** _format_preview: the message verbatim between the header and the footer. */
  function FormatPreview(message: string, template: string, provider: string): (r: string)
    ensures StartsWith(r, PreviewHeader(template, provider)) && EndsWith(r, PreviewFooter)
    ensures |r| == |PreviewHeader(template, provider)| + |message| + |PreviewFooter|
    ensures r[|PreviewHeader(template, provider)|..|r| - |PreviewFooter|] == message
  {
    ConcatParts(PreviewHeader(template, provider), message, PreviewFooter);
    PreviewHeader(template, provider) + message + PreviewFooter
  }

  /** Reading the message back out of a preview for the given template and provider. */
  function PreviewedMessage(text: string, template: string, provider: string): (m: Option<string>)
    ensures m.Some? ==> StartsWith(text, PreviewHeader(template, provider)) && EndsWith(text, PreviewFooter)
  {
    var h := PreviewHeader(template, provider);
    if |h| + |PreviewFooter| <= |text| && StartsWith(text, h) && EndsWith(text, PreviewFooter)
    then Some(text[|h|..|text| - |PreviewFooter|])
    else None
  }

  /** The preview gives back exactly the message it was made from. */
  lemma PreviewRoundTrip(message: string, template: string, provider: string)
    ensures PreviewedMessage(FormatPreview(message, template, provider), template, provider) == Some(message)
  {
  }

  // ---------------------------------------------------------------------
  // _apply_commit

  /** How one `git` subprocess ended: exit status 0, a non-zero status with its stderr, or another exception. */
  datatype GitRun = Completed | Failed(stderr: string) | Crashed(message: string)

  const NothingToCommitText := "Nothing to commit. Use 'git add' to stage files first."
  const NotRepositoryText := "Not in a git repository"

  /** The handlers of _apply_commit: stderr is searched in this order, and other exceptions are wrapped. */
  function GitFailure(run: GitRun): (e: Error)
    requires !run.Completed?
    ensures IsA(e.kind, GitAI)
    ensures run.Failed? && Contains(run.stderr, "nothing to commit") ==> e == Error(GitAI, NothingToCommitText)
    ensures e.kind == InvalidRepository <==>
              run.Failed? && !Contains(run.stderr, "nothing to commit") && Contains(run.stderr, "not a git repository")
    ensures e.kind == InvalidRepository ==> e.message == NotRepositoryText
    ensures run.Failed? && !Contains(run.stderr, "nothing to commit") && !Contains(run.stderr, "not a git repository") ==>
              e == Error(GitAI, "Git commit failed: " + Strip(run.stderr))
    ensures run.Crashed? ==> e == Error(GitAI, "Failed to apply commit: " + run.message)
  {
    match run
    case Failed(stderr) =>
      if Contains(stderr, "nothing to commit") then Error(GitAI, NothingToCommitText)
      else if Contains(stderr, "not a git repository") then Error(InvalidRepository, NotRepositoryText)
      else Error(GitAI, "Git commit failed: " + Strip(stderr))
    case Crashed(message) => Error(GitAI, "Failed to apply commit: " + message)
  }

  /** _apply_commit: `git rev-parse --git-dir`, then `git commit -m`, each checked. */
  function ApplyCommit(revParse: GitRun, commit: GitRun): (r: Result<(), Error>)
    ensures r.Ok? <==> revParse.Completed? && commit.Completed?
    ensures !revParse.Completed? ==> r == Err(GitFailure(revParse))
    ensures revParse.Completed? && !commit.Completed? ==> r == Err(GitFailure(commit))
  {
    if !revParse.Completed? then Err(GitFailure(revParse))
    else if !commit.Completed? then Err(GitFailure(commit))
    else Ok(())
  }

  // ---------------------------------------------------------------------
  // The provider configuration

  const OpenAIFallbackModel := "gpt-3.5-turbo"
  const AnthropicFallbackModel := "claude-3-haiku-20240307"
  const OllamaFallbackModel := "qwen2.5:7b"
  const OllamaFallbackUrl := "http://localhost:11434"

  /** The configuration used for a provider that is not configured; any other name gets Ollama's. */
  function ProviderDefaults(provider: string): (d: Dict<Value>)
    ensures DistinctKeys(d) && |d| == 3
    ensures Get(d, "timeout") == Some(VInt(30))
    ensures provider == "openai" ==> Get(d, "model") == Some(VStr(OpenAIFallbackModel)) && Get(d, "api_key") == Some(VNone)
    ensures provider == "anthropic" ==>
              Get(d, "model") == Some(VStr(AnthropicFallbackModel)) && Get(d, "api_key") == Some(VNone)
    ensures provider != "openai" && provider != "anthropic" ==>
              Get(d, "model") == Some(VStr(OllamaFallbackModel)) && Get(d, "base_url") == Some(VStr(OllamaFallbackUrl))
  {
    var d :=
      if provider == "openai" then [("api_key", VNone), ("model", VStr(OpenAIFallbackModel)), ("timeout", VInt(30))]
      else if provider == "anthropic" then [("api_key", VNone), ("model", VStr(AnthropicFallbackModel)), ("timeout", VInt(30))]
      else [("base_url", VStr(OllamaFallbackUrl)), ("model", VStr(OllamaFallbackModel)), ("timeout", VInt(30))];
    assert DistinctKeys(d);
    GetAt(d, 0);
    GetAt(d, 1);
    GetAt(d, 2);
    d
  }

  /** The handler around get_provider_config: ValueError and KeyError fall back to the defaults. */
  function ConfigFor(provider: string, configured: Result<Dict<Value>, Error>): (r: Result<Dict<Value>, Error>)
    ensures r.Err? ==> configured.Err? && r == configured && configured.error.kind != ValueError && configured.error.kind != KeyError
    ensures configured.Err? && (configured.error.kind == ValueError || configured.error.kind == KeyError) ==>
              r == Ok(ProviderDefaults(provider))
    ensures configured.Ok? ==> r == configured
  {
    match configured
    case Ok(d) => Ok(d)
    case Err(e) => if e.kind == ValueError || e.kind == KeyError then Ok(ProviderDefaults(provider)) else Err(e)
  }

  /** A configured provider keeps its merged configuration; any other name gets the defaults. */
  lemma ConfigForConfig(c: ConfigModels.GitAIConfig, provider: string)
    ensures ConfigFor(provider, ConfigModels.ProviderConfigOf(c, provider)).Ok?
    ensures HasKey(c.providers, provider) ==>
              ConfigFor(provider, ConfigModels.ProviderConfigOf(c, provider)) == ConfigModels.ProviderConfigOf(c, provider)
    ensures !HasKey(c.providers, provider) ==>
              ConfigFor(provider, ConfigModels.ProviderConfigOf(c, provider)) == Ok(ProviderDefaults(provider))
  {
  }

  // ---------------------------------------------------------------------
  // The errors that leave a command

  /**
   * The handlers around a command's body: errors of the tool's own
   * hierarchy are re-raised unchanged, any other is wrapped in a GitAIError
   * with the helpful message for the command's context.
   */
  function Surface(e: Error, context: string): (r: Error)
    ensures IsA(r.kind, GitAI)
    ensures IsA(e.kind, GitAI) ==> r == e
    ensures !IsA(e.kind, GitAI) ==> r == Error(GitAI, Validation.HelpfulErrorMessage(e, context))
  {
    if IsA(e.kind, GitAI) then e else Error(GitAI, Validation.HelpfulErrorMessage(e, context))
  }

  // ---------------------------------------------------------------------
  // handle_commit

  /**
   * The answers of everything handle_commit calls: validate_git_repository,
   * the factory's provider names (None when it cannot be imported),
   * validate_has_staged_changes, load_config, get_staged_changes, whether
   * validate_template accepts a name, render_template of a name, the
   * factory and generate (the reply's content for a provider name, its
   * configuration and the prompt), and the two git runs (the commit one
   * for a given message).
   */
  datatype CommitWorld = CommitWorld(
    repository: Option<Error>,
    providerNames: Option<seq<string>>,
    staged: Option<Error>,
    configLoad: Option<Error>,
    providerConfig: string -> Result<Dict<Value>, Error>,
    analysis: Result<DiffAnalysis, Error>,
    templateValid: string -> bool,
    render: string -> Result<string, Error>,
    generate: (string, Dict<Value>, string) -> Result<string, Error>,
    revParse: GitRun,
    commit: string -> GitRun)

  /** What the command has decided when it calls the provider. */
  datatype Job = Job(template: string, provider: string, analysis: DiffAnalysis, prompt: string, config: Dict<Value>)

  const CommitContext := "Commit generation failed"

  /** The template after the existence check: an unknown one falls back to "conventional". */
  function ChosenTemplate(template: string, valid: string -> bool, default: string): (t: string)
    ensures t == template || t == default
    ensures t == template <==> valid(template) || template == default
  {
    if valid(template) then template else default
  }

  /**
   * The prompt: the rendered template verbatim; when rendering fails, a prompt that opens with
   * the template's name, carries the change figures and closes with the template's style hint.
   */
  function PromptFor(template: string, a: DiffAnalysis, render: string -> Result<string, Error>): (p: string)
    ensures render(template).Ok? ==> p == render(template).value
    ensures render(template).Err? ==> StartsWith(p, FallbackIntro(template))
                                      && OccursAt(p, FiguresBlock(a), |FallbackIntro(template)|)
                                      && EndsWith(p, FallbackClosing + StyleHint(template))
    ensures render(template).Err? ==> p == FallbackPrompt(template, a)
  {
    match render(template)
    case Ok(rendered) => rendered
    case Err(_) => FallbackPrompt(template, a)
  }

  /** Steps 1 to 5 of handle_commit: the checks, the analysis, the prompt and the provider configuration. */
  function Prepare(template: string, provider: string, includeUntracked: bool, w: CommitWorld): (r: Result<Job, Error>)
    ensures w.repository.Some? ==> r == Err(w.repository.value)
    ensures r.Ok? ==> w.repository.None? && w.configLoad.None? && w.analysis.Ok? && r.value.analysis == w.analysis.value
    ensures r.Ok? ==> Validation.ValidateTemplateName(template).Ok?
                      && Validation.ValidateProviderName(provider, w.providerNames) == Ok(r.value.provider)
    ensures r.Ok? ==> !includeUntracked ==> w.staged.None?
    ensures r.Ok? ==> r.value.template == ChosenTemplate(Validation.ValidateTemplateName(template).value, w.templateValid, "conventional")
    ensures r.Ok? ==> r.value.prompt == PromptFor(r.value.template, r.value.analysis, w.render)
    ensures r.Ok? ==> ConfigFor(r.value.provider, w.providerConfig(r.value.provider)) == Ok(r.value.config)
  {
    if w.repository.Some? then Err(w.repository.value)
    else
      match Validation.ValidateTemplateName(template)
      case Err(e) => Err(e)
      case Ok(t) =>
        match Validation.ValidateProviderName(provider, w.providerNames)
        case Err(e) => Err(e)
        case Ok(p) =>
          if !includeUntracked && w.staged.Some? then Err(w.staged.value)
          else
            if w.configLoad.Some? then Err(w.configLoad.value)
            else
              match w.analysis
              case Err(e) => Err(e)
              case Ok(a) =>
                var chosen := ChosenTemplate(t, w.templateValid, "conventional");
                match ConfigFor(p, w.providerConfig(p))
                case Err(e) => Err(e)
                case Ok(cfg) => Ok(Job(chosen, p, a, PromptFor(chosen, a, w.render), cfg))
  }

  /** The body of handle_commit's try block: the prepared request, the stripped reply, then preview or commit. */
  function Outcome(template: string, provider: string, preview: bool, includeUntracked: bool, w: CommitWorld)
    : Result<Option<string>, Error>
  {
    match Prepare(template, provider, includeUntracked, w)
    case Err(e) => Err(e)
    case Ok(job) =>
      match w.generate(job.provider, job.config, job.prompt)
      case Err(e) => Err(e)
      case Ok(content) =>
        var message := Strip(content);
        if preview then Ok(Some(FormatPreview(message, job.template, job.provider)))
        else
          match ApplyCommit(w.revParse, w.commit(message))
          case Err(e) => Err(e)
          case Ok(_) => Ok(None)
  }

  /** handle_commit: the outcome, with any error surfaced as a GitAIError. */
  function Commit(template: string, provider: string, preview: bool, includeUntracked: bool, w: CommitWorld)
    : (r: Result<Option<string>, Error>)
    ensures r.Err? ==> IsA(r.error.kind, GitAI)
  {
    match Outcome(template, provider, preview, includeUntracked, w)
    case Ok(o) => Ok(o)
    case Err(e) => Err(Surface(e, CommitContext))
  }

  /** handle_commit, reassigning the template and the provider configuration as the code does. */
  method HandleCommit(template: string, provider: string, preview: bool, includeUntracked: bool, w: CommitWorld)
    returns (r: Result<Option<string>, Error>)
    ensures r == Commit(template, provider, preview, includeUntracked, w)
  {
    var outcome := CommitSteps(template, provider, preview, includeUntracked, w);
    if outcome.Err? {
      return Err(Surface(outcome.error, CommitContext));
    }
    r := outcome;
  }

  /** The try block of handle_commit: the prepared request, then the reply and what is done with it. */
  method CommitSteps(template: string, provider: string, preview: bool, includeUntracked: bool, w: CommitWorld)
    returns (r: Result<Option<string>, Error>)
    ensures r == Outcome(template, provider, preview, includeUntracked, w)
  {
    var job := PrepareJob(template, provider, includeUntracked, w);
    if job.Err? {
      return Err(job.error);
    }
    var Job(name, providerName, _, prompt, providerConfig) := job.value;
    var reply := w.generate(providerName, providerConfig, prompt);
    if reply.Err? {
      return Err(reply.error);
    }
    var message := Strip(reply.value);
    if preview {
      return Ok(Some(FormatPreview(message, name, providerName)));
    }
    var applied := ApplyCommit(w.revParse, w.commit(message));
    if applied.Err? {
      return Err(applied.error);
    }
    r := Ok(None);
  }

  /** Steps 1 to 5 of handle_commit's try block. */
  method PrepareJob(template: string, provider: string, includeUntracked: bool, w: CommitWorld)
    returns (r: Result<Job, Error>)
    ensures r == Prepare(template, provider, includeUntracked, w)
  {
    if w.repository.Some? {
      return Err(w.repository.value);
    }
    var validTemplate := Validation.ValidateTemplateName(template);
    if validTemplate.Err? {
      return Err(validTemplate.error);
    }
    var name := validTemplate.value;
    var validProvider := Validation.ValidateProviderName(provider, w.providerNames);
    if validProvider.Err? {
      return Err(validProvider.error);
    }
    var providerName := validProvider.value;
    if !includeUntracked && w.staged.Some? {
      return Err(w.staged.value);
    }
    if w.configLoad.Some? {
      return Err(w.configLoad.value);
    }
    if w.analysis.Err? {
      return Err(w.analysis.error);
    }
    var analysis := w.analysis.value;
    if !w.templateValid(name) {
      name := "conventional";
    }
    var prompt;
    var rendered := w.render(name);
    if rendered.Ok? {
      prompt := rendered.value;
    } else {
      prompt := FallbackPrompt(name, analysis);
    }
    var providerConfig: Dict<Value>;
    var configured := w.providerConfig(providerName);
    if configured.Ok? {
      providerConfig := configured.value;
    } else if configured.error.kind == ValueError || configured.error.kind == KeyError {
      providerConfig := ProviderDefaults(providerName);
    } else {
      return Err(configured.error);
    }
    r := Ok(Job(name, providerName, analysis, prompt, providerConfig));
  }

  /** With include_untracked the staged-changes check is skipped, so its answer does not matter. */
  lemma UntrackedSkipsStagedCheck(template: string, provider: string, preview: bool, w: CommitWorld, staged: Option<Error>)
    ensures Commit(template, provider, preview, true, w) == Commit(template, provider, preview, true, w.(staged := staged))
  {
    assert Prepare(template, provider, true, w) == Prepare(template, provider, true, w.(staged := staged));
  }

  /** Outside a repository nothing else is looked at: the repository error is raised as it is. */
  lemma OutsideRepository(template: string, provider: string, preview: bool, includeUntracked: bool, w: CommitWorld)
    requires w.repository.Some? && IsA(w.repository.value.kind, GitAI)
    ensures Commit(template, provider, preview, includeUntracked, w) == Err(w.repository.value)
  {
  }

  /** A preview shows the stripped reply, which reads back from it, and nothing is committed. */
  lemma PreviewShowsStrippedReply(template: string, provider: string, includeUntracked: bool, w: CommitWorld)
    requires Prepare(template, provider, includeUntracked, w).Ok?
    requires var job := Prepare(template, provider, includeUntracked, w).value;
      w.generate(job.provider, job.config, job.prompt).Ok?
    ensures var job := Prepare(template, provider, includeUntracked, w).value;
      var content := w.generate(job.provider, job.config, job.prompt).value;
      Commit(template, provider, true, includeUntracked, w) == Ok(Some(FormatPreview(Strip(content), job.template, job.provider)))
      && PreviewedMessage(Commit(template, provider, true, includeUntracked, w).value.value, job.template, job.provider)
         == Some(Strip(content))
  {
    var job := Prepare(template, provider, includeUntracked, w).value;
    var content := w.generate(job.provider, job.config, job.prompt).value;
    PreviewRoundTrip(Strip(content), job.template, job.provider);
  }

  /** Without preview the stripped reply is committed; git's failures reach the caller as mapped. */
  lemma CommitAppliesStrippedReply(template: string, provider: string, includeUntracked: bool, w: CommitWorld)
    requires Prepare(template, provider, includeUntracked, w).Ok?
    requires var job := Prepare(template, provider, includeUntracked, w).value;
      w.generate(job.provider, job.config, job.prompt).Ok?
    ensures var job := Prepare(template, provider, includeUntracked, w).value;
      var message := Strip(w.generate(job.provider, job.config, job.prompt).value);
      var applied := ApplyCommit(w.revParse, w.commit(message));
      Commit(template, provider, false, includeUntracked, w) == (if applied.Ok? then Ok(None) else Err(applied.error))
  {
    var job := Prepare(template, provider, includeUntracked, w).value;
    var message := Strip(w.generate(job.provider, job.config, job.prompt).value);
    var applied := ApplyCommit(w.revParse, w.commit(message));
    if applied.Err? {
      assert IsA(applied.error.kind, GitAI);
    }
  }

  /** When no template renders, the prompt is the fallback one for the template finally chosen. */
  lemma RenderFailureUsesFallback(template: string, provider: string, includeUntracked: bool, w: CommitWorld)
    requires Prepare(template, provider, includeUntracked, w).Ok?
    requires forall t :: w.render(t).Err?
    ensures var job := Prepare(template, provider, includeUntracked, w).value;
      job.prompt == FallbackPrompt(job.template, job.analysis)
      && (job.template == "conventional" ==> EndsWith(job.prompt, ConventionalHint))
  {
    var job := Prepare(template, provider, includeUntracked, w).value;
    assert w.render(job.template).Err?;
    if job.template == "conventional" {
      EndsWithTail(job.prompt, FallbackClosing, ConventionalHint);
    }
  }
}
