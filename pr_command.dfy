/**
 * The pr command (src/gitai/commands/pr.py): the checks in order, the
 * refusal of a branch without changes, the fallbacks of the template and of
 * the provider configuration, the fallback prompt, and the two ways out:
 * the description written to a file, or the formatted text returned.
 */
module PrCommand {
  import opened Wrappers
  import opened Dicts
  import opened Values
  import opened Strings
  import opened Errors
  import opened ChangeModels
  import Validation
  import CommitCommand

  // ---------------------------------------------------------------------
  // _build_fallback_pr_prompt

  function FallbackIntro(template: string): string
  {
    "Generate a pull request description using the '" + template + "' style for the following changes.\n\n"
  }

  const FallbackClosing := "\n\nMake it clear, informative, and well-structured."
  const GithubHint := "\n\nUse GitHub PR format with:\n## Summary, ## Changes, ## Testing sections"
  const GitlabHint := "\n\nUse GitLab MR format with:\n## Summary, ## Changes Made, ## Testing Done, ## Documentation sections"
  const DetailedHint :=
    "\n\nInclude comprehensive sections:\n- Executive summary\n- Detailed breakdown of changes\n"
    + "- Technical considerations\n- Testing approach\n- Breaking changes (if any)"

  /** The section list appended for the three built-in templates; other names get none. */
  function SectionHint(template: string): (h: string)
    ensures h != "" <==> template == "github" || template == "gitlab" || template == "detailed"
  {
    if template == "github" then GithubHint
    else if template == "gitlab" then GitlabHint
    else if template == "detailed" then DetailedHint
    else ""
  }

  /**
   * _build_fallback_pr_prompt: the introduction naming the template, the
   * same figures as the commit prompt, the closing request, then the
   * section list.
   */
  function FallbackPrPrompt(template: string, a: DiffAnalysis): (r: string)
    ensures StartsWith(r, FallbackIntro(template))
    ensures OccursAt(r, CommitCommand.FiguresBlock(a), |FallbackIntro(template)|)
    ensures EndsWith(r, FallbackClosing + SectionHint(template))
    ensures template != "github" && template != "gitlab" && template != "detailed" ==> EndsWith(r, FallbackClosing)
  {
    ConcatParts(FallbackIntro(template), CommitCommand.FiguresBlock(a), FallbackClosing + SectionHint(template));
    FallbackIntro(template) + CommitCommand.FiguresBlock(a) + (FallbackClosing + SectionHint(template))
  }

  // ---------------------------------------------------------------------
  // _format_pr_output

  function OutputHeader(template: string, provider: string, base: string): string
  {
    "Generated PR Description (template: " + template + ", provider: " + provider + ", base: " + base + "):\n\n"
  }

  function SaveHint(base: string): string
  {
    "\n\nSave to file with: gitai pr --base " + base + " --output pr.md"
  }

  /** _format_pr_output: the description verbatim between the header and the save hint, both naming the base. */
  function FormatPrOutput(description: string, template: string, provider: string, base: string): (r: string)
    ensures StartsWith(r, OutputHeader(template, provider, base)) && EndsWith(r, SaveHint(base))
    ensures |r| == |OutputHeader(template, provider, base)| + |description| + |SaveHint(base)|
    ensures r[|OutputHeader(template, provider, base)|..|r| - |SaveHint(base)|] == description
  {
    ConcatParts(OutputHeader(template, provider, base), description, SaveHint(base));
    OutputHeader(template, provider, base) + description + SaveHint(base)
  }

  /** Reading the description back out of the output for the given template, provider and base. */
  function OutputDescription(text: string, template: string, provider: string, base: string): (d: Option<string>)
    ensures d.Some? ==> StartsWith(text, OutputHeader(template, provider, base)) && EndsWith(text, SaveHint(base))
  {
    var h := OutputHeader(template, provider, base);
    var f := SaveHint(base);
    if |h| + |f| <= |text| && StartsWith(text, h) && EndsWith(text, f) then Some(text[|h|..|text| - |f|])
    else None
  }

  /** The output gives back exactly the description it was made from. */
  lemma OutputRoundTrip(description: string, template: string, provider: string, base: string)
    ensures OutputDescription(FormatPrOutput(description, template, provider, base), template, provider, base) == Some(description)
  {
  }

  // ---------------------------------------------------------------------
  // handle_pr

  /**
   * The answers of everything handle_pr calls: validate_git_repository,
   * the factory's provider names, validate_output_file of a path,
   * validate_branch_has_changes, load_config, get_branch_changes, whether
   * validate_template accepts a name, render_template of a name, the
   * factory and generate, and the error (if any) of writing the file.
   */
  datatype PrWorld = PrWorld(
    repository: Option<Error>,
    providerNames: Option<seq<string>>,
    outputCheck: string -> Result<string, Error>,
    branch: Option<Error>,
    configLoad: Option<Error>,
    providerConfig: string -> Result<Dict<Value>, Error>,
    analysis: Result<DiffAnalysis, Error>,
    templateValid: string -> bool,
    render: string -> Result<string, Error>,
    generate: (string, Dict<Value>, string) -> Result<string, Error>,
    writeError: Option<string>)

  /** What handle_pr does in the end: return the formatted text, or write the description to a file and return None. */
  datatype PrResult = Printed(text: string) | Saved(path: string, text: string)

  datatype Job = Job(template: string, provider: string, output: Option<string>, analysis: DiffAnalysis,
                     prompt: string, config: Dict<Value>)

  const PrContext := "PR generation failed"

  function NoChangesText(base: string): string
  {
    "No changes found between current branch and '" + base + "'"
  }

  /**
   * The prompt: the rendered template verbatim; when rendering fails, a prompt that opens with
   * the template's name, carries the change figures and closes with the template's section hint.
   */
  function PromptFor(template: string, a: DiffAnalysis, render: string -> Result<string, Error>): (p: string)
    ensures render(template).Ok? ==> p == render(template).value
    ensures render(template).Err? ==> StartsWith(p, FallbackIntro(template))
                                      && OccursAt(p, CommitCommand.FiguresBlock(a), |FallbackIntro(template)|)
                                      && EndsWith(p, FallbackClosing + SectionHint(template))
    ensures render(template).Err? ==> p == FallbackPrPrompt(template, a)
  {
    match render(template)
    case Ok(rendered) => rendered
    case Err(_) => FallbackPrPrompt(template, a)
  }

  /**
   * The validated output path, when one is given: no path is never an error, a given path is
   * accepted exactly when the path check accepts it, in the form the check returns, and a
   * refused path fails with the check's own error.
   */
  function OutputFor(output: Option<string>, check: string -> Result<string, Error>): (r: Result<Option<string>, Error>)
    ensures output.None? ==> r == Ok(None)
    ensures output.Some? ==> (r.Ok? <==> check(output.value).Ok?)
    ensures output.Some? && r.Ok? ==> r.value == Some(check(output.value).value)
    ensures r.Err? ==> output.Some? && r.error == check(output.value).error
  {
    if output.None? then Ok(None)
    else
      match check(output.value)
      case Ok(path) => Ok(Some(path))
      case Err(e) => Err(e)
  }

  /** The validated inputs and what was loaded, once every check has passed. */
  datatype Checked = Checked(template: string, provider: string, output: Option<string>, analysis: DiffAnalysis)

  /** Steps 1 to 3 of handle_pr: the checks in order, the configuration and the analysis of the branch. */
  function Check(base: string, template: string, provider: string, output: Option<string>, w: PrWorld)
    : (r: Result<Checked, Error>)
    ensures w.repository.Some? ==> r == Err(w.repository.value)
    ensures r.Ok? ==> w.repository.None? && w.branch.None? && w.configLoad.None?
                      && w.analysis == Ok(r.value.analysis) && |r.value.analysis.filesChanged| > 0
    ensures r.Ok? ==> Validation.ValidateTemplateName(template) == Ok(r.value.template)
                      && Validation.ValidateProviderName(provider, w.providerNames) == Ok(r.value.provider)
    ensures r.Ok? ==> OutputFor(output, w.outputCheck) == Ok(r.value.output)
  {
    if w.repository.Some? then Err(w.repository.value)
    else
      match Validation.ValidateTemplateName(template)
      case Err(e) => Err(e)
      case Ok(t) =>
        match Validation.ValidateProviderName(provider, w.providerNames)
        case Err(e) => Err(e)
        case Ok(p) =>
          match OutputFor(output, w.outputCheck)
          case Err(e) => Err(e)
          case Ok(path) =>
            if w.branch.Some? then Err(w.branch.value)
            else
              if w.configLoad.Some? then Err(w.configLoad.value)
              else
                match w.analysis
                case Err(e) => Err(e)
                case Ok(a) =>
                  if |a.filesChanged| == 0 then Err(Error(GitAI, NoChangesText(base)))
                  else Ok(Checked(t, p, path, a))
  }

  /** Steps 4 and 5: the template with its fallback, the prompt, and the provider configuration with its defaults. */
  function Decide(ch: Checked, w: PrWorld): (r: Result<Job, Error>)
    ensures r.Ok? <==> CommitCommand.ConfigFor(ch.provider, w.providerConfig(ch.provider)).Ok?
    ensures r.Err? ==> r.error == w.providerConfig(ch.provider).error
    ensures r.Ok? ==> r.value.template == CommitCommand.ChosenTemplate(ch.template, w.templateValid, "github")
    ensures r.Ok? ==> r.value.prompt == PromptFor(r.value.template, ch.analysis, w.render)
    ensures r.Ok? ==> CommitCommand.ConfigFor(ch.provider, w.providerConfig(ch.provider)) == Ok(r.value.config)
    ensures r.Ok? ==> r.value.provider == ch.provider && r.value.output == ch.output && r.value.analysis == ch.analysis
  {
    var chosen := CommitCommand.ChosenTemplate(ch.template, w.templateValid, "github");
    match CommitCommand.ConfigFor(ch.provider, w.providerConfig(ch.provider))
    case Err(e) => Err(e)
    case Ok(cfg) => Ok(Job(chosen, ch.provider, ch.output, ch.analysis, PromptFor(chosen, ch.analysis, w.render), cfg))
  }

  /** Steps 1 to 5 of handle_pr: the checks, the analysis, the prompt and the provider configuration. */
  function Prepare(base: string, template: string, provider: string, output: Option<string>, w: PrWorld): (r: Result<Job, Error>)
    ensures w.repository.Some? ==> r == Err(w.repository.value)
    ensures r.Ok? ==> w.repository.None? && w.branch.None? && w.configLoad.None? && w.analysis.Ok?
                      && r.value.analysis == w.analysis.value
    ensures r.Ok? ==> Validation.ValidateTemplateName(template).Ok?
                      && Validation.ValidateProviderName(provider, w.providerNames) == Ok(r.value.provider)
    ensures r.Ok? ==> OutputFor(output, w.outputCheck) == Ok(r.value.output)
    ensures r.Ok? ==> |r.value.analysis.filesChanged| > 0
    ensures r.Ok? ==>
              r.value.template == CommitCommand.ChosenTemplate(Validation.ValidateTemplateName(template).value, w.templateValid, "github")
    ensures r.Ok? ==> r.value.prompt == PromptFor(r.value.template, r.value.analysis, w.render)
    ensures r.Ok? ==> CommitCommand.ConfigFor(r.value.provider, w.providerConfig(r.value.provider)) == Ok(r.value.config)
  {
    match Check(base, template, provider, output, w)
    case Err(e) => Err(e)
    case Ok(ch) => Decide(ch, w)
  }

  /** The body of handle_pr's try block: the prepared request, the stripped reply, then the file or the text. */
  function Outcome(base: string, template: string, provider: string, output: Option<string>, w: PrWorld)
    : Result<PrResult, Error>
  {
    match Prepare(base, template, provider, output, w)
    case Err(e) => Err(e)
    case Ok(job) =>
      match w.generate(job.provider, job.config, job.prompt)
      case Err(e) => Err(e)
      case Ok(content) =>
        var description := Strip(content);
        if job.output.Some? then
          if w.writeError.Some? then Err(Error(GitAI, "Failed to write to " + job.output.value + ": " + w.writeError.value))
          else Ok(Saved(job.output.value, description))
        else Ok(Printed(FormatPrOutput(description, job.template, job.provider, base)))
  }

  /** handle_pr: the outcome, with any error surfaced as a GitAIError. */
  function Pr(base: string, template: string, provider: string, output: Option<string>, w: PrWorld)
    : (r: Result<PrResult, Error>)
    ensures r.Err? ==> IsA(r.error.kind, GitAI)
  {
    match Outcome(base, template, provider, output, w)
    case Ok(o) => Ok(o)
    case Err(e) => Err(CommitCommand.Surface(e, PrContext))
  }

  /** handle_pr, reassigning the template and the provider configuration as the code does. */
  method HandlePr(base: string, template: string, provider: string, output: Option<string>, w: PrWorld)
    returns (r: Result<PrResult, Error>)
    ensures r == Pr(base, template, provider, output, w)
  {
    var outcome := PrSteps(base, template, provider, output, w);
    if outcome.Err? {
      return Err(CommitCommand.Surface(outcome.error, PrContext));
    }
    r := outcome;
  }

  /** The try block of handle_pr: the prepared request, then the reply and where it goes. */
  method PrSteps(base: string, template: string, provider: string, output: Option<string>, w: PrWorld)
    returns (r: Result<PrResult, Error>)
    ensures r == Outcome(base, template, provider, output, w)
  {
    var job := PrepareJob(base, template, provider, output, w);
    if job.Err? {
      return Err(job.error);
    }
    var Job(name, providerName, path, _, prompt, providerConfig) := job.value;
    var reply := w.generate(providerName, providerConfig, prompt);
    if reply.Err? {
      return Err(reply.error);
    }
    var description := Strip(reply.value);
    if path.Some? {
      if w.writeError.Some? {
        return Err(Error(GitAI, "Failed to write to " + path.value + ": " + w.writeError.value));
      }
      return Ok(Saved(path.value, description));
    }
    r := Ok(Printed(FormatPrOutput(description, name, providerName, base)));
  }

  /** Steps 1 to 5 of handle_pr's try block. */
  method PrepareJob(base: string, template: string, provider: string, output: Option<string>, w: PrWorld)
    returns (r: Result<Job, Error>)
    ensures r == Prepare(base, template, provider, output, w)
  {
    var checked := CheckInputs(base, template, provider, output, w);
    if checked.Err? {
      return Err(checked.error);
    }
    var Checked(name, providerName, path, analysis) := checked.value;
    if !w.templateValid(name) {
      name := "github";
    }
    var prompt;
    var rendered := w.render(name);
    if rendered.Ok? {
      prompt := rendered.value;
    } else {
      prompt := FallbackPrPrompt(name, analysis);
    }
    var providerConfig: Dict<Value>;
    var configured := w.providerConfig(providerName);
    if configured.Ok? {
      providerConfig := configured.value;
    } else if configured.error.kind == ValueError || configured.error.kind == KeyError {
      providerConfig := CommitCommand.ProviderDefaults(providerName);
    } else {
      return Err(configured.error);
    }
    r := Ok(Job(name, providerName, path, analysis, prompt, providerConfig));
  }

  /** Steps 1 to 3 of handle_pr's try block. */
  method CheckInputs(base: string, template: string, provider: string, output: Option<string>, w: PrWorld)
    returns (r: Result<Checked, Error>)
    ensures r == Check(base, template, provider, output, w)
  {
    if w.repository.Some? {
      return Err(w.repository.value);
    }
    var validTemplate := Validation.ValidateTemplateName(template);
    if validTemplate.Err? {
      return Err(validTemplate.error);
    }
    var validProvider := Validation.ValidateProviderName(provider, w.providerNames);
    if validProvider.Err? {
      return Err(validProvider.error);
    }
    var path := None;
    if output.Some? {
      var checked := w.outputCheck(output.value);
      if checked.Err? {
        return Err(checked.error);
      }
      path := Some(checked.value);
    }
    if w.branch.Some? {
      return Err(w.branch.value);
    }
    if w.configLoad.Some? {
      return Err(w.configLoad.value);
    }
    if w.analysis.Err? {
      return Err(w.analysis.error);
    }
    if |w.analysis.value.filesChanged| == 0 {
      return Err(Error(GitAI, NoChangesText(base)));
    }
    r := Ok(Checked(validTemplate.value, validProvider.value, path, w.analysis.value));
  }

  /** A branch whose analysis lists no file is refused, naming the base branch. */
  lemma NoChangesRefused(base: string, template: string, provider: string, output: Option<string>, w: PrWorld)
    requires w.repository.None? && w.branch.None? && w.configLoad.None? && w.analysis.Ok?
    requires Validation.ValidateTemplateName(template).Ok? && Validation.ValidateProviderName(provider, w.providerNames).Ok?
    requires OutputFor(output, w.outputCheck).Ok?
    requires |w.analysis.value.filesChanged| == 0
    ensures Pr(base, template, provider, output, w) == Err(Error(GitAI, NoChangesText(base)))
  {
  }

  /** With an output file the stripped reply is saved there; without one it is returned inside the formatted text. */
  lemma ReplyGoesToFileOrText(base: string, template: string, provider: string, output: Option<string>, w: PrWorld)
    requires Prepare(base, template, provider, output, w).Ok?
    requires var job := Prepare(base, template, provider, output, w).value;
      w.generate(job.provider, job.config, job.prompt).Ok?
    requires w.writeError.None?
    ensures var job := Prepare(base, template, provider, output, w).value;
      var description := Strip(w.generate(job.provider, job.config, job.prompt).value);
      var r := Pr(base, template, provider, output, w);
      r.Ok?
      && (output.Some? ==> r.value == Saved(job.output.value, description))
      && (output.None? ==> r.value.Printed?
                           && OutputDescription(r.value.text, job.template, job.provider, base) == Some(description))
  {
    var job := Prepare(base, template, provider, output, w).value;
    var description := Strip(w.generate(job.provider, job.config, job.prompt).value);
    OutputRoundTrip(description, job.template, job.provider, base);
  }

  /** When no template renders, the prompt is the fallback one for the template finally chosen. */
  lemma RenderFailureUsesFallback(base: string, template: string, provider: string, output: Option<string>, w: PrWorld)
    requires Prepare(base, template, provider, output, w).Ok?
    requires forall t :: w.render(t).Err?
    ensures var job := Prepare(base, template, provider, output, w).value;
      job.prompt == FallbackPrPrompt(job.template, job.analysis)
      && (job.template == "github" ==> EndsWith(job.prompt, GithubHint))
  {
    var job := Prepare(base, template, provider, output, w).value;
    assert w.render(job.template).Err?;
    if job.template == "github" {
      EndsWithTail(job.prompt, FallbackClosing, GithubHint);
    }
  }
}
