/**
 * Input validation (src/gitai/utils/validation.py): the template, team and
 * provider name rules, similar-name suggestions for a template that was not
 * found, and the enrichment of an error message with hints.
 */
module Validation {
  import opened Wrappers
  import opened Strings
  import opened Ordered
  import opened Errors

  // ---------------------------------------------------------------------
  // Names

  /** The character class [a-zA-Z0-9_-]. */
  predicate IsNameChar(c: char)
  {
    IsAsciiLetter(c) || IsAsciiDigit(c) || c == '_' || c == '-'
  }

  /** One or more characters of the class. */
  predicate IsNameWord(w: string)
  {
    |w| > 0 && forall i :: 0 <= i < |w| ==> IsNameChar(w[i])
  }

  /**
   * re.match(r"^[a-zA-Z0-9_-]+$", s): `$` also matches just before a
   * newline that ends the string, so one trailing newline is admitted.
   */
  predicate MatchesNamePattern(s: string)
  {
    IsNameWord(s) || (|s| > 1 && s[|s| - 1] == '\n' && IsNameWord(s[..|s| - 1]))
  }

  /** A name word holds no white space, so strip() leaves it alone. */
  lemma StripNameWord(w: string)
    requires IsNameWord(w)
    ensures Strip(w) == w && Strip(w + "\n") == w
  {
    assert !IsSpace(w[0]) && !IsSpace(w[|w| - 1]);
    assert LStrip(w) == w;
    assert RStrip(w) == w;
    var v := w + "\n";
    assert !IsSpace(v[0]);
    assert LStrip(v) == v;
    assert v[..|v| - 1] == w;
    assert RStrip(v) == RStrip(w);
  }

  const MaxTemplateName := 50
  const MaxTeamName := 30

  /**
   * validate_template_name: the checks in source order; the result is the
   * stripped name.
   */
  function ValidateTemplateName(name: string): (r: Result<string, Error>)
    ensures r.Ok? <==> MatchesNamePattern(name) && |name| <= MaxTemplateName
    ensures r.Ok? ==> IsNameWord(r.value) && |r.value| <= MaxTemplateName
    ensures r.Ok? ==> name == r.value || name == r.value + "\n"
    ensures name == "" ==> r == Err(Error(GitAI, "Template name cannot be empty"))
    ensures r.Err? ==> r.error.kind == GitAI
  {
    if name == "" then Err(Error(GitAI, "Template name cannot be empty"))
    else if IsBlank(name) then
      assert IsSpace(name[0]);
      assert |name| > 1 ==> name[..|name| - 1][0] == name[0];
      Err(Error(GitAI, "Template name cannot be only whitespace"))
    else if !MatchesNamePattern(name) then
      Err(Error(GitAI, "Template name can only contain letters, numbers, hyphens, and underscores"))
    else if |name| > MaxTemplateName then Err(Error(GitAI, "Template name must be 50 characters or less"))
    else
      var w := if IsNameWord(name) then name else name[..|name| - 1];
      assert name == w || name == w + "\n";
      StripNameWord(w);
      Ok(Strip(name))
  }

  /** A name ending in one newline passes (Python's `$`), and strip() removes the newline. */
  lemma TemplateNameTrailingNewline(w: string)
    requires IsNameWord(w) && |w| < MaxTemplateName
    ensures ValidateTemplateName(w + "\n") == Ok(w)
  {
    var n := w + "\n";
    assert n[..|n| - 1] == w;
    assert n[|n| - 1] == '\n';
    assert !IsNameWord(n) by {
      assert !IsNameChar(n[|n| - 1]);
    }
    assert !IsBlank(n) by {
      assert !IsSpace(n[0]);
    }
  }

  const ReservedTeamNames: set<string> := {"config", "default", "system", "admin", "root"}

  /**
   * validate_team_name: strip first, then the checks in source order; the
   * reserved names are compared case-insensitively.
   */
  function ValidateTeamName(name: string): (r: Result<string, Error>)
    ensures r.Ok? <==>
      name != "" && IsNameWord(Strip(name)) && |Strip(name)| <= MaxTeamName && Lower(Strip(name)) !in ReservedTeamNames
    ensures r.Ok? ==> r.value == Strip(name)
    ensures r.Err? ==> r.error.kind == GitAI
    ensures name != "" && IsNameWord(Strip(name)) && |Strip(name)| <= MaxTeamName && Lower(Strip(name)) in ReservedTeamNames ==>
      r == Err(Error(GitAI, "'" + Strip(name) + "' is a reserved name and cannot be used"))
  {
    if name == "" then Err(Error(GitAI, "Team name cannot be empty"))
    else
      var t := Strip(name);
      if t == "" then Err(Error(GitAI, "Team name cannot be only whitespace"))
      else if !MatchesNamePattern(t) then
        Err(Error(GitAI, "Team name can only contain letters, numbers, hyphens, and underscores"))
      else if |t| > MaxTeamName then Err(Error(GitAI, "Team name must be 30 characters or less"))
      else if Lower(t) in ReservedTeamNames then Err(Error(GitAI, "'" + t + "' is a reserved name and cannot be used"))
      else
        assert IsNameWord(t) by { StrippedHasNoNewlineEnd(name); }
        Ok(t)
  }

  /** After strip() the trailing-newline form of the pattern cannot apply. */
  lemma StrippedHasNoNewlineEnd(name: string)
    requires Strip(name) != ""
    ensures MatchesNamePattern(Strip(name)) <==> IsNameWord(Strip(name))
  {
    StripShape(name);
    var t := Strip(name);
    assert !IsSpace(t[|t| - 1]);
  }

  /** A reserved name in any case, padded or not, is refused. */
  lemma ReservedRefused(name: string)
    requires Lower(Strip(name)) in ReservedTeamNames
    ensures ValidateTeamName(name).Err?
  {
  }

  /** The provider names accepted when the factory cannot be imported. */
  const FallbackProviders: seq<string> := ["ollama", "openai", "anthropic"]

  /**
   * validate_provider_name: the name is stripped and lower-cased and must be
   * one of the factory's names; `available` is None when importing the
   * factory fails. The message lists the valid names sorted.
   */
  function ValidateProviderName(name: string, available: Option<seq<string>>): (r: Result<string, Error>)
    ensures var valid := if available.Some? then available.value else FallbackProviders;
      r.Ok? <==> name != "" && Lower(Strip(name)) in valid
    ensures r.Ok? ==> r.value == Lower(Strip(name))
    ensures name == "" ==> r == Err(Error(GitAI, "Provider name cannot be empty"))
    ensures r.Err? ==> r.error.kind == GitAI
  {
    if name == "" then Err(Error(GitAI, "Provider name cannot be empty"))
    else
      var n := Lower(Strip(name));
      var valid := if available.Some? then available.value else FallbackProviders;
      if n !in valid then
        Err(Error(GitAI, "Unknown provider '" + n + "'. Valid providers: " + Join(", ", SortedDistinct(valid))))
      else Ok(n)
  }

  /** A validated provider name validates to itself. */
  lemma ProviderNameIdempotent(name: string, available: Option<seq<string>>)
    requires ValidateProviderName(name, available).Ok?
    requires available.Some? ==> "" !in available.value
    ensures ValidateProviderName(ValidateProviderName(name, available).value, available) ==
            ValidateProviderName(name, available)
  {
    var n := Lower(Strip(name));
    assert n in (if available.Some? then available.value else FallbackProviders);
    StripIdempotent(name);
    LowerStripFixed(Strip(name));
  }

  /** Lower-casing keeps a stripped string stripped, so strip().lower() is idempotent. */
  lemma LowerStripFixed(t: string)
    requires Strip(t) == t
    ensures Lower(Strip(Lower(t))) == Lower(t)
  {
    var l := Lower(t);
    StripShape(t);
    if |t| > 0 {
      assert !IsSpace(t[0]) && !IsSpace(t[|t| - 1]);
      assert LowerChar(t[0]) == t[0] || IsAsciiLetter(LowerChar(t[0]));
      assert !IsSpace(l[0]) && !IsSpace(l[|l| - 1]);
      assert LStrip(l) == l;
      assert RStrip(l) == l;
    } else {
      assert l == [];
    }
    LowerIdempotent(t);
  }

  // ---------------------------------------------------------------------
  // Similar template names

  /** Either lower-cased name occurs in the other. */
  predicate SubstringMatch(wanted: string, t: string)
  {
    Contains(Lower(t), wanted) || Contains(wanted, Lower(t))
  }

  /** The names share their first or their last three characters, as the prefix/suffix pass tests. */
  predicate AffixMatch(wanted: string, t: string)
  {
    var tl := Lower(t);
    StartsWith(wanted, Prefix(tl, 3)) || EndsWith(wanted, Suffix(tl, 3))
    || StartsWith(tl, Prefix(wanted, 3)) || EndsWith(tl, Suffix(wanted, 3))
  }

  /** The two passes over the available names. */
  datatype Pass = SubstringPass | AffixPass

  predicate PassMatch(p: Pass, wanted: string, t: string)
  {
    match p
    case SubstringPass => SubstringMatch(wanted, t)
    case AffixPass => AffixMatch(wanted, t)
  }

  /** The names one pass appends, in the order of ts. */
  function Matches(p: Pass, wanted: string, ts: seq<string>): (r: seq<string>)
    ensures |r| <= |ts|
  {
    if |ts| == 0 then []
    else
      var init := Matches(p, wanted, ts[..|ts| - 1]);
      if PassMatch(p, wanted, ts[|ts| - 1]) then init + [ts[|ts| - 1]] else init
  }

  /** A pass keeps exactly the names that match. */
  lemma {:induction false} MatchesMembers(p: Pass, wanted: string, ts: seq<string>)
    ensures forall x :: x in Matches(p, wanted, ts) <==> x in ts && PassMatch(p, wanted, x)
  {
    if |ts| > 0 {
      MatchesMembers(p, wanted, ts[..|ts| - 1]);
      assert ts == ts[..|ts| - 1] + [ts[|ts| - 1]];
    }
  }

  /** One more name adds itself at the end exactly when the pass accepts it. */
  lemma MatchesStep(p: Pass, wanted: string, ts: seq<string>, i: nat)
    requires i < |ts|
    ensures Matches(p, wanted, ts[..i + 1]) ==
              Matches(p, wanted, ts[..i]) + (if PassMatch(p, wanted, ts[i]) then [ts[i]] else [])
  {
    assert ts[..i + 1][..i] == ts[..i];
  }

  function Take3(s: seq<string>): (r: seq<string>)
    ensures |r| <= 3 && |r| <= |s| && r == s[..|r|]
    ensures |s| > 0 ==> |r| > 0
  {
    if |s| <= 3 then s else s[..3]
  }

  /** What suggest_similar_templates returns. */
  function Suggestions(name: string, available: seq<string>): seq<string>
  {
    var wanted := Lower(name);
    var subs := Matches(SubstringPass, wanted, available);
    Take3(if |subs| > 0 then subs else Matches(AffixPass, wanted, available))
  }

  /** a keeps some of the elements of b, in b's order. */
  predicate Subsequence(a: seq<string>, b: seq<string>)
    decreases |b|
  {
    if |a| == 0 then true
    else if |b| == 0 then false
    else if a[|a| - 1] == b[|b| - 1] then Subsequence(a[..|a| - 1], b[..|b| - 1])
    else Subsequence(a, b[..|b| - 1])
  }

  lemma {:induction false} MatchesSubsequence(p: Pass, wanted: string, ts: seq<string>)
    ensures Subsequence(Matches(p, wanted, ts), ts)
  {
    if |ts| > 0 {
      MatchesSubsequence(p, wanted, ts[..|ts| - 1]);
      var init := Matches(p, wanted, ts[..|ts| - 1]);
      if !PassMatch(p, wanted, ts[|ts| - 1]) {
        SubsequenceExtend(init, ts[..|ts| - 1], ts[|ts| - 1]);
      } else {
        assert (init + [ts[|ts| - 1]])[..|init|] == init;
      }
    }
  }

  /** Appending to the longer sequence keeps a subsequence. */
  lemma {:induction false} SubsequenceExtend(a: seq<string>, b: seq<string>, x: string)
    requires Subsequence(a, b)
    ensures Subsequence(a, b + [x])
    decreases |b|, 1
  {
    assert (b + [x])[..|b|] == b;
    if |a| > 0 && a[|a| - 1] == x {
      SubsequencePrefix(a, b);
    }
  }

  /** Dropping the last element of a subsequence keeps a subsequence. */
  lemma {:induction false} SubsequencePrefix(a: seq<string>, b: seq<string>)
    requires |a| > 0 && Subsequence(a, b)
    ensures Subsequence(a[..|a| - 1], b)
    decreases |b|, 0
  {
    if a[|a| - 1] == b[|b| - 1] {
      SubsequenceExtend(a[..|a| - 1], b[..|b| - 1], b[|b| - 1]);
      assert b[..|b| - 1] + [b[|b| - 1]] == b;
    } else {
      SubsequencePrefix(a, b[..|b| - 1]);
      SubsequenceExtend(a[..|a| - 1], b[..|b| - 1], b[|b| - 1]);
      assert b[..|b| - 1] + [b[|b| - 1]] == b;
    }
  }

  /** A prefix of a subsequence is a subsequence. */
  lemma {:induction false} SubsequenceTake(a: seq<string>, b: seq<string>, n: nat)
    requires Subsequence(a, b) && n <= |a|
    ensures Subsequence(a[..n], b)
    decreases |a| - n
  {
    if n < |a| {
      SubsequenceTake(a, b, n + 1);
      assert a[..n + 1][..n] == a[..n];
      SubsequencePrefix(a[..n + 1], b);
    } else {
      assert a[..n] == a;
    }
  }

  /**
   * suggest_similar_templates: at most three names, kept in the order of
   * the available list; substring matches take precedence, and the
   * prefix/suffix pass is used only when there are none.
   */
  lemma SuggestionsSpec(name: string, available: seq<string>)
    ensures var r := Suggestions(name, available);
      && |r| <= 3
      && Subsequence(r, available)
      && ((exists t :: t in available && SubstringMatch(Lower(name), t)) ==>
            |r| > 0 && forall x :: x in r ==> SubstringMatch(Lower(name), x))
      && (!(exists t :: t in available && SubstringMatch(Lower(name), t)) ==>
            forall x :: x in r ==> AffixMatch(Lower(name), x))
      && ((exists t :: t in available && (SubstringMatch(Lower(name), t) || AffixMatch(Lower(name), t))) ==> |r| > 0)
  {
    var wanted := Lower(name);
    var subs := Matches(SubstringPass, wanted, available);
    var chosen := if |subs| > 0 then subs else Matches(AffixPass, wanted, available);
    MatchesMembers(SubstringPass, wanted, available);
    MatchesMembers(AffixPass, wanted, available);
    MatchesSubsequence(SubstringPass, wanted, available);
    MatchesSubsequence(AffixPass, wanted, available);
    var r := Take3(chosen);
    SubsequenceTake(chosen, available, |r|);
    assert forall x :: x in r ==> x in chosen;
  }

  /** One pass of suggest_similar_templates: every available name the pass accepts, in order. */
  method MatchingNames(p: Pass, wanted: string, available: seq<string>) returns (names: seq<string>)
    ensures names == Matches(p, wanted, available)
  {
    names := [];
    var i := 0;
    while i < |available|
      invariant 0 <= i <= |available|
      invariant names == Matches(p, wanted, available[..i])
    {
      MatchesStep(p, wanted, available, i);
      if PassMatch(p, wanted, available[i]) {
        names := names + [available[i]];
      }
      i := i + 1;
    }
    assert available[..i] == available;
  }

  /** suggest_similar_templates: the substring pass, then the prefix/suffix pass when it found nothing. */
  method SuggestSimilarTemplates(name: string, available: seq<string>) returns (suggestions: seq<string>)
    ensures suggestions == Suggestions(name, available)
  {
    var wanted := Lower(name);
    suggestions := MatchingNames(SubstringPass, wanted, available);
    if |suggestions| == 0 {
      suggestions := MatchingNames(AffixPass, wanted, available);
    }
    suggestions := Take3(suggestions);
  }

  // ---------------------------------------------------------------------
  // Helpful error messages


  /** The hint groups of create_helpful_error_message, in the order its branches test them. */
  datatype Hint = RepositoryHint | StagingHint | TemplateHint | BranchHint | ProviderHint

  /** The first branch that applies to the error class and the (prefixed) message. */
  function HintFor(kind: Kind, message: string): (h: Option<Hint>)
    ensures h == Some(RepositoryHint) <==> IsA(kind, InvalidRepository)
    ensures h.None? <==>
      !IsA(kind, InvalidRepository) && !Contains(message, "No staged changes")
      && !(Contains(message, "Template") && Contains(message, "not found"))
      && !(Contains(message, "Branch") && Contains(message, "does not exist"))
      && !Contains(message, "Provider")
  {
    if IsA(kind, InvalidRepository) then Some(RepositoryHint)
    else if Contains(message, "No staged changes") then Some(StagingHint)
    else if Contains(message, "Template") && Contains(message, "not found") then Some(TemplateHint)
    else if Contains(message, "Branch") && Contains(message, "does not exist") then Some(BranchHint)
    else if Contains(message, "Provider") then Some(ProviderHint)
    else None
  }

  function HintLines(h: Hint): seq<string>
  {
    match h
    case RepositoryHint => [
      "\U{2022} Navigate to a git repository: cd /path/to/your/repo",
      "\U{2022} Initialize a new git repository: git init",
      "\U{2022} Check git installation: git --version"]
    case StagingHint => [
      "\U{2022} Stage files for commit: git add <files>",
      "\U{2022} Stage all changes: git add .",
      "\U{2022} Check current status: git status"]
    case TemplateHint => [
      "\U{2022} List available templates: gitai templates --list",
      "\U{2022} Show template content: gitai templates --show <name>",
      "\U{2022} Use default template: gitai commit (uses 'conventional')"]
    case BranchHint => [
      "\U{2022} List available branches: git branch -a",
      "\U{2022} Use default base branch: gitai pr (uses 'main')",
      "\U{2022} Create the branch: git checkout -b <branch-name>"]
    case ProviderHint => [
      "\U{2022} List supported providers: gitai config --show",
      "\U{2022} Use default provider: gitai commit (uses 'ollama')",
      "\U{2022} Check provider configuration: gitai config --show"]
  }

  /** "context: message", or the bare message without a context. */
  function BaseMessage(e: Error, context: string): (m: string)
    ensures context == "" ==> m == e.message
    ensures context != "" ==> m == context + ": " + e.message
  {
    if context != "" then context + ": " + e.message else e.message
  }

  /** The text appended after the base message when a branch applies. */
  function SuggestionBlock(h: Hint): (b: string)
    ensures |b| > 0
  {
    var head := "\n\nSuggestions:\n";
    assert |head| > 0;
    head + Join("\n", HintLines(h))
  }

  /**
   * create_helpful_error_message: the base message, followed by the hints
   * of the first branch that applies (checked against the message with its
   * context prefix), or nothing when none applies.
   */
  function HelpfulErrorMessage(e: Error, context: string): (m: string)
    ensures StartsWith(m, BaseMessage(e, context))
    ensures HintFor(e.kind, BaseMessage(e, context)).None? <==> m == BaseMessage(e, context)
    ensures HintFor(e.kind, BaseMessage(e, context)).Some? ==>
      m == BaseMessage(e, context) + SuggestionBlock(HintFor(e.kind, BaseMessage(e, context)).value)
  {
    var base := BaseMessage(e, context);
    match HintFor(e.kind, base)
    case Some(h) =>
      var m := base + SuggestionBlock(h);
      assert m[..|base|] == base;
      m
    case None => base
  }
}
