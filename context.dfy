/**
 * The template context of src/gitai/templates/context.py: classification of
 * paths into test, configuration and documentation files, per-file
 * descriptions and languages, the majority rules, the summary fallback,
 * issue references, the enhanced analysis handed to templates, and the
 * context dictionaries built for commit and PR templates.
 */
module TemplateContext {
  import opened Wrappers
  import opened Strings
  import opened Ordered
  import opened Dicts
  import opened Values
  import opened Floats
  import opened ChangeModels

  // ---------------------------------------------------------------------
  // Path classification: re.search(pattern, path, re.IGNORECASE)
  // ---------------------------------------------------------------------

  /** `$` without MULTILINE: the end of the text, or just before a final newline. */
  predicate EndAnchor(t: string, k: int)
  {
    k == |t| || (0 <= k && k == |t| - 1 && t[k] == '\n')
  }

  /**
   * The three shapes the classification regexes take, each over a lower-cased
   * text with a lower-case literal (`.` matches anything but a newline):
   * Anywhere(l) is `l` or `l.*`; AtEnd(l) is `.*l$` or `l$`; Between(a, b)
   * is `a.*b$`.
   */
  datatype Pattern = Anywhere(lit: string) | AtEnd(lit: string) | Between(first: string, last: string)

  predicate NoNewline(t: string, i: int, j: int)
    requires 0 <= i <= j <= |t|
  {
    forall k :: i <= k < j ==> t[k] != '\n'
  }

  /** `.*b$` tried from j: b at the end, or one more non-newline character and try again. */
  predicate RestMatches(t: string, b: string, j: nat)
    decreases |t| - j
  {
    j <= |t| && ((OccursAt(t, b, j) && EndAnchor(t, j + |b|)) || (j < |t| && t[j] != '\n' && RestMatches(t, b, j + 1)))
  }

  /** The pattern matches starting exactly at i. */
  predicate MatchesAt(p: Pattern, t: string, i: nat)
  {
    match p
    case Anywhere(l) => OccursAt(t, l, i)
    case AtEnd(l) => OccursAt(t, l, i) && EndAnchor(t, i + |l|)
    case Between(a, b) => OccursAt(t, a, i) && RestMatches(t, b, i + |a|)
  }

  /** re.search from i: try a match at each start position in turn. */
  predicate SearchFrom(p: Pattern, t: string, i: nat)
    decreases |t| - i
  {
    i <= |t| && (MatchesAt(p, t, i) || (i < |t| && SearchFrom(p, t, i + 1)))
  }

  /** IGNORECASE: the literals are lower case, so the path is compared lower-cased. */
  predicate Search(p: Pattern, path: string)
  {
    SearchFrom(p, Lower(path), 0)
  }

  /** `.*b$` from j holds exactly when b ends the text at some j' with no newline in between. */
  lemma {:induction false} RestMatchesIff(t: string, b: string, j: nat)
    requires j <= |t|
    decreases |t| - j
    ensures RestMatches(t, b, j) <==>
      exists j' :: j <= j' <= |t| && OccursAt(t, b, j') && EndAnchor(t, j' + |b|) && NoNewline(t, j, j')
  {
    if j < |t| {
      RestMatchesIff(t, b, j + 1);
      if RestMatches(t, b, j) && !(OccursAt(t, b, j) && EndAnchor(t, j + |b|)) {
        var j' :| j + 1 <= j' <= |t| && OccursAt(t, b, j') && EndAnchor(t, j' + |b|) && NoNewline(t, j + 1, j');
        assert NoNewline(t, j, j');
      }
      if exists j' :: j <= j' <= |t| && OccursAt(t, b, j') && EndAnchor(t, j' + |b|) && NoNewline(t, j, j') {
        var j' :| j <= j' <= |t| && OccursAt(t, b, j') && EndAnchor(t, j' + |b|) && NoNewline(t, j, j');
        if j' > j {
          assert NoNewline(t, j + 1, j');
        }
      }
    } else {
      if exists j' :: j <= j' <= |t| && OccursAt(t, b, j') && EndAnchor(t, j' + |b|) && NoNewline(t, j, j') {
        var j' :| j <= j' <= |t| && OccursAt(t, b, j') && EndAnchor(t, j' + |b|) && NoNewline(t, j, j');
        assert j' == j;
      }
    }
  }

  /** Searching from i holds exactly when the pattern matches at some start position from i on. */
  lemma {:induction false} SearchFromIff(p: Pattern, t: string, i: nat)
    requires i <= |t|
    decreases |t| - i
    ensures SearchFrom(p, t, i) <==> exists k :: i <= k <= |t| && MatchesAt(p, t, k)
  {
    if i < |t| {
      SearchFromIff(p, t, i + 1);
    }
  }

  /** One regex of the lists, written as its alternatives (`tests?/` is `test/` or `tests/`). */
  type Regex = seq<Pattern>

  predicate RegexSearch(r: Regex, path: string)
  {
    |r| > 0 && (Search(r[0], path) || RegexSearch(r[1..], path))
  }

  /** any(re.search(pattern, path, re.IGNORECASE) for pattern in patterns) */
  predicate AnyRegex(rs: seq<Regex>, path: string)
  {
    |rs| > 0 && (RegexSearch(rs[0], path) || AnyRegex(rs[1..], path))
  }

  lemma {:induction false} RegexSearchIff(r: Regex, path: string)
    ensures RegexSearch(r, path) <==> exists n :: 0 <= n < |r| && Search(r[n], path)
  {
    if |r| > 0 {
      RegexSearchIff(r[1..], path);
      assert forall n :: 0 < n < |r| ==> r[1..][n - 1] == r[n];
    }
  }

  lemma {:induction false} AnyRegexIff(rs: seq<Regex>, path: string)
    ensures AnyRegex(rs, path) <==> exists n :: 0 <= n < |rs| && RegexSearch(rs[n], path)
  {
    if |rs| > 0 {
      AnyRegexIff(rs[1..], path);
      assert forall n :: 0 < n < |rs| ==> rs[1..][n - 1] == rs[n];
    }
  }

  const TestPatterns: seq<Regex> := [
    [Between("test_", ".py")],
    [AtEnd("_test.py")],
    [AtEnd(".test.js")],
    [AtEnd(".spec.js")],
    [Anywhere("test/"), Anywhere("tests/")],
    [Anywhere("spec/")],
    [Anywhere("__tests__/")]
  ]

  const ConfigPatterns: seq<Regex> := [
    [AtEnd(".config.js"), AtEnd(".config.ts"), AtEnd(".config.json"), AtEnd(".config.yaml"), AtEnd(".config.yml")],
    [Anywhere(".env")],
    [Anywhere("dockerfile")],
    [AtEnd(".ini")],
    [AtEnd(".cfg")],
    [AtEnd("pyproject.toml")],
    [AtEnd("package.json")],
    [Between("requirements", ".txt")],
    [AtEnd("gemfile")],
    [AtEnd("pom.xml")]
  ]

  const DocsPatterns: seq<Regex> := [
    [AtEnd(".md")],
    [AtEnd(".rst")],
    [AtEnd(".txt")],
    [Anywhere("doc/"), Anywhere("docs/")],
    [Anywhere("readme")],
    [Anywhere("changelog")],
    [Anywhere("license")]
  ]

  predicate IsTestFile(path: string)
  {
    AnyRegex(TestPatterns, path)
  }

  predicate IsConfigFile(path: string)
  {
    AnyRegex(ConfigPatterns, path)
  }

  predicate IsDocsFile(path: string)
  {
    AnyRegex(DocsPatterns, path)
  }

  lemma {:induction false} RestMatchesShift(pre: string, t: string, b: string, j: nat)
    requires j <= |t| && RestMatches(t, b, j)
    decreases |t| - j
    ensures RestMatches(pre + t, b, j + |pre|)
  {
    var u := pre + t;
    var d := |pre|;
    if OccursAt(t, b, j) && EndAnchor(t, j + |b|) {
      OccursAtShift(pre, t, b, j);
    } else {
      assert u[j + d] == t[j];
      RestMatchesShift(pre, t, b, j + 1);
    }
  }

  lemma MatchesAtShift(p: Pattern, pre: string, t: string, k: nat)
    requires k <= |t| && MatchesAt(p, t, k)
    ensures MatchesAt(p, pre + t, k + |pre|)
  {
    match p
    case Anywhere(l) =>
      OccursAtShift(pre, t, l, k);
    case AtEnd(l) =>
      OccursAtShift(pre, t, l, k);
    case Between(a, b) =>
      OccursAtShift(pre, t, a, k);
      RestMatchesShift(pre, t, b, k + |a|);
  }

  /** Because re.search is not anchored at the start, text in front of a match never undoes it. */
  lemma SearchIgnoresPrefix(p: Pattern, pre: string, path: string)
    ensures Search(p, path) ==> Search(p, pre + path)
  {
    var t := Lower(path);
    var u := Lower(pre + path);
    LowerConcat(pre, path);
    if Search(p, path) {
      SearchFromIff(p, t, 0);
      var k :| 0 <= k <= |t| && MatchesAt(p, t, k);
      MatchesAtShift(p, Lower(pre), t, k);
      SearchFromIff(p, u, 0);
    }
  }

  lemma AnyRegexIgnoresPrefix(rs: seq<Regex>, pre: string, path: string)
    ensures AnyRegex(rs, path) ==> AnyRegex(rs, pre + path)
  {
    if AnyRegex(rs, path) {
      AnyRegexIff(rs, path);
      var n :| 0 <= n < |rs| && RegexSearch(rs[n], path);
      RegexSearchIff(rs[n], path);
      var m :| 0 <= m < |rs[n]| && Search(rs[n][m], path);
      SearchIgnoresPrefix(rs[n][m], pre, path);
      RegexSearchIff(rs[n], pre + path);
      AnyRegexIff(rs, pre + path);
    }
  }

  /** A classified path stays classified whatever directories are put in front of it. */
  lemma ClassificationIgnoresPrefix(pre: string, path: string)
    ensures IsTestFile(path) ==> IsTestFile(pre + path)
    ensures IsConfigFile(path) ==> IsConfigFile(pre + path)
    ensures IsDocsFile(path) ==> IsDocsFile(pre + path)
  {
    AnyRegexIgnoresPrefix(TestPatterns, pre, path);
    AnyRegexIgnoresPrefix(ConfigPatterns, pre, path);
    AnyRegexIgnoresPrefix(DocsPatterns, pre, path);
  }

  /** A pattern of a regex list that matches classifies the path. */
  lemma Classified(rs: seq<Regex>, n: nat, m: nat, path: string, k: nat)
    requires n < |rs| && m < |rs[n]| && k <= |Lower(path)| && MatchesAt(rs[n][m], Lower(path), k)
    ensures AnyRegex(rs, path)
  {
    SearchFromIff(rs[n][m], Lower(path), 0);
    RegexSearchIff(rs[n], path);
    AnyRegexIff(rs, path);
  }

  /** Case does not matter: test_.*\.py$ matches a capitalised name with an upper-case extension. */
  lemma TestFileExample()
    ensures IsTestFile("src/Test_Parser.PY")
  {
    var t := Lower("src/Test_Parser.PY");
    assert t == "src/test_parser.py";
    assert OccursAt(t, "test_", 4) && OccursAt(t, ".py", 15);
    assert NoNewline(t, 9, 15);
    RestMatchesIff(t, ".py", 9);
    Classified(TestPatterns, 0, 0, "src/Test_Parser.PY", 4);
  }

  /**
   * `tests?/` is searched anywhere, so a directory that merely ends in
   * "test" (latest/) makes every file under it a test file.
   */
  lemma UnanchoredTestDirectory()
    ensures IsTestFile("latest/notes.md")
  {
    var t := Lower("latest/notes.md");
    assert t == "latest/notes.md";
    assert OccursAt(t, "test/", 2);
    Classified(TestPatterns, 4, 0, "latest/notes.md", 2);
  }

  lemma ConfigAndDocsExamples()
    ensures IsConfigFile("Dockerfile.dev")
    ensures IsDocsFile("docs/setup.rst")
  {
    var t := Lower("Dockerfile.dev");
    assert t == "dockerfile.dev";
    assert OccursAt(t, "dockerfile", 0);
    Classified(ConfigPatterns, 2, 0, "Dockerfile.dev", 0);
    var u := Lower("docs/setup.rst");
    assert u == "docs/setup.rst";
    assert OccursAt(u, ".rst", 10);
    Classified(DocsPatterns, 1, 0, "docs/setup.rst", 10);
  }

  // ---------------------------------------------------------------------
  // Language and description of one file
  // ---------------------------------------------------------------------

  const LanguageMap: map<string, string> := map[
    "py" := "python", "js" := "javascript", "ts" := "typescript", "java" := "java",
    "cpp" := "cpp", "c" := "c", "h" := "c", "rs" := "rust", "go" := "go",
    "php" := "php", "rb" := "ruby", "swift" := "swift", "kt" := "kotlin",
    "cs" := "csharp", "html" := "html", "css" := "css", "scss" := "scss",
    "json" := "json", "yaml" := "yaml", "yml" := "yaml", "xml" := "xml",
    "sql" := "sql", "sh" := "shell"
  ]

  /** _detect_language: the language of the lower-cased text after the last '.'. */
  function DetectLanguage(path: string): (r: Option<string>)
    ensures '.' !in path ==> r == None
    ensures r.Some? ==> r.value in LanguageMap.Values
  {
    if '.' !in path then None
    else if Extension(path) in LanguageMap then Some(LanguageMap[Extension(path)])
    else None
  }

  /** The language is looked up by the lower-cased text after the last '.', and unknown extensions give None. */
  lemma LanguageOfLastExtension(stem: string, ext: string)
    requires '.' !in ext
    ensures DetectLanguage(stem + "." + ext)
      == if Lower(ext) in LanguageMap then Some(LanguageMap[Lower(ext)]) else None
  {
    var path := stem + "." + ext;
    assert path == stem + ['.'] + ext;
    SplitLastPiece(stem, '.', ext);
    assert path[|stem|] == '.';
  }

  /** Extensions are compared lower-cased, only the last one counts, and a name without '.' has none. */
  lemma LanguageExamples()
    ensures DetectLanguage("src/Main.PY") == Some("python")
    ensures DetectLanguage("archive.tar.gz") == None
    ensures DetectLanguage("Makefile") == None
  {
    assert "py" in LanguageMap && LanguageMap["py"] == "python";
    assert Lower("PY") == "py";
    LanguageOfLastExtension("src/Main", "PY");
    assert "src/Main" + "." + "PY" == "src/Main.PY";
    assert "gz" !in LanguageMap;
    assert Lower("gz") == "gz";
    LanguageOfLastExtension("archive.tar", "gz");
    assert "archive.tar" + "." + "gz" == "archive.tar.gz";
    assert '.' !in "Makefile";
  }

  /** _generate_file_description: a classification first, then the kind and size of the change. */
  function FileDescription(f: FileChange, isTest: bool, isConfig: bool, isDocs: bool): (r: string)
    ensures r in {"Test file", "Configuration file", "Documentation"} <==> isTest || isConfig || isDocs
    ensures r == "New file" <==> !isTest && !isConfig && !isDocs && f.changeType == Added
    ensures r == "Major additions" ==> f.linesAdded > f.linesRemoved * 3 && f.changeType != Added
    ensures r == "Major deletions" ==> f.linesRemoved > f.linesAdded * 3 && f.changeType != Added
    ensures r == "Updated" ==> f.linesAdded <= f.linesRemoved * 3 && f.linesRemoved <= f.linesAdded * 3
  {
    if isTest then "Test file"
    else if isConfig then "Configuration file"
    else if isDocs then "Documentation"
    else if f.changeType == Added then "New file"
    else if f.linesAdded > f.linesRemoved * 3 then "Major additions"
    else if f.linesRemoved > f.linesAdded * 3 then "Major deletions"
    else "Updated"
  }

  /**
   * With non-negative counts a size-based description needs a change in that
   * direction, and an unclassified change with as many additions as
   * deletions is "Updated".
   */
  lemma DescriptionBySize(f: FileChange, isTest: bool, isConfig: bool, isDocs: bool)
    requires f.linesAdded >= 0 && f.linesRemoved >= 0
    ensures FileDescription(f, isTest, isConfig, isDocs) == "Major additions" ==> f.linesAdded > 0
    ensures FileDescription(f, isTest, isConfig, isDocs) == "Major deletions" ==> f.linesRemoved > 0
    ensures !isTest && !isConfig && !isDocs && f.changeType != Added && f.linesAdded == f.linesRemoved
      ==> FileDescription(f, isTest, isConfig, isDocs) == "Updated"
  {
  }

  // ---------------------------------------------------------------------
  // Enhanced file changes
  // ---------------------------------------------------------------------

  datatype EnhancedFileChange = EnhancedFileChange(
    path: string,
    changeType: string,
    linesAdded: int,
    linesDeleted: int,
    description: Option<string>,
    isTest: bool,
    isConfig: bool,
    isDocs: bool,
    language: Option<string>)

  /** The readable change-type names of _enhance_file_change; the other types become "changed". */
  function ChangeTypeName(t: ChangeType): (r: string)
    ensures r == "added" <==> t == Added
    ensures r == "modified" <==> t == Modified
    ensures r == "deleted" <==> t == Deleted
    ensures r == "changed" <==> !(t == Added || t == Modified || t == Deleted || t == Renamed || t == Copied)
  {
    match t
    case Added => "added"
    case Modified => "modified"
    case Deleted => "deleted"
    case Renamed => "renamed"
    case Copied => "copied"
    case _ => "changed"
  }

  function EnhanceFileChange(f: FileChange): EnhancedFileChange
  {
    var isTest := IsTestFile(f.path);
    var isConfig := IsConfigFile(f.path);
    var isDocs := IsDocsFile(f.path);
    EnhancedFileChange(
      f.path, ChangeTypeName(f.changeType), f.linesAdded, f.linesRemoved,
      Some(FileDescription(f, isTest, isConfig, isDocs)),
      isTest, isConfig, isDocs, DetectLanguage(f.path))
  }

  // ---------------------------------------------------------------------
  // Majority rules: more than 70 % of the files
  // ---------------------------------------------------------------------

  function CountDocs(es: seq<EnhancedFileChange>): (k: nat)
    ensures k <= |es|
  {
    if |es| == 0 then 0 else CountDocs(es[..|es| - 1]) + (if es[|es| - 1].isDocs then 1 else 0)
  }

  function CountTests(es: seq<EnhancedFileChange>): (k: nat)
    ensures k <= |es|
  {
    if |es| == 0 then 0 else CountTests(es[..|es| - 1]) + (if es[|es| - 1].isTest then 1 else 0)
  }

  /** k > n * 0.7 as the source writes it, rounded in binary64. */
  predicate MajorityAsWritten(k: nat, n: nat)
  {
    n > 0 && ExceedsSevenTenths(k, n)
  }

  /** More than 70 % of n, in exact arithmetic. */
  predicate Majority(k: nat, n: nat)
  {
    n > 0 && 10 * k > 7 * n
  }

  /** Majority is exactly "the share k / n is above 0.7". */
  lemma MajorityIsShare(k: nat, n: nat)
    ensures Majority(k, n) <==> n > 0 && (k as real) / (n as real) > (7 as real) / (10 as real)
  {
    if n > 0 {
      var q := (k as real) / (n as real);
      assert q * (n as real) == k as real;
      if 10 * k > 7 * n {
        assert 10.0 * q * (n as real) > 7.0 * (n as real);
      } else {
        assert 10.0 * q * (n as real) <= 7.0 * (n as real);
      }
    }
  }

  /** Rounding changes the verdict only at exact multiples of 10: at 63 of 90 files. */
  lemma MajorityRoundingDiffers()
    ensures MajorityAsWritten(63, 90)
    ensures !Majority(63, 90)
  {
    Pow2Facts();
    BitLengthIs(90, 7);
    var n := 90 * SevenTenths;
    assert n == 283726776524341230;
    BitLengthIs(n, 58);
    assert Pow2(5) == 32;
    assert Ulp(n) == 32;
    assert n == 32 * 8866461766385663 + 14;
    assert n / 32 == 8866461766385663 && n % 32 == 14;
    assert RoundToMultiple(n, 32) == 283726776524341216;
    assert RoundToDouble(n) == 283726776524341216;
  }

  /** Away from multiples of 10 (and for fewer than 10^14 files) the written and the exact rule agree. */
  lemma MajorityAgreesOffTens(k: nat, n: nat)
    requires n < 100000000000000 && n % 10 != 0
    ensures MajorityAsWritten(k, n) <==> Majority(k, n)
  {
    SevenTenthsExactOffTens(k, n);
  }

  /** _is_docs_change as written: false on no files, else docs files > len(files) * 0.7. */
  predicate IsDocsChangeAsWritten(es: seq<EnhancedFileChange>)
  {
    |es| > 0 && MajorityAsWritten(CountDocs(es), |es|)
  }

  /** _is_docs_change with the evidently intended "more than 70 %" rule. */
  predicate IsDocsChange(es: seq<EnhancedFileChange>)
  {
    |es| > 0 && Majority(CountDocs(es), |es|)
  }

  predicate IsTestChangeAsWritten(es: seq<EnhancedFileChange>)
  {
    |es| > 0 && MajorityAsWritten(CountTests(es), |es|)
  }

  predicate IsTestChange(es: seq<EnhancedFileChange>)
  {
    |es| > 0 && Majority(CountTests(es), |es|)
  }

  /** 63 documentation files among 90 are exactly 70 %, yet the written rule calls it a docs change. */
  lemma DocsChangeRoundingDiffers(es: seq<EnhancedFileChange>)
    requires |es| == 90 && CountDocs(es) == 63
    ensures IsDocsChangeAsWritten(es) && !IsDocsChange(es)
  {
    MajorityRoundingDiffers();
  }

  /** An empty change is neither; when every file is a docs (test) file it is a docs (test) change. */
  lemma MajorityExtremes(es: seq<EnhancedFileChange>)
    ensures |es| == 0 ==> !IsDocsChange(es) && !IsTestChange(es)
    ensures |es| > 0 && CountDocs(es) == |es| ==> IsDocsChange(es)
    ensures |es| > 0 && CountTests(es) == |es| ==> IsTestChange(es)
  {
  }

  // ---------------------------------------------------------------------
  // Summary fallback
  // ---------------------------------------------------------------------

  lemma NotBlankByFirst(s: string)
    requires |s| > 0 && !IsSpace(s[0])
    ensures !IsBlank(s)
  {
  }

  /**
   * _generate_change_summary of the context builder. Its test
   * `change_summary and change_summary.strip()` is "not blank"
   * (Strings.StripEmptyIffBlank).
   */
  function GeneratedSummary(a: DiffAnalysis, es: seq<EnhancedFileChange>): (r: string)
    ensures !IsBlank(r)
    ensures !IsBlank(a.changeSummary) ==> r == a.changeSummary
    ensures IsBlank(a.changeSummary) ==> r in {"Update documentation", "Update tests", "Add new feature", "Fix bug", "Refactor code", "Update code"}
  {
    if !IsBlank(a.changeSummary) then a.changeSummary
    else
      var r :=
        if IsDocsChange(es) then "Update documentation"
        else if IsTestChange(es) then "Update tests"
        else if IsLikelyFeature(a) then "Add new feature"
        else if IsLikelyFix(a) then "Fix bug"
        else if IsLikelyRefactor(a) then "Refactor code"
        else "Update code";
      assert r[0] in {'U', 'A', 'F', 'R'};
      NotBlankByFirst(r);
      r
  }

  /** The fallback takes the first rule that applies: docs, tests, feature, fix, refactor. */
  lemma SummaryFallbackOrder(a: DiffAnalysis, es: seq<EnhancedFileChange>)
    requires IsBlank(a.changeSummary)
    ensures GeneratedSummary(a, es) == "Update tests" ==> !IsDocsChange(es) && IsTestChange(es)
    ensures GeneratedSummary(a, es) == "Add new feature" ==> !IsDocsChange(es) && !IsTestChange(es) && IsLikelyFeature(a)
    ensures GeneratedSummary(a, es) == "Fix bug" ==> !IsLikelyFeature(a) && IsLikelyFix(a)
    ensures GeneratedSummary(a, es) == "Refactor code" ==> !IsLikelyFix(a) && IsLikelyRefactor(a)
    ensures GeneratedSummary(a, es) == "Update code" <==>
      !IsDocsChange(es) && !IsTestChange(es) && !IsLikelyFeature(a) && !IsLikelyFix(a) && !IsLikelyRefactor(a)
  {
  }

  // ---------------------------------------------------------------------
  // Issue references
  // ---------------------------------------------------------------------

  /** The longest run of ASCII digits starting at i (the greedy `\d+`). */
  function DigitRun(t: string, i: nat): (r: string)
    requires i <= |t|
    decreases |t| - i
    ensures i + |r| <= |t| && r == t[i..i + |r|]
    ensures forall k :: 0 <= k < |r| ==> IsAsciiDigit(r[k])
    ensures i + |r| == |t| || !IsAsciiDigit(t[i + |r|])
  {
    if i < |t| && IsAsciiDigit(t[i]) then [t[i]] + DigitRun(t, i + 1) else ""
  }

  /** `#(\d+)` matched at i: a '#' and at least one digit; the capture is the digits. */
  function HashAt(t: string, i: nat): (g: Option<string>)
    requires i <= |t|
    ensures g.Some? ==> i + 1 + |g.value| <= |t| && |g.value| > 0
  {
    if i + 1 < |t| && t[i] == '#' && IsAsciiDigit(t[i + 1]) then Some(DigitRun(t, i + 1)) else None
  }

  /**
   * The four patterns of _extract_related_issues: `#(\d+)` and
   * `<stem>s?\s+#(\d+)` for the stems close, fixe and resolve.
   */
  datatype IssuePattern = HashRef | KeywordRef(stem: string)

  const IssuePatterns: seq<IssuePattern> := [HashRef, KeywordRef("close"), KeywordRef("fixe"), KeywordRef("resolve")]

  /** A match starting exactly at i: the captured digits and the end of the match. */
  function MatchAt(p: IssuePattern, t: string, i: nat): (m: Option<(string, nat)>)
    requires i <= |t|
    ensures m.Some? ==> i < m.value.1 <= |t|
    ensures m.Some? ==> exists k :: i <= k < |t| && HashAt(t, k) == Some(m.value.0)
  {
    match p
    case HashRef =>
      (match HashAt(t, i)
       case Some(g) => Some((g, i + 1 + |g|))
       case None => None)
    case KeywordRef(stem) =>
      if |stem| == 0 || !OccursAt(Lower(t), stem, i) then None
      else
        var j := i + |stem|;
        var j' := if j < |t| && LowerChar(t[j]) == 's' then j + 1 else j;
        var k := SkipSpaces(t, j');
        if k == j' then None
        else
          match HashAt(t, k)
          case Some(g) => Some((g, k + 1 + |g|))
          case None => None
  }

  /** re.findall from position i: matches scanned left to right without overlapping. */
  function FindAllFrom(p: IssuePattern, t: string, i: nat): seq<string>
    requires i <= |t|
    decreases |t| - i
  {
    if i == |t| then []
    else
      match MatchAt(p, t, i)
      case Some(m) => [m.0] + FindAllFrom(p, t, m.1)
      case None => FindAllFrom(p, t, i + 1)
  }

  function FindAll(p: IssuePattern, t: string): seq<string>
  {
    FindAllFrom(p, t, 0)
  }

  /** The references of a text: "#" and the digits after every '#' that a digit follows. */
  function IssueRefs(t: string): set<string>
  {
    set k | 0 <= k < |t| && HashAt(t, k).Some? :: "#" + HashAt(t, k).value
  }

  /** What the loop over the patterns collects. */
  function Captured(ps: seq<IssuePattern>, t: string): set<string>
  {
    if |ps| == 0 then {}
    else Captured(ps[..|ps| - 1], t) + set g | g in FindAll(ps[|ps| - 1], t) :: "#" + g
  }

  /** Every capture of every pattern is the digit run after some '#'. */
  lemma {:induction false} FindAllSound(p: IssuePattern, t: string, i: nat)
    requires i <= |t|
    decreases |t| - i
    ensures forall g :: g in FindAllFrom(p, t, i) ==> exists k :: 0 <= k < |t| && HashAt(t, k) == Some(g)
  {
    if i < |t| {
      match MatchAt(p, t, i)
      case Some(m) =>
        FindAllSound(p, t, m.1);
      case None =>
        FindAllSound(p, t, i + 1);
    }
  }

  /** Scanning for `#(\d+)` from any position up to a '#' finds the reference there. */
  lemma {:induction false} FindAllHashComplete(t: string, i: nat, k: nat)
    requires i <= k < |t| && HashAt(t, k).Some?
    decreases |t| - i
    ensures HashAt(t, k).value in FindAllFrom(HashRef, t, i)
  {
    match MatchAt(HashRef, t, i)
    case Some(m) =>
      if i != k {
        var g := HashAt(t, i).value;
        assert forall q :: i + 1 <= q < i + 1 + |g| ==> t[q] == g[q - i - 1];
        assert t[k] == '#' && !IsAsciiDigit('#');
        FindAllHashComplete(t, m.1, k);
      }
    case None =>
      FindAllHashComplete(t, i + 1, k);
  }

  lemma {:induction false} CapturedSound(ps: seq<IssuePattern>, t: string)
    ensures Captured(ps, t) <= IssueRefs(t)
  {
    if |ps| > 0 {
      CapturedSound(ps[..|ps| - 1], t);
      FindAllSound(ps[|ps| - 1], t, 0);
    }
  }

  lemma {:induction false} CapturedGrows(ps: seq<IssuePattern>, t: string, n: nat)
    requires n <= |ps|
    ensures Captured(ps[..n], t) <= Captured(ps, t)
  {
    if n < |ps| {
      CapturedGrows(ps[..|ps| - 1], t, n);
      assert ps[..|ps| - 1][..n] == ps[..n];
    } else {
      assert ps[..n] == ps;
    }
  }

  /** The keyword patterns add nothing that `#(\d+)` does not already capture. */
  lemma CapturedIsIssueRefs(t: string)
    ensures Captured(IssuePatterns, t) == IssueRefs(t)
  {
    CapturedSound(IssuePatterns, t);
    CapturedGrows(IssuePatterns, t, 1);
    assert IssuePatterns[..1] == [HashRef];
    assert [HashRef][..0] == [];
    assert Captured([HashRef], t) == set g | g in FindAll(HashRef, t) :: "#" + g;
    forall r | r in IssueRefs(t)
      ensures r in Captured(IssuePatterns, t)
    {
      var k :| 0 <= k < |t| && HashAt(t, k).Some? && r == "#" + HashAt(t, k).value;
      FindAllHashComplete(t, 0, k);
    }
  }

  /**
   * _extract_related_issues: the references of the text, each "#" and its
   * digits, sorted and without duplicates; [] for an empty text.
   */
  method ExtractRelatedIssues(text: string) returns (issues: seq<string>)
    ensures StrictlySorted(issues)
    ensures forall r :: r in issues <==> r in IssueRefs(text)
    ensures text == "" ==> issues == []
  {
    if text == "" {
      return [];
    }
    var found: set<string> := {};
    var p := 0;
    while p < |IssuePatterns|
      invariant 0 <= p <= |IssuePatterns|
      invariant found == Captured(IssuePatterns[..p], text)
    {
      var matches := FindAll(IssuePatterns[p], text);
      var m := 0;
      while m < |matches|
        invariant 0 <= m <= |matches|
        invariant found == Captured(IssuePatterns[..p], text) + set g | g in matches[..m] :: "#" + g
      {
        assert matches[..m + 1] == matches[..m] + [matches[m]];
        found := found + {"#" + matches[m]};
        m := m + 1;
      }
      assert matches[..m] == matches;
      assert IssuePatterns[..p + 1][..p] == IssuePatterns[..p];
      p := p + 1;
    }
    assert IssuePatterns[..p] == IssuePatterns;
    CapturedIsIssueRefs(text);
    issues := SortSet(found);
  }

  /** Every reference is a '#' followed by ASCII digits. */
  lemma IssueRefShape(t: string, r: string)
    requires r in IssueRefs(t)
    ensures |r| >= 2 && r[0] == '#' && IsDigits(r[1..])
  {
    var k :| 0 <= k < |t| && HashAt(t, k).Some? && r == "#" + HashAt(t, k).value;
    assert r[1..] == HashAt(t, k).value;
  }

  // ---------------------------------------------------------------------
  // The enhanced analysis
  // ---------------------------------------------------------------------

  datatype EnhancedDiffAnalysis = EnhancedDiffAnalysis(
    summary: string,
    body: Option<string>,
    rationale: Option<string>,
    scope: Option<string>,
    breakingChange: Option<string>,
    isFeature: bool,
    isFix: bool,
    isRefactor: bool,
    isDocs: bool,
    isTest: bool,
    affectedFiles: seq<EnhancedFileChange>,
    addedFiles: seq<EnhancedFileChange>,
    modifiedFiles: seq<EnhancedFileChange>,
    deletedFiles: seq<EnhancedFileChange>,
    testFiles: seq<EnhancedFileChange>,
    linesAdded: int,
    linesDeleted: int,
    relatedIssues: seq<string>)

  function WithTypeName(es: seq<EnhancedFileChange>, name: string): (r: seq<EnhancedFileChange>)
    ensures |r| <= |es|
  {
    if |es| == 0 then []
    else WithTypeName(es[..|es| - 1], name) + (if es[|es| - 1].changeType == name then [es[|es| - 1]] else [])
  }

  function TestsOf(es: seq<EnhancedFileChange>): (r: seq<EnhancedFileChange>)
    ensures |r| == CountTests(es)
  {
    if |es| == 0 then []
    else TestsOf(es[..|es| - 1]) + (if es[|es| - 1].isTest then [es[|es| - 1]] else [])
  }

  /** One more enhanced file joins the lists it belongs to, at the end. */
  lemma ListsSnoc(es: seq<EnhancedFileChange>, e: EnhancedFileChange)
    ensures WithTypeName(es + [e], "added") == WithTypeName(es, "added") + (if e.changeType == "added" then [e] else [])
    ensures WithTypeName(es + [e], "modified") == WithTypeName(es, "modified") + (if e.changeType == "modified" then [e] else [])
    ensures WithTypeName(es + [e], "deleted") == WithTypeName(es, "deleted") + (if e.changeType == "deleted" then [e] else [])
    ensures TestsOf(es + [e]) == TestsOf(es) + (if e.isTest then [e] else [])
  {
    assert (es + [e])[..|es|] == es;
  }

  /** The files of no category list: renamed, copied and "changed" files. */
  function Unlisted(es: seq<EnhancedFileChange>): seq<EnhancedFileChange>
  {
    if |es| == 0 then []
    else
      var e := es[|es| - 1];
      Unlisted(es[..|es| - 1]) + (if e.changeType in {"added", "modified", "deleted"} then [] else [e])
  }

  lemma {:induction false} WithTypeNameMembers(es: seq<EnhancedFileChange>, name: string)
    ensures forall e :: e in WithTypeName(es, name) <==> e in es && e.changeType == name
  {
    if |es| > 0 {
      WithTypeNameMembers(es[..|es| - 1], name);
      assert es == es[..|es| - 1] + [es[|es| - 1]];
    }
  }

  lemma {:induction false} TestsOfMembers(es: seq<EnhancedFileChange>)
    ensures forall e :: e in TestsOf(es) <==> e in es && e.isTest
  {
    if |es| > 0 {
      TestsOfMembers(es[..|es| - 1]);
      assert es == es[..|es| - 1] + [es[|es| - 1]];
    }
  }

  /** Every file is in exactly one of the added, modified and deleted lists or in none of them. */
  lemma {:induction false} PartitionSizes(es: seq<EnhancedFileChange>)
    ensures |WithTypeName(es, "added")| + |WithTypeName(es, "modified")| + |WithTypeName(es, "deleted")| + |Unlisted(es)| == |es|
  {
    if |es| > 0 {
      PartitionSizes(es[..|es| - 1]);
    }
  }

  /** The three lists are disjoint, and a renamed, copied or "changed" file is in none of them. */
  lemma PartitionDisjoint(es: seq<EnhancedFileChange>)
    ensures forall e :: e in WithTypeName(es, "added") ==> e !in WithTypeName(es, "modified") && e !in WithTypeName(es, "deleted")
    ensures forall e :: e in WithTypeName(es, "modified") ==> e !in WithTypeName(es, "deleted")
    ensures forall e :: e in es && e.changeType !in {"added", "modified", "deleted"} ==>
      e !in WithTypeName(es, "added") && e !in WithTypeName(es, "modified") && e !in WithTypeName(es, "deleted")
  {
    WithTypeNameMembers(es, "added");
    WithTypeNameMembers(es, "modified");
    WithTypeNameMembers(es, "deleted");
  }

  /** Everything _enhance_diff_analysis promises about its result. */
  ghost predicate EnhancementOf(a: DiffAnalysis, r: EnhancedDiffAnalysis)
  {
    && |r.affectedFiles| == |a.filesChanged|
    && (forall i :: 0 <= i < |a.filesChanged| ==> r.affectedFiles[i] == EnhanceFileChange(a.filesChanged[i]))
    && r.addedFiles == WithTypeName(r.affectedFiles, "added")
    && r.modifiedFiles == WithTypeName(r.affectedFiles, "modified")
    && r.deletedFiles == WithTypeName(r.affectedFiles, "deleted")
    && r.testFiles == TestsOf(r.affectedFiles)
    && r.summary == GeneratedSummary(a, r.affectedFiles)
    && r.scope == Some(ChangeScope(a))
    && r.isFeature == IsLikelyFeature(a)
    && r.isFix == IsLikelyFix(a)
    && r.isRefactor == IsLikelyRefactor(a)
    && r.isDocs == IsDocsChange(r.affectedFiles)
    && r.isTest == IsTestChange(r.affectedFiles)
    && r.linesAdded == a.totalAdditions
    && r.linesDeleted == a.totalDeletions
    && StrictlySorted(r.relatedIssues)
    && (forall s :: s in r.relatedIssues <==> s in IssueRefs(a.changeSummary))
    && r.body == None && r.rationale == None && r.breakingChange == None
  }

  /**
   * The loop of _enhance_diff_analysis: every file converted by `enhance`
   * (_enhance_file_change), in order, and put into its category lists.
   */
  method EnhanceFiles(fs: seq<FileChange>, enhance: FileChange -> EnhancedFileChange)
    returns (enhanced: seq<EnhancedFileChange>, added: seq<EnhancedFileChange>, modified: seq<EnhancedFileChange>,
             deleted: seq<EnhancedFileChange>, tests: seq<EnhancedFileChange>)
    ensures |enhanced| == |fs|
    ensures forall j :: 0 <= j < |fs| ==> enhanced[j] == enhance(fs[j])
    ensures added == WithTypeName(enhanced, "added")
    ensures modified == WithTypeName(enhanced, "modified")
    ensures deleted == WithTypeName(enhanced, "deleted")
    ensures tests == TestsOf(enhanced)
  {
    enhanced, added, modified, deleted, tests := [], [], [], [], [];
    var i := 0;
    while i < |fs|
      invariant 0 <= i <= |fs|
      invariant |enhanced| == i
      invariant forall j :: 0 <= j < i ==> enhanced[j] == enhance(fs[j])
      invariant added == WithTypeName(enhanced, "added")
      invariant modified == WithTypeName(enhanced, "modified")
      invariant deleted == WithTypeName(enhanced, "deleted")
      invariant tests == TestsOf(enhanced)
    {
      var e := enhance(fs[i]);
      ListsSnoc(enhanced, e);
      enhanced := enhanced + [e];
      if e.changeType == "added" {
        added := added + [e];
      } else if e.changeType == "modified" {
        modified := modified + [e];
      } else if e.changeType == "deleted" {
        deleted := deleted + [e];
      }
      if e.isTest {
        tests := tests + [e];
      }
      i := i + 1;
    }
  }

  /** _enhance_diff_analysis: one enhanced entry per file, in order, sorted into the category lists. */
  method EnhanceDiffAnalysis(a: DiffAnalysis) returns (r: EnhancedDiffAnalysis)
    ensures EnhancementOf(a, r)
  {
    var enhanced, added, modified, deleted, tests := EnhanceFiles(a.filesChanged, EnhanceFileChange);
    var summary := GeneratedSummary(a, enhanced);
    var scope := GetChangeScope(a);
    var issues := ExtractRelatedIssues(a.changeSummary);
    r := EnhancedDiffAnalysis(
      summary, None, None, Some(scope), None,
      IsLikelyFeature(a), IsLikelyFix(a), IsLikelyRefactor(a),
      IsDocsChange(enhanced), IsTestChange(enhanced),
      enhanced, added, modified, deleted, tests,
      a.totalAdditions, a.totalDeletions, issues);
  }

  /** In the enhanced analysis a file is listed as added exactly when its change type is ADDED, and likewise for modified and deleted. */
  lemma CategoryOfFile(a: DiffAnalysis, r: EnhancedDiffAnalysis, i: int)
    requires EnhancementOf(a, r) && 0 <= i < |a.filesChanged|
    ensures r.affectedFiles[i] in r.addedFiles <==> a.filesChanged[i].changeType == Added
    ensures r.affectedFiles[i] in r.modifiedFiles <==> a.filesChanged[i].changeType == Modified
    ensures r.affectedFiles[i] in r.deletedFiles <==> a.filesChanged[i].changeType == Deleted
    ensures r.affectedFiles[i] in r.testFiles <==> IsTestFile(a.filesChanged[i].path)
  {
    WithTypeNameMembers(r.affectedFiles, "added");
    WithTypeNameMembers(r.affectedFiles, "modified");
    WithTypeNameMembers(r.affectedFiles, "deleted");
    TestsOfMembers(r.affectedFiles);
  }

  // ---------------------------------------------------------------------
  // Template contexts
  // ---------------------------------------------------------------------

  datatype RepositoryInfo = RepositoryInfo(name: string, url: Option<string>, branch: string, remote: string, rootPath: string)

  datatype UserInfo = UserInfo(name: Option<string>, email: Option<string>)

  /** The values a template context holds. */
  datatype ContextValue =
    | Changes(analysis: EnhancedDiffAnalysis)
    | Repository(info: RepositoryInfo)
    | User(user: UserInfo)
    | Text(text: string)
    | Other(value: Value)

  type Context = Dict<ContextValue>

  /**
   * What the builder reads from its surroundings: the repository and user
   * lookups of _get_repository_info and _get_user_info, and the clock.
   */
  datatype Environment = Environment(repository: RepositoryInfo, user: UserInfo, timestamp: string)

  /** `if additional_context: context.update(additional_context)` */
  function WithAdditional(base: Context, additional: Option<Context>): (ctx: Context)
    requires DistinctKeys(base)
    requires additional.Some? ==> DistinctKeys(additional.value)
    ensures DistinctKeys(ctx)
    ensures forall k :: HasKey(ctx, k) <==> HasKey(base, k) || (additional.Some? && HasKey(additional.value, k))
    ensures forall k :: additional.Some? && HasKey(additional.value, k) ==> Get(ctx, k) == Get(additional.value, k)
    ensures forall k :: !(additional.Some? && HasKey(additional.value, k)) ==> Get(ctx, k) == Get(base, k)
  {
    if additional.Some? && additional.value != [] then
      var e := additional.value;
      UpdateKeepsDistinct(base, e);
      assert forall k :: HasKey(Update(base, e), k) <==> HasKey(base, k) || HasKey(e, k) by {
        forall k { UpdateKeys(base, e, k); }
      }
      assert forall k :: Get(Update(base, e), k) == (if HasKey(e, k) then Get(e, k) else Get(base, k)) by {
        forall k { GetUpdate(base, e, k); }
      }
      Update(base, e)
    else
      base
  }

  const CommitKeys: seq<string> := ["changes", "repository", "user", "timestamp"]
  const PrKeys: seq<string> := ["changes", "repository", "user", "base_branch", "head_branch", "timestamp"]

  function CommitBase(changes: EnhancedDiffAnalysis, userInfo: Option<UserInfo>, env: Environment): (ctx: Context)
    ensures DistinctKeys(ctx)
  {
    [("changes", Changes(changes)),
     ("repository", Repository(env.repository)),
     ("user", User(userInfo.GetOr(env.user))),
     ("timestamp", Text(env.timestamp))]
  }

  function PrBase(changes: EnhancedDiffAnalysis, baseBranch: string, headBranch: string, userInfo: Option<UserInfo>, env: Environment): (ctx: Context)
    ensures DistinctKeys(ctx)
  {
    [("changes", Changes(changes)),
     ("repository", Repository(env.repository)),
     ("user", User(userInfo.GetOr(env.user))),
     ("base_branch", Text(baseBranch)),
     ("head_branch", Text(headBranch)),
     ("timestamp", Text(env.timestamp))]
  }

  lemma CommitBaseFacts(changes: EnhancedDiffAnalysis, userInfo: Option<UserInfo>, env: Environment)
    ensures var base := CommitBase(changes, userInfo, env);
      && (forall k :: HasKey(base, k) <==> k in CommitKeys)
      && Get(base, "changes") == Some(Changes(changes))
      && Get(base, "repository") == Some(Repository(env.repository))
      && Get(base, "user") == Some(User(userInfo.GetOr(env.user)))
      && Get(base, "timestamp") == Some(Text(env.timestamp))
  {
    var base := CommitBase(changes, userInfo, env);
    assert Keys(base) == CommitKeys;
    forall k
      ensures HasKey(base, k) <==> k in CommitKeys
    {
      HasKeyInKeys(base, k);
    }
    GetAt(base, 0);
    GetAt(base, 1);
    GetAt(base, 2);
    GetAt(base, 3);
  }

  lemma PrBaseFacts(changes: EnhancedDiffAnalysis, baseBranch: string, headBranch: string, userInfo: Option<UserInfo>, env: Environment)
    ensures var base := PrBase(changes, baseBranch, headBranch, userInfo, env);
      && (forall k :: HasKey(base, k) <==> k in PrKeys)
      && Get(base, "changes") == Some(Changes(changes))
      && Get(base, "repository") == Some(Repository(env.repository))
      && Get(base, "user") == Some(User(userInfo.GetOr(env.user)))
      && Get(base, "base_branch") == Some(Text(baseBranch))
      && Get(base, "head_branch") == Some(Text(headBranch))
      && Get(base, "timestamp") == Some(Text(env.timestamp))
  {
    var base := PrBase(changes, baseBranch, headBranch, userInfo, env);
    assert Keys(base) == PrKeys;
    forall k
      ensures HasKey(base, k) <==> k in PrKeys
    {
      HasKeyInKeys(base, k);
    }
    GetAt(base, 0);
    GetAt(base, 1);
    GetAt(base, 2);
    GetAt(base, 3);
    GetAt(base, 4);
    GetAt(base, 5);
  }

  lemma CommitContextFacts(changes: EnhancedDiffAnalysis, userInfo: Option<UserInfo>, additional: Option<Context>, env: Environment)
    requires additional.Some? ==> DistinctKeys(additional.value)
    ensures var ctx := WithAdditional(CommitBase(changes, userInfo, env), additional);
      && (forall k :: HasKey(ctx, k) <==> k in CommitKeys || (additional.Some? && HasKey(additional.value, k)))
      && (!(additional.Some? && HasKey(additional.value, "changes")) ==> Get(ctx, "changes") == Some(Changes(changes)))
      && (!(additional.Some? && HasKey(additional.value, "user")) ==> Get(ctx, "user") == Some(User(userInfo.GetOr(env.user))))
      && (!(additional.Some? && HasKey(additional.value, "repository")) ==> Get(ctx, "repository") == Some(Repository(env.repository)))
      && (!(additional.Some? && HasKey(additional.value, "timestamp")) ==> Get(ctx, "timestamp") == Some(Text(env.timestamp)))
  {
    CommitBaseFacts(changes, userInfo, env);
  }

  /** A key that the additional context does not set keeps the base value. */
  lemma AdditionalKeeps(base: Context, additional: Option<Context>, k: string)
    requires DistinctKeys(base)
    requires additional.Some? ==> DistinctKeys(additional.value)
    ensures !(additional.Some? && HasKey(additional.value, k)) ==> Get(WithAdditional(base, additional), k) == Get(base, k)
  {
  }

  lemma PrContextKeys(changes: EnhancedDiffAnalysis, baseBranch: string, headBranch: string, userInfo: Option<UserInfo>,
                      additional: Option<Context>, env: Environment)
    requires additional.Some? ==> DistinctKeys(additional.value)
    ensures var ctx := WithAdditional(PrBase(changes, baseBranch, headBranch, userInfo, env), additional);
      forall k :: HasKey(ctx, k) <==> k in PrKeys || (additional.Some? && HasKey(additional.value, k))
  {
    PrBaseFacts(changes, baseBranch, headBranch, userInfo, env);
  }

  lemma PrContextValues(changes: EnhancedDiffAnalysis, baseBranch: string, headBranch: string, userInfo: Option<UserInfo>,
                        additional: Option<Context>, env: Environment)
    requires additional.Some? ==> DistinctKeys(additional.value)
    ensures var ctx := WithAdditional(PrBase(changes, baseBranch, headBranch, userInfo, env), additional);
      && (!(additional.Some? && HasKey(additional.value, "changes")) ==> Get(ctx, "changes") == Some(Changes(changes)))
      && (!(additional.Some? && HasKey(additional.value, "base_branch")) ==> Get(ctx, "base_branch") == Some(Text(baseBranch)))
      && (!(additional.Some? && HasKey(additional.value, "head_branch")) ==> Get(ctx, "head_branch") == Some(Text(headBranch)))
      && (!(additional.Some? && HasKey(additional.value, "user")) ==> Get(ctx, "user") == Some(User(userInfo.GetOr(env.user))))
      && (!(additional.Some? && HasKey(additional.value, "repository")) ==> Get(ctx, "repository") == Some(Repository(env.repository)))
      && (!(additional.Some? && HasKey(additional.value, "timestamp")) ==> Get(ctx, "timestamp") == Some(Text(env.timestamp)))
  {
    PrBaseFacts(changes, baseBranch, headBranch, userInfo, env);
    var base := PrBase(changes, baseBranch, headBranch, userInfo, env);
    AdditionalKeeps(base, additional, "changes");
    AdditionalKeeps(base, additional, "base_branch");
    AdditionalKeeps(base, additional, "head_branch");
    AdditionalKeeps(base, additional, "user");
    AdditionalKeeps(base, additional, "repository");
    AdditionalKeeps(base, additional, "timestamp");
  }

  /**
   * ContextBuilder.build_commit_context: changes, repository, user (the
   * given one, else the looked-up one) and timestamp, with every key of the
   * additional context taking precedence.
   */
  method BuildCommitContext(a: DiffAnalysis, userInfo: Option<UserInfo>, additional: Option<Context>, env: Environment)
    returns (ctx: Context)
    requires additional.Some? ==> DistinctKeys(additional.value)
    ensures DistinctKeys(ctx)
    ensures forall k :: HasKey(ctx, k) <==> k in CommitKeys || (additional.Some? && HasKey(additional.value, k))
    ensures forall k :: additional.Some? && HasKey(additional.value, k) ==> Get(ctx, k) == Get(additional.value, k)
    ensures !(additional.Some? && HasKey(additional.value, "changes")) ==>
      Get(ctx, "changes").Some? && Get(ctx, "changes").value.Changes? && EnhancementOf(a, Get(ctx, "changes").value.analysis)
    ensures !(additional.Some? && HasKey(additional.value, "user")) ==> Get(ctx, "user") == Some(User(userInfo.GetOr(env.user)))
    ensures !(additional.Some? && HasKey(additional.value, "repository")) ==> Get(ctx, "repository") == Some(Repository(env.repository))
    ensures !(additional.Some? && HasKey(additional.value, "timestamp")) ==> Get(ctx, "timestamp") == Some(Text(env.timestamp))
  {
    var changes := EnhanceDiffAnalysis(a);
    ctx := WithAdditional(CommitBase(changes, userInfo, env), additional);
    CommitContextFacts(changes, userInfo, additional, env);
  }

  /** ContextBuilder.build_pr_context: the commit keys plus base_branch and head_branch. */
  method BuildPrContext(a: DiffAnalysis, baseBranch: string, headBranch: string, userInfo: Option<UserInfo>,
                        additional: Option<Context>, env: Environment)
    returns (ctx: Context)
    requires additional.Some? ==> DistinctKeys(additional.value)
    ensures DistinctKeys(ctx)
    ensures forall k :: HasKey(ctx, k) <==>
      k in PrKeys || (additional.Some? && HasKey(additional.value, k))
    ensures forall k :: additional.Some? && HasKey(additional.value, k) ==> Get(ctx, k) == Get(additional.value, k)
    ensures !(additional.Some? && HasKey(additional.value, "changes")) ==>
      Get(ctx, "changes").Some? && Get(ctx, "changes").value.Changes? && EnhancementOf(a, Get(ctx, "changes").value.analysis)
    ensures !(additional.Some? && HasKey(additional.value, "base_branch")) ==> Get(ctx, "base_branch") == Some(Text(baseBranch))
    ensures !(additional.Some? && HasKey(additional.value, "head_branch")) ==> Get(ctx, "head_branch") == Some(Text(headBranch))
    ensures !(additional.Some? && HasKey(additional.value, "user")) ==> Get(ctx, "user") == Some(User(userInfo.GetOr(env.user)))
    ensures !(additional.Some? && HasKey(additional.value, "repository")) ==> Get(ctx, "repository") == Some(Repository(env.repository))
    ensures !(additional.Some? && HasKey(additional.value, "timestamp")) ==> Get(ctx, "timestamp") == Some(Text(env.timestamp))
  {
    var changes := EnhanceDiffAnalysis(a);
    ctx := WithAdditional(PrBase(changes, baseBranch, headBranch, userInfo, env), additional);
    PrContextKeys(changes, baseBranch, headBranch, userInfo, additional, env);
    PrContextValues(changes, baseBranch, headBranch, userInfo, additional, env);
  }

  /** The user a module-level builder passes on: config.user's name and email when a user section is set. */
  function ConfigUserInfo(configUser: Option<(Option<string>, Option<string>)>): (u: Option<UserInfo>)
    ensures u.Some? <==> configUser.Some?
  {
    match configUser
    case Some(c) => Some(UserInfo(c.0, c.1))
    case None => None
  }

  /**
   * The head branch of the module-level build_pr_context: the given one,
   * else the active branch the repository reports (None when there is no
   * repository or the lookup fails), else "current"; never empty.
   */
  function ResolveHeadBranch(head: Option<string>, detected: Option<string>): (r: string)
    ensures r != ""
    ensures head.Some? && head.value != "" ==> r == head.value
    ensures (head.None? || head.value == "") && detected.Some? && detected.value != "" ==> r == detected.value
    ensures (head.None? || head.value == "") && (detected.None? || detected.value == "") ==> r == "current"
  {
    if head.Some? && head.value != "" then head.value
    else if detected.Some? && detected.value != "" then detected.value
    else "current"
  }
}
