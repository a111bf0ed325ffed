/**
 * The template manager of src/gitai/templates/manager.py: template discovery
 * over an ordered list of search paths, the metadata header of a template
 * file, the variables a template body mentions, the category/name cache of
 * compiled templates and the required-variable check.
 *
 * The directories and files the manager sees, the directory listing order
 * and the Jinja2 parser and renderer are parameters (a TemplateStore); the
 * manager never changes them.
 */
module Templates {
  import opened Wrappers
  import opened Strings
  import opened Ordered
  import opened Errors
  import TemplateContext
  import Python

  /** _capitalize_first_filter: the first character upper-cased, the rest kept. */
  function CapitalizeFirst(text: string): (r: string)
    ensures |r| == |text|
    ensures text != [] ==> r[0] == UpperChar(text[0]) && r[1..] == text[1..]
  {
    if text == [] then text else [UpperChar(text[0])] + text[1..]
  }

  lemma CapitalizeFirstIdempotent(text: string)
    ensures CapitalizeFirst(CapitalizeFirst(text)) == CapitalizeFirst(text)
  {
    if text != [] {
      var r := CapitalizeFirst(text);
      assert r[0] == UpperChar(text[0]);
      assert UpperChar(UpperChar(text[0])) == UpperChar(text[0]);
      assert CapitalizeFirst(r) == [UpperChar(r[0])] + r[1..];
    }
  }

  // ---------------------------------------------------------------------
  // The metadata header
  // ---------------------------------------------------------------------

  const DefaultDescription := "No description available"

  /** What one of the first ten lines of a template declares. */
  datatype HeaderLine = DescriptionLine(text: string) | VariablesLine(names: seq<string>) | OtherLine

  /** The text after key, stripped, with trailing '#' and '}' removed, stripped again. */
  function FieldText(line: string, key: string): string
    requires Contains(line, key)
  {
    Strip(RStripChars(Strip(After(line, key)), {'#', '}'}))
  }

  /** A stripped piece has no white space at either end. */
  lemma StrippedPiece(p: string)
    ensures Strip(p) == [] || (!IsSpace(Strip(p)[0]) && !IsSpace(Strip(p)[|Strip(p)| - 1]))
  {
    StripShape(p);
  }

  /** A string with no white space at either end: what strip() returns. */
  predicate IsStripped(s: string)
  {
    s == [] || (!IsSpace(s[0]) && !IsSpace(s[|s| - 1]))
  }

  /** [v.strip() for v in pieces if v.strip()]. */
  function NonBlankPieces(pieces: seq<string>): (r: seq<string>)
    ensures |r| <= |pieces|
    ensures forall k :: 0 <= k < |r| ==> r[k] != [] && IsStripped(r[k])
  {
    if |pieces| == 0 then []
    else
      var v := Strip(pieces[0]);
      StrippedPiece(pieces[0]);
      var rest := NonBlankPieces(pieces[1..]);
      if v != [] then [v] + rest else rest
  }

  /** The names of a `variables:` line: the comma-separated, non-blank, stripped entries. */
  function VariableList(text: string): (r: seq<string>)
    ensures forall k :: 0 <= k < |r| ==> r[k] != [] && IsStripped(r[k])
  {
    NonBlankPieces(Split(text, ','))
  }

  /**
   * How the loop of _extract_template_info reads a line: after stripping, a
   * line opening with "{#" is a description when it contains "description:",
   * else a variable list when it contains "variables:".
   */
  function ClassifyLine(line: string): (h: HeaderLine)
    ensures WellFormed(h)
  {
    var s := Strip(line);
    if StartsWith(s, "{#") && Contains(s, "description:") then DescriptionLine(FieldText(s, "description:"))
    else if StartsWith(s, "{#") && Contains(s, "variables:") then VariablesLine(VariableList(FieldText(s, "variables:")))
    else OtherLine
  }

  /** The lines the header is read from: lines[:10] of content.split("\n"). */
  function HeaderLines(content: string): (ls: seq<string>)
    ensures |ls| <= 10
  {
    var lines := Split(content, '\n');
    if |lines| <= 10 then lines else lines[..10]
  }

  /** The names of a variables line are non-blank and stripped. */
  predicate WellFormed(h: HeaderLine)
  {
    h.VariablesLine? ==> forall k :: 0 <= k < |h.names| ==> h.names[k] != [] && IsStripped(h.names[k])
  }

  /** Lines, each classified. */
  function ClassifyAll(ls: seq<string>): (hs: seq<HeaderLine>)
    ensures |hs| == |ls|
    ensures forall k :: 0 <= k < |hs| ==> WellFormed(hs[k])
  {
    if |ls| == 0 then [] else ClassifyAll(ls[..|ls| - 1]) + [ClassifyLine(ls[|ls| - 1])]
  }

  lemma ClassifyAllStep(ls: seq<string>, i: nat)
    requires i < |ls|
    ensures ClassifyAll(ls[..i + 1]) == ClassifyAll(ls[..i]) + [ClassifyLine(ls[i])]
  {
    assert ls[..i + 1][..i] == ls[..i];
  }

  /** The header lines of a template, each classified. */
  function Header(content: string): (hs: seq<HeaderLine>)
    ensures |hs| <= 10
  {
    ClassifyAll(HeaderLines(content))
  }

  /** The index of the last description line, if any. */
  function LastDescriptionIndex(hs: seq<HeaderLine>): (r: Option<nat>)
    ensures r.Some? ==> r.value < |hs| && hs[r.value].DescriptionLine?
    ensures r.Some? ==> forall j :: r.value < j < |hs| ==> !hs[j].DescriptionLine?
    ensures r.None? ==> forall j :: 0 <= j < |hs| ==> !hs[j].DescriptionLine?
  {
    if |hs| == 0 then None
    else if hs[|hs| - 1].DescriptionLine? then Some(|hs| - 1)
    else LastDescriptionIndex(hs[..|hs| - 1])
  }

  /** The index of the last variables line, if any. */
  function LastVariablesIndex(hs: seq<HeaderLine>): (r: Option<nat>)
    ensures r.Some? ==> r.value < |hs| && hs[r.value].VariablesLine?
    ensures r.Some? ==> forall j :: r.value < j < |hs| ==> !hs[j].VariablesLine?
    ensures r.None? ==> forall j :: 0 <= j < |hs| ==> !hs[j].VariablesLine?
  {
    if |hs| == 0 then None
    else if hs[|hs| - 1].VariablesLine? then Some(|hs| - 1)
    else LastVariablesIndex(hs[..|hs| - 1])
  }

  /** A later description line overrides the earlier ones. */
  lemma DeclaredSnoc(hs: seq<HeaderLine>, h: HeaderLine)
    requires forall k :: 0 <= k < |hs| ==> WellFormed(hs[k])
    requires WellFormed(h)
    ensures DeclaredDescription(hs + [h]) == if h.DescriptionLine? then h.text else DeclaredDescription(hs)
    ensures DeclaredVariables(hs + [h]) == if h.VariablesLine? then h.names else DeclaredVariables(hs)
  {
    assert (hs + [h])[..|hs|] == hs;
  }

  /** The last description line decides the description; without one it is the default. */
  lemma DescriptionIsLastDeclared(hs: seq<HeaderLine>, i: nat)
    requires i < |hs| && hs[i].DescriptionLine?
    requires forall j :: i < j < |hs| ==> !hs[j].DescriptionLine?
    ensures DeclaredDescription(hs) == hs[i].text
  {
  }

  /** The description the header declares last, or the default text. */
  function DeclaredDescription(hs: seq<HeaderLine>): string
  {
    match LastDescriptionIndex(hs)
    case Some(i) => hs[i].text
    case None => DefaultDescription
  }

  /** The variable list the header declares last, or none. */
  function DeclaredVariables(hs: seq<HeaderLine>): (vs: seq<string>)
    requires forall k :: 0 <= k < |hs| ==> WellFormed(hs[k])
    ensures forall k :: 0 <= k < |vs| ==> vs[k] != [] && IsStripped(vs[k])
  {
    match LastVariablesIndex(hs)
    case Some(i) => assert WellFormed(hs[i]); hs[i].names
    case None => []
  }

  // ---------------------------------------------------------------------
  // Variables mentioned in a template body
  // ---------------------------------------------------------------------

  predicate IsIdentStart(c: char)
  {
    IsAsciiLetter(c) || c == '_'
  }

  predicate IsIdentChar(c: char)
  {
    IsIdentStart(c) || IsAsciiDigit(c)
  }

  /** An identifier `[a-zA-Z_][a-zA-Z0-9_]*`. */
  predicate IsIdentifier(s: string)
  {
    |s| > 0 && IsIdentStart(s[0]) && forall k :: 0 <= k < |s| ==> IsIdentChar(s[k])
  }

  /** The greedy run `[a-zA-Z0-9_]*` starting at i. */
  function IdentRun(t: string, i: nat): (r: string)
    requires i <= |t|
    decreases |t| - i
    ensures i + |r| <= |t| && r == t[i..i + |r|]
    ensures forall k :: 0 <= k < |r| ==> IsIdentChar(r[k])
    ensures i + |r| == |t| || !IsIdentChar(t[i + |r|])
  {
    if i < |t| && IsIdentChar(t[i]) then [t[i]] + IdentRun(t, i + 1) else ""
  }

  /** The identifier starting at i, if one does. */
  function IdentAt(t: string, i: nat): (r: Option<string>)
    requires i <= |t|
    ensures r.Some? ==> IsIdentifier(r.value) && i + |r.value| <= |t| && r.value == t[i..i + |r.value|]
  {
    if i < |t| && IsIdentStart(t[i]) then Some(IdentRun(t, i)) else None
  }

  /**
   * The two patterns of _extract_variables_from_content:
   * `\{\{\s*(ident)\s*\}\}` and `\{\%\s*if\s+(ident)\s*\%\}`.
   */
  datatype VarPattern = Output | IfTest

  /** No '{' from i + 2 up to e, the part of a match after its opening two characters. */
  predicate NoBraceAfterOpening(t: string, i: nat, e: nat)
    requires e <= |t|
  {
    forall q :: i + 2 <= q < e ==> t[q] != '{'
  }

  lemma SpacesAreNotBraces(t: string, i: nat)
    requires i <= |t|
    ensures forall q :: i <= q < SkipSpaces(t, i) ==> t[q] != '{'
  {
    assert !IsSpace('{');
  }

  lemma IdentIsNotBrace(v: string)
    requires IsIdentifier(v)
    ensures '{' !in v
  {
    assert !IsIdentChar('{');
  }

  /** The two characters a b at positions i and i + 1. */
  predicate PairAt(t: string, i: nat, a: char, b: char)
  {
    i + 1 < |t| && t[i] == a && t[i + 1] == b
  }

  /** `(ident)\s*` followed by the closing characters a b, from j: the identifier and the end of the match. */
  function CloseAfterIdent(t: string, j: nat, a: char, b: char): (m: Option<(string, nat)>)
    requires j <= |t| && a != '{' && b != '{'
    ensures m.Some? ==> j + 3 <= m.value.1 <= |t| && IsIdentifier(m.value.0)
    ensures m.Some? ==> forall q :: j <= q < m.value.1 ==> t[q] != '{'
  {
    match IdentAt(t, j)
    case None => None
    case Some(v) =>
      IdentIsNotBrace(v);
      assert forall q :: j <= q < j + |v| ==> t[q] == v[q - j];
      var k := SkipSpaces(t, j + |v|);
      SpacesAreNotBraces(t, j + |v|);
      if PairAt(t, k, a, b) then Some((v, k + 2)) else None
  }

  /** `\{\{\s*(ident)\s*\}\}` matched at i. */
  function OutputAt(t: string, i: nat): (m: Option<(string, nat)>)
    requires i <= |t|
    ensures m.Some? ==> i + 5 <= m.value.1 <= |t| && IsIdentifier(m.value.0)
    ensures m.Some? ==> PairAt(t, i, '{', '{') && NoBraceAfterOpening(t, i, m.value.1)
  {
    if !PairAt(t, i, '{', '{') then None
    else
      SpacesAreNotBraces(t, i + 2);
      CloseAfterIdent(t, SkipSpaces(t, i + 2), '}', '}')
  }

  /** `\{\%\s*if\s+(ident)\s*\%\}` matched at i. */
  function IfTestAt(t: string, i: nat): (m: Option<(string, nat)>)
    requires i <= |t|
    ensures m.Some? ==> i + 5 <= m.value.1 <= |t| && IsIdentifier(m.value.0)
    ensures m.Some? ==> PairAt(t, i, '{', '%') && NoBraceAfterOpening(t, i, m.value.1)
  {
    if !PairAt(t, i, '{', '%') then None
    else
      var j := SkipSpaces(t, i + 2);
      SpacesAreNotBraces(t, i + 2);
      if !PairAt(t, j, 'i', 'f') then None
      else
        var k := SkipSpaces(t, j + 2);
        SpacesAreNotBraces(t, j + 2);
        if k == j + 2 then None else CloseAfterIdent(t, k, '%', '}')
  }

  /**
   * A match starting exactly at i: the captured identifier and the end of the
   * match. Backtracking can never help these patterns: `\s*` stops where the
   * identifier or the closing characters start, and the identifier stops
   * where a space or the closing characters start.
   */
  function VarMatchAt(p: VarPattern, t: string, i: nat): (m: Option<(string, nat)>)
    requires i <= |t|
    ensures m.Some? ==> i + 5 <= m.value.1 <= |t| && IsIdentifier(m.value.0)
    ensures m.Some? ==> PairAt(t, i, '{', if p == Output then '{' else '%')
    ensures m.Some? ==> NoBraceAfterOpening(t, i, m.value.1)
  {
    match p
    case Output => OutputAt(t, i)
    case IfTest => IfTestAt(t, i)
  }

  /** re.findall from position i: matches scanned left to right without overlapping. */
  function FindVarsFrom(p: VarPattern, t: string, i: nat): (r: seq<string>)
    requires i <= |t|
    decreases |t| - i
    ensures forall v :: v in r ==> IsIdentifier(v)
  {
    if i == |t| then []
    else
      match VarMatchAt(p, t, i)
      case Some(m) => [m.0] + FindVarsFrom(p, t, m.1)
      case None => FindVarsFrom(p, t, i + 1)
  }

  /** The identifiers of every place where pattern p matches. */
  function MatchedNames(p: VarPattern, t: string): set<string>
  {
    set k | 0 <= k < |t| && VarMatchAt(p, t, k).Some? :: VarMatchAt(p, t, k).value.0
  }

  /** The variables a template body mentions as `{{ v }}` or `{% if v %}`. */
  function MentionedVariables(t: string): set<string>
  {
    MatchedNames(Output, t) + MatchedNames(IfTest, t)
  }

  lemma {:induction false} FindVarsSound(p: VarPattern, t: string, i: nat)
    requires i <= |t|
    decreases |t| - i
    ensures forall v :: v in FindVarsFrom(p, t, i) ==> v in MatchedNames(p, t)
  {
    if i < |t| {
      match VarMatchAt(p, t, i)
      case Some(m) =>
        FindVarsSound(p, t, m.1);
      case None =>
        FindVarsSound(p, t, i + 1);
    }
  }

  /** No match of the same pattern opens strictly inside a match. */
  lemma NoOpeningInside(p: VarPattern, t: string, i: nat, k: nat)
    requires i <= |t| && VarMatchAt(p, t, i).Some? && i < k < VarMatchAt(p, t, i).value.1
    ensures !PairAt(t, k, '{', if p == Output then '{' else '%')
  {
    var e := VarMatchAt(p, t, i).value.1;
    if k >= i + 2 {
      assert t[k] != '{';
    } else if p == Output {
      assert t[k + 1] != '{';
    } else {
      assert t[k] == '%';
    }
  }

  /** Scanning from any position up to a match finds that match: matches cannot overlap. */
  lemma {:induction false} FindVarsComplete(p: VarPattern, t: string, i: nat, k: nat)
    requires i <= k < |t| && VarMatchAt(p, t, k).Some?
    decreases |t| - i
    ensures VarMatchAt(p, t, k).value.0 in FindVarsFrom(p, t, i)
  {
    match VarMatchAt(p, t, i)
    case Some(m) =>
      assert FindVarsFrom(p, t, i) == [m.0] + FindVarsFrom(p, t, m.1);
      if i != k {
        if k < m.1 {
          NoOpeningInside(p, t, i, k);
        }
        assert m.1 <= k;
        FindVarsComplete(p, t, m.1, k);
      }
    case None =>
      assert FindVarsFrom(p, t, i) == FindVarsFrom(p, t, i + 1);
      FindVarsComplete(p, t, i + 1, k);
  }

  lemma FindVarsIsMatchedNames(p: VarPattern, t: string)
    ensures forall v :: v in FindVarsFrom(p, t, 0) <==> v in MatchedNames(p, t)
  {
    FindVarsSound(p, t, 0);
    forall v | v in MatchedNames(p, t)
      ensures v in FindVarsFrom(p, t, 0)
    {
      var k :| 0 <= k < |t| && VarMatchAt(p, t, k).Some? && v == VarMatchAt(p, t, k).value.0;
      FindVarsComplete(p, t, 0, k);
    }
  }

  /**
   * _extract_variables_from_content: the variables the body mentions, sorted
   * and without duplicates; each is an identifier.
   */
  function ContentVariables(content: string): (r: seq<string>)
    ensures StrictlySorted(r)
    ensures forall v :: v in r <==> v in MentionedVariables(content)
    ensures forall k :: 0 <= k < |r| ==> IsIdentifier(r[k])
  {
    FindVarsIsMatchedNames(Output, content);
    FindVarsIsMatchedNames(IfTest, content);
    var xs := FindVarsFrom(Output, content, 0) + FindVarsFrom(IfTest, content, 0);
    assert forall v :: v in xs ==> IsIdentifier(v);
    SortedDistinct(FindVarsFrom(Output, content, 0) + FindVarsFrom(IfTest, content, 0))
  }

  /** Without a '%' no `{% if v %}` can match. */
  lemma {:induction false} NoIfTestWithoutPercent(t: string, i: nat)
    requires i <= |t| && '%' !in t
    decreases |t| - i
    ensures FindVarsFrom(IfTest, t, i) == []
  {
    if i < |t| {
      if VarMatchAt(IfTest, t, i).Some? {
        assert false;
      }
      NoIfTestWithoutPercent(t, i + 1);
    }
  }

  lemma ContentVariablesExample()
    ensures ContentVariables("{{x}}") == ["x"]
  {
    var t := "{{x}}";
    assert SkipSpaces(t, 2) == 2 by { assert !IsSpace(t[2]); }
    assert IdentRun(t, 3) == "" by { assert !IsIdentChar(t[3]); }
    assert IdentRun(t, 2) == "x";
    assert SkipSpaces(t, 3) == 3 by { assert !IsSpace(t[3]); }
    assert OutputAt(t, 0) == Some(("x", 5));
    assert FindVarsFrom(Output, t, 0) == ["x"] by {
      assert FindVarsFrom(Output, t, 5) == [];
    }
    NoIfTestWithoutPercent(t, 0);
    assert FindVarsFrom(Output, t, 0) + FindVarsFrom(IfTest, t, 0) == ["x"];
    assert SortedDistinct(["x"]) == ["x"] by {
      assert ["x"][..0] == [];
    }
  }

  /** An attribute access such as `{{a.b}}` is not a plain variable. */
  lemma AttributeAccessIsNoVariable()
    ensures ContentVariables("{{a.b}}") == []
  {
    var u := "{{a.b}}";
    assert IdentRun(u, 3) == "" by { assert !IsIdentChar(u[3]); }
    assert IdentRun(u, 2) == "a";
    assert SkipSpaces(u, 2) == 2 by { assert !IsSpace(u[2]); }
    assert SkipSpaces(u, 3) == 3 by { assert !IsSpace(u[3]); }
    assert OutputAt(u, 0).None?;
    assert FindVarsFrom(Output, u, 1) == [] by {
      var k := 1;
      while k < |u|
        invariant 1 <= k <= |u|
        invariant FindVarsFrom(Output, u, 1) == FindVarsFrom(Output, u, k)
      {
        assert !PairAt(u, k, '{', '{');
        k := k + 1;
      }
    }
    NoIfTestWithoutPercent(u, 0);
  }

  // ---------------------------------------------------------------------
  // Template information
  // ---------------------------------------------------------------------

  /** TemplateInfo: a discovered template. */
  datatype TemplateInfo = TemplateInfo(name: string, path: string, category: string, description: string, variables: seq<string>)

  lemma IdentifiersAreStripped(vs: seq<string>)
    requires forall k :: 0 <= k < |vs| ==> IsIdentifier(vs[k])
    ensures forall k :: 0 <= k < |vs| ==> vs[k] != [] && IsStripped(vs[k])
  {
    forall k | 0 <= k < |vs| ensures IsStripped(vs[k]) {
      assert IsIdentChar(vs[k][0]) && IsIdentChar(vs[k][|vs[k]| - 1]);
    }
  }

  /** The last component of a path. */
  function BaseName(path: string): string
  {
    var parts := Split(path, '/');
    parts[|parts| - 1]
  }

  /** Path.stem of a file name matched by `*.j2`: the name without its final ".j2". */
  function Stem(fileName: string): (r: string)
    ensures EndsWith(fileName, ".j2") && |fileName| > 3 ==> r + ".j2" == fileName
  {
    var dot := LastIndexOf(fileName, '.');
    if EndsWith(fileName, ".j2") && |fileName| > 3 then
      var n := |fileName|;
      assert fileName[n - 3..] == ".j2";
      assert fileName[n - 3] == '.' && fileName[n - 2] == 'j' && fileName[n - 1] == '2';
      assert dot == Some(n - 3);
      assert fileName[..n - 3] + ".j2" == fileName;
      fileName[..n - 3]
    else if dot.Some? && 0 < dot.value < |fileName| - 1 then fileName[..dot.value] else fileName
  }

  /** The index of the last occurrence of c. */
  function LastIndexOf(s: string, c: char): (r: Option<nat>)
    ensures r.Some? ==> r.value < |s| && s[r.value] == c && forall j :: r.value < j < |s| ==> s[j] != c
    ensures r.None? ==> c !in s
  {
    if |s| == 0 then None
    else if s[|s| - 1] == c then Some(|s| - 1)
    else LastIndexOf(s[..|s| - 1], c)
  }

  /**
   * The information _extract_template_info derives from a readable file: the
   * last description and the last variable list of the first ten lines;
   * without a declared list, the variables of the body.
   */
  function InfoOf(path: string, category: string, content: string): (info: TemplateInfo)
    ensures info.name == Stem(BaseName(path)) && info.path == path && info.category == category
    ensures forall k :: 0 <= k < |info.variables| ==> info.variables[k] != [] && IsStripped(info.variables[k])
  {
    IdentifiersAreStripped(ContentVariables(content));
    var hs := Header(content);
    var declared := DeclaredVariables(hs);
    TemplateInfo(Stem(BaseName(path)), path, category, DeclaredDescription(hs),
                 if declared == [] then ContentVariables(content) else declared)
  }

  /** The header walk of _extract_template_info, later definitions overriding earlier ones. */
  method ReadHeader(lines: seq<string>) returns (description: string, variables: seq<string>)
    ensures description == DeclaredDescription(ClassifyAll(lines))
    ensures variables == DeclaredVariables(ClassifyAll(lines))
  {
    description := DefaultDescription;
    variables := [];
    ghost var seen: seq<HeaderLine> := [];
    var i := 0;
    while i < |lines|
      invariant 0 <= i <= |lines|
      invariant seen == ClassifyAll(lines[..i])
      invariant description == DeclaredDescription(seen)
      invariant variables == DeclaredVariables(seen)
    {
      var h := ClassifyLine(lines[i]);
      ClassifyAllStep(lines, i);
      DeclaredSnoc(seen, h);
      seen := seen + [h];
      if h.DescriptionLine? {
        description := h.text;
      } else if h.VariablesLine? {
        variables := h.names;
      }
      i := i + 1;
    }
    assert lines[..i] == lines;
  }

  /** _extract_template_info on a readable file. */
  method ExtractTemplateInfo(path: string, category: string, content: string) returns (info: TemplateInfo)
    ensures info == InfoOf(path, category, content)
  {
    var description, variables := ReadHeader(HeaderLines(content));
    if variables == [] {
      variables := ContentVariables(content);
    }
    info := TemplateInfo(Stem(BaseName(path)), path, category, description, variables);
  }

  // ---------------------------------------------------------------------
  // The template store and the manager
  // ---------------------------------------------------------------------

  /** A compiled template: its source and the file it was loaded from. */
  datatype CompiledTemplate = CompiledTemplate(source: string, origin: string)

  /** What Template.render yields. */
  datatype RenderOutcome = Rendered(text: string) | Undefined(message: string) | RenderFailed(message: string)

  /**
   * The world the manager reads: existing directories, files with their text
   * (None when it cannot be read or decoded as UTF-8), the text of the
   * exception reading such a file raises, the order in which `dir.glob("*.j2")`
   * lists a directory, Jinja2's parser (the syntax error message, if any) and
   * its renderer.
   */
  datatype TemplateStore = TemplateStore(
    dirs: set<string>,
    files: map<string, Option<string>>,
    readError: string -> string,
    glob: string -> seq<string>,
    syntaxError: string -> Option<string>,
    render: (CompiledTemplate, TemplateContext.Context) -> RenderOutcome)
  {
    predicate Exists(path: string)
    {
      path in dirs || path in files
    }
  }

  /** dir / name, as plain text: Path's normalisation ("a//b", "./b", a trailing "/") is not modelled. */
  function PathJoin(dir: string, name: string): string
  {
    dir + "/" + name
  }

  /** The loader roots: the search paths that are existing directories, else ".". */
  function LoaderRoots(searchPaths: seq<string>, store: TemplateStore): (roots: seq<string>)
    ensures |roots| >= 1
    ensures forall r :: r in roots ==> r in searchPaths || r == "."
  {
    var existing := ExistingDirs(searchPaths, store);
    if existing == [] then ["."] else existing
  }

  function ExistingDirs(searchPaths: seq<string>, store: TemplateStore): (r: seq<string>)
    ensures forall d :: d in r <==> d in searchPaths && d in store.dirs
  {
    if |searchPaths| == 0 then []
    else
      var rest := ExistingDirs(searchPaths[..|searchPaths| - 1], store);
      assert searchPaths == searchPaths[..|searchPaths| - 1] + [searchPaths[|searchPaths| - 1]];
      if searchPaths[|searchPaths| - 1] in store.dirs then rest + [searchPaths[|searchPaths| - 1]] else rest
  }

  /** The first root under which relPath names a file: ChoiceLoader order. */
  function FindSource(roots: seq<string>, store: TemplateStore, relPath: string): (r: Option<nat>)
    ensures r.Some? ==> r.value < |roots| && PathJoin(roots[r.value], relPath) in store.files
    ensures r.Some? ==> forall j :: 0 <= j < r.value ==> PathJoin(roots[j], relPath) !in store.files
    ensures r.None? ==> forall j :: 0 <= j < |roots| ==> PathJoin(roots[j], relPath) !in store.files
  {
    if |roots| == 0 then None
    else if PathJoin(roots[0], relPath) in store.files then Some(0)
    else
      var r := FindSource(roots[1..], store, relPath);
      if r.Some? then Some(r.value + 1) else None
  }

  /**
   * What Environment.get_template yields for a template path: the compiled template, no
   * file under any root, the OSError or UnicodeDecodeError of a file that cannot be read,
   * or the parser's syntax error.
   */
  datatype LoadOutcome = Loaded(template: CompiledTemplate) | NotFound | Unreadable(message: string) | SyntaxError(message: string)

  function Load(roots: seq<string>, store: TemplateStore, relPath: string): (o: LoadOutcome)
    ensures o.Loaded? ==> FindSource(roots, store, relPath).Some?
    ensures o.Loaded? ==> o.template.origin == PathJoin(roots[FindSource(roots, store, relPath).value], relPath)
    ensures o.NotFound? <==> FindSource(roots, store, relPath).None?
    ensures o.Unreadable? <==> (FindSource(roots, store, relPath).Some? &&
      store.files[PathJoin(roots[FindSource(roots, store, relPath).value], relPath)].None?)
    ensures o.Unreadable? ==> o.message == store.readError(PathJoin(roots[FindSource(roots, store, relPath).value], relPath))
  {
    match FindSource(roots, store, relPath)
    case None => NotFound
    case Some(i) =>
      var origin := PathJoin(roots[i], relPath);
      match store.files[origin]
      case None => Unreadable(store.readError(origin))
      case Some(text) =>
        match store.syntaxError(text)
        case Some(msg) => SyntaxError(msg)
        case None => Loaded(CompiledTemplate(text, origin))
  }

  function CacheKey(category: string, name: string): string
  {
    category + "/" + name
  }

  /** The template path of a cache key: "{category}/{name}.j2". */
  function TemplatePath(key: string): string
  {
    key + ".j2"
  }

  /** The repr of a non-empty set of names listed in the given order: {'a', 'b'}, each name written by repr(). */
  function SetRepr(names: seq<string>): (r: string)
    ensures StartsWith(r, "{") && EndsWith(r, "}")
    ensures |names| == 1 ==> r == "{" + Python.StrRepr(names[0]) + "}"
  {
    "{" + Join(", ", QuotedNames(names)) + "}"
  }

  /** repr() of each name, in order; each reads back to its name. */
  function QuotedNames(names: seq<string>): (r: seq<string>)
    ensures |r| == |names|
    ensures forall k :: 0 <= k < |names| ==> r[k] == Python.StrRepr(names[k]) && Python.ReadStrRepr(r[k]) == Some(names[k])
  {
    if |names| == 0 then [] else QuotedNames(names[..|names| - 1]) + [Python.StrRepr(names[|names| - 1])]
  }

  /**
   * What get_template yields without a cache, with the errors it raises: TemplateNotFoundError,
   * TemplateError for a syntax error, and the read error of an unreadable file unchanged.
   */
  function Fetch(roots: seq<string>, store: TemplateStore, name: string, category: string): (r: Result<CompiledTemplate, Error>)
    ensures r.Err? ==> r.error.kind in {TemplateNotFound, Template, OtherError}
    ensures r.Ok? <==> Load(roots, store, TemplatePath(CacheKey(category, name))).Loaded?
    ensures Load(roots, store, TemplatePath(CacheKey(category, name))).NotFound? <==> r.Err? && r.error.kind == TemplateNotFound
    ensures Load(roots, store, TemplatePath(CacheKey(category, name))).Unreadable? ==>
      r == Err(Error(OtherError, Load(roots, store, TemplatePath(CacheKey(category, name))).message))
  {
    match Load(roots, store, TemplatePath(CacheKey(category, name)))
    case Loaded(t) => Ok(t)
    case NotFound => Raise(TemplateNotFound, "Template '" + name + "' not found in category '" + category + "'")
    case Unreadable(msg) => Err(Error(OtherError, msg))
    case SyntaxError(msg) => Raise(Template, "Template syntax error in '" + name + "': " + msg)
  }

  /** The templates of one directory, in listing order, skipping unreadable files. */
  function InDirectory(store: TemplateStore, dir: string, category: string): (r: seq<TemplateInfo>)
    ensures forall k :: 0 <= k < |r| ==> r[k].category == category
  {
    InFiles(store, store.glob(dir), category)
  }

  function InFiles(store: TemplateStore, paths: seq<string>, category: string): (r: seq<TemplateInfo>)
    ensures forall k :: 0 <= k < |r| ==> r[k].category == category
  {
    if |paths| == 0 then []
    else
      var last := paths[|paths| - 1];
      var rest := InFiles(store, paths[..|paths| - 1], category);
      if last in store.files && store.files[last].Some? then
        rest + [InfoOf(last, category, store.files[last].value)]
      else rest
  }

  lemma InFilesStep(store: TemplateStore, paths: seq<string>, i: nat, category: string)
    requires i < |paths|
    ensures InFiles(store, paths[..i + 1], category) ==
      InFiles(store, paths[..i], category) +
      (if paths[i] in store.files && store.files[paths[i]].Some? then [InfoOf(paths[i], category, store.files[paths[i]].value)] else [])
  {
    assert paths[..i + 1][..i] == paths[..i];
  }

  /** What one search path contributes to a category. */
  function InSearchPath(store: TemplateStore, path: string, category: string): seq<TemplateInfo>
  {
    var dir := PathJoin(path, category);
    if store.Exists(path) && store.Exists(dir) then InDirectory(store, dir, category) else []
  }

  /** discover_templates for one category: the search paths in order. */
  function Discovered(store: TemplateStore, paths: seq<string>, category: string): (r: seq<TemplateInfo>)
    ensures forall k :: 0 <= k < |r| ==> r[k].category == category
  {
    if |paths| == 0 then []
    else Discovered(store, paths[..|paths| - 1], category) + InSearchPath(store, paths[|paths| - 1], category)
  }

  /** Templates of earlier search paths come before those of later ones. */
  lemma {:induction false} DiscoveredConcat(store: TemplateStore, a: seq<string>, b: seq<string>, category: string)
    ensures Discovered(store, a + b, category) == Discovered(store, a, category) + Discovered(store, b, category)
  {
    if |b| == 0 {
      assert a + b == a;
    } else {
      var b', last := b[..|b| - 1], b[|b| - 1];
      assert (a + b)[..|a + b| - 1] == a + b';
      assert (a + b)[|a + b| - 1] == last;
      DiscoveredConcat(store, a, b', category);
      calc {
        Discovered(store, a + b, category);
        Discovered(store, a + b', category) + InSearchPath(store, last, category);
        Discovered(store, a, category) + Discovered(store, b', category) + InSearchPath(store, last, category);
        Discovered(store, a, category) + Discovered(store, b, category);
      }
    }
  }

  lemma DiscoveredStep(store: TemplateStore, paths: seq<string>, i: nat, category: string)
    requires i < |paths|
    ensures Discovered(store, paths[..i + 1], category) ==
      Discovered(store, paths[..i], category) + InSearchPath(store, paths[i], category)
  {
    assert paths[..i + 1][..i] == paths[..i];
  }

  /** A search path that does not exist contributes nothing. */
  lemma MissingPathContributesNothing(store: TemplateStore, paths: seq<string>, p: string, category: string)
    requires !store.Exists(p)
    ensures Discovered(store, paths + [p], category) == Discovered(store, paths, category)
  {
    assert (paths + [p])[..|paths|] == paths;
  }

  /** templates.get(category, []) of discover_templates: only "commit" and "pr" are filled. */
  function TemplatesOf(store: TemplateStore, paths: seq<string>, category: string): (r: seq<TemplateInfo>)
    ensures category != "commit" && category != "pr" ==> r == []
  {
    if category == "commit" || category == "pr" then Discovered(store, paths, category) else []
  }

  /** The first discovered template of a category with the given name. */
  function FirstNamed(infos: seq<TemplateInfo>, name: string): (r: Option<nat>)
    ensures r.Some? ==> r.value < |infos| && infos[r.value].name == name
    ensures r.Some? ==> forall j :: 0 <= j < r.value ==> infos[j].name != name
    ensures r.None? ==> forall j :: 0 <= j < |infos| ==> infos[j].name != name
  {
    if |infos| == 0 then None
    else if infos[0].name == name then Some(0)
    else
      var r := FirstNamed(infos[1..], name);
      if r.Some? then Some(r.value + 1) else None
  }

  /** The required variables a template does not provide, set(required) - set(variables). */
  function Missing(required: seq<string>, variables: seq<string>): set<string>
  {
    set v | v in required && v !in variables
  }

  /** The required names a template does not declare, in the order they are required, repeats included. */
  function Undeclared(required: seq<string>, variables: seq<string>): (r: seq<string>)
    ensures forall y :: y in r <==> y in required && y !in variables
  {
    if |required| == 0 then []
    else
      var rest := Undeclared(required[..|required| - 1], variables);
      var last := required[|required| - 1];
      assert required == required[..|required| - 1] + [last];
      if last in variables then rest else rest + [last]
  }

  /** The missing names in the order the validation message lists them: ascending, each once. */
  function MissingNames(required: seq<string>, variables: seq<string>): (r: seq<string>)
    ensures StrictlySorted(r)
    ensures forall y :: y in r <==> y in Missing(required, variables)
  {
    SortedDistinct(Undeclared(required, variables))
  }

  /** The ordered search paths of create_template_manager: project, team, user, then the defaults. */
  function SearchPaths(user: Option<string>, team: Option<string>, project: Option<string>, defaults: string): (r: seq<string>)
    ensures |r| >= 1 && r[|r| - 1] == defaults
    ensures project.Some? ==> r[0] == project.value
    ensures project.None? && team.Some? ==> r[0] == team.value
    ensures project.None? && team.None? && user.Some? ==> r[0] == user.value
    ensures |r| == 1 + (if user.Some? then 1 else 0) + (if team.Some? then 1 else 0) + (if project.Some? then 1 else 0)
  {
    (if project.Some? then [project.value] else [])
    + (if team.Some? then [team.value] else [])
    + (if user.Some? then [user.value] else [])
    + [defaults]
  }

  /** A template found in several search paths is loaded from the one given first. */
  lemma ProjectTemplateShadowsDefault(project: string, defaults: string, store: TemplateStore, relPath: string)
    requires project in store.dirs && defaults in store.dirs
    requires PathJoin(project, relPath) in store.files
    ensures FindSource(LoaderRoots(SearchPaths(None, None, Some(project), defaults), store), store, relPath) == Some(0)
  {
    var ps := SearchPaths(None, None, Some(project), defaults);
    assert ps == [project, defaults];
    assert ps[..1] == [project];
    assert ps[..0] == [];
    assert ExistingDirs(ps[..1], store) == [project];
    assert LoaderRoots(ps, store)[0] == project;
  }

  class TemplateManager {
    const searchPaths: seq<string>
    const store: TemplateStore
    /** The Jinja2 loader roots fixed when the environment is created. */
    const roots: seq<string>
    var templateCache: map<string, CompiledTemplate>
    var templateInfoCache: map<string, TemplateInfo>

    /** Every cached template is what loading its path yields. */
    ghost predicate Valid()
      reads this
    {
      roots == LoaderRoots(searchPaths, store) &&
      forall key :: key in templateCache ==> Load(roots, store, TemplatePath(key)) == Loaded(templateCache[key])
    }

    constructor(searchPaths: seq<string>, store: TemplateStore)
      ensures this.searchPaths == searchPaths && this.store == store
      ensures templateCache == map[] && templateInfoCache == map[]
      ensures Valid()
    {
      this.searchPaths := searchPaths;
      this.store := store;
      this.roots := LoaderRoots(searchPaths, store);
      templateCache := map[];
      templateInfoCache := map[];
    }

    /**
     * get_template: a cached template is returned as is; otherwise it is
     * loaded and cached. With the cache kept valid, the result is the same as
     * loading afresh.
     */
    method GetTemplate(name: string, category: string) returns (r: Result<CompiledTemplate, Error>)
      requires Valid()
      modifies this
      ensures Valid()
      ensures r == Fetch(roots, store, name, category)
      ensures CacheKey(category, name) in old(templateCache) ==> templateCache == old(templateCache)
      ensures CacheKey(category, name) !in old(templateCache) ==>
        templateCache == if r.Ok? then old(templateCache)[CacheKey(category, name) := r.value] else old(templateCache)
      ensures templateInfoCache == old(templateInfoCache)
    {
      var key := CacheKey(category, name);
      if key in templateCache {
        return Ok(templateCache[key]);
      }
      r := Fetch(roots, store, name, category);
      if r.Ok? {
        templateCache := templateCache[key := r.value];
      }
    }

    /**
     * render_template: every failure, a missing template included, becomes a
     * TemplateError; an undefined variable has its own message.
     */
    method RenderTemplate(name: string, category: string, context: TemplateContext.Context) returns (r: Result<string, Error>)
      requires Valid()
      modifies this
      ensures Valid()
      ensures templateInfoCache == old(templateInfoCache)
      ensures r.Err? ==> r.error.kind == Template
      ensures Fetch(roots, store, name, category).Err? ==>
        r == Raise(Template, "Failed to render template '" + name + "': " + Fetch(roots, store, name, category).error.message)
      ensures Fetch(roots, store, name, category).Ok? ==>
        match store.render(Fetch(roots, store, name, category).value, context)
        case Rendered(text) => r == Ok(text)
        case Undefined(msg) => r == Raise(Template, "Undefined variable in template '" + name + "': " + msg)
        case RenderFailed(msg) => r == Raise(Template, "Failed to render template '" + name + "': " + msg)
    {
      var t := GetTemplate(name, category);
      if t.Err? {
        return Raise(Template, "Failed to render template '" + name + "': " + t.error.message);
      }
      match store.render(t.value, context)
      case Rendered(text) => r := Ok(text);
      case Undefined(msg) => r := Raise(Template, "Undefined variable in template '" + name + "': " + msg);
      case RenderFailed(msg) => r := Raise(Template, "Failed to render template '" + name + "': " + msg);
    }

    /** _discover_in_directory: the readable templates of a directory in listing order. */
    method DiscoverInDirectory(dir: string, category: string) returns (infos: seq<TemplateInfo>)
      ensures infos == InDirectory(store, dir, category)
    {
      var paths := store.glob(dir);
      infos := [];
      var i := 0;
      while i < |paths|
        invariant 0 <= i <= |paths|
        invariant infos == InFiles(store, paths[..i], category)
      {
        var p := paths[i];
        InFilesStep(store, paths, i, category);
        if p in store.files && store.files[p].Some? {
          var info := ExtractTemplateInfo(p, category, store.files[p].value);
          infos := infos + [info];
        }
        i := i + 1;
      }
      assert paths[..i] == paths;
    }

    /** discover_templates: the commit and pr templates of every search path, in order. */
    method DiscoverTemplates() returns (commit: seq<TemplateInfo>, pr: seq<TemplateInfo>)
      ensures commit == Discovered(store, searchPaths, "commit")
      ensures pr == Discovered(store, searchPaths, "pr")
    {
      commit, pr := [], [];
      var i := 0;
      while i < |searchPaths|
        invariant 0 <= i <= |searchPaths|
        invariant commit == Discovered(store, searchPaths[..i], "commit")
        invariant pr == Discovered(store, searchPaths[..i], "pr")
      {
        var p := searchPaths[i];
        DiscoveredStep(store, searchPaths, i, "commit");
        DiscoveredStep(store, searchPaths, i, "pr");
        if store.Exists(p) {
          var commitDir := PathJoin(p, "commit");
          if store.Exists(commitDir) {
            var found := DiscoverInDirectory(commitDir, "commit");
            commit := commit + found;
          }
          var prDir := PathJoin(p, "pr");
          if store.Exists(prDir) {
            var found := DiscoverInDirectory(prDir, "pr");
            pr := pr + found;
          }
        }
        i := i + 1;
      }
      assert searchPaths[..i] == searchPaths;
    }

    /**
     * validate_template: the template must load; with required variables, the
     * first discovered template of that name in the category must declare
     * them all. A category other than commit and pr is never checked.
     */
    method ValidateTemplate(name: string, category: string, required: seq<string>) returns (r: Result<bool, Error>)
      requires Valid()
      modifies this
      ensures Valid()
      ensures templateInfoCache == old(templateInfoCache)
      ensures Fetch(roots, store, name, category).Err? ==> r == Fetch(roots, store, name, category).PropagateFailure()
      ensures r.Ok? ==> r.value
      ensures r.Err? && Fetch(roots, store, name, category).Ok? ==> r.error.kind == TemplateValidation
      ensures Fetch(roots, store, name, category).Ok? ==>
        (r.Err? <==>
          required != [] &&
          FirstNamed(TemplatesOf(store, searchPaths, category), name).Some? &&
          Missing(required, TemplatesOf(store, searchPaths, category)[FirstNamed(TemplatesOf(store, searchPaths, category), name).value].variables) != {})
      ensures r.Err? && Fetch(roots, store, name, category).Ok? ==>
        FirstNamed(TemplatesOf(store, searchPaths, category), name).Some? &&
        r.error.message == "Template '" + name + "' missing required variables: " +
          SetRepr(MissingNames(required, TemplatesOf(store, searchPaths, category)[FirstNamed(TemplatesOf(store, searchPaths, category), name).value].variables))
    {
      var t := GetTemplate(name, category);
      if t.Err? {
        return t.PropagateFailure();
      }
      if required != [] {
        var commit, pr := DiscoverTemplates();
        var infos := if category == "commit" then commit else if category == "pr" then pr else [];
        assert infos == TemplatesOf(store, searchPaths, category);
        var found := FirstNamed(infos, name);
        if found.Some? {
          var missing := Missing(required, infos[found.value].variables);
          if missing != {} {
            var listed := SortSet(missing);
            SortedUnique(listed, MissingNames(required, infos[found.value].variables));
            return Raise(TemplateValidation, "Template '" + name + "' missing required variables: " + SetRepr(listed));
          }
        }
      }
      r := Ok(true);
    }

    /** list_templates: one category's templates, or the commit then the pr templates. */
    method ListTemplates(category: Option<string>) returns (r: seq<TemplateInfo>)
      ensures category.Some? && category.value != "" ==> r == TemplatesOf(store, searchPaths, category.value)
      ensures category.None? || category.value == "" ==>
        r == Discovered(store, searchPaths, "commit") + Discovered(store, searchPaths, "pr")
    {
      var commit, pr := DiscoverTemplates();
      if category.Some? && category.value != "" {
        r := if category.value == "commit" then commit else if category.value == "pr" then pr else [];
      } else {
        r := commit + pr;
      }
    }
  }

  /** create_template_manager. */
  method CreateTemplateManager(user: Option<string>, team: Option<string>, project: Option<string>, defaults: string, store: TemplateStore)
    returns (m: TemplateManager)
    ensures fresh(m) && m.Valid()
    ensures m.searchPaths == SearchPaths(user, team, project, defaults) && m.store == store
    ensures m.templateCache == map[]
  {
    m := new TemplateManager(SearchPaths(user, team, project, defaults), store);
  }
}
