/**
 * The change-analysis value objects of src/gitai/core/models.py: one changed
 * file, the analysis of a whole diff, and the heuristics that read them.
 */
module ChangeModels {
  import opened Wrappers
  import opened Strings
  import opened Ordered
  import opened Dicts
  import opened Values
  import opened Floats

  /** The git status letters A, M, D, R, C, U, ? and B. */
  datatype ChangeType = Added | Modified | Deleted | Renamed | Copied | Unmerged | Unknown | Broken

  function Code(t: ChangeType): char
  {
    match t
    case Added => 'A'
    case Modified => 'M'
    case Deleted => 'D'
    case Renamed => 'R'
    case Copied => 'C'
    case Unmerged => 'U'
    case Unknown => '?'
    case Broken => 'B'
  }

  /** ChangeType(c): the member whose value is c, or the ValueError case. */
  function FromCode(c: char): (r: Option<ChangeType>)
    ensures r.Some? ==> Code(r.value) == c
  {
    match c
    case 'A' => Some(Added)
    case 'M' => Some(Modified)
    case 'D' => Some(Deleted)
    case 'R' => Some(Renamed)
    case 'C' => Some(Copied)
    case 'U' => Some(Unmerged)
    case '?' => Some(Unknown)
    case 'B' => Some(Broken)
    case _ => None
  }

  /** Every change type is recovered from its status letter. */
  lemma CodeRoundTrip(t: ChangeType)
    ensures FromCode(Code(t)) == Some(t)
  {
  }

  datatype FileChange = FileChange(
    path: string,
    changeType: ChangeType,
    linesAdded: int,
    linesRemoved: int,
    contentPreview: string,
    oldPath: Option<string>)

  datatype DiffAnalysis = DiffAnalysis(
    filesChanged: seq<FileChange>,
    totalAdditions: int,
    totalDeletions: int,
    changeSummary: string,
    commitContext: Dict<Value>,
    repositoryInfo: Dict<Value>)

  /** FileChange.is_binary: no counted lines and no preview. */
  predicate IsBinary(f: FileChange)
  {
    f.linesAdded == 0 && f.linesRemoved == 0 && f.contentPreview == ""
  }

  function NetLines(f: FileChange): int
  {
    f.linesAdded - f.linesRemoved
  }

  function FileCount(a: DiffAnalysis): nat
  {
    |a.filesChanged|
  }

  function AnalysisNetLines(a: DiffAnalysis): int
  {
    a.totalAdditions - a.totalDeletions
  }

  function SumAdded(fs: seq<FileChange>): int
  {
    if |fs| == 0 then 0 else SumAdded(fs[..|fs| - 1]) + fs[|fs| - 1].linesAdded
  }

  function SumRemoved(fs: seq<FileChange>): int
  {
    if |fs| == 0 then 0 else SumRemoved(fs[..|fs| - 1]) + fs[|fs| - 1].linesRemoved
  }

  function SumNet(fs: seq<FileChange>): int
  {
    if |fs| == 0 then 0 else SumNet(fs[..|fs| - 1]) + NetLines(fs[|fs| - 1])
  }

  /** When the totals are the per-file sums, the analysis' net lines are the sum of the files' net lines. */
  lemma {:induction false} NetLinesAgree(a: DiffAnalysis)
    requires a.totalAdditions == SumAdded(a.filesChanged)
    requires a.totalDeletions == SumRemoved(a.filesChanged)
    ensures AnalysisNetLines(a) == SumNet(a.filesChanged)
  {
    SumNetSplit(a.filesChanged);
  }

  lemma {:induction false} SumNetSplit(fs: seq<FileChange>)
    ensures SumNet(fs) == SumAdded(fs) - SumRemoved(fs)
  {
    if |fs| > 0 {
      SumNetSplit(fs[..|fs| - 1]);
    }
  }

  /** str(old_path): the text of an optional path as an f-string shows it. */
  function OptText(p: Option<string>): string
  {
    match p
    case Some(s) => s
    case None => "None"
  }

  /** The leading verb of a change description. */
  function Verb(t: ChangeType): string
  {
    match t
    case Added => "Added"
    case Deleted => "Deleted"
    case Modified => "Modified"
    case Renamed => "Renamed"
    case Copied => "Copied"
    case _ => "Changed"
  }

  /** FileChange.change_description. */
  function ChangeDescription(f: FileChange): (r: string)
    ensures StartsWith(r, Verb(f.changeType) + " ")
    ensures f.changeType != Modified ==> EndsWith(r, f.path)
    ensures f.changeType == Modified ==>
      StartsWith(r, "Modified " + f.path + " (+" + IntToString(f.linesAdded) + ", -")
      && EndsWith(r, IntToString(f.linesRemoved) + ")")
    ensures f.changeType in {Renamed, Copied} ==> StartsWith(r, Verb(f.changeType) + " " + OptText(f.oldPath) + " → ")
    ensures f.changeType !in {Renamed, Copied, Modified} ==> |r| == |Verb(f.changeType)| + 1 + |f.path|
    ensures f.changeType == Modified ==>
      |r| == |"Modified " + f.path + " (+" + IntToString(f.linesAdded) + ", -"| + |IntToString(f.linesRemoved) + ")"|
    ensures f.changeType in {Renamed, Copied} ==> |r| == |Verb(f.changeType) + " " + OptText(f.oldPath) + " → "| + |f.path|
  {
    match f.changeType
    case Added => "Added " + f.path
    case Deleted => "Deleted " + f.path
    case Modified =>
      "Modified " + f.path + " (+" + IntToString(f.linesAdded) + ", -" + IntToString(f.linesRemoved) + ")"
    case Renamed => "Renamed " + OptText(f.oldPath) + " → " + f.path
    case Copied => "Copied " + OptText(f.oldPath) + " → " + f.path
    case _ => "Changed " + f.path
  }

  /** The files of fs whose change type is t, in order. */
  function OfType(fs: seq<FileChange>, t: ChangeType): seq<FileChange>
  {
    if |fs| == 0 then []
    else OfType(fs[..|fs| - 1], t) + (if fs[|fs| - 1].changeType == t then [fs[|fs| - 1]] else [])
  }

  lemma {:induction false} OfTypeMembers(fs: seq<FileChange>, t: ChangeType)
    ensures forall f :: f in OfType(fs, t) <==> f in fs && f.changeType == t
  {
    if |fs| > 0 {
      OfTypeMembers(fs[..|fs| - 1], t);
      assert fs == fs[..|fs| - 1] + [fs[|fs| - 1]];
    }
  }

  function GroupSizes(g: seq<(ChangeType, seq<FileChange>)>): nat
  {
    if |g| == 0 then 0 else GroupSizes(g[..|g| - 1]) + |g[|g| - 1].1|
  }

  lemma {:induction false} GroupSizesUpdate(g: seq<(ChangeType, seq<FileChange>)>, k: nat, e: (ChangeType, seq<FileChange>))
    requires k < |g|
    ensures GroupSizes(g[k := e]) == GroupSizes(g) - |g[k].1| + |e.1|
  {
    if k < |g| - 1 {
      GroupSizesUpdate(g[..|g| - 1], k, e);
      assert g[k := e][..|g| - 1] == g[..|g| - 1][k := e];
    } else {
      assert g[k := e][..|g| - 1] == g[..|g| - 1];
    }
  }

  function GroupIndex(g: seq<(ChangeType, seq<FileChange>)>, t: ChangeType): (r: Option<nat>)
    ensures r.Some? ==> r.value < |g| && g[r.value].0 == t
    ensures r.None? ==> forall k :: 0 <= k < |g| ==> g[k].0 != t
  {
    if |g| == 0 then None
    else if g[|g| - 1].0 == t then Some(|g| - 1)
    else GroupIndex(g[..|g| - 1], t)
  }

  /** g groups exactly the files of fs by change type, each group non-empty, keys distinct. */
  predicate IsGrouping(fs: seq<FileChange>, g: seq<(ChangeType, seq<FileChange>)>)
  {
    (forall k :: 0 <= k < |g| ==> g[k].1 == OfType(fs, g[k].0) && |g[k].1| > 0)
    && (forall j, k :: 0 <= j < k < |g| ==> g[j].0 != g[k].0)
    && (forall t :: OfType(fs, t) != [] ==> GroupIndex(g, t).Some?)
  }

  function GroupKeys(g: seq<(ChangeType, seq<FileChange>)>): (r: seq<ChangeType>)
    ensures |r| == |g| && forall k :: 0 <= k < |g| ==> r[k] == g[k].0
  {
    if |g| == 0 then [] else GroupKeys(g[..|g| - 1]) + [g[|g| - 1].0]
  }

  /** The change types of fs in order of first occurrence. */
  function FirstTypes(fs: seq<FileChange>): seq<ChangeType>
  {
    if |fs| == 0 then []
    else
      var r := FirstTypes(fs[..|fs| - 1]);
      var t := fs[|fs| - 1].changeType;
      if t in r then r else r + [t]
  }

  /** One step of the grouping loop: append f to its type's group, opening it if needed. */
  function AddToGroups(g: seq<(ChangeType, seq<FileChange>)>, f: FileChange): seq<(ChangeType, seq<FileChange>)>
  {
    match GroupIndex(g, f.changeType)
    case Some(k) => g[k := (f.changeType, g[k].1 + [f])]
    case None => g + [(f.changeType, [f])]
  }

  lemma GroupingStep(fs: seq<FileChange>, g: seq<(ChangeType, seq<FileChange>)>, f: FileChange)
    requires IsGrouping(fs, g)
    ensures IsGrouping(fs + [f], AddToGroups(g, f))
    ensures GroupSizes(AddToGroups(g, f)) == GroupSizes(g) + 1
  {
    var fs' := fs + [f];
    assert fs'[..|fs'| - 1] == fs;
    var g' := AddToGroups(g, f);
    match GroupIndex(g, f.changeType)
    case Some(k) =>
      GroupSizesUpdate(g, k, (f.changeType, g[k].1 + [f]));
      forall t | OfType(fs', t) != [] ensures GroupIndex(g', t).Some? {
        if t != f.changeType {
          assert GroupIndex(g, t).Some?;
          var j := GroupIndex(g, t).value;
          assert g'[j].0 == t;
        } else {
          assert g'[k].0 == t;
        }
      }
    case None =>
      assert g' [..|g'| - 1] == g;
      forall t | OfType(fs', t) != [] ensures GroupIndex(g', t).Some? {
        if t != f.changeType {
          assert GroupIndex(g, t).Some?;
          var j := GroupIndex(g, t).value;
          assert g'[j].0 == t;
        }
      }
  }

  /** The first-occurrence order lists each type of fs exactly once. */
  lemma {:induction false} FirstTypesMembers(fs: seq<FileChange>)
    ensures forall t :: t in FirstTypes(fs) <==> OfType(fs, t) != []
    ensures forall j, k :: 0 <= j < k < |FirstTypes(fs)| ==> FirstTypes(fs)[j] != FirstTypes(fs)[k]
  {
    if |fs| > 0 {
      FirstTypesMembers(fs[..|fs| - 1]);
    }
  }

  /** Opening a group for a new type, and only then, appends that type to the group order. */
  lemma GroupKeysStep(fs: seq<FileChange>, g: seq<(ChangeType, seq<FileChange>)>, f: FileChange)
    requires GroupKeys(g) == FirstTypes(fs)
    ensures GroupKeys(AddToGroups(g, f)) == FirstTypes(fs + [f])
  {
    assert (fs + [f])[..|fs|] == fs;
    var g' := AddToGroups(g, f);
    match GroupIndex(g, f.changeType)
    case Some(k) =>
      assert GroupKeys(g)[k] == f.changeType;
      assert GroupKeys(g') == GroupKeys(g);
    case None =>
      assert f.changeType !in GroupKeys(g);
      assert GroupKeys(g') == GroupKeys(g) + [f.changeType];
  }

  /**
   * DiffAnalysis.files_by_type: one group per change type that occurs, in
   * order of first occurrence; each group holds that type's files in input
   * order, so every file is in exactly one group and the group sizes add up
   * to the file count.
   */
  method FilesByType(a: DiffAnalysis) returns (groups: seq<(ChangeType, seq<FileChange>)>)
    ensures forall k :: 0 <= k < |groups| ==> groups[k].1 == OfType(a.filesChanged, groups[k].0)
    ensures forall j, k :: 0 <= j < k < |groups| ==> groups[j].0 != groups[k].0
    ensures forall f :: f in a.filesChanged ==> exists k :: 0 <= k < |groups| && groups[k].0 == f.changeType
    ensures forall k :: 0 <= k < |groups| ==> |groups[k].1| > 0
    ensures GroupSizes(groups) == FileCount(a)
    ensures GroupKeys(groups) == FirstTypes(a.filesChanged)
  {
    var fs := a.filesChanged;
    groups := [];
    var i := 0;
    while i < |fs|
      invariant 0 <= i <= |fs|
      invariant Grouped(fs[..i], groups)
    {
      assert fs[..i + 1] == fs[..i] + [fs[i]];
      GroupedStep(fs[..i], groups, fs[i]);
      groups := AddToGroups(groups, fs[i]);
      i := i + 1;
    }
    assert fs[..i] == fs;
    GroupingCovers(fs, groups);
  }

  /** The loop invariant of FilesByType: g groups fs, counts its files and keeps first-occurrence order. */
  predicate Grouped(fs: seq<FileChange>, g: seq<(ChangeType, seq<FileChange>)>)
  {
    IsGrouping(fs, g) && GroupSizes(g) == |fs| && GroupKeys(g) == FirstTypes(fs)
  }

  lemma GroupedStep(fs: seq<FileChange>, g: seq<(ChangeType, seq<FileChange>)>, f: FileChange)
    requires Grouped(fs, g)
    ensures Grouped(fs + [f], AddToGroups(g, f))
  {
    GroupingStep(fs, g, f);
    GroupKeysStep(fs, g, f);
  }

  /** In a grouping, every file's type has a group. */
  lemma GroupingCovers(fs: seq<FileChange>, g: seq<(ChangeType, seq<FileChange>)>)
    requires IsGrouping(fs, g)
    ensures forall f :: f in fs ==> exists k :: 0 <= k < |g| && g[k].0 == f.changeType
  {
    forall f | f in fs ensures exists k :: 0 <= k < |g| && g[k].0 == f.changeType {
      OfTypeMembers(fs, f.changeType);
      assert f in OfType(fs, f.changeType);
      var k := GroupIndex(g, f.changeType).value;
      assert g[k].0 == f.changeType;
    }
  }

  /** The extension of a path with a '.': path.split(".")[-1].lower(). */
  function Extension(path: string): string
  {
    var parts := Split(path, '.');
    Lower(parts[|parts| - 1])
  }

  /** The directory part of a path: "/".join(path.split("/")[:-1]). */
  function Directory(path: string): string
  {
    var parts := Split(path, '/');
    Join("/", parts[..|parts| - 1])
  }

  function ExtensionList(fs: seq<FileChange>): seq<string>
  {
    if |fs| == 0 then []
    else ExtensionList(fs[..|fs| - 1]) + (if '.' in fs[|fs| - 1].path then [Extension(fs[|fs| - 1].path)] else [])
  }

  function DirectoryList(fs: seq<FileChange>): seq<string>
  {
    if |fs| == 0 then []
    else DirectoryList(fs[..|fs| - 1]) + (if Directory(fs[|fs| - 1].path) != "" then [Directory(fs[|fs| - 1].path)] else [])
  }

  lemma {:induction false} ExtensionListMembers(fs: seq<FileChange>)
    ensures forall e :: e in ExtensionList(fs) <==> exists f :: f in fs && '.' in f.path && e == Extension(f.path)
  {
    if |fs| > 0 {
      ExtensionListMembers(fs[..|fs| - 1]);
      assert fs == fs[..|fs| - 1] + [fs[|fs| - 1]];
    }
  }

  lemma {:induction false} DirectoryListMembers(fs: seq<FileChange>)
    ensures forall d :: d in DirectoryList(fs) <==> exists f :: f in fs && Directory(f.path) != "" && d == Directory(f.path)
  {
    if |fs| > 0 {
      DirectoryListMembers(fs[..|fs| - 1]);
      assert fs == fs[..|fs| - 1] + [fs[|fs| - 1]];
    }
  }

  /** DiffAnalysis.file_extensions as a value. */
  function Extensions(a: DiffAnalysis): seq<string>
  {
    SortedDistinct(ExtensionList(a.filesChanged))
  }

  /** DiffAnalysis.affected_directories as a value. */
  function Directories(a: DiffAnalysis): seq<string>
  {
    SortedDistinct(DirectoryList(a.filesChanged))
  }

  /**
   * DiffAnalysis.file_extensions: the set of extensions of the paths that
   * contain a '.', sorted.
   */
  method FileExtensions(a: DiffAnalysis) returns (r: seq<string>)
    ensures StrictlySorted(r)
    ensures forall e :: e in r <==> exists f :: f in a.filesChanged && '.' in f.path && e == Extension(f.path)
    ensures r == Extensions(a)
  {
    var fs := a.filesChanged;
    var extensions: set<string> := {};
    var i := 0;
    while i < |fs|
      invariant 0 <= i <= |fs|
      invariant forall e :: e in extensions <==> e in ExtensionList(fs[..i])
    {
      assert fs[..i + 1][..i] == fs[..i];
      if '.' in fs[i].path {
        extensions := extensions + {Extension(fs[i].path)};
      }
      i := i + 1;
    }
    assert fs[..i] == fs;
    r := SortSet(extensions);
    ExtensionListMembers(fs);
    SortedUnique(r, Extensions(a));
  }

  /**
   * DiffAnalysis.affected_directories: the set of non-empty directory parts
   * of the paths, sorted.
   */
  method AffectedDirectories(a: DiffAnalysis) returns (r: seq<string>)
    ensures StrictlySorted(r)
    ensures forall d :: d in r <==> exists f :: f in a.filesChanged && Directory(f.path) != "" && d == Directory(f.path)
    ensures r == Directories(a)
  {
    var fs := a.filesChanged;
    var directories: set<string> := {};
    var i := 0;
    while i < |fs|
      invariant 0 <= i <= |fs|
      invariant forall d :: d in directories <==> d in DirectoryList(fs[..i])
    {
      assert fs[..i + 1][..i] == fs[..i];
      var dir := Directory(fs[i].path);
      if dir != "" {
        directories := directories + {dir};
      }
      i := i + 1;
    }
    assert fs[..i] == fs;
    r := SortSet(directories);
    DirectoryListMembers(fs);
    SortedUnique(r, Directories(a));
  }

  /** A path without '/' has no directory part. */
  lemma DirectoryOfBareName(path: string)
    requires '/' !in path
    ensures Directory(path) == ""
  {
    SplitWithoutSeparator(path, '/');
  }

  /** With a '/', the path is its directory part, a '/', and the text after the last '/'. */
  lemma DirectoryIsPrefix(path: string)
    requires '/' in path
    ensures exists name :: '/' !in name && path == Directory(path) + "/" + name
  {
    SplitLast(path, '/');
    var parts := Split(path, '/');
    assert '/' !in parts[|parts| - 1];
  }

  /** The extension is the lowercased text after the last '.': it holds no '.' itself. */
  lemma ExtensionIsLastPiece(path: string)
    requires '.' in path
    ensures exists stem, ext :: '.' !in ext && path == stem + "." + ext && Extension(path) == Lower(ext)
  {
    SplitLast(path, '.');
    var parts := Split(path, '.');
    assert '.' !in parts[|parts| - 1];
    assert path == Join(".", parts[..|parts| - 1]) + "." + parts[|parts| - 1];
  }

  const LanguageScopes: seq<string> := ["py", "js", "ts", "java", "cpp", "c"]
  const CommonScopes: seq<string> := ["src", "lib", "tests", "docs", "config"]

  /** any(scope in d for d in dirs) */
  predicate AnyContains(dirs: seq<string>, scope: string)
  {
    exists d :: d in dirs && Contains(d, scope)
  }

  /** The first of scopes that occurs inside some directory. */
  function FirstScope(scopes: seq<string>, dirs: seq<string>): (r: Option<string>)
    ensures r.Some? ==> r.value in scopes && AnyContains(dirs, r.value)
    ensures r.None? ==> forall s :: s in scopes ==> !AnyContains(dirs, s)
  {
    if |scopes| == 0 then None
    else if AnyContains(dirs, scopes[0]) then Some(scopes[0])
    else FirstScope(scopes[1..], dirs)
  }

  /** The scope that get_change_scope chooses, by first-match precedence. */
  function ChangeScope(a: DiffAnalysis): string
  {
    var dirs := Directories(a);
    var exts := Extensions(a);
    if |dirs| == 1 then dirs[0]
    else if |exts| == 1 && exts[0] in LanguageScopes then exts[0]
    else match FirstScope(CommonScopes, dirs)
      case Some(s) => s
      case None => if FileCount(a) > 1 then "core" else ""
  }

  /** DiffAnalysis.get_change_scope. */
  method GetChangeScope(a: DiffAnalysis) returns (scope: string)
    ensures scope == ChangeScope(a)
  {
    var dirs := AffectedDirectories(a);
    if |dirs| == 1 {
      return dirs[0];
    }
    var exts := FileExtensions(a);
    if |exts| == 1 {
      var ext := exts[0];
      if ext in LanguageScopes {
        return ext;
      }
    }
    var k := 0;
    while k < |CommonScopes|
      invariant 0 <= k <= |CommonScopes|
      invariant FirstScope(CommonScopes, dirs) == FirstScope(CommonScopes[k..], dirs)
    {
      if AnyContains(dirs, CommonScopes[k]) {
        return CommonScopes[k];
      }
      assert CommonScopes[k..][1..] == CommonScopes[k + 1..];
      k := k + 1;
    }
    scope := if FileCount(a) > 1 then "core" else "";
  }

  /** When every file sits in the same directory d, the scope is d. */
  lemma ScopeOfOneDirectory(a: DiffAnalysis, d: string)
    requires d != "" && |a.filesChanged| > 0
    requires forall f :: f in a.filesChanged ==> Directory(f.path) == d
    ensures ChangeScope(a) == d
  {
    DirectoryListMembers(a.filesChanged);
    var dirs := Directories(a);
    assert a.filesChanged[0] in a.filesChanged;
    assert d in dirs;
    SortedUnique(dirs, [d]);
  }

  /** The scope is empty only for an analysis of at most one file. */
  lemma EmptyScopeMeansOneFile(a: DiffAnalysis)
    ensures ChangeScope(a) == "" ==> FileCount(a) <= 1
  {
    var dirs := Directories(a);
    DirectoryListMembers(a.filesChanged);
    if |dirs| == 1 {
      assert dirs[0] in dirs;
    }
  }

  /** The scope always comes from the directories, the language list, the common scopes, or is "core"/"". */
  lemma ScopeSources(a: DiffAnalysis)
    ensures var r := ChangeScope(a);
      r in Directories(a) || r in LanguageScopes || r in CommonScopes || r == "core" || r == ""
  {
  }

  /** Some file of fs has change type t. */
  predicate AnyOfType(fs: seq<FileChange>, t: ChangeType)
  {
    exists f :: f in fs && f.changeType == t
  }

  /** is_likely_feature: total_additions > 2 * total_deletions, several files, and some file ADDED. */
  predicate IsLikelyFeature(a: DiffAnalysis)
  {
    a.totalAdditions > a.totalDeletions * 2 && FileCount(a) > 1 && AnyOfType(a.filesChanged, Added)
  }

  /** is_likely_fix: at most three files, none ADDED, and lines both added and deleted. */
  predicate IsLikelyFix(a: DiffAnalysis)
  {
    FileCount(a) <= 3 && !AnyOfType(a.filesChanged, Added) && a.totalAdditions > 0 && a.totalDeletions > 0
  }

  function Abs(x: int): nat
  {
    if x < 0 then -x else x
  }

  function Max(x: int, y: int): int
  {
    if x < y then y else x
  }

  /**
   * abs(add - del) < max(add, del) * 0.3 with a renamed or copied file,
   * stated as the exact comparison 10 * |add - del| < 3 * max; the binary64
   * evaluation agrees with it (RefactorRoundingAgrees).
   */
  predicate IsLikelyRefactor(a: DiffAnalysis)
  {
    10 * Abs(a.totalAdditions - a.totalDeletions) < 3 * Max(a.totalAdditions, a.totalDeletions)
    && (AnyOfType(a.filesChanged, Renamed) || AnyOfType(a.filesChanged, Copied))
  }

  /**
   * is_likely_refactor with max(add, del) * 0.3 rounded to a double; a
   * negative maximum gives a negative product, below every absolute value.
   */
  predicate IsLikelyRefactorInFloats(a: DiffAnalysis)
  {
    var m := Max(a.totalAdditions, a.totalDeletions);
    m >= 0 && BelowThreeTenths(Abs(a.totalAdditions - a.totalDeletions), m)
    && (AnyOfType(a.filesChanged, Renamed) || AnyOfType(a.filesChanged, Copied))
  }

  /** For line totals below 2^50 the rounded test and the exact one decide alike. */
  lemma RefactorRoundingAgrees(a: DiffAnalysis)
    requires Max(a.totalAdditions, a.totalDeletions) < 1125899906842624
    ensures IsLikelyRefactorInFloats(a) <==> IsLikelyRefactor(a)
  {
    var m := Max(a.totalAdditions, a.totalDeletions);
    if m >= 0 {
      ThreeTenthsExact(Abs(a.totalAdditions - a.totalDeletions), m);
    }
  }

  /** A change is never both a likely feature and a likely fix. */
  lemma FeatureExcludesFix(a: DiffAnalysis)
    ensures !(IsLikelyFeature(a) && IsLikelyFix(a))
  {
  }

  /** Refactoring needs a rename or copy, and two zero totals never qualify. */
  lemma RefactorNeeds(a: DiffAnalysis)
    ensures IsLikelyRefactor(a) ==> AnyOfType(a.filesChanged, Renamed) || AnyOfType(a.filesChanged, Copied)
    ensures a.totalAdditions == 0 && a.totalDeletions == 0 ==> !IsLikelyRefactor(a)
  {
  }
}
