/**
 * src/gitai/core/git_analyzer.py: turning git's view of a change into
 * FileChange and DiffAnalysis values. GitPython, `git diff` and the file
 * system are inputs here: a staged diff item is a record of its flags, paths
 * and decoded patch text, and each git command's output is a parameter.
 */
module GitAnalyzer {
  import opened Wrappers
  import opened Strings
  import opened Dicts
  import opened Values
  import opened Errors
  import opened ChangeModels

  /**
   * A GitPython diff item. A missing a_path or b_path is "" (both are falsy);
   * diffText is the patch decoded with errors ignored, None when reading it
   * raises.
   */
  datatype DiffItem = DiffItem(
    newFile: bool,
    deletedFile: bool,
    renamedFile: bool,
    copiedFile: bool,
    aPath: string,
    bPath: string,
    diffText: Option<string>)

  /** The change type of a diff item: new > deleted > renamed > copied > modified. */
  function ItemChangeType(d: DiffItem): (t: ChangeType)
    ensures t == Added <==> d.newFile
    ensures t == Deleted <==> !d.newFile && d.deletedFile
    ensures t == Renamed <==> !d.newFile && !d.deletedFile && d.renamedFile
    ensures t == Copied <==> !d.newFile && !d.deletedFile && !d.renamedFile && d.copiedFile
    ensures t == Modified <==> !d.newFile && !d.deletedFile && !d.renamedFile && !d.copiedFile
  {
    if d.newFile then Added
    else if d.deletedFile then Deleted
    else if d.renamedFile then Renamed
    else if d.copiedFile then Copied
    else Modified
  }

  // ---------------------------------------------------------------------
  // Counting '+' and '-' lines: re.findall(r"^\+[^+]", text, re.MULTILINE)

  /**
   * The matches of ^c[^c] in MULTILINE mode, scanning left to right. atStart
   * says whether position 0 is the start of a line. A match takes the
   * character c at a line start and the next character; since c is not a
   * newline, the character after it never starts a line, so no match hides
   * another and the count is the number of such positions.
   */
  function CountMarked(s: string, c: char, atStart: bool): nat
    decreases |s|
  {
    if |s| == 0 then 0
    else (if atStart && s[0] == c && |s| > 1 && s[1] != c then 1 else 0) + CountMarked(s[1..], c, s[0] == '\n')
  }

  /**
   * Whether one line of split("\n") is counted: it starts with c and its
   * next character is not c, where the next character of a line shorter
   * than two is its newline, which the last line lacks.
   */
  predicate LineCounted(line: string, c: char, isLast: bool)
  {
    |line| >= 1 && line[0] == c && (if |line| >= 2 then line[1] != c else !isLast)
  }

  function CountLines(lines: seq<string>, c: char): nat
  {
    if |lines| == 0 then 0
    else (if LineCounted(lines[0], c, |lines| == 1) then 1 else 0) + CountLines(lines[1..], c)
  }

  /** The regex count equals the count of lines starting with c followed by a character other than c. */
  lemma {:induction false} CountMarkedByLines(s: string, c: char)
    requires c != '\n'
    ensures CountMarked(s, c, true) == CountLines(Split(s, '\n'), c)
    decreases |s|, 1
  {
    if |s| > 0 {
      var t := s[1..];
      if s[0] == '\n' {
        CountMarkedByLines(t, c);
      } else {
        CountMarkedMidLine(t, c);
        var rest := Split(t, '\n');
        assert Split(s, '\n') == [[s[0]] + rest[0]] + rest[1..];
        assert Split(s, '\n')[1..] == rest[1..];
        if |t| > 0 && t[0] == '\n' {
          assert rest[0] == "";
        } else if |t| > 0 {
          assert rest[0] == [t[0]] + Split(t[1..], '\n')[0];
        }
      }
    }
  }

  lemma {:induction false} CountMarkedMidLine(t: string, c: char)
    requires c != '\n'
    ensures CountMarked(t, c, false) == CountLines(Split(t, '\n')[1..], c)
    decreases |t|, 0
  {
    if |t| > 0 {
      if t[0] == '\n' {
        CountMarkedByLines(t[1..], c);
        assert Split(t, '\n')[1..] == Split(t[1..], '\n');
      } else {
        CountMarkedMidLine(t[1..], c);
        var rest := Split(t[1..], '\n');
        assert Split(t, '\n')[1..] == rest[1..];
      }
    }
  }

  /** A "+++"/"---" header line is never counted. */
  lemma HeaderNotCounted(line: string, c: char, isLast: bool)
    requires StartsWith(line, [c, c])
    ensures !LineCounted(line, c, isLast)
  {
  }

  /** _count_diff_lines: (added, removed), and (0, 0) when the patch cannot be read. */
  function CountDiffLines(text: Option<string>): (r: (nat, nat))
    ensures text.None? ==> r == (0, 0)
    ensures text.Some? ==> r == (CountLines(Split(text.value, '\n'), '+'), CountLines(Split(text.value, '\n'), '-'))
  {
    match text
    case None => (0, 0)
    case Some(s) =>
      CountMarkedByLines(s, '+');
      CountMarkedByLines(s, '-');
      (CountMarked(s, '+', true), CountMarked(s, '-', true))
  }

  // ---------------------------------------------------------------------
  // Previews

  predicate IsHeaderLine(line: string)
  {
    StartsWith(line, "@@") || StartsWith(line, "+++") || StartsWith(line, "---")
  }

  predicate IsChangeLine(line: string)
  {
    !IsHeaderLine(line) && (StartsWith(line, "+") || StartsWith(line, "-"))
  }

  /** The change lines of a patch, in order. */
  function ChangeLines(lines: seq<string>): seq<string>
  {
    if |lines| == 0 then []
    else ChangeLines(lines[..|lines| - 1]) + (if IsChangeLine(lines[|lines| - 1]) then [lines[|lines| - 1]] else [])
  }

  /** xs[:n] for a list, n possibly negative (then empty, as the loop's counter test gives). */
  function TakeAtMost(xs: seq<string>, n: int): (r: seq<string>)
    ensures |r| <= |xs| && r == xs[..|r|]
    ensures n <= 0 ==> r == []
    ensures n > 0 ==> |r| == if |xs| < n then |xs| else n
  {
    if n <= 0 then [] else if |xs| <= n then xs else xs[..n]
  }

  /** Each line cut to its first 100 characters. */
  function CutLines(xs: seq<string>): (r: seq<string>)
    ensures |r| == |xs| && forall k :: 0 <= k < |xs| ==> r[k] == Prefix(xs[k], 100)
  {
    if |xs| == 0 then [] else [Prefix(xs[0], 100)] + CutLines(xs[1..])
  }

  /** What the preview keeps of a patch's lines: its first maxLines change lines, each cut to 100 characters. */
  function PreviewLines(lines: seq<string>, maxLines: int): seq<string>
  {
    CutLines(TakeAtMost(ChangeLines(lines), maxLines))
  }

  lemma TakeAtMostSnoc(xs: seq<string>, x: string, n: int)
    ensures TakeAtMost(xs + [x], n) == if |xs| < n then TakeAtMost(xs, n) + [x] else TakeAtMost(xs, n)
  {
    if |xs| < n {
      assert TakeAtMost(xs, n) == xs;
    } else if n > 0 {
      assert (xs + [x])[..n] == xs[..n];
    }
  }

  lemma CutLinesSnoc(xs: seq<string>, x: string)
    ensures CutLines(xs + [x]) == CutLines(xs) + [Prefix(x, 100)]
  {
  }

  /** One more line of the patch is kept, cut, when it is a change line and fewer than maxLines are kept. */
  lemma PreviewStep(lines: seq<string>, i: nat, maxLines: int)
    requires i < |lines|
    ensures PreviewLines(lines[..i + 1], maxLines)
              == if IsChangeLine(lines[i]) && |PreviewLines(lines[..i], maxLines)| < maxLines
                 then PreviewLines(lines[..i], maxLines) + [Prefix(lines[i], 100)]
                 else PreviewLines(lines[..i], maxLines)
  {
    assert lines[..i + 1][..i] == lines[..i];
    var kept := ChangeLines(lines[..i]);
    TakeAtMostSnoc(kept, lines[i], maxLines);
    if IsChangeLine(lines[i]) && |TakeAtMost(kept, maxLines)| < maxLines {
      CutLinesSnoc(TakeAtMost(kept, maxLines), lines[i]);
    }
  }

  /** The preview text of a patch, "" when it cannot be read. */
  function PreviewText(text: Option<string>, maxLines: int): string
  {
    match text
    case None => ""
    case Some(t) => Join("\n", PreviewLines(Split(t, '\n'), maxLines))
  }

  /**
   * _get_diff_item_preview / _get_diff_preview: skip headers, keep change
   * lines while fewer than maxLines are kept, cut each to 100 characters,
   * join with newlines; "" when the patch cannot be read.
   */
  method DiffPreview(text: Option<string>, maxLines: int) returns (preview: string)
    ensures text.None? ==> preview == ""
    ensures text.Some? ==> preview == Join("\n", PreviewLines(Split(text.value, '\n'), maxLines))
    ensures preview == PreviewText(text, maxLines)
  {
    if text.None? {
      return "";
    }
    var lines := Split(text.value, '\n');
    var contentLines: seq<string> := [];
    var i := 0;
    while i < |lines|
      invariant 0 <= i <= |lines|
      invariant contentLines == PreviewLines(lines[..i], maxLines)
    {
      var line := lines[i];
      PreviewStep(lines, i, maxLines);
      if !IsHeaderLine(line) {
        if (StartsWith(line, "+") || StartsWith(line, "-")) && |contentLines| < maxLines {
          contentLines := contentLines + [Prefix(line, 100)];
        }
      }
      i := i + 1;
    }
    assert lines[..i] == lines;
    preview := Join("\n", contentLines);
  }

  lemma {:induction false} ChangeLinesAreChangeLines(lines: seq<string>)
    ensures forall k :: 0 <= k < |ChangeLines(lines)| ==> IsChangeLine(ChangeLines(lines)[k])
    ensures forall k :: 0 <= k < |ChangeLines(lines)| ==> ChangeLines(lines)[k] in lines
  {
    if |lines| > 0 {
      ChangeLinesAreChangeLines(lines[..|lines| - 1]);
    }
  }

  /**
   * A preview has at most maxLines lines; each is a change line of the patch
   * cut to 100 characters, so it starts with '+' or '-' and is no header;
   * and splitting the preview at newlines gives back exactly those lines.
   */
  lemma PreviewShape(text: string, maxLines: int)
    ensures var kept := PreviewLines(Split(text, '\n'), maxLines);
      |kept| <= (if maxLines < 0 then 0 else maxLines)
      && (forall k :: 0 <= k < |kept| ==> 0 < |kept[k]| <= 100 && (kept[k][0] == '+' || kept[k][0] == '-'))
      && (forall k :: 0 <= k < |kept| ==> exists line :: line in Split(text, '\n') && IsChangeLine(line) && kept[k] == Prefix(line, 100))
      && (kept != [] ==> Split(Join("\n", kept), '\n') == kept)
  {
    var lines := Split(text, '\n');
    var taken := TakeAtMost(ChangeLines(lines), maxLines);
    var kept := PreviewLines(lines, maxLines);
    ChangeLinesAreChangeLines(lines);
    forall k | 0 <= k < |kept|
      ensures 0 < |kept[k]| <= 100 && (kept[k][0] == '+' || kept[k][0] == '-')
      ensures exists line :: line in lines && IsChangeLine(line) && kept[k] == Prefix(line, 100)
    {
      assert taken[k] == ChangeLines(lines)[k];
      assert IsChangeLine(taken[k]);
    }
    if kept != [] {
      forall k | 0 <= k < |kept| ensures '\n' !in kept[k] {
        assert taken[k] in lines;
        var j :| 0 <= j < |lines| && lines[j] == taken[k];
        assert '\n' !in lines[j];
      }
      SplitJoin(kept, '\n');
    }
  }

  /** _get_file_preview: the first five lines of the file, each cut to 100 characters; "" when unreadable. */
  function FilePreview(content: Option<string>): (r: string)
    ensures content.None? ==> r == ""
    ensures content.Some? ==>
      Split(r, '\n') == CutLines(TakeAtMost(Split(content.value, '\n'), 5))
  {
    match content
    case None => ""
    case Some(c) =>
      var lines := CutLines(TakeAtMost(Split(c, '\n'), 5));
      assert forall k :: 0 <= k < |lines| ==> '\n' !in lines[k] by {
        forall k | 0 <= k < |lines| ensures '\n' !in lines[k] {
          assert Split(c, '\n')[k] == TakeAtMost(Split(c, '\n'), 5)[k];
        }
      }
      SplitJoin(lines, '\n');
      Join("\n", lines)
  }

  // ---------------------------------------------------------------------
  // Line count of an untracked file: len(text.splitlines())

  /** The line boundaries str.splitlines recognises. */
  predicate IsLineBreak(c: char)
  {
    c == '\n' || c == '\r' || c == '\U{0B}' || c == '\U{0C}' || c == '\U{1C}' || c == '\U{1D}' || c == '\U{1E}'
    || c == '\U{85}' || c == '\U{2028}' || c == '\U{2029}'
  }

  /** The text after the first line and its boundary ("\r\n" is one boundary). */
  function DropLine(s: string): (r: string)
    requires |s| > 0
    ensures |r| < |s|
  {
    if IsLineBreak(s[0]) then (if s[0] == '\r' && |s| > 1 && s[1] == '\n' then s[2..] else s[1..])
    else if |s| == 1 then ""
    else DropLine(s[1..])
  }

  /** len(s.splitlines()). */
  function LineCount(s: string): (n: nat)
    decreases |s|
  {
    if |s| == 0 then 0 else 1 + LineCount(DropLine(s))
  }

  /** Only the empty text has no lines, and a text never has more lines than characters. */
  lemma {:induction false} LineCountBounds(s: string)
    ensures (LineCount(s) == 0) <==> (s == "")
    ensures LineCount(s) <= |s|
    decreases |s|
  {
    if |s| > 0 {
      LineCountBounds(DropLine(s));
    }
  }

  /** "\r\n" ends one line, not two. */
  lemma CrLfIsOneBreak()
    ensures LineCount("a\r\nb") == 2 && LineCount("a\n\nb") == 3 && LineCount("a\n") == 1
  {
    assert DropLine("a\r\nb") == "b" by { assert "a\r\nb"[1..] == "\r\nb"; }
    assert DropLine("a\n\nb") == "\nb" by { assert "a\n\nb"[1..] == "\n\nb"; }
    assert DropLine("\nb") == "b";
    assert DropLine("a\n") == "" by { assert "a\n"[1..] == "\n"; }
  }

  // ---------------------------------------------------------------------
  // Staged changes

  /** _parse_diff_item. */
  function ParseDiffItem(d: DiffItem): (f: FileChange)
    ensures f.changeType == ItemChangeType(d)
    ensures f.path == (if d.bPath != "" then d.bPath else d.aPath)
    ensures f.oldPath.Some? <==> d.renamedFile
    ensures f.oldPath.Some? ==> f.oldPath.value == d.aPath
    ensures (f.linesAdded, f.linesRemoved) == CountDiffLines(d.diffText)
    ensures f.linesAdded >= 0 && f.linesRemoved >= 0
    ensures f.contentPreview == PreviewText(d.diffText, 5)
  {
    var counts := CountDiffLines(d.diffText);
    FileChange(
      if d.bPath != "" then d.bPath else d.aPath,
      ItemChangeType(d),
      counts.0,
      counts.1,
      PreviewText(d.diffText, 5),
      if d.renamedFile then Some(d.aPath) else None)
  }

  /**
   * What a GitPython call raises, with its text: a GitCommandError when git
   * exits non-zero, or any other exception (such as the unresolvable HEAD of
   * a repository without commits).
   */
  datatype GitFailure = CommandFailed(text: string) | Raised(text: string)

  /**
   * What get_staged_changes reads from the repository: the staged diff
   * items against HEAD, or what the diff raises; the untracked paths, or
   * what listing them raises; the content of a path (None when it is not
   * an existing regular file or cannot be read); the commit context dict
   * (or the text of the exception _build_commit_context raises, as
   * active_branch does on a detached HEAD); and the repository context dict.
   */
  datatype StagedRepo = StagedRepo(
    staged: Result<seq<DiffItem>, GitFailure>,
    untracked: Result<seq<string>, GitFailure>,
    readFile: string -> Option<string>,
    commitContext: Result<Dict<Value>, string>,
    repositoryInfo: Dict<Value>)

  function ParseItems(items: seq<DiffItem>): (fs: seq<FileChange>)
    ensures |fs| == |items| && forall k :: 0 <= k < |items| ==> fs[k] == ParseDiffItem(items[k])
  {
    if |items| == 0 then [] else ParseItems(items[..|items| - 1]) + [ParseDiffItem(items[|items| - 1])]
  }

  /** An untracked file is ADDED with all its lines counted as additions. */
  function UntrackedChange(path: string, content: string): FileChange
  {
    FileChange(path, Added, LineCount(content), 0, FilePreview(Some(content)), None)
  }

  /** The untracked files that can be read, in order; the others are skipped. */
  function UntrackedChanges(paths: seq<string>, readFile: string -> Option<string>): seq<FileChange>
  {
    if |paths| == 0 then []
    else
      var last := paths[|paths| - 1];
      UntrackedChanges(paths[..|paths| - 1], readFile)
      + (match readFile(last) case Some(c) => [UntrackedChange(last, c)] case None => [])
  }

  /** The files of a staged analysis: the staged items, then the readable untracked paths. */
  function StagedFiles(items: seq<DiffItem>, paths: seq<string>, readFile: string -> Option<string>): seq<FileChange>
  {
    ParseItems(items) + UntrackedChanges(paths, readFile)
  }

  /** The untracked paths get_staged_changes considers: listed only when they are included. */
  function UntrackedPaths(repo: StagedRepo, includeUntracked: bool): (r: Result<seq<string>, GitFailure>)
    ensures !includeUntracked ==> r == Ok([])
    ensures includeUntracked ==> r == repo.untracked
  {
    if includeUntracked then repo.untracked else Ok([])
  }

  const StagedContext := "Failed to analyze staged changes: "

  /**
   * How get_staged_changes re-raises what GitPython raised: a git command error as
   * GitOperationError, anything else as GitAnalysisError.
   */
  function StagedError(f: GitFailure): (e: Error)
    ensures f.CommandFailed? <==> e.kind == GitOperation
    ensures f.CommandFailed? ==> e.message == "Git command failed: " + f.text
    ensures f.Raised? ==> e == Error(GitAnalysis, StagedContext + f.text)
  {
    match f
    case CommandFailed(text) => Error(GitOperation, "Git command failed: " + text)
    case Raised(text) => Error(GitAnalysis, StagedContext + text)
  }

  /** Nothing is staged and no untracked path is considered. */
  predicate NothingStaged(items: seq<DiffItem>, paths: seq<string>)
  {
    |items| == 0 && |paths| == 0
  }

  /** Appending a file change adds its counts to the totals. */
  lemma SumsSnoc(fs: seq<FileChange>, f: FileChange)
    ensures SumAdded(fs + [f]) == SumAdded(fs) + f.linesAdded
    ensures SumRemoved(fs + [f]) == SumRemoved(fs) + f.linesRemoved
  {
    assert (fs + [f])[..|fs|] == fs;
  }

  lemma ItemsStep(items: seq<DiffItem>, i: nat)
    requires i < |items|
    ensures ParseItems(items[..i + 1]) == ParseItems(items[..i]) + [ParseDiffItem(items[i])]
  {
    assert items[..i + 1][..i] == items[..i];
  }

  /** The loop over the staged diff items, with its running totals. */
  method ParseStagedItems(items: seq<DiffItem>) returns (fileChanges: seq<FileChange>, totalAdditions: int, totalDeletions: int)
    ensures fileChanges == ParseItems(items)
    ensures totalAdditions == SumAdded(fileChanges) && totalDeletions == SumRemoved(fileChanges)
  {
    fileChanges := [];
    totalAdditions, totalDeletions := 0, 0;
    var i := 0;
    while i < |items|
      invariant 0 <= i <= |items|
      invariant fileChanges == ParseItems(items[..i])
      invariant totalAdditions == SumAdded(fileChanges) && totalDeletions == SumRemoved(fileChanges)
    {
      ItemsStep(items, i);
      var fc := ParseDiffItem(items[i]);
      SumsSnoc(fileChanges, fc);
      fileChanges := fileChanges + [fc];
      totalAdditions := totalAdditions + fc.linesAdded;
      totalDeletions := totalDeletions + fc.linesRemoved;
      i := i + 1;
    }
    assert items[..i] == items;
  }

  lemma UntrackedStep(paths: seq<string>, j: nat, readFile: string -> Option<string>)
    requires j < |paths|
    ensures UntrackedChanges(paths[..j + 1], readFile)
              == UntrackedChanges(paths[..j], readFile)
                 + (match readFile(paths[j]) case Some(c) => [UntrackedChange(paths[j], c)] case None => [])
  {
    assert paths[..j + 1][..j] == paths[..j];
  }

  /** The loop over the untracked paths: readable files are appended as ADDED and their lines added to the total. */
  method AddUntracked(staged: seq<FileChange>, additions: int, deletions: int, untracked: seq<string>, readFile: string -> Option<string>)
    returns (fileChanges: seq<FileChange>, totalAdditions: int, totalDeletions: int)
    requires additions == SumAdded(staged) && deletions == SumRemoved(staged)
    ensures fileChanges == staged + UntrackedChanges(untracked, readFile)
    ensures totalAdditions == SumAdded(fileChanges) && totalDeletions == SumRemoved(fileChanges)
  {
    fileChanges, totalAdditions, totalDeletions := staged, additions, deletions;
    var j := 0;
    while j < |untracked|
      invariant 0 <= j <= |untracked|
      invariant fileChanges == staged + UntrackedChanges(untracked[..j], readFile)
      invariant totalAdditions == SumAdded(fileChanges) && totalDeletions == SumRemoved(fileChanges)
    {
      UntrackedStep(untracked, j, readFile);
      var path := untracked[j];
      var content := readFile(path);
      if content.Some? {
        var lines := LineCount(content.value);
        var fc := FileChange(path, Added, lines, 0, FilePreview(content), None);
        SumsSnoc(fileChanges, fc);
        fileChanges := fileChanges + [fc];
        totalAdditions := totalAdditions + lines;
      }
      j := j + 1;
    }
    assert untracked[..j] == untracked;
  }

  /**
   * get_staged_changes: it fails, in this order, when the diff against HEAD fails, when
   * listing the included untracked files fails, when nothing is staged or untracked, and
   * when the commit context cannot be built. A git command error is re-raised as
   * GitOperationError, every other failure as GitAnalysisError.
   */
  method StagedChanges(repo: StagedRepo, includeUntracked: bool) returns (r: Result<DiffAnalysis, Error>)
    ensures r.Err? <==>
              repo.staged.Err? || UntrackedPaths(repo, includeUntracked).Err?
              || NothingStaged(repo.staged.value, UntrackedPaths(repo, includeUntracked).value)
              || repo.commitContext.Err?
    ensures repo.staged.Err? ==> r == Err(StagedError(repo.staged.error))
    ensures repo.staged.Ok? && UntrackedPaths(repo, includeUntracked).Err? ==>
              r == Err(StagedError(UntrackedPaths(repo, includeUntracked).error))
    ensures repo.staged.Ok? && UntrackedPaths(repo, includeUntracked).Ok?
            && NothingStaged(repo.staged.value, UntrackedPaths(repo, includeUntracked).value) ==>
              r == Err(Error(GitAnalysis, StagedContext + "No staged changes found"))
    ensures repo.staged.Ok? && UntrackedPaths(repo, includeUntracked).Ok?
            && !NothingStaged(repo.staged.value, UntrackedPaths(repo, includeUntracked).value) && repo.commitContext.Err? ==>
              r == Err(Error(GitAnalysis, StagedContext + repo.commitContext.error))
    ensures r.Err? ==> r.error.kind == GitAnalysis || r.error.kind == GitOperation
    ensures r.Ok? ==> r.value.filesChanged == StagedFiles(repo.staged.value, UntrackedPaths(repo, includeUntracked).value, repo.readFile)
    ensures r.Ok? ==> r.value.totalAdditions == SumAdded(r.value.filesChanged)
    ensures r.Ok? ==> r.value.totalDeletions == SumRemoved(r.value.filesChanged)
    ensures r.Ok? ==> r.value.changeSummary == ChangeSummaryText(r.value.filesChanged)
    ensures r.Ok? ==> r.value.commitContext == repo.commitContext.value && r.value.repositoryInfo == repo.repositoryInfo
  {
    if repo.staged.Err? {
      return Err(StagedError(repo.staged.error));
    }
    var staged := repo.staged.value;
    var untracked: seq<string> := [];
    if includeUntracked {
      if repo.untracked.Err? {
        return Err(StagedError(repo.untracked.error));
      }
      untracked := repo.untracked.value;
    }
    if |staged| == 0 && |untracked| == 0 {
      // NoStagedChangesError is caught by the generic handler and re-raised as GitAnalysisError
      return Err(Error(GitAnalysis, StagedContext + "No staged changes found"));
    }
    var fileChanges, totalAdditions, totalDeletions := ParseStagedItems(staged);
    fileChanges, totalAdditions, totalDeletions :=
      AddUntracked(fileChanges, totalAdditions, totalDeletions, untracked, repo.readFile);
    if repo.commitContext.Err? {
      return Err(Error(GitAnalysis, StagedContext + repo.commitContext.error));
    }
    var summary := GenerateChangeSummary(fileChanges);
    r := Ok(DiffAnalysis(fileChanges, totalAdditions, totalDeletions, summary, repo.commitContext.value, repo.repositoryInfo));
  }

  // ---------------------------------------------------------------------
  // Branch changes: `git diff <base>...HEAD --numstat`

  datatype NumstatRow = NumstatRow(added: nat, removed: nat, path: string)

  /** int(s) if s.isdigit() else 0, with isdigit() read as "all ASCII digits" (git writes the counts in ASCII). */
  function CountField(s: string): nat
  {
    if IsDigits(s) then DigitsValue(s) else 0
  }

  /** One numstat line: blank lines and lines with fewer than three tab fields give nothing. */
  function ParseNumstatLine(line: string): (r: Option<NumstatRow>)
    ensures IsBlank(line) ==> r.None?
    ensures !IsBlank(line) && |Split(line, '\t')| >= 3 ==> r.Some? && r.value.path == Split(line, '\t')[2]
    ensures |Split(line, '\t')| < 3 ==> r.None?
    ensures r.Some? && (Split(line, '\t')[0] == "-" || Split(line, '\t')[1] == "-") ==> r.value.added == 0 && r.value.removed == 0
    ensures r.Some? && !IsDigits(Split(line, '\t')[0]) ==> r.value.added == 0
    ensures r.Some? && !IsDigits(Split(line, '\t')[1]) ==> r.value.removed == 0
    ensures r.Some? && Split(line, '\t')[0] != "-" && Split(line, '\t')[1] != "-" && IsDigits(Split(line, '\t')[0]) ==>
              r.value.added == DigitsValue(Split(line, '\t')[0])
    ensures r.Some? && Split(line, '\t')[0] != "-" && Split(line, '\t')[1] != "-" && IsDigits(Split(line, '\t')[1]) ==>
              r.value.removed == DigitsValue(Split(line, '\t')[1])
  {
    if IsBlank(line) then None
    else
      var parts := Split(line, '\t');
      if |parts| < 3 then None
      else if parts[0] == "-" || parts[1] == "-" then Some(NumstatRow(0, 0, parts[2]))
      else Some(NumstatRow(CountField(parts[0]), CountField(parts[1]), parts[2]))
  }

  /**
   * _determine_change_type_from_diff: the first letter of the --name-status
   * output as a ChangeType; MODIFIED when the command fails, prints nothing,
   * starts with an empty field, or the letter is not a ChangeType value.
   */
  function StatusChangeType(status: Option<string>): ChangeType
  {
    match status
    case None => Modified
    case Some(st) =>
      if st == "" then Modified
      else
        var first := Split(st, '\t')[0];
        if first == "" then Modified
        else match FromCode(first[0])
          case Some(t) => t
          case None => Modified
  }

  /**
   * What get_branch_changes reads from git: the current branch (None when
   * HEAD is detached), the numstat output against origin/<base> and against
   * the local base (None when that diff fails), the --name-status output and
   * the patch of a path for a base ref (None when the command fails), the
   * number of commits since a base ref, and the repository info dict.
   */
  /**
   * What a branch analysis reads from the repository. currentBranch is None on a
   * detached HEAD, where active_branch raises a TypeError whose text is detachedError.
   */
  datatype BranchRepo = BranchRepo(
    currentBranch: Option<string>,
    detachedError: string,
    originNumstat: Option<string>,
    localNumstat: Option<string>,
    /** str() of the GitCommandError raised by the local diff when localNumstat is None. */
    localDiffError: string,
    nameStatus: (string, string) -> Option<string>,
    fileDiff: (string, string) -> Option<string>,
    commitCount: string -> nat,
    repositoryInfo: Dict<Value>)

  function NumstatChange(row: NumstatRow, baseRef: string, repo: BranchRepo): FileChange
  {
    FileChange(row.path, StatusChangeType(repo.nameStatus(baseRef, row.path)), row.added, row.removed,
      PreviewText(repo.fileDiff(baseRef, row.path), 5), None)
  }

  /** The file changes of the numstat lines, in order. */
  function NumstatFiles(lines: seq<string>, baseRef: string, repo: BranchRepo): seq<FileChange>
  {
    if |lines| == 0 then []
    else
      NumstatFiles(lines[..|lines| - 1], baseRef, repo)
      + (match ParseNumstatLine(lines[|lines| - 1])
        case Some(row) => [NumstatChange(row, baseRef, repo)]
        case None => [])
  }

  /** One more numstat line adds its file change, if it has one, and its counts to the totals. */
  lemma NumstatStep(lines: seq<string>, i: nat, baseRef: string, repo: BranchRepo)
    requires i < |lines|
    ensures NumstatFiles(lines[..i + 1], baseRef, repo)
              == NumstatFiles(lines[..i], baseRef, repo)
                 + (match ParseNumstatLine(lines[i])
                    case Some(row) => [NumstatChange(row, baseRef, repo)]
                    case None => [])
  {
    assert lines[..i + 1][..i] == lines[..i];
  }

  /** The numstat loop of get_branch_changes, with its running totals. */
  method ParseNumstat(diff: string, baseRef: string, repo: BranchRepo)
    returns (files: seq<FileChange>, totalAdditions: int, totalDeletions: int)
    ensures files == NumstatFiles(Split(diff, '\n'), baseRef, repo)
    ensures totalAdditions == SumAdded(files) && totalDeletions == SumRemoved(files)
  {
    var lines := Split(diff, '\n');
    files := [];
    totalAdditions, totalDeletions := 0, 0;
    var i := 0;
    while i < |lines|
      invariant 0 <= i <= |lines|
      invariant files == NumstatFiles(lines[..i], baseRef, repo)
      invariant totalAdditions == SumAdded(files) && totalDeletions == SumRemoved(files)
    {
      NumstatStep(lines, i, baseRef, repo);
      var line := lines[i];
      if !IsBlank(line) {
        var parts := Split(line, '\t');
        if |parts| >= 3 {
          var additions, deletions;
          if parts[0] == "-" || parts[1] == "-" {
            additions, deletions := 0, 0;
          } else {
            additions := CountField(parts[0]);
            deletions := CountField(parts[1]);
          }
          var row := NumstatRow(additions, deletions, parts[2]);
          assert ParseNumstatLine(line) == Some(row);
          var fc := FileChange(parts[2], StatusChangeType(repo.nameStatus(baseRef, parts[2])), additions, deletions,
            PreviewText(repo.fileDiff(baseRef, parts[2]), 5), None);
          assert fc == NumstatChange(row, baseRef, repo);
          SumsSnoc(files, fc);
          files := files + [fc];
          totalAdditions := totalAdditions + additions;
          totalDeletions := totalDeletions + deletions;
        }
      }
      i := i + 1;
    }
    assert lines[..i] == lines;
  }

  /** get_branch_changes. */
  method BranchChanges(repo: BranchRepo, baseBranch: string) returns (r: Result<DiffAnalysis, Error>)
    ensures r.Err? <==> repo.currentBranch.None? || (repo.originNumstat.None? && repo.localNumstat.None?)
    ensures r.Err? && repo.currentBranch.Some? ==> r.error == Error(GitOperation, "Git command failed: " + repo.localDiffError)
    ensures r.Err? && repo.currentBranch.None? ==> r.error == Error(GitAnalysis, "Failed to analyze branch changes: " + repo.detachedError)
    ensures r.Ok? ==> r.value.totalAdditions == SumAdded(r.value.filesChanged)
    ensures r.Ok? ==> r.value.totalDeletions == SumRemoved(r.value.filesChanged)
    ensures r.Ok? ==> r.value.repositoryInfo == repo.repositoryInfo
    ensures r.Ok? ==>
      var raw := if repo.originNumstat.Some? then repo.originNumstat.value else repo.localNumstat.value;
      var baseRef := if repo.originNumstat.Some? then "origin/" + baseBranch else baseBranch;
      if Strip(raw) == "" then
        r.value.filesChanged == [] && r.value.changeSummary == "No changes found"
        && r.value.commitContext == [("current_branch", VStr(repo.currentBranch.value)), ("base_branch", VStr(baseBranch))]
      else
        r.value.filesChanged == NumstatFiles(Split(Strip(raw), '\n'), baseRef, repo)
        && r.value.changeSummary == ChangeSummaryText(r.value.filesChanged)
        && r.value.commitContext == [("current_branch", VStr(repo.currentBranch.value)), ("base_branch", VStr(baseBranch)),
                                     ("commit_count", VInt(repo.commitCount(baseRef)))]
  {
    if repo.currentBranch.None? {
      return Err(Error(GitAnalysis, "Failed to analyze branch changes: " + repo.detachedError));
    }
    var currentBranch := repo.currentBranch.value;
    var baseRef: string;
    var raw: string;
    if repo.originNumstat.Some? {
      baseRef, raw := "origin/" + baseBranch, repo.originNumstat.value;
    } else if repo.localNumstat.Some? {
      baseRef, raw := baseBranch, repo.localNumstat.value;
    } else {
      return Err(Error(GitOperation, "Git command failed: " + repo.localDiffError));
    }
    var diff := Strip(raw);
    if diff == "" {
      return Ok(DiffAnalysis([], 0, 0, "No changes found",
        [("current_branch", VStr(currentBranch)), ("base_branch", VStr(baseBranch))],
        repo.repositoryInfo));
    }
    var files, totalAdditions, totalDeletions := ParseNumstat(diff, baseRef, repo);
    var commitContext := [("current_branch", VStr(currentBranch)), ("base_branch", VStr(baseBranch)),
      ("commit_count", VInt(repo.commitCount(baseRef)))];
    var summary := GenerateChangeSummary(files);
    r := Ok(DiffAnalysis(files, totalAdditions, totalDeletions, summary, commitContext, repo.repositoryInfo));
  }

  // ---------------------------------------------------------------------
  // The "N files (a added, m modified, ...)" summary

  function CountOf(fs: seq<FileChange>, t: ChangeType): nat
  {
    |OfType(fs, t)|
  }

  /** "{n}{word}" when the type occurs; only added, modified, deleted and renamed are listed. */
  function Part(fs: seq<FileChange>, t: ChangeType, word: string): seq<string>
  {
    if CountOf(fs, t) > 0 then [NatToString(CountOf(fs, t)) + word] else []
  }

  function SummaryParts(fs: seq<FileChange>): seq<string>
  {
    Part(fs, Added, " added") + Part(fs, Modified, " modified") + Part(fs, Deleted, " deleted") + Part(fs, Renamed, " renamed")
  }

  /** The text _generate_change_summary returns. */
  function ChangeSummaryText(fs: seq<FileChange>): string
  {
    if |fs| == 0 then "No changes"
    else if |fs| == 1 then "1 file " + Join(", ", SummaryParts(fs))
    else NatToString(|fs|) + " files (" + Join(", ", SummaryParts(fs)) + ")"
  }

  /** _generate_change_summary: counts the files of each type in a dict, then lists them. */
  method GenerateChangeSummary(fs: seq<FileChange>) returns (summary: string)
    ensures summary == ChangeSummaryText(fs)
  {
    if |fs| == 0 {
      return "No changes";
    }
    var byType: map<ChangeType, nat> := map[];
    var i := 0;
    while i < |fs|
      invariant 0 <= i <= |fs|
      invariant forall t :: t in byType <==> CountOf(fs[..i], t) > 0
      invariant forall t :: t in byType ==> byType[t] == CountOf(fs[..i], t)
    {
      assert fs[..i + 1][..i] == fs[..i];
      var t := fs[i].changeType;
      if t !in byType {
        byType := byType[t := 0];
      }
      byType := byType[t := byType[t] + 1];
      i := i + 1;
    }
    assert fs[..i] == fs;
    assert forall t :: t in byType <==> CountOf(fs, t) > 0;
    assert forall t :: t in byType ==> byType[t] == CountOf(fs, t);
    var parts: seq<string> := [];
    if Added in byType {
      parts := parts + [NatToString(byType[Added]) + " added"];
    }
    assert parts == Part(fs, Added, " added");
    if Modified in byType {
      parts := parts + [NatToString(byType[Modified]) + " modified"];
    }
    assert parts == Part(fs, Added, " added") + Part(fs, Modified, " modified");
    if Deleted in byType {
      parts := parts + [NatToString(byType[Deleted]) + " deleted"];
    }
    assert parts == Part(fs, Added, " added") + Part(fs, Modified, " modified") + Part(fs, Deleted, " deleted");
    if Renamed in byType {
      parts := parts + [NatToString(byType[Renamed]) + " renamed"];
    }
    assert parts == SummaryParts(fs);
    if |fs| == 1 {
      summary := "1 file " + Join(", ", parts);
    } else {
      summary := NatToString(|fs|) + " files (" + Join(", ", parts) + ")";
    }
  }

  /**
   * Only the counts of added, modified, deleted and renamed files and the
   * file count enter the summary: copied and other types count toward N but
   * are never listed.
   */
  lemma SummaryDependsOnFourCounts(fs: seq<FileChange>, gs: seq<FileChange>)
    requires |fs| == |gs|
    requires forall t :: t in {Added, Modified, Deleted, Renamed} ==> CountOf(fs, t) == CountOf(gs, t)
    ensures ChangeSummaryText(fs) == ChangeSummaryText(gs)
  {
    assert SummaryParts(fs) == SummaryParts(gs) by {
      assert CountOf(fs, Added) == CountOf(gs, Added);
      assert CountOf(fs, Modified) == CountOf(gs, Modified);
      assert CountOf(fs, Deleted) == CountOf(gs, Deleted);
      assert CountOf(fs, Renamed) == CountOf(gs, Renamed);
    }
  }

  /** A lone copied file is summarised as "1 file " with nothing listed; a lone added one as "1 file 1 added". */
  lemma SingleFileSummaries(f: FileChange)
    ensures f.changeType == Copied ==> ChangeSummaryText([f]) == "1 file "
    ensures f.changeType == Added ==> ChangeSummaryText([f]) == "1 file 1 added"
  {
    assert [f][..0] == [];
    forall t ensures CountOf([f], t) == if f.changeType == t then 1 else 0 {
      assert OfType([f], t) == OfType([], t) + (if f.changeType == t then [f] else []);
    }
    assert NatToString(1) == "1";
  }

  /** Several files give "N files (...)" with N the file count. */
  lemma SummaryShape(fs: seq<FileChange>)
    requires |fs| > 1
    ensures StartsWith(ChangeSummaryText(fs), NatToString(|fs|) + " files (")
    ensures EndsWith(ChangeSummaryText(fs), ")")
  {
    var text := ChangeSummaryText(fs);
    var head := NatToString(|fs|) + " files (";
    assert text == head + (Join(", ", SummaryParts(fs)) + ")");
  }
}
