/**
 * The configuration manager of src/gitai/config/manager.py: the recursive
 * merge of configuration layers, the cleaning of a dict before it is
 * written, the file paths of the three levels, and the manager object with
 * its configuration cache. Files are a map from path to the YAML document
 * they hold; directory creation and the YAML text format are not modelled.
 */
module ConfigManagement {
  import opened Wrappers
  import opened Dicts
  import opened Values
  import opened Errors
  import opened ConfigModels

  // ---------------------------------------------------------------------
  // _merge_configs

  /**
   * The value the merge loop assigns under a key of the override: the two
   * dicts merged when both the current value and the override value are
   * dicts, the override value otherwise.
   */
  function Merged(cur: Option<Value>, v: Value): Value
    decreases v, if v.VDict? then |v.entries| + 1 else 0
  {
    if cur.Some? && cur.value.VDict? && v.VDict? then VDict(MergeFrom(cur.value.entries, v.entries, 0)) else v
  }

  /** The merge loop from the i-th pair of the override on, with result as it stands. */
  function MergeFrom(result: Dict<Value>, override: Dict<Value>, i: nat): Dict<Value>
    requires i <= |override|
    decreases VDict(override), |override| - i
  {
    if i == |override| then result
    else
      assert override[i] in override;
      var k := override[i].0;
      MergeFrom(Put(result, k, Merged(Get(result, k), override[i].1)), override, i + 1)
  }

  function Merge(base: Dict<Value>, override: Dict<Value>): Dict<Value>
  {
    MergeFrom(base, override, 0)
  }

  lemma SuffixHasKey(o: Dict<Value>, i: nat, k: string)
    requires i < |o|
    ensures HasKey(o[i..], k) <==> o[i].0 == k || HasKey(o[i + 1..], k)
  {
    assert o[i..][0] == o[i];
    assert o[i..][1..] == o[i + 1..];
  }

  /** The keys of the merge are those of both dicts. */
  lemma {:induction false} MergeFromKeys(result: Dict<Value>, o: Dict<Value>, i: nat, k: string)
    requires i <= |o|
    ensures HasKey(MergeFrom(result, o, i), k) <==> HasKey(result, k) || HasKey(o[i..], k)
    decreases |o| - i
  {
    if i < |o| {
      var k0 := o[i].0;
      var next := Put(result, k0, Merged(Get(result, k0), o[i].1));
      MergeFromKeys(next, o, i + 1, k);
      GetPut(result, k0, Merged(Get(result, k0), o[i].1), k);
      SuffixHasKey(o, i, k);
    }
  }

  /**
   * With distinct override keys, a key of the override reads the merged
   * value of its base value and its override value; any other key reads
   * the value it had.
   */
  lemma {:induction false} MergeFromGet(result: Dict<Value>, o: Dict<Value>, i: nat, k: string)
    requires i <= |o| && DistinctKeys(o)
    ensures Get(MergeFrom(result, o, i), k) ==
      if HasKey(o[i..], k) then Some(Merged(Get(result, k), Get(o[i..], k).value)) else Get(result, k)
    decreases |o| - i
  {
    if i < |o| {
      var k0 := o[i].0;
      var nv := Merged(Get(result, k0), o[i].1);
      var next := Put(result, k0, nv);
      MergeFromGet(next, o, i + 1, k);
      GetPut(result, k0, nv, k);
      SuffixHasKey(o, i, k);
      assert o[i..][0] == o[i] && o[i..][1..] == o[i + 1..];
      if HasKey(o[i + 1..], k) {
        GetFound(o[i + 1..], k);
      }
    }
  }

  /** The merge keeps the keys of a dict distinct. */
  lemma {:induction false} MergeFromDistinct(result: Dict<Value>, o: Dict<Value>, i: nat)
    requires i <= |o| && DistinctKeys(result)
    ensures DistinctKeys(MergeFrom(result, o, i))
    decreases |o| - i
  {
    if i < |o| {
      var k0 := o[i].0;
      PutKeepsDistinct(result, k0, Merged(Get(result, k0), o[i].1));
      MergeFromDistinct(Put(result, k0, Merged(Get(result, k0), o[i].1)), o, i + 1);
    }
  }

  /**
   * _merge_configs: the keys of the result are those of both dicts; where
   * both values are dicts they are merged recursively, otherwise the
   * override value wins; keys only in the base keep their base value.
   */
  lemma MergeSpec(base: Dict<Value>, override: Dict<Value>, k: string)
    requires DistinctKeys(override)
    ensures HasKey(Merge(base, override), k) <==> HasKey(base, k) || HasKey(override, k)
    ensures !HasKey(override, k) ==> Get(Merge(base, override), k) == Get(base, k)
    ensures HasKey(override, k) && HasKey(base, k) && Get(base, k).value.VDict? && Get(override, k).value.VDict? ==>
      Get(Merge(base, override), k) == Some(VDict(Merge(Get(base, k).value.entries, Get(override, k).value.entries)))
    ensures HasKey(override, k) && !(HasKey(base, k) && Get(base, k).value.VDict? && Get(override, k).value.VDict?) ==>
      Get(Merge(base, override), k) == Get(override, k)
  {
    assert override[0..] == override;
    MergeFromKeys(base, override, 0, k);
    MergeFromGet(base, override, 0, k);
  }

  /** Merging an empty override gives the base back. */
  lemma MergeEmpty(base: Dict<Value>)
    ensures Merge(base, []) == base
  {
  }

  /**
   * _merge_configs as the loop the source runs: a copy of the base, then one
   * assignment per override pair, recursing where both values are dicts.
   */
  method MergeConfigs(base: Dict<Value>, override: Dict<Value>) returns (result: Dict<Value>)
    ensures result == Merge(base, override)
    decreases VDict(override)
  {
    result := base;
    var i := 0;
    while i < |override|
      invariant 0 <= i <= |override|
      invariant MergeFrom(result, override, i) == Merge(base, override)
    {
      var (key, value) := override[i];
      assert override[i] in override;
      var cur := Get(result, key);
      if cur.Some? && cur.value.VDict? && value.VDict? {
        var nested := MergeConfigs(cur.value.entries, value.entries);
        result := Put(result, key, VDict(nested));
      } else {
        result := Put(result, key, value);
      }
      i := i + 1;
    }
  }

  // ---------------------------------------------------------------------
  // _clean_config_dict

  /**
   * What cleaning keeps of one value: nothing for None, an empty list or a
   * dict that is empty once cleaned; the cleaned dict for a dict; the value
   * itself otherwise (lists are not descended into).
   */
  function Cleaned(v: Value): Option<Value>
    decreases v, if v.VDict? then |v.entries| + 1 else 0
  {
    if v.VNone? then None
    else if v.VDict? then
      var c := CleanFrom([], v.entries, 0);
      if |c| > 0 then Some(VDict(c)) else None
    else if v.VList? then
      if |v.items| > 0 then Some(v) else None
    else Some(v)
  }

  /** The cleaning loop from the i-th pair on, with the dict built so far. */
  function CleanFrom(cleaned: Dict<Value>, d: Dict<Value>, i: nat): Dict<Value>
    requires i <= |d|
    decreases VDict(d), |d| - i
  {
    if i == |d| then cleaned
    else
      assert d[i] in d;
      var c := Cleaned(d[i].1);
      CleanFrom(if c.Some? then Put(cleaned, d[i].0, c.value) else cleaned, d, i + 1)
  }

  function Clean(d: Dict<Value>): Dict<Value>
  {
    CleanFrom([], d, 0)
  }

  /** A value as cleaning leaves it: no None, no empty list, no dict that is empty or not clean. */
  predicate CleanValue(v: Value)
    decreases v
  {
    && !v.VNone?
    && (v.VList? ==> |v.items| > 0)
    && (v.VDict? ==> |v.entries| > 0 && forall j :: 0 <= j < |v.entries| ==> CleanValue(v.entries[j].1))
  }

  predicate IsClean(d: Dict<Value>)
  {
    forall j :: 0 <= j < |d| ==> CleanValue(d[j].1)
  }

  /** The keys of a dict and of every dict nested in it are distinct, as in a Python dict. */
  predicate DeepDistinctValue(v: Value)
    decreases v
  {
    v.VDict? ==> DistinctKeys(v.entries) && forall j :: 0 <= j < |v.entries| ==> DeepDistinctValue(v.entries[j].1)
  }

  predicate DeepDistinct(d: Dict<Value>)
  {
    DistinctKeys(d) && forall j :: 0 <= j < |d| ==> DeepDistinctValue(d[j].1)
  }

  /** Assigning a value that has the property keeps it for all pairs. */
  lemma PutKeepsClean(d: Dict<Value>, k: string, v: Value)
    requires IsClean(d) && CleanValue(v)
    ensures IsClean(Put(d, k, v))
  {
    PutPairs(d, k, v);
    var r := Put(d, k, v);
    forall j | 0 <= j < |r| ensures CleanValue(r[j].1) {
      if r[j] != (k, v) {
        var m :| 0 <= m < |d| && d[m] == r[j];
      }
    }
  }

  lemma PutKeepsDeepDistinct(d: Dict<Value>, k: string, v: Value)
    requires DeepDistinct(d) && DeepDistinctValue(v)
    ensures DeepDistinct(Put(d, k, v))
  {
    PutPairs(d, k, v);
    PutKeepsDistinct(d, k, v);
    var r := Put(d, k, v);
    forall j | 0 <= j < |r| ensures DeepDistinctValue(r[j].1) {
      if r[j] != (k, v) {
        var m :| 0 <= m < |d| && d[m] == r[j];
      }
    }
  }

  /** What cleaning keeps is clean and has distinct keys at every level. */
  lemma {:induction false} CleanedIsClean(v: Value)
    ensures Cleaned(v).Some? ==> CleanValue(Cleaned(v).value) && DeepDistinctValue(Cleaned(v).value)
    decreases v, if v.VDict? then |v.entries| + 1 else 0
  {
    if v.VDict? {
      CleanFromIsClean([], v.entries, 0);
    }
  }

  lemma {:induction false} CleanFromIsClean(cleaned: Dict<Value>, d: Dict<Value>, i: nat)
    requires i <= |d| && IsClean(cleaned) && DeepDistinct(cleaned)
    ensures IsClean(CleanFrom(cleaned, d, i)) && DeepDistinct(CleanFrom(cleaned, d, i))
    decreases VDict(d), |d| - i
  {
    if i < |d| {
      assert d[i] in d;
      var c := Cleaned(d[i].1);
      CleanedIsClean(d[i].1);
      if c.Some? {
        PutKeepsClean(cleaned, d[i].0, c.value);
        PutKeepsDeepDistinct(cleaned, d[i].0, c.value);
        CleanFromIsClean(Put(cleaned, d[i].0, c.value), d, i + 1);
      } else {
        CleanFromIsClean(cleaned, d, i + 1);
      }
    }
  }

  /** A clean dict with distinct keys at every level is left as it is. */
  lemma {:induction false} CleanedFixed(v: Value)
    requires CleanValue(v) && DeepDistinctValue(v)
    ensures Cleaned(v) == Some(v)
    decreases v, if v.VDict? then |v.entries| + 1 else 0
  {
    if v.VDict? {
      assert v.entries[..0] == [];
      CleanFromFixed(v.entries, 0);
      assert v.entries[..|v.entries|] == v.entries;
    }
  }

  lemma {:induction false} CleanFromFixed(d: Dict<Value>, i: nat)
    requires i <= |d| && IsClean(d) && DeepDistinct(d)
    ensures CleanFrom(d[..i], d, i) == d
    decreases VDict(d), |d| - i
  {
    if i == |d| {
      assert d[..i] == d;
    } else {
      assert d[i] in d;
      CleanedFixed(d[i].1);
      HasKeyInKeys(d[..i], d[i].0);
      assert forall m :: 0 <= m < i ==> Keys(d[..i])[m] == d[m].0 != d[i].0;
      PutNew(d[..i], d[i].0, d[i].1);
      assert d[..i] + [(d[i].0, d[i].1)] == d[..i + 1];
      CleanFromFixed(d, i + 1);
    }
  }

  /**
   * _clean_config_dict: the result is clean, and applying it twice is the
   * same as applying it once.
   */
  lemma CleanIdempotent(d: Dict<Value>)
    ensures IsClean(Clean(d)) && DeepDistinct(Clean(d))
    ensures Clean(Clean(d)) == Clean(d)
  {
    CleanFromIsClean([], d, 0);
    var c := Clean(d);
    assert c[..0] == [];
    CleanFromFixed(c, 0);
  }

  /** What a lookup in the cleaned dict reads, for the cleaning loop from the i-th pair on. */
  lemma {:induction false} CleanFromGet(cleaned: Dict<Value>, d: Dict<Value>, i: nat, k: string)
    requires i <= |d| && DistinctKeys(d)
    ensures Get(CleanFrom(cleaned, d, i), k) ==
      if HasKey(d[i..], k) && Cleaned(Get(d[i..], k).value).Some? then Cleaned(Get(d[i..], k).value) else Get(cleaned, k)
    decreases |d| - i
  {
    if i < |d| {
      var c := Cleaned(d[i].1);
      var next := if c.Some? then Put(cleaned, d[i].0, c.value) else cleaned;
      CleanFromGet(next, d, i + 1, k);
      if c.Some? {
        GetPut(cleaned, d[i].0, c.value, k);
      }
      SuffixHasKey(d, i, k);
      assert d[i..][0] == d[i] && d[i..][1..] == d[i + 1..];
      if HasKey(d[i + 1..], k) {
        GetFound(d[i + 1..], k);
      }
    }
  }

  /**
   * _clean_config_dict, key by key: a key reads what cleaning keeps of its
   * value, and is absent when nothing is kept or it was absent before.
   */
  lemma CleanSpec(d: Dict<Value>, k: string)
    requires DistinctKeys(d)
    ensures Get(Clean(d), k) == if HasKey(d, k) then Cleaned(Get(d, k).value) else None
  {
    assert d[0..] == d;
    CleanFromGet([], d, 0, k);
  }

  /** _clean_config_dict as the loop the source runs, recursing into nested dicts. */
  method CleanConfigDict(d: Dict<Value>) returns (cleaned: Dict<Value>)
    ensures cleaned == Clean(d)
    decreases VDict(d)
  {
    cleaned := [];
    var i := 0;
    while i < |d|
      invariant 0 <= i <= |d|
      invariant CleanFrom(cleaned, d, i) == Clean(d)
    {
      var (key, value) := d[i];
      assert d[i] in d;
      if value.VNone? {
      } else if value.VDict? {
        var nested := CleanConfigDict(value.entries);
        if |nested| > 0 {
          cleaned := Put(cleaned, key, VDict(nested));
        }
      } else if value.VList? {
        if |value.items| > 0 {
          cleaned := Put(cleaned, key, value);
        }
      } else {
        cleaned := Put(cleaned, key, value);
      }
      i := i + 1;
    }
  }

  // ---------------------------------------------------------------------
  // Layers and files

  /** The file system as far as configuration files go: what safe_load makes of each file. */
  datatype YamlFile =
    | Parsed(doc: Value)          // a YAML document
    | Unparsable(reason: string)  // safe_load raised a YAMLError
    | Unreadable(reason: string)  // open or read raised some other exception

  datatype ConfigPaths = ConfigPaths(project: Option<string>, team: Option<string>, user: string)

  /** config_paths.get(level) */
  function PathFor(paths: ConfigPaths, level: string): (r: Option<string>)
    ensures level == "user" ==> r == Some(paths.user)
    ensures level != "user" && level != "team" && level != "project" ==> r == None
  {
    if level == "project" then paths.project
    else if level == "team" then paths.team
    else if level == "user" then Some(paths.user)
    else None
  }

  const LoadFailed := "Failed to load configuration: "

  /**
   * One layer of load_config: nothing happens unless the path is set and the
   * file exists; otherwise the file is read (`content or {}`) and merged on
   * top. Every failure surfaces as a ConfigurationError, since the handler
   * for anything but a validation error re-wraps it.
   */
  function Layer(files: map<string, YamlFile>, data: Dict<Value>, path: Option<string>): (r: Result<Dict<Value>, Error>)
    ensures path.None? || path.value !in files ==> r == Ok(data)
    ensures r.Err? ==> r.error.kind == Configuration
  {
    if path.None? || path.value !in files then Ok(data)
    else
      match files[path.value]
      case Unparsable(reason) => Err(Error(Configuration, LoadFailed + "Invalid YAML in " + path.value + ": " + reason))
      case Unreadable(reason) => Err(Error(Configuration, LoadFailed + "Failed to read " + path.value + ": " + reason))
      case Parsed(v) =>
        var content := if Truthy(v) then v else VDict([]);
        if content.VDict? then Ok(Merge(data, content.entries))
        else Err(Error(Configuration, LoadFailed + "'" + TypeName(content) + "' object has no attribute 'items'"))
  }

  /** The user, team and project layers, in that order, merged over base. */
  function Layers(files: map<string, YamlFile>, base: Dict<Value>, paths: ConfigPaths): (r: Result<Dict<Value>, Error>)
    ensures r.Err? ==> r.error.kind == Configuration
  {
    var u := Layer(files, base, Some(paths.user));
    if u.Err? then u
    else
      var t := Layer(files, u.value, paths.team);
      if t.Err? then t
      else Layer(files, t.value, paths.project)
  }

  /** The dict of the default configuration, which the layers start from. */
  function DefaultData(): Dict<Value>
  {
    ToDict(DefaultConfig())
  }

  function JoinLines(ls: seq<string>): string
  {
    if |ls| == 0 then "" else if |ls| == 1 then ls[0] else ls[0] + "\n" + JoinLines(ls[1..])
  }

  /** `GitAIConfig(**config_data)` in load_config: a validation failure becomes an InvalidConfigError. */
  function Validated(data: Dict<Value>): (r: Result<GitAIConfig, Error>)
    ensures r.Ok? ==> Valid(r.value)
    ensures r.Err? ==> r.error.kind == InvalidConfig
  {
    match Parse(data)
    case Ok(c) => Ok(c)
    case Err(es) => Err(Error(InvalidConfig, "Configuration validation failed: " + JoinLines(es)))
  }

  /** load_config without the cache: the layered dict, validated. */
  function LoadFresh(files: map<string, YamlFile>, base: Dict<Value>, paths: ConfigPaths): (r: Result<GitAIConfig, Error>)
    ensures r.Ok? ==> Valid(r.value)
    ensures r.Err? ==> r.error.kind == Configuration || r.error.kind == InvalidConfig
  {
    match Layers(files, base, paths)
    case Err(e) => Err(e)
    case Ok(data) => Validated(data)
  }

  /** With no configuration file present, loading gives the default configuration. */
  lemma LoadWithoutFiles(files: map<string, YamlFile>, paths: ConfigPaths)
    requires paths.user !in files
    requires paths.team.None? || paths.team.value !in files
    requires paths.project.None? || paths.project.value !in files
    ensures LoadFresh(files, DefaultData(), paths) == Ok(DefaultConfig())
  {
    ParseToDict(DefaultConfig());
  }

  /**
   * Precedence of the layers: default < user < team < project. A key that a
   * higher layer sets to a non-dict value reads that value; a key no layer
   * sets keeps the default.
   */
  lemma LayerPrecedence(d: Dict<Value>, u: Dict<Value>, t: Dict<Value>, p: Dict<Value>, k: string)
    requires DistinctKeys(u) && DistinctKeys(t) && DistinctKeys(p)
    ensures var m := Merge(Merge(Merge(d, u), t), p);
      && (HasKey(m, k) <==> HasKey(d, k) || HasKey(u, k) || HasKey(t, k) || HasKey(p, k))
      && (HasKey(p, k) && !Get(p, k).value.VDict? ==> Get(m, k) == Get(p, k))
      && (!HasKey(p, k) && HasKey(t, k) && !Get(t, k).value.VDict? ==> Get(m, k) == Get(t, k))
      && (!HasKey(p, k) && !HasKey(t, k) && HasKey(u, k) && !Get(u, k).value.VDict? ==> Get(m, k) == Get(u, k))
      && (!HasKey(p, k) && !HasKey(t, k) && !HasKey(u, k) ==> Get(m, k) == Get(d, k))
  {
    MergeSpec(d, u, k);
    MergeSpec(Merge(d, u), t, k);
    MergeSpec(Merge(Merge(d, u), t), p, k);
  }

  // ---------------------------------------------------------------------
  // Saving

  /** Cleaning keeps a dict non-empty once some pair from the i-th on keeps a value. */
  lemma {:induction false} CleanFromNonEmpty(cleaned: Dict<Value>, d: Dict<Value>, i: nat, j: nat)
    requires i <= |d|
    requires |cleaned| > 0 || (i <= j < |d| && Cleaned(d[j].1).Some?)
    ensures |CleanFrom(cleaned, d, i)| > 0
    decreases |d| - i
  {
    if i < |d| {
      var c := Cleaned(d[i].1);
      if c.Some? {
        var next := Put(cleaned, d[i].0, c.value);
        CleanFromNonEmpty(next, d, i + 1, j);
      } else {
        CleanFromNonEmpty(cleaned, d, i + 1, j);
      }
    }
  }

  /** The document save_config writes for a configuration with a provider is never empty. */
  lemma SavedDictNonEmpty(c: GitAIConfig)
    requires |c.providers| > 0
    ensures |Clean(ToDict(c))| > 0
  {
    var ps := c.providers;
    var e := ps[|ps| - 1].1;
    CleanFromNonEmpty([], EntryDict(e), 0, 0);
    assert ProvidersDict(ps)[|ps| - 1].1 == VDict(EntryDict(e));
    CleanFromNonEmpty([], ProvidersDict(ps), 0, |ps| - 1);
    assert ToDict(c)[0] == ("providers", VDict(ProvidersDict(ps)));
    CleanFromNonEmpty([], ToDict(c), 0, 0);
  }

  /**
   * A Path value of the configuration: the template search paths and the
   * templates directories of the user, team and project sections.
   */
  predicate HoldsPath(c: GitAIConfig)
  {
    |c.templates.searchPaths| > 0 || UserTemplatesDir(c).Some? || TeamTemplatesDir(c).Some? || ProjectTemplatesDir(c).Some?
  }

  const PathTagError :=
    "could not determine a constructor for the tag 'tag:yaml.org,2002:python/object/apply:pathlib.PosixPath'"

  /**
   * The file save_config leaves behind, as written: `.dict()` keeps the Path
   * objects, yaml.dump writes each with a python/object tag, and safe_load,
   * which reads the file back, refuses that tag. Cleaning keeps exactly the
   * non-empty search paths and the set templates directories, so the
   * document holds such a tag exactly when HoldsPath.
   */
  function SavedFileAsWritten(c: GitAIConfig): (f: YamlFile)
    ensures f.Parsed? <==> !HoldsPath(c)
  {
    if HoldsPath(c) then Unparsable(PathTagError) else Parsed(VDict(Clean(ToDict(c))))
  }

  /**
   * The file save_config is meant to leave behind: the cleaned dict with the
   * paths as strings, as the models' `json_encoders = {Path: str}` intend.
   */
  function SavedFile(c: GitAIConfig): (f: YamlFile)
    ensures f.Parsed? && f.doc == VDict(Clean(ToDict(c)))
  {
    Parsed(VDict(Clean(ToDict(c))))
  }

  /** As written, once a configuration holding a path is saved at any level, loading fails. */
  lemma SavedPathBreaksLoad(files: map<string, YamlFile>, base: Dict<Value>, paths: ConfigPaths, level: string, c: GitAIConfig)
    requires PathFor(paths, level).Some? && HoldsPath(c)
    ensures var after := files[PathFor(paths, level).value := SavedFileAsWritten(c)];
      LoadFresh(after, base, paths).Err? && LoadFresh(after, base, paths).error.kind == Configuration
  {
    var p := PathFor(paths, level).value;
    var after := files[p := SavedFileAsWritten(c)];
    assert p == paths.user || paths.team == Some(p) || paths.project == Some(p);
    LayersFail(after, base, paths, p);
  }

  /** A file of one of the levels that cannot be read, or that safe_load refuses, makes the whole load fail. */
  lemma LayersFail(files: map<string, YamlFile>, base: Dict<Value>, paths: ConfigPaths, p: string)
    requires p in files && (files[p].Unparsable? || files[p].Unreadable?)
    requires p == paths.user || paths.team == Some(p) || paths.project == Some(p)
    ensures Layers(files, base, paths).Err?
  {
    var u := Layer(files, base, Some(paths.user));
    if u.Ok? {
      var t := Layer(files, u.value, paths.team);
      if t.Ok? {
        assert p == paths.user ==> Layer(files, base, Some(p)).Err?;
      }
    }
  }

  /**
   * With the paths written as strings, a saved valid configuration reads
   * back as its cleaned dict, merged over whatever the lower layers gave.
   */
  lemma SavedFileReadsBack(files: map<string, YamlFile>, data: Dict<Value>, path: string, c: GitAIConfig)
    requires Valid(c)
    ensures Layer(files[path := SavedFile(c)], data, Some(path)) == Ok(Merge(data, Clean(ToDict(c))))
  {
    SavedDictNonEmpty(c);
  }

  /** validate_config: no messages exactly when the dict validates, otherwise the validation errors. */
  function ValidateConfigDict(d: Dict<Value>): (errs: seq<string>)
    ensures errs == [] <==> Parse(d).Ok?
    ensures Parse(d).Err? ==> errs == Parse(d).error
  {
    match Parse(d)
    case Ok(_) => []
    case Err(es) => es
  }

  // ---------------------------------------------------------------------
  // The manager

  /** get_config_paths for the given project root, team directory and user directory. */
  function PathsOf(projectRoot: Option<string>, teamConfigDir: Option<string>, userConfigDir: string): (p: ConfigPaths)
    ensures p.project.Some? <==> projectRoot.Some?
    ensures p.team.Some? <==> teamConfigDir.Some?
    ensures projectRoot.Some? ==> p.project.value == projectRoot.value + "/.gitai/config.yaml"
    ensures teamConfigDir.Some? ==> p.team.value == teamConfigDir.value + "/config.yaml"
    ensures p.user == userConfigDir + "/config.yaml"
  {
    ConfigPaths(
      if projectRoot.Some? then Some(projectRoot.value + "/.gitai/config.yaml") else None,
      if teamConfigDir.Some? then Some(teamConfigDir.value + "/config.yaml") else None,
      userConfigDir + "/config.yaml")
  }

  function SaveFailed(level: string, reason: string): string
  {
    "Failed to save " + level + " configuration: " + reason
  }

  /** What load_config returns: the cached configuration, or a fresh load. */
  function Current(cache: Option<GitAIConfig>, files: map<string, YamlFile>, base: Dict<Value>, paths: ConfigPaths): (r: Result<GitAIConfig, Error>)
    requires cache.Some? ==> Valid(cache.value)
    ensures r.Ok? ==> Valid(r.value)
    ensures cache.Some? ==> r == Ok(cache.value)
  {
    if cache.Some? then Ok(cache.value) else LoadFresh(files, base, paths)
  }

  /** Truthiness of an optional string argument. */
  predicate Given(s: Option<string>)
  {
    s.Some? && |s.value| > 0
  }

  /** Validity looks only at the providers and the provider-specific sections. */
  lemma SameServicesValid(c: GitAIConfig, r: GitAIConfig)
    requires Valid(c)
    requires r.providers == c.providers && r.ollama == c.ollama && r.openai == c.openai
    requires r.anthropic == c.anthropic && r.lmstudio == c.lmstudio
    ensures Valid(r)
  {
    forall s ensures Section(r, s) == Section(c, s) {
      match s
      case Ollama =>
      case OpenAI =>
      case Anthropic =>
      case LMStudio =>
    }
  }

  /** The configuration init_user_config builds from the default one. */
  function InitialUserConfig(base: GitAIConfig, name: Option<string>, email: Option<string>, provider: string): (c: GitAIConfig)
    requires Valid(base)
    ensures Valid(c)
    ensures c.(user := base.user) == base
    ensures Given(name) || Given(email) ==> c.user == Some(UserSettings(name, email, Some(provider), None))
    ensures !(Given(name) || Given(email)) ==> c == base
  {
    if Given(name) || Given(email) then
      var c := base.(user := Some(UserSettings(name, email, Some(provider), None)));
      SameServicesValid(base, c);
      c
    else base
  }

  /** `config.team = TeamConfig(...)` on a loaded configuration. */
  function WithTeam(c: GitAIConfig, teamName: string, templatesDir: Option<string>, conventions: Option<Dict<string>>): (r: GitAIConfig)
    requires Valid(c)
    ensures Valid(r)
    ensures r.(team := c.team) == c
    ensures r.team.Some? && r.team.value.name == teamName && r.team.value.templatesDir == templatesDir
    ensures r.team.value.conventions == (if conventions.Some? then conventions.value else []) && r.team.value.requiredFields == []
  {
    var r := c.(team := Some(TeamSettings(teamName, templatesDir, if conventions.Some? then conventions.value else [], [])));
    SameServicesValid(c, r);
    r
  }

  /** `config.project = ProjectConfig(...)` on a loaded configuration. */
  function WithProject(c: GitAIConfig, projectName: string, repositoryUrl: Option<string>, templatesDir: Option<string>,
                       customVariables: Option<Dict<Value>>): (r: GitAIConfig)
    requires Valid(c)
    ensures Valid(r)
    ensures r.(project := c.project) == c
    ensures r.project.Some? && r.project.value.name == projectName && r.project.value.repositoryUrl == repositoryUrl
    ensures r.project.value.templatesDir == templatesDir
    ensures r.project.value.customVariables == if customVariables.Some? then customVariables.value else []
  {
    var r := c.(project := Some(ProjectSettings(projectName, repositoryUrl, templatesDir,
                                                 if customVariables.Some? then customVariables.value else [])));
    SameServicesValid(c, r);
    r
  }

  datatype ConfigInfo = ConfigInfo(
    paths: Dict<Option<string>>,
    present: Dict<bool>,
    enabledProviders: seq<string>,
    templatePaths: seq<string>)

  const Levels: seq<string> := ["project", "team", "user"]

  /** `str(path) if path else None` for each level. */
  function LevelPaths(p: ConfigPaths): Dict<Option<string>>
  {
    [("project", p.project), ("team", p.team), ("user", Some(p.user))]
  }

  lemma LevelPathsGet(p: ConfigPaths)
    ensures Keys(LevelPaths(p)) == Levels
    ensures forall l :: l in Levels ==> Get(LevelPaths(p), l) == Some(PathFor(p, l))
  {
    var d := LevelPaths(p);
    assert DistinctKeys(d);
    GetAt(d, 0);
    GetAt(d, 1);
    GetAt(d, 2);
  }

  /**
   * The configuration manager. The file system is the map `files` from a
   * path to what safe_load makes of that file; a path absent from it does
   * not exist. A failure to write a file is an argument of the methods that
   * write one.
   */
  class ConfigManager {
    const projectRoot: Option<string>
    const teamConfigDir: Option<string>
    const userConfigDir: string
    /** create_default_config(): the bottom layer of every load, and the start of init_user_config. */
    const defaultConfig: GitAIConfig
    var cache: Option<GitAIConfig>
    var files: map<string, YamlFile>

    /** The default configuration, and the cached one if any, are validated configurations. */
    predicate CacheValid()
      reads this
    {
      Valid(defaultConfig) && (cache.Some? ==> Valid(cache.value))
    }

    function Paths(): ConfigPaths
    {
      PathsOf(projectRoot, teamConfigDir, userConfigDir)
    }

    /**
     * `project_root or _find_git_root()` and `user_config_dir or the default
     * directory`; the git root found from the working directory and the
     * platform's default directory are arguments.
     */
    constructor(projectRoot: Option<string>, teamConfigDir: Option<string>, userConfigDir: Option<string>,
                gitRoot: Option<string>, defaultUserConfigDir: string, files: map<string, YamlFile>)
      ensures this.projectRoot == if projectRoot.Some? then projectRoot else gitRoot
      ensures this.teamConfigDir == teamConfigDir
      ensures this.userConfigDir == if userConfigDir.Some? then userConfigDir.value else defaultUserConfigDir
      ensures defaultConfig == DefaultConfig()
      ensures cache == None && this.files == files
      ensures CacheValid()
    {
      defaultConfig := DefaultConfig();
      this.projectRoot := if projectRoot.Some? then projectRoot else gitRoot;
      this.teamConfigDir := teamConfigDir;
      this.userConfigDir := if userConfigDir.Some? then userConfigDir.value else defaultUserConfigDir;
      cache := None;
      this.files := files;
    }

    /** _load_yaml_file followed by _merge_configs, when the file exists. */
    method ReadLayer(data: Dict<Value>, path: Option<string>) returns (r: Result<Dict<Value>, Error>)
      ensures r == Layer(files, data, path)
    {
      if path.None? || path.value !in files {
        return Ok(data);
      }
      match files[path.value]
      case Unparsable(reason) =>
        r := Err(Error(Configuration, LoadFailed + "Invalid YAML in " + path.value + ": " + reason));
      case Unreadable(reason) =>
        r := Err(Error(Configuration, LoadFailed + "Failed to read " + path.value + ": " + reason));
      case Parsed(v) =>
        var content := if Truthy(v) then v else VDict([]);
        if content.VDict? {
          var merged := MergeConfigs(data, content.entries);
          r := Ok(merged);
        } else {
          r := Err(Error(Configuration, LoadFailed + "'" + TypeName(content) + "' object has no attribute 'items'"));
        }
    }

    /**
     * load_config: the cached configuration unless a reload is forced;
     * otherwise defaults, user, team and project layers merged and validated,
     * and the cache set only when that succeeds.
     */
    method LoadConfig(forceReload: bool) returns (r: Result<GitAIConfig, Error>)
      requires CacheValid()
      modifies this
      ensures CacheValid()
      ensures files == old(files)
      ensures !forceReload ==> r == Current(old(cache), files, ToDict(defaultConfig), Paths())
      ensures forceReload ==> r == LoadFresh(files, ToDict(defaultConfig), Paths())
      ensures r.Ok? ==> cache == Some(r.value)
      ensures r.Err? ==> cache == old(cache)
    {
      if cache.Some? && !forceReload {
        return Ok(cache.value);
      }
      r := LoadFreshConfig();
      if r.Ok? {
        cache := Some(r.value);
      }
    }

    /** The body of load_config after the cache check: read, merge and validate the layers. */
    method LoadFreshConfig() returns (r: Result<GitAIConfig, Error>)
      ensures r == LoadFresh(files, ToDict(defaultConfig), Paths())
    {
      var paths := Paths();
      var layer := ReadLayer(ToDict(defaultConfig), Some(paths.user));
      if layer.Ok? {
        layer := ReadLayer(layer.value, paths.team);
        if layer.Ok? {
          layer := ReadLayer(layer.value, paths.project);
        }
      }
      assert layer == Layers(files, ToDict(defaultConfig), paths);
      if layer.Err? {
        return Err(layer.error);
      }
      var parsed := Parse(layer.value);
      if parsed.Err? {
        return Err(Error(InvalidConfig, "Configuration validation failed: " + JoinLines(parsed.error)));
      }
      r := Ok(parsed.value);
      assert r == Validated(layer.value);
    }

    /**
     * save_config: the file of the level is replaced by the cleaned dict of
     * the configuration and the cache is dropped; an unknown level or a
     * failed write changes nothing.
     */
    method SaveConfig(config: GitAIConfig, level: string, writeError: Option<string>) returns (r: Result<(), Error>)
      requires CacheValid()
      modifies this
      ensures CacheValid()
      ensures PathFor(Paths(), level).None? ==>
        r == Err(Error(Configuration, "Cannot determine path for " + level + " configuration"))
      ensures PathFor(Paths(), level).Some? && writeError.Some? ==>
        r == Err(Error(Configuration, SaveFailed(level, writeError.value)))
      ensures r.Err? ==> files == old(files) && cache == old(cache)
      ensures PathFor(Paths(), level).Some? && writeError.None? ==>
        r.Ok? && files == old(files)[PathFor(Paths(), level).value := SavedFile(config)] && cache == None
    {
      var path := PathFor(Paths(), level);
      if path.None? {
        return Err(Error(Configuration, "Cannot determine path for " + level + " configuration"));
      }
      if writeError.Some? {
        return Err(Error(Configuration, SaveFailed(level, writeError.value)));
      }
      var cleaned := CleanConfigDict(ToDict(config));
      files := files[path.value := Parsed(VDict(cleaned))];
      cache := None;
      r := Ok(());
    }

    /** init_user_config: the default configuration with the user's details, saved at the user level. */
    method InitUserConfig(name: Option<string>, email: Option<string>, provider: string, writeError: Option<string>)
      returns (r: Result<GitAIConfig, Error>)
      requires CacheValid()
      modifies this
      ensures CacheValid()
      ensures writeError.Some? ==>
        r == Err(Error(Configuration, SaveFailed("user", writeError.value)))
        && files == old(files) && cache == old(cache)
      ensures writeError.None? ==>
        r == Ok(InitialUserConfig(defaultConfig, name, email, provider))
        && files == old(files)[Paths().user := SavedFile(InitialUserConfig(defaultConfig, name, email, provider))] && cache == None
    {
      var config := InitialUserConfig(defaultConfig, name, email, provider);
      var saved := SaveConfig(config, "user", writeError);
      if saved.Err? {
        return Err(saved.error);
      }
      r := Ok(config);
    }

    /**
     * init_team_config: the current configuration with its team section
     * replaced, saved at the team level. The configuration load_config
     * returns is the cached object itself, so setting its team also changes
     * the cache, which stays changed when the save fails.
     */
    method InitTeamConfig(teamName: string, templatesDir: Option<string>, conventions: Option<Dict<string>>,
                          writeError: Option<string>) returns (r: Result<GitAIConfig, Error>)
      requires CacheValid()
      modifies this
      ensures CacheValid()
      ensures teamConfigDir.None? ==>
        r == Err(Error(Configuration, "Team config directory not specified")) && files == old(files) && cache == old(cache)
      ensures teamConfigDir.Some? ==>
        var loaded := Current(old(cache), old(files), ToDict(defaultConfig), Paths());
        && (loaded.Err? ==> r == Err(loaded.error) && files == old(files) && cache == old(cache))
        && (loaded.Ok? && writeError.Some? ==>
              r == Err(Error(Configuration, SaveFailed("team", writeError.value)))
              && files == old(files) && cache == Some(WithTeam(loaded.value, teamName, templatesDir, conventions)))
        && (loaded.Ok? && writeError.None? ==>
              var c := WithTeam(loaded.value, teamName, templatesDir, conventions);
              r == Ok(c) && files == old(files)[Paths().team.value := SavedFile(c)] && cache == None)
    {
      if teamConfigDir.None? {
        return Err(Error(Configuration, "Team config directory not specified"));
      }
      var loaded := LoadConfig(false);
      if loaded.Err? {
        return Err(loaded.error);
      }
      var config := WithTeam(loaded.value, teamName, templatesDir, conventions);
      cache := Some(config);
      var saved := SaveConfig(config, "team", writeError);
      if saved.Err? {
        return Err(saved.error);
      }
      r := Ok(config);
    }

    /**
     * init_project_config: the current configuration with its project
     * section replaced, saved at the project level; as for the team, the
     * cached configuration is the one changed.
     */
    method InitProjectConfig(projectName: string, repositoryUrl: Option<string>, templatesDir: Option<string>,
                             customVariables: Option<Dict<Value>>, writeError: Option<string>)
      returns (r: Result<GitAIConfig, Error>)
      requires CacheValid()
      modifies this
      ensures CacheValid()
      ensures projectRoot.None? ==>
        r == Err(Error(Configuration, "Not in a git repository")) && files == old(files) && cache == old(cache)
      ensures projectRoot.Some? ==>
        var loaded := Current(old(cache), old(files), ToDict(defaultConfig), Paths());
        && (loaded.Err? ==> r == Err(loaded.error) && files == old(files) && cache == old(cache))
        && (loaded.Ok? && writeError.Some? ==>
              r == Err(Error(Configuration, SaveFailed("project", writeError.value)))
              && files == old(files)
              && cache == Some(WithProject(loaded.value, projectName, repositoryUrl, templatesDir, customVariables)))
        && (loaded.Ok? && writeError.None? ==>
              var c := WithProject(loaded.value, projectName, repositoryUrl, templatesDir, customVariables);
              r == Ok(c) && files == old(files)[Paths().project.value := SavedFile(c)] && cache == None)
    {
      if projectRoot.None? {
        return Err(Error(Configuration, "Not in a git repository"));
      }
      var loaded := LoadConfig(false);
      if loaded.Err? {
        return Err(loaded.error);
      }
      var config := WithProject(loaded.value, projectName, repositoryUrl, templatesDir, customVariables);
      cache := Some(config);
      var saved := SaveConfig(config, "project", writeError);
      if saved.Err? {
        return Err(saved.error);
      }
      r := Ok(config);
    }

    /**
     * get_current_config_info: each level's path and whether its file
     * exists, the enabled providers and the template search paths of the
     * current configuration.
     */
    method GetCurrentConfigInfo() returns (r: Result<ConfigInfo, Error>)
      requires CacheValid()
      modifies this
      ensures CacheValid()
      ensures files == old(files)
      ensures var loaded := Current(old(cache), files, ToDict(defaultConfig), Paths());
        && (loaded.Err? <==> r.Err?)
        && (loaded.Err? ==> r.error == loaded.error && cache == old(cache))
        && (loaded.Ok? ==>
              && Keys(r.value.paths) == Levels && Keys(r.value.present) == Levels
              && (forall l :: l in Levels ==> Get(r.value.paths, l) == Some(PathFor(Paths(), l)))
              && (forall l :: l in Levels ==>
                    Get(r.value.present, l) == Some(PathFor(Paths(), l).Some? && PathFor(Paths(), l).value in files))
              && r.value.enabledProviders == EnabledProviders(loaded.value)
              && r.value.templatePaths == Present([ProjectTemplatesDir(loaded.value), TeamTemplatesDir(loaded.value),
                                                   UserTemplatesDir(loaded.value)]) + loaded.value.templates.searchPaths)
    {
      var p := Paths();
      var present := Presence(p);
      var loaded := LoadConfig(false);
      if loaded.Err? {
        return Err(loaded.error);
      }
      var templatePaths := TemplateSearchPaths(loaded.value);
      LevelPathsGet(p);
      r := Ok(ConfigInfo(LevelPaths(p), present, EnabledProviders(loaded.value), templatePaths));
    }

    /** `path.exists() if path else False` for each level. */
    method Presence(p: ConfigPaths) returns (present: Dict<bool>)
      ensures Keys(present) == Levels
      ensures forall l :: l in Levels ==> Get(present, l) == Some(PathFor(p, l).Some? && PathFor(p, l).value in files)
    {
      present := [];
      var i := 0;
      while i < |Levels|
        invariant 0 <= i <= |Levels|
        invariant |present| == i
        invariant forall j :: 0 <= j < i ==>
          present[j] == (Levels[j], PathFor(p, Levels[j]).Some? && PathFor(p, Levels[j]).value in files)
      {
        var path := PathFor(p, Levels[i]);
        present := present + [(Levels[i], path.Some? && path.value in files)];
        i := i + 1;
      }
      assert Keys(present) == Levels;
      assert DistinctKeys(present);
      GetAt(present, 0);
      GetAt(present, 1);
      GetAt(present, 2);
    }
  }
}
