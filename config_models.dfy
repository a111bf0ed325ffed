/**
 * src/gitai/config/models.py: the configuration model. Each pydantic model
 * is a datatype; parsing a dictionary into a model keeps the field
 * defaults, the type checks of the declared fields (with no coercion) and
 * the validators, and `.dict()` is ToDict. Error strings have the form
 * "<location>: <message>".
 */
module ConfigModels {
  import opened Wrappers
  import opened Dicts
  import opened Values
  import opened Errors

  // ---------------------------------------------------------------------
  // Provider-specific sections (OllamaConfig, OpenAIConfig, AnthropicConfig,
  // LMStudioConfig)

  datatype Service = Ollama | OpenAI | Anthropic | LMStudio

  function ServiceName(s: Service): string
  {
    match s
    case Ollama => "ollama"
    case OpenAI => "openai"
    case Anthropic => "anthropic"
    case LMStudio => "lmstudio"
  }

  /** The service whose section is named n, if any. */
  function ServiceNamed(n: string): (r: Option<Service>)
    ensures r.Some? ==> ServiceName(r.value) == n
    ensures forall s :: ServiceName(s) == n ==> r == Some(s)
  {
    if n == "ollama" then Some(Ollama)
    else if n == "openai" then Some(OpenAI)
    else if n == "anthropic" then Some(Anthropic)
    else if n == "lmstudio" then Some(LMStudio)
    else None
  }

  /** Only the two hosted services declare an api_key field. */
  predicate HasApiKey(s: Service)
  {
    s == OpenAI || s == Anthropic
  }

  /** The fields of a provider-specific section; apiKey is None where it is not declared. */
  datatype ServiceSettings = ServiceSettings(
    apiKey: Option<string>,
    baseUrl: string,
    model: string,
    timeout: int,
    temperature: real,
    maxTokens: Option<int>)

  predicate ValidTemperature(t: real)
  {
    0.0 <= t <= 1.0
  }

  predicate ValidTimeout(t: int)
  {
    t > 0
  }

  predicate ValidSettings(s: Service, d: ServiceSettings)
  {
    ValidTemperature(d.temperature) && ValidTimeout(d.timeout) && (!HasApiKey(s) ==> d.apiKey == None)
  }

  const DefaultTimeout: int := 30
  const DefaultTemperature: real := 0.7

  /** The section a model gets when the field is left out. */
  function DefaultSettings(s: Service): (d: ServiceSettings)
    ensures ValidSettings(s, d)
    ensures d.timeout == 30 && d.temperature == 0.7 && d.apiKey == None
  {
    match s
    case Ollama => ServiceSettings(None, "http://localhost:11434", "qwen2.5:7b", DefaultTimeout, DefaultTemperature, None)
    case OpenAI => ServiceSettings(None, "https://api.openai.com/v1", "gpt-3.5-turbo", DefaultTimeout, DefaultTemperature, Some(1000))
    case Anthropic => ServiceSettings(None, "https://api.anthropic.com/v1", "claude-3-haiku-20240307", DefaultTimeout, DefaultTemperature, Some(1000))
    case LMStudio => ServiceSettings(None, "http://localhost:1234/v1", "local-model", DefaultTimeout, DefaultTemperature, Some(1000))
  }

  // ---------------------------------------------------------------------
  // Reading one declared field of a model from a dictionary

  function TypeMessage(loc: string, key: string, expected: string): string
  {
    loc + key + ": Input should be a valid " + expected
  }

  function ReadStr(d: Dict<Value>, loc: string, key: string, default: string): (r: Result<string, string>)
    ensures Get(d, key) == None ==> r == Ok(default)
    ensures forall s :: Get(d, key) == Some(VStr(s)) ==> r == Ok(s)
  {
    match Get<Value>(d, key)
    case None => Ok(default)
    case Some(VStr(s)) => Ok(s)
    case Some(_) => Err(TypeMessage(loc, key, "string"))
  }

  /** A field without a default: leaving it out is an error. */
  function ReadRequiredStr(d: Dict<Value>, loc: string, key: string): (r: Result<string, string>)
    ensures r.Ok? <==> Get(d, key).Some? && Get(d, key).value.VStr?
  {
    match Get<Value>(d, key)
    case None => Err(loc + key + ": Field required")
    case Some(VStr(s)) => Ok(s)
    case Some(_) => Err(TypeMessage(loc, key, "string"))
  }

  /** An Optional[str] field: None is accepted and is the default. */
  function ReadOptStr(d: Dict<Value>, loc: string, key: string): (r: Result<Option<string>, string>)
    ensures Get(d, key) == None || Get(d, key) == Some(VNone) ==> r == Ok(None)
    ensures forall s :: Get(d, key) == Some(VStr(s)) ==> r == Ok(Some(s))
  {
    match Get<Value>(d, key)
    case None => Ok(None)
    case Some(VNone) => Ok(None)
    case Some(VStr(s)) => Ok(Some(s))
    case Some(_) => Err(TypeMessage(loc, key, "string"))
  }

  function ReadInt(d: Dict<Value>, loc: string, key: string, default: int): (r: Result<int, string>)
    ensures Get(d, key) == None ==> r == Ok(default)
    ensures forall i :: Get(d, key) == Some(VInt(i)) ==> r == Ok(i)
  {
    match Get<Value>(d, key)
    case None => Ok(default)
    case Some(VInt(i)) => Ok(i)
    case Some(_) => Err(TypeMessage(loc, key, "integer"))
  }

  function ReadOptInt(d: Dict<Value>, loc: string, key: string, default: Option<int>): (r: Result<Option<int>, string>)
    ensures Get(d, key) == None ==> r == Ok(default)
    ensures Get(d, key) == Some(VNone) ==> r == Ok(None)
    ensures forall i :: Get(d, key) == Some(VInt(i)) ==> r == Ok(Some(i))
  {
    match Get<Value>(d, key)
    case None => Ok(default)
    case Some(VNone) => Ok(None)
    case Some(VInt(i)) => Ok(Some(i))
    case Some(_) => Err(TypeMessage(loc, key, "integer"))
  }

  /** A float field: an int is accepted as its float value. */
  function ReadReal(d: Dict<Value>, loc: string, key: string, default: real): (r: Result<real, string>)
    ensures Get(d, key) == None ==> r == Ok(default)
    ensures forall f :: Get(d, key) == Some(VFloat(f)) ==> r == Ok(f)
  {
    match Get<Value>(d, key)
    case None => Ok(default)
    case Some(VFloat(f)) => Ok(f)
    case Some(VInt(i)) => Ok(i as real)
    case Some(_) => Err(TypeMessage(loc, key, "number"))
  }

  function ReadBool(d: Dict<Value>, loc: string, key: string, default: bool): (r: Result<bool, string>)
    ensures Get(d, key) == None ==> r == Ok(default)
    ensures forall b :: Get(d, key) == Some(VBool(b)) ==> r == Ok(b)
  {
    match Get<Value>(d, key)
    case None => Ok(default)
    case Some(VBool(b)) => Ok(b)
    case Some(_) => Err(TypeMessage(loc, key, "boolean"))
  }

  /** A Dict[str, Any] field whose default is the empty dict. */
  function ReadDict(d: Dict<Value>, loc: string, key: string): (r: Result<Dict<Value>, string>)
    ensures Get(d, key) == None ==> r == Ok([])
    ensures forall e :: Get(d, key) == Some(VDict(e)) ==> r == Ok(e)
  {
    match Get<Value>(d, key)
    case None => Ok([])
    case Some(VDict(e)) => Ok(e)
    case Some(_) => Err(TypeMessage(loc, key, "dictionary"))
  }

  function Strings(vs: seq<Value>): (r: Option<seq<string>>)
    ensures r.Some? ==> |r.value| == |vs| && forall i :: 0 <= i < |vs| ==> vs[i] == VStr(r.value[i])
  {
    if |vs| == 0 then Some([])
    else if !vs[|vs| - 1].VStr? then None
    else match Strings(vs[..|vs| - 1])
      case None => None
      case Some(ss) => Some(ss + [vs[|vs| - 1].s])
  }

  function StrValues(ss: seq<string>): (vs: seq<Value>)
    ensures |vs| == |ss| && forall i :: 0 <= i < |ss| ==> vs[i] == VStr(ss[i])
  {
    if |ss| == 0 then [] else StrValues(ss[..|ss| - 1]) + [VStr(ss[|ss| - 1])]
  }

  lemma {:induction false} StringsOfStrValues(ss: seq<string>)
    ensures Strings(StrValues(ss)) == Some(ss)
  {
    if |ss| > 0 {
      var vs := StrValues(ss);
      assert vs[..|vs| - 1] == StrValues(ss[..|ss| - 1]);
      StringsOfStrValues(ss[..|ss| - 1]);
      assert ss[..|ss| - 1] + [ss[|ss| - 1]] == ss;
    }
  }

  /** A List[str] (or List[Path]) field. */
  function ReadStrList(d: Dict<Value>, loc: string, key: string, default: seq<string>): (r: Result<seq<string>, string>)
    ensures Get(d, key) == None ==> r == Ok(default)
    ensures forall ss :: Get(d, key) == Some(VList(StrValues(ss))) ==> r == Ok(ss)
  {
    match Get<Value>(d, key)
    case None => Ok(default)
    case Some(VList(vs)) =>
      (forall ss | Get(d, key) == Some(VList(StrValues(ss))) ensures Strings(StrValues(ss)) == Some(ss) {
         StringsOfStrValues(ss);
       }
       match Strings(vs)
       case Some(ss) => Ok(ss)
       case None => Err(TypeMessage(loc, key, "list of strings")))
    case Some(_) => Err(TypeMessage(loc, key, "list"))
  }

  /** The string values of a Dict[str, str], None if some value is not a string. */
  function StrDict(e: Dict<Value>): (r: Option<Dict<string>>)
    ensures r.Some? ==> |r.value| == |e| && forall i :: 0 <= i < |e| ==> e[i] == (r.value[i].0, VStr(r.value[i].1))
  {
    if |e| == 0 then Some([])
    else if !e[|e| - 1].1.VStr? then None
    else match StrDict(e[..|e| - 1])
      case None => None
      case Some(c) => Some(c + [(e[|e| - 1].0, e[|e| - 1].1.s)])
  }

  function StrDictValues(c: Dict<string>): (e: Dict<Value>)
    ensures |e| == |c| && forall i :: 0 <= i < |c| ==> e[i] == (c[i].0, VStr(c[i].1))
  {
    if |c| == 0 then [] else StrDictValues(c[..|c| - 1]) + [(c[|c| - 1].0, VStr(c[|c| - 1].1))]
  }

  lemma {:induction false} StrDictOfValues(c: Dict<string>)
    ensures StrDict(StrDictValues(c)) == Some(c)
  {
    if |c| > 0 {
      var e := StrDictValues(c);
      assert e[..|e| - 1] == StrDictValues(c[..|c| - 1]);
      StrDictOfValues(c[..|c| - 1]);
      assert c[..|c| - 1] + [c[|c| - 1]] == c;
    }
  }

  function ReadStrDict(d: Dict<Value>, loc: string, key: string): (r: Result<Dict<string>, string>)
    ensures Get(d, key) == None ==> r == Ok([])
    ensures forall c :: Get(d, key) == Some(VDict(StrDictValues(c))) ==> r == Ok(c)
  {
    match Get<Value>(d, key)
    case None => Ok([])
    case Some(VDict(e)) =>
      (forall c | Get(d, key) == Some(VDict(StrDictValues(c))) ensures StrDict(StrDictValues(c)) == Some(c) {
         StrDictOfValues(c);
       }
       match StrDict(e)
       case Some(c) => Ok(c)
       case None => Err(TypeMessage(loc, key, "dictionary of strings")))
    case Some(_) => Err(TypeMessage(loc, key, "dictionary"))
  }

  function Errs<T>(r: Result<T, string>): seq<string>
  {
    if r.Ok? then [] else [r.error]
  }

  function SectionErrs<T>(r: Result<T, seq<string>>): seq<string>
  {
    if r.Ok? then [] else r.error
  }

  // ---------------------------------------------------------------------
  // The temperature and timeout validators

  /** validate_temperature: 0 <= v <= 1, after the number itself has been read. */
  function CheckTemperature(r: Result<real, string>, loc: string): (c: Result<real, string>)
    ensures c.Ok? <==> r.Ok? && ValidTemperature(r.value)
    ensures c.Ok? ==> c == r
  {
    if r.Err? then r
    else if !ValidTemperature(r.value) then Err(loc + "temperature: Value error, Temperature must be between 0 and 1")
    else r
  }

  /** validate_timeout: v > 0. */
  function CheckTimeout(r: Result<int, string>, loc: string): (c: Result<int, string>)
    ensures c.Ok? <==> r.Ok? && ValidTimeout(r.value)
    ensures c.Ok? ==> c == r
  {
    if r.Err? then r
    else if !ValidTimeout(r.value) then Err(loc + "timeout: Value error, Timeout must be positive")
    else r
  }

  /** Parsing one provider-specific section; loc is the section name and a dot. */
  function ParseService(s: Service, d: Dict<Value>): (r: Result<ServiceSettings, seq<string>>)
    ensures r.Err? ==> |r.error| > 0
    ensures r.Ok? ==> ValidSettings(s, r.value)
  {
    var loc := ServiceName(s) + ".";
    var df := DefaultSettings(s);
    var key := if HasApiKey(s) then ReadOptStr(d, loc, "api_key") else Ok(None);
    var url := ReadStr(d, loc, "base_url", df.baseUrl);
    var model := ReadStr(d, loc, "model", df.model);
    var timeout := CheckTimeout(ReadInt(d, loc, "timeout", df.timeout), loc);
    var temperature := CheckTemperature(ReadReal(d, loc, "temperature", df.temperature), loc);
    var maxTokens := ReadOptInt(d, loc, "max_tokens", df.maxTokens);
    if key.Ok? && url.Ok? && model.Ok? && timeout.Ok? && temperature.Ok? && maxTokens.Ok? then
      Ok(ServiceSettings(key.value, url.value, model.value, timeout.value, temperature.value, maxTokens.value))
    else
      Err((if HasApiKey(s) then Errs(key) + Errs(model) + Errs(url) else Errs(url) + Errs(model))
        + Errs(timeout) + Errs(temperature) + Errs(maxTokens))
  }

  /** Temperature outside [0, 1] or a timeout that is not positive is refused, whatever else the section holds. */
  lemma ServiceBoundsRejected(s: Service, d: Dict<Value>, t: real, n: int)
    requires (Get(d, "temperature") == Some(VFloat(t)) && !ValidTemperature(t))
             || (Get(d, "timeout") == Some(VInt(n)) && !ValidTimeout(n))
    ensures ParseService(s, d).Err?
  {
  }

  function OptStrValue(o: Option<string>): Value
  {
    if o.Some? then VStr(o.value) else VNone
  }

  function OptIntValue(o: Option<int>): Value
  {
    if o.Some? then VInt(o.value) else VNone
  }

  lemma ReadOptIntOf(d: Dict<Value>, loc: string, key: string, default: Option<int>, o: Option<int>)
    requires Get(d, key) == Some(OptIntValue(o))
    ensures ReadOptInt(d, loc, key, default) == Ok(o)
  {
  }

  /** `.dict()` of a provider-specific section, in field declaration order. */
  function ServiceDict(s: Service, d: ServiceSettings): Dict<Value>
  {
    if HasApiKey(s) then
      [("api_key", OptStrValue(d.apiKey)), ("model", VStr(d.model)), ("base_url", VStr(d.baseUrl)),
       ("timeout", VInt(d.timeout)), ("temperature", VFloat(d.temperature)), ("max_tokens", OptIntValue(d.maxTokens))]
    else
      [("base_url", VStr(d.baseUrl)), ("model", VStr(d.model)),
       ("timeout", VInt(d.timeout)), ("temperature", VFloat(d.temperature)), ("max_tokens", OptIntValue(d.maxTokens))]
  }

  lemma ServiceDictDistinct(s: Service, d: ServiceSettings)
    ensures DistinctKeys(ServiceDict(s, d))
  {
  }

  /** Parsing what `.dict()` wrote gives the section back. */
  lemma ParseServiceDict(s: Service, d: ServiceSettings)
    requires ValidSettings(s, d)
    ensures ParseService(s, ServiceDict(s, d)) == Ok(d)
  {
    var e := ServiceDict(s, d);
    ServiceDictDistinct(s, d);
    var o := if HasApiKey(s) then 1 else 0;
    GetAt(e, o + 2);
    GetAt(e, o + 3);
    GetAt(e, o + 4);
    GetAt(e, 0);
    GetAt(e, 1);
    if HasApiKey(s) {
      GetAt(e, 2);
    }
    var loc := ServiceName(s) + ".";
    var df := DefaultSettings(s);
    assert CheckTimeout(ReadInt(e, loc, "timeout", df.timeout), loc) == Ok(d.timeout);
    assert CheckTemperature(ReadReal(e, loc, "temperature", df.temperature), loc) == Ok(d.temperature);
    ReadOptIntOf(e, loc, "max_tokens", df.maxTokens, d.maxTokens);
    assert ReadStr(e, loc, "model", df.model) == Ok(d.model);
    assert ReadStr(e, loc, "base_url", df.baseUrl) == Ok(d.baseUrl);
    assert (if HasApiKey(s) then ReadOptStr(e, loc, "api_key") else Ok(None)) == Ok(d.apiKey);
  }

  // ---------------------------------------------------------------------
  // Entries of the providers map (ProviderConfig, extra keys allowed)

  datatype ProviderEntry = ProviderEntry(
    name: string,
    enabled: bool,
    priority: int,
    config: Dict<Value>,
    extra: Dict<Value>)   // the undeclared keys, kept because extra = "allow"

  predicate IsDeclaredEntryKey(k: string)
  {
    k == "name" || k == "enabled" || k == "priority" || k == "config"
  }

  /** The pairs of d whose keys are not declared fields of ProviderConfig. */
  function ExtraPairs(d: Dict<Value>): (r: Dict<Value>)
    ensures forall i :: 0 <= i < |r| ==> !IsDeclaredEntryKey(r[i].0)
  {
    if |d| == 0 then []
    else (if IsDeclaredEntryKey(d[0].0) then [] else [d[0]]) + ExtraPairs(d[1..])
  }

  lemma {:induction false} ExtraPairsOfExtras(d: Dict<Value>)
    requires forall i :: 0 <= i < |d| ==> !IsDeclaredEntryKey(d[i].0)
    ensures ExtraPairs(d) == d
  {
    if |d| > 0 {
      ExtraPairsOfExtras(d[1..]);
    }
  }

  function ParseEntry(key: string, v: Value): (r: Result<ProviderEntry, seq<string>>)
    ensures r.Err? ==> |r.error| > 0
    ensures r.Ok? ==> forall i :: 0 <= i < |r.value.extra| ==> !IsDeclaredEntryKey(r.value.extra[i].0)
  {
    if !v.VDict? then Err([TypeMessage("providers.", key, "dictionary")])
    else
      var loc := "providers." + key + ".";
      var d := v.entries;
      var name := ReadRequiredStr(d, loc, "name");
      var enabled := ReadBool(d, loc, "enabled", true);
      var priority := ReadInt(d, loc, "priority", 1);
      var config := ReadDict(d, loc, "config");
      if name.Ok? && enabled.Ok? && priority.Ok? && config.Ok? then
        Ok(ProviderEntry(name.value, enabled.value, priority.value, config.value, ExtraPairs(d)))
      else
        Err(Errs(name) + Errs(enabled) + Errs(priority) + Errs(config))
  }

  /** `.dict()` of an entry: the declared fields, then the extra ones. */
  function EntryDict(e: ProviderEntry): Dict<Value>
  {
    [("name", VStr(e.name)), ("enabled", VBool(e.enabled)), ("priority", VInt(e.priority)), ("config", VDict(e.config))] + e.extra
  }

  predicate EntryWellFormed(e: ProviderEntry)
  {
    forall i :: 0 <= i < |e.extra| ==> !IsDeclaredEntryKey(e.extra[i].0)
  }

  lemma EntryDictGets(e: ProviderEntry)
    ensures Get(EntryDict(e), "name") == Some(VStr(e.name))
    ensures Get(EntryDict(e), "enabled") == Some(VBool(e.enabled))
    ensures Get(EntryDict(e), "priority") == Some(VInt(e.priority))
    ensures Get(EntryDict(e), "config") == Some(VDict(e.config))
  {
    var decl := [("name", VStr(e.name)), ("enabled", VBool(e.enabled)), ("priority", VInt(e.priority)), ("config", VDict(e.config))];
    assert EntryDict(e) == decl + e.extra;
    assert DistinctKeys(decl);
    GetAt(decl, 0);
    GetAt(decl, 1);
    GetAt(decl, 2);
    GetAt(decl, 3);
    GetAppend(decl, e.extra, "name");
    GetAppend(decl, e.extra, "enabled");
    GetAppend(decl, e.extra, "priority");
    GetAppend(decl, e.extra, "config");
  }

  lemma EntryDictExtra(e: ProviderEntry)
    requires EntryWellFormed(e)
    ensures ExtraPairs(EntryDict(e)) == e.extra
  {
    var d := EntryDict(e);
    assert d[1..][1..] == d[2..] && d[2..][1..] == d[3..] && d[3..][1..] == d[4..] && d[4..] == e.extra;
    assert ExtraPairs(d) == ExtraPairs(d[1..]) == ExtraPairs(d[2..]) == ExtraPairs(d[3..]) == ExtraPairs(d[4..]);
    ExtraPairsOfExtras(e.extra);
  }

  /** A well-formed entry survives `.dict()` followed by validation. */
  lemma ParseEntryDict(key: string, e: ProviderEntry)
    requires EntryWellFormed(e)
    ensures ParseEntry(key, VDict(EntryDict(e))) == Ok(e)
  {
    EntryDictGets(e);
    EntryDictExtra(e);
  }

  /** The providers map; every value must parse as an entry. */
  function ParseProviders(d: Dict<Value>): (r: Result<Dict<ProviderEntry>, seq<string>>)
    ensures r.Err? ==> |r.error| > 0
    ensures r.Ok? ==> Keys(r.value) == Keys(d)
    ensures r.Ok? ==> forall i :: 0 <= i < |r.value| ==> EntryWellFormed(r.value[i].1)
  {
    if |d| == 0 then Ok([])
    else
      var init := ParseProviders(d[..|d| - 1]);
      var last := ParseEntry(d[|d| - 1].0, d[|d| - 1].1);
      if init.Ok? && last.Ok? then
        var r := init.value + [(d[|d| - 1].0, last.value)];
        KeysSnocOf(init.value, d, last.value);
        WellFormedSnoc(init.value, (d[|d| - 1].0, last.value), r);
        Ok(r)
      else
        Err(SectionErrs(init) + SectionErrs(last))
  }

  /** The step of ParseProviders: one more parsed entry keeps the entries well-formed. */
  lemma WellFormedSnoc(init: Dict<ProviderEntry>, p: (string, ProviderEntry), r: Dict<ProviderEntry>)
    requires r == init + [p]
    requires forall i :: 0 <= i < |init| ==> EntryWellFormed(init[i].1)
    requires EntryWellFormed(p.1)
    ensures forall i :: 0 <= i < |r| ==> EntryWellFormed(r[i].1)
  {
    forall i | 0 <= i < |r|
      ensures EntryWellFormed(r[i].1)
    {
      if i < |init| {
        assert r[i] == init[i];
      }
    }
  }

  function ProvidersDict(ps: Dict<ProviderEntry>): (d: Dict<Value>)
    ensures |d| == |ps|
  {
    if |ps| == 0 then [] else ProvidersDict(ps[..|ps| - 1]) + [(ps[|ps| - 1].0, VDict(EntryDict(ps[|ps| - 1].1)))]
  }

  lemma {:induction false} ParseProvidersDict(ps: Dict<ProviderEntry>)
    requires forall i :: 0 <= i < |ps| ==> EntryWellFormed(ps[i].1)
    ensures ParseProviders(ProvidersDict(ps)) == Ok(ps)
  {
    if |ps| > 0 {
      var init, last := ps[..|ps| - 1], ps[|ps| - 1];
      assert init + [last] == ps;
      ParseProvidersDict(init);
      ParseProvidersDictStep(init, last);
    }
  }

  /** The step of ParseProvidersDict: one more well-formed entry parses back to itself. */
  lemma ParseProvidersDictStep(init: Dict<ProviderEntry>, last: (string, ProviderEntry))
    requires EntryWellFormed(last.1) && ParseProviders(ProvidersDict(init)) == Ok(init)
    ensures ParseProviders(ProvidersDict(init + [last])) == Ok(init + [last])
  {
    var ps := init + [last];
    var d := ProvidersDict(ps);
    assert ps[..|ps| - 1] == init;
    assert d[..|d| - 1] == ProvidersDict(init);
    assert d[|d| - 1] == (last.0, VDict(EntryDict(last.1)));
    ParseEntryDict(last.0, last.1);
  }

  // ---------------------------------------------------------------------
  // The other sections: templates, git, user, team, project

  datatype TemplateSettings = TemplateSettings(
    defaultCommitTemplate: string,
    defaultPrTemplate: string,
    searchPaths: seq<string>,
    variables: Dict<Value>)

  datatype GitSettings = GitSettings(
    defaultBranch: string,
    ignorePatterns: seq<string>,
    maxDiffSize: int,
    includeBinaryFiles: bool)

  datatype UserSettings = UserSettings(
    name: Option<string>,
    email: Option<string>,
    preferredProvider: Option<string>,
    templatesDir: Option<string>)

  datatype TeamSettings = TeamSettings(
    name: string,
    templatesDir: Option<string>,
    conventions: Dict<string>,
    requiredFields: seq<string>)

  datatype ProjectSettings = ProjectSettings(
    name: string,
    repositoryUrl: Option<string>,
    templatesDir: Option<string>,
    customVariables: Dict<Value>)

  const DefaultTemplates := TemplateSettings("conventional", "github", [], [])
  const DefaultIgnorePatterns: seq<string> := ["*.log", "*.tmp", ".env*"]
  const DefaultGit := GitSettings("main", DefaultIgnorePatterns, 10000, false)

  function ParseTemplates(d: Dict<Value>): (r: Result<TemplateSettings, seq<string>>)
    ensures r.Err? ==> |r.error| > 0
    ensures d == [] ==> r == Ok(DefaultTemplates)
  {
    var loc := "templates.";
    var commit := ReadStr(d, loc, "default_commit_template", "conventional");
    var pr := ReadStr(d, loc, "default_pr_template", "github");
    var paths := ReadStrList(d, loc, "search_paths", []);
    var vars := ReadDict(d, loc, "variables");
    if commit.Ok? && pr.Ok? && paths.Ok? && vars.Ok? then
      Ok(TemplateSettings(commit.value, pr.value, paths.value, vars.value))
    else
      Err(Errs(commit) + Errs(pr) + Errs(paths) + Errs(vars))
  }

  function TemplatesDict(t: TemplateSettings): Dict<Value>
  {
    [("default_commit_template", VStr(t.defaultCommitTemplate)), ("default_pr_template", VStr(t.defaultPrTemplate)),
     ("search_paths", VList(StrValues(t.searchPaths))), ("variables", VDict(t.variables))]
  }

  lemma ParseTemplatesDict(t: TemplateSettings)
    ensures ParseTemplates(TemplatesDict(t)) == Ok(t)
  {
    var e := TemplatesDict(t);
    assert DistinctKeys(e);
    GetAt(e, 0);
    GetAt(e, 1);
    GetAt(e, 2);
    GetAt(e, 3);
  }

  function ParseGit(d: Dict<Value>): (r: Result<GitSettings, seq<string>>)
    ensures r.Err? ==> |r.error| > 0
    ensures d == [] ==> r == Ok(DefaultGit)
  {
    var loc := "git.";
    var branch := ReadStr(d, loc, "default_branch", "main");
    var patterns := ReadStrList(d, loc, "ignore_patterns", DefaultIgnorePatterns);
    var size := ReadInt(d, loc, "max_diff_size", 10000);
    var binary := ReadBool(d, loc, "include_binary_files", false);
    if branch.Ok? && patterns.Ok? && size.Ok? && binary.Ok? then
      Ok(GitSettings(branch.value, patterns.value, size.value, binary.value))
    else
      Err(Errs(branch) + Errs(patterns) + Errs(size) + Errs(binary))
  }

  function GitDict(g: GitSettings): Dict<Value>
  {
    [("default_branch", VStr(g.defaultBranch)), ("ignore_patterns", VList(StrValues(g.ignorePatterns))),
     ("max_diff_size", VInt(g.maxDiffSize)), ("include_binary_files", VBool(g.includeBinaryFiles))]
  }

  lemma ParseGitDict(g: GitSettings)
    ensures ParseGit(GitDict(g)) == Ok(g)
  {
    var e := GitDict(g);
    assert DistinctKeys(e);
    GetAt(e, 0);
    GetAt(e, 1);
    GetAt(e, 2);
    GetAt(e, 3);
  }

  function ParseUser(d: Dict<Value>): (r: Result<UserSettings, seq<string>>)
    ensures r.Err? ==> |r.error| > 0
    ensures d == [] ==> r == Ok(UserSettings(None, None, None, None))
  {
    var loc := "user.";
    var name := ReadOptStr(d, loc, "name");
    var email := ReadOptStr(d, loc, "email");
    var preferred := ReadOptStr(d, loc, "preferred_provider");
    var dir := ReadOptStr(d, loc, "templates_dir");
    if name.Ok? && email.Ok? && preferred.Ok? && dir.Ok? then
      Ok(UserSettings(name.value, email.value, preferred.value, dir.value))
    else
      Err(Errs(name) + Errs(email) + Errs(preferred) + Errs(dir))
  }

  function UserDict(u: UserSettings): Dict<Value>
  {
    [("name", OptStrValue(u.name)), ("email", OptStrValue(u.email)),
     ("preferred_provider", OptStrValue(u.preferredProvider)), ("templates_dir", OptStrValue(u.templatesDir))]
  }

  lemma ReadOptStrOf(d: Dict<Value>, loc: string, key: string, o: Option<string>)
    requires Get(d, key) == Some(OptStrValue(o))
    ensures ReadOptStr(d, loc, key) == Ok(o)
  {
  }

  lemma ParseUserDict(u: UserSettings)
    ensures ParseUser(UserDict(u)) == Ok(u)
  {
    var e := UserDict(u);
    assert DistinctKeys(e);
    GetAt(e, 0);
    GetAt(e, 1);
    GetAt(e, 2);
    GetAt(e, 3);
    ReadOptStrOf(e, "user.", "name", u.name);
    ReadOptStrOf(e, "user.", "email", u.email);
    ReadOptStrOf(e, "user.", "preferred_provider", u.preferredProvider);
    ReadOptStrOf(e, "user.", "templates_dir", u.templatesDir);
  }

  function ParseTeam(d: Dict<Value>): (r: Result<TeamSettings, seq<string>>)
    ensures r.Err? ==> |r.error| > 0
    ensures Get(d, "name") == None ==> r.Err? && |r.error| > 0 && r.error[0] == "team.name: Field required"
  {
    var loc := "team.";
    var name := ReadRequiredStr(d, loc, "name");
    var dir := ReadOptStr(d, loc, "templates_dir");
    var conventions := ReadStrDict(d, loc, "conventions");
    var required := ReadStrList(d, loc, "required_fields", []);
    if name.Ok? && dir.Ok? && conventions.Ok? && required.Ok? then
      Ok(TeamSettings(name.value, dir.value, conventions.value, required.value))
    else
      Err(Errs(name) + Errs(dir) + Errs(conventions) + Errs(required))
  }

  function TeamDict(t: TeamSettings): Dict<Value>
  {
    [("name", VStr(t.name)), ("templates_dir", OptStrValue(t.templatesDir)),
     ("conventions", VDict(StrDictValues(t.conventions))), ("required_fields", VList(StrValues(t.requiredFields)))]
  }

  lemma ParseTeamDict(t: TeamSettings)
    ensures ParseTeam(TeamDict(t)) == Ok(t)
  {
    var e := TeamDict(t);
    assert DistinctKeys(e);
    GetAt(e, 0);
    GetAt(e, 1);
    GetAt(e, 2);
    GetAt(e, 3);
    ReadOptStrOf(e, "team.", "templates_dir", t.templatesDir);
  }

  function ParseProject(d: Dict<Value>): (r: Result<ProjectSettings, seq<string>>)
    ensures r.Err? ==> |r.error| > 0
    ensures Get(d, "name") == None ==> r.Err? && |r.error| > 0 && r.error[0] == "project.name: Field required"
  {
    var loc := "project.";
    var name := ReadRequiredStr(d, loc, "name");
    var url := ReadOptStr(d, loc, "repository_url");
    var dir := ReadOptStr(d, loc, "templates_dir");
    var vars := ReadDict(d, loc, "custom_variables");
    if name.Ok? && url.Ok? && dir.Ok? && vars.Ok? then
      Ok(ProjectSettings(name.value, url.value, dir.value, vars.value))
    else
      Err(Errs(name) + Errs(url) + Errs(dir) + Errs(vars))
  }

  function ProjectDict(p: ProjectSettings): Dict<Value>
  {
    [("name", VStr(p.name)), ("repository_url", OptStrValue(p.repositoryUrl)),
     ("templates_dir", OptStrValue(p.templatesDir)), ("custom_variables", VDict(p.customVariables))]
  }

  lemma ParseProjectDict(p: ProjectSettings)
    ensures ParseProject(ProjectDict(p)) == Ok(p)
  {
    var e := ProjectDict(p);
    assert DistinctKeys(e);
    GetAt(e, 0);
    GetAt(e, 1);
    GetAt(e, 2);
    GetAt(e, 3);
    ReadOptStrOf(e, "project.", "repository_url", p.repositoryUrl);
    ReadOptStrOf(e, "project.", "templates_dir", p.templatesDir);
  }

  // ---------------------------------------------------------------------
  // The whole configuration

  datatype GitAIConfig = GitAIConfig(
    providers: Dict<ProviderEntry>,
    templates: TemplateSettings,
    git: GitSettings,
    user: Option<UserSettings>,
    team: Option<TeamSettings>,
    project: Option<ProjectSettings>,
    ollama: Option<ServiceSettings>,
    openai: Option<ServiceSettings>,
    anthropic: Option<ServiceSettings>,
    lmstudio: Option<ServiceSettings>)

  /** The provider-specific section of a service. */
  function Section(c: GitAIConfig, s: Service): Option<ServiceSettings>
  {
    match s
    case Ollama => c.ollama
    case OpenAI => c.openai
    case Anthropic => c.anthropic
    case LMStudio => c.lmstudio
  }

  /** Some entry of the providers map is enabled. */
  predicate AnyEnabled(ps: Dict<ProviderEntry>)
  {
    exists i :: 0 <= i < |ps| && ps[i].1.enabled
  }

  /** The providers map has an enabled entry under the key n. */
  predicate EnabledKey(ps: Dict<ProviderEntry>, n: string)
  {
    exists i :: 0 <= i < |ps| && ps[i].0 == n && ps[i].1.enabled
  }

  /** The section of s as the model validator leaves it, after it has seen the entries ps. */
  function Filled(c: GitAIConfig, ps: Dict<ProviderEntry>, s: Service): Option<ServiceSettings>
  {
    if Section(c, s).None? && EnabledKey(ps, ServiceName(s)) then Some(DefaultSettings(s)) else Section(c, s)
  }

  function FillSections(c: GitAIConfig, ps: Dict<ProviderEntry>): (r: GitAIConfig)
    ensures forall s :: Section(r, s) == Filled(c, ps, s)
  {
    c.(ollama := Filled(c, ps, Ollama), openai := Filled(c, ps, OpenAI),
       anthropic := Filled(c, ps, Anthropic), lmstudio := Filled(c, ps, LMStudio))
  }

  /**
   * What validate_config does once the providers map is known to have an
   * enabled entry: every enabled service without its section gets the
   * default one; everything else is as it was.
   */
  function WithDefaultSections(c: GitAIConfig): (r: GitAIConfig)
    ensures forall s :: Section(c, s).Some? ==> Section(r, s) == Section(c, s)
    ensures forall s :: Section(c, s).None? ==>
      (Section(r, s).Some? <==> EnabledKey(c.providers, ServiceName(s)))
    ensures forall s :: Section(r, s).Some? ==> Section(c, s).Some? || Section(r, s) == Some(DefaultSettings(s))
    ensures r.(ollama := c.ollama, openai := c.openai, anthropic := c.anthropic, lmstudio := c.lmstudio) == c
  {
    FillSections(c, c.providers)
  }

  lemma EnabledKeyStep(ps: Dict<ProviderEntry>, i: nat, n: string)
    requires i < |ps|
    ensures EnabledKey(ps[..i + 1], n) <==> EnabledKey(ps[..i], n) || (ps[i].0 == n && ps[i].1.enabled)
  {
    if EnabledKey(ps[..i + 1], n) {
      var j :| 0 <= j < i + 1 && ps[..i + 1][j].0 == n && ps[..i + 1][j].1.enabled;
      if j < i {
        assert ps[..i][j] == ps[j];
      }
    }
    if EnabledKey(ps[..i], n) {
      var j :| 0 <= j < i && ps[..i][j].0 == n && ps[..i][j].1.enabled;
      assert ps[..i + 1][j] == ps[j];
    }
    if ps[i].0 == n && ps[i].1.enabled {
      assert ps[..i + 1][i] == ps[i];
    }
  }

  /** The enabled entries, in map order: `[p for p in providers.values() if p.enabled]`. */
  function EnabledEntries(ps: Dict<ProviderEntry>): (r: seq<ProviderEntry>)
    ensures forall e :: e in r <==> exists i :: 0 <= i < |ps| && ps[i].1 == e && e.enabled
  {
    if |ps| == 0 then []
    else
      var init := ps[..|ps| - 1];
      var r := EnabledEntries(init) + (if ps[|ps| - 1].1.enabled then [ps[|ps| - 1].1] else []);
      assert forall i :: 0 <= i < |init| ==> init[i] == ps[i];
      r
  }

  lemma EnabledEntriesEmpty(ps: Dict<ProviderEntry>)
    ensures EnabledEntries(ps) == [] <==> !AnyEnabled(ps)
  {
    if AnyEnabled(ps) {
      var i :| 0 <= i < |ps| && ps[i].1.enabled;
      assert ps[i].1 in EnabledEntries(ps);
    }
  }

  const NoEnabledProvider := "Value error, At least one provider must be enabled"

  /**
   * GitAIConfig.validate_config, the model validator that runs after the
   * fields have been validated: it refuses a providers map without an enabled
   * entry, then fills in the missing sections of enabled services.
   */
  method ValidateConfig(c: GitAIConfig) returns (r: Result<GitAIConfig, string>)
    ensures r.Err? <==> !AnyEnabled(c.providers)
    ensures r.Err? ==> r.error == NoEnabledProvider
    ensures r.Ok? ==> r.value == WithDefaultSections(c)
  {
    var enabled := CollectEnabled(c.providers);
    EnabledEntriesEmpty(c.providers);
    if |enabled| == 0 {
      return Err(NoEnabledProvider);
    }
    var filled := FillDefaultSections(c);
    return Ok(filled);
  }

  /** `[p for p in providers.values() if p.enabled]` */
  method CollectEnabled(ps: Dict<ProviderEntry>) returns (enabled: seq<ProviderEntry>)
    ensures enabled == EnabledEntries(ps)
  {
    enabled := [];
    var i := 0;
    while i < |ps|
      invariant 0 <= i <= |ps|
      invariant enabled == EnabledEntries(ps[..i])
    {
      assert ps[..i + 1][..i] == ps[..i];
      if ps[i].1.enabled {
        enabled := enabled + [ps[i].1];
      }
      i := i + 1;
    }
    assert ps[..|ps|] == ps;
  }

  /** The loop of validate_config that assigns the missing sections of enabled services. */
  method FillDefaultSections(c: GitAIConfig) returns (cur: GitAIConfig)
    ensures cur == WithDefaultSections(c)
  {
    var ps := c.providers;
    cur := c;
    var i := 0;
    while i < |ps|
      invariant 0 <= i <= |ps|
      invariant cur.ollama == Filled(c, ps[..i], Ollama) && cur.openai == Filled(c, ps[..i], OpenAI)
      invariant cur.anthropic == Filled(c, ps[..i], Anthropic) && cur.lmstudio == Filled(c, ps[..i], LMStudio)
      invariant cur.(ollama := c.ollama, openai := c.openai, anthropic := c.anthropic, lmstudio := c.lmstudio) == c
    {
      var name := ps[i].0;
      if ps[i].1.enabled {
        if name == "ollama" && cur.ollama.None? {
          cur := cur.(ollama := Some(DefaultSettings(Ollama)));
        } else if name == "openai" && cur.openai.None? {
          cur := cur.(openai := Some(DefaultSettings(OpenAI)));
        } else if name == "anthropic" && cur.anthropic.None? {
          cur := cur.(anthropic := Some(DefaultSettings(Anthropic)));
        } else if name == "lmstudio" && cur.lmstudio.None? {
          cur := cur.(lmstudio := Some(DefaultSettings(LMStudio)));
        }
      }
      EnabledKeyStep(ps, i, "ollama");
      EnabledKeyStep(ps, i, "openai");
      EnabledKeyStep(ps, i, "anthropic");
      EnabledKeyStep(ps, i, "lmstudio");
      i := i + 1;
    }
    assert ps[..|ps|] == ps;
  }

  // ---------------------------------------------------------------------
  // Validating a whole dictionary: GitAIConfig(**data)

  /** A section-valued top-level field; optional sections also accept None. */
  function SectionField(d: Dict<Value>, key: string, optional: bool): (r: Result<Option<Dict<Value>>, seq<string>>)
    ensures r.Err? ==> |r.error| > 0
    ensures Get(d, key) == None ==> r == Ok(None)
    ensures forall e :: Get(d, key) == Some(VDict(e)) ==> r == Ok(Some(e))
  {
    match Get<Value>(d, key)
    case None => Ok(None)
    case Some(VDict(e)) => Ok(Some(e))
    case Some(VNone) => if optional then Ok(None) else Err([TypeMessage("", key, "dictionary")])
    case Some(_) => Err([TypeMessage("", key, "dictionary")])
  }

  function FieldProviders(d: Dict<Value>): (r: Result<Dict<ProviderEntry>, seq<string>>)
    ensures r.Err? ==> |r.error| > 0
  {
    match SectionField(d, "providers", false)
    case Err(m) => Err(m)
    case Ok(None) => Ok([])
    case Ok(Some(e)) => ParseProviders(e)
  }

  function FieldTemplates(d: Dict<Value>): (r: Result<TemplateSettings, seq<string>>)
    ensures r.Err? ==> |r.error| > 0
  {
    match SectionField(d, "templates", false)
    case Err(m) => Err(m)
    case Ok(None) => Ok(DefaultTemplates)
    case Ok(Some(e)) => ParseTemplates(e)
  }

  function FieldGit(d: Dict<Value>): (r: Result<GitSettings, seq<string>>)
    ensures r.Err? ==> |r.error| > 0
  {
    match SectionField(d, "git", false)
    case Err(m) => Err(m)
    case Ok(None) => Ok(DefaultGit)
    case Ok(Some(e)) => ParseGit(e)
  }

  function FieldUser(d: Dict<Value>): (r: Result<Option<UserSettings>, seq<string>>)
    ensures r.Err? ==> |r.error| > 0
  {
    match SectionField(d, "user", true)
    case Err(m) => Err(m)
    case Ok(None) => Ok(None)
    case Ok(Some(e)) => match ParseUser(e) case Ok(u) => Ok(Some(u)) case Err(m) => Err(m)
  }

  function FieldTeam(d: Dict<Value>): (r: Result<Option<TeamSettings>, seq<string>>)
    ensures r.Err? ==> |r.error| > 0
  {
    match SectionField(d, "team", true)
    case Err(m) => Err(m)
    case Ok(None) => Ok(None)
    case Ok(Some(e)) => match ParseTeam(e) case Ok(t) => Ok(Some(t)) case Err(m) => Err(m)
  }

  function FieldProject(d: Dict<Value>): (r: Result<Option<ProjectSettings>, seq<string>>)
    ensures r.Err? ==> |r.error| > 0
  {
    match SectionField(d, "project", true)
    case Err(m) => Err(m)
    case Ok(None) => Ok(None)
    case Ok(Some(e)) => match ParseProject(e) case Ok(p) => Ok(Some(p)) case Err(m) => Err(m)
  }

  function FieldService(d: Dict<Value>, s: Service): (r: Result<Option<ServiceSettings>, seq<string>>)
    ensures r.Err? ==> |r.error| > 0
    ensures r.Ok? && r.value.Some? ==> ValidSettings(s, r.value.value)
  {
    match SectionField(d, ServiceName(s), true)
    case Err(m) => Err(m)
    case Ok(None) => Ok(None)
    case Ok(Some(e)) => match ParseService(s, e) case Ok(v) => Ok(Some(v)) case Err(m) => Err(m)
  }

  /**
   * What a validated configuration satisfies: an enabled provider exists,
   * every provider-specific section passes its validators, and every enabled
   * service has its section.
   */
  predicate Valid(c: GitAIConfig)
  {
    && AnyEnabled(c.providers)
    && (forall i :: 0 <= i < |c.providers| ==> EntryWellFormed(c.providers[i].1))
    && (forall s :: Section(c, s).Some? ==> ValidSettings(s, Section(c, s).value))
    && (forall s :: EnabledKey(c.providers, ServiceName(s)) ==> Section(c, s).Some?)
  }

  /** Checking the four sections one by one checks them all. */
  lemma SectionsValid(c: GitAIConfig)
    requires c.ollama.Some? ==> ValidSettings(Ollama, c.ollama.value)
    requires c.openai.Some? ==> ValidSettings(OpenAI, c.openai.value)
    requires c.anthropic.Some? ==> ValidSettings(Anthropic, c.anthropic.value)
    requires c.lmstudio.Some? ==> ValidSettings(LMStudio, c.lmstudio.value)
    ensures forall s :: Section(c, s).Some? ==> ValidSettings(s, Section(c, s).value)
  {
    forall s | Section(c, s).Some? ensures ValidSettings(s, Section(c, s).value) {
      match s
      case Ollama =>
      case OpenAI =>
      case Anthropic =>
      case LMStudio =>
    }
  }

  /**
   * GitAIConfig(**d): field validation first (all field errors are reported
   * together), then the model validator.
   */
  function Parse(d: Dict<Value>): (r: Result<GitAIConfig, seq<string>>)
    ensures r.Err? ==> |r.error| > 0
    ensures r.Ok? ==> Valid(r.value)
  {
    var providers := FieldProviders(d);
    var templates := FieldTemplates(d);
    var git := FieldGit(d);
    var user := FieldUser(d);
    var team := FieldTeam(d);
    var project := FieldProject(d);
    var ollama := FieldService(d, Ollama);
    var openai := FieldService(d, OpenAI);
    var anthropic := FieldService(d, Anthropic);
    var lmstudio := FieldService(d, LMStudio);
    if providers.Ok? && templates.Ok? && git.Ok? && user.Ok? && team.Ok? && project.Ok?
       && ollama.Ok? && openai.Ok? && anthropic.Ok? && lmstudio.Ok? then
      var c := GitAIConfig(providers.value, templates.value, git.value, user.value, team.value, project.value,
                           ollama.value, openai.value, anthropic.value, lmstudio.value);
      if !AnyEnabled(c.providers) then Err([NoEnabledProvider])
      else
        var r := WithDefaultSections(c);
        SectionsValid(c);
        Ok(r)
    else
      Err(SectionErrs(providers) + SectionErrs(templates) + SectionErrs(git) + SectionErrs(user)
        + SectionErrs(team) + SectionErrs(project) + SectionErrs(ollama) + SectionErrs(openai)
        + SectionErrs(anthropic) + SectionErrs(lmstudio))
  }

  // ---------------------------------------------------------------------
  // config.dict() and the round trip

  function ServiceValue(c: GitAIConfig, s: Service): Value
  {
    if Section(c, s).Some? then VDict(ServiceDict(s, Section(c, s).value)) else VNone
  }

  /** The top-level fields, in declaration order. */
  const TopKeys: seq<string> :=
    ["providers", "templates", "git", "user", "team", "project", "ollama", "openai", "anthropic", "lmstudio"]

  lemma TopKeysDistinct()
    ensures forall a, b :: 0 <= a < b < |TopKeys| ==> TopKeys[a] != TopKeys[b]
  {
  }

  function TopValues(c: GitAIConfig): (vs: seq<Value>)
    ensures |vs| == |TopKeys|
  {
    [VDict(ProvidersDict(c.providers)),
     VDict(TemplatesDict(c.templates)),
     VDict(GitDict(c.git)),
     if c.user.Some? then VDict(UserDict(c.user.value)) else VNone,
     if c.team.Some? then VDict(TeamDict(c.team.value)) else VNone,
     if c.project.Some? then VDict(ProjectDict(c.project.value)) else VNone,
     ServiceValue(c, Ollama),
     ServiceValue(c, OpenAI),
     ServiceValue(c, Anthropic),
     ServiceValue(c, LMStudio)]
  }

  /** `.dict()` of the whole configuration, in field declaration order. */
  function ToDict(c: GitAIConfig): Dict<Value>
  {
    Zip(TopKeys, TopValues(c))
  }

  /** A valid configuration is a fixed point of the model validator. */
  lemma ValidIsFilled(c: GitAIConfig)
    requires Valid(c)
    ensures WithDefaultSections(c) == c
  {
    var r := WithDefaultSections(c);
    assert Section(r, Ollama) == c.ollama;
    assert Section(r, OpenAI) == c.openai;
    assert Section(r, Anthropic) == c.anthropic;
    assert Section(r, LMStudio) == c.lmstudio;
  }

  /** The lookups of the ten top-level keys in `.dict()`. */
  lemma ToDictGets(c: GitAIConfig)
    ensures Get(ToDict(c), "providers") == Some(VDict(ProvidersDict(c.providers)))
    ensures Get(ToDict(c), "templates") == Some(VDict(TemplatesDict(c.templates)))
    ensures Get(ToDict(c), "git") == Some(VDict(GitDict(c.git)))
    ensures Get(ToDict(c), "user") == if c.user.Some? then Some(VDict(UserDict(c.user.value))) else Some(VNone)
    ensures Get(ToDict(c), "team") == if c.team.Some? then Some(VDict(TeamDict(c.team.value))) else Some(VNone)
    ensures Get(ToDict(c), "project") == if c.project.Some? then Some(VDict(ProjectDict(c.project.value))) else Some(VNone)
    ensures Get(ToDict(c), "ollama") == Some(ServiceValue(c, Ollama))
    ensures Get(ToDict(c), "openai") == Some(ServiceValue(c, OpenAI))
    ensures Get(ToDict(c), "anthropic") == Some(ServiceValue(c, Anthropic))
    ensures Get(ToDict(c), "lmstudio") == Some(ServiceValue(c, LMStudio))
  {
    var vs := TopValues(c);
    TopKeysDistinct();
    ZipGet(TopKeys, vs, 0);
    ZipGet(TopKeys, vs, 1);
    ZipGet(TopKeys, vs, 2);
    ZipGet(TopKeys, vs, 3);
    ZipGet(TopKeys, vs, 4);
    ZipGet(TopKeys, vs, 5);
    ZipGet(TopKeys, vs, 6);
    ZipGet(TopKeys, vs, 7);
    ZipGet(TopKeys, vs, 8);
    ZipGet(TopKeys, vs, 9);
  }

  lemma ProvidersFieldOf(d: Dict<Value>, ps: Dict<ProviderEntry>)
    requires forall i :: 0 <= i < |ps| ==> EntryWellFormed(ps[i].1)
    requires Get(d, "providers") == Some(VDict(ProvidersDict(ps)))
    ensures FieldProviders(d) == Ok(ps)
  {
    ParseProvidersDict(ps);
  }

  lemma TemplatesFieldOf(d: Dict<Value>, t: TemplateSettings)
    requires Get(d, "templates") == Some(VDict(TemplatesDict(t)))
    ensures FieldTemplates(d) == Ok(t)
  {
    ParseTemplatesDict(t);
  }

  lemma GitFieldOf(d: Dict<Value>, g: GitSettings)
    requires Get(d, "git") == Some(VDict(GitDict(g)))
    ensures FieldGit(d) == Ok(g)
  {
    ParseGitDict(g);
  }

  lemma UserFieldOf(d: Dict<Value>, u: Option<UserSettings>)
    requires Get(d, "user") == if u.Some? then Some(VDict(UserDict(u.value))) else Some(VNone)
    ensures FieldUser(d) == Ok(u)
  {
    if u.Some? {
      ParseUserDict(u.value);
    }
  }

  lemma TeamFieldOf(d: Dict<Value>, t: Option<TeamSettings>)
    requires Get(d, "team") == if t.Some? then Some(VDict(TeamDict(t.value))) else Some(VNone)
    ensures FieldTeam(d) == Ok(t)
  {
    if t.Some? {
      ParseTeamDict(t.value);
    }
  }

  lemma ProjectFieldOf(d: Dict<Value>, p: Option<ProjectSettings>)
    requires Get(d, "project") == if p.Some? then Some(VDict(ProjectDict(p.value))) else Some(VNone)
    ensures FieldProject(d) == Ok(p)
  {
    if p.Some? {
      ParseProjectDict(p.value);
    }
  }

  lemma ServiceOf(d: Dict<Value>, c: GitAIConfig, s: Service)
    requires Section(c, s).Some? ==> ValidSettings(s, Section(c, s).value)
    requires Get(d, ServiceName(s)) == Some(ServiceValue(c, s))
    ensures FieldService(d, s) == Ok(Section(c, s))
  {
    if Section(c, s).Some? {
      ParseServiceDict(s, Section(c, s).value);
    }
  }

  /** Parse only looks at its fields: fields that read back as c give c, when c is valid. */
  lemma ParseOfFields(d: Dict<Value>, c: GitAIConfig)
    requires Valid(c)
    requires FieldProviders(d) == Ok(c.providers) && FieldTemplates(d) == Ok(c.templates) && FieldGit(d) == Ok(c.git)
    requires FieldUser(d) == Ok(c.user) && FieldTeam(d) == Ok(c.team) && FieldProject(d) == Ok(c.project)
    requires FieldService(d, Ollama) == Ok(c.ollama) && FieldService(d, OpenAI) == Ok(c.openai)
    requires FieldService(d, Anthropic) == Ok(c.anthropic) && FieldService(d, LMStudio) == Ok(c.lmstudio)
    ensures Parse(d) == Ok(c)
  {
    ValidIsFilled(c);
  }

  lemma GeneralFieldsOfGets(d: Dict<Value>, c: GitAIConfig)
    requires forall i :: 0 <= i < |c.providers| ==> EntryWellFormed(c.providers[i].1)
    requires Get(d, "providers") == Some(VDict(ProvidersDict(c.providers)))
    requires Get(d, "templates") == Some(VDict(TemplatesDict(c.templates)))
    requires Get(d, "git") == Some(VDict(GitDict(c.git)))
    requires Get(d, "user") == if c.user.Some? then Some(VDict(UserDict(c.user.value))) else Some(VNone)
    requires Get(d, "team") == if c.team.Some? then Some(VDict(TeamDict(c.team.value))) else Some(VNone)
    requires Get(d, "project") == if c.project.Some? then Some(VDict(ProjectDict(c.project.value))) else Some(VNone)
    ensures FieldProviders(d) == Ok(c.providers) && FieldTemplates(d) == Ok(c.templates) && FieldGit(d) == Ok(c.git)
    ensures FieldUser(d) == Ok(c.user) && FieldTeam(d) == Ok(c.team) && FieldProject(d) == Ok(c.project)
  {
    ProvidersFieldOf(d, c.providers);
    TemplatesFieldOf(d, c.templates);
    GitFieldOf(d, c.git);
    UserFieldOf(d, c.user);
    TeamFieldOf(d, c.team);
    ProjectFieldOf(d, c.project);
  }

  lemma ServiceFieldsOfGets(d: Dict<Value>, c: GitAIConfig)
    requires forall s :: Section(c, s).Some? ==> ValidSettings(s, Section(c, s).value)
    requires Get(d, "ollama") == Some(ServiceValue(c, Ollama))
    requires Get(d, "openai") == Some(ServiceValue(c, OpenAI))
    requires Get(d, "anthropic") == Some(ServiceValue(c, Anthropic))
    requires Get(d, "lmstudio") == Some(ServiceValue(c, LMStudio))
    ensures FieldService(d, Ollama) == Ok(c.ollama) && FieldService(d, OpenAI) == Ok(c.openai)
    ensures FieldService(d, Anthropic) == Ok(c.anthropic) && FieldService(d, LMStudio) == Ok(c.lmstudio)
  {
    assert Section(c, Ollama).Some? ==> ValidSettings(Ollama, Section(c, Ollama).value);
    assert Section(c, OpenAI).Some? ==> ValidSettings(OpenAI, Section(c, OpenAI).value);
    assert Section(c, Anthropic).Some? ==> ValidSettings(Anthropic, Section(c, Anthropic).value);
    assert Section(c, LMStudio).Some? ==> ValidSettings(LMStudio, Section(c, LMStudio).value);
    ServiceOf(d, c, Ollama);
    ServiceOf(d, c, OpenAI);
    ServiceOf(d, c, Anthropic);
    ServiceOf(d, c, LMStudio);
  }

  /** Validating what `.dict()` wrote gives a valid configuration back unchanged. */
  lemma ParseToDict(c: GitAIConfig)
    requires Valid(c)
    ensures Parse(ToDict(c)) == Ok(c)
  {
    var d := ToDict(c);
    ToDictGets(c);
    GeneralFieldsOfGets(d, c);
    ServiceFieldsOfGets(d, c);
    ParseOfFields(d, c);
  }

  // ---------------------------------------------------------------------
  // get_enabled_providers: enabled names sorted by priority, stably

  type Ranked = (string, int)

  /** `[(name, config.priority) for name, config in providers.items() if config.enabled]` */
  function EnabledPairs(ps: Dict<ProviderEntry>): (r: seq<Ranked>)
    ensures forall x :: x in r <==> exists i :: 0 <= i < |ps| && ps[i].1.enabled && x == (ps[i].0, ps[i].1.priority)
  {
    if |ps| == 0 then []
    else
      var init := ps[..|ps| - 1];
      var last := ps[|ps| - 1];
      assert forall i :: 0 <= i < |init| ==> init[i] == ps[i];
      EnabledPairs(init) + (if last.1.enabled then [(last.0, last.1.priority)] else [])
  }

  predicate SortedByPriority(s: seq<Ranked>)
  {
    forall i, j :: 0 <= i < j < |s| ==> s[i].1 <= s[j].1
  }

  /** Inserts x after every element whose priority is not larger: the step of a stable sort. */
  function Insert(x: Ranked, s: seq<Ranked>): (r: seq<Ranked>)
    ensures multiset(r) == multiset(s) + multiset{x}
    ensures |r| == |s| + 1
  {
    if |s| == 0 then [x]
    else if s[|s| - 1].1 <= x.1 then s + [x]
    else
      assert s == s[..|s| - 1] + [s[|s| - 1]];
      Insert(x, s[..|s| - 1]) + [s[|s| - 1]]
  }

  /** Insertion keeps every priority under a bound that x and all of s respect. */
  lemma {:induction false} InsertBounded(x: Ranked, s: seq<Ranked>, bound: int)
    requires x.1 <= bound && forall i :: 0 <= i < |s| ==> s[i].1 <= bound
    ensures forall i :: 0 <= i < |Insert(x, s)| ==> Insert(x, s)[i].1 <= bound
  {
    if |s| > 0 && s[|s| - 1].1 > x.1 {
      var init := s[..|s| - 1];
      InsertBounded(x, init, bound);
      var r, out := Insert(x, init), Insert(x, s);
      assert out == r + [s[|s| - 1]];
      forall i | 0 <= i < |out| ensures out[i].1 <= bound {
        if i < |r| {
          assert out[i] == r[i];
        }
      }
    }
  }

  lemma {:induction false} InsertSorted(x: Ranked, s: seq<Ranked>)
    requires SortedByPriority(s)
    ensures SortedByPriority(Insert(x, s))
  {
    if |s| > 0 && s[|s| - 1].1 > x.1 {
      var init, last := s[..|s| - 1], s[|s| - 1];
      assert SortedByPriority(init);
      InsertSorted(x, init);
      InsertBounded(x, init, last.1);
      var r, out := Insert(x, init), Insert(x, s);
      assert out == r + [last];
      forall i, j | 0 <= i < j < |out| ensures out[i].1 <= out[j].1 {
        assert out[i] == r[i];
        if j < |r| {
          assert out[j] == r[j];
        }
      }
    }
  }

  /** sorted(pairs, key=lambda x: x[1]); Python's sort is stable. */
  function SortByPriority(s: seq<Ranked>): (r: seq<Ranked>)
    ensures multiset(r) == multiset(s)
  {
    if |s| == 0 then []
    else
      assert s == s[..|s| - 1] + [s[|s| - 1]];
      Insert(s[|s| - 1], SortByPriority(s[..|s| - 1]))
  }

  lemma {:induction false} SortSorted(s: seq<Ranked>)
    ensures SortedByPriority(SortByPriority(s))
  {
    if |s| > 0 {
      SortSorted(s[..|s| - 1]);
      InsertSorted(s[|s| - 1], SortByPriority(s[..|s| - 1]));
    }
  }

  /** The elements of s with priority q, in order. */
  function WithPriority(s: seq<Ranked>, q: int): (r: seq<Ranked>)
  {
    if |s| == 0 then []
    else WithPriority(s[..|s| - 1], q) + (if s[|s| - 1].1 == q then [s[|s| - 1]] else [])
  }

  lemma WithPrioritySnoc(a: seq<Ranked>, y: Ranked, q: int)
    ensures WithPriority(a + [y], q) == WithPriority(a, q) + (if y.1 == q then [y] else [])
  {
    assert (a + [y])[..|a|] == a;
  }

  lemma {:induction false} InsertWithPriority(x: Ranked, s: seq<Ranked>, q: int)
    requires SortedByPriority(s)
    ensures WithPriority(Insert(x, s), q) == WithPriority(s, q) + (if x.1 == q then [x] else [])
  {
    if |s| == 0 || s[|s| - 1].1 <= x.1 {
      assert Insert(x, s) == s + [x];
      WithPrioritySnoc(s, x, q);
    } else {
      var init := s[..|s| - 1];
      var last := s[|s| - 1];
      assert s == init + [last];
      assert SortedByPriority(init);
      InsertWithPriority(x, init, q);
      assert Insert(x, s) == Insert(x, init) + [last];
      WithPrioritySnoc(Insert(x, init), last, q);
      WithPrioritySnoc(init, last, q);
    }
  }

  /**
   * Stability: the sort keeps the relative order of pairs with equal
   * priority.
   */
  lemma {:induction false} SortStable(s: seq<Ranked>, q: int)
    ensures WithPriority(SortByPriority(s), q) == WithPriority(s, q)
  {
    if |s| > 0 {
      SortStable(s[..|s| - 1], q);
      SortSorted(s[..|s| - 1]);
      InsertWithPriority(s[|s| - 1], SortByPriority(s[..|s| - 1]), q);
    }
  }

  function Names(s: seq<Ranked>): (ns: seq<string>)
    ensures |ns| == |s| && forall i :: 0 <= i < |s| ==> ns[i] == s[i].0
  {
    if |s| == 0 then [] else Names(s[..|s| - 1]) + [s[|s| - 1].0]
  }

  function EnabledProviders(c: GitAIConfig): seq<string>
  {
    Names(SortByPriority(EnabledPairs(c.providers)))
  }

  lemma EnabledNames(ps: Dict<ProviderEntry>, r: seq<Ranked>, n: string)
    requires multiset(r) == multiset(EnabledPairs(ps))
    ensures n in Names(r) <==> EnabledKey(ps, n)
  {
    var pairs := EnabledPairs(ps);
    if n in Names(r) {
      var k :| 0 <= k < |r| && Names(r)[k] == n;
      assert r[k] in multiset(pairs);
      assert r[k] in pairs;
      var i :| 0 <= i < |ps| && ps[i].1.enabled && r[k] == (ps[i].0, ps[i].1.priority);
      assert ps[i].0 == n;
    }
    if EnabledKey(ps, n) {
      var i :| 0 <= i < |ps| && ps[i].0 == n && ps[i].1.enabled;
      var x := (n, ps[i].1.priority);
      assert x in pairs;
      assert x in multiset(r);
      var k :| 0 <= k < |r| && r[k] == x;
      assert Names(r)[k] == n;
    }
  }

  /**
   * get_enabled_providers lists exactly the names of enabled entries, in
   * ascending priority, with entries of equal priority in map order.
   */
  lemma EnabledProvidersSpec(c: GitAIConfig)
    ensures forall n :: n in EnabledProviders(c) <==> EnabledKey(c.providers, n)
    ensures var r := SortByPriority(EnabledPairs(c.providers));
      SortedByPriority(r) && multiset(r) == multiset(EnabledPairs(c.providers))
      && forall q :: WithPriority(r, q) == WithPriority(EnabledPairs(c.providers), q)
  {
    var pairs := EnabledPairs(c.providers);
    var r := SortByPriority(pairs);
    SortSorted(pairs);
    forall q ensures WithPriority(r, q) == WithPriority(pairs, q) {
      SortStable(pairs, q);
    }
    forall n ensures n in EnabledProviders(c) <==> EnabledKey(c.providers, n) {
      EnabledNames(c.providers, r, n);
    }
  }

  // ---------------------------------------------------------------------
  // get_provider_config

  /**
   * The provider's own config dict, overlaid with the `.dict()` of the
   * provider-specific section when the name is one of the four services
   * and that section is set.
   */
  function ProviderConfigOf(c: GitAIConfig, name: string): (r: Result<Dict<Value>, Error>)
    ensures r.Err? <==> !HasKey(c.providers, name)
    ensures r.Err? ==> r.error == Error(ValueError, "Provider '" + name + "' not configured")
  {
    match Get<ProviderEntry>(c.providers, name)
    case None => Raise(ValueError, "Provider '" + name + "' not configured")
    case Some(p) =>
      var s := ServiceNamed(name);
      if s.Some? && Section(c, s.value).Some? then Ok(Update(p.config, ServiceDict(s.value, Section(c, s.value).value)))
      else Ok(p.config)
  }

  /**
   * The fields of the provider-specific section win over the same keys in
   * the provider's config dict; every other key reads the config dict.
   */
  lemma ProviderConfigOverlay(c: GitAIConfig, name: string, k: string)
    requires HasKey(c.providers, name)
    ensures var p := Get(c.providers, name).value;
      var s := ServiceNamed(name);
      var overlay := if s.Some? && Section(c, s.value).Some? then ServiceDict(s.value, Section(c, s.value).value) else [];
      Get(ProviderConfigOf(c, name).value, k) == if HasKey(overlay, k) then Get(overlay, k) else Get(p.config, k)
  {
    var p := Get(c.providers, name).value;
    var s := ServiceNamed(name);
    if s.Some? && Section(c, s.value).Some? {
      var e := ServiceDict(s.value, Section(c, s.value).value);
      ServiceDictDistinct(s.value, Section(c, s.value).value);
      GetUpdate(p.config, e, k);
    }
  }

  // ---------------------------------------------------------------------
  // Template directories and search paths

  function ProjectTemplatesDir(c: GitAIConfig): (r: Option<string>)
    ensures r.Some? <==> c.project.Some? && c.project.value.templatesDir.Some?
  {
    if c.project.Some? then c.project.value.templatesDir else None
  }

  function TeamTemplatesDir(c: GitAIConfig): (r: Option<string>)
    ensures r.Some? <==> c.team.Some? && c.team.value.templatesDir.Some?
  {
    if c.team.Some? then c.team.value.templatesDir else None
  }

  function UserTemplatesDir(c: GitAIConfig): (r: Option<string>)
    ensures r.Some? <==> c.user.Some? && c.user.value.templatesDir.Some?
  {
    if c.user.Some? then c.user.value.templatesDir else None
  }

  /** The values of the set options, in order. */
  function Present(os: seq<Option<string>>): (r: seq<string>)
    ensures |r| <= |os|
    ensures forall x :: x in r <==> Some(x) in os
  {
    if |os| == 0 then []
    else
      var init := os[..|os| - 1];
      assert os == init + [os[|os| - 1]];
      Present(init) + (if os[|os| - 1].Some? then [os[|os| - 1].value] else [])
  }

  /**
   * get_template_search_paths: the project, team and user template
   * directories (those that are set, in that order), then the configured
   * search paths.
   */
  method TemplateSearchPaths(c: GitAIConfig) returns (paths: seq<string>)
    ensures paths == Present([ProjectTemplatesDir(c), TeamTemplatesDir(c), UserTemplatesDir(c)]) + c.templates.searchPaths
  {
    ghost var os := [ProjectTemplatesDir(c), TeamTemplatesDir(c), UserTemplatesDir(c)];
    assert os[..1][..0] == [] && os[..2][..1] == os[..1] && os[..3][..2] == os[..2] && os[..3] == os;
    paths := [];
    if c.project.Some? && c.project.value.templatesDir.Some? {
      paths := paths + [c.project.value.templatesDir.value];
    }
    assert paths == Present(os[..1]);
    if c.team.Some? && c.team.value.templatesDir.Some? {
      paths := paths + [c.team.value.templatesDir.value];
    }
    assert paths == Present(os[..2]);
    if c.user.Some? && c.user.value.templatesDir.Some? {
      paths := paths + [c.user.value.templatesDir.value];
    }
    assert paths == Present(os);
    paths := paths + c.templates.searchPaths;
  }

  // ---------------------------------------------------------------------
  // create_default_config

  function DefaultConfig(): (c: GitAIConfig)
    ensures Valid(c)
    ensures c.providers == [("ollama", ProviderEntry("ollama", true, 1, [], []))]
    ensures c.ollama == Some(DefaultSettings(Ollama))
    ensures c.openai == None && c.anthropic == None && c.lmstudio == None
    ensures c.templates == DefaultTemplates && c.git == DefaultGit
  {
    var c := GitAIConfig([("ollama", ProviderEntry("ollama", true, 1, [], []))], DefaultTemplates, DefaultGit,
                         None, None, None, Some(DefaultSettings(Ollama)), None, None, None);
    assert c.providers[0].1.enabled;
    assert forall s :: EnabledKey(c.providers, ServiceName(s)) ==> s == Ollama;
    SectionsValid(c);
    c
  }

  /**
   * The default configuration passes the model validator unchanged, and it
   * survives `.dict()` followed by validation.
   */
  lemma DefaultConfigValidates()
    ensures WithDefaultSections(DefaultConfig()) == DefaultConfig()
    ensures Parse(ToDict(DefaultConfig())) == Ok(DefaultConfig())
    ensures EnabledProviders(DefaultConfig()) == ["ollama"]
  {
    var c := DefaultConfig();
    ValidIsFilled(c);
    ParseToDict(c);
    var pairs := EnabledPairs(c.providers);
    assert c.providers[..0] == [];
    assert pairs == [("ollama", 1)];
    assert SortByPriority(pairs) == Insert(("ollama", 1), SortByPriority([])) by {
      assert pairs[..0] == [];
    }
  }
}
