/**
 * The provider registry and factory (src/gitai/providers/factory.py): the
 * four built-in provider classes under their names, registration, creation
 * by name with the errors wrapped, and creation with fallbacks, where each
 * created provider's health check is an oracle.
 */
module Factory {
  import opened Wrappers
  import opened Dicts
  import opened Values
  import opened Strings
  import opened Errors
  import opened ProviderBase
  import Ollama
  import OpenAI
  import Anthropic
  import LMStudio

  /** A provider class. */
  datatype ProviderKind = OllamaKind | OpenAIKind | AnthropicKind | LMStudioKind

  /** An instance of one of the provider classes. */
  datatype Instance =
    | OllamaInstance(ollama: Ollama.OllamaProvider)
    | OpenAIInstance(openai: OpenAI.OpenAIProvider)
    | AnthropicInstance(anthropic: Anthropic.AnthropicProvider)
    | LMStudioInstance(lmstudio: LMStudio.LMStudioProvider)

  function KindOf(p: Instance): ProviderKind
  {
    match p
    case OllamaInstance(_) => OllamaKind
    case OpenAIInstance(_) => OpenAIKind
    case AnthropicInstance(_) => AnthropicKind
    case LMStudioInstance(_) => LMStudioKind
  }

  /** The class name without its "Provider" suffix. */
  function Stem(k: ProviderKind): string
  {
    match k
    case OllamaKind => "Ollama"
    case OpenAIKind => "OpenAI"
    case AnthropicKind => "Anthropic"
    case LMStudioKind => "LMStudio"
  }

  function ClassName(k: ProviderKind): string
  {
    Stem(k) + "Provider"
  }

  /** The configuration the base class stores. */
  function ConfigOf(p: Instance): Dict<Value>
  {
    match p
    case OllamaInstance(o) => o.config
    case OpenAIInstance(o) => o.config
    case AnthropicInstance(a) => a.config
    case LMStudioInstance(l) => l.config
  }

  /** supports_streaming: only Ollama overrides the base class's False. */
  predicate SupportsStreaming(p: Instance)
  {
    p.OllamaInstance?
  }

  /** get_default_model: Ollama's model, otherwise the base class's config.get("default_model"). */
  function DefaultModel(p: Instance): Value
  {
    if p.OllamaInstance? then VStr(p.ollama.model) else Setting(ConfigOf(p), "default_model", VNone)
  }

  /** get_max_tokens: config.get("max_tokens"), for every class. */
  function MaxTokens(p: Instance): Value
  {
    Setting(ConfigOf(p), "max_tokens", VNone)
  }

  /** Calling the class with a configuration; only the hosted-API classes read the environment. */
  function Construct(k: ProviderKind, config: Dict<Value>, environ: map<string, string>): (r: Result<Instance, Error>)
    ensures r.Ok? ==> KindOf(r.value) == k && ConfigOf(r.value) == config
  {
    match k
    case OllamaKind =>
      (match Ollama.Create(config) case Ok(o) => Ok(OllamaInstance(o)) case Err(e) => Err(e))
    case OpenAIKind =>
      (match OpenAI.Create(config, environ) case Ok(o) => Ok(OpenAIInstance(o)) case Err(e) => Err(e))
    case AnthropicKind =>
      (match Anthropic.Create(config, environ) case Ok(a) => Ok(AnthropicInstance(a)) case Err(e) => Err(e))
    case LMStudioKind =>
      (match LMStudio.Create(config) case Ok(l) => Ok(LMStudioInstance(l)) case Err(e) => Err(e))
  }

  /** The registry as the class body defines it. */
  const Builtins: Dict<ProviderKind> :=
    [("ollama", OllamaKind), ("openai", OpenAIKind), ("anthropic", AnthropicKind), ("lmstudio", LMStudioKind)]

  /** The name a class is registered under. */
  function RegisteredName(k: ProviderKind): string
  {
    match k
    case OllamaKind => "ollama"
    case OpenAIKind => "openai"
    case AnthropicKind => "anthropic"
    case LMStudioKind => "lmstudio"
  }

  /** The registered name of a class is its stem in lower case. */
  lemma RegisteredNameIsLowerStem(k: ProviderKind)
    ensures Lower(Stem(k)) == RegisteredName(k)
  {
    match k
    case OllamaKind => assert Lower("Ollama") == "ollama";
    case OpenAIKind => assert Lower("OpenAI") == "openai";
    case AnthropicKind => assert Lower("Anthropic") == "anthropic";
    case LMStudioKind => assert Lower("LMStudio") == "lmstudio";
  }

  /** get_provider_name of each built-in class is the name it is registered under. */
  lemma ProviderNameOfClass(k: ProviderKind)
    ensures ProviderName(ClassName(k)) == RegisteredName(k)
  {
    ProviderNameOfStem(Stem(k));
    RegisteredNameIsLowerStem(k);
  }

  /** Each built-in class is registered under the name its get_provider_name gives. */
  lemma BuiltinNamesAreProviderNames()
    ensures forall i :: 0 <= i < |Builtins| ==> ProviderName(ClassName(Builtins[i].1)) == Builtins[i].0
  {
    forall i | 0 <= i < |Builtins| ensures ProviderName(ClassName(Builtins[i].1)) == Builtins[i].0 {
      ProviderNameOfClass(Builtins[i].1);
    }
  }

  const NoHealthyText := "No healthy providers available"

  class ProviderFactory {
    /** The name-to-class registry. */
    var providers: Dict<ProviderKind>

    constructor()
      ensures providers == Builtins
    {
      providers := Builtins;
    }

    /** register_provider: a new name is added at the end; a known name is rebound in place. */
    method RegisterProvider(name: string, kind: ProviderKind)
      modifies this
      ensures providers == Put(old(providers), name, kind)
      ensures Get(providers, name) == Some(kind)
      ensures forall n :: n != name ==> Get(providers, n) == Get(old(providers), n)
    {
      GetPutAll(providers, name, kind);
      providers := Put(providers, name, kind);
    }

    /** get_available_providers: the names in registration order. */
    function GetAvailableProviders(): (names: seq<string>)
      reads this
      ensures forall n :: n in names <==> HasKey(providers, n)
      ensures |names| == |providers| && forall i :: 0 <= i < |names| ==> names[i] == providers[i].0
    {
      HasKeyAll(providers);
      Keys(providers)
    }

    /** create_provider: an unknown name is refused; any failure of the class is wrapped. */
    function CreateProvider(name: string, config: Dict<Value>, environ: map<string, string>): (r: Result<Instance, Error>)
      reads this
      ensures !HasKey(providers, name) ==>
                r == Err(Error(Provider, "Provider '" + name + "' not available. Available providers: " + Join(", ", Keys(providers))))
      ensures HasKey(providers, name) ==> (r.Ok? <==> Construct(Get(providers, name).value, config, environ).Ok?)
      ensures HasKey(providers, name) && r.Err? ==>
                r.error == Error(ProviderConfig, "Failed to create " + name + " provider: "
                                                 + Construct(Get(providers, name).value, config, environ).error.message)
      ensures r.Ok? ==> HasKey(providers, name) && KindOf(r.value) == Get(providers, name).value && ConfigOf(r.value) == config
    {
      if !HasKey(providers, name) then
        Err(Error(Provider, "Provider '" + name + "' not available. Available providers: " + Join(", ", Keys(providers))))
      else
        match Construct(Get(providers, name).value, config, environ)
        case Ok(p) => Ok(p)
        case Err(e) => Err(Error(ProviderConfig, "Failed to create " + name + " provider: " + e.message))
    }

    /** A candidate is usable when it is created and passes its health check. */
    predicate Usable(c: (string, Dict<Value>), environ: map<string, string>, healthy: Instance -> bool)
      reads this
    {
      CreateProvider(c.0, c.1, environ).Ok? && healthy(CreateProvider(c.0, c.1, environ).value)
    }

    /** The first usable candidate's provider, or the error when there is none. */
    function Pick(cands: seq<(string, Dict<Value>)>, environ: map<string, string>, healthy: Instance -> bool)
      : (r: Result<Instance, Error>)
      reads this
    {
      if |cands| == 0 then Err(Error(Provider, NoHealthyText))
      else if Usable(cands[0], environ, healthy) then CreateProvider(cands[0].0, cands[0].1, environ)
      else Pick(cands[1..], environ, healthy)
    }

    /** Pick returns the provider of the first usable candidate, and fails exactly when none is usable. */
    lemma {:induction false} PickFirstUsable(cands: seq<(string, Dict<Value>)>, environ: map<string, string>, healthy: Instance -> bool)
      ensures Pick(cands, environ, healthy).Err? <==> forall i :: 0 <= i < |cands| ==> !Usable(cands[i], environ, healthy)
      ensures Pick(cands, environ, healthy).Err? ==> Pick(cands, environ, healthy).error == Error(Provider, NoHealthyText)
      ensures Pick(cands, environ, healthy).Ok? ==>
                exists j :: 0 <= j < |cands| && Usable(cands[j], environ, healthy)
                  && (forall i :: 0 <= i < j ==> !Usable(cands[i], environ, healthy))
                  && Pick(cands, environ, healthy) == CreateProvider(cands[j].0, cands[j].1, environ)
    {
      if |cands| > 0 {
        var rest := cands[1..];
        PickFirstUsable(rest, environ, healthy);
        assert forall i :: 1 <= i < |cands| ==> cands[i] == rest[i - 1];
        if !Usable(cands[0], environ, healthy) && Pick(cands, environ, healthy).Ok? {
          var j :| 0 <= j < |rest| && Usable(rest[j], environ, healthy)
                  && (forall i :: 0 <= i < j ==> !Usable(rest[i], environ, healthy))
                  && Pick(rest, environ, healthy) == CreateProvider(rest[j].0, rest[j].1, environ);
          assert forall i :: 0 <= i < j + 1 ==> !Usable(cands[i], environ, healthy) by {
            forall i | 0 <= i < j + 1 ensures !Usable(cands[i], environ, healthy) {
              if i > 0 { assert cands[i] == rest[i - 1]; }
            }
          }
          assert cands[j + 1] == rest[j];
        }
      }
    }

    lemma PickTake(cands: seq<(string, Dict<Value>)>, environ: map<string, string>, healthy: Instance -> bool)
      requires |cands| > 0 && Usable(cands[0], environ, healthy)
      ensures Pick(cands, environ, healthy) == CreateProvider(cands[0].0, cands[0].1, environ)
    {
    }

    lemma PickSkip(cands: seq<(string, Dict<Value>)>, environ: map<string, string>, healthy: Instance -> bool)
      requires |cands| > 0 && !Usable(cands[0], environ, healthy)
      ensures Pick(cands, environ, healthy) == Pick(cands[1..], environ, healthy)
    {
    }

    /** create_with_fallback: the primary first, then each fallback in order; failures are passed over. */
    method CreateWithFallback(primary: string, primaryConfig: Dict<Value>, fallbacks: seq<(string, Dict<Value>)>,
                              environ: map<string, string>, healthy: Instance -> bool)
      returns (r: Result<Instance, Error>)
      ensures r == Pick([(primary, primaryConfig)] + fallbacks, environ, healthy)
    {
      ghost var cands := [(primary, primaryConfig)] + fallbacks;
      assert cands[1..] == fallbacks;
      var created := CreateProvider(primary, primaryConfig, environ);
      if created.Ok? && healthy(created.value) {
        PickTake(cands, environ, healthy);
        return created;
      }
      PickSkip(cands, environ, healthy);
      ghost var target := Pick(cands, environ, healthy);
      ghost var rest := fallbacks;
      var i := 0;
      while i < |fallbacks|
        invariant 0 <= i <= |fallbacks| && rest == fallbacks[i..]
        invariant target == Pick(rest, environ, healthy)
      {
        var (name, config) := fallbacks[i];
        assert rest[0] == (name, config);
        var candidate := CreateProvider(name, config, environ);
        if candidate.Ok? && healthy(candidate.value) {
          PickTake(rest, environ, healthy);
          return candidate;
        }
        PickSkip(rest, environ, healthy);
        rest := rest[1..];
        i := i + 1;
      }
      r := Err(Error(Provider, NoHealthyText));
    }
  }

  lemma GetPutAll<V>(d: Dict<V>, k: string, v: V)
    ensures Get(Put(d, k, v), k) == Some(v)
    ensures forall n :: n != k ==> Get(Put(d, k, v), n) == Get(d, n)
  {
    GetPut(d, k, v, k);
    forall n | n != k ensures Get(Put(d, k, v), n) == Get(d, n) {
      GetPut(d, k, v, n);
    }
  }

  lemma HasKeyAll<V>(d: Dict<V>)
    ensures forall n :: n in Keys(d) <==> HasKey(d, n)
  {
    forall n ensures n in Keys(d) <==> HasKey(d, n) {
      HasKeyInKeys(d, n);
    }
  }
}
