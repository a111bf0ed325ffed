/**
 * The config command (src/gitai/commands/config.py): the dispatch of
 * handle_config, the "already exists" guards of the global and team
 * initialisation, and the provider priority rewrite of _set_provider, which
 * edits the user configuration document loaded from YAML, reorders its
 * providers by priority and writes it back.
 *
 * Everything the command asks of the configuration manager and the file
 * system is a value of a ConfigWorld; what the command does to the file
 * system is recorded as a sequence of effects.
 */
module ConfigCommand {
  import opened Wrappers
  import opened Dicts
  import opened Values
  import opened Strings
  import opened Errors
  import Validation
  import ConfigManagement
  import CommitCommand

  // ---------------------------------------------------------------------
  // The providers document of _set_provider

  /** The providers _set_provider stamps, in the order it stamps them. */
  const AllProviders: seq<string> := ["anthropic", "openai", "ollama", "lmstudio"]

  predicate NoRepeats(names: seq<string>)
  {
    forall i, j :: 0 <= i < j < |names| ==> names[i] != names[j]
  }

  lemma AllProvidersDistinct()
    ensures NoRepeats(AllProviders)
  {
    assert AllProviders[1][1] != AllProviders[2][1];
  }

  /**
   * The priority of the i-th listed provider: 1 for the chosen one, else
   * 2 + its index in the list (all_providers.index(provider) is i when the
   * list has no repeats).
   */
  function PriorityOf(names: seq<string>, chosen: string, i: nat): int
    requires i < |names|
  {
    if names[i] == chosen then 1 else 2 + i
  }

  /**
   * The TypeErrors and AttributeErrors _set_provider can raise, by the
   * value they are raised on; FaultMessage gives the text Python prints.
   */
  datatype Fault =
    | Unassignable(target: Value)     // target[k] = x on a value that is no dict
    | NotIterable(target: Value)      // k in target on a value that is no container
    | StrKey(text: string, key: string)  // k in text, then text[k], on a string
    | NoGet(target: Value)            // target.get(...) on a value that is no dict
    | Uncomparable(priority: Value)   // a priority compared with an int

  const ListIndexText := "list indices must be integers or slices, not str"
  const StrIndexText := "string indices must be integers, not 'str'"

  /** The TypeError of `v[k] = x` for a value that is not a dict. */
  function AssignMessage(v: Value): string
  {
    if v.VList? then ListIndexText else "'" + TypeName(v) + "' object does not support item assignment"
  }

  function FaultMessage(f: Fault): string
  {
    match f
    case Unassignable(v) => AssignMessage(v)
    case NotIterable(v) => "argument of type '" + TypeName(v) + "' is not iterable"
    case StrKey(text, key) => if Contains(text, key) then StrIndexText else AssignMessage(VStr(text))
    case NoGet(v) => "'" + TypeName(v) + "' object has no attribute 'get'"
    case Uncomparable(v) => "'<' not supported between instances of '" + TypeName(v) + "' and 'int'"
  }

  /**
   * `if k not in c: c[k] = {}` followed by reading `c[k]`: for a dict, its
   * entries with k present and the value under k; for anything else the
   * TypeError the membership test, the assignment or the read raises.
   */
  function EnsureEntry(c: Value, k: string): (r: Result<(Dict<Value>, Value), Fault>)
    ensures r.Ok? <==> c.VDict?
    ensures c.VDict? && HasKey(c.entries, k) ==> r == Ok((c.entries, Get(c.entries, k).value))
    ensures c.VDict? && !HasKey(c.entries, k) ==> r == Ok((c.entries + [(k, VDict([]))], VDict([])))
    ensures c.VList? ==> r == Err(Unassignable(c))
  {
    match c
    case VDict(d) =>
      if HasKey(d, k) then Ok((d, Get(d, k).value))
      else
        PutNew(d, k, VDict([]));
        Ok((Put(d, k, VDict([])), VDict([])))
    case VList(_) => Err(Unassignable(c))
    case VStr(s) => Err(StrKey(s, k))
    case _ => Err(NotIterable(c))
  }

  /** The entry a listed provider's stamp starts from: its own dict, or the {} added for it. */
  function StartEntry(providers: Dict<Value>, provider: string): Dict<Value>
  {
    var v := Get(providers, provider);
    if v.Some? && v.value.VDict? then v.value.entries else []
  }

  /** The three settings a stamp writes, in the order the loop body assigns them. */
  function Settings(provider: string, priority: int): Dict<Value>
  {
    [("name", VStr(provider)), ("enabled", VBool(true)), ("priority", VInt(priority))]
  }

  /** The entry with name, enabled and priority set, in that order. */
  function Stamped(e: Dict<Value>, provider: string, priority: int): Dict<Value>
  {
    Update(e, Settings(provider, priority))
  }

  /** The stamp is the three assignments of the loop body, in order. */
  lemma StampedPuts(e: Dict<Value>, provider: string, priority: int)
    ensures Stamped(e, provider, priority)
              == Put(Put(Put(e, "name", VStr(provider)), "enabled", VBool(true)), "priority", VInt(priority))
  {
    var settings := Settings(provider, priority);
    var named := Put(e, "name", VStr(provider));
    var enabled := Put(named, "enabled", VBool(true));
    var prioritised := Put(enabled, "priority", VInt(priority));
    assert Update(prioritised, settings[3..]) == prioritised;
    assert Update(enabled, settings[2..]) == Update(prioritised, settings[3..]);
    assert Update(named, settings[1..]) == Update(enabled, settings[2..]);
    assert Update(e, settings) == Update(named, settings[1..]);
  }

  /** An entry after its stamp: the three settings, and every other key as it was in start. */
  ghost predicate StampedEntry(e: Dict<Value>, start: Dict<Value>, provider: string, priority: int)
  {
    && Get(e, "name") == Some(VStr(provider))
    && Get(e, "enabled") == Some(VBool(true))
    && Get(e, "priority") == Some(VInt(priority))
    && forall k :: k != "name" && k != "enabled" && k != "priority" ==> Get(e, k) == Get(start, k)
  }

  /** The stamp sets the three settings and leaves every other key of the entry alone. */
  lemma StampSettings(e: Dict<Value>, provider: string, priority: int)
    ensures StampedEntry(Stamped(e, provider, priority), e, provider, priority)
  {
    var settings := Settings(provider, priority);
    assert DistinctKeys(settings);
    GetAt(settings, 0);
    GetAt(settings, 1);
    GetAt(settings, 2);
    GetUpdate(e, settings, "name");
    GetUpdate(e, settings, "enabled");
    GetUpdate(e, settings, "priority");
    forall k | k != "name" && k != "enabled" && k != "priority" ensures Get(Stamped(e, provider, priority), k) == Get(e, k) {
      HasKeyInKeys(settings, k);
      GetUpdate(e, settings, k);
    }
  }

  /** How a pass rewrites a listed entry: the entry, the provider's name and its priority. */
  type StampFn = (Dict<Value>, string, int) -> Dict<Value>

  /** One pass of the loop body of _set_provider over the providers value. */
  function Stamp(p: Value, provider: string, priority: int, stamp: StampFn): (r: Result<Value, Fault>)
    ensures r.Ok? ==> p.VDict? && r.value.VDict?
  {
    match EnsureEntry(p, provider)
    case Err(m) => Err(m)
    case Ok((entries, entry)) =>
      if !entry.VDict? then Err(Unassignable(entry))
      else Ok(VDict(Put(entries, provider, VDict(stamp(entry.entries, provider, priority)))))
  }

  /** A pass over a dict whose entry is a dict (or absent) stamps that entry. */
  lemma StampOk(c: Value, provider: string, priority: int, stamp: StampFn)
    requires EnsureEntry(c, provider).Ok? && EnsureEntry(c, provider).value.1.VDict?
    ensures var (entries, entry) := EnsureEntry(c, provider).value;
            Stamp(c, provider, priority, stamp) == Ok(VDict(Put(entries, provider, VDict(stamp(entry.entries, provider, priority)))))
  {
  }

  /** A listed provider's entry can be stamped when it is absent or a dict. */
  predicate Stampable(providers: Dict<Value>, provider: string)
  {
    !HasKey(providers, provider) || Get(providers, provider).value.VDict?
  }

  /**
   * One pass over a dict of providers succeeds exactly when the entry is
   * absent or a dict; it then holds the stamped entry under the provider's
   * name and leaves every other key k as it was.
   */
  lemma StampStep(d: Dict<Value>, provider: string, priority: int, stamp: StampFn, k: string)
    ensures Stamp(VDict(d), provider, priority, stamp).Ok? <==> Stampable(d, provider)
    ensures Stamp(VDict(d), provider, priority, stamp).Ok? ==>
              Get(Stamp(VDict(d), provider, priority, stamp).value.entries, k)
                == if k == provider then Some(VDict(stamp(StartEntry(d, provider), provider, priority))) else Get(d, k)
  {
    if Stampable(d, provider) {
      var entries := if HasKey(d, provider) then d else Put(d, provider, VDict([]));
      if !HasKey(d, provider) {
        PutNew(d, provider, VDict([]));
        GetPut(d, provider, VDict([]), k);
      }
      var stamped := stamp(StartEntry(d, provider), provider, priority);
      assert Stamp(VDict(d), provider, priority, stamp) == Ok(VDict(Put(entries, provider, VDict(stamped))));
      GetPut(entries, provider, VDict(stamped), k);
    }
  }

  /** A pass keeps the keys of the providers dict distinct. */
  lemma StampStepDistinct(d: Dict<Value>, provider: string, priority: int, stamp: StampFn, q: Dict<Value>)
    requires DistinctKeys(d) && Stamp(VDict(d), provider, priority, stamp) == Ok(VDict(q))
    ensures DistinctKeys(q)
  {
    var entries := if HasKey(d, provider) then d else Put(d, provider, VDict([]));
    if !HasKey(d, provider) {
      PutNew(d, provider, VDict([]));
      PutKeepsDistinct(d, provider, VDict([]));
    }
    var stamped := stamp(StartEntry(d, provider), provider, priority);
    assert Stamp(VDict(d), provider, priority, stamp) == Ok(VDict(Put(entries, provider, VDict(stamped))));
    PutKeepsDistinct(entries, provider, VDict(stamped));
  }

  /** The first n passes of the loop of _set_provider over names, stopping at the first TypeError. */
  function StampAll(p: Value, names: seq<string>, chosen: string, n: nat, stamp: StampFn): (r: Result<Value, Fault>)
    requires n <= |names|
    ensures r.Ok? && n > 0 ==> p.VDict? && r.value.VDict?
  {
    if n == 0 then Ok(p)
    else
      match StampAll(p, names, chosen, n - 1, stamp)
      case Err(m) => Err(m)
      case Ok(q) => Stamp(q, names[n - 1], PriorityOf(names, chosen, n - 1), stamp)
  }

  /** A pass after n - 1 successful ones. */
  lemma StampAllStep(p: Value, names: seq<string>, chosen: string, n: nat, stamp: StampFn)
    requires 0 < n <= |names| && StampAll(p, names, chosen, n - 1, stamp).Ok?
    ensures StampAll(p, names, chosen, n, stamp)
              == Stamp(StampAll(p, names, chosen, n - 1, stamp).value, names[n - 1], PriorityOf(names, chosen, n - 1), stamp)
  {
  }

  /** A TypeError ends the loop: the later passes do not change it. */
  lemma {:induction false} StampAllFailed(p: Value, names: seq<string>, chosen: string, i: nat, n: nat, stamp: StampFn)
    requires i <= n <= |names| && StampAll(p, names, chosen, i, stamp).Err?
    ensures StampAll(p, names, chosen, n, stamp) == StampAll(p, names, chosen, i, stamp)
  {
    if n > i {
      StampAllFailed(p, names, chosen, i, n - 1, stamp);
    }
  }

  /** A key outside the first n listed names keeps its value. */
  lemma {:induction false} StampAllOther(providers: Dict<Value>, names: seq<string>, chosen: string, stamp: StampFn, n: nat, k: string)
    requires n <= |names| && StampAll(VDict(providers), names, chosen, n, stamp).Ok? && forall i :: 0 <= i < n ==> names[i] != k
    ensures Get(StampAll(VDict(providers), names, chosen, n, stamp).value.entries, k) == Get(providers, k)
  {
    if n > 0 {
      var prev := StampAll(VDict(providers), names, chosen, n - 1, stamp);
      assert prev.Ok?;
      var d := prev.value.entries;
      assert prev.value == VDict(d);
      StampAllOther(providers, names, chosen, stamp, n - 1, k);
      StampAllStep(VDict(providers), names, chosen, n, stamp);
      StampStep(d, names[n - 1], PriorityOf(names, chosen, n - 1), stamp, k);
    }
  }

  /** Each of the first n listed entries is absent or a dict. */
  predicate AllStampable(providers: Dict<Value>, names: seq<string>, n: nat)
    requires n <= |names|
  {
    n == 0 || (AllStampable(providers, names, n - 1) && Stampable(providers, names[n - 1]))
  }

  lemma {:induction false} AllStampableEach(providers: Dict<Value>, names: seq<string>, n: nat)
    requires n <= |names|
    ensures AllStampable(providers, names, n) <==> forall i :: 0 <= i < n ==> Stampable(providers, names[i])
  {
    if n > 0 {
      AllStampableEach(providers, names, n - 1);
    }
  }

  /** n passes over a dict of providers succeed exactly when each of the first n listed entries is absent or a dict. */
  lemma {:induction false} StampAllOk(providers: Dict<Value>, names: seq<string>, chosen: string, stamp: StampFn, n: nat)
    requires n <= |names| && NoRepeats(names)
    ensures StampAll(VDict(providers), names, chosen, n, stamp).Ok? <==> AllStampable(providers, names, n)
  {
    if n > 0 {
      StampAllOk(providers, names, chosen, stamp, n - 1);
      var prev := StampAll(VDict(providers), names, chosen, n - 1, stamp);
      var provider := names[n - 1];
      if prev.Ok? {
        var d := prev.value.entries;
        assert prev.value == VDict(d);
        StampStep(d, provider, PriorityOf(names, chosen, n - 1), stamp, provider);
        assert forall j :: 0 <= j < n - 1 ==> names[j] != provider;
        StampAllOther(providers, names, chosen, stamp, n - 1, provider);
        assert StampAll(VDict(providers), names, chosen, n, stamp) == Stamp(VDict(d), provider, PriorityOf(names, chosen, n - 1), stamp);
        assert Stampable(d, provider) == Stampable(providers, provider);
      } else {
        assert StampAll(VDict(providers), names, chosen, n, stamp).Err?;
      }
    }
  }

  /** The i-th listed provider holds its stamp over the entry it had. */
  lemma {:induction false} StampAllListed(providers: Dict<Value>, names: seq<string>, chosen: string, stamp: StampFn, n: nat, i: nat)
    requires i < n <= |names| && NoRepeats(names) && StampAll(VDict(providers), names, chosen, n, stamp).Ok?
    ensures Get(StampAll(VDict(providers), names, chosen, n, stamp).value.entries, names[i])
              == Some(VDict(stamp(StartEntry(providers, names[i]), names[i], PriorityOf(names, chosen, i))))
  {
    var prev := StampAll(VDict(providers), names, chosen, n - 1, stamp);
    assert prev.Ok?;
    var d := prev.value.entries;
    assert prev.value == VDict(d);
    StampAllStep(VDict(providers), names, chosen, n, stamp);
    StampStep(d, names[n - 1], PriorityOf(names, chosen, n - 1), stamp, names[i]);
    if i < n - 1 {
      StampAllListed(providers, names, chosen, stamp, n - 1, i);
    } else {
      assert forall j :: 0 <= j < n - 1 ==> names[j] != names[n - 1];
      StampAllOther(providers, names, chosen, stamp, n - 1, names[n - 1]);
    }
  }

  /** The passes keep the keys of the providers dict distinct. */
  lemma {:induction false} StampAllDistinct(providers: Dict<Value>, names: seq<string>, chosen: string, stamp: StampFn, n: nat, r: Dict<Value>)
    requires n <= |names| && DistinctKeys(providers) && StampAll(VDict(providers), names, chosen, n, stamp) == Ok(VDict(r))
    ensures DistinctKeys(r)
  {
    if n > 0 {
      var prev := StampAll(VDict(providers), names, chosen, n - 1, stamp);
      assert prev.Ok?;
      var d := prev.value.entries;
      assert prev == Ok(VDict(d));
      StampAllStep(VDict(providers), names, chosen, n, stamp);
      StampAllDistinct(providers, names, chosen, stamp, n - 1, d);
      StampStepDistinct(d, names[n - 1], PriorityOf(names, chosen, n - 1), stamp, r);
    }
  }

  // ---------------------------------------------------------------------
  // The reordering by priority

  /**
   * The number Python orders an entry by, item[1].get("priority", 999),
   * for an entry whose key Python can compare with the integer priorities;
   * other entries get 0, and SortError rules them out first.
   */
  function Rank(e: (string, Value)): real
  {
    match e.1
    case VDict(entries) =>
      var p: Option<Value> := Get(entries, "priority");
      if p.None? then 999.0
      else
        (match p.value
         case VInt(i) => i as real
         case VBool(b) => if b then 1.0 else 0.0
         case VFloat(f) => f
         case _ => 0.0)
    case _ => 0.0
  }

  /** A priority Python can compare with an int: an int, a bool or a float. */
  predicate Numeric(v: Value)
  {
    v.VInt? || v.VBool? || v.VFloat?
  }

  /**
   * What sorted(..., key=...) raises over these items, if anything: the
   * AttributeError of the first entry that is not a dict (every key is
   * computed before any comparison), else the TypeError of comparing a
   * priority that is no number with the integer priorities of the listed
   * providers.
   */
  function SortError(d: Dict<Value>): (r: Option<Fault>)
    ensures r.None? <==> forall i :: 0 <= i < |d| ==> d[i].1.VDict? && (HasKey(d[i].1.entries, "priority") ==> Numeric(Get(d[i].1.entries, "priority").value))
  {
    match GetError(d)
    case Some(m) => Some(m)
    case None => CompareError(d)
  }

  function GetError(d: Dict<Value>): (r: Option<Fault>)
    ensures r.None? <==> forall i :: 0 <= i < |d| ==> d[i].1.VDict?
  {
    if |d| == 0 then None
    else if !d[0].1.VDict? then Some(NoGet(d[0].1))
    else
      var rest := GetError(d[1..]);
      assert forall i :: 1 <= i < |d| ==> d[i] == d[1..][i - 1];
      rest
  }

  function CompareError(d: Dict<Value>): (r: Option<Fault>)
    ensures r.None? <==> forall i :: 0 <= i < |d| ==> (d[i].1.VDict? && HasKey(d[i].1.entries, "priority") ==> Numeric(Get(d[i].1.entries, "priority").value))
  {
    if |d| == 0 then None
    else if d[0].1.VDict? && HasKey(d[0].1.entries, "priority") && !Numeric(Get(d[0].1.entries, "priority").value) then
      Some(Uncomparable(Get(d[0].1.entries, "priority").value))
    else
      var rest := CompareError(d[1..]);
      assert forall i :: 1 <= i < |d| ==> d[i] == d[1..][i - 1];
      rest
  }

  predicate SortedBy<T>(s: seq<T>, key: T -> real)
  {
    forall i, j :: 0 <= i < j < |s| ==> key(s[i]) <= key(s[j])
  }

  /** The items of s whose key is r, in their order in s. */
  function WithKey<T>(s: seq<T>, key: T -> real, r: real): seq<T>
  {
    if |s| == 0 then [] else (if key(s[0]) == r then [s[0]] else []) + WithKey(s[1..], key, r)
  }

  /** x placed after every item whose key is not above its own. */
  function Insert<T>(x: T, s: seq<T>, key: T -> real): (r: seq<T>)
    ensures multiset(r) == multiset(s) + multiset{x} && |r| == |s| + 1
  {
    if |s| == 0 || key(x) < key(s[0]) then [x] + s
    else
      assert s == [s[0]] + s[1..];
      [s[0]] + Insert(x, s[1..], key)
  }

  /** sorted(s, key=key): a stable insertion sort. */
  function SortBy<T>(s: seq<T>, key: T -> real): (r: seq<T>)
    ensures multiset(r) == multiset(s) && |r| == |s|
  {
    if |s| == 0 then []
    else
      assert s == s[..|s| - 1] + [s[|s| - 1]];
      Insert(s[|s| - 1], SortBy(s[..|s| - 1], key), key)
  }

  lemma {:induction false} InsertSorted<T>(x: T, s: seq<T>, key: T -> real)
    requires SortedBy(s, key)
    ensures SortedBy(Insert(x, s, key), key)
  {
    if |s| > 0 && key(x) >= key(s[0]) {
      InsertSorted(x, s[1..], key);
      var tail := Insert(x, s[1..], key);
      forall j | 0 <= j < |tail| ensures key(s[0]) <= key(tail[j]) {
        assert tail[j] in multiset(tail);
        assert tail[j] == x || tail[j] in multiset(s[1..]);
      }
    }
  }

  /** Inserting x into a sorted list places it after every item of its own key. */
  lemma {:induction false} InsertStable<T>(x: T, s: seq<T>, key: T -> real, r: real)
    requires SortedBy(s, key)
    ensures WithKey(Insert(x, s, key), key, r) == WithKey(s, key, r) + (if key(x) == r then [x] else [])
  {
    var mine: seq<T> := if key(x) == r then [x] else [];
    if |s| == 0 {
      assert WithKey([x], key, r) == mine + WithKey([], key, r);
    } else if key(x) < key(s[0]) {
      WithKeyCons(x, s, key, r);
      if key(x) == r {
        NoneWithKey(s, key, r);
      }
    } else {
      var t := Insert(x, s[1..], key);
      assert SortedBy(s[1..], key);
      InsertStable(x, s[1..], key, r);
      WithKeyCons(s[0], t, key, r);
      WithKeyCons(s[0], s[1..], key, r);
      assert [s[0]] + s[1..] == s;
    }
  }

  lemma WithKeyCons<T>(x: T, s: seq<T>, key: T -> real, r: real)
    ensures WithKey([x] + s, key, r) == (if key(x) == r then [x] else []) + WithKey(s, key, r)
  {
    assert ([x] + s)[0] == x && ([x] + s)[1..] == s;
  }

  lemma {:induction false} NoneWithKey<T>(s: seq<T>, key: T -> real, r: real)
    requires SortedBy(s, key) && |s| > 0 && r < key(s[0])
    ensures WithKey(s, key, r) == []
  {
    if |s| > 1 {
      NoneWithKey(s[1..], key, r);
    }
  }

  lemma {:induction false} WithKeySnoc<T>(s: seq<T>, x: T, key: T -> real, r: real)
    ensures WithKey(s + [x], key, r) == WithKey(s, key, r) + (if key(x) == r then [x] else [])
  {
    if |s| == 0 {
      assert [x][1..] == [];
    } else {
      assert (s + [x])[1..] == s[1..] + [x];
      WithKeySnoc(s[1..], x, key, r);
    }
  }

  /**
   * The sort is ordered by key and stable: the items of any one key keep
   * their order (and it holds the same items, as SortBy states).
   */
  lemma {:induction false} SortByCorrect<T>(s: seq<T>, key: T -> real)
    ensures SortedBy(SortBy(s, key), key)
    ensures forall r :: WithKey(SortBy(s, key), key, r) == WithKey(s, key, r)
  {
    if |s| > 0 {
      var init, x := s[..|s| - 1], s[|s| - 1];
      SortByCorrect(init, key);
      InsertSorted(x, SortBy(init, key), key);
      assert s == init + [x];
      forall r ensures WithKey(SortBy(s, key), key, r) == WithKey(s, key, r) {
        InsertStable(x, SortBy(init, key), key, r);
        WithKeySnoc(init, x, key, r);
      }
    }
  }

  /** With distinct keys, each pair occurs once. */
  lemma {:induction false} DistinctKeysOnce(d: Dict<Value>, x: (string, Value))
    requires DistinctKeys(d)
    ensures multiset(d)[x] <= 1
  {
    if |d| > 0 {
      assert d == [d[0]] + d[1..];
      assert DistinctKeys(d[1..]) by {
        forall i, j | 0 <= i < j < |d[1..]| ensures d[1..][i].0 != d[1..][j].0 {
          assert d[1..][i] == d[i + 1] && d[1..][j] == d[j + 1];
        }
      }
      DistinctKeysOnce(d[1..], x);
      if x == d[0] {
        forall j | 0 <= j < |d[1..]| ensures d[1..][j] != x {
          assert d[1..][j] == d[j + 1];
        }
      }
    }
  }

  /** An item found at two positions of s occurs twice in its multiset. */
  lemma MultisetTwice<T>(s: seq<T>, i: nat, j: nat)
    requires i < j < |s| && s[i] == s[j]
    ensures multiset(s)[s[i]] >= 2
  {
    assert s == s[..i] + [s[i]] + s[i + 1..j] + [s[j]] + s[j + 1..];
  }

  /** A reordering of a dict's items is a dict with the same distinct keys. */
  lemma PermutationKeepsDistinct(d: Dict<Value>, s: Dict<Value>)
    requires DistinctKeys(d) && multiset(s) == multiset(d)
    ensures DistinctKeys(s)
  {
    forall i, j | 0 <= i < j < |s| ensures s[i].0 != s[j].0 {
      if s[i] == s[j] {
        MultisetTwice(s, i, j);
        DistinctKeysOnce(d, s[i]);
      } else {
        assert s[i] in multiset(d) && s[j] in multiset(d);
        var a :| 0 <= a < |d| && d[a] == s[i];
        var b :| 0 <= b < |d| && d[b] == s[j];
      }
    }
  }

  /**
   * dict(sorted(providers.items(), key=...)): the items reordered by
   * priority, or what sorting raises.
   */
  function SortedProviders(d: Dict<Value>): (r: Result<Dict<Value>, Fault>)
    ensures r.Ok? <==> SortError(d).None?
  {
    match SortError(d)
    case Some(m) => Err(m)
    case None => Ok(SortBy(d, Rank))
  }

  /** Entries without a priority sort after every entry whose priority is below 999. */
  lemma MissingPrioritySortsLast(d: Dict<Value>, i: nat, j: nat)
    requires i < |SortBy(d, Rank)| && j < |SortBy(d, Rank)|
    requires SortBy(d, Rank)[i].1.VDict? && !HasKey(SortBy(d, Rank)[i].1.entries, "priority")
    requires Rank(SortBy(d, Rank)[j]) < 999.0
    ensures j < i
  {
    var s := SortBy(d, Rank);
    assert Rank(s[i]) == 999.0;
    SortByCorrect(d, Rank);
  }

  // ---------------------------------------------------------------------
  // The rewrite of the user configuration document

  /** `yaml.safe_load(f) or {}` */
  function Document(loaded: Value): Value
  {
    if Truthy(loaded) then loaded else VDict([])
  }

  /**
   * The document _set_provider writes: a providers dict added when it is
   * missing, the four listed providers stamped, and the providers dict
   * replaced by its reordering; or the message of the TypeError or
   * AttributeError raised on the way.
   */
  function Rewrite(loaded: Value, chosen: string): (r: Result<Value, Fault>)
    ensures r.Ok? ==> r.value.VDict?
  {
    match EnsureEntry(Document(loaded), "providers")
    case Err(m) => Err(m)
    case Ok((top, providers)) =>
      match StampAll(providers, AllProviders, chosen, |AllProviders|, Stamped)
      case Err(m) => Err(m)
      case Ok(stamped) =>
        match SortedProviders(stamped.entries)
        case Err(m) => Err(m)
        case Ok(sorted) => Ok(VDict(Put(top, "providers", VDict(sorted))))
  }

  /** The providers dict the loop starts from: the document's own, or the {} added for it. */
  function InitialProviders(loaded: Value): Dict<Value>
  {
    var data := Document(loaded);
    if data.VDict? then StartEntry(data.entries, "providers") else []
  }

  /** The providers dict after the loop, before the reordering. */
  function StampedProviders(loaded: Value, chosen: string): Result<Value, Fault>
  {
    StampAll(VDict(InitialProviders(loaded)), AllProviders, chosen, |AllProviders|, Stamped)
  }

  /** The providers dict written back: the stamped one reordered by priority. */
  function WrittenProviders(loaded: Value, chosen: string): Dict<Value>
    requires StampedProviders(loaded, chosen).Ok?
  {
    SortBy(StampedProviders(loaded, chosen).value.entries, Rank)
  }

  /**
   * A rewrite that succeeds replaces the providers of a dict document by
   * the reordered stamped ones and keeps every other key of the document.
   */
  lemma RewriteReplacesProviders(loaded: Value, chosen: string, k: string)
    requires Rewrite(loaded, chosen).Ok?
    ensures Document(loaded).VDict? && StampedProviders(loaded, chosen).Ok?
    ensures Get(Rewrite(loaded, chosen).value.entries, k)
              == if k == "providers" then Some(VDict(WrittenProviders(loaded, chosen))) else Get(Document(loaded).entries, k)
  {
    var data := Document(loaded);
    var ensured := EnsureEntry(data, "providers");
    assert ensured.Ok?;
    var top, providers := ensured.value.0, ensured.value.1;
    var stamped := StampAll(providers, AllProviders, chosen, |AllProviders|, Stamped);
    assert stamped.Ok?;
    assert providers == VDict(InitialProviders(loaded));
    var sorted := SortBy(stamped.value.entries, Rank);
    assert Rewrite(loaded, chosen).value == VDict(Put(top, "providers", VDict(sorted)));
    GetPut(top, "providers", VDict(sorted), k);
    if !HasKey(data.entries, "providers") {
      GetAppend(data.entries, [("providers", VDict([]))], k);
    }
  }

  /** Reordering a dict with distinct keys reads every key as before. */
  lemma GetPermuted(d: Dict<Value>, s: Dict<Value>, k: string)
    requires DistinctKeys(d) && multiset(s) == multiset(d)
    ensures Get(s, k) == Get(d, k)
  {
    PermutationKeepsDistinct(d, s);
    GetFound(d, k);
    GetFound(s, k);
    if Get(d, k).Some? {
      var i :| 0 <= i < |d| && d[i] == (k, Get(d, k).value);
      assert d[i] in multiset(s);
      var j :| 0 <= j < |s| && s[j] == d[i];
      GetAt(s, j);
    } else if Get(s, k).Some? {
      var j :| 0 <= j < |s| && s[j] == (k, Get(s, k).value);
      assert s[j] in multiset(d);
      var i :| 0 <= i < |d| && d[i] == s[j];
      GetAt(d, i);
    }
  }

  /** The written providers dict reads every key as the stamped one does. */
  lemma WrittenReadsStamped(loaded: Value, chosen: string, k: string)
    requires StampedProviders(loaded, chosen).Ok? && DistinctKeys(InitialProviders(loaded))
    ensures DistinctKeys(WrittenProviders(loaded, chosen))
    ensures Get(WrittenProviders(loaded, chosen), k) == Get(StampedProviders(loaded, chosen).value.entries, k)
  {
    var stamped := StampedProviders(loaded, chosen).value.entries;
    StampAllDistinct(InitialProviders(loaded), AllProviders, chosen, Stamped, |AllProviders|, stamped);
    PermutationKeepsDistinct(stamped, SortBy(stamped, Rank));
    GetPermuted(stamped, SortBy(stamped, Rank), k);
  }

  /**
   * After a successful rewrite the i-th listed provider's entry holds its
   * name, enabled = True and its priority (1 for the chosen provider, else
   * 2 + its place in the list), and every other setting it had.
   */
  lemma RewriteListedEntry(loaded: Value, chosen: string, i: nat)
    requires StampedProviders(loaded, chosen).Ok? && DistinctKeys(InitialProviders(loaded)) && i < |AllProviders|
    ensures var name := AllProviders[i];
            var entry := Get(WrittenProviders(loaded, chosen), name);
            && entry.Some? && entry.value.VDict?
            && StampedEntry(entry.value.entries, StartEntry(InitialProviders(loaded), name), name, if name == chosen then 1 else 2 + i)
  {
    var name := AllProviders[i];
    AllProvidersDistinct();
    StampAllListed(InitialProviders(loaded), AllProviders, chosen, Stamped, |AllProviders|, i);
    WrittenReadsStamped(loaded, chosen, name);
    StampSettings(StartEntry(InitialProviders(loaded), name), name, PriorityOf(AllProviders, chosen, i));
  }

  /** After a successful rewrite a provider outside the list keeps its entry. */
  lemma RewriteKeepsUnlisted(loaded: Value, chosen: string, k: string)
    requires StampedProviders(loaded, chosen).Ok? && DistinctKeys(InitialProviders(loaded)) && k !in AllProviders
    ensures Get(WrittenProviders(loaded, chosen), k) == Get(InitialProviders(loaded), k)
  {
    WrittenReadsStamped(loaded, chosen, k);
    StampAllOther(InitialProviders(loaded), AllProviders, chosen, Stamped, |AllProviders|, k);
  }

  /**
   * The written providers are the stamped ones ordered by priority (999
   * for an entry without one), and entries of equal priority keep their
   * order, as Python's sort is stable.
   */
  lemma RewriteOrdered(loaded: Value, chosen: string)
    requires Rewrite(loaded, chosen).Ok?
    ensures StampedProviders(loaded, chosen).Ok?
    ensures SortedBy(WrittenProviders(loaded, chosen), Rank)
    ensures multiset(WrittenProviders(loaded, chosen)) == multiset(StampedProviders(loaded, chosen).value.entries)
    ensures forall r :: WithKey(WrittenProviders(loaded, chosen), Rank, r) == WithKey(StampedProviders(loaded, chosen).value.entries, Rank, r)
  {
    RewriteReplacesProviders(loaded, chosen, "providers");
    SortByCorrect(StampedProviders(loaded, chosen).value.entries, Rank);
  }

  /** A stamped entry is ordered by the priority the stamp gave it. */
  lemma StampedRank(k: string, e: Dict<Value>, provider: string, priority: int)
    ensures Rank((k, VDict(Stamped(e, provider, priority)))) == priority as real
  {
    StampSettings(e, provider, priority);
  }

  /** A listed provider's item in the written dict is ordered by its stamped priority. */
  lemma ListedRank(loaded: Value, chosen: string, t: nat, m: nat)
    requires DistinctKeys(InitialProviders(loaded)) && m < |AllProviders|
    requires StampedProviders(loaded, chosen).Ok? && t < |WrittenProviders(loaded, chosen)|
    requires WrittenProviders(loaded, chosen)[t].0 == AllProviders[m]
    ensures Rank(WrittenProviders(loaded, chosen)[t]) == PriorityOf(AllProviders, chosen, m) as real
  {
    RewriteListedEntry(loaded, chosen, m);
    WrittenReadsStamped(loaded, chosen, AllProviders[m]);
    RankAt(WrittenProviders(loaded, chosen), t, PriorityOf(AllProviders, chosen, m));
  }

  /** The item at t of a dict with distinct keys is ordered by the priority its key reads. */
  lemma RankAt(s: Dict<Value>, t: nat, priority: int)
    requires DistinctKeys(s) && t < |s|
    requires var entry := Get(s, s[t].0); entry.Some? && entry.value.VDict? && Get(entry.value.entries, "priority") == Some(VInt(priority))
    ensures Rank(s[t]) == priority as real
  {
    GetAt(s, t);
  }

  /** Any other item of the written dict is ordered as its entry was before. */
  lemma UnlistedRank(loaded: Value, chosen: string, t: nat)
    requires DistinctKeys(InitialProviders(loaded))
    requires StampedProviders(loaded, chosen).Ok? && t < |WrittenProviders(loaded, chosen)|
    requires WrittenProviders(loaded, chosen)[t].0 !in AllProviders
    ensures HasKey(InitialProviders(loaded), WrittenProviders(loaded, chosen)[t].0)
    ensures WrittenProviders(loaded, chosen)[t] == (WrittenProviders(loaded, chosen)[t].0, Get(InitialProviders(loaded), WrittenProviders(loaded, chosen)[t].0).value)
  {
    var s := WrittenProviders(loaded, chosen);
    RewriteKeepsUnlisted(loaded, chosen, s[t].0);
    WrittenReadsStamped(loaded, chosen, s[t].0);
    GetAt(s, t);
  }

  /**
   * When the chosen provider is one of the four and every other entry of
   * the providers dict has a priority above 1 (or none), the chosen
   * provider comes first in the written document.
   */
  lemma ChosenComesFirst(loaded: Value, chosen: string)
    requires Rewrite(loaded, chosen).Ok? && DistinctKeys(InitialProviders(loaded)) && chosen in AllProviders
    requires forall k :: k !in AllProviders && HasKey(InitialProviders(loaded), k) ==> Rank((k, Get(InitialProviders(loaded), k).value)) > 1.0
    ensures StampedProviders(loaded, chosen).Ok?
    ensures |WrittenProviders(loaded, chosen)| > 0 && WrittenProviders(loaded, chosen)[0].0 == chosen
  {
    RewriteOrdered(loaded, chosen);
    var s := WrittenProviders(loaded, chosen);
    var j := ChosenRanksFirst(loaded, chosen);
    assert Rank(s[0]) <= 1.0 by {
      if j > 0 {
        assert Rank(s[0]) <= Rank(s[j]);
      }
    }
    OtherRanksLater(loaded, chosen, 0);
  }

  /** The chosen provider is written with rank 1. */
  lemma ChosenRanksFirst(loaded: Value, chosen: string) returns (j: nat)
    requires StampedProviders(loaded, chosen).Ok? && DistinctKeys(InitialProviders(loaded)) && chosen in AllProviders
    ensures j < |WrittenProviders(loaded, chosen)| && WrittenProviders(loaded, chosen)[j].0 == chosen
    ensures Rank(WrittenProviders(loaded, chosen)[j]) == 1.0
  {
    var s := WrittenProviders(loaded, chosen);
    var c :| 0 <= c < |AllProviders| && AllProviders[c] == chosen;
    RewriteListedEntry(loaded, chosen, c);
    GetFound(s, chosen);
    j :| 0 <= j < |s| && s[j] == (chosen, Get(s, chosen).value);
    ListedRank(loaded, chosen, j, c);
  }

  /**
   * Any other provider is written with a rank above 1: a listed one gets
   * 2 + its position, an unlisted one keeps its own entry.
   */
  lemma OtherRanksLater(loaded: Value, chosen: string, t: nat)
    requires StampedProviders(loaded, chosen).Ok? && DistinctKeys(InitialProviders(loaded))
    requires forall k :: k !in AllProviders && HasKey(InitialProviders(loaded), k) ==> Rank((k, Get(InitialProviders(loaded), k).value)) > 1.0
    requires t < |WrittenProviders(loaded, chosen)|
    ensures WrittenProviders(loaded, chosen)[t].0 != chosen ==> Rank(WrittenProviders(loaded, chosen)[t]) > 1.0
  {
    var name := WrittenProviders(loaded, chosen)[t].0;
    if name == chosen {
    } else if name in AllProviders {
      var m :| 0 <= m < |AllProviders| && AllProviders[m] == name;
      ListedRank(loaded, chosen, t, m);
    } else {
      UnlistedRank(loaded, chosen, t);
    }
  }

  /** A provider outside the list is set without any entry getting priority 1. */
  lemma UnknownProviderNotPrimary(loaded: Value, chosen: string, i: nat)
    requires StampedProviders(loaded, chosen).Ok? && DistinctKeys(InitialProviders(loaded)) && chosen !in AllProviders && i < |AllProviders|
    ensures var entry := Get(WrittenProviders(loaded, chosen), AllProviders[i]);
            entry.Some? && entry.value.VDict? && Get(entry.value.entries, "priority") == Some(VInt(2 + i))
  {
    RewriteListedEntry(loaded, chosen, i);
  }

  /** An entry the reordering can order: a dict whose priority, if any, is a number. */
  predicate Sortable(v: Value)
  {
    v.VDict? && (HasKey(v.entries, "priority") ==> Numeric(Get(v.entries, "priority").value))
  }

  /** Each item of the stamped providers dict is sortable when each entry it started from was. */
  lemma StampedItemSortable(loaded: Value, chosen: string, t: nat)
    requires StampedProviders(loaded, chosen).Ok? && DistinctKeys(InitialProviders(loaded))
    requires forall i :: 0 <= i < |InitialProviders(loaded)| ==> Sortable(InitialProviders(loaded)[i].1)
    requires t < |StampedProviders(loaded, chosen).value.entries|
    ensures Sortable(StampedProviders(loaded, chosen).value.entries[t].1)
  {
    var start := InitialProviders(loaded);
    var stamped := StampedProviders(loaded, chosen).value.entries;
    var k := stamped[t].0;
    StampAllDistinct(start, AllProviders, chosen, Stamped, |AllProviders|, stamped);
    GetAt(stamped, t);
    if k in AllProviders {
      var m :| 0 <= m < |AllProviders| && AllProviders[m] == k;
      AllProvidersDistinct();
      StampAllListed(start, AllProviders, chosen, Stamped, |AllProviders|, m);
      StampSettings(StartEntry(start, k), k, PriorityOf(AllProviders, chosen, m));
    } else {
      assert forall j :: 0 <= j < |AllProviders| ==> AllProviders[j] != k;
      StampAllOther(start, AllProviders, chosen, Stamped, |AllProviders|, k);
      GetFound(start, k);
    }
  }

  /** The loop succeeds over providers that are all dicts. */
  lemma StampsSucceed(loaded: Value, chosen: string)
    requires forall i :: 0 <= i < |InitialProviders(loaded)| ==> Sortable(InitialProviders(loaded)[i].1)
    ensures StampedProviders(loaded, chosen).Ok?
  {
    var start := InitialProviders(loaded);
    AllProvidersDistinct();
    forall i | 0 <= i < |AllProviders| ensures Stampable(start, AllProviders[i]) {
      GetFound(start, AllProviders[i]);
    }
    AllStampableEach(start, AllProviders, |AllProviders|);
    StampAllOk(start, AllProviders, chosen, Stamped, |AllProviders|);
  }

  /** The stamped providers can be reordered when each entry they started from was sortable. */
  lemma StampedSortable(loaded: Value, chosen: string)
    requires StampedProviders(loaded, chosen).Ok? && DistinctKeys(InitialProviders(loaded))
    requires forall i :: 0 <= i < |InitialProviders(loaded)| ==> Sortable(InitialProviders(loaded)[i].1)
    ensures SortError(StampedProviders(loaded, chosen).value.entries).None?
  {
    var stamped := StampedProviders(loaded, chosen).value.entries;
    forall t | 0 <= t < |stamped| ensures Sortable(stamped[t].1) {
      StampedItemSortable(loaded, chosen, t);
    }
  }

  /**
   * The rewrite succeeds on a dict document whose providers are absent or
   * a dict of sortable entries.
   */
  lemma RewriteSucceeds(loaded: Value, chosen: string)
    requires Document(loaded).VDict?
    requires var p := Get(Document(loaded).entries, "providers"); p.None? || p.value.VDict?
    requires DistinctKeys(InitialProviders(loaded))
    requires forall i :: 0 <= i < |InitialProviders(loaded)| ==> Sortable(InitialProviders(loaded)[i].1)
    ensures Rewrite(loaded, chosen).Ok?
  {
    StampsSucceed(loaded, chosen);
    StampedSortable(loaded, chosen);
    var ensured := EnsureEntry(Document(loaded), "providers");
    assert ensured.Ok? && ensured.value.1 == VDict(InitialProviders(loaded));
  }

  /** A document that is truthy but not a dict is refused with the TypeError of its first use. */
  lemma RewriteRefusesNonDict(loaded: Value, chosen: string)
    requires Truthy(loaded) && !loaded.VDict?
    ensures Rewrite(loaded, chosen) == Err(EnsureEntry(loaded, "providers").error)
  {
  }

  /** A listed provider whose entry is no dict makes the rewrite fail. */
  lemma RewriteRefusesNonDictEntry(loaded: Value, chosen: string, i: nat)
    requires i < |AllProviders| && HasKey(InitialProviders(loaded), AllProviders[i])
    requires !Get(InitialProviders(loaded), AllProviders[i]).value.VDict?
    ensures Rewrite(loaded, chosen).Err?
  {
    AllProvidersDistinct();
    StampAllOk(InitialProviders(loaded), AllProviders, chosen, Stamped, |AllProviders|);
    AllStampableEach(InitialProviders(loaded), AllProviders, |AllProviders|);
    assert StampedProviders(loaded, chosen).Err?;
    var ensured := EnsureEntry(Document(loaded), "providers");
    if ensured.Ok? {
      assert ensured.value.1 == VDict(InitialProviders(loaded));
    }
  }

  // ---------------------------------------------------------------------
  // The loop of _set_provider

  /** all_providers.index(x): the first position of x. */
  function IndexOf(names: seq<string>, x: string): (i: nat)
    requires x in names
    ensures i < |names| && names[i] == x
  {
    if names[0] == x then 0 else 1 + IndexOf(names[1..], x)
  }

  /** No earlier position holds x. */
  lemma {:induction false} IndexOfFirst(names: seq<string>, x: string, j: nat)
    requires x in names && j < IndexOf(names, x)
    ensures names[j] != x
  {
    if j > 0 {
      IndexOfFirst(names[1..], x, j - 1);
    }
  }

  /** In a list without repeats, index finds every item where it is. */
  lemma IndexOfListed(names: seq<string>, i: nat)
    requires NoRepeats(names) && i < |names|
    ensures IndexOf(names, names[i]) == i
  {
  }

  /** The priority the loop body computes: 1 for the chosen provider, else 2 + all_providers.index(provider). */
  function LoopPriority(names: seq<string>, provider: string, chosen: string): int
    requires provider in names
  {
    if provider == chosen then 1 else 2 + IndexOf(names, provider)
  }

  /** In a list without repeats the loop's priority is PriorityOf. */
  lemma IndexedPriority(names: seq<string>, chosen: string, i: nat)
    requires NoRepeats(names) && i < |names|
    ensures LoopPriority(names, names[i], chosen) == PriorityOf(names, chosen, i)
  {
    IndexOfListed(names, i);
  }

  /**
   * The loop of _set_provider over the listed providers (AllProviders in
   * the command), on the providers value it starts from: the chosen
   * provider gets priority 1 and every other 2 + its index; a missing entry
   * is added as {} and name, enabled and priority are assigned in turn. It
   * returns the providers dict after the loop, or the message of the
   * TypeError that ends it.
   */
  method StampPriorities(providers: Value, names: seq<string>, chosen: string) returns (r: Result<Value, Fault>)
    requires NoRepeats(names)
    ensures r == StampAll(providers, names, chosen, |names|, Stamped)
  {
    var current := providers;
    var i := 0;
    while i < |names|
      invariant 0 <= i <= |names|
      invariant StampAll(providers, names, chosen, i, Stamped) == Ok(current)
    {
      var provider := names[i];
      IndexedPriority(names, chosen, i);
      var priority := LoopPriority(names, provider, chosen);
      Pass(providers, names, chosen, i, current);
      var ensured := EnsureEntry(current, provider);
      if ensured.Err? {
        return Err(ensured.error);
      }
      var entries, entry := ensured.value.0, ensured.value.1;
      if !entry.VDict? {
        return Err(Unassignable(entry));
      }
      // name, enabled and priority assigned in turn (StampedPuts)
      var e := Stamped(entry.entries, provider, priority);
      current := VDict(Put(entries, provider, VDict(e)));
      i := i + 1;
    }
    r := Ok(current);
  }

  /** What the pass at i of the loop leaves: the TypeError that ends the loop, or the next providers dict. */
  lemma Pass(providers: Value, names: seq<string>, chosen: string, i: nat, current: Value)
    requires i < |names| && StampAll(providers, names, chosen, i, Stamped) == Ok(current)
    ensures var ensured := EnsureEntry(current, names[i]);
            if ensured.Err? then StampAll(providers, names, chosen, |names|, Stamped) == Err(ensured.error)
            else if !ensured.value.1.VDict? then StampAll(providers, names, chosen, |names|, Stamped) == Err(Unassignable(ensured.value.1))
            else StampAll(providers, names, chosen, i + 1, Stamped)
                   == Ok(VDict(Put(ensured.value.0, names[i], VDict(Stamped(ensured.value.1.entries, names[i], PriorityOf(names, chosen, i))))))
  {
    StampAllStep(providers, names, chosen, i + 1, Stamped);
    var ensured := EnsureEntry(current, names[i]);
    if ensured.Err? || !ensured.value.1.VDict? {
      StampAllFailed(providers, names, chosen, i + 1, |names|, Stamped);
    } else {
      StampOk(current, names[i], PriorityOf(names, chosen, i), Stamped);
    }
  }

  // ---------------------------------------------------------------------
  // The command: handle_config and the operations it dispatches to

  /**
   * What the command asks of the configuration manager and the file
   * system: the user configuration directory, which paths are present, the
   * report _show_current_config builds (or the message of what it raised),
   * the message of the exception each initialisation, mkdir or write
   * raises (None when it succeeds), and the user configuration as
   * yaml.safe_load reads it (or the message of the error reading it).
   */
  datatype ConfigWorld = ConfigWorld(
    userConfigDir: string,
    present: string -> bool,
    shown: bool -> Result<string, string>,
    initUserFailure: Option<string>,
    initTeamFailure: Option<string>,
    mkdirFailure: string -> Option<string>,
    writeFailure: string -> Option<string>,
    userYaml: Result<Value, string>)

  /** What the command does to the file system, in order. */
  datatype Effect =
    | InitUserConfig                                 // config_manager.init_user_config()
    | InitTeamConfig(teamDir: string, team: string)  // team_config_dir set, then init_team_config(team)
    | MakeDir(path: string)
    | WriteTemplate(path: string, team: string)      // write_text of SampleTemplate(team)
    | DumpYaml(path: string, document: Value)        // the user config rewritten by yaml.dump

  /** An effect and the message of the exception it raises, if it does. */
  datatype Step = Step(effect: Effect, failure: Option<string>)

  /**
   * Steps run in order until one raises: the effects done, and the
   * message of the exception that stopped them.
   */
  function Perform(steps: seq<Step>): (r: (seq<Effect>, Option<string>))
    ensures |r.0| <= |steps|
    ensures forall i :: 0 <= i < |r.0| ==> r.0[i] == steps[i].effect && steps[i].failure.None?
    ensures r.1.None? ==> |r.0| == |steps|
    ensures r.1.Some? ==> |r.0| < |steps| && steps[|r.0|].failure == r.1
  {
    if |steps| == 0 then ([], None)
    else if steps[0].failure.Some? then ([], steps[0].failure)
    else
      var rest := Perform(steps[1..]);
      ([steps[0].effect] + rest.0, rest.1)
  }

  /** What handle_config returns, before Text renders it. */
  datatype Reply =
    | Report(report: string)            // the report of _show_current_config
    | LoadFailed(message: string)       // what building that report raised
    | GlobalExists(path: string)
    | GlobalCreated(path: string)
    | TeamExists(team: string, path: string)
    | TeamCreated(team: string, path: string, templates: string, file: string)
    | NotInitialised(provider: string)
    | ProviderSet(provider: string, path: string)
    | Help

  const GlobalTail := "\n\nYou can now:\n1. Edit the configuration file to customize settings\n2. Use 'gitai config --show' to view current configuration\n3. Use 'gitai config --team <name>' to set up team configuration\n\nDefault provider: ollama (localhost:11434)\nDefault templates: conventional (commit), github (PR)"

  const TeamTail1 := "\n\nYou can now:\n1. Edit the team configuration file\n2. Add custom templates to the templates directory\n3. Share the team configuration with team members\n4. Use templates with: gitai commit -t "

  const TeamTail2 := "\n\nTeam members should copy the team configuration to their local GitAI config."

  const HelpText := "GitAI Configuration\n\nAvailable commands:\n  gitai config --global                  # Initialize global user config\n  gitai config --team <name>             # Initialize team config\n  gitai config --show                    # Show current configuration\n  gitai config --set-provider <name>     # Set preferred AI provider\n\nFor more help: gitai config --help"

  /** The text handle_config returns. */
  function Text(r: Reply): string
  {
    match r
    case Report(report) => report
    case LoadFailed(m) => "Error loading configuration: " + m
    case GlobalExists(path) => "Global configuration already exists at " + path
    case GlobalCreated(path) => "Global configuration initialized successfully!\n\nConfiguration file: " + path + GlobalTail
    case TeamExists(team, path) => "Team configuration for '" + team + "' already exists at " + path
    case TeamCreated(team, path, templates, file) =>
      "Team configuration for '" + team + "' initialized successfully!\n\nConfiguration file: " + path
      + "\nTemplates directory: " + templates + "\n\nCreated sample template: " + file + TeamTail1 + team + TeamTail2
    case NotInitialised(provider) =>
      "Global configuration does not exist yet.\n\nPlease initialize it first with:\n  gitai config --global\n\nThen you can set the provider with:\n  gitai config --set-provider " + provider
    case ProviderSet(provider, path) =>
      "Provider set to '" + provider + "' successfully!\n\nConfiguration file: " + path
      + "\n\nCurrent provider priority:\n  1. " + provider + " (primary)\n\nUse 'gitai config --show' to view full configuration."
    case Help => HelpText
  }

  const TemplateHead := "{# description: Team-specific conventional commit template #}\n{# variables: type, scope, description, body #}\n{{ type }}({{ "

  const TemplateTail := " }}): {{ description }}\n\n{% if body %}\n{{ body }}\n{% endif %}\n\n{% if breaking_changes %}\nBREAKING CHANGE: {{ breaking_changes }}\n{% endif %}"

  /** The sample commit template written for a new team. */
  function SampleTemplate(team: string): string
  {
    TemplateHead + ("scope or '" + team + "'") + TemplateTail
  }

  /** The sample template's scope defaults to the team's name. */
  lemma SampleTemplateScope(team: string)
    ensures Contains(SampleTemplate(team), "scope or '" + team + "'")
  {
    ContainsMiddle(TemplateHead, "scope or '" + team + "'", TemplateTail);
  }

  /** The text handle_config returns or the exception it raises, and the effects done on the way. */
  datatype Run = Run(result: Result<Reply, Error>, effects: seq<Effect>)

  const Context := "Configuration operation failed"

  /** config_paths["user"] */
  function UserConfigPath(w: ConfigWorld): string
  {
    ConfigManagement.PathsOf(None, None, w.userConfigDir).user
  }

  /** _show_current_config: the report, or the message of what building it raised; it never raises. */
  function Show(w: ConfigWorld, verbose: bool): Reply
  {
    match w.shown(verbose)
    case Ok(report) => Report(report)
    case Err(m) => LoadFailed(m)
  }

  function GlobalFailure(m: string): Error
  {
    Error(Configuration, "Failed to initialize global config: " + m)
  }

  /** _init_global_config */
  function InitGlobal(w: ConfigWorld): Run
  {
    var path := UserConfigPath(w);
    if w.present(path) then Run(Ok(GlobalExists(path)), [])
    else
      match Perform([Step(InitUserConfig, w.initUserFailure)])
      case (done, Some(m)) => Run(Err(GlobalFailure(m)), done)
      case (done, None) => Run(Ok(GlobalCreated(path)), done)
  }

  /** The team's configuration directory. */
  function TeamDir(w: ConfigWorld, team: string): string
  {
    w.userConfigDir + "/teams/" + team
  }

  /** The team's sample template file. */
  function TemplateFile(w: ConfigWorld, team: string): string
  {
    TeamDir(w, team) + "/templates/commit/" + team + ".j2"
  }

  /** What _init_team_config does once the team has no configuration yet. */
  function TeamSteps(w: ConfigWorld, team: string): seq<Step>
  {
    var dir := TeamDir(w, team);
    [Step(InitTeamConfig(dir, team), w.initTeamFailure),
     Step(MakeDir(dir + "/templates"), w.mkdirFailure(dir + "/templates")),
     Step(MakeDir(dir + "/templates/commit"), w.mkdirFailure(dir + "/templates/commit")),
     Step(WriteTemplate(TemplateFile(w, team), team), w.writeFailure(TemplateFile(w, team)))]
  }

  function TeamFailure(m: string): Error
  {
    Error(Configuration, "Failed to initialize team config: " + m)
  }

  /** _init_team_config */
  function InitTeam(w: ConfigWorld, team: string): Run
  {
    var dir := TeamDir(w, team);
    if w.present(dir + "/config.yaml") then Run(Ok(TeamExists(team, dir + "/config.yaml")), [])
    else
      match Perform(TeamSteps(w, team))
      case (done, Some(m)) => Run(Err(TeamFailure(m)), done)
      case (done, None) => Run(Ok(TeamCreated(team, dir + "/config.yaml", dir + "/templates", TemplateFile(w, team))), done)
  }

  function ProviderFailure(m: string): Error
  {
    Error(Configuration, "Failed to set provider: " + m)
  }

  /** _set_provider */
  function SetProvider(w: ConfigWorld, provider: string): Run
  {
    var path := UserConfigPath(w);
    if !w.present(path) then Run(Ok(NotInitialised(provider)), [])
    else
      match w.userYaml
      case Err(m) => Run(Err(ProviderFailure(m)), [])
      case Ok(loaded) =>
        match Rewrite(loaded, provider)
        case Err(f) => Run(Err(ProviderFailure(FaultMessage(f))), [])
        case Ok(document) =>
          match Perform([Step(DumpYaml(path, document), w.writeFailure(path))])
          case (done, Some(m)) => Run(Err(ProviderFailure(m)), done)
          case (done, None) => Run(Ok(ProviderSet(provider, path)), done)
  }

  /** The if-chain of handle_config after the team name is validated. */
  function Dispatch(w: ConfigWorld, initGlobal: bool, team: string, show: bool, provider: string, verbose: bool): Run
  {
    if show then Run(Ok(Show(w, verbose)), [])
    else if initGlobal then InitGlobal(w)
    else if team != "" then InitTeam(w, team)
    else if provider != "" then SetProvider(w, provider)
    else Run(Ok(Help), [])
  }

  /** The team name handle_config goes on with: the validated one, or "" when none is given. */
  function CheckedTeam(team: string): Result<string, Error>
  {
    if team != "" then Validation.ValidateTeamName(team) else Ok(team)
  }

  /**
   * handle_config: a team name given is validated first; the request is
   * dispatched; any exception outside the GitAI hierarchy is wrapped with
   * the helpful message for the operation. An absent team name or
   * provider is the empty string.
   */
  function Config(w: ConfigWorld, initGlobal: bool, team: string, show: bool, provider: string, verbose: bool): Run
  {
    match CheckedTeam(team)
    case Err(e) => Run(Err(CommitCommand.Surface(e, Context)), [])
    case Ok(name) =>
      var run := Dispatch(w, initGlobal, name, show, provider, verbose);
      match run.result
      case Err(e) => Run(Err(CommitCommand.Surface(e, Context)), run.effects)
      case Ok(_) => run
  }

  /**
   * _set_provider step by step: the guard, the read, the stamping loop,
   * the reordering and the write.
   */
  method SetProviderSteps(w: ConfigWorld, provider: string) returns (run: Run)
    ensures run == SetProvider(w, provider)
  {
    var path := UserConfigPath(w);
    if !w.present(path) {
      return Run(Ok(NotInitialised(provider)), []);
    }
    if w.userYaml.Err? {
      return Run(Err(ProviderFailure(w.userYaml.error)), []);
    }
    var ensured := EnsureEntry(Document(w.userYaml.value), "providers");
    if ensured.Err? {
      return Run(Err(ProviderFailure(FaultMessage(ensured.error))), []);
    }
    var top, providers := ensured.value.0, ensured.value.1;
    AllProvidersDistinct();
    var stamped := StampPriorities(providers, AllProviders, provider);
    if stamped.Err? {
      return Run(Err(ProviderFailure(FaultMessage(stamped.error))), []);
    }
    var sorted := SortedProviders(stamped.value.entries);
    if sorted.Err? {
      return Run(Err(ProviderFailure(FaultMessage(sorted.error))), []);
    }
    var document := VDict(Put(top, "providers", VDict(sorted.value)));
    var failure := w.writeFailure(path);
    if failure.Some? {
      return Run(Err(ProviderFailure(failure.value)), []);
    }
    return Run(Ok(ProviderSet(provider, path)), [DumpYaml(path, document)]);
  }

  // ---------------------------------------------------------------------
  // Properties of the command

  /** Every exception the operations raise is a ConfigurationError. */
  lemma DispatchRaisesConfiguration(w: ConfigWorld, initGlobal: bool, team: string, show: bool, provider: string, verbose: bool)
    ensures Dispatch(w, initGlobal, team, show, provider, verbose).result.Err? ==>
              Dispatch(w, initGlobal, team, show, provider, verbose).result.error.kind == Configuration
  {
  }

  /**
   * handle_config re-raises what it catches unchanged: the error of an
   * invalid team name, or the ConfigurationError of the operation; the
   * helpful-message wrapping never applies to these.
   */
  lemma ConfigNeverWraps(w: ConfigWorld, initGlobal: bool, team: string, show: bool, provider: string, verbose: bool)
    ensures CheckedTeam(team).Err? ==> Config(w, initGlobal, team, show, provider, verbose) == Run(Err(CheckedTeam(team).error), [])
    ensures CheckedTeam(team).Ok? ==>
              Config(w, initGlobal, team, show, provider, verbose) == Dispatch(w, initGlobal, CheckedTeam(team).value, show, provider, verbose)
  {
    match CheckedTeam(team)
    case Err(e) =>
    case Ok(name) =>
      DispatchRaisesConfiguration(w, initGlobal, name, show, provider, verbose);
      assert IsA(Configuration, GitAI) by {
        assert Parent(Configuration) == Some(GitAI);
      }
  }

  /** A team name that fails validation is refused before anything else is done, whatever else is asked. */
  lemma InvalidTeamRefusedFirst(w: ConfigWorld, initGlobal: bool, team: string, show: bool, provider: string, verbose: bool)
    requires team != "" && Validation.ValidateTeamName(team).Err?
    ensures Config(w, initGlobal, team, show, provider, verbose) == Run(Err(Validation.ValidateTeamName(team).error), [])
  {
    ConfigNeverWraps(w, initGlobal, team, show, provider, verbose);
  }

  /** --show wins over every other option, never raises and changes nothing. */
  lemma ShowChangesNothing(w: ConfigWorld, initGlobal: bool, team: string, provider: string, verbose: bool)
    requires team == "" || Validation.ValidateTeamName(team).Ok?
    ensures Config(w, initGlobal, team, true, provider, verbose) == Run(Ok(Show(w, verbose)), [])
  {
    ConfigNeverWraps(w, initGlobal, team, true, provider, verbose);
  }

  /** With no option the help text is returned and nothing is done. */
  lemma NoOptionGivesHelp(w: ConfigWorld, verbose: bool)
    ensures Config(w, false, "", false, "", verbose) == Run(Ok(Help), [])
  {
    ConfigNeverWraps(w, false, "", false, "", verbose);
  }

  /**
   * --global leaves an existing user configuration alone; otherwise it
   * initialises it once, and a failure is a ConfigurationError with
   * nothing done.
   */
  lemma InitGlobalOutcome(w: ConfigWorld)
    ensures w.present(UserConfigPath(w)) ==> InitGlobal(w) == Run(Ok(GlobalExists(UserConfigPath(w))), [])
    ensures !w.present(UserConfigPath(w)) && w.initUserFailure.None? ==>
              InitGlobal(w) == Run(Ok(GlobalCreated(UserConfigPath(w))), [InitUserConfig])
    ensures !w.present(UserConfigPath(w)) && w.initUserFailure.Some? ==>
              InitGlobal(w) == Run(Err(GlobalFailure(w.initUserFailure.value)), [])
  {
    var steps := [Step(InitUserConfig, w.initUserFailure)];
    assert steps[1..] == [];
  }

  /**
   * --team leaves an existing team configuration alone; otherwise its
   * effects are the four steps in order up to the first that raises, and
   * it succeeds exactly when all four are done.
   */
  lemma InitTeamOutcome(w: ConfigWorld, team: string)
    ensures w.present(TeamDir(w, team) + "/config.yaml") ==>
              InitTeam(w, team) == Run(Ok(TeamExists(team, TeamDir(w, team) + "/config.yaml")), [])
    ensures !w.present(TeamDir(w, team) + "/config.yaml") ==>
              var run := InitTeam(w, team);
              var steps := TeamSteps(w, team);
              && |run.effects| <= |steps|
              && (forall i :: 0 <= i < |run.effects| ==> run.effects[i] == steps[i].effect && steps[i].failure.None?)
              && (run.result.Ok? <==> |run.effects| == |steps|)
              && (run.result.Err? ==>
                    |run.effects| < |steps| && steps[|run.effects|].failure.Some?
                    && run.result.error == TeamFailure(steps[|run.effects|].failure.value))
  {
  }

  /** A new team's last effect writes its sample template under its own directory. */
  lemma TeamTemplateWritten(w: ConfigWorld, team: string)
    requires InitTeam(w, team).result.Ok? && !w.present(TeamDir(w, team) + "/config.yaml")
    ensures |InitTeam(w, team).effects| == 4
    ensures InitTeam(w, team).effects[3] == WriteTemplate(TemplateFile(w, team), team)
  {
    InitTeamOutcome(w, team);
  }

  /** --set-provider without a user configuration only says how to create one, and changes nothing. */
  lemma SetProviderUninitialised(w: ConfigWorld, provider: string)
    requires !w.present(UserConfigPath(w))
    ensures SetProvider(w, provider) == Run(Ok(NotInitialised(provider)), [])
  {
  }

  /**
   * --set-provider writes the user configuration at most once, with the
   * rewritten document, and only when the file was read and the rewrite
   * succeeded.
   */
  lemma SetProviderWritesRewrite(w: ConfigWorld, provider: string)
    ensures SetProvider(w, provider).effects != [] ==>
              && w.userYaml.Ok? && Rewrite(w.userYaml.value, provider).Ok?
              && SetProvider(w, provider).effects == [DumpYaml(UserConfigPath(w), Rewrite(w.userYaml.value, provider).value)]
  {
    SetProviderCases(w, provider);
  }

  /** Once a user configuration exists, --set-provider succeeds exactly when it writes the file. */
  lemma SetProviderSucceedsIffWritten(w: ConfigWorld, provider: string)
    requires w.present(UserConfigPath(w))
    ensures SetProvider(w, provider).result.Ok? <==> SetProvider(w, provider).effects != []
  {
    SetProviderCases(w, provider);
  }

  /** The outcomes of --set-provider once a user configuration exists, case by case. */
  lemma SetProviderCases(w: ConfigWorld, provider: string)
    ensures w.present(UserConfigPath(w)) && w.userYaml.Ok? && Rewrite(w.userYaml.value, provider).Ok? ==>
              var path := UserConfigPath(w);
              var document := Rewrite(w.userYaml.value, provider).value;
              SetProvider(w, provider)
                == if w.writeFailure(path).Some? then Run(Err(ProviderFailure(w.writeFailure(path).value)), [])
                   else Run(Ok(ProviderSet(provider, path)), [DumpYaml(path, document)])
    ensures !(w.present(UserConfigPath(w)) && w.userYaml.Ok? && Rewrite(w.userYaml.value, provider).Ok?) ==>
              SetProvider(w, provider).effects == []
  {
    var path := UserConfigPath(w);
    if w.present(path) && w.userYaml.Ok? && Rewrite(w.userYaml.value, provider).Ok? {
      var steps := [Step(DumpYaml(path, Rewrite(w.userYaml.value, provider).value), w.writeFailure(path))];
      assert steps[1..] == [];
    }
  }

  /** Whatever stops --set-provider is raised as a ConfigurationError saying the provider could not be set. */
  lemma SetProviderFailureMessage(w: ConfigWorld, provider: string)
    ensures SetProvider(w, provider).result.Err? ==>
              SetProvider(w, provider).result.error.kind == Configuration
              && StartsWith(SetProvider(w, provider).result.error.message, "Failed to set provider: ")
  {
    if SetProvider(w, provider).result.Err? {
      var e := SetProvider(w, provider).result.error;
      assert e == ProviderFailure(e.message[24..]);
      PrefixStarts("Failed to set provider: ", e.message[24..]);
    }
  }

  /**
   * When --set-provider names one of the four providers and no other entry
   * has a priority of 1 or less, the document it writes lists that provider
   * first.
   */
  lemma SetProviderPutsChosenFirst(w: ConfigWorld, provider: string)
    requires SetProvider(w, provider).effects != [] && w.userYaml.Ok?
    requires DistinctKeys(InitialProviders(w.userYaml.value)) && provider in AllProviders
    requires forall k :: k !in AllProviders && HasKey(InitialProviders(w.userYaml.value), k) ==>
               Rank((k, Get(InitialProviders(w.userYaml.value), k).value)) > 1.0
    ensures SetProvider(w, provider).effects[0].DumpYaml?
    ensures StampedProviders(w.userYaml.value, provider).Ok?
    ensures Get(SetProvider(w, provider).effects[0].document.entries, "providers") == Some(VDict(WrittenProviders(w.userYaml.value, provider)))
    ensures |WrittenProviders(w.userYaml.value, provider)| > 0 && WrittenProviders(w.userYaml.value, provider)[0].0 == provider
  {
    SetProviderWritesRewrite(w, provider);
    RewriteReplacesProviders(w.userYaml.value, provider, "providers");
    ChosenComesFirst(w.userYaml.value, provider);
  }
}
