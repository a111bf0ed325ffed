/**
 * Python dictionaries with string keys. Insertion order is part of a dict's
 * behaviour (iteration, `update`, yaml output), so a dict is a sequence of
 * key/value pairs whose keys are distinct.
 */
module Dicts {
  import opened Wrappers

  type Dict<V> = seq<(string, V)>

  function Keys<V>(d: Dict<V>): (ks: seq<string>)
    ensures |ks| == |d| && forall i :: 0 <= i < |d| ==> ks[i] == d[i].0
  {
    if |d| == 0 then [] else [d[0].0] + Keys(d[1..])
  }

  predicate DistinctKeys<V>(d: Dict<V>)
  {
    forall i, j :: 0 <= i < j < |d| ==> d[i].0 != d[j].0
  }

  /** d.get(k): the value stored under k. */
  function Get<V>(d: Dict<V>, k: string): Option<V>
  {
    if |d| == 0 then None
    else if d[0].0 == k then Some(d[0].1)
    else Get(d[1..], k)
  }

  /** k in d */
  predicate HasKey<V>(d: Dict<V>, k: string)
  {
    Get(d, k).Some?
  }

  /** A dict holds exactly the keys it lists. */
  lemma {:induction false} HasKeyInKeys<V>(d: Dict<V>, k: string)
    ensures HasKey(d, k) <==> k in Keys(d)
  {
    if |d| > 0 {
      HasKeyInKeys(d[1..], k);
      assert Keys(d) == [d[0].0] + Keys(d[1..]);
    }
  }

  /** A value that Get finds is stored in some pair of the dict. */
  lemma {:induction false} GetFound<V>(d: Dict<V>, k: string)
    ensures Get(d, k).Some? ==> exists i :: 0 <= i < |d| && d[i] == (k, Get(d, k).value)
  {
    if |d| > 0 && d[0].0 != k {
      GetFound(d[1..], k);
      if Get(d, k).Some? {
        var i :| 0 <= i < |d[1..]| && d[1..][i] == (k, Get(d, k).value);
        assert d[i + 1] == (k, Get(d, k).value);
      }
    }
  }

  /** In a dict with distinct keys, the key of the i-th pair reads its value. */
  lemma {:induction false} GetAt<V>(d: Dict<V>, i: nat)
    requires DistinctKeys(d) && i < |d|
    ensures Get(d, d[i].0) == Some(d[i].1)
  {
    if i > 0 {
      assert d[1..][i - 1] == d[i];
      GetAt(d[1..], i - 1);
    }
  }

  /** dict(zip(ks, vs)) */
  function Zip<V>(ks: seq<string>, vs: seq<V>): (d: Dict<V>)
    requires |ks| == |vs|
    ensures |d| == |ks| && forall i :: 0 <= i < |d| ==> d[i] == (ks[i], vs[i])
  {
    if |ks| == 0 then [] else [(ks[0], vs[0])] + Zip(ks[1..], vs[1..])
  }

  /** With distinct keys, the i-th key of a zipped dict reads the i-th value. */
  lemma ZipGet<V>(ks: seq<string>, vs: seq<V>, i: nat)
    requires |ks| == |vs| && i < |ks|
    requires forall a, b :: 0 <= a < b < |ks| ==> ks[a] != ks[b]
    ensures Get(Zip(ks, vs), ks[i]) == Some(vs[i])
  {
    GetAt(Zip(ks, vs), i);
  }

  /** A lookup in a concatenation finds the first part's pair before the second's. */
  lemma {:induction false} GetAppend<V>(a: Dict<V>, b: Dict<V>, k: string)
    ensures Get(a + b, k) == if HasKey(a, k) then Get(a, k) else Get(b, k)
  {
    if |a| > 0 {
      assert (a + b)[1..] == a[1..] + b;
      GetAppend(a[1..], b, k);
    } else {
      assert a + b == b;
    }
  }

  /** d[k] = v: replaces the value in place when k is present, appends otherwise. */
  function Put<V>(d: Dict<V>, k: string, v: V): Dict<V>
  {
    if |d| == 0 then [(k, v)]
    else if d[0].0 == k then [(k, v)] + d[1..]
    else [d[0]] + Put(d[1..], k, v)
  }

  /** A dict built alongside another, key for key, stays so when the other's next pair is mirrored. */
  lemma KeysSnocOf<V, W>(init: Dict<V>, d: Dict<W>, v: V)
    requires |d| > 0 && Keys(init) == Keys(d[..|d| - 1])
    ensures Keys(init + [(d[|d| - 1].0, v)]) == Keys(d)
  {
    var kr, kd := Keys(init + [(d[|d| - 1].0, v)]), Keys(d);
    assert |kr| == |kd|;
    forall i | 0 <= i < |kr|
      ensures kr[i] == kd[i]
    {
      if i < |init| {
        assert kr[i] == init[i].0 == Keys(init)[i] == Keys(d[..|d| - 1])[i];
      }
    }
  }

  /** d[k] = v keeps the keys of d in their order, and appends k when it is new. */
  lemma {:induction false} PutKeys<V>(d: Dict<V>, k: string, v: V)
    ensures Keys(Put(d, k, v)) == if HasKey(d, k) then Keys(d) else Keys(d) + [k]
  {
    if |d| > 0 && d[0].0 != k {
      PutKeys(d[1..], k, v);
    }
  }

  lemma {:induction false} GetPut<V>(d: Dict<V>, k: string, v: V, k': string)
    ensures Get(Put(d, k, v), k') == if k' == k then Some(v) else Get(d, k')
  {
    if |d| > 0 && d[0].0 != k {
      GetPut(d[1..], k, v, k');
    }
  }

  lemma {:induction false} PutKeepsDistinct<V>(d: Dict<V>, k: string, v: V)
    requires DistinctKeys(d)
    ensures DistinctKeys(Put(d, k, v))
  {
    var r := Put(d, k, v);
    PutKeys(d, k, v);
    HasKeyInKeys(d, k);
    forall i, j | 0 <= i < j < |r| ensures r[i].0 != r[j].0 {
      assert Keys(r)[i] == r[i].0 && Keys(r)[j] == r[j].0;
      if !HasKey(d, k) && j == |d| {
        assert Keys(d)[i] == d[i].0;
      } else {
        assert Keys(d)[i] == d[i].0 && Keys(d)[j] == d[j].0;
      }
    }
  }

  /** Every pair of d[k] = v is the new pair or a pair of d. */
  lemma {:induction false} PutPairs<V>(d: Dict<V>, k: string, v: V)
    ensures forall j :: 0 <= j < |Put(d, k, v)| ==> Put(d, k, v)[j] == (k, v) || Put(d, k, v)[j] in d
  {
    if |d| > 0 && d[0].0 != k {
      PutPairs(d[1..], k, v);
      forall j | 0 <= j < |Put(d, k, v)| ensures Put(d, k, v)[j] == (k, v) || Put(d, k, v)[j] in d {
        if j > 0 {
          assert Put(d, k, v)[j] == Put(d[1..], k, v)[j - 1];
        }
      }
    }
  }

  /** Assigning a new key appends its pair. */
  lemma {:induction false} PutNew<V>(d: Dict<V>, k: string, v: V)
    requires !HasKey(d, k)
    ensures Put(d, k, v) == d + [(k, v)]
  {
    if |d| > 0 {
      PutNew(d[1..], k, v);
    }
  }

  /** With distinct keys, the first key does not occur again. */
  lemma FirstKeyNotInRest<V>(e: Dict<V>)
    requires DistinctKeys(e) && |e| > 0
    ensures !HasKey(e[1..], e[0].0)
  {
    HasKeyInKeys(e[1..], e[0].0);
    forall j | 0 <= j < |e[1..]|
      ensures Keys(e[1..])[j] != e[0].0
    {
      assert e[1..][j] == e[j + 1];
    }
  }

  /** d.update(e): each pair of e is put into d in e's order. */
  function Update<V>(d: Dict<V>, e: Dict<V>): Dict<V>
    decreases |e|
  {
    if |e| == 0 then d else Update(Put(d, e[0].0, e[0].1), e[1..])
  }

  /** After d.update(e), keys of e read their value in e and the other keys read d. */
  lemma {:induction false} GetUpdate<V>(d: Dict<V>, e: Dict<V>, k: string)
    requires DistinctKeys(e)
    ensures Get(Update(d, e), k) == if HasKey(e, k) then Get(e, k) else Get(d, k)
    decreases |e|
  {
    if |e| > 0 {
      GetUpdate(Put(d, e[0].0, e[0].1), e[1..], k);
      GetPut(d, e[0].0, e[0].1, k);
      if k == e[0].0 {
        FirstKeyNotInRest(e);
      }
    }
  }

  lemma {:induction false} UpdateKeepsDistinct<V>(d: Dict<V>, e: Dict<V>)
    requires DistinctKeys(d)
    ensures DistinctKeys(Update(d, e))
    decreases |e|
  {
    if |e| > 0 {
      PutKeepsDistinct(d, e[0].0, e[0].1);
      UpdateKeepsDistinct(Put(d, e[0].0, e[0].1), e[1..]);
    }
  }

  /** The keys of d.update(e): those of d in their order, then the new keys of e. */
  lemma {:induction false} UpdateKeys<V>(d: Dict<V>, e: Dict<V>, k: string)
    ensures HasKey(Update(d, e), k) <==> HasKey(d, k) || HasKey(e, k)
    decreases |e|
  {
    if |e| > 0 {
      UpdateKeys(Put(d, e[0].0, e[0].1), e[1..], k);
      GetPut(d, e[0].0, e[0].1, k);
    }
  }
}
