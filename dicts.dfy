/** Python's insertion-ordered `dict` with string keys, as far as the
    scripts use it: lookup, assignment, the merge `{**d, **e}` and dict
    comprehensions. A dictionary is its list of entries in insertion order. */
module Dicts {
  import opened Values

  type Dict<V> = seq<(string, V)>

  function Keys<V>(d: Dict<V>): (ks: seq<string>)
    ensures |ks| == |d|
    ensures forall i :: 0 <= i < |d| ==> ks[i] == d[i].0
  {
    seq(|d|, i requires 0 <= i < |d| => d[i].0)
  }

  predicate Distinct(s: seq<string>) {
    forall i, j :: 0 <= i < j < |s| ==> s[i] != s[j]
  }

  /** `d.get(k)`. */
  function Get<V>(d: Dict<V>, k: string): (r: Option<V>)
    ensures r.Some? <==> k in Keys(d)
  {
    if d == [] then None
    else if d[0].0 == k then Some(d[0].1)
    else
      assert Keys(d) == [d[0].0] + Keys(d[1..]);
      Get(d[1..], k)
  }

  /** With distinct keys, each entry is what its key looks up. */
  lemma {:induction false} GetAt<V>(d: Dict<V>, i: nat)
    requires Distinct(Keys(d)) && i < |d|
    ensures Get(d, d[i].0) == Some(d[i].1)
    decreases |d|
  {
    if i > 0 {
      assert Keys(d[1..])[i - 1] == Keys(d)[i];
      assert Distinct(Keys(d[1..])) by {
        forall a, b | 0 <= a < b < |d| - 1 ensures Keys(d[1..])[a] != Keys(d[1..])[b] {
          assert Keys(d[1..])[a] == Keys(d)[a + 1] && Keys(d[1..])[b] == Keys(d)[b + 1];
        }
      }
      assert d[0].0 != d[i].0 by { assert Keys(d)[0] != Keys(d)[i]; }
      GetAt(d[1..], i - 1);
    }
  }

  /** `d[k] = v`: an existing key keeps its place, a new one goes last. */
  function Put<V>(d: Dict<V>, k: string, v: V): Dict<V> {
    if d == [] then [(k, v)]
    else if d[0].0 == k then [(k, v)] + d[1..]
    else [d[0]] + Put(d[1..], k, v)
  }

  /** `{**d, **e}`: the entries of `e` assigned into `d` one after another. */
  function Merge<V>(d: Dict<V>, e: Dict<V>): Dict<V>
    decreases |e|
  {
    if e == [] then d else Merge(Put(d, e[0].0, e[0].1), e[1..])
  }

  // ------------------------------------------------------------ properties

  lemma {:induction false} PutGet<V>(d: Dict<V>, k: string, v: V, k': string)
    ensures Get(Put(d, k, v), k') == if k' == k then Some(v) else Get(d, k')
    decreases |d|
  {
    if d != [] && d[0].0 != k {
      PutGet(d[1..], k, v, k');
      assert Put(d, k, v)[1..] == Put(d[1..], k, v);
    } else if d != [] {
      assert Put(d, k, v)[1..] == d[1..];
    }
  }

  lemma {:induction false} PutKeys<V>(d: Dict<V>, k: string, v: V)
    ensures Keys(Put(d, k, v)) == if k in Keys(d) then Keys(d) else Keys(d) + [k]
    decreases |d|
  {
    if d == [] {
      assert Keys(Put(d, k, v)) == [k];
    } else {
      var p := Put(d, k, v);
      KeysCons(d);
      KeysCons(p);
      if d[0].0 != k {
        PutKeys(d[1..], k, v);
        assert p[1..] == Put(d[1..], k, v);
        assert (k in Keys(d)) == (k in Keys(d[1..]));
        if k !in Keys(d) {
          assert [d[0].0] + (Keys(d[1..]) + [k]) == Keys(d) + [k];
        }
      } else {
        assert p[1..] == d[1..];
        assert k in Keys(d);
      }
    }
  }

  lemma KeysCons<V>(d: Dict<V>)
    requires d != []
    ensures Keys(d) == [d[0].0] + Keys(d[1..])
  {
  }

  /** Assigning a key the dictionary lacks appends the entry. */
  lemma {:induction false} PutNew<V>(d: Dict<V>, k: string, v: V)
    requires k !in Keys(d)
    ensures Put(d, k, v) == d + [(k, v)]
    decreases |d|
  {
    if d != [] {
      assert Keys(d) == [d[0].0] + Keys(d[1..]);
      PutNew(d[1..], k, v);
      assert [d[0]] + (d[1..] + [(k, v)]) == d + [(k, v)];
    }
  }

  lemma PutDistinct<V>(d: Dict<V>, k: string, v: V)
    requires Distinct(Keys(d))
    ensures Distinct(Keys(Put(d, k, v)))
  {
    PutKeys(d, k, v);
  }

  /** In `{**d, **e}` a key of `e` takes `e`'s value; any other key keeps
      `d`'s, so later sources override earlier ones. */
  lemma {:induction false} MergeGet<V>(d: Dict<V>, e: Dict<V>, k: string)
    requires Distinct(Keys(e))
    ensures Get(Merge(d, e), k) == if k in Keys(e) then Get(e, k) else Get(d, k)
    decreases |e|
  {
    if e != [] {
      var e' := e[1..];
      assert Keys(e) == [e[0].0] + Keys(e');
      assert Distinct(Keys(e')) by {
        forall i, j | 0 <= i < j < |Keys(e')| ensures Keys(e')[i] != Keys(e')[j] {
          assert Keys(e')[i] == Keys(e)[i + 1] && Keys(e')[j] == Keys(e)[j + 1];
        }
      }
      MergeGet(Put(d, e[0].0, e[0].1), e', k);
      PutGet(d, e[0].0, e[0].1, k);
      if k == e[0].0 {
        assert k !in Keys(e');
      }
    }
  }

  /** The merge keeps `d`'s keys in their order, then adds the new keys of
      `e`; its keys are exactly those of either side, without repeats. */
  lemma {:induction false} MergeKeys<V>(d: Dict<V>, e: Dict<V>)
    requires Distinct(Keys(d))
    ensures Keys(d) <= Keys(Merge(d, e))
    ensures forall k :: k in Keys(Merge(d, e)) <==> k in Keys(d) || k in Keys(e)
    ensures Distinct(Keys(Merge(d, e)))
    decreases |e|
  {
    if e != [] {
      var d' := Put(d, e[0].0, e[0].1);
      PutKeys(d, e[0].0, e[0].1);
      PutDistinct(d, e[0].0, e[0].1);
      MergeKeys(d', e[1..]);
      assert Keys(e) == [e[0].0] + Keys(e[1..]);
    }
  }

  /** Merging entries whose keys are new and distinct appends them: a dict
      comprehension over distinct keys is its list of entries. */
  lemma {:induction false} MergeFresh<V>(d: Dict<V>, e: Dict<V>)
    requires Distinct(Keys(d + e))
    ensures Merge(d, e) == d + e
    decreases |e|
  {
    if e == [] {
      assert d + e == d;
    } else {
      assert Keys(d + e)[|d|] == e[0].0;
      forall i | 0 <= i < |d| ensures Keys(d)[i] != e[0].0 {
        assert Keys(d)[i] == Keys(d + e)[i];
      }
      PutNew(d, e[0].0, e[0].1);
      assert (d + [e[0]]) + e[1..] == d + e;
      MergeFresh(d + [e[0]], e[1..]);
    }
  }
}
