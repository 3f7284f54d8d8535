/** Python dicts as their item lists in insertion order. Iteration order of the
    roster's and the loader's nested dicts decides the order of `champions`, so the
    model keeps it: `Put` overwrites an existing key where it stands and appends a
    new key at the end, as `d[k] = v` does. Also `Dedup`, the key list a dict built
    from a sequence of possibly repeated keys ends up with. */
module Dict {
  import opened Util

  function Keys<K, V>(s: seq<(K, V)>): (r: seq<K>)
    ensures |r| == |s|
    ensures forall i :: 0 <= i < |s| ==> r[i] == s[i].0
  {
    if s == [] then [] else Keys(s[..|s| - 1]) + [s[|s| - 1].0]
  }

  function Values<K, V>(s: seq<(K, V)>): (r: seq<V>)
    ensures |r| == |s|
    ensures forall i :: 0 <= i < |s| ==> r[i] == s[i].1
  {
    if s == [] then [] else Values(s[..|s| - 1]) + [s[|s| - 1].1]
  }

  /** Keys are not repeated, as in every dict. */
  predicate IsDict<K(==), V>(s: seq<(K, V)>) {
    Distinct(Keys(s))
  }

  /** `d.get(k)`. */
  function Get<K(==), V>(s: seq<(K, V)>, k: K): (r: Option<V>)
    ensures r.Some? <==> k in Keys(s)
    ensures r.Some? ==> (k, r.value) in s
  {
    if s == [] then None
    else if s[|s| - 1].0 == k then Some(s[|s| - 1].1)
    else
      var r := Get(s[..|s| - 1], k);
      assert Keys(s) == Keys(s[..|s| - 1]) + [s[|s| - 1].0];
      r
  }

  /** Overwrites the value of a key already present. */
  function Replace<K(==), V>(s: seq<(K, V)>, k: K, v: V): (r: seq<(K, V)>)
    ensures Keys(r) == Keys(s)
  {
    if s == [] then []
    else if s[|s| - 1].0 == k then s[..|s| - 1] + [(k, v)]
    else Replace(s[..|s| - 1], k, v) + [s[|s| - 1]]
  }

  /** `d[k] = v`: a present key keeps its place, a new key goes last. */
  function Put<K(==), V>(s: seq<(K, V)>, k: K, v: V): (r: seq<(K, V)>)
    ensures Keys(r) == if k in Keys(s) then Keys(s) else Keys(s) + [k]
  {
    if k in Keys(s) then Replace(s, k, v) else s + [(k, v)]
  }

  /** In a dict, `Replace` changes exactly the item of `k`. */
  lemma {:induction false} ReplaceAt<K, V>(s: seq<(K, V)>, k: K, v: V)
    requires IsDict(s)
    ensures |Replace(s, k, v)| == |s|
    ensures forall i :: 0 <= i < |s| ==> Replace(s, k, v)[i] == if s[i].0 == k then (k, v) else s[i]
  {
    if s != [] {
      var init := s[..|s| - 1];
      assert Keys(init) == Keys(s)[..|s| - 1];
      assert IsDict(init);
      ReplaceAt(init, k, v);
      if s[|s| - 1].0 == k {
        forall i | 0 <= i < |init| ensures init[i].0 != k {
          assert Keys(s)[i] == init[i].0 && Keys(s)[|s| - 1] == k;
        }
        DictReplaceUnchanged(init, k, v);
      }
    }
  }

  lemma {:induction false} DictReplaceUnchanged<K, V>(s: seq<(K, V)>, k: K, v: V)
    requires forall i :: 0 <= i < |s| ==> s[i].0 != k
    ensures Replace(s, k, v) == s
  {
    if s != [] {
      var init := s[..|s| - 1];
      DictReplaceUnchanged(init, k, v);
    }
  }

  /** A prefix of a dict is a dict. */
  lemma IsDictPrefix<K, V>(s: seq<(K, V)>, n: nat)
    requires IsDict(s) && n <= |s|
    ensures IsDict(s[..n])
  {
    assert Keys(s[..n]) == Keys(s)[..n];
  }

  lemma {:induction false} ReplaceGet<K, V>(s: seq<(K, V)>, k: K, v: V, k': K)
    requires k in Keys(s)
    ensures Get(Replace(s, k, v), k') == if k' == k then Some(v) else Get(s, k')
  {
    var init := s[..|s| - 1];
    if s[|s| - 1].0 != k {
      assert Keys(s) == Keys(init) + [s[|s| - 1].0];
      ReplaceGet(init, k, v, k');
      assert Replace(s, k, v)[..|s| - 1] == Replace(init, k, v);
    } else {
      assert (s[..|s| - 1] + [(k, v)])[..|s| - 1] == init;
    }
  }

  lemma {:induction false} GetAppend<K, V>(s: seq<(K, V)>, k: K, v: V, k': K)
    ensures Get(s + [(k, v)], k') == if k' == k then Some(v) else Get(s, k')
  {
    assert (s + [(k, v)])[..|s|] == s;
  }

  /** After `d[k] = v`, reading `k` gives `v` and every other key reads as before. */
  lemma PutGet<K, V>(s: seq<(K, V)>, k: K, v: V, k': K)
    ensures Get(Put(s, k, v), k') == if k' == k then Some(v) else Get(s, k')
  {
    if k in Keys(s) {
      ReplaceGet(s, k, v, k');
    } else {
      GetAppend(s, k, v, k');
    }
  }

  /** Assignment keeps a dict a dict. */
  lemma PutIsDict<K, V>(s: seq<(K, V)>, k: K, v: V)
    requires IsDict(s)
    ensures IsDict(Put(s, k, v))
  {
  }

  /** In a dict, an item that is present is the one `Get` finds. */
  lemma {:induction false} DictItemIsGet<K, V>(s: seq<(K, V)>, i: int)
    requires IsDict(s) && 0 <= i < |s|
    ensures Get(s, s[i].0) == Some(s[i].1)
  {
    var init := s[..|s| - 1];
    if i < |s| - 1 {
      assert Keys(s)[i] == s[i].0 && Keys(s)[|s| - 1] == s[|s| - 1].0;
      assert IsDict(init) by {
        assert Keys(init) == Keys(s)[..|s| - 1];
      }
      assert init[i] == s[i];
      DictItemIsGet(init, i);
    }
  }

  /** The distinct elements of `s`, each where it first occurs: the keys of a dict
      built by assigning the elements of `s` in order. */
  function Dedup<T(==)>(s: seq<T>): (r: seq<T>)
    ensures Distinct(r)
    ensures multiset(r) <= multiset(s)
    ensures forall i :: 0 <= i < |s| ==> s[i] in r
  {
    if s == [] then []
    else
      var init := s[..|s| - 1];
      var x := s[|s| - 1];
      var prefix := Dedup(init);
      assert s == init + [x];
      assert forall i :: 0 <= i < |init| ==> s[i] == init[i];
      if x in prefix then prefix
      else
        assert forall y :: y in prefix ==> multiset(prefix)[y] > 0;
        prefix + [x]
  }

  lemma DedupMembers<T>(s: seq<T>)
    ensures forall x :: x in Dedup(s) <==> x in s
  {
    var r := Dedup(s);
    forall x | x in r ensures x in s {
      assert multiset(r)[x] > 0;
    }
  }

  /** Without repeats there is nothing to drop. */
  lemma {:induction false} DedupDistinct<T>(s: seq<T>)
    requires Distinct(s)
    ensures Dedup(s) == s
  {
    if s != [] {
      var init := s[..|s| - 1];
      var x := s[|s| - 1];
      assert forall i :: 0 <= i < |init| ==> init[i] == s[i];
      assert Distinct(init);
      DedupDistinct(init);
      assert x !in init by {
        forall i | 0 <= i < |init| ensures init[i] != x {
          assert s[i] != s[|s| - 1];
        }
      }
      assert Dedup(s) == init + [x];
      SplitAt(s, |s| - 1);
    }
  }

  /** The dict built by assigning `f(k)` to each `k` of `keys` in order. */
  function Tabulate<K(==), V>(keys: seq<K>, f: K -> V): seq<(K, V)> {
    if keys == [] then []
    else Put(Tabulate(keys[..|keys| - 1], f), keys[|keys| - 1], f(keys[|keys| - 1]))
  }

  /** One item per distinct key, in first-occurrence order, each holding its value. */
  lemma {:induction false} TabulateShape<K, V>(keys: seq<K>, f: K -> V)
    ensures Keys(Tabulate(keys, f)) == Dedup(keys)
    ensures var t := Tabulate(keys, f);
      forall i :: 0 <= i < |t| ==> t[i].1 == f(t[i].0)
  {
    if keys != [] {
      var init, k := keys[..|keys| - 1], keys[|keys| - 1];
      var prev := Tabulate(init, f);
      TabulateShape(init, f);
      if k in Keys(prev) {
        ReplaceAt(prev, k, f(k));
      }
    }
  }

  /** One more element of `s` considered: tabulating the kept elements of
      `s[..i + 1]` assigns `f(s[i])` when `s[i]` is kept and otherwise changes nothing. */
  lemma {:induction false} TabulateFilterStep<K, V>(s: seq<K>, i: int, p: K -> bool, f: K -> V)
    requires 0 <= i < |s|
    ensures Tabulate(Filter(s[..i + 1], p), f) ==
      if p(s[i]) then Put(Tabulate(Filter(s[..i], p), f), s[i], f(s[i])) else Tabulate(Filter(s[..i], p), f)
  {
    var init, x := s[..i], s[i];
    PrefixStep(s, i);
    FilterAppend(init, x, p);
    if p(x) {
      TabulateAppend(Filter(init, p), x, f);
    } else {
      assert Filter(s[..i + 1], p) == Filter(init, p);
    }
  }

  lemma {:induction false} TabulateAppend<K, V>(keys: seq<K>, k: K, f: K -> V)
    ensures Tabulate(keys + [k], f) == Put(Tabulate(keys, f), k, f(k))
  {
    assert (keys + [k])[..|keys|] == keys;
  }

  /** Re-ordering the items of a dict whose values are a function of their keys (as
      `sort_values` on a frame built by `Tabulate` does) keeps each key once, keeps
      the same keys, and keeps every value the function's. */
  lemma {:induction false} ReorderedDict<K, V>(a: seq<(K, V)>, b: seq<(K, V)>, f: K -> V)
    requires IsDict(a) && multiset(b) == multiset(a)
    requires forall i :: 0 <= i < |a| ==> a[i].1 == f(a[i].0)
    ensures forall e :: e in b ==> e in a && e.1 == f(e.0)
    ensures IsDict(b)
    ensures forall k :: k in Keys(b) <==> k in Keys(a)
  {
    ReorderedEntries(a, b);
    forall e | e in b ensures e.1 == f(e.0) {
      var i :| 0 <= i < |a| && a[i] == e;
    }
  }

  /** The same without a function of the keys: the items are those of `a`. */
  lemma {:induction false} ReorderedEntries<K, V>(a: seq<(K, V)>, b: seq<(K, V)>)
    requires IsDict(a) && multiset(b) == multiset(a)
    ensures forall e :: e in b ==> e in a
    ensures IsDict(b)
    ensures forall k :: k in Keys(b) <==> k in Keys(a)
  {
    forall e | e in b ensures e in a {
      assert multiset(b)[e] > 0;
    }
    assert Distinct(a) by {
      forall i, j | 0 <= i < j < |a| ensures a[i] != a[j] {
        assert Keys(a)[i] != Keys(a)[j];
      }
    }
    DistinctPermutation(a, b);
    forall i, j | 0 <= i < j < |b| ensures Keys(b)[i] != Keys(b)[j] {
      assert b[i] in b && b[j] in b;
      assert b[i] != b[j];
    }
    forall k ensures k in Keys(b) <==> k in Keys(a) {
      if k in Keys(a) {
        var i :| 0 <= i < |a| && Keys(a)[i] == k;
        assert multiset(a)[a[i]] > 0;
        var j :| 0 <= j < |b| && b[j] == a[i];
        assert Keys(b)[j] == k;
      }
      if k in Keys(b) {
        var j :| 0 <= j < |b| && Keys(b)[j] == k;
        assert b[j] in b;
        var i :| 0 <= i < |a| && a[i] == b[j];
        assert Keys(a)[i] == k;
      }
    }
  }

  function OnKey<K, V>(f: K -> real): ((K, V)) -> real {
    (e: (K, V)) => f(e.0)
  }

  /** A sum over the keys does not depend on the order of the items. */
  lemma {:induction false} KeysSumPermutation<K, V>(a: seq<(K, V)>, b: seq<(K, V)>, f: K -> real)
    requires multiset(b) == multiset(a)
    ensures SumOf(Keys(b), f) == SumOf(Keys(a), f)
  {
    SumOfPointwise(Keys(a), f, a, OnKey(f));
    SumOfPointwise(Keys(b), f, b, OnKey(f));
    SumOfPermutation(a, b, OnKey(f));
  }

  /** Sorting such a dict by any key. */
  lemma {:induction false} SortedDict<K, V>(t: seq<(K, V)>, key: ((K, V)) -> Option<real>, f: K -> V)
    requires IsDict(t)
    requires forall i :: 0 <= i < |t| ==> t[i].1 == f(t[i].0)
    ensures var r := SortBy(t, key);
      SortedBy(r, key) && IsDict(r) &&
      (forall k :: k in Keys(r) <==> k in Keys(t)) &&
      (forall e :: e in r ==> e.1 == f(e.0))
  {
    ReorderedDict(t, SortBy(t, key), f);
  }
}
