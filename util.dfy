/** Shared building blocks: optional values (the model's NaN), the errors the
    modelled code can raise, integer powers, sums that skip absent values,
    first-occurrence removal and a stable sort by an optional key. */
module Util {

  /** An optional value; `None` stands for the source's NaN / missing entry. */
  datatype Option<+T> = None | Some(value: T) {
    function GetOr(default: T): T {
      if Some? then value else default
    }
  }

  /** The exceptions the modelled code can raise. */
  datatype Error =
    | KeyError(key: string)
    | IdKeyError(id: int)          // KeyError on an integer (champion id) key
    | AttributeError(name: string)
    | ZeroDivisionError
    | TypeError
    | ValueError
    | IndexError
    | AssertionError

  /** Either a value or the exception that aborted the computation. */
  datatype Result<+T> = Ok(value: T) | Err(error: Error) {
    predicate IsFailure() {
      Err?
    }

    function PropagateFailure<U>(): Result<U>
      requires Err?
    {
      Err(error)
    }

    function Extract(): T
      requires Ok?
    {
      value
    }
  }

  /** `x ** k` for a natural exponent. */
  function Pow(x: real, k: nat): real {
    if k == 0 then 1.0 else x * Pow(x, k - 1)
  }

  lemma {:induction false} PowInUnit(x: real, k: nat)
    requires 0.0 <= x <= 1.0
    ensures 0.0 <= Pow(x, k) <= 1.0
  {
    if k > 0 {
      PowInUnit(x, k - 1);
      var p := Pow(x, k - 1);
      assert 0.0 <= x * p <= p by {
        MulBetween(x, p);
      }
    }
  }

  /** For 0 <= a <= 1 and b >= 0, the product lies between 0 and b. */
  lemma MulBetween(a: real, b: real)
    requires 0.0 <= a <= 1.0 && 0.0 <= b
    ensures 0.0 <= a * b <= b
  {
    assert b - a * b == (1.0 - a) * b;
  }

  /** A share of a positive whole lies in [0, 1]. */
  lemma DivInUnit(a: real, b: real)
    requires 0.0 <= a <= b && 0.0 < b
    ensures 0.0 <= a / b <= 1.0
  {
    assert a / b * b == a;
    assert b / b == 1.0;
  }

  /** Sum of a sequence of reals. */
  function Sum(xs: seq<real>): real {
    if xs == [] then 0.0 else Sum(xs[..|xs| - 1]) + xs[|xs| - 1]
  }

  /** Sum that skips absent entries, as pandas' `Series.sum()` skips NaN. */
  function SumDefined(xs: seq<Option<real>>): real {
    if xs == [] then 0.0 else SumDefined(xs[..|xs| - 1]) + xs[|xs| - 1].GetOr(0.0)
  }

  lemma {:induction false} SumAppend(xs: seq<real>, ys: seq<real>)
    ensures Sum(xs + ys) == Sum(xs) + Sum(ys)
  {
    if ys == [] {
      assert xs + ys == xs;
    } else {
      assert (xs + ys)[..|xs + ys| - 1] == xs + ys[..|ys| - 1];
      SumAppend(xs, ys[..|ys| - 1]);
    }
  }

  predicate Distinct<T(==)>(s: seq<T>) {
    forall i, j :: 0 <= i < j < |s| ==> s[i] != s[j]
  }

  /** `list.remove(x)` guarded by `x in list`: drops the first occurrence, if any. */
  function RemoveFirst<T(==)>(s: seq<T>, x: T): seq<T> {
    if s == [] then []
    else if s[0] == x then s[1..] else [s[0]] + RemoveFirst(s[1..], x)
  }

  /** Exactly one occurrence of `x`, if there is one, is dropped. */
  lemma {:induction false} RemoveFirstMultiset<T>(s: seq<T>, x: T)
    ensures multiset(RemoveFirst(s, x)) == multiset(s) - multiset{x}
  {
    if s != [] {
      assert s == [s[0]] + s[1..];
      RemoveFirstMultiset(s[1..], x);
    }
  }

  /** Without an occurrence there is nothing to drop. */
  lemma {:induction false} RemoveFirstAbsent<T>(s: seq<T>, x: T)
    requires x !in s
    ensures RemoveFirst(s, x) == s
  {
    if s != [] {
      assert s == [s[0]] + s[1..];
      RemoveFirstAbsent(s[1..], x);
    }
  }

  lemma DistinctRemoveFirst<T>(s: seq<T>, x: T)
    requires Distinct(s)
    ensures Distinct(RemoveFirst(s, x))
    ensures forall y :: y in RemoveFirst(s, x) <==> y in s && y != x
  {
    var r := RemoveFirst(s, x);
    RemoveFirstMultiset(s, x);
    DistinctMultiplicity(s);
    forall y ensures y in r <==> y in s && y != x {
      assert y in r <==> multiset(r)[y] > 0;
      assert y in s <==> multiset(s)[y] > 0;
    }
    forall i, j | 0 <= i < j < |r| ensures r[i] != r[j] {
      if r[i] == r[j] {
        assert multiset(r)[r[i]] >= 2 by {
          MultiplicityTwo(r, i, j);
        }
      }
    }
  }

  lemma {:induction false} DistinctMultiplicity<T>(s: seq<T>)
    requires Distinct(s)
    ensures forall y :: multiset(s)[y] <= 1
  {
    if s != [] {
      var t := s[..|s| - 1];
      assert s == t + [s[|s| - 1]];
      assert Distinct(t);
      DistinctMultiplicity(t);
      assert s[|s| - 1] !in t;
      assert multiset(s) == multiset(t) + multiset{s[|s| - 1]};
    }
  }

  lemma MultiplicityTwo<T>(s: seq<T>, i: nat, j: nat)
    requires i < j < |s| && s[i] == s[j]
    ensures multiset(s)[s[i]] >= 2
  {
    assert s == s[..i] + [s[i]] + s[i + 1..j] + [s[j]] + s[j + 1..];
  }

  /** The total preorder used by every sort: defined keys ascending, absent keys last
      (pandas' `na_position="last"`). */
  predicate KeyLt(a: Option<real>, b: Option<real>) {
    a.Some? && (b.None? || a.value < b.value)
  }

  /** Negated key, so that sorting ascending by it sorts descending by the original
      key while still placing absent keys last. */
  function Negated(a: Option<real>): Option<real> {
    if a.Some? then Some(-a.value) else None
  }

  ghost predicate SortedBy<T>(s: seq<T>, key: T -> Option<real>) {
    forall i, j :: 0 <= i < j < |s| ==> !KeyLt(key(s[j]), key(s[i]))
  }

  /** Inserts `x` after every element whose key is not greater (keeps the sort stable). */
  function InsertBy<T>(x: T, s: seq<T>, key: T -> Option<real>): (r: seq<T>)
    requires SortedBy(s, key)
    ensures SortedBy(r, key)
    ensures multiset(r) == multiset(s) + multiset{x}
    ensures |r| == |s| + 1
  {
    if s == [] then [x]
    else if KeyLt(key(x), key(s[0])) then [x] + s
    else
      assert s == [s[0]] + s[1..];
      var tail := InsertBy(x, s[1..], key);
      InsertByTailAbove(x, s, tail, key);
      [s[0]] + tail
  }

  lemma InsertByTailAbove<T>(x: T, s: seq<T>, tail: seq<T>, key: T -> Option<real>)
    requires s != [] && SortedBy(s, key) && !KeyLt(key(x), key(s[0]))
    requires SortedBy(tail, key) && multiset(tail) == multiset(s[1..]) + multiset{x}
    ensures SortedBy([s[0]] + tail, key)
  {
    forall j | 0 <= j < |tail| ensures !KeyLt(key(tail[j]), key(s[0])) {
      assert multiset(tail)[tail[j]] > 0;
      if tail[j] != x {
        assert tail[j] in s[1..];
        var k :| 0 <= k < |s[1..]| && s[1..][k] == tail[j];
        assert s[k + 1] == tail[j];
      }
    }
    var r := [s[0]] + tail;
    forall i, j | 0 <= i < j < |r| ensures !KeyLt(key(r[j]), key(r[i])) {
      if i == 0 {
        assert r[j] == tail[j - 1];
      } else {
        assert r[i] == tail[i - 1] && r[j] == tail[j - 1];
      }
    }
  }

  /** Stable insertion sort by an optional key, absent keys last. */
  function SortBy<T>(s: seq<T>, key: T -> Option<real>): (r: seq<T>)
    ensures SortedBy(r, key)
    ensures multiset(r) == multiset(s)
    ensures |r| == |s|
  {
    if s == [] then []
    else
      var init := s[..|s| - 1];
      assert s == init + [s[|s| - 1]];
      InsertBy(s[|s| - 1], SortBy(init, key), key)
  }

  lemma SortByMembers<T>(s: seq<T>, key: T -> Option<real>)
    ensures forall y :: y in SortBy(s, key) <==> y in s
  {
    var r := SortBy(s, key);
    forall y ensures y in r <==> y in s {
      assert y in r <==> multiset(r)[y] > 0;
      assert y in s <==> multiset(s)[y] > 0;
    }
  }

  lemma WholeSlice<T>(s: seq<T>)
    ensures s[..|s|] == s
  {
  }

  lemma PrefixStep<T>(s: seq<T>, i: int)
    requires 0 <= i < |s|
    ensures s[..i + 1] == s[..i] + [s[i]]
  {
  }

  lemma SplitAt<T>(s: seq<T>, n: int)
    requires 0 <= n <= |s|
    ensures s == s[..n] + s[n..]
  {
  }

  lemma AppendAssoc<T>(a: seq<T>, b: seq<T>, c: seq<T>)
    ensures (a + b) + c == a + (b + c)
  {
  }

  lemma Regroup<T>(a: seq<T>, b: seq<T>, c: seq<T>, d: seq<T>)
    ensures (a + (b + c)) + d == (a + b) + (c + d)
  {
  }

  /** Two repeat-free sequences with nothing in common concatenate without repeats. */
  lemma DistinctConcat<T>(a: seq<T>, b: seq<T>)
    requires Distinct(a) && Distinct(b)
    requires forall x :: x in a ==> x !in b
    ensures Distinct(a + b)
  {
    forall i, j | 0 <= i < j < |a + b| ensures (a + b)[i] != (a + b)[j] {
      if i < |a| && j >= |a| {
        assert (a + b)[i] in a && (a + b)[j] == b[j - |a|];
      }
    }
  }

  lemma DistinctPermutation<T>(s: seq<T>, r: seq<T>)
    requires Distinct(s) && multiset(r) == multiset(s)
    ensures Distinct(r)
  {
    DistinctMultiplicity(s);
    forall i, j | 0 <= i < j < |r| ensures r[i] != r[j] {
      if r[i] == r[j] {
        MultiplicityTwo(r, i, j);
      }
    }
  }

  /** No element of a sorted sequence has a smaller key than its head. */
  lemma SortedHeadLeast<T>(s: seq<T>, key: T -> Option<real>, x: T)
    requires SortedBy(s, key) && x in s
    ensures !KeyLt(key(x), key(s[0]))
  {
    var j :| 0 <= j < |s| && s[j] == x;
    if j != 0 {
      assert !KeyLt(key(s[j]), key(s[0]));
    }
  }

  /** Removing an element keeps a sorted sequence sorted. */
  lemma {:induction false} SortedRemoveFirst<T>(s: seq<T>, x: T, key: T -> Option<real>)
    requires SortedBy(s, key)
    ensures SortedBy(RemoveFirst(s, x), key)
  {
    if s != [] && s[0] != x {
      assert SortedBy(s[1..], key) by {
        forall i, j | 0 <= i < j < |s[1..]| ensures !KeyLt(key(s[1..][j]), key(s[1..][i])) {
          assert s[1..][j] == s[j + 1] && s[1..][i] == s[i + 1];
        }
      }
      SortedRemoveFirst(s[1..], x, key);
      var t := RemoveFirst(s[1..], x);
      RemoveFirstMultiset(s[1..], x);
      forall y | y in t ensures y in s[1..] {
        assert multiset(t)[y] > 0;
      }
      forall j | 0 <= j < |t| ensures !KeyLt(key(t[j]), key(s[0])) {
        assert t[j] in t;
        var k :| 0 <= k < |s[1..]| && s[1..][k] == t[j];
        assert s[k + 1] == t[j];
      }
    }
  }

  /** The elements of `s` satisfying `p`, in order (a list comprehension with a condition). */
  function Filter<T>(s: seq<T>, p: T -> bool): (r: seq<T>)
    ensures |r| <= |s|
  {
    if s == [] then [] else Filter(s[..|s| - 1], p) + (if p(s[|s| - 1]) then [s[|s| - 1]] else [])
  }

  lemma {:induction false} FilterMembers<T>(s: seq<T>, p: T -> bool)
    ensures forall x :: x in Filter(s, p) <==> x in s && p(x)
  {
    if s != [] {
      var init := s[..|s| - 1];
      FilterMembers(init, p);
      assert s == init + [s[|s| - 1]];
    }
  }

  lemma FilterAppend<T>(s: seq<T>, x: T, p: T -> bool)
    ensures Filter(s + [x], p) == Filter(s, p) + if p(x) then [x] else []
  {
    assert (s + [x])[..|s|] == s;
  }

  /** `sum(f(x) for x in s)`. */
  function SumOf<T>(s: seq<T>, f: T -> real): real {
    if s == [] then 0.0 else SumOf(s[..|s| - 1], f) + f(s[|s| - 1])
  }

  lemma {:induction false} SumOfConcat<T>(a: seq<T>, b: seq<T>, f: T -> real)
    ensures SumOf(a + b, f) == SumOf(a, f) + SumOf(b, f)
  {
    if b == [] {
      assert a + b == a;
    } else {
      var init := b[..|b| - 1];
      assert (a + b)[..|a + b| - 1] == a + init;
      SumOfConcat(a, init, f);
    }
  }

  lemma SumOfSingle<T>(x: T, f: T -> real)
    ensures SumOf([x], f) == f(x)
  {
    assert [x][..0] == [];
  }

  /** A sum does not depend on the order of its terms. */
  lemma {:induction false} SumOfPermutation<T>(a: seq<T>, b: seq<T>, f: T -> real)
    requires multiset(a) == multiset(b)
    ensures SumOf(a, f) == SumOf(b, f)
  {
    if a == [] {
      assert |b| == |multiset(b)| == 0;
    } else {
      var init := a[..|a| - 1];
      var x := a[|a| - 1];
      assert a == init + [x];
      assert x in multiset(b);
      var j :| 0 <= j < |b| && b[j] == x;
      var rest := b[..j] + b[j + 1..];
      assert b == b[..j] + [x] + b[j + 1..];
      assert multiset(b) == multiset(b[..j]) + multiset{x} + multiset(b[j + 1..]);
      assert multiset(a) == multiset(init) + multiset{x};
      assert multiset(rest) == multiset(b[..j]) + multiset(b[j + 1..]);
      assert multiset(init) == multiset(a) - multiset{x};
      assert multiset(rest) == multiset(b) - multiset{x};
      SumOfPermutation(init, rest, f);
      SumOfConcat(b[..j], b[j + 1..], f);
      SumOfConcat(b[..j] + [x], b[j + 1..], f);
      SumOfConcat(b[..j], [x], f);
      SumOfSingle(x, f);
    }
  }

  /** Sums of termwise equal sequences are equal. */
  lemma {:induction false} SumOfPointwise<T, U>(a: seq<T>, f: T -> real, b: seq<U>, g: U -> real)
    requires |a| == |b| && forall i :: 0 <= i < |a| ==> f(a[i]) == g(b[i])
    ensures SumOf(a, f) == SumOf(b, g)
  {
    if a != [] {
      SumOfPointwise(a[..|a| - 1], f, b[..|b| - 1], g);
    }
  }

  /** Dividing every term divides the sum. */
  lemma {:induction false} SumOfDivided<T, U>(a: seq<T>, f: T -> real, b: seq<U>, g: U -> real, d: real)
    requires d != 0.0
    requires |a| == |b| && forall i :: 0 <= i < |a| ==> g(b[i]) == f(a[i]) / d
    ensures SumOf(b, g) == SumOf(a, f) / d
  {
    if a != [] {
      SumOfDivided(a[..|a| - 1], f, b[..|b| - 1], g, d);
      var x, y := SumOf(a[..|a| - 1], f), f(a[|a| - 1]);
      assert x / d + y / d == (x + y) / d;
    }
  }

  /** Positive terms make a positive sum exactly when there is a term. */
  lemma {:induction false} SumOfPositive<T>(s: seq<T>, f: T -> real)
    requires forall i :: 0 <= i < |s| ==> f(s[i]) > 0.0
    ensures s == [] <==> SumOf(s, f) == 0.0
    ensures SumOf(s, f) >= 0.0
  {
    if s != [] {
      SumOfPositive(s[..|s| - 1], f);
    }
  }

  lemma {:induction false} SumOfZero<T>(s: seq<T>, f: T -> real)
    requires forall i :: 0 <= i < |s| ==> f(s[i]) == 0.0
    ensures SumOf(s, f) == 0.0
  {
    if s != [] {
      SumOfZero(s[..|s| - 1], f);
    }
  }

  lemma {:induction false} FilterNone<T>(s: seq<T>, p: T -> bool)
    requires forall i :: 0 <= i < |s| ==> !p(s[i])
    ensures Filter(s, p) == []
  {
    if s != [] {
      FilterNone(s[..|s| - 1], p);
    }
  }

  /** Sums of termwise sums add. */
  lemma {:induction false} SumOfAdd<T>(s: seq<T>, f: T -> real, g: T -> real, h: T -> real)
    requires forall i :: 0 <= i < |s| ==> h(s[i]) == f(s[i]) + g(s[i])
    ensures SumOf(s, h) == SumOf(s, f) + SumOf(s, g)
  {
    if s != [] {
      SumOfAdd(s[..|s| - 1], f, g, h);
    }
  }

  /** `v` at `c` and 0 elsewhere. */
  function Spot<T(==)>(c: T, v: real): T -> real {
    (x: T) => if x == c then v else 0.0
  }

  lemma {:induction false} SpotAbsent<T>(s: seq<T>, c: T, v: real)
    requires c !in s
    ensures SumOf(s, Spot(c, v)) == 0.0
  {
    if s != [] {
      SpotAbsent(s[..|s| - 1], c, v);
    }
  }

  /** Over distinct elements, a spot function sums to its one value. */
  lemma {:induction false} SpotSum<T>(s: seq<T>, c: T, v: real)
    requires Distinct(s) && c in s
    ensures SumOf(s, Spot(c, v)) == v
  {
    var init := s[..|s| - 1];
    assert forall i :: 0 <= i < |init| ==> init[i] == s[i];
    assert Distinct(init);
    if s[|s| - 1] == c {
      assert c !in init by {
        forall i | 0 <= i < |init| ensures init[i] != c {
          assert s[i] != s[|s| - 1];
        }
      }
      SpotAbsent(init, c, v);
    } else {
      assert c in init by {
        var j :| 0 <= j < |s| && s[j] == c;
        assert init[j] == c;
      }
      SpotSum(init, c, v);
    }
  }

  lemma {:induction false} SumOfNonNegative<T>(s: seq<T>, f: T -> real)
    requires forall i :: 0 <= i < |s| ==> f(s[i]) >= 0.0
    ensures SumOf(s, f) >= 0.0
  {
    if s != [] {
      SumOfNonNegative(s[..|s| - 1], f);
    }
  }

  /** Dropping non-negative terms can only lower a sum. */
  lemma {:induction false} SumOfFilterAtMost<T>(s: seq<T>, p: T -> bool, f: T -> real)
    requires forall i :: 0 <= i < |s| ==> f(s[i]) >= 0.0
    ensures 0.0 <= SumOf(Filter(s, p), f) <= SumOf(s, f)
  {
    if s != [] {
      var init, x := s[..|s| - 1], s[|s| - 1];
      SumOfFilterAtMost(init, p, f);
      if p(x) {
        SumOfConcat(Filter(init, p), [x], f);
        SumOfSingle(x, f);
      } else {
        assert Filter(s, p) == Filter(init, p);
      }
    }
  }

  /** Some element of a non-empty sequence passes `p` exactly when one of its prefix
      does or its last element does. */
  lemma AnyUnfold<T>(s: seq<T>, init: seq<T>, p: T -> bool)
    requires s != [] && init == s[..|s| - 1]
    ensures (exists i :: 0 <= i < |s| && p(s[i])) <==> (exists i :: 0 <= i < |init| && p(init[i])) || p(s[|s| - 1])
  {
    if exists i :: 0 <= i < |s| && p(s[i]) {
      var i :| 0 <= i < |s| && p(s[i]);
      if i < |init| {
        assert init[i] == s[i];
      }
    }
    if exists i :: 0 <= i < |init| && p(init[i]) {
      var i :| 0 <= i < |init| && p(init[i]);
      assert s[i] == init[i];
    }
  }

  /** With positive terms, a filtered sum is positive exactly when some term passes. */
  lemma {:induction false} SumOfFilterPositive<T>(s: seq<T>, p: T -> bool, f: T -> real)
    requires forall i :: 0 <= i < |s| ==> f(s[i]) > 0.0
    ensures SumOf(Filter(s, p), f) > 0.0 <==> exists i :: 0 <= i < |s| && p(s[i])
  {
    if s != [] {
      var init, x := s[..|s| - 1], s[|s| - 1];
      assert forall i :: 0 <= i < |init| ==> f(init[i]) > 0.0 by {
        forall i | 0 <= i < |init| ensures f(init[i]) > 0.0 {
          assert init[i] == s[i];
        }
      }
      SumOfFilterPositive(init, p, f);
      SumOfFilterAtMost(init, p, f);
      AnyUnfold(s, init, p);
      if p(x) {
        SumOfConcat(Filter(init, p), [x], f);
        SumOfSingle(x, f);
      } else {
        assert Filter(s, p) == Filter(init, p);
      }
    }
  }

  /** `s[:3]`. */
  function Take3<T>(s: seq<T>): (r: seq<T>)
    ensures |r| == if |s| < 3 then |s| else 3
    ensures r == s[..|r|]
  {
    if |s| < 3 then s else s[..3]
  }

  /** The values of a run of computations that stops at the first exception. */
  function Collect<T>(rs: seq<Result<T>>): (r: Result<seq<T>>)
    ensures r.Ok? ==> |r.value| == |rs|
  {
    if rs == [] then Ok([])
    else
      var prev :- Collect(rs[..|rs| - 1]);
      var x :- rs[|rs| - 1];
      Ok(prev + [x])
  }

  lemma CollectAppend<T>(rs: seq<Result<T>>, x: Result<T>)
    ensures Collect(rs + [x]) ==
      if Collect(rs).Err? then Collect(rs)
      else if x.Err? then Err(x.error)
      else Ok(Collect(rs).value + [x.value])
  {
    assert (rs + [x])[..|rs|] == rs;
  }

  /** The run succeeds exactly when every step does, and then holds every value; a
      failed run reports the exception of a failed step. */
  lemma {:induction false} CollectPointwise<T>(rs: seq<Result<T>>)
    ensures Collect(rs).Ok? <==> forall i :: 0 <= i < |rs| ==> rs[i].Ok?
    ensures Collect(rs).Ok? ==> forall i :: 0 <= i < |rs| ==> Collect(rs).value[i] == rs[i].value
    ensures Collect(rs).Err? ==> exists k :: 0 <= k < |rs| && rs[k].Err? && Collect(rs).error == rs[k].error
  {
    if rs != [] {
      var init := rs[..|rs| - 1];
      assert forall i :: 0 <= i < |init| ==> init[i] == rs[i];
      CollectPointwise(init);
    }
  }

  /** Once a prefix fails, the whole run fails with the same exception. */
  lemma {:induction false} CollectStop<T>(rs: seq<Result<T>>, k: int)
    requires 0 <= k <= |rs| && Collect(rs[..k]).Err?
    ensures Collect(rs) == Collect(rs[..k])
    decreases |rs| - k
  {
    if k < |rs| {
      assert rs[..k + 1] == rs[..k] + [rs[k]];
      CollectAppend(rs[..k], rs[k]);
      CollectStop(rs, k + 1);
    } else {
      assert rs[..k] == rs;
    }
  }

  /** One step of a loop that collects `rs` and stops at the first exception. */
  lemma CollectStep<T>(rs: seq<Result<T>>, i: int, done: seq<T>)
    requires 0 <= i < |rs| && Collect(rs[..i]) == Ok(done)
    ensures rs[i].Ok? ==> Collect(rs[..i + 1]) == Ok(done + [rs[i].value])
    ensures rs[i].Err? ==> Collect(rs) == Err(rs[i].error)
  {
    PrefixStep(rs, i);
    CollectAppend(rs[..i], rs[i]);
    if rs[i].Err? {
      CollectStop(rs, i + 1);
    }
  }

  /** Termwise smaller terms give a smaller sum. */
  lemma {:induction false} SumOfMonotone<T>(s: seq<T>, f: T -> real, g: T -> real)
    requires forall i :: 0 <= i < |s| ==> f(s[i]) <= g(s[i])
    ensures SumOf(s, f) <= SumOf(s, g)
  {
    if s != [] {
      SumOfMonotone(s[..|s| - 1], f, g);
    }
  }

  /** Each weight times `c`. */
  function Scaled<T>(w: T -> real, c: real): T -> real {
    (x: T) => w(x) * c
  }

  lemma {:induction false} SumOfScaled<T>(s: seq<T>, w: T -> real, c: real)
    ensures SumOf(s, Scaled(w, c)) == SumOf(s, w) * c
  {
    if s != [] {
      SumOfScaled(s[..|s| - 1], w, c);
    }
  }

  /** The index of a least term of a sequence that is not empty. */
  lemma {:induction false} Least<T>(s: seq<T>, x: T -> real) returns (j: int)
    requires s != []
    ensures 0 <= j < |s| && forall i :: 0 <= i < |s| ==> x(s[j]) <= x(s[i])
  {
    var init := s[..|s| - 1];
    var last := |s| - 1;
    if init == [] {
      j := last;
    } else {
      var lo := Least(init, x);
      assert forall i :: 0 <= i < |init| ==> init[i] == s[i];
      j := if x(s[last]) < x(s[lo]) then last else lo;
    }
  }

  /** The index of a greatest term of a sequence that is not empty. */
  lemma {:induction false} Greatest<T>(s: seq<T>, x: T -> real) returns (k: int)
    requires s != []
    ensures 0 <= k < |s| && forall i :: 0 <= i < |s| ==> x(s[i]) <= x(s[k])
  {
    var init := s[..|s| - 1];
    var last := |s| - 1;
    if init == [] {
      k := last;
    } else {
      var hi := Greatest(init, x);
      assert forall i :: 0 <= i < |init| ==> init[i] == s[i];
      k := if x(s[hi]) < x(s[last]) then last else hi;
    }
  }

  /** `w(x) * v(x)`, a value weighted by its weight. */
  function Weighted<T>(w: T -> real, v: T -> real): T -> real {
    (x: T) => w(x) * v(x)
  }

  lemma WeightedAtLeast<T>(s: seq<T>, w: T -> real, v: T -> real, c: real)
    requires forall i :: 0 <= i < |s| ==> w(s[i]) >= 0.0 && c <= v(s[i])
    ensures SumOf(s, w) * c <= SumOf(s, Weighted(w, v))
  {
    forall i | 0 <= i < |s| ensures Scaled(w, c)(s[i]) <= Weighted(w, v)(s[i]) {
      MulMonotone(w(s[i]), c, v(s[i]));
    }
    SumOfMonotone(s, Scaled(w, c), Weighted(w, v));
    SumOfScaled(s, w, c);
  }

  lemma WeightedAtMost<T>(s: seq<T>, w: T -> real, v: T -> real, c: real)
    requires forall i :: 0 <= i < |s| ==> w(s[i]) >= 0.0 && v(s[i]) <= c
    ensures SumOf(s, Weighted(w, v)) <= SumOf(s, w) * c
  {
    forall i | 0 <= i < |s| ensures Weighted(w, v)(s[i]) <= Scaled(w, c)(s[i]) {
      MulMonotone(w(s[i]), v(s[i]), c);
    }
    SumOfMonotone(s, Weighted(w, v), Scaled(w, c));
    SumOfScaled(s, w, c);
  }

  /** A weighted mean of values all at least `c` is at least `c`. */
  lemma WeightedMeanAbove<T>(s: seq<T>, w: T -> real, v: T -> real, c: real)
    requires forall i :: 0 <= i < |s| ==> w(s[i]) >= 0.0 && c <= v(s[i])
    requires SumOf(s, w) > 0.0
    ensures c <= SumOf(s, Weighted(w, v)) / SumOf(s, w)
  {
    WeightedAtLeast(s, w, v, c);
    DivAtLeast(SumOf(s, w), SumOf(s, Weighted(w, v)), c);
  }

  /** A weighted mean of values all at most `c` is at most `c`. */
  lemma WeightedMeanBelow<T>(s: seq<T>, w: T -> real, v: T -> real, c: real)
    requires forall i :: 0 <= i < |s| ==> w(s[i]) >= 0.0 && v(s[i]) <= c
    requires SumOf(s, w) > 0.0
    ensures SumOf(s, Weighted(w, v)) / SumOf(s, w) <= c
  {
    WeightedAtMost(s, w, v, c);
    DivAtMost(SumOf(s, w), SumOf(s, Weighted(w, v)), c);
  }

  /** A weighted mean with non-negative weights of positive total lies between the
      least and the greatest of the values. */
  lemma WeightedMeanBounds<T>(s: seq<T>, w: T -> real, v: T -> real)
    requires forall i :: 0 <= i < |s| ==> w(s[i]) >= 0.0
    requires SumOf(s, w) > 0.0
    ensures exists j :: 0 <= j < |s| && v(s[j]) <= SumOf(s, Weighted(w, v)) / SumOf(s, w)
    ensures exists k :: 0 <= k < |s| && SumOf(s, Weighted(w, v)) / SumOf(s, w) <= v(s[k])
  {
    assert s != [];
    var j := Least(s, v);
    var k := Greatest(s, v);
    WeightedMeanAbove(s, w, v, v(s[j]));
    WeightedMeanBelow(s, w, v, v(s[k]));
  }

  lemma MulMonotone(a: real, b: real, c: real)
    requires a >= 0.0 && b <= c
    ensures a * b <= a * c
  {
  }

  lemma DivAtLeast(d: real, m: real, c: real)
    requires d > 0.0 && d * c <= m
    ensures c <= m / d
  {
    assert m / d * d == m;
  }

  lemma DivAtMost(d: real, m: real, c: real)
    requires d > 0.0 && m <= d * c
    ensures m / d <= c
  {
    assert m / d * d == m;
  }

  /** `x` is in the concatenation of `f` over `s` exactly when it is in one `f(s[i])`. */
  lemma {:induction false} FlatMapMembers<T, U>(s: seq<T>, f: T -> seq<U>, x: U)
    ensures x in FlatMap(s, f) <==> exists i :: 0 <= i < |s| && x in f(s[i])
  {
    if s != [] {
      var init := s[..|s| - 1];
      FlatMapMembers(init, f, x);
      assert forall i :: 0 <= i < |init| ==> init[i] == s[i];
    }
  }

  /** A set that is not empty has a member to pick. */
  lemma NonEmpty(s: set<int>)
    requires s != {}
    ensures exists x :: x in s
  {
    if forall x :: x !in s {
      assert false;
    }
  }

  /** A loop that threads a state through the elements of `s`, leaving at the first
      exception a step raises. */
  function Fold<A, T>(a: A, s: seq<T>, step: (A, T) -> Result<A>): Result<A> {
    if s == [] then Ok(a)
    else
      var prev :- Fold(a, s[..|s| - 1], step);
      step(prev, s[|s| - 1])
  }

  /** Running a loop over `s + t` is running it over `s` and then, unless that
      raised, over `t`. */
  lemma {:induction false} FoldConcat<A, T>(a: A, s: seq<T>, t: seq<T>, step: (A, T) -> Result<A>)
    ensures Fold(a, s + t, step) == match Fold(a, s, step) case Err(e) => Err(e) case Ok(m) => Fold(m, t, step)
  {
    if t == [] {
      assert s + t == s;
    } else {
      var init := t[..|t| - 1];
      assert (s + t)[..|s + t| - 1] == s + init;
      assert (s + t)[|s + t| - 1] == t[|t| - 1];
      FoldConcat(a, s, init, step);
    }
  }

  lemma FoldSingle<A, T>(a: A, x: T, step: (A, T) -> Result<A>)
    ensures Fold(a, [x], step) == step(a, x)
  {
    assert [x][..0] == [];
  }

  /** The concatenation of `f(x)` over the elements `x` of `s` (nested loops, flattened). */
  function FlatMap<T, U>(s: seq<T>, f: T -> seq<U>): seq<U> {
    if s == [] then [] else FlatMap(s[..|s| - 1], f) + f(s[|s| - 1])
  }

  lemma {:induction false} FlatMapAppend<T, U>(a: seq<T>, b: seq<T>, f: T -> seq<U>)
    ensures FlatMap(a + b, f) == FlatMap(a, f) + FlatMap(b, f)
  {
    if b == [] {
      assert a + b == a;
    } else {
      var init := b[..|b| - 1];
      assert (a + b)[..|a + b| - 1] == a + init;
      assert (a + b)[|a + b| - 1] == b[|b| - 1];
      FlatMapAppend(a, init, f);
    }
  }

  /** One iteration of an outer loop whose body is an inner loop over `f(s[i])`: the
      state after it is the inner loop's, and an exception raised there is the
      exception of the whole loop. */
  lemma {:induction false} FoldLevelStep<A, T, U>(a0: A, s: seq<T>, i: int, f: T -> seq<U>, step: (A, U) -> Result<A>, a: A)
    requires 0 <= i < |s| && Fold(a0, FlatMap(s[..i], f), step) == Ok(a)
    ensures Fold(a0, FlatMap(s[..i + 1], f), step) == Fold(a, f(s[i]), step)
    ensures Fold(a, f(s[i]), step).Err? ==> Fold(a0, FlatMap(s, f), step) == Fold(a, f(s[i]), step)
  {
    PrefixStep(s, i);
    assert s[..i + 1][..i] == s[..i];
    FoldConcat(a0, FlatMap(s[..i], f), f(s[i]), step);
    if Fold(a, f(s[i]), step).Err? {
      SplitAt(s, i + 1);
      FlatMapAppend(s[..i + 1], s[i + 1..], f);
      FoldConcat(a0, FlatMap(s[..i + 1], f), FlatMap(s[i + 1..], f), step);
    }
  }

  /** One iteration of a loop over `s` itself. */
  lemma {:induction false} FoldStep<A, T>(a0: A, s: seq<T>, i: int, step: (A, T) -> Result<A>, a: A)
    requires 0 <= i < |s| && Fold(a0, s[..i], step) == Ok(a)
    ensures Fold(a0, s[..i + 1], step) == step(a, s[i])
    ensures step(a, s[i]).Err? ==> Fold(a0, s, step) == step(a, s[i])
  {
    PrefixStep(s, i);
    FoldConcat(a0, s[..i], [s[i]], step);
    FoldSingle(a, s[i], step);
    if step(a, s[i]).Err? {
      SplitAt(s, i + 1);
      FoldConcat(a0, s[..i + 1], s[i + 1..], step);
    }
  }
}
