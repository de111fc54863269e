/** The folds the report routes are built from: `reduce` sums, `filter`
    counts, dictionaries filled by `forEach` (kept in first-insertion order,
    the order `Object.keys` returns for non-numeric keys), a descending sort
    by a numeric score, an ascending sort of strings and `Math.max`. */
module Folds {
  import opened Common

  // ---------------------------------------------------------------- sums

  /** `s.reduce((acc, x) => acc + f(x), 0)` */
  function Sum<T>(s: seq<T>, f: T -> int): int {
    if s == [] then 0 else f(s[0]) + Sum(s[1..], f)
  }

  /** The mean of n values totalling `total`, 0 when there are none. */
  function MeanOf(total: int, n: nat): real {
    if n > 0 then total as real / n as real else 0.0
  }

  /** A mean times its count gives back the total. */
  lemma MeanOfTimes(m: real, total: int, n: nat)
    requires n > 0 && m == MeanOf(total, n)
    ensures m * n as real == total as real
  {
  }

  function SumReal<T>(s: seq<T>, f: T -> real): real {
    if s == [] then 0.0 else f(s[0]) + SumReal(s[1..], f)
  }

  lemma {:induction false} SumAppend<T>(a: seq<T>, b: seq<T>, f: T -> int)
    ensures Sum(a + b, f) == Sum(a, f) + Sum(b, f)
  {
    if a == [] {
      assert a + b == b;
    } else {
      assert (a + b)[1..] == a[1..] + b;
      SumAppend(a[1..], b, f);
    }
  }

  lemma SumLast<T>(s: seq<T>, f: T -> int)
    requires s != []
    ensures Sum(s, f) == Sum(s[..|s| - 1], f) + f(s[|s| - 1])
  {
    SumAppend(s[..|s| - 1], [s[|s| - 1]], f);
    assert s[..|s| - 1] + [s[|s| - 1]] == s;
  }

  lemma {:induction false} SumRealAppend<T>(a: seq<T>, b: seq<T>, f: T -> real)
    ensures SumReal(a + b, f) == SumReal(a, f) + SumReal(b, f)
  {
    if a == [] {
      assert a + b == b;
    } else {
      assert (a + b)[1..] == a[1..] + b;
      SumRealAppend(a[1..], b, f);
    }
  }

  lemma SumRealLast<T>(s: seq<T>, f: T -> real)
    requires s != []
    ensures SumReal(s, f) == SumReal(s[..|s| - 1], f) + f(s[|s| - 1])
  {
    SumRealAppend(s[..|s| - 1], [s[|s| - 1]], f);
    assert s[..|s| - 1] + [s[|s| - 1]] == s;
  }

  /** A sum of non-negative terms is non-negative. */
  lemma {:induction false} SumNonNegative<T>(s: seq<T>, f: T -> int)
    requires forall x :: x in s ==> f(x) >= 0
    ensures Sum(s, f) >= 0
  {
    if s != [] {
      assert forall x :: x in s[1..] ==> x in s;
      SumNonNegative(s[1..], f);
    }
  }

  // ------------------------------------------------------------- filters

  /** `s.filter(p)`, order preserved. */
  function Filter<T>(s: seq<T>, p: T -> bool): (r: seq<T>)
    ensures |r| <= |s|
    ensures forall x :: x in r ==> x in s && p(x)
    ensures forall x :: x in s && p(x) ==> x in r
  {
    if s == [] then []
    else if p(s[0]) then [s[0]] + Filter(s[1..], p)
    else Filter(s[1..], p)
  }

  /** No element occurs twice. */
  predicate NoDup<T(==)>(s: seq<T>) {
    forall i, j :: 0 <= i < j < |s| ==> s[i] != s[j]
  }

  /** Dropping the head of a duplicate-free list keeps it duplicate-free,
      and the head does not occur again. */
  lemma NoDupTail<T>(s: seq<T>)
    requires s != [] && NoDup(s)
    ensures NoDup(s[1..]) && s[0] !in s[1..]
  {
    forall i, j | 0 <= i < j < |s| - 1 ensures s[1..][i] != s[1..][j] {
      assert s[1..][i] == s[i + 1] && s[1..][j] == s[j + 1];
    }
    forall k | 0 <= k < |s| - 1 ensures s[1..][k] != s[0] {
      assert s[1..][k] == s[k + 1];
    }
  }

  /** A fresh head keeps a list duplicate-free. */
  lemma NoDupCons<T>(x: T, t: seq<T>)
    requires NoDup(t) && x !in t
    ensures NoDup([x] + t)
  {
    forall i, j | 0 <= i < j < |t| + 1 ensures ([x] + t)[i] != ([x] + t)[j] {
      assert ([x] + t)[j] == t[j - 1];
      if i > 0 {
        assert ([x] + t)[i] == t[i - 1];
      }
    }
  }

  lemma {:induction false} FilterNoDup<T>(s: seq<T>, p: T -> bool)
    requires NoDup(s)
    ensures NoDup(Filter(s, p))
  {
    if s != [] {
      NoDupTail(s);
      FilterNoDup(s[1..], p);
      if p(s[0]) {
        NoDupCons(s[0], Filter(s[1..], p));
      }
    }
  }

  lemma {:induction false} NoDupCount<T>(s: seq<T>, x: T)
    requires NoDup(s)
    ensures multiset(s)[x] <= 1
  {
    if s != [] {
      assert NoDup(s[1..]) by {
        forall i, j | 0 <= i < j < |s| - 1 ensures s[1..][i] != s[1..][j] {
          assert s[1..][i] == s[i + 1] && s[1..][j] == s[j + 1];
        }
      }
      NoDupCount(s[1..], x);
      assert s == [s[0]] + s[1..];
      if x == s[0] {
        assert x !in s[1..] by {
          forall k | 0 <= k < |s| - 1 ensures s[1..][k] != s[0] {
            assert s[1..][k] == s[k + 1];
          }
        }
      }
    }
  }

  /** A permutation of a duplicate-free sequence is duplicate-free. */
  lemma NoDupPermutation<T>(a: seq<T>, b: seq<T>)
    requires NoDup(a) && multiset(a) == multiset(b)
    ensures NoDup(b)
  {
    forall i, j | 0 <= i < j < |b| ensures b[i] != b[j] {
      if b[i] == b[j] {
        assert b == b[..i] + [b[i]] + b[i + 1..j] + [b[j]] + b[j + 1..];
        assert multiset(b)[b[i]] >= 2;
        NoDupCount(a, b[i]);
        assert false;
      }
    }
  }

  /** Filtering with a predicate every element meets keeps the sequence. */
  lemma {:induction false} FilterAll<T>(s: seq<T>, p: T -> bool)
    requires forall x :: x in s ==> p(x)
    ensures Filter(s, p) == s
  {
    if s != [] {
      assert forall x :: x in s[1..] ==> x in s;
      FilterAll(s[1..], p);
      assert s == [s[0]] + s[1..];
    }
  }

  /** `s.filter(p).length` */
  function Count<T>(s: seq<T>, p: T -> bool): nat {
    |Filter(s, p)|
  }

  /** Filtering one more element keeps it last exactly when it passes. */
  lemma {:induction false} FilterSnoc<T>(s: seq<T>, x: T, p: T -> bool)
    ensures Filter(s + [x], p) == Filter(s, p) + (if p(x) then [x] else [])
  {
    if s == [] {
      assert s + [x] == [x];
    } else {
      assert (s + [x])[1..] == s[1..] + [x];
      FilterSnoc(s[1..], x, p);
    }
  }

  /** Counting over one more element. */
  lemma {:induction false} CountSnoc<T>(s: seq<T>, x: T, p: T -> bool)
    ensures Count(s + [x], p) == Count(s, p) + (if p(x) then 1 else 0)
  {
    if s == [] {
      assert s + [x] == [x];
    } else {
      assert (s + [x])[1..] == s[1..] + [x];
      CountSnoc(s[1..], x, p);
    }
  }

  /** Every element is counted exactly when each one meets the predicate. */
  lemma {:induction false} CountAll<T>(s: seq<T>, p: T -> bool)
    ensures Count(s, p) == |s| <==> forall i :: 0 <= i < |s| ==> p(s[i])
  {
    if s != [] {
      CountAll(s[1..], p);
      if forall i :: 0 <= i < |s| ==> p(s[i]) {
        assert forall i :: 0 <= i < |s| - 1 ==> p(s[1..][i]) by {
          forall i | 0 <= i < |s| - 1 ensures p(s[1..][i]) {
            assert s[1..][i] == s[i + 1];
          }
        }
      } else {
        var k :| 0 <= k < |s| && !p(s[k]);
        if k > 0 {
          assert s[1..][k - 1] == s[k];
        }
      }
    }
  }

  lemma {:induction false} CountNone<T>(s: seq<T>, p: T -> bool)
    requires forall x :: x in s ==> !p(x)
    ensures Count(s, p) == 0
  {
    if s != [] {
      assert forall x :: x in s[1..] ==> x in s;
      CountNone(s[1..], p);
    }
  }

  lemma {:induction false} CountPositive<T>(s: seq<T>, p: T -> bool, i: int)
    requires 0 <= i < |s| && p(s[i])
    ensures Count(s, p) > 0
  {
    if i > 0 {
      CountPositive(s[1..], p, i - 1);
    }
  }

  /** Two filters whose predicates exclude each other select at most |s|
      elements together. */
  lemma {:induction false} CountDisjoint<T>(s: seq<T>, p: T -> bool, q: T -> bool)
    requires forall x :: x in s ==> !(p(x) && q(x))
    ensures Count(s, p) + Count(s, q) <= |s|
  {
    if s != [] {
      assert forall x :: x in s[1..] ==> x in s;
      CountDisjoint(s[1..], p, q);
    }
  }

  // ------------------------------------------------- grouped dictionaries

  /** The entry of key k, if any (keys are distinct in every dictionary the
      folds build). */
  function Lookup<K(==), V>(g: seq<(K, V)>, k: K): Option<V> {
    if g == [] then None
    else if g[0].0 == k then Some(g[0].1)
    else Lookup(g[1..], k)
  }

  predicate DistinctKeys<K(==), V>(g: seq<(K, V)>) {
    forall i, j :: 0 <= i < j < |g| ==> g[i].0 != g[j].0
  }

  function Keys<K, V>(g: seq<(K, V)>): (r: seq<K>)
    ensures |r| == |g|
    ensures forall i :: 0 <= i < |g| ==> r[i] == g[i].0
  {
    seq(|g|, i requires 0 <= i < |g| => g[i].0)
  }

  /** `acc[k] = step(acc[k] ?? init, x)`: updates the entry of k in place, or
      appends a new entry at the end. */
  function Bump<K(==), V, T>(g: seq<(K, V)>, k: K, init: V, step: (V, T) -> V, x: T): seq<(K, V)> {
    if g == [] then [(k, step(init, x))]
    else if g[0].0 == k then [(k, step(g[0].1, x))] + g[1..]
    else [g[0]] + Bump(g[1..], k, init, step, x)
  }

  /** `s.forEach(x => { acc[key(x)] = step(acc[key(x)] ?? init, x) })` */
  function GroupFold<T, K(==), V>(s: seq<T>, key: T -> K, init: V, step: (V, T) -> V): seq<(K, V)> {
    if s == [] then []
    else Bump(GroupFold(s[..|s| - 1], key, init, step), key(s[|s| - 1]), init, step, s[|s| - 1])
  }

  /** The same dictionary filled by a `forEach` loop that updates
      `acc[key(x)]` in place, one element at a time. */
  method GroupLoop<T, K(==), V>(s: seq<T>, key: T -> K, init: V, step: (V, T) -> V) returns (g: seq<(K, V)>)
    ensures g == GroupFold(s, key, init, step)
  {
    g := [];
    for i := 0 to |s|
      invariant g == GroupFold(s[..i], key, init, step)
    {
      assert s[..i + 1][..i] == s[..i];
      g := Bump(g, key(s[i]), init, step, s[i]);
    }
    assert s[..|s|] == s;
  }

  /** `s.slice(0, n)` for n >= 0. */
  function Take<T>(s: seq<T>, n: nat): (r: seq<T>)
    ensures |r| == if n <= |s| then n else |s|
    ensures forall i :: 0 <= i < |r| ==> r[i] == s[i]
  {
    if n <= |s| then s[..n] else s
  }

  /** A prefix repeats no element more often than the whole list. */
  lemma TakeSubMultiset<T>(s: seq<T>, n: nat)
    ensures multiset(Take(s, n)) <= multiset(s)
  {
    if n <= |s| {
      assert s == s[..n] + s[n..];
    }
  }

  /** The total of a measure over the values of a dictionary. */
  function SumGroups<K, V>(g: seq<(K, V)>, m: V -> int): int {
    if g == [] then 0 else m(g[0].1) + SumGroups(g[1..], m)
  }

  /** The rows that belong to group k, in order. */
  function InGroup<T, K(==)>(s: seq<T>, key: T -> K, k: K): (r: seq<T>)
    ensures |r| <= |s|
  {
    if s == [] then []
    else if key(s[|s| - 1]) == k then InGroup(s[..|s| - 1], key, k) + [s[|s| - 1]]
    else InGroup(s[..|s| - 1], key, k)
  }

  /** Left fold of step over s, from init. */
  function FoldLeft<T, V>(s: seq<T>, init: V, step: (V, T) -> V): V {
    if s == [] then init else step(FoldLeft(s[..|s| - 1], init, step), s[|s| - 1])
  }

  /** A lookup in a concatenation finds the first part's entry first. */
  lemma {:induction false} LookupAppend<K, V>(a: seq<(K, V)>, b: seq<(K, V)>, k: K)
    ensures Lookup(a + b, k) == if Lookup(a, k).Some? then Lookup(a, k) else Lookup(b, k)
  {
    if a == [] {
      assert a + b == b;
    } else {
      assert (a + b)[0] == a[0];
      assert (a + b)[1..] == a[1..] + b;
      LookupAppend(a[1..], b, k);
    }
  }

  /** A key that no entry carries is absent. */
  lemma {:induction false} LookupMiss<K, V>(g: seq<(K, V)>, k: K)
    requires forall i :: 0 <= i < |g| ==> g[i].0 != k
    ensures Lookup(g, k) == None
  {
    if g != [] {
      LookupMiss(g[1..], k);
    }
  }

  lemma {:induction false} BumpLookup<K, V, T>(g: seq<(K, V)>, k: K, init: V, step: (V, T) -> V, x: T, j: K)
    ensures Lookup(Bump(g, k, init, step, x), j)
         == if j == k then Some(step(Lookup(g, k).GetOr(init), x)) else Lookup(g, j)
  {
    if g != [] && g[0].0 != k {
      BumpLookup(g[1..], k, init, step, x, j);
    }
  }

  lemma {:induction false} LookupIn<K, V>(g: seq<(K, V)>, k: K)
    ensures Lookup(g, k).Some? <==> k in Keys(g)
  {
    if g != [] {
      LookupIn(g[1..], k);
      assert Keys(g) == [g[0].0] + Keys(g[1..]);
    }
  }

  lemma {:induction false} BumpKeys<K, V, T>(g: seq<(K, V)>, k: K, init: V, step: (V, T) -> V, x: T)
    ensures Keys(Bump(g, k, init, step, x)) == if k in Keys(g) then Keys(g) else Keys(g) + [k]
  {
    if g == [] {
    } else if g[0].0 == k {
      assert Keys(Bump(g, k, init, step, x)) == [k] + Keys(g[1..]);
      assert Keys(g) == [g[0].0] + Keys(g[1..]);
    } else {
      BumpKeys(g[1..], k, init, step, x);
      assert Keys(Bump(g, k, init, step, x)) == [g[0].0] + Keys(Bump(g[1..], k, init, step, x));
      assert Keys(g) == [g[0].0] + Keys(g[1..]);
    }
  }

  lemma {:induction false} BumpMeasure<K, V, T>(g: seq<(K, V)>, k: K, init: V, step: (V, T) -> V, x: T, m: V -> int)
    requires m(init) == 0
    ensures SumGroups(Bump(g, k, init, step, x), m)
         == SumGroups(g, m) - m(Lookup(g, k).GetOr(init)) + m(step(Lookup(g, k).GetOr(init), x))
  {
    if g != [] && g[0].0 != k {
      BumpMeasure(g[1..], k, init, step, x, m);
    }
  }

  /** Every dictionary GroupFold builds has distinct keys, no more entries
      than rows, and a key is present iff some row has that key. */
  lemma {:induction false} GroupFoldKeys<T, K, V>(s: seq<T>, key: T -> K, init: V, step: (V, T) -> V)
    ensures DistinctKeys(GroupFold(s, key, init, step))
    ensures |GroupFold(s, key, init, step)| <= |s|
  {
    if s != [] {
      var pre := s[..|s| - 1];
      var x := s[|s| - 1];
      var g := GroupFold(pre, key, init, step);
      GroupFoldKeys(pre, key, init, step);
      BumpKeys(g, key(x), init, step, x);
      var g' := GroupFold(s, key, init, step);
      assert Keys(g') == if key(x) in Keys(g) then Keys(g) else Keys(g) + [key(x)];
      forall i, j | 0 <= i < j < |g'| ensures g'[i].0 != g'[j].0 {
        assert Keys(g')[i] == g'[i].0 && Keys(g')[j] == g'[j].0;
        if key(x) !in Keys(g) && j == |g| {
          assert Keys(g)[i] == g'[i].0;
        } else {
          assert Keys(g)[i] == g'[i].0 && Keys(g)[j] == g'[j].0;
        }
      }
    }
  }

  /** Every key of the dictionary is the key of some row. */
  lemma {:induction false} GroupFoldKeysFrom<T, K, V>(s: seq<T>, key: T -> K, init: V, step: (V, T) -> V)
    ensures forall k :: k in Keys(GroupFold(s, key, init, step)) ==> exists x :: x in s && key(x) == k
  {
    if s != [] {
      var pre := s[..|s| - 1];
      var x := s[|s| - 1];
      var g := GroupFold(pre, key, init, step);
      GroupFoldKeysFrom(pre, key, init, step);
      BumpKeys(g, key(x), init, step, x);
      forall k | k in Keys(GroupFold(s, key, init, step)) ensures exists y :: y in s && key(y) == k {
        if k in Keys(g) {
          var y :| y in pre && key(y) == k;
          assert y in s;
        } else {
          assert x in s && key(x) == k;
        }
      }
    }
  }

  /** Per-group content: the entry of k is the fold of exactly the rows whose
      key is k, and there is an entry iff some row has key k. */
  lemma {:induction false} GroupFoldLookup<T, K, V>(s: seq<T>, key: T -> K, init: V, step: (V, T) -> V, k: K)
    ensures Lookup(GroupFold(s, key, init, step), k)
         == if InGroup(s, key, k) == [] then None else Some(FoldLeft(InGroup(s, key, k), init, step))
  {
    if s != [] {
      var pre := s[..|s| - 1];
      var x := s[|s| - 1];
      GroupFoldLookup(pre, key, init, step, k);
      BumpLookup(GroupFold(pre, key, init, step), key(x), init, step, x, k);
      if key(x) == k {
        var grp := InGroup(pre, key, k);
        assert InGroup(s, key, k) == grp + [x];
        assert (grp + [x])[..|grp + [x]| - 1] == grp;
      }
    }
  }

  /** Conservation: when a measure of the group value grows by f(x) for each
      row x, the measures of the groups add up to the sum of f over the rows. */
  lemma {:induction false} GroupFoldTotal<T, K, V>(s: seq<T>, key: T -> K, init: V, step: (V, T) -> V,
                                                       m: V -> int, f: T -> int)
    requires m(init) == 0
    requires forall v, x :: m(step(v, x)) == m(v) + f(x)
    ensures SumGroups(GroupFold(s, key, init, step), m) == Sum(s, f)
  {
    if s != [] {
      var pre := s[..|s| - 1];
      var x := s[|s| - 1];
      var g := GroupFold(pre, key, init, step);
      GroupFoldTotal(pre, key, init, step, m, f);
      BumpMeasure(g, key(x), init, step, x, m);
      var old_ := Lookup(g, key(x)).GetOr(init);
      assert m(step(old_, x)) == m(old_) + f(x);
      SumLast(s, f);
    }
  }

  // ---------------------------------------------------- sorting by score

  predicate SortedDesc<T>(s: seq<T>, score: T -> int) {
    forall i, j :: 0 <= i < j < |s| ==> score(s[i]) >= score(s[j])
  }

  function InsertDesc<T>(x: T, s: seq<T>, score: T -> int): seq<T> {
    if s == [] then [x]
    else if score(x) >= score(s[0]) then [x] + s
    else [s[0]] + InsertDesc(x, s[1..], score)
  }

  /** `s.sort((a, b) => score(b) - score(a))`: a stable insertion sort, each
      element placed before the later elements of equal score. */
  function SortDesc<T>(s: seq<T>, score: T -> int): seq<T> {
    if s == [] then [] else InsertDesc(s[0], SortDesc(s[1..], score), score)
  }

  lemma {:induction false} InsertDescSorted<T>(x: T, s: seq<T>, score: T -> int)
    requires SortedDesc(s, score)
    ensures SortedDesc(InsertDesc(x, s, score), score)
    ensures |InsertDesc(x, s, score)| == |s| + 1
    ensures forall y :: y in InsertDesc(x, s, score) ==> y == x || y in s
  {
    if s != [] && score(x) < score(s[0]) {
      assert SortedDesc(s[1..], score);
      InsertDescSorted(x, s[1..], score);
      var rest := InsertDesc(x, s[1..], score);
      forall k | 0 <= k < |rest| ensures score(s[0]) >= score(rest[k]) {
        assert rest[k] in rest;
        if rest[k] != x {
          var j :| 0 <= j < |s[1..]| && s[1..][j] == rest[k];
          assert s[j + 1] == rest[k];
        }
      }
      assert forall y :: y in s[1..] ==> y in s;
    }
  }

  lemma {:induction false} InsertDescPerm<T>(x: T, s: seq<T>, score: T -> int)
    ensures multiset(InsertDesc(x, s, score)) == multiset(s) + multiset{x}
  {
    if s != [] && score(x) < score(s[0]) {
      InsertDescPerm(x, s[1..], score);
      assert s == [s[0]] + s[1..];
    }
  }

  lemma {:induction false} InsertDescSum<T>(x: T, s: seq<T>, score: T -> int, f: T -> int)
    ensures Sum(InsertDesc(x, s, score), f) == f(x) + Sum(s, f)
  {
    if s != [] && score(x) < score(s[0]) {
      InsertDescSum(x, s[1..], score, f);
    }
  }

  /** Sorting a list that is already ordered leaves it as it is. */
  lemma {:induction false} SortDescOfSorted<T>(s: seq<T>, score: T -> int)
    requires SortedDesc(s, score)
    ensures SortDesc(s, score) == s
  {
    if s != [] {
      SortDescOfSorted(s[1..], score);
      assert s == [s[0]] + s[1..];
    }
  }

  /** The sorted list is ordered by non-increasing score and is a permutation
      of the input. */
  lemma {:induction false} SortDescProps<T>(s: seq<T>, score: T -> int)
    ensures SortedDesc(SortDesc(s, score), score)
    ensures multiset(SortDesc(s, score)) == multiset(s)
    ensures |SortDesc(s, score)| == |s|
  {
    if s != [] {
      SortDescProps(s[1..], score);
      InsertDescSorted(s[0], SortDesc(s[1..], score), score);
      InsertDescPerm(s[0], SortDesc(s[1..], score), score);
      assert s == [s[0]] + s[1..];
    }
  }

  /** The first n of a descending sort: as many as there are (at most n),
      still sorted, a sub-multiset of s, and no element left out scores
      higher than one kept. */
  lemma TakeSortedTop<T>(s: seq<T>, score: T -> int, n: nat)
    ensures var top := Take(SortDesc(s, score), n);
      |top| == (if n <= |s| then n else |s|)
      && SortedDesc(top, score)
      && multiset(top) <= multiset(s)
      && (forall x :: x in top ==> x in s)
      && (forall x, t :: x in s && x !in top && t in top ==> score(x) <= score(t))
  {
    var sorted := SortDesc(s, score);
    SortDescProps(s, score);
    var top := Take(sorted, n);
    TakeSubMultiset(sorted, n);
    forall x | x in top ensures x in s {
      assert multiset(sorted)[x] > 0;
    }
    assert SortedDesc(top, score) by {
      forall i, j | 0 <= i < j < |top| ensures score(top[i]) >= score(top[j]) {
        assert top[i] == sorted[i] && top[j] == sorted[j];
      }
    }
    forall x, t | x in s && x !in top && t in top ensures score(x) <= score(t) {
      assert multiset(sorted)[x] > 0;
      var k :| 0 <= k < |sorted| && sorted[k] == x;
      var m :| 0 <= m < |top| && top[m] == t;
      assert forall i :: 0 <= i < |top| ==> sorted[i] != x;
      assert m < k;
    }
  }

  /** Sorting keeps every sum. */
  lemma {:induction false} SortDescSum<T>(s: seq<T>, score: T -> int, f: T -> int)
    ensures Sum(SortDesc(s, score), f) == Sum(s, f)
  {
    if s != [] {
      SortDescSum(s[1..], score, f);
      InsertDescSum(s[0], SortDesc(s[1..], score), score, f);
    }
  }

  // -------------------------------------------------- sorting of strings

  /** Code-unit order on strings, the order of JavaScript's default sort. */
  predicate LexLe(a: string, b: string) {
    a == [] || (b != [] && (a[0] < b[0] || (a[0] == b[0] && LexLe(a[1..], b[1..]))))
  }

  lemma {:induction false} LexLeTotal(a: string, b: string)
    ensures LexLe(a, b) || LexLe(b, a)
  {
    if a != [] && b != [] && a[0] == b[0] {
      LexLeTotal(a[1..], b[1..]);
    }
  }

  predicate SortedLex(s: seq<string>) {
    forall i :: 0 <= i < |s| - 1 ==> LexLe(s[i], s[i + 1])
  }

  function InsertLex(x: string, s: seq<string>): seq<string> {
    if s == [] then [x]
    else if LexLe(x, s[0]) then [x] + s
    else [s[0]] + InsertLex(x, s[1..])
  }

  /** `keys.sort()` */
  function SortLex(s: seq<string>): seq<string> {
    if s == [] then [] else InsertLex(s[0], SortLex(s[1..]))
  }

  lemma {:induction false} InsertLexProps(x: string, s: seq<string>)
    requires SortedLex(s)
    ensures SortedLex(InsertLex(x, s))
    ensures multiset(InsertLex(x, s)) == multiset(s) + multiset{x}
    ensures InsertLex(x, s)[0] == x || (s != [] && InsertLex(x, s)[0] == s[0])
  {
    InsertLexSorted(x, s);
    InsertLexMultiset(x, s);
  }

  lemma {:induction false} InsertLexSorted(x: string, s: seq<string>)
    requires SortedLex(s)
    ensures SortedLex(InsertLex(x, s))
  {
    if s == [] {
    } else if LexLe(x, s[0]) {
      SortedLexCons(x, s);
    } else {
      var t := InsertLex(x, s[1..]);
      assert SortedLex(s[1..]) by {
        forall i | 0 <= i < |s| - 2 ensures LexLe(s[1..][i], s[1..][i + 1]) {
          assert s[1..][i] == s[i + 1] && s[1..][i + 1] == s[i + 2];
        }
      }
      LexLeTotal(x, s[0]);
      InsertLexSorted(x, s[1..]);
      assert t[0] == x || t[0] == s[1];
      SortedLexCons(s[0], t);
    }
  }

  lemma {:induction false} InsertLexMultiset(x: string, s: seq<string>)
    ensures multiset(InsertLex(x, s)) == multiset(s) + multiset{x}
  {
    if s != [] && !LexLe(x, s[0]) {
      InsertLexMultiset(x, s[1..]);
      assert s == [s[0]] + s[1..];
    }
  }

  /** A head no greater than the first element keeps a list sorted. */
  lemma SortedLexCons(y: string, t: seq<string>)
    requires SortedLex(t) && (t == [] || LexLe(y, t[0]))
    ensures SortedLex([y] + t)
  {
    forall i | 0 <= i < |t| ensures LexLe(([y] + t)[i], ([y] + t)[i + 1]) {
      assert ([y] + t)[i + 1] == t[i];
      if i > 0 {
        assert ([y] + t)[i] == t[i - 1];
      }
    }
  }

  lemma {:induction false} SortLexProps(s: seq<string>)
    ensures SortedLex(SortLex(s))
    ensures multiset(SortLex(s)) == multiset(s)
  {
    if s != [] {
      SortLexProps(s[1..]);
      InsertLexProps(s[0], SortLex(s[1..]));
      assert s == [s[0]] + s[1..];
    }
  }

  // ------------------------------------------------------------- maximum

  /** `Math.max(...s.map(f))` on a non-empty list. */
  function MaxOf<T>(s: seq<T>, f: T -> int): (r: int)
    requires s != []
    ensures forall x :: x in s ==> f(x) <= r
    ensures exists x :: x in s && f(x) == r
  {
    if |s| == 1 then f(s[0])
    else
      var rest := MaxOf(s[1..], f);
      assert forall x :: x in s ==> x == s[0] || x in s[1..];
      if f(s[0]) >= rest then f(s[0]) else rest
  }
}
