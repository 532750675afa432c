/**
 * Counting and ranking as the tools use them: `collections.Counter` with
 * `most_common`, and `sorted(..., reverse=True)`, which is stable: items
 * with equal keys keep the order they had.
 */
module Counting {
  import opened Wrappers
  import opened PyDict
  import opened Values

  /** The items of `xs` whose key is `k`, in their order. */
  function WithKey<T>(xs: seq<T>, key: T -> nat, k: nat): seq<T>
    decreases |xs|
  {
    if |xs| == 0 then []
    else WithKey(xs[..|xs| - 1], key, k) + (if key(xs[|xs| - 1]) == k then [xs[|xs| - 1]] else [])
  }

  predicate Descending<T>(xs: seq<T>, key: T -> nat) {
    forall i, j :: 0 <= i < j < |xs| ==> key(xs[i]) >= key(xs[j])
  }

  /** Places `x` after every item whose key is at least that of `x`. */
  function Insert<T>(s: seq<T>, x: T, key: T -> nat): (r: seq<T>)
    ensures multiset(r) == multiset(s) + multiset{x} && |r| == |s| + 1
    decreases |s|
  {
    if |s| == 0 || key(s[|s| - 1]) >= key(x) then s + [x]
    else
      var n := |s| - 1;
      assert s == s[..n] + [s[n]];
      Insert(s[..n], x, key) + [s[n]]
  }

  /** `sorted(xs, key=key, reverse=True)`. */
  function SortDescending<T>(xs: seq<T>, key: T -> nat): (r: seq<T>)
    ensures multiset(r) == multiset(xs) && |r| == |xs|
    decreases |xs|
  {
    if |xs| == 0 then []
    else
      var n := |xs| - 1;
      assert xs == xs[..n] + [xs[n]];
      Insert(SortDescending(xs[..n], key), xs[n], key)
  }

  lemma {:induction false} InsertDescending<T>(s: seq<T>, x: T, key: T -> nat)
    requires Descending(s, key)
    ensures Descending(Insert(s, x, key), key)
    decreases |s|
  {
    var n := |s| - 1;
    if |s| == 0 || key(s[n]) >= key(x) {
    } else {
      var t := Insert(s[..n], x, key);
      InsertDescending(s[..n], x, key);
      forall i | 0 <= i < |t| ensures key(t[i]) >= key(s[n]) {
        assert t[i] in multiset(s[..n]) + multiset{x} by { assert t[i] in multiset(t); }
        if t[i] != x {
          var j :| 0 <= j < n && s[..n][j] == t[i];
          assert s[j] == t[i];
        }
      }
      assert t + [s[n]] == Insert(s, x, key);
    }
  }

  lemma WithKeySnoc<T>(xs: seq<T>, y: T, key: T -> nat, k: nat)
    ensures WithKey(xs + [y], key, k) == WithKey(xs, key, k) + (if key(y) == k then [y] else [])
  {
    assert (xs + [y])[..|xs|] == xs;
  }

  lemma {:induction false} InsertWithKey<T>(s: seq<T>, x: T, key: T -> nat, k: nat)
    requires Descending(s, key)
    ensures WithKey(Insert(s, x, key), key, k) == WithKey(s, key, k) + (if key(x) == k then [x] else [])
    decreases |s|
  {
    var n := |s| - 1;
    if |s| == 0 || key(s[n]) >= key(x) {
      WithKeySnoc(s, x, key, k);
    } else {
      var init := s[..n];
      var t := Insert(init, x, key);
      assert Insert(s, x, key) == t + [s[n]];
      assert s == init + [s[n]];
      assert Descending(init, key);
      InsertWithKey(init, x, key, k);
      WithKeySnoc(t, s[n], key, k);
      WithKeySnoc(init, s[n], key, k);
      var last := if key(s[n]) == k then [s[n]] else [];
      var added := if key(x) == k then [x] else [];
      assert added + last == last + added;
    }
  }

  /** The ranking is in descending order of the key. */
  lemma {:induction false} SortIsDescending<T>(xs: seq<T>, key: T -> nat)
    ensures Descending(SortDescending(xs, key), key)
    decreases |xs|
  {
    if |xs| > 0 {
      var n := |xs| - 1;
      SortIsDescending(xs[..n], key);
      InsertDescending(SortDescending(xs[..n], key), xs[n], key);
    }
  }

  /** The ranking is stable: the items sharing a key keep their relative order. */
  lemma {:induction false} SortIsStable<T>(xs: seq<T>, key: T -> nat, k: nat)
    ensures WithKey(SortDescending(xs, key), key, k) == WithKey(xs, key, k)
    decreases |xs|
  {
    if |xs| > 0 {
      var n := |xs| - 1;
      SortIsStable(xs[..n], key, k);
      SortIsDescending(xs[..n], key);
      InsertWithKey(SortDescending(xs[..n], key), xs[n], key, k);
    }
  }

  /** A `Counter`: how often each key was seen, keys in order of first sight. */
  type Counter = Dict<Value, nat>

  function CountOf(item: (Value, nat)): nat {
    item.1
  }

  /** The sum of the counts. */
  function Total(c: Counter): nat
    decreases |c|
  {
    if |c| == 0 then 0 else Total(c[..|c| - 1]) + c[|c| - 1].1
  }

  lemma {:induction false} TotalUpdate(c: Counter, i: nat, item: (Value, nat))
    requires i < |c|
    ensures Total(c[i := item]) + c[i].1 == Total(c) + item.1
    decreases |c|
  {
    var n := |c| - 1;
    if i < n {
      TotalUpdate(c[..n], i, item);
      assert c[i := item][..n] == c[..n][i := item];
    } else {
      assert c[i := item][..n] == c[..n];
    }
  }

  /** No single count exceeds the total. */
  lemma {:induction false} CountWithinTotal(c: Counter, p: (Value, nat))
    requires p in c
    ensures p.1 <= Total(c)
    decreases |c|
  {
    var n := |c| - 1;
    if p != c[n] {
      assert p in c[..n] by {
        var i :| 0 <= i < |c| && c[i] == p;
        assert c[..n][i] == p;
      }
      CountWithinTotal(c[..n], p);
    }
  }

  /** `counter[k] += 1`. */
  function Inc(c: Counter, k: Value): Counter {
    Put(c, k, GetOr(c, k, 0) + 1)
  }

  /** Incrementing `x` adds one to its count and leaves every other count as it was. */
  lemma IncCount(c: Counter, x: Value, k: Value)
    ensures GetOr(Inc(c, x), k, 0) == GetOr(c, k, 0) + (if x == k then 1 else 0)
  {
    if x != k {
      assert Get(Inc(c, x), k) == Get(c, k);
    }
  }

  /** Incrementing adds one to the total. */
  lemma IncTotal(c: Counter, k: Value)
    ensures Total(Inc(c, k)) == Total(c) + 1
  {
    var r := Inc(c, k);
    match Find(c, k)
    case Some(i) =>
      assert GetOr(c, k, 0) == c[i].1;
      assert r == c[i := (k, c[i].1 + 1)];
      TotalUpdate(c, i, (k, c[i].1 + 1));
    case None =>
      assert r == c + [(k, 1)];
      assert r[..|c|] == c;
  }

  /** `for k in xs: counter[k] += 1`, as one step per key. */
  function IncAll(c: Counter, xs: seq<Value>): Counter
    decreases |xs|
  {
    if |xs| == 0 then c else Inc(IncAll(c, xs[..|xs| - 1]), xs[|xs| - 1])
  }

  /** How often `k` occurs in `xs`. */
  function Occurrences(xs: seq<Value>, k: Value): nat
    decreases |xs|
  {
    if |xs| == 0 then 0 else Occurrences(xs[..|xs| - 1], k) + (if xs[|xs| - 1] == k then 1 else 0)
  }

  /** `Occurrences` is the multiplicity of `k` in the multiset of `xs`. */
  lemma {:induction false} OccurrencesAreMultiplicity(xs: seq<Value>, k: Value)
    ensures Occurrences(xs, k) == multiset(xs)[k]
    decreases |xs|
  {
    if |xs| > 0 {
      var n := |xs| - 1;
      OccurrencesAreMultiplicity(xs[..n], k);
      assert xs == xs[..n] + [xs[n]];
    }
  }

  /** Counting a run of keys adds each key's number of occurrences to its count. */
  lemma {:induction false} IncAllOccurrences(c: Counter, xs: seq<Value>, k: Value)
    ensures GetOr(IncAll(c, xs), k, 0) == GetOr(c, k, 0) + Occurrences(xs, k)
    decreases |xs|
  {
    if |xs| > 0 {
      var n := |xs| - 1;
      IncAllOccurrences(c, xs[..n], k);
      IncCount(IncAll(c, xs[..n]), xs[n], k);
    }
  }

  /** Counting a run of keys adds their number to the total. */
  lemma {:induction false} IncAllTotal(c: Counter, xs: seq<Value>)
    ensures Total(IncAll(c, xs)) == Total(c) + |xs|
    decreases |xs|
  {
    if |xs| > 0 {
      IncAllTotal(c, xs[..|xs| - 1]);
      IncTotal(IncAll(c, xs[..|xs| - 1]), xs[|xs| - 1]);
    }
  }

  /** Counting keeps one entry per key. */
  lemma {:induction false} IncAllUnique(c: Counter, xs: seq<Value>)
    requires UniqueKeys(c)
    ensures UniqueKeys(IncAll(c, xs))
    decreases |xs|
  {
    if |xs| > 0 {
      var d := IncAll(c, xs[..|xs| - 1]);
      IncAllUnique(c, xs[..|xs| - 1]);
      assert Inc(d, xs[|xs| - 1]) == Put(d, xs[|xs| - 1], GetOr(d, xs[|xs| - 1], 0) + 1);
    }
  }

  predicate AllHashable(xs: seq<Value>) {
    forall i :: 0 <= i < |xs| ==> Hashable(xs[i])
  }

  /**
   * `for k in xs: counter[k] += 1` as Python runs it: None where a key is
   * unhashable, as the loop then raises `TypeError`.
   */
  function CountKeys(c: Counter, xs: seq<Value>): Option<Counter> {
    if AllHashable(xs) then Some(IncAll(c, xs)) else None
  }

  lemma AllHashableSnoc(xs: seq<Value>, j: nat)
    requires j < |xs| && AllHashable(xs[..j]) && Hashable(xs[j])
    ensures AllHashable(xs[..j + 1])
  {
    assert xs[..j + 1] == xs[..j] + [xs[j]];
  }

  lemma IncAllSnoc(c: Counter, xs: seq<Value>, j: nat)
    requires j < |xs|
    ensures IncAll(c, xs[..j + 1]) == Inc(IncAll(c, xs[..j]), xs[j])
  {
    assert xs[..j + 1][..j] == xs[..j];
  }

  /** The loop `for k in xs: counter[k] += 1`; `ok` is false where a key is unhashable. */
  method CountAll(c: Counter, xs: seq<Value>) returns (counted: Counter, ok: bool)
    ensures ok <==> CountKeys(c, xs).Some?
    ensures ok ==> CountKeys(c, xs) == Some(counted)
  {
    counted := c;
    for j := 0 to |xs|
      invariant AllHashable(xs[..j])
      invariant counted == IncAll(c, xs[..j])
    {
      if !Hashable(xs[j]) {
        return counted, false;
      }
      AllHashableSnoc(xs, j);
      IncAllSnoc(c, xs, j);
      counted := Inc(counted, xs[j]);
    }
    assert xs[..|xs|] == xs;
    ok := true;
  }

  /** `counter.most_common(n)`: the first `n` items of the stable ranking by count. */
  function MostCommon(c: Counter, n: nat): (r: seq<(Value, nat)>)
    ensures |r| == if n < |c| then n else |c|
  {
    Take(SortDescending(c, CountOf), n)
  }

  /** In a descending sequence, each of the first `m` items outranks every later one. */
  lemma PrefixOutranksRest<T>(s: seq<T>, key: T -> nat, m: nat)
    requires Descending(s, key) && m <= |s|
    ensures forall p, i :: p in multiset(s[m..]) && 0 <= i < m ==> key(s[i]) >= key(p)
  {
    forall p, i | p in multiset(s[m..]) && 0 <= i < m ensures key(s[i]) >= key(p) {
      assert p in s[m..];
      var j :| 0 <= j < |s| - m && s[m..][j] == p;
      assert s[m + j] == p;
    }
  }

  /**
   * `most_common` shows the most frequent keys: in descending order of
   * count, each shown item is one of the counter's, and every item it
   * leaves out counts no more than any shown.
   */
  lemma MostCommonIsTop(c: Counter, n: nat)
    ensures Descending(MostCommon(c, n), CountOf)
    ensures multiset(MostCommon(c, n)) <= multiset(c)
    ensures forall p, i :: p in multiset(c) - multiset(MostCommon(c, n)) && 0 <= i < |MostCommon(c, n)| ==>
      MostCommon(c, n)[i].1 >= p.1
  {
    var s := SortDescending(c, CountOf);
    var r := MostCommon(c, n);
    SortIsDescending(c, CountOf);
    assert s == r + s[|r|..];
    assert multiset(c) == multiset(r) + multiset(s[|r|..]);
    PrefixOutranksRest(s, CountOf, |r|);
    assert forall i :: 0 <= i < |r| ==> r[i] == s[i];
  }

  /** Every count `most_common` shows is at most the counter's total. */
  lemma MostCommonWithinTotal(c: Counter, n: nat)
    ensures forall p :: p in MostCommon(c, n) ==> p.1 <= Total(c)
  {
    forall p | p in MostCommon(c, n) ensures p.1 <= Total(c) {
      MostCommonIsTop(c, n);
      assert p in multiset(MostCommon(c, n));
      CountWithinTotal(c, p);
    }
  }

  /** Ties in `most_common` keep the order in which their keys were first counted. */
  lemma MostCommonKeepsTieOrder(c: Counter, k: nat)
    ensures WithKey(SortDescending(c, CountOf), CountOf, k) == WithKey(c, CountOf, k)
  {
    SortIsStable(c, CountOf, k);
  }
}
