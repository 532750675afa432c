/**
 * Python dictionaries as the program uses them: insertion-ordered, one entry
 * per key, and `d[k] = v` either overwrites the entry in place (keeping its
 * position) or appends a new one at the end.
 */
module PyDict {
  import opened Wrappers

  /** The items of a dictionary, in iteration order. */
  type Dict<K, V> = seq<(K, V)>

  function Keys<K, V>(d: Dict<K, V>): (ks: seq<K>)
    ensures |ks| == |d|
    ensures forall i :: 0 <= i < |d| ==> ks[i] == d[i].0
  {
    seq(|d|, i requires 0 <= i < |d| => d[i].0)
  }

  /** The dictionary invariant: no key occurs twice. */
  predicate UniqueKeys<K(==), V>(d: Dict<K, V>) {
    forall i, j :: 0 <= i < j < |d| ==> d[i].0 != d[j].0
  }

  predicate HasKey<K(==), V>(d: Dict<K, V>, k: K) {
    exists i :: 0 <= i < |d| && d[i].0 == k
  }

  lemma KeysAppend<K, V>(a: Dict<K, V>, b: Dict<K, V>)
    ensures Keys(a + b) == Keys(a) + Keys(b)
  {
  }

  /** Position of the first item whose key is `k`. */
  function Find<K(==), V>(d: Dict<K, V>, k: K): (r: Option<nat>)
    ensures r.Some? ==> r.value < |d| && d[r.value].0 == k
    ensures r.Some? ==> forall j :: 0 <= j < r.value ==> d[j].0 != k
    ensures r.None? <==> !HasKey(d, k)
  {
    if |d| == 0 then None
    else if d[0].0 == k then Some(0)
    else match Find(d[1..], k)
      case None => None
      case Some(i) => Some(i + 1)
  }

  /** `d.get(k)`: the value stored under `k`, if any. */
  function Get<K(==), V>(d: Dict<K, V>, k: K): (r: Option<V>)
    ensures r.Some? <==> HasKey(d, k)
  {
    match Find(d, k)
    case None => None
    case Some(i) => Some(d[i].1)
  }

  /** `d.get(k, default)`. */
  function GetOr<K(==), V>(d: Dict<K, V>, k: K, default: V): V {
    match Get(d, k)
    case Some(v) => v
    case None => default
  }

  lemma GetAt<K, V>(d: Dict<K, V>, i: nat)
    requires UniqueKeys(d) && i < |d|
    ensures Get(d, d[i].0) == Some(d[i].1)
  {
    var r := Find(d, d[i].0);
    assert HasKey(d, d[i].0) by { assert Keys(d)[i] == d[i].0; }
  }

  /** A key that is present sits at some position, and `Get` returns the value stored there. */
  lemma GetWitness<K, V>(d: Dict<K, V>, k: K) returns (i: nat)
    requires HasKey(d, k)
    ensures i < |d| && d[i].0 == k && Get(d, k) == Some(d[i].1)
  {
    i := Find(d, k).value;
  }

  /** `d[k] = v`. */
  function Put<K(==,!new), V>(d: Dict<K, V>, k: K, v: V): (r: Dict<K, V>)
    ensures UniqueKeys(d) ==> UniqueKeys(r)
    ensures Get(r, k) == Some(v)
    ensures forall k' :: k' != k ==> Get(r, k') == Get(d, k')
    ensures HasKey(d, k) ==> Keys(r) == Keys(d)
    ensures !HasKey(d, k) ==> r == d + [(k, v)]
  {
    match Find(d, k)
    case Some(i) =>
      var r := d[i := (k, v)];
      assert Keys(r) == Keys(d);
      assert forall k' :: Find(r, k') == Find(d, k') by {
        forall k' ensures Find(r, k') == Find(d, k') { FindSameKeys(r, d, k'); }
      }
      r
    case None =>
      var r := d + [(k, v)];
      assert forall k' :: k' != k ==> Find(r, k') == Find(d, k') by {
        forall k' | k' != k ensures Find(r, k') == Find(d, k') { FindAppend(d, k, v, k'); }
      }
      assert Find(r, k) == Some(|d|) by { FindAppendNew(d, k, v); }
      r
  }

  /** Storing the value a key already holds leaves the dictionary as it is. */
  lemma PutSame<K(!new), V>(d: Dict<K, V>, k: K, v: V)
    requires Get(d, k) == Some(v)
    ensures Put(d, k, v) == d
  {
    var i := Find(d, k).value;
    assert d[i := (k, v)] == d;
  }

  lemma {:induction false} FindSameKeys<K, V>(a: Dict<K, V>, b: Dict<K, V>, k: K)
    requires Keys(a) == Keys(b)
    ensures Find(a, k) == Find(b, k)
  {
    if |a| > 0 && a[0].0 != k {
      assert Keys(a[1..]) == Keys(b[1..]) by {
        assert Keys(a)[0] == Keys(b)[0];
        forall i | 0 <= i < |a| - 1 ensures Keys(a[1..])[i] == Keys(b[1..])[i] {
          assert Keys(a)[i + 1] == Keys(b)[i + 1];
        }
      }
      FindSameKeys(a[1..], b[1..], k);
    } else if |a| > 0 {
      assert Keys(a)[0] == Keys(b)[0];
    }
  }

  lemma {:induction false} FindAppend<K, V>(d: Dict<K, V>, k: K, v: V, k': K)
    requires k' != k
    ensures Find(d + [(k, v)], k') == Find(d, k')
  {
    if |d| > 0 && d[0].0 != k' {
      assert (d + [(k, v)])[1..] == d[1..] + [(k, v)];
      FindAppend(d[1..], k, v, k');
    }
  }

  lemma {:induction false} FindAppendNew<K, V>(d: Dict<K, V>, k: K, v: V)
    requires !HasKey(d, k)
    ensures Find(d + [(k, v)], k) == Some(|d|)
  {
    if |d| > 0 {
      assert d[0].0 == Keys(d)[0];
      assert (d + [(k, v)])[1..] == d[1..] + [(k, v)];
      assert !HasKey(d[1..], k) by {
        forall i | 0 <= i < |d| - 1 ensures Keys(d[1..])[i] != k {
          assert Keys(d)[i + 1] == d[i + 1].0;
        }
      }
      FindAppendNew(d[1..], k, v);
    }
  }
}
