/** Python dicts as sequences of (key, value) pairs in insertion order:
    assignment to a present key replaces its value in place, assignment to
    a new key appends the pair. */
module Dicts {

  /** The keys in insertion order (`list(d)`). */
  function Keys<K(==), V>(d: seq<(K, V)>): (ks: seq<K>)
    ensures |ks| == |d|
    ensures forall i :: 0 <= i < |d| ==> ks[i] == d[i].0
  {
    seq(|d|, i requires 0 <= i < |d| => d[i].0)
  }

  /** `k in d`. */
  predicate Has<K(==), V>(d: seq<(K, V)>, k: K) {
    k in Keys(d)
  }

  /** `k in d` holds exactly when some pair has key `k`. */
  lemma HasPair<K, V>(d: seq<(K, V)>, k: K)
    ensures Has(d, k) <==> exists i :: 0 <= i < |d| && d[i].0 == k
  {
    if exists i :: 0 <= i < |d| && d[i].0 == k {
      var i :| 0 <= i < |d| && d[i].0 == k;
      assert Keys(d)[i] == k;
    }
  }

  /** Keys are unique, as in any dict. */
  predicate UniqueKeys<K(==), V>(d: seq<(K, V)>) {
    forall i, j :: 0 <= i < j < |d| ==> d[i].0 != d[j].0
  }

  /** Position of `k` among the keys (its first one). */
  function Slot<K(==), V>(d: seq<(K, V)>, k: K): (i: nat)
    requires Has(d, k)
    ensures i < |d| && d[i].0 == k
    ensures forall j :: 0 <= j < i ==> d[j].0 != k
  {
    if d[0].0 == k then 0
    else
      assert Keys(d) == [d[0].0] + Keys(d[1..]);
      1 + Slot(d[1..], k)
  }

  /** `d[k]`. */
  function Get<K(==), V>(d: seq<(K, V)>, k: K): V
    requires Has(d, k)
  {
    d[Slot(d, k)].1
  }

  /** `d[k] = v`: replaces the value in place when `k` is present,
      otherwise appends the pair at the end. */
  function Put<K(==), V>(d: seq<(K, V)>, k: K, v: V): (r: seq<(K, V)>)
    ensures Has(r, k)
  {
    if Has(d, k) then
      var r := d[Slot(d, k) := (k, v)];
      assert Keys(r)[Slot(d, k)] == k;
      r
    else
      var r := d + [(k, v)];
      assert Keys(r)[|d|] == k;
      r
  }

  /** After `d[k] = v`, `d[k]` is `v`, no other key's value has changed,
      and the keys are the old ones in the same order, with `k` added at
      the end when it was new. */
  lemma PutFacts<K, V>(d: seq<(K, V)>, k: K, v: V)
    ensures var r := Put(d, k, v);
            && Has(r, k) && Get(r, k) == v
            && Keys(r) == (if Has(d, k) then Keys(d) else Keys(d) + [k])
            && (forall k': K :: k' != k && Has(d, k') ==> Get(r, k') == Get(d, k'))
  {
    var r := Put(d, k, v);
    if Has(d, k) {
      assert Keys(r) == Keys(d);
      forall k' | k' != k && Has(d, k') ensures Get(r, k') == Get(d, k') {
        var i, j := Slot(d, k'), Slot(r, k');
        assert r[i] == d[i];
        assert r[j].0 == d[j].0;
      }
    } else {
      assert Keys(r) == Keys(d) + [k];
      forall k' | k' != k && Has(d, k') ensures Get(r, k') == Get(d, k') {
        var i, j := Slot(d, k'), Slot(r, k');
        assert r[i] == d[i];
        assert j < |d| ==> r[j] == d[j];
      }
    }
  }

  /** Putting keeps the keys unique. */
  lemma PutUnique<K, V>(d: seq<(K, V)>, k: K, v: V)
    requires UniqueKeys(d)
    ensures UniqueKeys(Put(d, k, v))
  {
    PutFacts(d, k, v);
    var r := Put(d, k, v);
    forall i, j | 0 <= i < j < |r| ensures r[i].0 != r[j].0 {
      assert Keys(r)[i] == r[i].0 && Keys(r)[j] == r[j].0;
    }
  }

  /** `d[k] = v` leaves a different key `k'` where it was. */
  lemma PutOther<K, V>(d: seq<(K, V)>, k: K, v: V, k': K)
    requires k' != k && Has(d, k')
    ensures Has(Put(d, k, v), k') && Get(Put(d, k, v), k') == Get(d, k')
  {
    PutFacts(d, k, v);
    assert Has(Put(d, k, v), k') by { HasPair(d, k'); HasPair(Put(d, k, v), k'); }
  }
}
