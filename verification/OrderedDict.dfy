/**
  A Python dictionary whose iteration order matters: pairs in insertion order.
  Assigning to a key that is present keeps its place, assigning to a new key appends.
 */
module OrderedDict {

  type Dict<K, V> = seq<(K, V)>

  ghost predicate Distinct<K, V>(d: Dict<K, V>) {
    forall i, j :: 0 <= i < j < |d| ==> d[i].0 != d[j].0
  }

  function Keys<K(==), V>(d: Dict<K, V>): set<K> {
    set i | 0 <= i < |d| :: d[i].0
  }

  /** Where the key is stored, or -1. */
  function Position<K(==), V>(d: Dict<K, V>, k: K): (at: int)
    ensures -1 <= at < |d|
    ensures 0 <= at ==> d[at].0 == k
  {
    if d == [] then -1
    else if d[0].0 == k then 0
    else
      var rest := Position(d[1..], k);
      if rest < 0 then -1 else rest + 1
  }

  function Put<K(==), V>(d: Dict<K, V>, k: K, v: V): Dict<K, V> {
    var at := Position(d, k);
    if at < 0 then d + [(k, v)] else d[at := (k, v)]
  }

  function Remove<K(==), V>(d: Dict<K, V>, k: K): Dict<K, V> {
    var at := Position(d, k);
    if at < 0 then d else d[..at] + d[at + 1..]
  }

  lemma {:induction false} PositionFinds<K, V>(d: Dict<K, V>, k: K)
    ensures Position(d, k) < 0 <==> k !in Keys(d)
    ensures Position(d, k) < 0 <==> forall i :: 0 <= i < |d| ==> d[i].0 != k
  {
    if d != [] && d[0].0 != k {
      PositionFinds(d[1..], k);
      assert forall i :: 1 <= i < |d| ==> d[i] == d[1..][i - 1];
    }
  }

  lemma PutKeys<K, V>(d: Dict<K, V>, k: K, v: V)
    ensures Keys(Put(d, k, v)) == Keys(d) + {k}
    ensures Distinct(d) ==> Distinct(Put(d, k, v))
  {
    PositionFinds(d, k);
    var r := Put(d, k, v);
    assert k in Keys(r) by { assert r[if k in Keys(d) then Position(d, k) else |d|].0 == k; }
    forall x | x in Keys(d) ensures x in Keys(r) {
      var i :| 0 <= i < |d| && d[i].0 == x;
      assert r[i].0 == x;
    }
  }

  lemma RemoveKeys<K, V>(d: Dict<K, V>, k: K)
    requires Distinct(d)
    ensures Distinct(Remove(d, k))
    ensures Keys(Remove(d, k)) == Keys(d) - {k}
  {
    PositionFinds(d, k);
    var at, r := Position(d, k), Remove(d, k);
    if 0 <= at {
      assert forall i :: 0 <= i < |r| ==> r[i] == d[if i < at then i else i + 1];
      forall x | x in Keys(d) && x != k ensures x in Keys(r) {
        var i :| 0 <= i < |d| && d[i].0 == x;
        assert r[if i < at then i else i - 1].0 == x;
      }
    }
  }

  /** Dictionaries with the same keys in the same places store every key at the same position. */
  lemma {:induction false} SamePositions<K, A, B>(a: Dict<K, A>, b: Dict<K, B>, k: K)
    requires |a| == |b| && forall i :: 0 <= i < |a| ==> a[i].0 == b[i].0
    ensures Position(a, k) == Position(b, k)
  {
    if a != [] { SamePositions(a[1..], b[1..], k); }
  }

  /** The number of entries is the number of keys. */
  lemma {:induction false} SizeIsKeys<K, V>(d: Dict<K, V>)
    requires Distinct(d)
    ensures |Keys(d)| == |d|
  {
    if d == [] {
      assert Keys(d) == {};
    } else {
      var t := d[1..];
      assert forall i :: 1 <= i < |d| ==> d[i] == t[i - 1];
      assert Keys(d) == Keys(t) + {d[0].0} && d[0].0 !in Keys(t);
      SizeIsKeys(t);
    }
  }
}
