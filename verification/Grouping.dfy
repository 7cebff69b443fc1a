/** Dictionaries of lists, as the batch checkers build them row by row. */
module Grouping {
  /** The values filed under one key, oldest first. */
  function Group<K(==), V>(pairs: seq<(K, V)>, k: K): seq<V> {
    if pairs == [] then []
    else
      var last := pairs[|pairs| - 1];
      Group(pairs[..|pairs| - 1], k) + (if last.0 == k then [last.1] else [])
  }

  /** `m.setdefault(k, []).append(v)` */
  function File<K, V>(m: map<K, seq<V>>, k: K, v: V): map<K, seq<V>> {
    m[k := (if k in m then m[k] else []) + [v]]
  }

  predicate HasKey<K(==), V>(pairs: seq<(K, V)>, k: K) {
    exists i :: 0 <= i < |pairs| && pairs[i].0 == k
  }

  ghost predicate Indexes<K(!new), V>(m: map<K, seq<V>>, pairs: seq<(K, V)>) {
    && (forall k :: k in m <==> HasKey(pairs, k))
    && (forall k :: k in m ==> m[k] == Group(pairs, k))
  }

  lemma {:induction false} GroupOfStranger<K, V>(pairs: seq<(K, V)>, k: K)
    requires !HasKey(pairs, k)
    ensures Group(pairs, k) == []
  {
    if pairs != [] {
      var before := pairs[..|pairs| - 1];
      forall i | 0 <= i < |before| ensures before[i].0 != k {
        assert pairs[i].0 != k;
      }
      assert pairs[|pairs| - 1].0 != k;
      GroupOfStranger(before, k);
    }
  }

  lemma HasKeyGrows<K, V>(pairs: seq<(K, V)>, k: K, v: V, x: K)
    ensures HasKey(pairs + [(k, v)], x) <==> HasKey(pairs, x) || x == k
  {
    var more := pairs + [(k, v)];
    if HasKey(pairs, x) {
      var i :| 0 <= i < |pairs| && pairs[i].0 == x;
      assert more[i].0 == x;
    }
    if x == k {
      assert more[|pairs|].0 == x;
    }
  }

  lemma FilingKeepsTheIndex<K(!new), V>(m: map<K, seq<V>>, pairs: seq<(K, V)>, k: K, v: V)
    requires Indexes(m, pairs)
    ensures Indexes(File(m, k, v), pairs + [(k, v)])
  {
    var more := pairs + [(k, v)];
    assert more[..|pairs|] == pairs;
    forall x ensures x in File(m, k, v) <==> HasKey(more, x) {
      HasKeyGrows(pairs, k, v, x);
    }
    if !HasKey(pairs, k) {
      GroupOfStranger(pairs, k);
    }
  }

  lemma {:induction false} GroupMembers<K, V>(pairs: seq<(K, V)>, k: K, v: V)
    ensures v in Group(pairs, k) <==> exists i :: 0 <= i < |pairs| && pairs[i] == (k, v)
  {
    if pairs != [] {
      var before := pairs[..|pairs| - 1];
      GroupMembers(before, k, v);
      assert forall i :: 0 <= i < |before| ==> before[i] == pairs[i];
    }
  }

  predicate TwiceIn<K(==), V>(pairs: seq<(K, V)>, k: K) {
    exists i, j :: 0 <= i < j < |pairs| && pairs[i].0 == k && pairs[j].0 == k
  }

  /** A list is longer than one exactly when two entries share the key. */
  lemma {:induction false} GroupSize<K, V>(pairs: seq<(K, V)>, k: K)
    ensures |Group(pairs, k)| > 0 <==> HasKey(pairs, k)
    ensures |Group(pairs, k)| > 1 <==> TwiceIn(pairs, k)
  {
    if pairs != [] {
      var n := |pairs| - 1;
      var before := pairs[..n];
      GroupSize(before, k);
      assert pairs == before + [(pairs[n].0, pairs[n].1)];
      HasKeyGrows(before, pairs[n].0, pairs[n].1, k);
      if TwiceIn(before, k) {
        var i, j :| 0 <= i < j < |before| && before[i].0 == k && before[j].0 == k;
        assert pairs[i].0 == k && pairs[j].0 == k;
      }
      if HasKey(before, k) && pairs[n].0 == k {
        var i :| 0 <= i < |before| && before[i].0 == k;
        assert pairs[i].0 == k && pairs[n].0 == k;
      }
      if TwiceIn(pairs, k) {
        var i, j :| 0 <= i < j < |pairs| && pairs[i].0 == k && pairs[j].0 == k;
        assert before[i].0 == k;
        if j < n {
          assert before[j].0 == k;
        }
      }
    }
  }

  /** Another entry has the same key. */
  predicate SharedAt<K(==), V>(pairs: seq<(K, V)>, i: nat)
    requires i < |pairs|
  {
    exists j :: 0 <= j < |pairs| && j != i && pairs[j].0 == pairs[i].0
  }

  /** Every value filed under a key that has more than one. */
  function Crowded<K, V(==)>(m: map<K, seq<V>>): set<V> {
    set k, v | k in m && |m[k]| > 1 && v in m[k] :: v
  }

  lemma CrowdedMeansShared<K(!new), V>(m: map<K, seq<V>>, pairs: seq<(K, V)>, v: V)
    requires Indexes(m, pairs)
    ensures v in Crowded(m) <==> exists i :: 0 <= i < |pairs| && pairs[i].1 == v && SharedAt(pairs, i)
  {
    if v in Crowded(m) {
      var k :| k in m && |m[k]| > 1 && v in m[k];
      GroupSize(pairs, k);
      GroupMembers(pairs, k, v);
      var i :| 0 <= i < |pairs| && pairs[i] == (k, v);
      var a, b :| 0 <= a < b < |pairs| && pairs[a].0 == k && pairs[b].0 == k;
      assert SharedAt(pairs, i) by {
        assert pairs[if i == a then b else a].0 == pairs[i].0;
      }
    }
    forall i | 0 <= i < |pairs| && pairs[i].1 == v && SharedAt(pairs, i) ensures v in Crowded(m) {
      var k := pairs[i].0;
      var j :| 0 <= j < |pairs| && j != i && pairs[j].0 == k;
      assert pairs[if i < j then i else j].0 == k && pairs[if i < j then j else i].0 == k;
      GroupSize(pairs, k);
      GroupMembers(pairs, k, v);
    }
  }
}
