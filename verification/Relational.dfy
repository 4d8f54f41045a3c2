/** A table with a primary key: the rows by key, and the order in which a scan returns them. */
module Relational {

  predicate NoDuplicates<T(==)>(s: seq<T>) {
    forall i, j :: 0 <= i < j < |s| ==> s[i] != s[j]
  }

  datatype Table<K(==,!new), V> = Table(rows: map<K, V>, order: seq<K>) {

    ghost predicate Valid() {
      && NoDuplicates(order)
      && (forall k :: k in order <==> k in rows)
    }

    // An insert or an update: an updated row keeps its place in the scan.
    function Put(k: K, v: V): Table<K, V> {
      Table(rows[k := v], if k in rows then order else order + [k])
    }

    function Delete(k: K): Table<K, V> {
      Table(rows - {k}, Without(order, k))
    }
  }

  function Without<K(==)>(s: seq<K>, k: K): seq<K> {
    if |s| == 0 then [] else
    var rest := Without(s[..|s| - 1], k);
    if s[|s| - 1] == k then rest else rest + [s[|s| - 1]]
  }

  lemma {:induction false} WithoutMembers<K(!new)>(s: seq<K>, k: K)
    ensures forall x :: x in Without(s, k) <==> x in s && x != k
    ensures NoDuplicates(s) ==> NoDuplicates(Without(s, k))
  {
    if |s| > 0 {
      var front, last := s[..|s| - 1], s[|s| - 1];
      WithoutMembers(front, k);
      assert s == front + [last];
      if NoDuplicates(s) {
        assert last !in front;
        assert NoDuplicates(front);
      }
    }
  }

  lemma {:induction false} PutValid<K(!new), V>(t: Table<K, V>, k: K, v: V)
    requires t.Valid()
    ensures t.Put(k, v).Valid()
  {
  }

  lemma {:induction false} DeleteValid<K(!new), V>(t: Table<K, V>, k: K)
    requires t.Valid()
    ensures t.Delete(k).Valid()
  {
    WithoutMembers(t.order, k);
  }

  // A valid table lists exactly as many keys as it holds rows.
  lemma {:induction false} OrderLength<K(!new), V>(t: Table<K, V>)
    requires t.Valid()
    ensures |t.order| == |t.rows|
  {
    SizeOfDistinct(t.order);
    assert (set k | k in t.order) == t.rows.Keys;
  }

  lemma {:induction false} SizeOfDistinct<K(!new)>(s: seq<K>)
    requires NoDuplicates(s)
    ensures |set k | k in s| == |s|
  {
    if |s| > 0 {
      var front := s[..|s| - 1];
      SizeOfDistinct(front);
      assert s == front + [s[|s| - 1]];
      assert (set k | k in s) == (set k | k in front) + {s[|s| - 1]};
      assert s[|s| - 1] !in (set k | k in front);
    }
  }
}
