/** A JavaScript Map: entries in insertion order, which overwriting a present key does not change. */
module InsertionMaps {
  import opened Options

  type InsertionMap<K, V> = seq<(K, V)>

  ghost predicate Distinct<K, V>(m: InsertionMap<K, V>) {
    forall i, j :: 0 <= i < j < |m| ==> m[i].0 != m[j].0
  }

  predicate Has<K(==), V>(m: InsertionMap<K, V>, k: K) {
    m != [] && (m[0].0 == k || Has(m[1..], k))
  }

  function Get<K(==), V>(m: InsertionMap<K, V>, k: K): Option<V> {
    if m == [] then None else if m[0].0 == k then Some(m[0].1) else Get(m[1..], k)
  }

  /** `map.set`: replaces in place, or appends. */
  function Put<K(==), V>(m: InsertionMap<K, V>, k: K, v: V): InsertionMap<K, V> {
    if m == [] then [(k, v)]
    else if m[0].0 == k then [(k, v)] + m[1..]
    else [m[0]] + Put(m[1..], k, v)
  }

  /** `map.delete`. */
  function Delete<K(==), V>(m: InsertionMap<K, V>, k: K): InsertionMap<K, V> {
    if m == [] then []
    else if m[0].0 == k then m[1..]
    else [m[0]] + Delete(m[1..], k)
  }

  lemma {:induction false} HasIffIndex<K, V>(m: InsertionMap<K, V>, k: K)
    ensures Has(m, k) <==> exists i :: 0 <= i < |m| && m[i].0 == k
    ensures Has(m, k) <==> Get(m, k).Some?
  {
    if m != [] {
      HasIffIndex(m[1..], k);
      if m[0].0 != k {
        assert forall i :: 0 < i < |m| ==> m[i] == m[1..][i - 1];
        if Has(m[1..], k) {
          var i :| 0 <= i < |m[1..]| && m[1..][i].0 == k;
          assert m[i + 1].0 == k;
        }
      }
    }
  }

  lemma {:induction false} DeleteKeeps<K, V>(m: InsertionMap<K, V>, k: K)
    requires Distinct(m)
    ensures Distinct(Delete(m, k)) && !Has(Delete(m, k), k)
    ensures forall j :: j != k ==> Get(Delete(m, k), j) == Get(m, j)
    ensures |Delete(m, k)| == if Has(m, k) then |m| - 1 else |m|
  {
    if m != [] {
      DeleteKeeps(m[1..], k);
      if m[0].0 == k {
        HasIffIndex(m[1..], k);
      } else {
        var d := Delete(m[1..], k);
        HasIffIndex(m[1..], m[0].0);
        HasIffIndex(d, m[0].0);
        assert forall i :: 0 <= i < |d| ==> d[i].0 != m[0].0;
      }
    }
  }

  lemma {:induction false} PutKeeps<K, V>(m: InsertionMap<K, V>, k: K, v: V)
    requires Distinct(m)
    ensures Distinct(Put(m, k, v)) && Get(Put(m, k, v), k) == Some(v)
    ensures forall j :: j != k ==> Get(Put(m, k, v), j) == Get(m, j)
    ensures |Put(m, k, v)| == if Has(m, k) then |m| else |m| + 1
  {
    if m != [] && m[0].0 != k {
      PutKeeps(m[1..], k, v);
      var p := Put(m[1..], k, v);
      HasIffIndex(m[1..], m[0].0);
      HasIffIndex(p, m[0].0);
      assert Get(p, m[0].0) == Get(m[1..], m[0].0);
      assert forall i :: 0 <= i < |p| ==> p[i].0 != m[0].0;
    }
  }

  /** A key that is not present goes to the end. */
  lemma {:induction false} PutFresh<K, V>(m: InsertionMap<K, V>, k: K, v: V)
    requires !Has(m, k)
    ensures Put(m, k, v) == m + [(k, v)]
  {
    if m != [] {
      PutFresh(m[1..], k, v);
      assert m == [m[0]] + m[1..];
    }
  }

  /** Deleting a present key takes out its one entry and shifts the later ones up. */
  lemma {:induction false} DeleteAt<K, V>(m: InsertionMap<K, V>, k: K) returns (i: nat)
    requires Has(m, k)
    ensures i < |m| && m[i].0 == k && Delete(m, k) == m[..i] + m[i + 1..]
  {
    if m[0].0 == k {
      i := 0;
    } else {
      i := DeleteAt(m[1..], k);
      assert m[..i + 1] == [m[0]] + m[1..][..i];
      i := i + 1;
    }
  }

  lemma {:induction false} DeleteAbsent<K, V>(m: InsertionMap<K, V>, k: K)
    requires !Has(m, k)
    ensures Delete(m, k) == m
  {
    if m != [] {
      DeleteAbsent(m[1..], k);
      assert m == [m[0]] + m[1..];
    }
  }

  lemma {:induction false} DeleteFromConcat<K, V>(a: InsertionMap<K, V>, b: InsertionMap<K, V>, k: K)
    ensures Delete(a + b, k) == if Has(a, k) then Delete(a, k) + b else a + Delete(b, k)
  {
    if a == [] {
      assert a + b == b;
    } else {
      assert (a + b)[0] == a[0] && (a + b)[1..] == a[1..] + b;
      DeleteFromConcat(a[1..], b, k);
    }
  }

  /** Every entry of a is an entry of b. */
  ghost predicate Within<K(!new), V>(a: InsertionMap<K, V>, b: InsertionMap<K, V>) {
    forall k :: Get(a, k).Some? ==> Get(a, k) == Get(b, k)
  }

  lemma {:induction false} GetIsEntry<K, V>(m: InsertionMap<K, V>, k: K)
    requires Distinct(m)
    ensures forall i :: 0 <= i < |m| && m[i].0 == k ==> Get(m, k) == Some(m[i].1)
  {
    if m != [] {
      GetIsEntry(m[1..], k);
      assert forall i :: 0 < i < |m| ==> m[i] == m[1..][i - 1];
    }
  }

  lemma SuffixWithin<K(!new), V>(m: InsertionMap<K, V>, n: nat)
    requires Distinct(m) && n <= |m|
    ensures Distinct(m[n..]) && Within(m[n..], m)
  {
    forall k | Get(m[n..], k).Some? ensures Get(m[n..], k) == Get(m, k) {
      HasIffIndex(m[n..], k);
      var i :| 0 <= i < |m[n..]| && m[n..][i].0 == k;
      GetIsEntry(m[n..], k);
      GetIsEntry(m, k);
      assert m[n + i] == m[n..][i];
    }
  }
}
