/**
 An insertion-ordered dictionary, as Python's `dict` and `collections.OrderedDict`
 present it: a sequence of key/value pairs whose keys are pairwise distinct.
 */
module OrderedDict {
  import opened Prelude

  type Dict<K, V> = seq<(K, V)>

  ghost predicate Distinct<K, V>(d: Dict<K, V>) {
    forall i, j :: 0 <= i < j < |d| ==> d[i].0 != d[j].0
  }

  /** `d.get(k)` */
  function Lookup<K(==), V>(d: Dict<K, V>, k: K): Option<V> {
    if d == [] then None
    else if d[0].0 == k then Some(d[0].1)
    else Lookup(d[1..], k)
  }

  /** `d.pop(k, None)`, dropping the popped value */
  function Del<K(==), V>(d: Dict<K, V>, k: K): Dict<K, V> {
    if d == [] then []
    else if d[0].0 == k then d[1..]
    else [d[0]] + Del(d[1..], k)
  }

  /** `d[k] = v`: in place when the key is present, appended otherwise */
  function Put<K(==), V>(d: Dict<K, V>, k: K, v: V): Dict<K, V> {
    if d == [] then [(k, v)]
    else if d[0].0 == k then [(k, v)] + d[1..]
    else [d[0]] + Put(d[1..], k, v)
  }

  lemma {:induction false} LookupMember<K, V>(d: Dict<K, V>, k: K)
    ensures Lookup(d, k).Some? <==> exists i :: 0 <= i < |d| && d[i].0 == k
    ensures Lookup(d, k).Some? ==> (k, Lookup(d, k).value) in d
  {
    if d != [] && d[0].0 != k {
      LookupMember(d[1..], k);
      if i :| 0 <= i < |d| && d[i].0 == k {
        assert d[1..][i - 1].0 == k;
      }
    }
  }

  lemma {:induction false} LookupAt<K, V>(d: Dict<K, V>, i: nat)
    requires Distinct(d) && i < |d|
    ensures Lookup(d, d[i].0) == Some(d[i].1)
  {
    if i > 0 {
      assert d[0].0 != d[i].0;
      LookupAt(d[1..], i - 1);
    }
  }

  lemma {:induction false} DelLookup<K, V>(d: Dict<K, V>, k: K, j: K)
    requires Distinct(d)
    ensures Lookup(Del(d, k), j) == if j == k then None else Lookup(d, j)
  {
    if d == [] {
    } else if d[0].0 == k {
      LookupMember(d[1..], k);
    } else {
      DelLookup(d[1..], k, j);
      assert ([d[0]] + Del(d[1..], k))[1..] == Del(d[1..], k);
    }
  }

  lemma {:induction false} DelMember<K, V>(d: Dict<K, V>, k: K, e: (K, V))
    requires Distinct(d)
    ensures e in Del(d, k) <==> e in d && e.0 != k
    ensures |Del(d, k)| == |d| - (if Lookup(d, k).Some? then 1 else 0)
  {
    if d != [] {
      assert d == [d[0]] + d[1..];
      if d[0].0 == k {
        if e in d[1..] {
          var i :| 0 <= i < |d[1..]| && d[1..][i] == e;
          assert d[i + 1] == e;
        }
      } else {
        DelMember(d[1..], k, e);
      }
    }
  }

  lemma {:induction false} DelDistinct<K, V>(d: Dict<K, V>, k: K)
    requires Distinct(d)
    ensures Distinct(Del(d, k))
  {
    if d != [] && d[0].0 != k {
      DelDistinct(d[1..], k);
      var r := Del(d[1..], k);
      forall j | 0 <= j < |r| ensures r[j].0 != d[0].0 {
        DelMember(d[1..], k, r[j]);
        var i :| 0 <= i < |d[1..]| && d[1..][i] == r[j];
        assert d[i + 1] == r[j];
      }
    }
  }

  /** Deleting an absent key changes nothing. */
  lemma {:induction false} DelAbsent<K, V>(d: Dict<K, V>, k: K)
    requires Lookup(d, k).None?
    ensures Del(d, k) == d
  {
    if d != [] { DelAbsent(d[1..], k); }
  }

  lemma {:induction false} PutLookup<K, V>(d: Dict<K, V>, k: K, v: V, j: K)
    ensures Lookup(Put(d, k, v), j) == if j == k then Some(v) else Lookup(d, j)
  {
    if d != [] && d[0].0 != k {
      PutLookup(d[1..], k, v, j);
      assert ([d[0]] + Put(d[1..], k, v))[1..] == Put(d[1..], k, v);
    } else if d != [] {
      assert ([(k, v)] + d[1..])[1..] == d[1..];
    }
  }

  lemma {:induction false} PutKeys<K, V>(d: Dict<K, V>, k: K, v: V)
    ensures Lookup(d, k).None? ==> Put(d, k, v) == d + [(k, v)]
    ensures Lookup(d, k).Some? ==>
              |Put(d, k, v)| == |d| && forall i :: 0 <= i < |d| ==> Put(d, k, v)[i].0 == d[i].0
  {
    if d != [] && d[0].0 != k {
      PutKeys(d[1..], k, v);
      assert d == [d[0]] + d[1..];
      var p := Put(d[1..], k, v);
      if Lookup(d, k).Some? {
        forall i | 0 <= i < |d| ensures Put(d, k, v)[i].0 == d[i].0 {
          if i > 0 { assert p[i - 1].0 == d[1..][i - 1].0; }
        }
      }
    }
  }

  lemma {:induction false} PutDistinct<K, V>(d: Dict<K, V>, k: K, v: V)
    requires Distinct(d)
    ensures Distinct(Put(d, k, v))
  {
    PutKeys(d, k, v);
    LookupMember(d, k);
  }

  /** Overwriting twice is overwriting once; deleting forgets an overwrite. */
  lemma {:induction false} PutPut<K, V>(d: Dict<K, V>, k: K, v: V, w: V)
    ensures Put(Put(d, k, v), k, w) == Put(d, k, w)
    ensures Del(Put(d, k, v), k) == Del(d, k)
  {
    if d == [] {
      assert [(k, v)][1..] == [];
    } else if d[0].0 == k {
      assert ([(k, v)] + d[1..])[1..] == d[1..];
    } else {
      PutPut(d[1..], k, v, w);
      assert ([d[0]] + Put(d[1..], k, v))[1..] == Put(d[1..], k, v);
    }
  }

  lemma {:induction false} AppendLookup<K, V>(d: Dict<K, V>, k: K, v: V, j: K)
    ensures Lookup(d + [(k, v)], j) ==
            if Lookup(d, j).Some? then Lookup(d, j) else if j == k then Some(v) else None
  {
    if d == [] {
      assert d + [(k, v)] == [(k, v)];
    } else {
      AppendLookup(d[1..], k, v, j);
      assert (d + [(k, v)])[1..] == d[1..] + [(k, v)];
    }
  }

  lemma {:induction false} DropLookup<K, V>(d: Dict<K, V>, n: nat, j: K)
    requires Distinct(d) && n <= |d|
    ensures Lookup(d[n..], j) ==
            if exists i :: n <= i < |d| && d[i].0 == j then Lookup(d, j) else None
  {
    LookupMember(d[n..], j);
    if Lookup(d[n..], j).Some? {
      var k :| 0 <= k < |d[n..]| && d[n..][k].0 == j;
      assert d[n + k].0 == j;
    }
    if i :| n <= i < |d| && d[i].0 == j {
      assert d[n..][i - n].0 == j;
      LookupAt(d, i);
      LookupAt(d[n..], i - n);
    }
  }

  lemma {:induction false} DistinctFits<K, V>(d: Dict<K, V>, keys: set<K>)
    requires Distinct(d) && forall i :: 0 <= i < |d| ==> d[i].0 in keys
    ensures |d| <= |keys|
    decreases |d|
  {
    if d != [] {
      forall i | 0 <= i < |d[1..]| ensures d[1..][i].0 in keys - {d[0].0} {
        assert d[1..][i] == d[i + 1];
      }
      DistinctFits(d[1..], keys - {d[0].0});
    }
  }

  /** Inserts entries one after the other, as a loader's loop does. */
  function PutAll<K(==), V>(entries: Dict<K, V>, d: Dict<K, V> := []): Dict<K, V>
    decreases |entries|
  {
    if entries == [] then d else PutAll(entries[1..], Put(d, entries[0].0, entries[0].1))
  }

  lemma {:induction false} PutAllAppends<K, V>(entries: Dict<K, V>, d: Dict<K, V>)
    requires Distinct(d + entries)
    ensures PutAll(entries, d) == d + entries
    decreases |entries|
  {
    if entries == [] {
      assert d + entries == d;
    } else {
      var (k, v) := entries[0];
      LookupMember(d, k);
      forall i | 0 <= i < |d| ensures d[i].0 != k {
        assert (d + entries)[i].0 != (d + entries)[|d|].0;
      }
      PutKeys(d, k, v);
      assert d + [(k, v)] + entries[1..] == d + entries;
      PutAllAppends(entries[1..], d + [(k, v)]);
    }
  }

  // ------------------------------------------------------------- ordering --

  ghost predicate SortedBy<K(!new), V>(d: Dict<K, V>, rank: K -> int) {
    forall i, j :: 0 <= i < j < |d| ==> rank(d[i].0) < rank(d[j].0)
  }

  /** Deleting keeps the survivors in order. */
  lemma {:induction false} DelSorted<K(!new), V>(d: Dict<K, V>, k: K, rank: K -> int)
    requires Distinct(d) && SortedBy(d, rank)
    ensures SortedBy(Del(d, k), rank)
  {
    if d != [] && d[0].0 != k {
      DelSorted(d[1..], k, rank);
      var r := Del(d[1..], k);
      forall j | 0 <= j < |r| ensures rank(d[0].0) < rank(r[j].0) {
        DelMember(d[1..], k, r[j]);
        var i :| 0 <= i < |d[1..]| && d[1..][i] == r[j];
        assert d[i + 1] == r[j];
      }
    }
  }
}
