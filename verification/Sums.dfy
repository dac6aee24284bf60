/**
 * Counter hashes: reading a field with default 0, `HINCRBY`, and totals over all fields.
 */
module Sums {

  function Get<K>(m: map<K, int>, k: K): int {
    if k in m then m[k] else 0
  }

  /** `HINCRBY` / `HINCRBYFLOAT`: an absent field counts as 0. */
  function Incr<K>(m: map<K, int>, k: K, delta: int): map<K, int> {
    m[k := Get(m, k) + delta]
  }

  // ---- Total over a finite map -----------------------------------------------

  ghost function Total<K>(m: map<K, int>): int {
    if m.Keys == {} then 0
    else
      var k :| k in m.Keys;
      m[k] + Total(m - {k})
  }

  lemma {:induction false} TotalRemove<K>(m: map<K, int>, k: K)
    requires k in m
    ensures Total(m) == m[k] + Total(m - {k})
    decreases |m|
  {
    var c :| c in m.Keys && Total(m) == m[c] + Total(m - {c});
    if c != k {
      TotalRemove(m - {c}, k);
      TotalRemove(m - {k}, c);
      assert m - {c} - {k} == m - {k} - {c};
    }
  }

  lemma {:induction false} TotalUpdate<K>(m: map<K, int>, k: K, v: int)
    ensures Total(m[k := v]) == Total(m) - Get(m, k) + v
  {
    var m' := m[k := v];
    TotalRemove(m', k);
    assert m' - {k} == m - {k};
    if k in m {
      TotalRemove(m, k);
    } else {
      assert m - {k} == m;
    }
  }

  lemma {:induction false} TotalIncr<K>(m: map<K, int>, k: K, delta: int)
    ensures Total(Incr(m, k, delta)) == Total(m) + delta
  {
    TotalUpdate(m, k, Get(m, k) + delta);
  }

  lemma {:induction false} TotalWithout<K>(m: map<K, int>, k: K)
    ensures Total(m - {k}) == Total(m) - Get(m, k)
  {
    if k in m {
      TotalRemove(m, k);
    } else {
      assert m - {k} == m;
    }
  }

  ghost predicate SameValues<K(!new)>(m1: map<K, int>, m2: map<K, int>) {
    forall k :: Get(m1, k) == Get(m2, k)
  }

  lemma {:induction false} SameValuesWithout<K(!new)>(m1: map<K, int>, m2: map<K, int>, k: K)
    requires SameValues(m1, m2)
    ensures SameValues(m1 - {k}, m2 - {k})
  {
    forall j ensures Get(m1 - {k}, j) == Get(m2 - {k}, j) {
      assert Get(m1, j) == Get(m2, j);
    }
  }

  /** Totals depend only on the values read, not on explicit zero fields. */
  lemma {:induction false} TotalExtensional<K(!new)>(m1: map<K, int>, m2: map<K, int>)
    requires SameValues(m1, m2)
    ensures Total(m1) == Total(m2)
    decreases |m1| + |m2|
  {
    if m1.Keys + m2.Keys != {} {
      var k :| k in m1.Keys + m2.Keys;
      SameValuesWithout(m1, m2, k);
      TotalWithout(m1, k);
      TotalWithout(m2, k);
      assert (m1 - {k}).Keys == m1.Keys - {k} && (m2 - {k}).Keys == m2.Keys - {k};
      TotalExtensional(m1 - {k}, m2 - {k});
    }
  }

  lemma {:induction false} TotalNonNegative<K>(m: map<K, int>)
    requires forall k :: k in m ==> m[k] >= 0
    ensures Total(m) >= 0
    decreases |m|
  {
    if k :| k in m {
      TotalRemove(m, k);
      TotalNonNegative(m - {k});
    }
  }

  lemma {:induction false} TotalNone<K>(m: map<K, int>)
    requires m.Keys == {}
    ensures Total(m) == 0
  {
  }

  lemma {:induction false} UnionWithout<K>(m1: map<K, int>, m2: map<K, int>, k: K)
    requires k in m1 && k !in m2
    ensures (m1 + m2) - {k} == (m1 - {k}) + m2
    ensures k in m1 + m2 && (m1 + m2)[k] == m1[k]
  {
    var left, right := (m1 + m2) - {k}, (m1 - {k}) + m2;
    assert left.Keys == right.Keys;
    assert forall j :: j in left ==> left[j] == right[j];
  }

  lemma {:induction false} TotalDisjoint<K>(m1: map<K, int>, m2: map<K, int>)
    requires m1.Keys !! m2.Keys
    ensures Total(m1 + m2) == Total(m1) + Total(m2)
    decreases |m1|
  {
    hide Total;
    if m1.Keys == {} {
      TotalNone(m1);
      assert m1 + m2 == m2;
    } else {
      var k :| k in m1.Keys;
      TotalDisjoint(m1 - {k}, m2);
      UnionWithout(m1, m2, k);
      TotalRemove(m1, k);
      TotalRemove(m1 + m2, k);
    }
  }

  /** A non-empty set of integers has a member to pick. */
  lemma SomeInt(s: set<int>)
    ensures s != {} ==> exists x: int :: x in s
  {
    if forall x: int :: x !in s {
      assert s == {};
    }
  }

  /** A number above all of them, so one that is not in use. */
  lemma {:induction false} AboveAll(ids: set<int>) returns (n: int)
    ensures forall i :: i in ids ==> i < n
    decreases |ids|
  {
    SomeInt(ids);
    if ids == {} {
      n := 0;
    } else {
      var i :| i in ids;
      var m := AboveAll(ids - {i});
      n := if m > i then m else i + 1;
      forall x | x in ids ensures x < n {
        assert x == i || x in ids - {i};
      }
    }
  }
}
