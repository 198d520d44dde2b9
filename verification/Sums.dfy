/** Finite sums over sequences and maps, and the few laws the byte counters need. */
module Sums {

  function SumSeq(s: seq<int>): int {
    if s == [] then 0 else s[0] + SumSeq(s[1..])
  }

  lemma {:induction false} SumSeqConcat(a: seq<int>, b: seq<int>)
    ensures SumSeq(a + b) == SumSeq(a) + SumSeq(b)
  {
    if a == [] {
      assert a + b == b;
    } else {
      assert (a + b)[1..] == a[1..] + b;
      SumSeqConcat(a[1..], b);
    }
  }

  lemma SumSeqRemove(s: seq<int>, i: nat)
    requires i < |s|
    ensures SumSeq(s) == s[i] + SumSeq(s[..i] + s[i + 1..])
  {
    var a, x, b := s[..i], s[i], s[i + 1..];
    assert s == a + ([x] + b);
    SumSeqConcat(a, [x] + b);
    SumSeqConcat(a, b);
    assert ([x] + b)[1..] == b;
  }

  lemma {:induction false} SumSeqBounds(s: seq<int>, bound: nat)
    requires forall i :: 0 <= i < |s| ==> 0 <= s[i] <= bound
    ensures 0 <= SumSeq(s) <= |s| * bound
  {
    if s != [] {
      SumSeqBounds(s[1..], bound);
      assert |s| * bound == bound + |s[1..]| * bound;
    }
  }

  ghost function Pick<K>(m: map<K, int>): (k: K)
    requires m != map[]
    ensures k in m
  {
    var k :| k in m; k
  }

  /** The sum of a map's values; the order of removal does not matter (SumMapRemove). */
  ghost function SumMap<K>(m: map<K, int>): int
    decreases |m|
  {
    if m == map[] then 0
    else
      var k := Pick(m);
      assert (m - {k}).Keys == m.Keys - {k};
      m[k] + SumMap(m - {k})
  }

  lemma {:induction false} SumMapRemove<K>(m: map<K, int>, k: K)
    requires k in m
    ensures SumMap(m) == m[k] + SumMap(m - {k})
    decreases |m|
  {
    var p := Pick(m);
    if p != k {
      assert (m - {p}).Keys == m.Keys - {p};
      assert (m - {k}).Keys == m.Keys - {k};
      SumMapRemove(m - {p}, k);
      SumMapRemove(m - {k}, p);
      assert m - {p} - {k} == m - {k} - {p};
    }
  }

  lemma SumMapUpdate<K>(m: map<K, int>, k: K, v: int)
    ensures SumMap(m[k := v]) == SumMap(m) + v - (if k in m then m[k] else 0)
  {
    SumMapRemove(m[k := v], k);
    assert m[k := v] - {k} == m - {k};
    if k in m {
      SumMapRemove(m, k);
    } else {
      assert m - {k} == m;
    }
  }

  /** A map whose values are pointwise sums, restricted to the keys that still matter. */
  lemma {:induction false} SumMapSplit<K>(total: map<K, int>, kept: map<K, int>, lost: map<K, int>)
    requires kept.Keys <= total.Keys == lost.Keys
    requires forall k :: k in kept ==> total[k] == kept[k] + lost[k]
    requires forall k :: k in total && k !in kept ==> total[k] == lost[k]
    ensures SumMap(total) == SumMap(kept) + SumMap(lost)
    decreases |total|
  {
    if total == map[] {
      assert kept == map[];
      assert lost == map[];
    } else {
      var k := Pick(total);
      assert (total - {k}).Keys == total.Keys - {k};
      assert (kept - {k}).Keys == kept.Keys - {k};
      assert (lost - {k}).Keys == lost.Keys - {k};
      SumMapSplit(total - {k}, kept - {k}, lost - {k});
      SumMapRemove(lost, k);
      if k in kept {
        SumMapRemove(kept, k);
      } else {
        assert kept - {k} == kept;
      }
    }
  }

  lemma {:induction false} SumMapBounds<K>(m: map<K, int>, bound: nat)
    requires forall k :: k in m ==> 0 <= m[k] <= bound
    ensures 0 <= SumMap(m) <= |m| * bound
    decreases |m|
  {
    if m != map[] {
      var k := Pick(m);
      assert (m - {k}).Keys == m.Keys - {k};
      SumMapBounds(m - {k}, bound);
      Times(|m|, bound);
      assert |m - {k}| == |m| - 1;
    }
  }

  lemma Times(n: nat, bound: nat)
    requires n > 0
    ensures n * bound == bound + (n - 1) * bound
  {}

  lemma {:induction false} SumMapNonNegative<K>(m: map<K, int>)
    requires forall k :: k in m ==> m[k] >= 0
    ensures SumMap(m) >= 0
    decreases |m|
  {
    if m != map[] {
      var k := Pick(m);
      assert (m - {k}).Keys == m.Keys - {k};
      SumMapNonNegative(m - {k});
    }
  }

  lemma SubsetCount<T>(a: set<T>, b: set<T>)
    requires a <= b
    ensures |a| <= |b| && (|a| == |b| ==> a == b)
  {
    assert b == a + (b - a);
    assert |b| == |a| + |b - a|;
  }
}
