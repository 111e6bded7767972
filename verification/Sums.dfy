/** Finite sums over sequences and maps, and how one change moves them. */
module Sums {

  function SumSeq<T>(s: seq<T>, f: T -> nat): nat {
    if s == [] then 0 else SumSeq(s[..|s| - 1], f) + f(s[|s| - 1])
  }

  lemma {:induction false} SumSnoc<T>(s: seq<T>, x: T, f: T -> nat)
    ensures SumSeq(s + [x], f) == SumSeq(s, f) + f(x)
  {
    assert (s + [x])[..|s|] == s;
  }

  lemma {:induction false} SumConcat<T>(s: seq<T>, t: seq<T>, f: T -> nat)
    ensures SumSeq(s + t, f) == SumSeq(s, f) + SumSeq(t, f)
  {
    if t == [] {
      assert s + t == s;
    } else {
      var last := |t| - 1;
      SumConcat(s, t[..last], f);
      assert s + t == (s + t[..last]) + [t[last]];
      SumSnoc(s + t[..last], t[last], f);
    }
  }

  lemma {:induction false} SumCons<T>(s: seq<T>, f: T -> nat)
    requires s != []
    ensures SumSeq(s, f) == f(s[0]) + SumSeq(s[1..], f)
  {
    assert s == [s[0]] + s[1..];
    SumConcat([s[0]], s[1..], f);
    assert SumSeq([s[0]], f) == SumSeq([], f) + f(s[0]) by { SumSnoc([], s[0], f); assert [] + [s[0]] == [s[0]]; }
  }

  lemma {:induction false} SumUpdate<T>(s: seq<T>, i: nat, x: T, f: T -> nat)
    requires i < |s|
    ensures SumSeq(s[i := x], f) + f(s[i]) == SumSeq(s, f) + f(x)
  {
    var last := |s| - 1;
    if i == last {
      assert s[i := x][..last] == s[..last];
    } else {
      SumUpdate(s[..last], i, x, f);
      assert s[i := x][..last] == s[..last][i := x];
    }
  }

  /** Pointwise equal summands give equal sums. */
  lemma {:induction false} SumSame<S, T>(s: seq<S>, f: S -> nat, t: seq<T>, g: T -> nat)
    requires |s| == |t|
    requires forall i :: 0 <= i < |s| ==> f(s[i]) == g(t[i])
    ensures SumSeq(s, f) == SumSeq(t, g)
  {
    if s != [] {
      var last := |s| - 1;
      forall i | 0 <= i < last ensures f(s[..last][i]) == g(t[..last][i]) {
        assert f(s[i]) == g(t[i]);
      }
      SumSame(s[..last], f, t[..last], g);
    }
  }

  lemma {:induction false} SumLe<S, T>(s: seq<S>, f: S -> nat, t: seq<T>, g: T -> nat)
    requires |s| == |t|
    requires forall i :: 0 <= i < |s| ==> f(s[i]) <= g(t[i])
    ensures SumSeq(s, f) <= SumSeq(t, g)
  {
    if s != [] {
      var last := |s| - 1;
      forall i | 0 <= i < last ensures f(s[..last][i]) <= g(t[..last][i]) {
        assert f(s[i]) <= g(t[i]);
      }
      SumLe(s[..last], f, t[..last], g);
    }
  }

  /** A summand split in two splits the sum. */
  lemma {:induction false} SumSplit<T>(s: seq<T>, f: T -> nat, g: T -> nat, h: T -> nat)
    requires forall i :: 0 <= i < |s| ==> f(s[i]) == g(s[i]) + h(s[i])
    ensures SumSeq(s, f) == SumSeq(s, g) + SumSeq(s, h)
  {
    if s != [] {
      var last := |s| - 1;
      forall i | 0 <= i < last ensures f(s[..last][i]) == g(s[..last][i]) + h(s[..last][i]) {
        assert f(s[i]) == g(s[i]) + h(s[i]);
      }
      SumSplit(s[..last], f, g, h);
    }
  }

  lemma {:induction false} SumZero<T>(s: seq<T>, f: T -> nat)
    requires forall i :: 0 <= i < |s| ==> f(s[i]) == 0
    ensures SumSeq(s, f) == 0
  {
    if s != [] {
      var last := |s| - 1;
      forall i | 0 <= i < last ensures f(s[..last][i]) == 0 {
        assert f(s[i]) == 0;
      }
      SumZero(s[..last], f);
    }
  }

  lemma {:induction false} SumMember<T>(s: seq<T>, i: nat, f: T -> nat)
    requires i < |s|
    ensures f(s[i]) <= SumSeq(s, f)
  {
    assert s == (s[..i] + [s[i]]) + s[i + 1..];
    SumConcat(s[..i] + [s[i]], s[i + 1..], f);
    SumSnoc(s[..i], s[i], f);
  }

  /** A prefix sums to no more than the whole. */
  lemma {:induction false} SumPrefix<T>(s: seq<T>, n: nat, f: T -> nat)
    requires n <= |s|
    ensures SumSeq(s[..n], f) <= SumSeq(s, f)
  {
    assert s == s[..n] + s[n..];
    SumConcat(s[..n], s[n..], f);
  }

  /** Sum of `f` over the entries of a map; the order of summation is immaterial. */
  ghost function SumMap<K, V>(m: map<K, V>, f: ((K, V)) -> nat): nat {
    if m == map[] then 0 else
      var k :| k in m;
      f((k, m[k])) + SumMap(m - {k}, f)
  }

  lemma {:induction false} MapShrinks<K, V>(m: map<K, V>, k: K)
    requires k in m
    ensures |m - {k}| < |m|
  {
    assert (m - {k}).Keys == m.Keys - {k};
    assert |(m - {k}).Keys| == |m - {k}|;
  }

  /** Any key may be split off, not just the one the definition picks. */
  lemma {:induction false} SumMapRemove<K, V>(m: map<K, V>, k: K, f: ((K, V)) -> nat)
    requires k in m
    ensures SumMap(m, f) == f((k, m[k])) + SumMap(m - {k}, f)
    decreases |m|
  {
    var p :| p in m && SumMap(m, f) == f((p, m[p])) + SumMap(m - {p}, f);
    if p != k {
      MapShrinks(m, p);
      MapShrinks(m, k);
      SumMapRemove(m - {p}, k, f);
      SumMapRemove(m - {k}, p, f);
      assert m - {p} - {k} == m - {k} - {p};
    }
  }

  lemma {:induction false} SumMapUpdate<K, V>(m: map<K, V>, k: K, v: V, f: ((K, V)) -> nat)
    requires k in m
    ensures SumMap(m[k := v], f) + f((k, m[k])) == SumMap(m, f) + f((k, v))
  {
    SumMapRemove(m, k, f);
    SumMapRemove(m[k := v], k, f);
    assert m[k := v] - {k} == m - {k};
  }

  lemma {:induction false} SumMapInsert<K, V>(m: map<K, V>, k: K, v: V, f: ((K, V)) -> nat)
    requires k !in m
    ensures SumMap(m[k := v], f) == SumMap(m, f) + f((k, v))
  {
    SumMapRemove(m[k := v], k, f);
    assert m[k := v] - {k} == m;
  }

  lemma {:induction false} SumMapZero<K, V>(m: map<K, V>, f: ((K, V)) -> nat)
    requires forall k :: k in m ==> f((k, m[k])) == 0
    ensures SumMap(m, f) == 0
    decreases |m|
  {
    if m != map[] {
      var k :| k in m;
      MapShrinks(m, k);
      SumMapRemove(m, k, f);
      SumMapZero(m - {k}, f);
    }
  }

  lemma {:induction false} SumMapMember<K, V>(m: map<K, V>, k: K, f: ((K, V)) -> nat)
    requires k in m
    ensures f((k, m[k])) <= SumMap(m, f)
  {
    SumMapRemove(m, k, f);
  }
}
