/**
 Totals over the entries of a map and over the elements of a log. The broker never stores a
 running total: every budget is a fold, so every argument about money is one about these sums.
 */
module Sums {

  /** Total weight of the entries of `m`, independent of any iteration order. */
  ghost function Sum<K, V>(m: map<K, V>, w: (K, V) -> int): int
    decreases |m|
  {
    if m == map[] then 0 else var k :| k in m; w(k, m[k]) + Sum(m - {k}, w)
  }

  /** Total weight of a log, oldest element first. */
  ghost function SumSeq<T>(s: seq<T>, w: T -> int): int
  {
    if |s| == 0 then 0 else SumSeq(s[..|s| - 1], w) + w(s[|s| - 1])
  }

  /** Any entry may be taken out first. */
  lemma {:induction false} SumPick<K, V>(m: map<K, V>, k: K, w: (K, V) -> int)
    requires k in m
    ensures Sum(m, w) == w(k, m[k]) + Sum(m - {k}, w)
    decreases |m|
  {
    var first :| first in m && Sum(m, w) == w(first, m[first]) + Sum(m - {first}, w);
    if first != k {
      SumPick(m - {first}, k, w);
      SumPick(m - {k}, first, w);
      assert m - {first} - {k} == m - {k} - {first};
    }
  }

  /** Writing one entry, while the weighing may change for that entry only. */
  lemma SumSwap<K, V>(m: map<K, V>, k: K, v: V, w: (K, V) -> int, w': (K, V) -> int)
    requires forall j :: j in m && j != k ==> w(j, m[j]) == w'(j, m[j])
    ensures Sum(m[k := v], w') == Sum(m, w) - (if k in m then w(k, m[k]) else 0) + w'(k, v)
  {
    SumPick(m[k := v], k, w');
    SumCongruent(m - {k}, w, w');
    assert m[k := v] - {k} == m - {k};
    if k in m {
      SumPick(m, k, w);
    } else {
      assert m - {k} == m;
    }
  }

  lemma {:induction false} SumCongruent<K, V>(m: map<K, V>, w: (K, V) -> int, w': (K, V) -> int)
    requires forall j :: j in m ==> w(j, m[j]) == w'(j, m[j])
    ensures Sum(m, w) == Sum(m, w')
    decreases |m|
  {
    if m != map[] {
      var k :| k in m;
      SumPick(m, k, w);
      SumPick(m, k, w');
      SumCongruent(m - {k}, w, w');
    }
  }

  lemma {:induction false} SumAdd<K, V>(m: map<K, V>, w: (K, V) -> int, w': (K, V) -> int, both: (K, V) -> int)
    requires forall j :: j in m ==> both(j, m[j]) == w(j, m[j]) + w'(j, m[j])
    ensures Sum(m, both) == Sum(m, w) + Sum(m, w')
    decreases |m|
  {
    if m != map[] {
      var k :| k in m;
      SumPick(m, k, w);
      SumPick(m, k, w');
      SumPick(m, k, both);
      SumAdd(m - {k}, w, w', both);
    }
  }

  lemma {:induction false} SumNonNegative<K, V>(m: map<K, V>, w: (K, V) -> int)
    requires forall j :: j in m ==> 0 <= w(j, m[j])
    ensures 0 <= Sum(m, w)
    decreases |m|
  {
    if m != map[] {
      var k :| k in m;
      SumPick(m, k, w);
      SumNonNegative(m - {k}, w);
    }
  }

  /** No entry weighs more than the whole. */
  lemma SumMember<K, V>(m: map<K, V>, k: K, w: (K, V) -> int)
    requires k in m && forall j :: j in m ==> 0 <= w(j, m[j])
    ensures w(k, m[k]) <= Sum(m, w)
  {
    SumPick(m, k, w);
    SumNonNegative(m - {k}, w);
  }

  lemma SumSeqAppend<T>(s: seq<T>, x: T, w: T -> int)
    ensures SumSeq(s + [x], w) == SumSeq(s, w) + w(x)
  {
    assert (s + [x])[..|s|] == s;
  }

  lemma {:induction false} SumSeqConcat<T>(s: seq<T>, t: seq<T>, w: T -> int)
    ensures SumSeq(s + t, w) == SumSeq(s, w) + SumSeq(t, w)
  {
    if |t| == 0 {
      assert s + t == s;
    } else {
      assert (s + t)[..|s + t| - 1] == s + t[..|t| - 1];
      SumSeqConcat(s, t[..|t| - 1], w);
    }
  }

  lemma SumSeqOne<T>(a: T, w: T -> int)
    ensures SumSeq([a], w) == w(a)
  {
    SumSeqAppend([], a, w);
    assert [] + [a] == [a];
  }

  lemma SumSeqTwo<T>(a: T, b: T, w: T -> int)
    ensures SumSeq([a, b], w) == w(a) + w(b)
  {
    SumSeqOne(a, w);
    SumSeqAppend([a], b, w);
    assert [a] + [b] == [a, b];
  }

  lemma {:induction false} SumSeqCongruent<T>(s: seq<T>, w: T -> int, w': T -> int)
    requires forall x :: x in s ==> w(x) == w'(x)
    ensures SumSeq(s, w) == SumSeq(s, w')
  {
    if |s| > 0 {
      SumSeqCongruent(s[..|s| - 1], w, w');
    }
  }

  lemma {:induction false} SumSeqLe<T>(s: seq<T>, w: T -> int, w': T -> int)
    requires forall x :: x in s ==> w(x) <= w'(x)
    ensures SumSeq(s, w) <= SumSeq(s, w')
  {
    if |s| > 0 {
      SumSeqLe(s[..|s| - 1], w, w');
    }
  }

  lemma {:induction false} SumSeqNonNegative<T>(s: seq<T>, w: T -> int)
    requires forall x :: x in s ==> 0 <= w(x)
    ensures 0 <= SumSeq(s, w)
  {
    if |s| > 0 {
      SumSeqNonNegative(s[..|s| - 1], w);
    }
  }

  /** With non-negative weights a prefix never outweighs the log. */
  lemma {:induction false} SumSeqPrefix<T>(s: seq<T>, n: nat, w: T -> int)
    requires n <= |s|
    requires forall x :: x in s ==> 0 <= w(x)
    ensures SumSeq(s[..n], w) <= SumSeq(s, w)
  {
    if n < |s| {
      assert s[..|s| - 1][..n] == s[..n];
      SumSeqPrefix(s[..|s| - 1], n, w);
    } else {
      assert s[..n] == s;
    }
  }
}
