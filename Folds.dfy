/**
 * The list operations the controllers chain together: `reduce` into a running
 * total, and `filter` on a field, as functions over sequences. Projections are
 * passed as named functions so that the same total is the same term wherever it
 * is written.
 */
module Folds {
  /** `s.reduce((sum, x) => sum + f(x), 0)`: totals are accumulated left to right. */
  function SumBy<T>(s: seq<T>, f: T -> real): real {
    if |s| == 0 then 0.0 else SumBy(s[..|s| - 1], f) + f(s[|s| - 1])
  }

  lemma {:induction false} SumByAppend<T>(a: seq<T>, b: seq<T>, f: T -> real)
    ensures SumBy(a + b, f) == SumBy(a, f) + SumBy(b, f)
  {
    if |b| == 0 {
      assert a + b == a;
    } else {
      SumByAppend(a, b[..|b| - 1], f);
      assert (a + b)[..|a + b| - 1] == a + b[..|b| - 1];
    }
  }

  lemma {:induction false} SumBySnoc<T>(s: seq<T>, x: T, f: T -> real)
    ensures SumBy(s + [x], f) == SumBy(s, f) + f(x)
  {
    assert (s + [x])[..|s|] == s;
  }

  /** A total does not depend on the order in which the rows arrive. */
  lemma {:induction false} SumByPermutation<T>(a: seq<T>, b: seq<T>, f: T -> real)
    requires multiset(a) == multiset(b)
    ensures SumBy(a, f) == SumBy(b, f)
  {
    if |a| == 0 {
      assert |b| == |multiset(b)| == 0;
    } else {
      var x := a[|a| - 1];
      var a' := a[..|a| - 1];
      assert a == a' + [x];
      assert x in multiset(b);
      var j :| 0 <= j < |b| && b[j] == x;
      MultisetRemove(b, j);
      assert multiset(a') == multiset(a) - multiset{x};
      SumByPermutation(a', b[..j] + b[j + 1..], f);
      SumByRemove(b, j, f);
      SumBySnoc(a', x, f);
    }
  }

  lemma {:induction false} MultisetRemove<T>(b: seq<T>, j: int)
    requires 0 <= j < |b|
    ensures multiset(b[..j] + b[j + 1..]) == multiset(b) - multiset{b[j]}
  {
    assert b == b[..j] + [b[j]] + b[j + 1..];
  }

  lemma {:induction false} SumByRemove<T>(b: seq<T>, j: int, f: T -> real)
    requires 0 <= j < |b|
    ensures SumBy(b, f) == SumBy(b[..j] + b[j + 1..], f) + f(b[j])
  {
    var p, x, q := b[..j], b[j], b[j + 1..];
    assert b == (p + [x]) + q;
    SumByAppend(p + [x], q, f);
    SumBySnoc(p, x, f);
    SumByAppend(p, q, f);
  }

  /** Replacing one element changes the total by the difference of the two values. */
  lemma {:induction false} SumByUpdate<T>(s: seq<T>, j: int, y: T, f: T -> real)
    requires 0 <= j < |s|
    ensures SumBy(s[j := y], f) == SumBy(s, f) - f(s[j]) + f(y)
  {
    assert s == s[..j] + [s[j]] + s[j + 1..];
    assert s[j := y] == s[..j] + [y] + s[j + 1..];
    SumByAppend(s[..j] + [s[j]], s[j + 1..], f);
    SumByAppend(s[..j] + [y], s[j + 1..], f);
    SumByAppend(s[..j], [s[j]], f);
    SumByAppend(s[..j], [y], f);
    assert [y][..0] == [s[j]][..0] == [];
  }

  lemma {:induction false} SumByNonNegative<T>(s: seq<T>, f: T -> real)
    requires forall x :: x in s ==> f(x) >= 0.0
    ensures SumBy(s, f) >= 0.0
  {
    if |s| > 0 {
      assert s[|s| - 1] in s;
      assert forall x :: x in s[..|s| - 1] ==> x in s;
      SumByNonNegative(s[..|s| - 1], f);
    }
  }

  /** `s.filter(x => key(x) === k)`. */
  function Keyed<T, K(==)>(s: seq<T>, key: T -> K, k: K): (r: seq<T>)
    ensures |r| <= |s|
  {
    if |s| == 0 then []
    else
      var init := Keyed(s[..|s| - 1], key, k);
      if key(s[|s| - 1]) == k then init + [s[|s| - 1]] else init
  }

  /** Exactly the rows with that key survive the filter. */
  lemma {:induction false} KeyedMembers<T, K>(s: seq<T>, key: T -> K, k: K)
    ensures forall x :: x in Keyed(s, key, k) <==> x in s && key(x) == k
  {
    if |s| > 0 {
      KeyedMembers(s[..|s| - 1], key, k);
      assert s == s[..|s| - 1] + [s[|s| - 1]];
    }
  }

  /** Keys listed at most once. */
  predicate Distinct<K(==)>(ks: seq<K>) {
    forall i, j :: 0 <= i < j < |ks| ==> ks[i] != ks[j]
  }

  /** The per-key totals of `s`, added up over the keys `ks`. */
  function KeyedSums<T, K(==)>(s: seq<T>, key: T -> K, f: T -> real, ks: seq<K>): real {
    if |ks| == 0 then 0.0
    else KeyedSums(s, key, f, ks[..|ks| - 1]) + SumBy(Keyed(s, key, ks[|ks| - 1]), f)
  }

  lemma {:induction false} KeyedSumsSnoc<T, K>(s: seq<T>, x: T, key: T -> K, f: T -> real, ks: seq<K>)
    requires Distinct(ks)
    ensures KeyedSums(s + [x], key, f, ks) == KeyedSums(s, key, f, ks) + (if key(x) in ks then f(x) else 0.0)
  {
    if |ks| > 0 {
      var ks' := ks[..|ks| - 1];
      var k := ks[|ks| - 1];
      KeyedSumsSnoc(s, x, key, f, ks');
      assert (s + [x])[..|s + [x]| - 1] == s;
      assert key(x) in ks <==> key(x) in ks' || key(x) == k by {
        assert ks == ks' + [k];
      }
      if key(x) == k {
        assert key(x) !in ks';
        SumByAppend(Keyed(s, key, k), [x], f);
        assert [x][..0] == [];
      }
    }
  }

  /**
   * Splitting rows by a key and totalling each part gives the overall total,
   * provided every row's key is one of the (distinct) keys.
   */
  lemma {:induction false} PartitionSum<T, K>(s: seq<T>, key: T -> K, f: T -> real, ks: seq<K>)
    requires Distinct(ks)
    requires forall x :: x in s ==> key(x) in ks
    ensures KeyedSums(s, key, f, ks) == SumBy(s, f)
  {
    if |s| == 0 {
      KeyedSumsEmpty(key, f, ks);
    } else {
      var s' := s[..|s| - 1];
      assert s == s' + [s[|s| - 1]];
      PartitionSum(s', key, f, ks);
      KeyedSumsSnoc(s', s[|s| - 1], key, f, ks);
    }
  }

  lemma {:induction false} KeyedSumsEmpty<T, K>(key: T -> K, f: T -> real, ks: seq<K>)
    ensures KeyedSums([], key, f, ks) == 0.0
  {
    if |ks| > 0 {
      KeyedSumsEmpty(key, f, ks[..|ks| - 1]);
    }
  }

  /** A member of a prefix is a member of the whole list. */
  lemma {:induction false} ListedInWhole<T>(s: seq<T>, n: nat, x: T)
    requires n <= |s| && x in s[..n]
    ensures x in s
  {
    var k :| 0 <= k < n && s[..n][k] == x;
    assert s[k] == x;
  }

  /** A member other than the last is a member of the list without it. */
  lemma {:induction false} InitOrLast<T>(s: seq<T>, x: T)
    requires |s| > 0 && x in s && x != s[|s| - 1]
    ensures x in s[..|s| - 1]
  {
    var k :| 0 <= k < |s| && s[k] == x;
    assert s[..|s| - 1][k] == x;
  }
}
