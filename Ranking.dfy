/**
 * The rankings: `[...list].sort((a, b) => key(b) - key(a)).slice(0, 5)`.
 * JavaScript's `Array.prototype.sort` is stable, so the sort is modelled as a
 * stable insertion sort by descending key; an ascending sort is the same sort
 * on the negated key.
 */
module Ranking {
  import opened Wrappers
  import opened Folds

  /** Ordered by descending key. */
  predicate NonIncreasing<T>(s: seq<T>, key: T -> real) {
    forall i, j :: 0 <= i < j < |s| ==> key(s[i]) >= key(s[j])
  }

  /**
   * One step of the stable sort: `x`, which came first in the input, goes in
   * front of every element whose key is not greater than its own.
   */
  function Insert<T>(x: T, r: seq<T>, key: T -> real): (q: seq<T>)
    ensures |q| == |r| + 1
  {
    if |r| == 0 || key(x) >= key(r[0]) then [x] + r
    else [r[0]] + Insert(x, r[1..], key)
  }

  lemma {:induction false} InsertPermutes<T>(x: T, r: seq<T>, key: T -> real)
    ensures multiset(Insert(x, r, key)) == multiset(r) + multiset{x}
  {
    if |r| > 0 && key(x) < key(r[0]) {
      InsertPermutes(x, r[1..], key);
      assert r == [r[0]] + r[1..];
    }
  }

  lemma {:induction false} PrependNonIncreasing<T>(h: T, t: seq<T>, key: T -> real)
    requires NonIncreasing(t, key)
    requires forall j :: 0 <= j < |t| ==> key(t[j]) <= key(h)
    ensures NonIncreasing([h] + t, key)
  {
    var q := [h] + t;
    forall i, j | 0 <= i < j < |q| ensures key(q[i]) >= key(q[j]) {
      assert q[j] == t[j - 1];
      if i > 0 {
        assert q[i] == t[i - 1];
      }
    }
  }

  lemma {:induction false} InsertNonIncreasing<T>(x: T, r: seq<T>, key: T -> real)
    requires NonIncreasing(r, key)
    ensures NonIncreasing(Insert(x, r, key), key)
  {
    if |r| == 0 || key(x) >= key(r[0]) {
      PrependNonIncreasing(x, r, key);
    } else {
      var q' := Insert(x, r[1..], key);
      InsertNonIncreasing(x, r[1..], key);
      InsertPermutes(x, r[1..], key);
      forall j | 0 <= j < |q'| ensures key(q'[j]) <= key(r[0]) {
        var y := q'[j];
        assert y in multiset(q');
        if y != x {
          assert y in multiset(r[1..]);
          var k :| 0 <= k < |r[1..]| && r[1..][k] == y;
          assert r[k + 1] == y;
        }
      }
      PrependNonIncreasing(r[0], q', key);
    }
  }

  /** `[...s].sort((a, b) => key(b) - key(a))`. */
  function SortDesc<T>(s: seq<T>, key: T -> real): (r: seq<T>)
    ensures |r| == |s|
  {
    if |s| == 0 then []
    else Insert(s[0], SortDesc(s[1..], key), key)
  }

  /** The sorted copy holds the same elements, as often. */
  lemma {:induction false} SortDescPermutes<T>(s: seq<T>, key: T -> real)
    ensures multiset(SortDesc(s, key)) == multiset(s)
  {
    if |s| > 0 {
      SortDescPermutes(s[1..], key);
      InsertPermutes(s[0], SortDesc(s[1..], key), key);
      assert s == [s[0]] + s[1..];
    }
  }

  /** The sorted copy is ordered by descending key. */
  lemma {:induction false} SortDescOrdered<T>(s: seq<T>, key: T -> real)
    ensures NonIncreasing(SortDesc(s, key), key)
  {
    if |s| > 0 {
      SortDescOrdered(s[1..], key);
      InsertNonIncreasing(s[0], SortDesc(s[1..], key), key);
    }
  }

  /** `i` holds the largest key, and every earlier element a smaller one. */
  predicate IsFirstMax<T>(s: seq<T>, key: T -> real, i: int) {
    && 0 <= i < |s|
    && (forall j :: 0 <= j < |s| ==> key(s[j]) <= key(s[i]))
    && (forall j :: 0 <= j < i ==> key(s[j]) < key(s[i]))
  }

  /** The position of the first element that holds the largest key. */
  function FirstMaxIndex<T>(s: seq<T>, key: T -> real): (i: nat)
    requires |s| > 0
    ensures IsFirstMax(s, key, i)
  {
    if |s| == 1 then 0
    else
      var i := FirstMaxIndex(s[1..], key);
      if key(s[0]) >= key(s[1 + i]) then 0 else 1 + i
  }

  /** Ties are won by the element that came first. */
  lemma {:induction false} SortDescHead<T>(s: seq<T>, key: T -> real)
    requires |s| > 0
    ensures SortDesc(s, key)[0] == s[FirstMaxIndex(s, key)]
  {
    if |s| > 1 {
      SortDescHead(s[1..], key);
    }
  }

  /** The length of every ranking. */
  const RankingSize: nat := 5

  /** The first `RankingSize` entries of the sorted copy (`.slice(0, 5)`). */
  function Top<T>(s: seq<T>, key: T -> real): (r: seq<T>)
    ensures |r| == if |s| < RankingSize then |s| else RankingSize
  {
    var sorted := SortDesc(s, key);
    sorted[..if |sorted| < RankingSize then |sorted| else RankingSize]
  }

  /**
   * `r` ranks `s`: at most `RankingSize` entries, by descending key, drawn
   * from `s`, and leaving out only elements whose key is at most that of its
   * last entry (so none when `s` has at most `RankingSize` elements).
   */
  ghost predicate IsRankingOf<T>(r: seq<T>, s: seq<T>, key: T -> real) {
    && |r| == (if |s| < RankingSize then |s| else RankingSize)
    && NonIncreasing(r, key)
    && multiset(r) <= multiset(s)
    && (forall x :: x in multiset(s) - multiset(r) ==> |r| == RankingSize && key(x) <= key(r[RankingSize - 1]))
  }

  /** `Top` is such a ranking. */
  lemma {:induction false} TopIsRanking<T>(s: seq<T>, key: T -> real)
    ensures IsRankingOf(Top(s, key), s, key)
  {
    var sorted := SortDesc(s, key);
    var n := if |sorted| < RankingSize then |sorted| else RankingSize;
    SortDescOrdered(s, key);
    SortDescPermutes(s, key);
    TopSplit(sorted, n, key);
  }

  lemma {:induction false} TopSplit<T>(sorted: seq<T>, n: nat, key: T -> real)
    requires n <= |sorted| && NonIncreasing(sorted, key)
    ensures NonIncreasing(sorted[..n], key)
    ensures multiset(sorted[..n]) <= multiset(sorted)
    ensures multiset(sorted) - multiset(sorted[..n]) == multiset(sorted[n..])
    ensures forall x :: x in multiset(sorted[n..]) ==> n < |sorted| && (n > 0 ==> key(x) <= key(sorted[n - 1]))
  {
    assert sorted == sorted[..n] + sorted[n..];
    assert multiset(sorted) == multiset(sorted[..n]) + multiset(sorted[n..]);
    forall x | x in multiset(sorted[n..]) ensures n < |sorted| && (n > 0 ==> key(x) <= key(sorted[n - 1])) {
      TailBelowPrefix(sorted, n, key, x);
    }
  }

  lemma {:induction false} TailBelowPrefix<T>(sorted: seq<T>, n: nat, key: T -> real, x: T)
    requires n <= |sorted| && NonIncreasing(sorted, key)
    requires x in multiset(sorted[n..])
    ensures n < |sorted| && (n > 0 ==> key(x) <= key(sorted[n - 1]))
  {
    assert x in sorted[n..];
    var j :| 0 <= j < |sorted[n..]| && sorted[n..][j] == x;
    assert sorted[n + j] == x;
  }

  /** `list[0] || null`. */
  function First<T>(s: seq<T>): (r: Option<T>)
    ensures r.Some? <==> |s| > 0
    ensures r.Some? ==> r.value == s[0]
  {
    if |s| > 0 then Some(s[0]) else None
  }

  /**
   * The head of a ranking (an "insight") is null exactly when the list is
   * empty, and otherwise the first element of the list that holds the largest key.
   */
  lemma {:induction false} InsightIsFirstMaximum<T>(s: seq<T>, key: T -> real)
    ensures First(Top(s, key)) == if |s| == 0 then None else Some(s[FirstMaxIndex(s, key)])
  {
    if |s| > 0 {
      SortDescHead(s, key);
    }
  }

  /** `s.reduce((max, x) => key(x) > key(max) ? x : max, init)`. */
  function ChampionFrom<T>(s: seq<T>, key: T -> real, init: T): T {
    if |s| == 0 then init
    else
      var max := ChampionFrom(s[..|s| - 1], key, init);
      if key(s[|s| - 1]) > key(max) then s[|s| - 1] else max
  }

  /** Only the first position holding the largest key is the first maximum. */
  lemma {:induction false} FirstMaxUnique<T>(s: seq<T>, key: T -> real, i: int, j: int)
    requires IsFirstMax(s, key, i) && IsFirstMax(s, key, j)
    ensures i == j
  {
    assert key(s[j]) <= key(s[i]) && key(s[i]) <= key(s[j]);
  }

  /** Reducing a non-empty prefix from its first element lands on the prefix's first maximum. */
  lemma {:induction false} ChampionPrefix<T>(s: seq<T>, key: T -> real, n: nat) returns (i: nat)
    requires 1 <= n <= |s|
    ensures IsFirstMax(s[..n], key, i) && ChampionFrom(s[..n], key, s[0]) == s[i]
  {
    var p := s[..n];
    assert p[..n - 1] == s[..n - 1];
    if n == 1 {
      i := 0;
    } else {
      var i' := ChampionPrefix(s, key, n - 1);
      assert forall j :: 0 <= j < n - 1 ==> p[j] == s[..n - 1][j];
      if key(s[n - 1]) > key(s[i']) {
        i := n - 1;
      } else {
        i := i';
      }
    }
  }

  /**
   * `s.reduce(..., s[0])` picks the element with the largest key, and of
   * several with that key the one that comes first.
   */
  lemma {:induction false} ChampionIsFirstMax<T>(s: seq<T>, key: T -> real)
    requires |s| > 0
    ensures ChampionFrom(s, key, s[0]) == s[FirstMaxIndex(s, key)]
  {
    var i := ChampionPrefix(s, key, |s|);
    assert s[..|s|] == s;
    FirstMaxUnique(s, key, i, FirstMaxIndex(s, key));
  }
}
