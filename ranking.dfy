/** Score/item pairs as both retrieval stores build them: a list of
    `(score, item)` tuples, stably sorted by score, highest first. */
module Ranking {
  import StableSort

  /** The sort key of both stores: `key=lambda x: x[0]` with `reverse=True`. */
  predicate ByScore<T>(a: (nat, T), b: (nat, T)) {
    a.0 >= b.0
  }

  lemma ByScoreIsTotalPreorder<T(!new)>()
    ensures StableSort.TotalPreorder(ByScore<T>)
  {
  }

  /** `scores.sort(key=lambda x: x[0], reverse=True)` */
  function Rank<T>(scored: seq<(nat, T)>): (r: seq<(nat, T)>)
    ensures |r| == |scored| && multiset(r) == multiset(scored)
  {
    StableSort.Sort(scored, ByScore)
  }

  /** `s[:n]` for `n >= 0` */
  function Take<T>(s: seq<T>, n: nat): (r: seq<T>)
    ensures |r| == if n < |s| then n else |s|
    ensures r == s[..|r|]
  {
    if n < |s| then s[..n] else s
  }

  /** `[item for score, item in s]` */
  function Items<T>(s: seq<(nat, T)>): (r: seq<T>)
    ensures |r| == |s| && forall i :: 0 <= i < |s| ==> r[i] == s[i].1
  {
    seq(|s|, i requires 0 <= i < |s| => s[i].1)
  }

  /** `[item for score, item in s if score > 0]` */
  function PositiveItems<T>(s: seq<(nat, T)>): (r: seq<T>)
    ensures |r| <= |s|
    ensures forall x :: x in r ==> exists p :: p in s && p.0 > 0 && p.1 == x
  {
    if |s| == 0 then []
    else
      var rest := PositiveItems(s[1..]);
      assert forall p :: p in s[1..] ==> p in s;
      (if s[0].0 > 0 then [s[0].1] else []) + rest
  }

  /** The items of `s` whose score is `k`, in their order in `s`. */
  function WithScore<T>(s: seq<(nat, T)>, k: nat): seq<T> {
    if |s| == 0 then []
    else WithScore(s[..|s| - 1], k) + (if s[|s| - 1].0 == k then [s[|s| - 1].1] else [])
  }

  predicate IsPrefix<T(==)>(a: seq<T>, b: seq<T>) {
    |a| <= |b| && b[..|a|] == a
  }

  /** In a descending score list, the positive scores come first, so keeping
      the positive items keeps a prefix. */
  lemma {:induction false} PositiveItemsOfSorted<T(!new)>(s: seq<(nat, T)>)
    requires StableSort.SortedDesc(s, ByScore)
    ensures PositiveItems(s) == Items(s[..|PositiveItems(s)|])
    ensures forall i :: 0 <= i < |PositiveItems(s)| ==> s[i].0 > 0
    ensures forall i :: |PositiveItems(s)| <= i < |s| ==> s[i].0 == 0
  {
    if |s| > 0 {
      StableSort.SortedTail(s, ByScore);
      PositiveItemsOfSorted(s[1..]);
      var rest := PositiveItems(s[1..]);
      if s[0].0 > 0 {
        assert PositiveItems(s) == [s[0].1] + rest;
        assert Items(s[..|rest| + 1]) == [s[0].1] + Items(s[1..][..|rest|]);
      } else {
        assert forall i :: 0 <= i < |s| ==> ByScore(s[0], s[i]) by {
          forall i | 0 < i < |s| ensures ByScore(s[0], s[i]) {
          }
        }
        assert |s| == 1 || s[1..][0].0 == 0;
      }
    }
  }

  /** Stable sorting keeps, for every score, the order of the items with
      that score. */
  lemma RankKeepsTieOrder<T(!new)>(scored: seq<(nat, T)>, k: nat, z: T)
    ensures WithScore(Rank(scored), k) == WithScore(scored, k)
  {
    ByScoreIsTotalPreorder<T>();
    StableSort.SortStable(scored, (k, z), ByScore);
    TiedWithIsWithScore(Rank(scored), k, z);
    TiedWithIsWithScore(scored, k, z);
  }

  lemma {:induction false} TiedWithIsWithScore<T>(s: seq<(nat, T)>, k: nat, z: T)
    ensures Items(StableSort.TiedWith(s, (k, z), ByScore)) == WithScore(s, k)
  {
    if |s| > 0 {
      TiedWithIsWithScore(s[..|s| - 1], k, z);
      var last := s[|s| - 1];
      var init := StableSort.TiedWith(s[..|s| - 1], (k, z), ByScore);
      if last.0 == k {
        assert Items(init + [last]) == Items(init) + [last.1];
      } else {
        assert init + [] == init;
      }
    }
  }

  /** Cutting a list short keeps, for every score, a prefix of the items
      with that score. */
  lemma {:induction false} WithScoreOfPrefix<T>(s: seq<(nat, T)>, m: nat, k: nat)
    requires m <= |s|
    ensures IsPrefix(WithScore(s[..m], k), WithScore(s, k))
    decreases |s|
  {
    if m < |s| {
      WithScoreOfPrefix(s[..|s| - 1], m, k);
      assert s[..|s| - 1][..m] == s[..m];
    } else {
      assert s[..m] == s;
    }
  }

  /** A sorted list has its largest score first. */
  lemma FirstIsLargest<T>(s: seq<(nat, T)>, j: int)
    requires StableSort.SortedDesc(s, ByScore) && 0 <= j < |s|
    ensures s[0].0 >= s[j].0
  {
    if j > 0 {
      assert ByScore(s[0], s[j]);
    }
  }

  /** `Rank` puts its result in descending score order. */
  lemma RankSorted<T(!new)>(scored: seq<(nat, T)>)
    ensures StableSort.SortedDesc(Rank(scored), ByScore)
  {
    ByScoreIsTotalPreorder<T>();
    StableSort.SortSorted(scored, ByScore);
  }

  lemma PrefixSorted<T>(s: seq<(nat, T)>, m: nat)
    requires m <= |s| && StableSort.SortedDesc(s, ByScore)
    ensures StableSort.SortedDesc(s[..m], ByScore)
  {
    forall i, j | 0 <= i < j < m
      ensures ByScore(s[..m][i], s[..m][j])
    {
      assert s[..m][i] == s[i] && s[..m][j] == s[j];
    }
  }

  /** `r` is the first `|r|` items of the descending list `s`, all with
      positive scores, and if `r` is shorter than `n` nothing after it in
      `s` has a positive score. */
  ghost predicate TopPositive<T>(s: seq<(nat, T)>, n: nat, r: seq<T>) {
    && |r| <= |s|
    && r == Items(s[..|r|])
    && StableSort.SortedDesc(s, ByScore)
    && (forall i :: 0 <= i < |r| ==> s[i].0 > 0)
    && (|r| < n ==> forall i :: |r| <= i < |s| ==> s[i].0 == 0)
  }

  /** Keeping the positive items among the first `n` of a descending list. */
  lemma PositiveTake<T(!new)>(s: seq<(nat, T)>, n: nat)
    requires StableSort.SortedDesc(s, ByScore)
    ensures TopPositive(s, n, PositiveItems(Take(s, n)))
  {
    var top := Take(s, n);
    PrefixSorted(s, |top|);
    PositiveItemsOfSorted(top);
    var r := PositiveItems(top);
    assert top[..|r|] == s[..|r|];
    if |r| < n && |top| < |s| {
      assert top[|r|] == s[|r|];
      forall i | |r| < i < |s|
        ensures s[i].0 == 0
      {
        assert ByScore(s[|r|], s[i]);
      }
    }
  }
}
