/** Python's `list.sort(key=..., reverse=True)` and `sorted(..., reverse=True)`:
    a stable sort into descending order. Elements are compared with `ge`
    ("the key of a is at least the key of b"), which must be a total preorder.
    Python keeps elements with equal keys in their original order even with
    `reverse=True`; `SortStable` proves the same of `Sort`. */
module StableSort {
  import Seqs

  ghost predicate TotalPreorder<T(!new)>(ge: (T, T) -> bool) {
    && (forall a, b :: ge(a, b) || ge(b, a))
    && (forall a, b, c :: ge(a, b) && ge(b, c) ==> ge(a, c))
  }

  /** `r` is in descending order under `ge`. */
  ghost predicate SortedDesc<T>(r: seq<T>, ge: (T, T) -> bool) {
    forall i, j :: 0 <= i < j < |r| ==> ge(r[i], r[j])
  }

  /** `a` and `b` have equal keys. */
  predicate Tied<T>(ge: (T, T) -> bool, a: T, b: T) {
    ge(a, b) && ge(b, a)
  }

  /** The elements of `s` whose key equals the key of `z`, in their order in `s`. */
  function TiedWith<T>(s: seq<T>, z: T, ge: (T, T) -> bool): seq<T> {
    if |s| == 0 then []
    else TiedWith(s[..|s| - 1], z, ge) + (if Tied(ge, s[|s| - 1], z) then [s[|s| - 1]] else [])
  }

  /** Inserts `x` into the descending sequence `t` after every element whose
      key is at least the key of `x`. */
  function Insert<T>(x: T, t: seq<T>, ge: (T, T) -> bool): (r: seq<T>)
    ensures |r| == |t| + 1
    ensures multiset(r) == multiset(t) + multiset{x}
  {
    if |t| == 0 then [x]
    else if ge(t[0], x) then
      assert t == [t[0]] + t[1..];
      [t[0]] + Insert(x, t[1..], ge)
    else [x] + t
  }

  /** Insertion sort, taking the elements of `s` from first to last. */
  function Sort<T>(s: seq<T>, ge: (T, T) -> bool): (r: seq<T>)
    ensures |r| == |s|
    ensures multiset(r) == multiset(s)
  {
    if |s| == 0 then []
    else
      assert s == s[..|s| - 1] + [s[|s| - 1]];
      Insert(s[|s| - 1], Sort(s[..|s| - 1], ge), ge)
  }

  lemma {:induction false} InsertSorted<T(!new)>(x: T, t: seq<T>, ge: (T, T) -> bool)
    requires TotalPreorder(ge) && SortedDesc(t, ge)
    ensures SortedDesc(Insert(x, t, ge), ge)
  {
    if |t| > 0 {
      if ge(t[0], x) {
        var rest := Insert(x, t[1..], ge);
        InsertSorted(x, t[1..], ge);
        forall i | 0 <= i < |rest|
          ensures ge(t[0], rest[i])
        {
          assert rest[i] in multiset(rest);
          if rest[i] != x {
            assert rest[i] in t[1..];
            var k :| 0 <= k < |t[1..]| && t[1..][k] == rest[i];
            assert t[k + 1] == rest[i];
          }
        }
        assert Insert(x, t, ge) == [t[0]] + rest;
      } else {
        assert ge(x, t[0]);
        forall i | 0 <= i < |t|
          ensures ge(x, t[i])
        {
          if i > 0 {
            assert ge(t[0], t[i]);
          }
        }
      }
    }
  }

  /** `Sort` orders its input descending. */
  lemma {:induction false} SortSorted<T(!new)>(s: seq<T>, ge: (T, T) -> bool)
    requires TotalPreorder(ge)
    ensures SortedDesc(Sort(s, ge), ge)
  {
    if |s| > 0 {
      SortSorted(s[..|s| - 1], ge);
      InsertSorted(s[|s| - 1], Sort(s[..|s| - 1], ge), ge);
    }
  }

  lemma {:induction false} TiedWithAppend<T>(a: seq<T>, b: seq<T>, z: T, ge: (T, T) -> bool)
    ensures TiedWith(a + b, z, ge) == TiedWith(a, z, ge) + TiedWith(b, z, ge)
    decreases |b|
  {
    if |b| == 0 {
      assert a + b == a;
    } else {
      assert (a + b)[..|a + b| - 1] == a + b[..|b| - 1];
      TiedWithAppend(a, b[..|b| - 1], z, ge);
    }
  }

  lemma {:induction false} TiedWithNone<T>(s: seq<T>, z: T, ge: (T, T) -> bool)
    requires forall k :: 0 <= k < |s| ==> !Tied(ge, s[k], z)
    ensures TiedWith(s, z, ge) == []
  {
    if |s| > 0 {
      TiedWithNone(s[..|s| - 1], z, ge);
    }
  }

  /** Below an element whose key is smaller than that of `x`, nothing in a
      descending sequence is tied with something tied with `x`. */
  lemma NoTiesAfterSmaller<T(!new)>(x: T, t: seq<T>, z: T, ge: (T, T) -> bool)
    requires TotalPreorder(ge) && SortedDesc(t, ge)
    requires |t| > 0 && !ge(t[0], x) && Tied(ge, x, z)
    ensures TiedWith(t, z, ge) == []
  {
    forall k | 0 <= k < |t|
      ensures !Tied(ge, t[k], z)
    {
      assert k == 0 || ge(t[0], t[k]);
    }
    TiedWithNone(t, z, ge);
  }

  lemma SortedTail<T>(t: seq<T>, ge: (T, T) -> bool)
    requires |t| > 0 && SortedDesc(t, ge)
    ensures SortedDesc(t[1..], ge)
  {
    forall i, j | 0 <= i < j < |t| - 1
      ensures ge(t[1..][i], t[1..][j])
    {
      assert t[1..][i] == t[i + 1] && t[1..][j] == t[j + 1];
    }
  }

  lemma TiedWithSingle<T>(x: T, z: T, ge: (T, T) -> bool)
    ensures TiedWith([x], z, ge) == (if Tied(ge, x, z) then [x] else [])
  {
    assert [x][..0] == [];
  }

  lemma {:induction false} InsertTies<T(!new)>(x: T, t: seq<T>, z: T, ge: (T, T) -> bool)
    requires TotalPreorder(ge) && SortedDesc(t, ge)
    ensures TiedWith(Insert(x, t, ge), z, ge) == TiedWith(t, z, ge) + TiedWith([x], z, ge)
    decreases |t|, 1
  {
    if |t| == 0 {
      assert Insert(x, t, ge) == [x];
    } else if ge(t[0], x) {
      InsertTiesPast(x, t, z, ge);
    } else {
      TiedWithAppend([x], t, z, ge);
      TiedWithSingle(x, z, ge);
      if Tied(ge, x, z) {
        NoTiesAfterSmaller(x, t, z, ge);
      }
    }
  }

  lemma {:induction false} InsertTiesPast<T(!new)>(x: T, t: seq<T>, z: T, ge: (T, T) -> bool)
    requires TotalPreorder(ge) && SortedDesc(t, ge)
    requires |t| > 0 && ge(t[0], x)
    ensures TiedWith(Insert(x, t, ge), z, ge) == TiedWith(t, z, ge) + TiedWith([x], z, ge)
    decreases |t|, 0
  {
    var tail := t[1..];
    SortedTail(t, ge);
    InsertTies(x, tail, z, ge);
    var inserted := Insert(x, tail, ge);
    assert Insert(x, t, ge) == [t[0]] + inserted;
    TiedWithAppend([t[0]], inserted, z, ge);
    assert t == [t[0]] + tail;
    TiedWithAppend([t[0]], tail, z, ge);
    Seqs.AppendAssoc(TiedWith([t[0]], z, ge), TiedWith(tail, z, ge), TiedWith([x], z, ge));
  }

  /** Stability: for every key, the elements with that key appear in the
      sorted output in the same order as in the input. */
  lemma {:induction false} SortStable<T(!new)>(s: seq<T>, z: T, ge: (T, T) -> bool)
    requires TotalPreorder(ge)
    ensures TiedWith(Sort(s, ge), z, ge) == TiedWith(s, z, ge)
  {
    if |s| > 0 {
      var init, x := s[..|s| - 1], s[|s| - 1];
      SortStable(init, z, ge);
      SortSorted(init, ge);
      InsertTies(x, Sort(init, ge), z, ge);
      TiedWithSingle(x, z, ge);
    }
  }
}
