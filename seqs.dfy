/** The array operations the views are built from: `filter`, `slice`, the stable
    `sort` of ECMAScript 2019 with a numeric comparator, and de-duplication through
    a `Set` (which keeps first-insertion order). */
module Seqs {
  import opened Wrappers

  // ---------------------------------------------------------------- find

  /** `s.findIndex(p)`, with `None` for -1: the first entry that passes. */
  function FindFirst<T>(s: seq<T>, p: T -> bool): (r: Option<nat>)
    ensures r.Some? ==> r.value < |s| && p(s[r.value]) && forall j :: 0 <= j < r.value ==> !p(s[j])
    ensures r.None? ==> forall j :: 0 <= j < |s| ==> !p(s[j])
  {
    if s == [] then None
    else if p(s[0]) then Some(0)
    else match FindFirst(s[1..], p)
      case None => None
      case Some(k) => Some(k + 1)
  }

  // ---------------------------------------------------------------- filter

  /** `s.filter(p)`. */
  function Filter<T>(s: seq<T>, p: T -> bool): (r: seq<T>)
    ensures |r| <= |s|
    ensures forall i :: 0 <= i < |r| ==> r[i] in s && p(r[i])
    ensures forall i :: 0 <= i < |s| && p(s[i]) ==> s[i] in r
  {
    if s == [] then []
    else if p(s[0]) then [s[0]] + Filter(s[1..], p)
    else Filter(s[1..], p)
  }

  /** `r` is `s` with some entries left out, the others in their original order. */
  ghost predicate IsSubsequence<T>(r: seq<T>, s: seq<T>)
    decreases |s|
  {
    r == [] || (s != [] && ((r[0] == s[0] && IsSubsequence(r[1..], s[1..])) || IsSubsequence(r, s[1..])))
  }

  /** A filter result is an order-preserving sub-sequence of its input. */
  lemma {:induction false} FilterIsSubsequence<T>(s: seq<T>, p: T -> bool)
    ensures IsSubsequence(Filter(s, p), s)
  {
    if s != [] {
      FilterIsSubsequence(s[1..], p);
      var r := Filter(s, p);
      if p(s[0]) {
        assert r[1..] == Filter(s[1..], p);
      }
    }
  }

  /** When every entry passes, the filter keeps the whole list in order. */
  lemma {:induction false} FilterAllPass<T>(s: seq<T>, p: T -> bool)
    requires forall i :: 0 <= i < |s| ==> p(s[i])
    ensures Filter(s, p) == s
  {
    if s != [] {
      FilterAllPass(s[1..], p);
      assert [s[0]] + s[1..] == s;
    }
  }

  /** Two callbacks that agree on every entry keep the same entries. */
  lemma {:induction false} FilterSameOn<T>(s: seq<T>, p: T -> bool, q: T -> bool)
    requires forall i :: 0 <= i < |s| ==> p(s[i]) == q(s[i])
    ensures Filter(s, p) == Filter(s, q)
  {
    if s != [] {
      FilterSameOn(s[1..], p, q);
    }
  }

  /** A pointwise update that turns the entries `q` picks into entries `p` keeps, and leaves
      `p` alone elsewhere, adds exactly those entries to the count `p` keeps. */
  lemma {:induction false} FilterCountGains<T>(r: seq<T>, s: seq<T>, p: T -> bool, q: T -> bool)
    requires |r| == |s|
    requires forall i :: 0 <= i < |s| ==> p(r[i]) == (p(s[i]) || q(s[i]))
    requires forall i :: 0 <= i < |s| ==> !(p(s[i]) && q(s[i]))
    ensures |Filter(r, p)| == |Filter(s, p)| + |Filter(s, q)|
  {
    if s != [] {
      assert p(r[0]) == (p(s[0]) || q(s[0]));
      FilterCountGains(r[1..], s[1..], p, q);
    }
  }

  /** A pointwise update that takes the entries `q` picks out of `p`, and leaves `p` alone
      elsewhere, removes exactly those entries from the count `p` keeps. */
  lemma {:induction false} FilterCountLoses<T>(r: seq<T>, s: seq<T>, p: T -> bool, q: T -> bool)
    requires |r| == |s|
    requires forall i :: 0 <= i < |s| ==> p(r[i]) == (p(s[i]) && !q(s[i]))
    requires forall i :: 0 <= i < |s| ==> q(s[i]) ==> p(s[i])
    ensures |Filter(r, p)| + |Filter(s, q)| == |Filter(s, p)|
  {
    if s != [] {
      assert p(r[0]) == (p(s[0]) && !q(s[0]));
      FilterCountLoses(r[1..], s[1..], p, q);
    }
  }

  // ---------------------------------------------------------------- slice

  /** How `Array.prototype.slice` turns a start or end argument into an index:
      negative values count from the end, and the result is clamped to the length. */
  function ClampIndex(i: int, len: nat): (r: nat)
    ensures r <= len
    ensures 0 <= i <= len ==> r == i
    ensures i > len ==> r == len
    ensures i < 0 ==> r == if len + i < 0 then 0 else len + i
  {
    if i < 0 then (if len + i < 0 then 0 else len + i)
    else if i > len then len
    else i
  }

  /** `s.slice(start, end)`. */
  function Slice<T>(s: seq<T>, start: int, end: int): seq<T>
  {
    var a := ClampIndex(start, |s|);
    var b := ClampIndex(end, |s|);
    if a < b then s[a..b] else []
  }

  /** A window `slice(start, start + len)` from a non-negative start: at most `len` entries,
      empty past the end, otherwise the run starting at `start`. */
  lemma SliceWindow<T>(s: seq<T>, start: int, len: int)
    requires start >= 0 && len >= 0
    ensures |Slice(s, start, start + len)| <= len
    ensures start >= |s| ==> Slice(s, start, start + len) == []
    ensures start < |s| ==>
              Slice(s, start, start + len) == s[start..if start + len <= |s| then start + len else |s|]
  {
  }

  // ---------------------------------------------------------------- stable sort

  ghost predicate SortedDesc<T>(s: seq<T>, key: T -> int)
  {
    forall i, j :: 0 <= i < j < |s| ==> key(s[i]) >= key(s[j])
  }

  /** The entries of `s` whose key is `k`, in their order in `s`. A sort is stable
      when it keeps every such list as it was. */
  function WithKey<T>(s: seq<T>, key: T -> int, k: int): seq<T>
  {
    if s == [] then []
    else if key(s[0]) == k then [s[0]] + WithKey(s[1..], key, k)
    else WithKey(s[1..], key, k)
  }

  /** Puts `x` before the first entry whose key is not greater than its own. */
  function Insert<T>(x: T, s: seq<T>, key: T -> int): (r: seq<T>)
    ensures |r| == |s| + 1
  {
    if s == [] || key(x) >= key(s[0]) then [x] + s
    else [s[0]] + Insert(x, s[1..], key)
  }

  /** `[...s].sort((a, b) => key(b) - key(a))`: ordered by decreasing key, ties kept in
      their original order. An ascending sort is this one on the negated key. */
  function SortDesc<T>(s: seq<T>, key: T -> int): (r: seq<T>)
    ensures |r| == |s|
  {
    if s == [] then [] else Insert(s[0], SortDesc(s[1..], key), key)
  }

  lemma {:induction false} InsertPermutation<T>(x: T, s: seq<T>, key: T -> int)
    ensures multiset(Insert(x, s, key)) == multiset(s) + multiset{x}
  {
    if s != [] && key(x) < key(s[0]) {
      InsertPermutation(x, s[1..], key);
      assert s == [s[0]] + s[1..];
    }
  }

  /** The sorted list is a permutation of the input. */
  lemma {:induction false} SortDescPermutation<T>(s: seq<T>, key: T -> int)
    ensures multiset(SortDesc(s, key)) == multiset(s)
  {
    if s != [] {
      SortDescPermutation(s[1..], key);
      InsertPermutation(s[0], SortDesc(s[1..], key), key);
      assert s == [s[0]] + s[1..];
    }
  }

  lemma {:induction false} InsertBounded<T>(x: T, s: seq<T>, key: T -> int, b: int)
    requires key(x) <= b
    requires forall i :: 0 <= i < |s| ==> key(s[i]) <= b
    ensures forall i :: 0 <= i < |s| + 1 ==> key(Insert(x, s, key)[i]) <= b
  {
    if s != [] && key(x) < key(s[0]) {
      InsertBounded(x, s[1..], key, b);
    }
  }

  lemma {:induction false} InsertSorted<T>(x: T, s: seq<T>, key: T -> int)
    requires SortedDesc(s, key)
    ensures SortedDesc(Insert(x, s, key), key)
  {
    if s != [] && key(x) < key(s[0]) {
      var t := Insert(x, s[1..], key);
      InsertSorted(x, s[1..], key);
      InsertBounded(x, s[1..], key, key(s[0]));
      var r := [s[0]] + t;
      assert r == Insert(x, s, key);
      forall i, j | 0 <= i < j < |r|
        ensures key(r[i]) >= key(r[j])
      {
        assert r[j] == t[j - 1];
        if i > 0 {
          assert r[i] == t[i - 1];
        }
      }
    }
  }

  /** The sort orders by decreasing key. */
  lemma {:induction false} SortDescSorted<T>(s: seq<T>, key: T -> int)
    ensures SortedDesc(SortDesc(s, key), key)
  {
    if s != [] {
      SortDescSorted(s[1..], key);
      InsertSorted(s[0], SortDesc(s[1..], key), key);
    }
  }

  lemma {:induction false} InsertWithKey<T>(x: T, s: seq<T>, key: T -> int, k: int)
    ensures WithKey(Insert(x, s, key), key, k)
            == if key(x) == k then [x] + WithKey(s, key, k) else WithKey(s, key, k)
  {
    if s == [] || key(x) >= key(s[0]) {
      assert ([x] + s)[1..] == s;
    } else {
      InsertWithKey(x, s[1..], key, k);
      assert ([s[0]] + Insert(x, s[1..], key))[1..] == Insert(x, s[1..], key);
    }
  }

  /** The sort is stable: entries with equal keys keep their relative order. */
  lemma {:induction false} SortDescStable<T>(s: seq<T>, key: T -> int, k: int)
    ensures WithKey(SortDesc(s, key), key, k) == WithKey(s, key, k)
  {
    if s != [] {
      SortDescStable(s[1..], key, k);
      InsertWithKey(s[0], SortDesc(s[1..], key), key, k);
    }
  }

  /** The three facts about the sort together: ordered, a permutation, and stable. */
  lemma SortDescSpec<T>(s: seq<T>, key: T -> int)
    ensures SortedDesc(SortDesc(s, key), key)
    ensures multiset(SortDesc(s, key)) == multiset(s)
    ensures forall k :: WithKey(SortDesc(s, key), key, k) == WithKey(s, key, k)
  {
    SortDescSorted(s, key);
    SortDescPermutation(s, key);
    forall k
      ensures WithKey(SortDesc(s, key), key, k) == WithKey(s, key, k)
    {
      SortDescStable(s, key, k);
    }
  }

  /** A comparator that finds every pair equal leaves the order unchanged. */
  lemma {:induction false} SortDescEqualKeys<T>(s: seq<T>, key: T -> int)
    requires forall i, j :: 0 <= i < |s| && 0 <= j < |s| ==> key(s[i]) == key(s[j])
    ensures SortDesc(s, key) == s
  {
    if s != [] {
      SortDescEqualKeys(s[1..], key);
      assert SortDesc(s[1..], key) == s[1..];
      if |s| > 1 {
        assert key(s[0]) == key(s[1]);
      }
    }
  }

  lemma {:induction false} WithKeyNonEmpty<T>(s: seq<T>, key: T -> int, k: int)
    requires WithKey(s, key, k) != []
    ensures exists i :: 0 <= i < |s| && key(s[i]) == k
  {
    if key(s[0]) != k {
      WithKeyNonEmpty(s[1..], key, k);
      var i :| 0 <= i < |s[1..]| && key(s[1..][i]) == k;
      assert key(s[i + 1]) == k;
    }
  }

  /** Two lists sorted by decreasing key that agree on the entries of every key are equal:
      a stable sort has exactly one possible result. */
  lemma {:induction false} SortedStableUnique<T>(r: seq<T>, t: seq<T>, key: T -> int)
    requires SortedDesc(r, key) && SortedDesc(t, key)
    requires forall k :: WithKey(r, key, k) == WithKey(t, key, k)
    ensures r == t
    decreases |r| + |t|
  {
    if (r == []) != (t == []) {
      assert false;
    } else if r != [] {
      var kr, kt := key(r[0]), key(t[0]);
      assert WithKey(t, key, kr) != [] by { assert WithKey(r, key, kr) != []; }
      WithKeyNonEmpty(t, key, kr);
      assert WithKey(r, key, kt) != [] by { assert WithKey(t, key, kt) != []; }
      WithKeyNonEmpty(r, key, kt);
      assert kr == kt;
      assert WithKey(r, key, kr)[0] == r[0];
      assert WithKey(t, key, kt)[0] == t[0];
      forall k
        ensures WithKey(r[1..], key, k) == WithKey(t[1..], key, k)
      {
        if k == kr {
          assert WithKey(r[1..], key, k) == WithKey(r, key, k)[1..];
          assert WithKey(t[1..], key, k) == WithKey(t, key, k)[1..];
        } else {
          assert WithKey(r[1..], key, k) == WithKey(r, key, k);
          assert WithKey(t[1..], key, k) == WithKey(t, key, k);
        }
      }
      SortedStableUnique(r[1..], t[1..], key);
      assert r == [r[0]] + r[1..] && t == [t[0]] + t[1..];
    }
  }

  /** Any stable sort by decreasing key (JavaScript's `Array.prototype.sort` is one)
      returns exactly `SortDesc`. */
  lemma AnyStableSortIsSortDesc<T>(s: seq<T>, r: seq<T>, key: T -> int)
    requires SortedDesc(r, key)
    requires forall k :: WithKey(r, key, k) == WithKey(s, key, k)
    ensures r == SortDesc(s, key)
  {
    SortDescSorted(s, key);
    forall k
      ensures WithKey(r, key, k) == WithKey(SortDesc(s, key), key, k)
    {
      SortDescStable(s, key, k);
    }
    SortedStableUnique(r, SortDesc(s, key), key);
  }

  // ---------------------------------------------------------------- de-duplication

  ghost predicate NoDuplicates<T>(s: seq<T>)
  {
    forall i, j :: 0 <= i < j < |s| ==> s[i] != s[j]
  }

  /** The index of the first occurrence of `x` in `s`. */
  function IndexOf<T(==)>(s: seq<T>, x: T): (i: nat)
    requires x in s
    ensures i < |s| && s[i] == x && x !in s[..i]
  {
    if s[0] == x then 0 else 1 + IndexOf(s[1..], x)
  }

  /** `Array.from(new Set(s))`: every value once, in order of first occurrence. */
  function Dedup<T(==)>(s: seq<T>): seq<T>
  {
    if s == [] then []
    else
      var d := Dedup(s[..|s| - 1]);
      if s[|s| - 1] in d then d else d + [s[|s| - 1]]
  }

  lemma {:induction false} IndexOfPrefix<T>(s: seq<T>, n: nat, x: T)
    requires n <= |s| && x in s[..n]
    ensures IndexOf(s, x) == IndexOf(s[..n], x)
  {
  }

  /** The de-duplicated list holds exactly the values of the input, each once, ordered by
      where each value first occurs in the input. */
  lemma {:induction false} DedupSpec<T>(s: seq<T>)
    ensures forall x :: x in Dedup(s) <==> x in s
    ensures NoDuplicates(Dedup(s))
    ensures forall i, j :: 0 <= i < j < |Dedup(s)| ==> IndexOf(s, Dedup(s)[i]) < IndexOf(s, Dedup(s)[j])
  {
    if s != [] {
      var n := |s| - 1;
      var p := s[..n];
      var d := Dedup(p);
      DedupSpec(p);
      assert s == p + [s[n]];
      forall x | x in p
        ensures IndexOf(s, x) == IndexOf(p, x)
      {
        IndexOfPrefix(s, n, x);
      }
      if s[n] !in d {
        var r := d + [s[n]];
        assert s[n] !in p;
        assert IndexOf(s, s[n]) == n;
        forall i, j | 0 <= i < j < |r|
          ensures IndexOf(s, r[i]) < IndexOf(s, r[j])
        {
          assert r[i] == d[i] && d[i] in d;
          if j < |d| {
            assert r[j] == d[j] && d[j] in d;
          } else {
            assert r[j] == s[n];
          }
        }
      } else {
        forall x | x in s
          ensures x in d
        {
          if x != s[n] {
            assert x in p;
          }
        }
      }
    }
  }
}
