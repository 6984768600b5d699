/**
 * Sequence operations the planner's views are built from: `Array.prototype.filter`,
 * `slice(0, n)`, `[...new Set(xs)]` and the stable `Array.prototype.sort`, with the
 * facts about them that the views rely on.
 */
module Seqs {

  // ---------------------------------------------------------------------------
  // filter

  /** `s.filter(p)`: the elements of `s` that satisfy `p`, in their original order. */
  function Filter<T>(s: seq<T>, p: T -> bool): (r: seq<T>)
    ensures |r| <= |s|
    ensures forall x :: x in r ==> x in s && p(x)
  {
    if s == [] then []
    else if p(s[0]) then [s[0]] + Filter(s[1..], p)
    else Filter(s[1..], p)
  }

  /** `a` can be obtained from `b` by deleting elements (order is kept). */
  ghost predicate IsSubseq<T>(a: seq<T>, b: seq<T>)
    decreases |b|
  {
    if a == [] then true
    else if b == [] then false
    else (a[0] == b[0] && IsSubseq(a[1..], b[1..])) || IsSubseq(a, b[1..])
  }

  lemma {:induction false} FilterMembers<T>(s: seq<T>, p: T -> bool)
    ensures forall x :: x in Filter(s, p) <==> x in s && p(x)
  {
    if s != [] {
      FilterMembers(s[1..], p);
      assert s == [s[0]] + s[1..];
    }
  }

  lemma {:induction false} FilterIsSubseq<T>(s: seq<T>, p: T -> bool)
    ensures IsSubseq(Filter(s, p), s)
  {
    if s != [] {
      FilterIsSubseq(s[1..], p);
      var r := Filter(s[1..], p);
      if p(s[0]) {
        assert ([s[0]] + r)[1..] == r;
      } else if r != [] {
        assert IsSubseq(r, s[1..]);
      }
    }
  }

  lemma {:induction false} FilterConcat<T>(a: seq<T>, b: seq<T>, p: T -> bool)
    ensures Filter(a + b, p) == Filter(a, p) + Filter(b, p)
  {
    if a == [] {
      assert a + b == b;
    } else {
      var ab := a + b;
      assert ab[0] == a[0] && ab[1..] == a[1..] + b;
      FilterConcat(a[1..], b, p);
    }
  }

  lemma FilterSingle<T>(x: T, p: T -> bool)
    ensures Filter([x], p) == if p(x) then [x] else []
  {
    assert [x][1..] == [];
  }

  /** A predicate that holds of every element keeps the whole sequence. */
  lemma {:induction false} FilterKeepsAll<T>(s: seq<T>, p: T -> bool)
    requires forall x :: x in s ==> p(x)
    ensures Filter(s, p) == s
  {
    if s != [] {
      FilterKeepsAll(s[1..], p);
      assert [s[0]] + s[1..] == s;
    }
  }

  /** Two predicates that agree on the elements of `s` filter it alike. */
  lemma {:induction false} FilterExt<T>(s: seq<T>, p: T -> bool, q: T -> bool)
    requires forall x :: x in s ==> p(x) == q(x)
    ensures Filter(s, p) == Filter(s, q)
  {
    if s != [] {
      FilterExt(s[1..], p, q);
    }
  }

  /** A stronger predicate keeps no more elements than a weaker one. */
  lemma {:induction false} FilterMonotone<T>(s: seq<T>, p: T -> bool, q: T -> bool)
    requires forall x :: x in s && p(x) ==> q(x)
    ensures |Filter(s, p)| <= |Filter(s, q)|
  {
    if s != [] {
      FilterMonotone(s[1..], p, q);
    }
  }

  /** A predicate and its negation split `s`: lengths add up and so do the multisets. */
  lemma {:induction false} FilterPartition<T>(s: seq<T>, p: T -> bool, q: T -> bool)
    requires forall x :: q(x) == !p(x)
    ensures |Filter(s, p)| + |Filter(s, q)| == |s|
    ensures multiset(Filter(s, p)) + multiset(Filter(s, q)) == multiset(s)
  {
    if s != [] {
      FilterPartition(s[1..], p, q);
      assert s == [s[0]] + s[1..];
    }
  }

  /** Filtering by `p` drops exactly the elements that fail `p`, so a `p` that holds of none gives []. */
  lemma {:induction false} FilterKeepsNone<T>(s: seq<T>, p: T -> bool)
    requires forall x :: x in s ==> !p(x)
    ensures Filter(s, p) == []
  {
    if s != [] {
      FilterKeepsNone(s[1..], p);
    }
  }

  // ---------------------------------------------------------------------------
  // distinct elements

  ghost predicate NoDup<T>(s: seq<T>)
  {
    forall i, j :: 0 <= i < j < |s| ==> s[i] != s[j]
  }

  ghost function Elements<T>(s: seq<T>): set<T>
  {
    set x | x in s
  }

  lemma {:induction false} ElementsCard<T>(s: seq<T>)
    ensures |Elements(s)| <= |s|
    ensures NoDup(s) ==> |Elements(s)| == |s|
  {
    if s != [] {
      var t := s[..|s| - 1];
      var x := s[|s| - 1];
      ElementsCard(t);
      assert s == t + [x];
      assert Elements(s) == Elements(t) + {x};
      if NoDup(s) {
        assert NoDup(t);
        assert forall i :: 0 <= i < |t| ==> t[i] == s[i] != x;
        assert x !in Elements(t);
      }
    }
  }

  lemma {:induction false} FilterNoDup<T>(s: seq<T>, p: T -> bool)
    requires NoDup(s)
    ensures NoDup(Filter(s, p))
  {
    if s != [] {
      assert NoDup(s[1..]);
      FilterNoDup(s[1..], p);
      FilterMembers(s[1..], p);
      if p(s[0]) {
        var r := [s[0]] + Filter(s[1..], p);
        assert forall i :: 0 <= i < |s[1..]| ==> s[1..][i] == s[i + 1] != s[0];
        assert s[0] !in s[1..];
        forall i, j | 0 <= i < j < |r| ensures r[i] != r[j] {
          if i == 0 {
            assert r[j] in Filter(s[1..], p);
          }
        }
      }
    }
  }

  /**
   * `[...new Set(s)]`: the distinct elements of `s`, each at the place of its first
   * occurrence.
   */
  function Dedup<T(==)>(s: seq<T>): (r: seq<T>)
    ensures |r| <= |s|
    ensures NoDup(r)
    ensures forall x :: x in r ==> x in s
    ensures forall x :: x in s ==> x in r
  {
    if s == [] then []
    else
      var init, last := s[..|s| - 1], s[|s| - 1];
      var d := Dedup(init);
      assert s == init + [last];
      if last in d then d
      else
        assert forall i :: 0 <= i < |d| ==> d[i] != last;
        d + [last]
  }

  /** Into a set of size `n`, a duplicate-free sequence fits at most `n` elements. */
  lemma NoDupWithin<T>(s: seq<T>, xs: set<T>)
    requires NoDup(s)
    requires forall x :: x in s ==> x in xs
    ensures |s| <= |xs|
  {
    ElementsCard(s);
    SubsetCard(Elements(s), xs);
  }

  lemma {:induction false} SubsetCard<T>(a: set<T>, b: set<T>)
    requires a <= b
    ensures |a| <= |b|
    decreases a
  {
    if a != {} {
      var x :| x in a;
      SubsetCard(a - {x}, b - {x});
    }
  }

  // ---------------------------------------------------------------------------
  // slice

  /** `s.slice(0, n)`. */
  function Take<T>(s: seq<T>, n: nat): (r: seq<T>)
    ensures |r| == if |s| < n then |s| else n
    ensures r == s[..|r|]
  {
    if |s| <= n then s else s[..n]
  }

  // ---------------------------------------------------------------------------
  // stable sort

  /** `le` is total and transitive: what a consistent sort comparator describes. */
  ghost predicate TotalPreorder<T(!new)>(le: (T, T) -> bool)
  {
    && (forall a, b :: le(a, b) || le(b, a))
    && (forall a, b, c :: le(a, b) && le(b, c) ==> le(a, c))
  }

  ghost predicate Sorted<T>(s: seq<T>, le: (T, T) -> bool)
  {
    forall i, j :: 0 <= i < j < |s| ==> le(s[i], s[j])
  }

  /** Places `x` before the first element it is not after, so before every equal one. */
  function Insert<T>(x: T, s: seq<T>, le: (T, T) -> bool): (r: seq<T>)
    ensures multiset(r) == multiset(s) + multiset{x}
  {
    if s == [] || le(x, s[0]) then [x] + s
    else
      assert s == [s[0]] + s[1..];
      [s[0]] + Insert(x, s[1..], le)
  }

  /**
   * `s.sort(cmp)` with a comparator for which `le(a, b)` means `cmp(a, b) <= 0`.
   * `Array.prototype.sort` is stable, so for a consistent comparator its result is
   * the one sorted permutation that keeps equal elements in their original order;
   * that is what this insertion sort computes.
   */
  function Sort<T>(s: seq<T>, le: (T, T) -> bool): (r: seq<T>)
    ensures multiset(r) == multiset(s)
  {
    if s == [] then []
    else
      assert s == [s[0]] + s[1..];
      Insert(s[0], Sort(s[1..], le), le)
  }

  lemma {:induction false} InsertSorted<T(!new)>(x: T, s: seq<T>, le: (T, T) -> bool)
    requires TotalPreorder(le)
    requires Sorted(s, le)
    ensures Sorted(Insert(x, s, le), le)
  {
    if s == [] {
    } else if le(x, s[0]) {
      forall k | 0 <= k < |s| ensures le(x, s[k]) {
        if k > 0 {
          assert le(s[0], s[k]);
        }
      }
      ConsSorted(x, s, le);
    } else {
      var t := Insert(x, s[1..], le);
      assert Sorted(s[1..], le);
      InsertSorted(x, s[1..], le);
      forall k | 0 <= k < |t| ensures le(s[0], t[k]) {
        assert t[k] in multiset(t);
        if t[k] != x {
          assert t[k] in multiset(s[1..]);
          assert t[k] in s[1..];
        }
      }
      ConsSorted(s[0], t, le);
    }
  }

  /** An element below every element of a sorted sequence can go in front of it. */
  lemma ConsSorted<T>(x: T, s: seq<T>, le: (T, T) -> bool)
    requires Sorted(s, le)
    requires forall k :: 0 <= k < |s| ==> le(x, s[k])
    ensures Sorted([x] + s, le)
  {
    var r := [x] + s;
    forall i, j | 0 <= i < j < |r| ensures le(r[i], r[j]) {
      if i == 0 {
        assert r[j] == s[j - 1];
      } else {
        assert r[i] == s[i - 1] && r[j] == s[j - 1];
      }
    }
  }

  /** Sorting keeps exactly the elements it was given. */
  lemma SortMembers<T>(s: seq<T>, le: (T, T) -> bool)
    ensures forall x :: x in Sort(s, le) <==> x in s
  {
    forall x ensures x in Sort(s, le) <==> x in s {
      assert x in Sort(s, le) <==> x in multiset(Sort(s, le));
      assert x in s <==> x in multiset(s);
    }
  }

  /**
   * The first `n` elements of a sorted sequence are sorted and come no later than any
   * element left out.
   */
  lemma TakeOfSorted<T>(s: seq<T>, le: (T, T) -> bool, n: nat)
    requires Sorted(s, le)
    ensures Sorted(Take(s, n), le)
    ensures forall u, t :: u in Take(s, n) && t in s && t !in Take(s, n) ==> le(u, t)
  {
    var r := Take(s, n);
    forall i, j | 0 <= i < j < |r| ensures le(r[i], r[j]) {
      assert r[i] == s[i] && r[j] == s[j];
    }
    assert forall j :: 0 <= j < |r| ==> s[j] in r;
    forall u, t | u in r && t in s && t !in r ensures le(u, t) {
      var i :| 0 <= i < |r| && r[i] == u;
      var k :| 0 <= k < |s| && s[k] == t;
      assert s[i] == u && i < k;
    }
  }

  /** The sort's result is ordered by `le`. */
  lemma {:induction false} SortSorted<T(!new)>(s: seq<T>, le: (T, T) -> bool)
    requires TotalPreorder(le)
    ensures Sorted(Sort(s, le), le)
  {
    if s != [] {
      SortSorted(s[1..], le);
      InsertSorted(s[0], Sort(s[1..], le), le);
    }
  }

  lemma {:induction false} InsertStable<T(!new)>(x: T, s: seq<T>, le: (T, T) -> bool, p: T -> bool)
    requires TotalPreorder(le)
    requires forall a, b :: p(a) && p(b) ==> le(a, b) && le(b, a)
    ensures Filter(Insert(x, s, le), p) == if p(x) then [x] + Filter(s, p) else Filter(s, p)
  {
    var r := Insert(x, s, le);
    if s == [] || le(x, s[0]) {
      assert r == [x] + s;
      assert r[0] == x && r[1..] == s;
    } else {
      var t := Insert(x, s[1..], le);
      InsertStable(x, s[1..], le, p);
      assert r == [s[0]] + t;
      assert r[0] == s[0] && r[1..] == t;
      assert !p(x) || !p(s[0]);
    }
  }

  /**
   * Stability: for any class `p` of mutually equivalent elements, the sort keeps the
   * elements of that class in the order they had in `s`.
   */
  lemma {:induction false} SortStable<T(!new)>(s: seq<T>, le: (T, T) -> bool, p: T -> bool)
    requires TotalPreorder(le)
    requires forall a, b :: p(a) && p(b) ==> le(a, b) && le(b, a)
    ensures Filter(Sort(s, le), p) == Filter(s, p)
  {
    if s != [] {
      SortStable(s[1..], le, p);
      InsertStable(s[0], Sort(s[1..], le), le, p);
    }
  }
}
