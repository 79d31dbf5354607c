/** The value-level meaning of the merge sort in glib/glist.c: split in halves,
    sort each half, merge with a three-way comparison that prefers the left
    list on ties.  The heap version in GList.dfy is proved to rearrange its
    nodes exactly as `Sort` rearranges a sequence. */
module MergeSort {

  function Merge<T>(a: seq<T>, b: seq<T>, cmp: (T, T) -> int): (r: seq<T>)
    decreases |a| + |b|
  {
    if a == [] then b
    else if b == [] then a
    else if cmp(a[0], b[0]) <= 0 then [a[0]] + Merge(a[1..], b, cmp)
    else [b[0]] + Merge(a, b[1..], cmp)
  }

  function Sort<T>(s: seq<T>, cmp: (T, T) -> int): (r: seq<T>)
    decreases |s|
  {
    if |s| <= 1 then s
    else Merge(Sort(s[..|s| / 2], cmp), Sort(s[|s| / 2..], cmp), cmp)
  }

  /** `cmp` orders the elements of `u` totally, up to ties. */
  ghost predicate TotalOn<T>(cmp: (T, T) -> int, u: set<T>) {
    && (forall a, b | a in u && b in u :: cmp(a, b) <= 0 || cmp(b, a) <= 0)
    && (forall a, b, c | a in u && b in u && c in u :: cmp(a, b) <= 0 && cmp(b, c) <= 0 ==> cmp(a, c) <= 0)
  }

  /** Distinct elements of `u` never tie. */
  ghost predicate StrictOn<T>(cmp: (T, T) -> int, u: set<T>) {
    forall a, b | a in u && b in u :: cmp(a, b) <= 0 && cmp(b, a) <= 0 ==> a == b
  }

  ghost predicate Within<T>(s: seq<T>, u: set<T>) {
    forall i | 0 <= i < |s| :: s[i] in u
  }

  ghost predicate Sorted<T>(s: seq<T>, cmp: (T, T) -> int) {
    forall i, j | 0 <= i < j < |s| :: cmp(s[i], s[j]) <= 0
  }

  /** No element occurs twice. */
  ghost predicate NoDup<T>(s: seq<T>) {
    forall i, j | 0 <= i < j < |s| :: s[i] != s[j]
  }

  /** The elements of `s` that tie with `x`, in their order of appearance. */
  ghost function Ties<T>(s: seq<T>, x: T, cmp: (T, T) -> int): seq<T> {
    if s == [] then []
    else (if cmp(x, s[0]) <= 0 && cmp(s[0], x) <= 0 then [s[0]] else []) + Ties(s[1..], x, cmp)
  }

  lemma {:induction false} MergePermutes<T>(a: seq<T>, b: seq<T>, cmp: (T, T) -> int)
    ensures multiset(Merge(a, b, cmp)) == multiset(a) + multiset(b)
    ensures |Merge(a, b, cmp)| == |a| + |b|
    decreases |a| + |b|
  {
    if a != [] && b != [] {
      if cmp(a[0], b[0]) <= 0 {
        MergePermutes(a[1..], b, cmp);
        assert a == [a[0]] + a[1..];
      } else {
        MergePermutes(a, b[1..], cmp);
        assert b == [b[0]] + b[1..];
      }
    }
  }

  lemma SplitMultiset<T>(s: seq<T>, m: nat)
    requires m <= |s|
    ensures multiset(s) == multiset(s[..m]) + multiset(s[m..])
  {
    assert s == s[..m] + s[m..];
  }

  lemma {:induction false} SortPermutes<T>(s: seq<T>, cmp: (T, T) -> int)
    ensures multiset(Sort(s, cmp)) == multiset(s)
    ensures |Sort(s, cmp)| == |s|
    decreases |s|
  {
    if |s| > 1 {
      var m := |s| / 2;
      assert Sort(s, cmp) == Merge(Sort(s[..m], cmp), Sort(s[m..], cmp), cmp);
      hide *;
      SortPermutes(s[..m], cmp);
      SortPermutes(s[m..], cmp);
      MergePermutes(Sort(s[..m], cmp), Sort(s[m..], cmp), cmp);
      SplitMultiset(s, m);
    }
  }

  lemma {:induction false} MergeWithin<T>(a: seq<T>, b: seq<T>, u: set<T>, cmp: (T, T) -> int)
    requires Within(a, u) && Within(b, u)
    ensures Within(Merge(a, b, cmp), u)
    decreases |a| + |b|
  {
    if a != [] && b != [] {
      if cmp(a[0], b[0]) <= 0 {
        MergeWithin(a[1..], b, u, cmp);
      } else {
        MergeWithin(a, b[1..], u, cmp);
      }
    }
  }

  lemma {:induction false} SortWithin<T>(s: seq<T>, u: set<T>, cmp: (T, T) -> int)
    requires Within(s, u)
    ensures Within(Sort(s, cmp), u)
    decreases |s|
  {
    if |s| > 1 {
      SortWithin(s[..|s| / 2], u, cmp);
      SortWithin(s[|s| / 2..], u, cmp);
      MergeWithin(Sort(s[..|s| / 2], cmp), Sort(s[|s| / 2..], cmp), u, cmp);
    }
  }

  /** `x` comes before every element of `s`. */
  ghost predicate AtMostAll<T>(x: T, s: seq<T>, cmp: (T, T) -> int) {
    forall i | 0 <= i < |s| :: cmp(x, s[i]) <= 0
  }

  lemma {:induction false} MergeBelow<T>(x: T, a: seq<T>, b: seq<T>, cmp: (T, T) -> int)
    requires AtMostAll(x, a, cmp) && AtMostAll(x, b, cmp)
    ensures AtMostAll(x, Merge(a, b, cmp), cmp)
    decreases |a| + |b|
  {
    if a != [] && b != [] {
      if cmp(a[0], b[0]) <= 0 {
        MergeBelow(x, a[1..], b, cmp);
      } else {
        MergeBelow(x, a, b[1..], cmp);
      }
    }
  }

  /** The head of a sorted list that comes before another list's head comes before that whole list. */
  lemma HeadBelow<T>(x: T, s: seq<T>, u: set<T>, cmp: (T, T) -> int)
    requires s != [] && Sorted(s, cmp) && TotalOn(cmp, u) && x in u && Within(s, u)
    requires cmp(x, s[0]) <= 0
    ensures AtMostAll(x, s, cmp)
  {
    forall i | 0 <= i < |s|
      ensures cmp(x, s[i]) <= 0
    {
      if i > 0 {
        assert cmp(s[0], s[i]) <= 0;
      }
    }
  }

  lemma ConsSorted<T>(x: T, s: seq<T>, cmp: (T, T) -> int)
    requires Sorted(s, cmp) && AtMostAll(x, s, cmp)
    ensures Sorted([x] + s, cmp)
  {
  }

  lemma {:induction false} MergeSorted<T>(a: seq<T>, b: seq<T>, u: set<T>, cmp: (T, T) -> int)
    requires Sorted(a, cmp) && Sorted(b, cmp)
    requires TotalOn(cmp, u) && Within(a, u) && Within(b, u)
    ensures Sorted(Merge(a, b, cmp), cmp)
    decreases |a| + |b|
  {
    if a != [] && b != [] {
      if cmp(a[0], b[0]) <= 0 {
        MergeSorted(a[1..], b, u, cmp);
        HeadBelow(a[0], b, u, cmp);
        MergeBelow(a[0], a[1..], b, cmp);
        ConsSorted(a[0], Merge(a[1..], b, cmp), cmp);
      } else {
        MergeSorted(a, b[1..], u, cmp);
        HeadBelow(b[0], a, u, cmp);
        MergeBelow(b[0], a, b[1..], cmp);
        ConsSorted(b[0], Merge(a, b[1..], cmp), cmp);
      }
    }
  }

  lemma {:induction false} SortSorted<T>(s: seq<T>, u: set<T>, cmp: (T, T) -> int)
    requires TotalOn(cmp, u) && Within(s, u)
    ensures Sorted(Sort(s, cmp), cmp)
    decreases |s|
  {
    if |s| > 1 {
      var l, r := s[..|s| / 2], s[|s| / 2..];
      SortSorted(l, u, cmp);
      SortSorted(r, u, cmp);
      SortWithin(l, u, cmp);
      SortWithin(r, u, cmp);
      MergeSorted(Sort(l, cmp), Sort(r, cmp), u, cmp);
    }
  }

  lemma {:induction false} TiesAppend<T>(a: seq<T>, b: seq<T>, x: T, cmp: (T, T) -> int)
    ensures Ties(a + b, x, cmp) == Ties(a, x, cmp) + Ties(b, x, cmp)
  {
    if a == [] {
      assert a + b == b;
    } else {
      TiesAppend(a[1..], b, x, cmp);
      assert (a + b)[0] == a[0] && (a + b)[1..] == a[1..] + b;
      var head := if cmp(x, a[0]) <= 0 && cmp(a[0], x) <= 0 then [a[0]] else [];
      assert Ties(a + b, x, cmp) == head + (Ties(a[1..], x, cmp) + Ties(b, x, cmp));
    }
  }

  lemma {:induction false} NoTies<T>(s: seq<T>, x: T, cmp: (T, T) -> int)
    requires forall i | 0 <= i < |s| :: cmp(s[i], x) > 0
    ensures Ties(s, x, cmp) == []
  {
    if s != [] {
      NoTies(s[1..], x, cmp);
    }
  }

  /** When the right head `y` wins although it ties with `x`, nothing on the left ties with `x`. */
  lemma RightHeadWins<T>(a: seq<T>, y: T, x: T, u: set<T>, cmp: (T, T) -> int)
    requires a != [] && Sorted(a, cmp) && TotalOn(cmp, u) && Within(a, u) && x in u && y in u
    requires cmp(a[0], y) > 0 && cmp(x, y) <= 0
    ensures Ties(a, x, cmp) == []
  {
    forall i | 0 <= i < |a|
      ensures cmp(a[i], x) > 0
    {
      assert cmp(a[0], a[i]) <= 0 || i == 0;
    }
    NoTies(a, x, cmp);
  }

  lemma {:induction false} MergeStable<T>(a: seq<T>, b: seq<T>, x: T, u: set<T>, cmp: (T, T) -> int)
    requires Sorted(a, cmp) && Sorted(b, cmp)
    requires TotalOn(cmp, u) && Within(a, u) && Within(b, u) && x in u
    ensures Ties(Merge(a, b, cmp), x, cmp) == Ties(a, x, cmp) + Ties(b, x, cmp)
    decreases |a| + |b|
  {
    if a == [] || b == [] {
    } else if cmp(a[0], b[0]) <= 0 {
      MergeStable(a[1..], b, x, u, cmp);
      assert Merge(a, b, cmp)[1..] == Merge(a[1..], b, cmp);
    } else {
      MergeStable(a, b[1..], x, u, cmp);
      assert Merge(a, b, cmp)[1..] == Merge(a, b[1..], cmp);
      if cmp(x, b[0]) <= 0 {
        RightHeadWins(a, b[0], x, u, cmp);
      }
    }
  }

  lemma SortedHalf<T>(s: seq<T>, u: set<T>, cmp: (T, T) -> int)
    requires TotalOn(cmp, u) && Within(s, u)
    ensures Sorted(Sort(s, cmp), cmp) && Within(Sort(s, cmp), u)
  {
    SortSorted(s, u, cmp);
    SortWithin(s, u, cmp);
  }

  /** Sorting keeps tying elements in their original order. */
  lemma {:induction false} SortStable<T>(s: seq<T>, x: T, u: set<T>, cmp: (T, T) -> int)
    requires TotalOn(cmp, u) && Within(s, u) && x in u
    ensures Ties(Sort(s, cmp), x, cmp) == Ties(s, x, cmp)
    decreases |s|
  {
    if |s| > 1 {
      var l, r := s[..|s| / 2], s[|s| / 2..];
      assert Within(l, u) && Within(r, u);
      calc {
        Ties(Sort(s, cmp), x, cmp);
        Ties(Merge(Sort(l, cmp), Sort(r, cmp), cmp), x, cmp);
        { SortedHalf(l, u, cmp); SortedHalf(r, u, cmp); MergeStable(Sort(l, cmp), Sort(r, cmp), x, u, cmp); }
        Ties(Sort(l, cmp), x, cmp) + Ties(Sort(r, cmp), x, cmp);
        { SortStable(l, x, u, cmp); SortStable(r, x, u, cmp); }
        Ties(l, x, cmp) + Ties(r, x, cmp);
        { TiesAppend(l, r, x, cmp); }
        Ties(l + r, x, cmp);
        { assert l + r == s; }
        Ties(s, x, cmp);
      }
    }
  }

  lemma {:induction false} SameHead<T>(s: seq<T>, t: seq<T>, u: set<T>, cmp: (T, T) -> int)
    requires s != [] && t != [] && multiset(s) == multiset(t)
    requires Sorted(s, cmp) && Sorted(t, cmp)
    requires TotalOn(cmp, u) && StrictOn(cmp, u) && Within(s, u) && Within(t, u)
    ensures s[0] == t[0]
  {
    assert s[0] in multiset(t) && t[0] in multiset(s);
    var i :| 0 <= i < |t| && t[i] == s[0];
    var j :| 0 <= j < |s| && s[j] == t[0];
    assert cmp(t[0], s[0]) <= 0 by { if i == 0 { assert cmp(t[0], t[0]) <= 0; } }
    assert cmp(s[0], t[0]) <= 0 by { if j == 0 { assert cmp(s[0], s[0]) <= 0; } }
  }

  lemma TailMultiset<T>(s: seq<T>)
    requires s != []
    ensures multiset(s[1..]) == multiset(s) - multiset{s[0]}
  {
    assert s == [s[0]] + s[1..];
  }

  lemma SortedTail<T>(s: seq<T>, u: set<T>, cmp: (T, T) -> int)
    requires s != [] && Sorted(s, cmp) && Within(s, u)
    ensures Sorted(s[1..], cmp) && Within(s[1..], u)
  {
  }

  lemma SameLength<T>(s: seq<T>, t: seq<T>)
    requires multiset(s) == multiset(t)
    ensures |s| == |t|
  {
    assert |multiset(s)| == |s| && |multiset(t)| == |t|;
  }

  lemma SameCons<T>(s: seq<T>, t: seq<T>)
    requires s != [] && t != [] && s[0] == t[0] && s[1..] == t[1..]
    ensures s == t
  {
    assert s == [s[0]] + s[1..] && t == [t[0]] + t[1..];
  }

  /** With a strict order there is only one sorted arrangement. */
  lemma {:induction false} SortedUnique<T>(s: seq<T>, t: seq<T>, u: set<T>, cmp: (T, T) -> int)
    requires multiset(s) == multiset(t)
    requires Sorted(s, cmp) && Sorted(t, cmp)
    requires TotalOn(cmp, u) && StrictOn(cmp, u) && Within(s, u) && Within(t, u)
    ensures s == t
    decreases |s|
  {
    SameLength(s, t);
    if s != [] {
      SameHead(s, t, u, cmp);
      hide *;
      TailMultiset(s);
      TailMultiset(t);
      SortedTail(s, u, cmp);
      SortedTail(t, u, cmp);
      SortedUnique(s[1..], t[1..], u, cmp);
      SameCons(s, t);
    }
  }
}
