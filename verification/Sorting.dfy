/** The stable sort of the runtime, for a comparator given as "comes strictly before". */
module Sorting {
  /** Puts `x` after everything it does not come before. */
  function Insert<T>(x: T, sorted: seq<T>, before: (T, T) -> bool): (r: seq<T>)
    ensures |r| == |sorted| + 1
    decreases |sorted|
  {
    if sorted == [] then [x]
    else
      var n := |sorted| - 1;
      if before(x, sorted[n]) then Insert(x, sorted[..n], before) + [sorted[n]] else sorted + [x]
  }

  function Sort<T>(items: seq<T>, before: (T, T) -> bool): (r: seq<T>)
    ensures |r| == |items|
    decreases |items|
  {
    if items == [] then [] else Insert(items[|items| - 1], Sort(items[..|items| - 1], before), before)
  }

  /** A strict order in which items may tie. */
  ghost predicate WeakOrder<T(!new)>(before: (T, T) -> bool) {
    (forall a, b :: before(a, b) ==> !before(b, a))
    && forall a, b, c :: !before(b, a) && !before(c, b) ==> !before(c, a)
  }

  ghost predicate Sorted<T>(items: seq<T>, before: (T, T) -> bool) {
    forall i, j :: 0 <= i < j < |items| ==> !before(items[j], items[i])
  }

  lemma {:induction false} InsertHolds<T(!new)>(x: T, sorted: seq<T>, before: (T, T) -> bool)
    ensures multiset(Insert(x, sorted, before)) == multiset(sorted) + multiset{x}
    decreases |sorted|
  {
    if sorted != [] {
      var n := |sorted| - 1;
      assert sorted == sorted[..n] + [sorted[n]];
      InsertHolds(x, sorted[..n], before);
    }
  }

  lemma {:induction false} SortHolds<T(!new)>(items: seq<T>, before: (T, T) -> bool)
    ensures multiset(Sort(items, before)) == multiset(items)
    decreases |items|
  {
    if items != [] {
      var n := |items| - 1;
      assert items == items[..n] + [items[n]];
      SortHolds(items[..n], before);
      InsertHolds(items[n], Sort(items[..n], before), before);
    }
  }

  lemma {:induction false} InMultiset<T>(items: seq<T>, x: T)
    ensures x in multiset(items) <==> x in items
  {
  }

  lemma {:induction false} InsertSorts<T(!new)>(x: T, sorted: seq<T>, before: (T, T) -> bool)
    requires WeakOrder(before) && Sorted(sorted, before)
    ensures Sorted(Insert(x, sorted, before), before)
    decreases |sorted|
  {
    if sorted != [] {
      var n := |sorted| - 1;
      if before(x, sorted[n]) {
        var front := Insert(x, sorted[..n], before);
        InsertSorts(x, sorted[..n], before);
        InsertHolds(x, sorted[..n], before);
        forall i | 0 <= i < |front|
          ensures !before(sorted[n], front[i])
        {
          assert front[i] in multiset(front);
        }
      } else {
        forall i | 0 <= i < n
          ensures !before(x, sorted[i])
        {
          assert !before(sorted[n], sorted[i]);
        }
      }
    }
  }

  lemma {:induction false} SortSorts<T(!new)>(items: seq<T>, before: (T, T) -> bool)
    requires WeakOrder(before)
    ensures Sorted(Sort(items, before), before)
    decreases |items|
  {
    if items != [] {
      SortSorts(items[..|items| - 1], before);
      InsertSorts(items[|items| - 1], Sort(items[..|items| - 1], before), before);
    }
  }

  /** No two of these items tie. */
  ghost predicate NoTies<T>(items: seq<T>, before: (T, T) -> bool) {
    forall i, j :: 0 <= i < |items| && 0 <= j < |items| && items[i] != items[j] ==>
      before(items[i], items[j]) || before(items[j], items[i])
  }

  lemma {:induction false} LastsAgree<T(!new)>(a: seq<T>, b: seq<T>, before: (T, T) -> bool)
    requires Sorted(a, before) && Sorted(b, before) && NoTies(a, before) && multiset(a) == multiset(b)
    requires a != [] && b != []
    ensures a[|a| - 1] == b[|b| - 1]
  {
    var x, y := a[|a| - 1], b[|b| - 1];
    assert x in multiset(b) && y in multiset(a);
  }

  lemma {:induction false} DropLast<T>(a: seq<T>, before: (T, T) -> bool)
    requires a != []
    ensures multiset(a[..|a| - 1]) == multiset(a) - multiset{a[|a| - 1]}
    ensures a == a[..|a| - 1] + [a[|a| - 1]]
    ensures Sorted(a, before) ==> Sorted(a[..|a| - 1], before)
    ensures NoTies(a, before) ==> NoTies(a[..|a| - 1], before)
  {
    assert a == a[..|a| - 1] + [a[|a| - 1]];
  }

  lemma {:induction false} SortedUnique<T(!new)>(a: seq<T>, b: seq<T>, before: (T, T) -> bool)
    requires Sorted(a, before) && Sorted(b, before) && NoTies(a, before) && multiset(a) == multiset(b)
    ensures a == b
    decreases |a|
  {
    hide Sorted, NoTies;
    assert |a| == |multiset(a)| == |multiset(b)| == |b|;
    if a != [] {
      LastsAgree(a, b, before);
      DropLast(a, before);
      DropLast(b, before);
      SortedUnique(a[..|a| - 1], b[..|b| - 1], before);
    }
  }

  /** Without ties the sort forgets the order it was given. */
  lemma {:induction false} SortForgetsOrder<T(!new)>(a: seq<T>, b: seq<T>, before: (T, T) -> bool)
    requires WeakOrder(before) && NoTies(a, before) && multiset(a) == multiset(b)
    ensures Sort(a, before) == Sort(b, before)
  {
    SortHolds(a, before);
    SortHolds(b, before);
    SortSorts(a, before);
    SortSorts(b, before);
    var s := Sort(a, before);
    forall i, j | 0 <= i < |s| && 0 <= j < |s| && s[i] != s[j]
      ensures before(s[i], s[j]) || before(s[j], s[i])
    {
      InMultiset(s, s[i]);
      InMultiset(s, s[j]);
      InMultiset(a, s[i]);
      InMultiset(a, s[j]);
    }
    SortedUnique(s, Sort(b, before), before);
  }

  lemma {:induction false} SameMembers<T>(a: seq<T>, b: seq<T>)
    requires multiset(a) == multiset(b)
    ensures |a| == |b| && forall x :: x in a <==> x in b
  {
    assert |a| == |multiset(a)| == |multiset(b)| == |b|;
    forall x
      ensures x in a <==> x in b
    {
      InMultiset(a, x);
      InMultiset(b, x);
    }
  }

  lemma {:induction false} RemoveBoth<T>(a: seq<T>, b: seq<T>, k: nat)
    requires multiset(a) == multiset(b) && a != [] && k < |b| && b[k] == a[|a| - 1]
    ensures multiset(a[..|a| - 1]) == multiset(b[..k] + b[k + 1..])
  {
    var x := b[k];
    assert a == a[..|a| - 1] + [x];
    assert b == b[..k] + [x] + b[k + 1..];
    assert multiset(a[..|a| - 1]) == multiset(a) - multiset{x};
    assert multiset(b[..k] + b[k + 1..]) == multiset(b) - multiset{x};
  }

  function Count<T>(items: seq<T>, test: T -> bool): nat
    decreases |items|
  {
    if items == [] then 0
    else Count(items[..|items| - 1], test) + if test(items[|items| - 1]) then 1 else 0
  }

  lemma {:induction false} CountAppend<T>(items: seq<T>, x: T, test: T -> bool)
    ensures Count(items + [x], test) == Count(items, test) + if test(x) then 1 else 0
  {
    assert (items + [x])[..|items|] == items;
  }

  lemma {:induction false} CountWithout<T>(items: seq<T>, k: nat, test: T -> bool)
    requires k < |items|
    ensures Count(items, test) == Count(items[..k] + items[k + 1..], test) + if test(items[k]) then 1 else 0
    decreases |items|
  {
    var n := |items| - 1;
    if k == n {
      assert items[..k] + items[k + 1..] == items[..n];
    } else {
      CountWithout(items[..n], k, test);
      var front := items[..n][..k] + items[..n][k + 1..];
      assert items[..k] + items[k + 1..] == front + [items[n]];
      CountAppend(front, items[n], test);
    }
  }

  lemma {:induction false} CountForgetsOrder<T>(a: seq<T>, b: seq<T>, test: T -> bool)
    requires multiset(a) == multiset(b)
    ensures Count(a, test) == Count(b, test)
    decreases |a|
  {
    SameMembers(a, b);
    if a != [] {
      var n := |a| - 1;
      assert a[n] in b;
      var k :| 0 <= k < |b| && b[k] == a[n];
      CountWithout(b, k, test);
      RemoveBoth(a, b, k);
      CountForgetsOrder(a[..n], b[..k] + b[k + 1..], test);
    }
  }

  lemma {:induction false} CountBounds<T>(items: seq<T>, lo: nat, hi: nat, test: T -> bool)
    requires lo <= hi <= |items| && forall i :: 0 <= i < |items| && test(items[i]) ==> lo <= i < hi
    ensures Count(items, test) <= hi - lo
    decreases |items|
  {
    if items != [] {
      var n := |items| - 1;
      if hi <= n {
        CountBounds(items[..n], lo, hi, test);
      } else if lo <= n {
        CountBounds(items[..n], lo, n, test);
      } else {
        CountBounds(items[..n], n, n, test);
      }
    }
  }
}
