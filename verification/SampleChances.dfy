/** Which snapshots count is the seed's to say: the selection is the head of a shuffle by the seed's own draws, and no
    choice of snapshots has more draws than another. */
module SampleChances {
  import opened Terms
  import opened Sorting
  import opened Sampling
  import opened SampleSelection

  // ---- all draw vectors ----------------------------------------------------------------------

  function AllDraws(n: nat): set<seq<nat>> {
    if n == 0 then {[]} else set front, j | front in AllDraws(n - 1) && 0 <= j < n :: front + [j]
  }

  lemma {:induction false} AllDrawsHold(n: nat, draws: seq<nat>)
    ensures draws in AllDraws(n) <==> |draws| == n && DrawVector(draws)
    decreases n
  {
    if n > 0 {
      if draws in AllDraws(n) {
        var front, j :| front in AllDraws(n - 1) && 0 <= j < n && draws == front + [j];
        AllDrawsHold(n - 1, front);
      }
      if |draws| == n && DrawVector(draws) {
        AllDrawsHold(n - 1, draws[..n - 1]);
        assert draws == draws[..n - 1] + [draws[n - 1]];
      }
    }
  }

  /** The first `k` of the items in the order that the draws give. */
  function Head<T>(items: seq<T>, draws: seq<nat>, k: nat): set<T>
    requires |draws| == |items| && DrawVector(draws) && k <= |items|
  {
    Members(Shuffle(items, draws)[..k])
  }

  /** The draw vectors that pick exactly these. */
  ghost function Picking<T>(items: seq<T>, k: nat, picks: set<T>): set<seq<nat>>
    requires k <= |items|
  {
    set draws | draws in AllDraws(|items|) && Picks(items, k, picks, draws)
  }

  ghost predicate Picks<T>(items: seq<T>, k: nat, picks: set<T>, draws: seq<nat>)
    requires k <= |items|
  {
    |draws| == |items| && DrawVector(draws) && Head(items, draws, k) == picks
  }

  ghost predicate IsPick<T>(items: seq<T>, k: nat, picks: set<T>) {
    |picks| == k && forall x :: x in picks ==> x in items
  }

  // ---- every choice is some draws' --------------------------------------------------------------

  function Part<T(==)>(items: seq<T>, picks: set<T>, inside: bool): seq<T>
    decreases |items|
  {
    if items == [] then []
    else
      var n := |items| - 1;
      Part(items[..n], picks, inside) + if (items[n] in picks) == inside then [items[n]] else []
  }

  lemma {:induction false} PartsHold<T>(items: seq<T>, picks: set<T>)
    ensures multiset(Part(items, picks, true) + Part(items, picks, false)) == multiset(items)
    ensures forall x :: x in Part(items, picks, true) <==> x in items && x in picks
    decreases |items|
  {
    if items != [] {
      var n := |items| - 1;
      PartsHold(items[..n], picks);
      assert items == items[..n] + [items[n]];
    }
  }

  lemma {:induction false} PartRepeats<T>(items: seq<T>, picks: set<T>)
    requires Sampling.NoRepeats(items)
    ensures Sampling.NoRepeats(Part(items, picks, true))
    decreases |items|
  {
    if items != [] {
      var n := |items| - 1;
      PartRepeats(items[..n], picks);
      PartIsFrom(items[..n], picks, items[n]);
    }
  }

  lemma {:induction false} PartIsFrom<T>(items: seq<T>, picks: set<T>, x: T)
    requires forall i :: 0 <= i < |items| ==> items[i] != x
    ensures forall i :: 0 <= i < |Part(items, picks, true)| ==> Part(items, picks, true)[i] != x
    decreases |items|
  {
    if items != [] {
      PartIsFrom(items[..|items| - 1], picks, x);
    }
  }

  function Members<T>(items: seq<T>): set<T> {
    set x | x in items
  }

  /** As many as there are different ones. */
  lemma {:induction false} SetOfDistinct<T>(items: seq<T>)
    requires Sampling.NoRepeats(items)
    ensures |Members(items)| == |items|
    decreases |items|
  {
    if items != [] {
      var n := |items| - 1;
      var front, last := items[..n], items[n];
      SetOfDistinct(front);
      assert items == front + [last];
      assert Members(items) == Members(front) + {last};
      assert forall i :: 0 <= i < n ==> front[i] == items[i] != last;
    }
  }

  lemma {:induction false} EveryPickIsDrawn<T(!new)>(items: seq<T>, k: nat, picks: set<T>) returns (draws: seq<nat>)
    requires Sampling.NoRepeats(items) && IsPick(items, k, picks) && k <= |items|
    ensures draws in Picking(items, k, picks)
  {
    hide Shuffle;
    var chosen, rest := Part(items, picks, true), Part(items, picks, false);
    PartsHold(items, picks);
    PartRepeats(items, picks);
    SetOfDistinct(chosen);
    assert Members(chosen) == picks;
    draws := ShuffleIsSurjective(items, chosen + rest);
    assert (chosen + rest)[..k] == chosen;
    AllDrawsHold(|items|, draws);
  }

  // ---- and of as many draws as any other ----------------------------------------------------------

  function Exchange<T(==)>(a: T, b: T, x: T): T {
    if x == a then b else if x == b then a else x
  }

  function Exchanged<T(==)>(a: T, b: T, order: seq<T>): (r: seq<T>)
    ensures |r| == |order|
  {
    seq(|order|, i requires 0 <= i < |order| => Exchange(a, b, order[i]))
  }

  lemma {:induction false} CountOnce<T>(items: seq<T>, x: T)
    requires Sampling.NoRepeats(items)
    ensures multiset(items)[x] == if x in items then 1 else 0
    decreases |items|
  {
    if items != [] {
      var n := |items| - 1;
      CountOnce(items[..n], x);
      assert items == items[..n] + [items[n]];
      assert items[n] !in items[..n];
    }
  }

  lemma {:induction false} SameDistinct<T(!new)>(p: seq<T>, q: seq<T>)
    requires Sampling.NoRepeats(p) && Sampling.NoRepeats(q) && forall x :: x in p <==> x in q
    ensures multiset(p) == multiset(q)
  {
    forall x
      ensures multiset(p)[x] == multiset(q)[x]
    {
      CountOnce(p, x);
      CountOnce(q, x);
    }
  }

  lemma {:induction false} OrderIsDistinct<T(!new)>(items: seq<T>, order: seq<T>)
    requires Sampling.NoRepeats(items) && multiset(order) == multiset(items)
    ensures Sampling.NoRepeats(order) && forall x :: x in order <==> x in items
  {
    SameMembers(order, items);
    forall i, j | 0 <= i < j < |order|
      ensures order[i] != order[j]
    {
      if order[i] == order[j] {
        Twice(order, i, j);
        CountOnce(items, order[i]);
        assert false;
      }
    }
  }

  lemma {:induction false} Twice<T>(items: seq<T>, i: nat, j: nat)
    requires i < j < |items| && items[i] == items[j]
    ensures multiset(items)[items[i]] >= 2
  {
    assert items == items[..j] + [items[j]] + items[j + 1..];
    assert items[i] in items[..j];
  }

  /** Exchanging two of the items turns an order of them into another. */
  lemma {:induction false} ExchangedIsOrder<T(!new)>(items: seq<T>, order: seq<T>, a: T, b: T)
    requires Sampling.NoRepeats(items) && multiset(order) == multiset(items) && a in items && b in items
    ensures multiset(Exchanged(a, b, order)) == multiset(items)
  {
    OrderIsDistinct(items, order);
    var other := Exchanged(a, b, order);
    forall x
      ensures x in other <==> x in items
    {
      if x in other {
        var i :| 0 <= i < |other| && other[i] == x;
        assert order[i] in items;
      }
      if x in items {
        assert Exchange(a, b, x) in order;
        var i :| 0 <= i < |order| && order[i] == Exchange(a, b, x);
        assert other[i] == x;
      }
    }
    SameDistinct(other, items);
  }

  lemma {:induction false} RelabelExists<T(!new)>(items: seq<T>, draws: seq<nat>, a: T, b: T)
    requires Sampling.NoRepeats(items) && |draws| == |items| && DrawVector(draws) && a in items && b in items
    ensures exists other :: IsRelabelled(items, draws, a, b, other)
  {
    hide Shuffle;
    ShuffleHolds(items, draws);
    ExchangedIsOrder(items, Shuffle(items, draws), a, b);
    var other := ShuffleIsSurjective(items, Exchanged(a, b, Shuffle(items, draws)));
    assert IsRelabelled(items, draws, a, b, other);
  }

  ghost predicate IsRelabelled<T>(items: seq<T>, draws: seq<nat>, a: T, b: T, other: seq<nat>)
    requires |draws| == |items| && DrawVector(draws)
  {
    |other| == |items| && DrawVector(other) && Shuffle(items, other) == Exchanged(a, b, Shuffle(items, draws))
  }

  /** The draws that give the same order with two items exchanged. */
  ghost function Relabelled<T(!new)>(items: seq<T>, draws: seq<nat>, a: T, b: T): (other: seq<nat>)
    requires Sampling.NoRepeats(items) && |draws| == |items| && DrawVector(draws) && a in items && b in items
    ensures IsRelabelled(items, draws, a, b, other)
  {
    RelabelExists(items, draws, a, b);
    var other :| IsRelabelled(items, draws, a, b, other);
    other
  }

  lemma {:induction false} RelabelledDiffer<T(!new)>(items: seq<T>, x: seq<nat>, y: seq<nat>, a: T, b: T)
    requires Sampling.NoRepeats(items) && a in items && b in items
    requires |x| == |items| && DrawVector(x) && |y| == |items| && DrawVector(y)
    requires Relabelled(items, x, a, b) == Relabelled(items, y, a, b)
    ensures x == y
  {
    hide Shuffle;
    var p, q := Shuffle(items, x), Shuffle(items, y);
    assert Exchanged(a, b, p) == Exchanged(a, b, q);
    forall i | 0 <= i < |p|
      ensures p[i] == q[i]
    {
      assert Exchanged(a, b, p)[i] == Exchanged(a, b, q)[i];
    }
    ShuffleIsInjective(items, x, y);
  }

  lemma {:induction false} RelabelledPicks<T(!new)>(items: seq<T>, k: nat, picks: set<T>, draws: seq<nat>, a: T, b: T)
    requires Sampling.NoRepeats(items) && k <= |items| && a in items && b in items && a in picks && b !in picks
    requires Picks(items, k, picks, draws)
    ensures Picks(items, k, picks - {a} + {b}, Relabelled(items, draws, a, b))
  {
    hide Shuffle;
    var order, other := Shuffle(items, draws), Shuffle(items, Relabelled(items, draws, a, b));
    forall x
      ensures x in other[..k] <==> Exchange(a, b, x) in order[..k]
    {
      if x in other[..k] {
        var i :| 0 <= i < k && other[..k][i] == x;
        assert order[..k][i] == Exchange(a, b, x);
      }
      if Exchange(a, b, x) in order[..k] {
        var i :| 0 <= i < k && order[..k][i] == Exchange(a, b, x);
        assert other[..k][i] == x;
      }
    }
    assert forall x :: x in order[..k] <==> x in picks;
  }

  /** A set that maps into another without two of its members meeting is no larger. */
  lemma {:induction false} NoLarger<X, Y>(from: set<X>, into: set<Y>, image: map<X, Y>)
    requires forall x :: x in from ==> x in image && image[x] in into
    requires forall x, y :: x in from && y in from && image[x] == image[y] ==> x == y
    ensures |from| <= |into|
    decreases |from|
  {
    if from != {} {
      var x :| x in from;
      NoLarger(from - {x}, into - {image[x]}, image);
    }
  }

  lemma {:induction false} ExchangeChances<T(!new)>(items: seq<T>, k: nat, picks: set<T>, a: T, b: T)
    requires Sampling.NoRepeats(items) && k <= |items| && a in items && b in items && a in picks && b !in picks
    ensures |Picking(items, k, picks)| <= |Picking(items, k, picks - {a} + {b})|
  {
    hide AllDraws, Head, Picks;
    var from, into := Picking(items, k, picks), Picking(items, k, picks - {a} + {b});
    forall draws | draws in from
      ensures |draws| == |items| && DrawVector(draws) && Relabelled(items, draws, a, b) in into
    {
      AllDrawsHold(|items|, draws);
      RelabelledPicks(items, k, picks, draws, a, b);
      AllDrawsHold(|items|, Relabelled(items, draws, a, b));
    }
    var image := map draws | draws in from :: Relabelled(items, draws, a, b);
    forall x, y | x in from && y in from && image[x] == image[y]
      ensures x == y
    {
      RelabelledDiffer(items, x, y, a, b);
    }
    NoLarger(from, into, image);
  }

  /** No `k` of the items are more likely than any other `k`: as many draw vectors pick the ones as pick the others. */
  lemma {:induction false} EqualChances<T(!new)>(items: seq<T>, k: nat, picks: set<T>, others: set<T>)
    requires Sampling.NoRepeats(items) && k <= |items| && IsPick(items, k, picks) && IsPick(items, k, others)
    ensures |Picking(items, k, picks)| == |Picking(items, k, others)|
    decreases |picks - others|
  {
    hide Picking;
    if picks != others {
      OneOfEach(picks, others);
      var a, b :| a in picks && a !in others && b in others && b !in picks;
      var next := picks - {a} + {b};
      ExchangeChances(items, k, picks, a, b);
      ExchangeChances(items, k, next, b, a);
      assert next - {b} + {a} == picks;
      assert next - others == picks - others - {a};
      EqualChances(items, k, next, others);
    }
  }

  lemma {:induction false} OneOfEach<T>(picks: set<T>, others: set<T>)
    requires |picks| == |others| && picks != others
    ensures exists a, b :: a in picks && a !in others && b in others && b !in picks
  {
    var left, right := picks - others, others - picks;
    assert picks == left + picks * others && others == right + picks * others;
    assert |left| == |right|;
    assert left != {} || right != {};
    var a :| a in left;
    var b :| b in right;
  }

  // ---- among snapshots ----------------------------------------------------------------------------

  /** So no choice of snapshots is favoured: any `k` of those inside are picked by some draws, and by as many as any
      other `k` are. */
  lemma {:induction false} NoneIsFavoured(candidates: seq<Ref>, window: SlotWindow, inside: seq<Ref>, k: nat,
                                          picks: set<Ref>, others: set<Ref>)
    requires DistinctIndices(candidates) && InsideInOrder(candidates, window, inside) && k <= |inside|
    requires IsPick(inside, k, picks) && IsPick(inside, k, others)
    ensures |Picking(inside, k, picks)| == |Picking(inside, k, others)| > 0
  {
    assert Sampling.NoRepeats(inside);
    hide InsideInOrder, Picking;
    EqualChances(inside, k, picks, others);
    var draws := EveryPickIsDrawn(inside, k, picks);
    assert Picking(inside, k, picks) != {};
  }
}
