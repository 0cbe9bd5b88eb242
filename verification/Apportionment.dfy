/** Largest-remainder apportionment, as keeper/round/allocate.ts splits an asset over its holders. */
module Apportionment {
  import opened Sorting

  /** Owners are the numbers their key bytes spell, so comparing keys is comparing numbers. */
  datatype Weighted = Weighted(owner: nat, weight: nat)

  function Sum(amounts: seq<nat>): nat
    decreases |amounts|
  {
    if amounts == [] then 0 else Sum(amounts[..|amounts| - 1]) + amounts[|amounts| - 1]
  }

  function TotalWeight(pool: seq<Weighted>): nat
    decreases |pool|
  {
    if pool == [] then 0 else TotalWeight(pool[..|pool| - 1]) + pool[|pool| - 1].weight
  }

  function Quotas(total: nat, pool: seq<Weighted>, weight: nat): (quotas: seq<nat>)
    requires weight > 0
    ensures |quotas| == |pool|
  {
    seq(|pool|, i requires 0 <= i < |pool| => total * pool[i].weight / weight)
  }

  function Remainders(total: nat, pool: seq<Weighted>, weight: nat): (remainders: seq<nat>)
    requires weight > 0
    ensures |remainders| == |pool|
  {
    seq(|pool|, i requires 0 <= i < |pool| => total * pool[i].weight % weight)
  }

  function At(amounts: seq<nat>, i: nat): nat {
    if i < |amounts| then amounts[i] else 0
  }

  /** The larger remainder first, ties to the lower index: a pool is in key order, so to the lower key. */
  predicate Before(remainders: seq<nat>, i: nat, j: nat) {
    At(remainders, i) > At(remainders, j) || (At(remainders, i) == At(remainders, j) && i < j)
  }

  function Indices(n: nat): (indices: seq<nat>)
    ensures |indices| == n
  {
    seq(n, i => i)
  }

  function ByRemainder(remainders: seq<nat>): (order: seq<nat>)
    ensures |order| == |remainders|
  {
    Sort(Indices(|remainders|), (i, j) => Before(remainders, i, j))
  }

  predicate InRange(order: seq<nat>, n: nat) {
    forall k :: 0 <= k < |order| ==> order[k] < n
  }

  /** One unit to each index in turn, until `left` units are gone. */
  function TopUp(amounts: seq<nat>, order: seq<nat>, left: nat): (r: seq<nat>)
    requires InRange(order, |amounts|)
    ensures |r| == |amounts|
    decreases |order|
  {
    if left == 0 || order == [] then amounts
    else TopUp(amounts[order[0] := amounts[order[0]] + 1], order[1..], left - 1)
  }

  function LargestRemainder(total: nat, pool: seq<Weighted>): (amounts: seq<nat>)
    ensures |amounts| == |pool|
  {
    var weight := TotalWeight(pool);
    if weight == 0 then seq(|pool|, i => 0)
    else
      var quotas, remainders := Quotas(total, pool, weight), Remainders(total, pool, weight);
      OrderInRange(remainders);
      QuotasFit(total, pool);
      TopUp(quotas, ByRemainder(remainders), total - Sum(quotas))
  }

  method Apportion(total: nat, pool: seq<Weighted>) returns (amounts: seq<nat>)
    ensures amounts == LargestRemainder(total, pool)
    ensures TotalWeight(pool) > 0 ==> IsApportionment(total, pool, amounts)
  {
    hide IsApportionment;
    var weight := TotalWeight(pool);
    if weight == 0 {
      return seq(|pool|, i => 0);
    }
    amounts := Quotas(total, pool, weight);
    QuotasFit(total, pool);
    var left: nat := total - Sum(amounts);
    var order := ByRemainder(Remainders(total, pool, weight));
    OrderInRange(Remainders(total, pool, weight));
    ghost var result := TopUp(amounts, order, left);
    var k := 0;
    assert order[k..] == order;
    while k < |order|
      invariant 0 <= k <= |order| && |amounts| == |pool|
      invariant TopUp(amounts, order[k..], left) == result
    {
      if left == 0 {
        break;
      }
      assert order[k..][1..] == order[k + 1..];
      amounts := amounts[order[k] := amounts[order[k]] + 1];
      left := left - 1;
      k := k + 1;
    }
    ApportionmentExists(total, pool);
  }

  // ---- the order of the leftover units ---------------------------------------------

  lemma {:induction false} BeforeIsOrder(remainders: seq<nat>)
    ensures WeakOrder((i: nat, j: nat) => Before(remainders, i, j))
  {
  }

  lemma {:induction false} OrderHolds(remainders: seq<nat>, i: nat)
    ensures i in ByRemainder(remainders) <==> i < |remainders|
    ensures multiset(ByRemainder(remainders))[i] <= 1
  {
    SortHolds(Indices(|remainders|), (i, j) => Before(remainders, i, j));
    InMultiset(ByRemainder(remainders), i);
    IndicesHold(|remainders|, i);
  }

  lemma {:induction false} IndicesHold(n: nat, i: nat)
    ensures multiset(Indices(n))[i] == if i < n then 1 else 0
    decreases n
  {
    if n > 0 {
      IndicesHold(n - 1, i);
      assert Indices(n) == Indices(n - 1) + [n - 1];
    }
  }

  lemma {:induction false} OrderInRange(remainders: seq<nat>)
    ensures InRange(ByRemainder(remainders), |remainders|)
  {
    forall k | 0 <= k < |remainders|
      ensures ByRemainder(remainders)[k] < |remainders|
    {
      OrderHolds(remainders, ByRemainder(remainders)[k]);
    }
  }

  ghost predicate Distinct(order: seq<nat>) {
    forall a, b :: 0 <= a < b < |order| ==> order[a] != order[b]
  }

  lemma {:induction false} TwiceHeld(order: seq<nat>, a: nat, b: nat)
    requires a < b < |order| && order[a] == order[b]
    ensures multiset(order)[order[a]] >= 2
  {
    assert order == order[..b] + [order[b]] + order[b + 1..];
    assert order[a] in order[..b];
  }

  lemma {:induction false} OnceEach(order: seq<nat>)
    requires forall i: nat :: multiset(order)[i] <= 1
    ensures Distinct(order)
  {
    forall a, b | 0 <= a < b < |order|
      ensures order[a] != order[b]
    {
      if order[a] == order[b] {
        TwiceHeld(order, a, b);
        assert false;
      }
    }
  }

  lemma {:induction false} OrderSorted(remainders: seq<nat>)
    ensures Distinct(ByRemainder(remainders))
    ensures forall a, b :: 0 <= a < b < |remainders| ==>
        Before(remainders, ByRemainder(remainders)[a], ByRemainder(remainders)[b])
  {
    var order := ByRemainder(remainders);
    BeforeIsOrder(remainders);
    SortSorts(Indices(|remainders|), (i, j) => Before(remainders, i, j));
    forall i: nat
      ensures multiset(order)[i] <= 1
    {
      OrderHolds(remainders, i);
    }
    OnceEach(order);
    forall a, b | 0 <= a < b < |order|
      ensures Before(remainders, order[a], order[b])
    {
      assert !Before(remainders, order[b], order[a]);
    }
  }

  // ---- sums ---------------------------------------------------------------------------

  lemma {:induction false} SumUpdate(amounts: seq<nat>, i: nat, x: nat)
    requires i < |amounts|
    ensures Sum(amounts[i := x]) == Sum(amounts) - amounts[i] + x
    decreases |amounts|
  {
    var n := |amounts| - 1;
    if i < n {
      SumUpdate(amounts[..n], i, x);
      assert amounts[i := x][..n] == amounts[..n][i := x];
    } else {
      assert amounts[i := x][..n] == amounts[..n];
    }
  }

  lemma {:induction false} SumDominates(a: seq<nat>, b: seq<nat>)
    requires |a| == |b| && forall k :: 0 <= k < |a| ==> a[k] <= b[k]
    ensures Sum(a) <= Sum(b)
    ensures Sum(a) == Sum(b) ==> a == b
    decreases |a|
  {
    if a != [] {
      var n := |a| - 1;
      SumDominates(a[..n], b[..n]);
      assert a == a[..n] + [a[n]] && b == b[..n] + [b[n]];
    }
  }

  lemma {:induction false} DivMod(x: nat, d: nat)
    requires d > 0
    ensures x == d * (x / d) + x % d && x % d < d
  {
  }

  lemma {:induction false} SharesAddUp(total: nat, pool: seq<Weighted>, weight: nat)
    requires weight > 0
    ensures total * TotalWeight(pool) == weight * Sum(Quotas(total, pool, weight))
         + Sum(Remainders(total, pool, weight))
    decreases |pool|
  {
    var quotas, remainders := Quotas(total, pool, weight), Remainders(total, pool, weight);
    if pool != [] {
      var n := |pool| - 1;
      SharesAddUp(total, pool[..n], weight);
      assert quotas[..n] == Quotas(total, pool[..n], weight);
      assert remainders[..n] == Remainders(total, pool[..n], weight);
      DivMod(total * pool[n].weight, weight);
      Distribute(total, TotalWeight(pool[..n]), pool[n].weight);
      Distribute(weight, Sum(quotas[..n]), quotas[n]);
    }
  }

  lemma {:induction false} Distribute(x: int, a: int, b: int)
    ensures x * (a + b) == x * a + x * b
  {
  }

  lemma {:induction false} MulMonotone(x: nat, a: int, b: int)
    ensures a <= b ==> x * a <= x * b
    ensures a < b && x > 0 ==> x * a + x <= x * b
  {
    if a < b {
      Distribute(x, a, b - a);
      assert x * (b - a) >= x * 1 by { MulNonNegative(x, b - a - 1); Distribute(x, b - a - 1, 1); }
    }
  }

  lemma {:induction false} MulNonNegative(x: nat, a: nat)
    ensures x * a >= 0
  {
  }

  /** The quotas never exceed the total, and what they leave is the remainders over the weight. */
  lemma {:induction false} QuotasFit(total: nat, pool: seq<Weighted>)
    requires TotalWeight(pool) > 0
    ensures var weight := TotalWeight(pool);
      Sum(Quotas(total, pool, weight)) <= total
      && weight * (total - Sum(Quotas(total, pool, weight))) == Sum(Remainders(total, pool, weight))
  {
    hide *;
    SharesAddUp(total, pool, TotalWeight(pool));
    LeftoverFits(total, TotalWeight(pool), Sum(Quotas(total, pool, TotalWeight(pool))),
      Sum(Remainders(total, pool, TotalWeight(pool))));
  }

  lemma {:induction false} LeftoverFits(total: nat, weight: nat, given: nat, rest: nat)
    requires weight > 0 && total * weight == weight * given + rest
    ensures given <= total && weight * (total - given) == rest
  {
    Distribute(weight, total - given, given);
    MulMonotone(weight, total - given, 0);
  }

  // ---- the leftover runs out within the positive remainders ---------------------------

  function Positive(remainders: seq<nat>): (positive: set<nat>)
    decreases |remainders|
  {
    if remainders == [] then {}
    else
      var n := |remainders| - 1;
      Positive(remainders[..n]) + if remainders[n] > 0 then {n} else {}
  }

  lemma {:induction false} PositiveHolds(remainders: seq<nat>, i: nat)
    ensures i in Positive(remainders) <==> i < |remainders| && remainders[i] > 0
    decreases |remainders|
  {
    if remainders != [] {
      PositiveHolds(remainders[..|remainders| - 1], i);
    }
  }

  lemma {:induction false} SumBelow(remainders: seq<nat>, weight: nat)
    requires weight > 0 && forall k :: 0 <= k < |remainders| ==> remainders[k] < weight
    ensures Sum(remainders) <= (weight - 1) * |Positive(remainders)|
    decreases |remainders|
  {
    if remainders != [] {
      var n := |remainders| - 1;
      SumBelow(remainders[..n], weight);
      PositiveHolds(remainders[..n], n);
      Distribute(weight - 1, |Positive(remainders[..n])|, 1);
    }
  }

  lemma {:induction false} LeftWithinPositive(total: nat, pool: seq<Weighted>)
    requires TotalWeight(pool) > 0
    ensures var weight := TotalWeight(pool);
      0 <= total - Sum(Quotas(total, pool, weight)) <= |Positive(Remainders(total, pool, weight))|
  {
    var weight := TotalWeight(pool);
    var left := total - Sum(Quotas(total, pool, weight));
    var remainders := Remainders(total, pool, weight);
    QuotasFit(total, pool);
    forall k | 0 <= k < |remainders|
      ensures remainders[k] < weight
    {
      DivMod(total * pool[k].weight, weight);
    }
    SumBelow(remainders, weight);
    LeftoverSpread(weight, left, |Positive(remainders)|);
  }

  lemma {:induction false} LeftoverSpread(weight: nat, left: nat, positive: nat)
    requires weight > 0 && weight * left <= (weight - 1) * positive
    ensures left <= positive
  {
    Distribute(positive, weight - 1, 1);
    MulMonotone(weight, positive, left);
  }

  function Range(n: nat): (range: set<nat>)
    ensures |range| == n && forall i: nat :: i in range <==> i < n
  {
    if n == 0 then {} else Range(n - 1) + {n - 1}
  }

  lemma {:induction false} SizeOfPart(a: set<nat>, b: set<nat>)
    requires a <= b
    ensures |a| <= |b|
  {
    assert b == a + (b - a);
  }

  ghost function Elements(order: seq<nat>): (elements: set<nat>)
    ensures |elements| <= |order| && forall i :: i in elements <==> i in order
    decreases |order|
  {
    if order == [] then {}
    else
      var n := |order| - 1;
      assert order == order[..n] + [order[n]];
      Elements(order[..n]) + {order[n]}
  }

  /** The first units go to positive remainders, as many as there are. */
  lemma {:induction false} PositiveFirst(remainders: seq<nat>, k: nat)
    requires k < |Positive(remainders)|
    ensures k < |remainders| && ByRemainder(remainders)[k] < |remainders| && remainders[ByRemainder(remainders)[k]] > 0
  {
    var order, positive := ByRemainder(remainders), Positive(remainders);
    forall i | i in positive
      ensures i in Range(|remainders|)
    {
      PositiveHolds(remainders, i);
    }
    SizeOfPart(positive, Range(|remainders|));
    OrderInRange(remainders);
    if remainders[order[k]] == 0 {
      forall i | i in positive
        ensures i in Elements(order[..k])
      {
        PositiveHolds(remainders, i);
        OrderHolds(remainders, i);
        var b :| 0 <= b < |order| && order[b] == i;
        OrderSorted(remainders);
        assert b > k ==> Before(remainders, order[k], order[b]);
        assert b < k;
        assert order[..k][b] == i;
      }
      SizeOfPart(positive, Elements(order[..k]));
      assert false;
    }
  }

  // ---- what each index gets -----------------------------------------------------------

  lemma {:induction false} TopUpSum(amounts: seq<nat>, order: seq<nat>, left: nat)
    requires InRange(order, |amounts|) && left <= |order|
    ensures Sum(TopUp(amounts, order, left)) == Sum(amounts) + left
    decreases |order|
  {
    if left > 0 {
      SumUpdate(amounts, order[0], amounts[order[0]] + 1);
      TopUpSum(amounts[order[0] := amounts[order[0]] + 1], order[1..], left - 1);
    }
  }

  lemma {:induction false} TopUpAt(amounts: seq<nat>, order: seq<nat>, left: nat, i: nat)
    requires InRange(order, |amounts|) && left <= |order| && Distinct(order) && i < |amounts|
    ensures TopUp(amounts, order, left)[i] == amounts[i] + if i in order[..left] then 1 else 0
    decreases |order|
  {
    if left > 0 {
      TopUpAt(amounts[order[0] := amounts[order[0]] + 1], order[1..], left - 1, i);
      assert order[..left] == [order[0]] + order[1..][..left - 1];
      assert i == order[0] ==> i !in order[1..];
    }
  }

  /** The defining properties of a largest-remainder apportionment. */
  ghost predicate IsApportionment(total: nat, pool: seq<Weighted>, amounts: seq<nat>)
    requires TotalWeight(pool) > 0
  {
    var quotas := Quotas(total, pool, TotalWeight(pool));
    var remainders := Remainders(total, pool, TotalWeight(pool));
    |amounts| == |pool| && Sum(amounts) == total
    && (forall i :: 0 <= i < |pool| ==>
          amounts[i] == quotas[i] || (amounts[i] == quotas[i] + 1 && remainders[i] > 0))
    && forall i, j :: 0 <= i < |pool| && 0 <= j < |pool| && Before(remainders, i, j) && amounts[j] == quotas[j] + 1 ==>
         amounts[i] == quotas[i] + 1
  }

  lemma {:induction false} UnitsAt(total: nat, pool: seq<Weighted>, i: nat)
    requires TotalWeight(pool) > 0 && i < |pool|
    ensures var quotas := Quotas(total, pool, TotalWeight(pool));
      var order := ByRemainder(Remainders(total, pool, TotalWeight(pool)));
      0 <= total - Sum(quotas) <= |order|
      && LargestRemainder(total, pool)[i] == quotas[i] + if i in order[..total - Sum(quotas)] then 1 else 0
  {
    var quotas, remainders := Quotas(total, pool, TotalWeight(pool)), Remainders(total, pool, TotalWeight(pool));
    LeftInOrder(total, pool);
    OrderInRange(remainders);
    OrderSorted(remainders);
    TopUpAt(quotas, ByRemainder(remainders), total - Sum(quotas), i);
  }

  lemma {:induction false} LeftInOrder(total: nat, pool: seq<Weighted>)
    requires TotalWeight(pool) > 0
    ensures 0 <= total - Sum(Quotas(total, pool, TotalWeight(pool))) <= |pool|
  {
    var remainders := Remainders(total, pool, TotalWeight(pool));
    LeftWithinPositive(total, pool);
    var count := |Positive(remainders)|;
    if count > 0 {
      PositiveFirst(remainders, count - 1);
    }
  }

  lemma {:induction false} HandsOutTotal(total: nat, pool: seq<Weighted>)
    requires TotalWeight(pool) > 0
    ensures Sum(LargestRemainder(total, pool)) == total
  {
    var quotas, remainders := Quotas(total, pool, TotalWeight(pool)), Remainders(total, pool, TotalWeight(pool));
    LeftInOrder(total, pool);
    OrderInRange(remainders);
    TopUpSum(quotas, ByRemainder(remainders), total - Sum(quotas));
  }

  lemma {:induction false} UnitsGoDown(total: nat, pool: seq<Weighted>, i: nat, j: nat)
    requires TotalWeight(pool) > 0 && i < |pool| && j < |pool|
    requires Before(Remainders(total, pool, TotalWeight(pool)), i, j)
    requires LargestRemainder(total, pool)[j] == Quotas(total, pool, TotalWeight(pool))[j] + 1
    ensures LargestRemainder(total, pool)[i] == Quotas(total, pool, TotalWeight(pool))[i] + 1
  {
    var quotas, remainders := Quotas(total, pool, TotalWeight(pool)), Remainders(total, pool, TotalWeight(pool));
    var order := ByRemainder(remainders);
    UnitsAt(total, pool, i);
    UnitsAt(total, pool, j);
    var left := total - Sum(quotas);
    var b :| 0 <= b < left && order[b] == j;
    OrderHolds(remainders, i);
    var a :| 0 <= a < |order| && order[a] == i;
    if a >= left {
      OrderSorted(remainders);
      assert false;
    }
    assert order[..left][a] == i;
  }

  lemma {:induction false} UnitsArePositive(total: nat, pool: seq<Weighted>, i: nat)
    requires TotalWeight(pool) > 0 && i < |pool|
    requires LargestRemainder(total, pool)[i] != Quotas(total, pool, TotalWeight(pool))[i]
    ensures Remainders(total, pool, TotalWeight(pool))[i] > 0
  {
    var remainders := Remainders(total, pool, TotalWeight(pool));
    UnitsAt(total, pool, i);
    LeftWithinPositive(total, pool);
    var left := total - Sum(Quotas(total, pool, TotalWeight(pool)));
    var k :| 0 <= k < left && ByRemainder(remainders)[k] == i;
    PositiveFirst(remainders, k);
  }

  lemma {:induction false} ApportionmentExists(total: nat, pool: seq<Weighted>)
    requires TotalWeight(pool) > 0
    ensures IsApportionment(total, pool, LargestRemainder(total, pool))
  {
    hide LargestRemainder, Before, Quotas, Remainders;
    var amounts := LargestRemainder(total, pool);
    var quotas := Quotas(total, pool, TotalWeight(pool));
    HandsOutTotal(total, pool);
    forall i | 0 <= i < |pool|
      ensures amounts[i] == quotas[i]
           || (amounts[i] == quotas[i] + 1 && Remainders(total, pool, TotalWeight(pool))[i] > 0)
    {
      UnitsAt(total, pool, i);
      if amounts[i] != quotas[i] {
        UnitsArePositive(total, pool, i);
      }
    }
    forall i, j | 0 <= i < |pool| && 0 <= j < |pool| && Before(Remainders(total, pool, TotalWeight(pool)), i, j)
                  && amounts[j] == quotas[j] + 1
      ensures amounts[i] == quotas[i] + 1
    {
      UnitsGoDown(total, pool, i, j);
    }
  }

  lemma {:induction false} BeforeIsTotal(remainders: seq<nat>, i: nat, j: nat)
    requires i != j
    ensures Before(remainders, i, j) || Before(remainders, j, i)
  {
  }

  lemma {:induction false} ApportionmentUnique(total: nat, pool: seq<Weighted>, a: seq<nat>, b: seq<nat>)
    requires TotalWeight(pool) > 0 && IsApportionment(total, pool, a) && IsApportionment(total, pool, b)
    ensures a == b
  {
    if !(forall k :: 0 <= k < |pool| ==> a[k] <= b[k]) && !(forall k :: 0 <= k < |pool| ==> b[k] <= a[k]) {
      var i :| 0 <= i < |pool| && a[i] > b[i];
      var j :| 0 <= j < |pool| && b[j] > a[j];
      BeforeIsTotal(Remainders(total, pool, TotalWeight(pool)), i, j);
      assert false;
    } else if forall k :: 0 <= k < |pool| ==> a[k] <= b[k] {
      SumDominates(a, b);
    } else {
      SumDominates(b, a);
    }
  }

  /** The whole total, everyone's floor or one more, the extra units to the largest remainders and never to
      a zero one: that is what the loop computes, and nothing else is. */
  lemma {:induction false} ApportionmentIff(total: nat, pool: seq<Weighted>, amounts: seq<nat>)
    requires TotalWeight(pool) > 0
    ensures amounts == LargestRemainder(total, pool) <==> IsApportionment(total, pool, amounts)
  {
    hide LargestRemainder, IsApportionment;
    ApportionmentExists(total, pool);
    if IsApportionment(total, pool, amounts) {
      ApportionmentUnique(total, pool, amounts, LargestRemainder(total, pool));
    }
  }
}
