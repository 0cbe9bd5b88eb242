/** One asset's payout leaves: keeper/round/allocate.ts from the eligible holders on. */
module Allocation {
  import opened Terms
  import opened Sorting
  import opened Apportionment

  const MAX_LEAVES_PER_ASSET := 65_536

  datatype Params = Params(minEligibleUsdMicro: int, maxLeavesPerAsset: int, maxMinLeafPasses: int)

  predicate ValidParams(params: Params) {
    params.minEligibleUsdMicro >= 0 && 1 <= params.maxLeavesPerAsset <= MAX_LEAVES_PER_ASSET
    && params.maxMinLeafPasses >= 0
  }

  datatype AssetInput = AssetInput(mint: Key, tokenProgram: Key, allocatable: int, minLeafAmount: int)

  datatype Leaf = Leaf(leafIdx: nat, recipient: nat, amount: nat)

  datatype Share = Share(
    mint: Key, tokenProgram: Key, allocatable: nat, handedOut: nat, dust: int,
    droppedBelowMin: int, truncated: int, leaves: seq<Leaf>)

  datatype AssetOutcome = Paid(share: Share) | Skipped(reason: SkipReason) | NegativeAmounts

  datatype SkipReason = NothingToAllocate | NoRecipients

  /** The ranking that truncation keeps the top of. */
  predicate Outranks(a: Weighted, b: Weighted) {
    a.weight > b.weight || (a.weight == b.weight && a.owner < b.owner)
  }

  function Ranked(pool: seq<Weighted>): (ranked: seq<Weighted>)
    ensures |ranked| == |pool|
  {
    Sort(pool, (a, b) => Outranks(a, b))
  }

  function Owners(pool: seq<Weighted>): set<nat> {
    set p | p in pool :: p.owner
  }

  function Keep(pool: seq<Weighted>, owners: set<nat>): seq<Weighted>
    decreases |pool|
  {
    if pool == [] then []
    else
      var n := |pool| - 1;
      Keep(pool[..n], owners) + if pool[n].owner in owners then [pool[n]] else []
  }

  function Truncate(pool: seq<Weighted>, cap: nat): seq<Weighted> {
    if |pool| > cap then Keep(pool, Owners(Ranked(pool)[..cap])) else pool
  }

  predicate AllAtLeast(amounts: seq<nat>, min: int) {
    forall i :: 0 <= i < |amounts| ==> amounts[i] >= min
  }

  function AtLeast(pool: seq<Weighted>, amounts: seq<nat>, min: int): seq<Weighted>
    requires |amounts| == |pool|
    decreases |pool|
  {
    if pool == [] then []
    else
      var n := |pool| - 1;
      AtLeast(pool[..n], amounts[..n], min) + if amounts[n] >= min then [pool[n]] else []
  }

  /** Drops whoever falls below the minimum, for at most `passes` passes. */
  function Settle(total: nat, min: int, pool: seq<Weighted>, passes: nat): seq<Weighted>
    decreases passes
  {
    var amounts := LargestRemainder(total, pool);
    if passes == 0 || pool == [] || AllAtLeast(amounts, min) then pool
    else Settle(total, min, AtLeast(pool, amounts, min), passes - 1)
  }

  function Leaves(pool: seq<Weighted>, amounts: seq<nat>): seq<Leaf>
    requires |amounts| == |pool|
    decreases |pool|
  {
    if pool == [] then []
    else
      var n := |pool| - 1;
      var front := Leaves(pool[..n], amounts[..n]);
      if amounts[n] > 0 then front + [Leaf(|front|, pool[n].owner, amounts[n])] else front
  }

  function Allocated(leaves: seq<Leaf>): nat
    decreases |leaves|
  {
    if leaves == [] then 0 else Allocated(leaves[..|leaves| - 1]) + leaves[|leaves| - 1].amount
  }

  function Recipients(asset: AssetInput, eligible: seq<Weighted>, params: Params): seq<Weighted>
    requires ValidParams(params) && asset.allocatable >= 0
  {
    var kept := Truncate(eligible, params.maxLeavesPerAsset);
    Settle(asset.allocatable, asset.minLeafAmount, kept, params.maxMinLeafPasses)
  }

  function AllocateAsset(asset: AssetInput, eligible: seq<Weighted>, params: Params): AssetOutcome
    requires ValidParams(params)
  {
    if asset.allocatable < 0 || asset.minLeafAmount < 0 then NegativeAmounts
    else if asset.allocatable == 0 then Skipped(NothingToAllocate)
    else
      var kept := Truncate(eligible, params.maxLeavesPerAsset);
      var pool := Recipients(asset, eligible, params);
      var leaves := Leaves(pool, LargestRemainder(asset.allocatable, pool));
      if leaves == [] then Skipped(NoRecipients)
      else
        Paid(Share(asset.mint, asset.tokenProgram, asset.allocatable, Allocated(leaves),
          asset.allocatable - Allocated(leaves), |kept| - |pool|, |eligible| - |kept|, leaves))
  }

  method ShareOut(asset: AssetInput, eligible: seq<Weighted>, params: Params) returns (outcome: AssetOutcome)
    requires ValidParams(params)
    ensures outcome == AllocateAsset(asset, eligible, params)
    ensures ByKey(eligible) && AllWeighted(eligible) && outcome.Paid? ==> InFull(outcome.share, params)
  {
    hide InFull, LargestRemainder, Keep, Ranked, AtLeast, Leaves, Allocated, AllAtLeast;
    if asset.allocatable < 0 || asset.minLeafAmount < 0 {
      return NegativeAmounts;
    }
    if asset.allocatable == 0 {
      return Skipped(NothingToAllocate);
    }
    var pool, truncated := eligible, 0;
    if |pool| > params.maxLeavesPerAsset {
      var kept := Owners(Ranked(pool)[..params.maxLeavesPerAsset]);
      pool := Keep(pool, kept);
      truncated := |eligible| - |pool|;
    }
    ghost var start := pool;
    var amounts := Apportion(asset.allocatable, pool);
    var droppedBelowMin := 0;
    var pass := 0;
    while pass < params.maxMinLeafPasses && |pool| > 0
      invariant 0 <= pass <= params.maxMinLeafPasses
      invariant amounts == LargestRemainder(asset.allocatable, pool)
      invariant droppedBelowMin == |start| - |pool|
      invariant Settle(asset.allocatable, asset.minLeafAmount, pool, params.maxMinLeafPasses - pass)
             == Settle(asset.allocatable, asset.minLeafAmount, start, params.maxMinLeafPasses)
    {
      if AllAtLeast(amounts, asset.minLeafAmount) {
        break;
      }
      var next := AtLeast(pool, amounts, asset.minLeafAmount);
      droppedBelowMin := droppedBelowMin + |pool| - |next|;
      pool := next;
      amounts := Apportion(asset.allocatable, pool);
      pass := pass + 1;
    }
    var leaves := Leaves(pool, amounts);
    if leaves == [] {
      return Skipped(NoRecipients);
    }
    var handedOut := Allocated(leaves);
    outcome := Paid(Share(asset.mint, asset.tokenProgram, asset.allocatable, handedOut, asset.allocatable - handedOut,
      droppedBelowMin, truncated, leaves));
    if ByKey(eligible) && AllWeighted(eligible) {
      FullShare(asset, eligible, params);
    }
  }

  // ---- pools in key order -------------------------------------------------------------

  ghost predicate ByKey(pool: seq<Weighted>) {
    forall i, j :: 0 <= i < j < |pool| ==> pool[i].owner < pool[j].owner
  }

  ghost predicate AllWeighted(pool: seq<Weighted>) {
    forall i :: 0 <= i < |pool| ==> pool[i].weight > 0
  }

  /** `kept` is a top part of the ranking of `all`. */
  ghost predicate TopOf(kept: seq<Weighted>, all: seq<Weighted>) {
    (forall x :: x in kept ==> x in all)
    && forall x, y :: x in kept && y in all && Outranks(y, x) ==> y in kept
  }

  lemma {:induction false} TopOfTop(a: seq<Weighted>, b: seq<Weighted>, c: seq<Weighted>)
    requires TopOf(a, b) && TopOf(b, c)
    ensures TopOf(a, c)
  {
  }

  lemma {:induction false} KeepHolds(pool: seq<Weighted>, owners: set<nat>, x: Weighted)
    ensures multiset(Keep(pool, owners))[x] == if x.owner in owners then multiset(pool)[x] else 0
    decreases |pool|
  {
    if pool != [] {
      KeepHolds(pool[..|pool| - 1], owners, x);
      assert pool == pool[..|pool| - 1] + [pool[|pool| - 1]];
    }
  }

  lemma {:induction false} ByKeyPrefix(pool: seq<Weighted>, n: nat)
    requires ByKey(pool) && n <= |pool|
    ensures ByKey(pool[..n])
  {
  }

  lemma {:induction false} ByKeyAppend(pool: seq<Weighted>, n: nat, front: seq<Weighted>)
    requires ByKey(pool) && n < |pool| && ByKey(front) && forall x :: x in front ==> x in pool[..n]
    ensures ByKey(front + [pool[n]]) && forall x :: x in front + [pool[n]] ==> x in pool
  {
    forall i | 0 <= i < |front|
      ensures front[i].owner < pool[n].owner
    {
      assert front[i] in pool[..n];
    }
  }

  lemma {:induction false} KeepByKey(pool: seq<Weighted>, owners: set<nat>)
    requires ByKey(pool)
    ensures ByKey(Keep(pool, owners)) && forall x :: x in Keep(pool, owners) ==> x in pool
    decreases |pool|
  {
    if pool != [] {
      hide ByKey;
      ByKeyPrefix(pool, |pool| - 1);
      KeepByKey(pool[..|pool| - 1], owners);
      ByKeyAppend(pool, |pool| - 1, Keep(pool[..|pool| - 1], owners));
    }
  }

  lemma {:induction false} OwnersDiffer(pool: seq<Weighted>, x: Weighted, y: Weighted)
    requires ByKey(pool) && x in pool && y in pool && x.owner == y.owner
    ensures x == y
  {
  }

  lemma {:induction false} HeldOnce(pool: seq<Weighted>, x: Weighted)
    requires ByKey(pool)
    ensures multiset(pool)[x] <= 1
    decreases |pool|
  {
    if pool != [] {
      HeldOnce(pool[..|pool| - 1], x);
      assert pool == pool[..|pool| - 1] + [pool[|pool| - 1]];
    }
  }

  lemma {:induction false} OutranksIsOrder()
    ensures WeakOrder((a: Weighted, b: Weighted) => Outranks(a, b))
  {
  }

  lemma {:induction false} RankedHolds(pool: seq<Weighted>)
    ensures multiset(Ranked(pool)) == multiset(pool)
    ensures forall x :: x in Ranked(pool) <==> x in pool
    ensures forall i, j :: 0 <= i < j < |pool| ==> !Outranks(Ranked(pool)[j], Ranked(pool)[i])
  {
    OutranksIsOrder();
    SortHolds(pool, (a, b) => Outranks(a, b));
    SortSorts(pool, (a, b) => Outranks(a, b));
    forall x
      ensures x in Ranked(pool) <==> x in pool
    {
      InMultiset(Ranked(pool), x);
      InMultiset(pool, x);
    }
  }

  lemma {:induction false} KeptHolds(pool: seq<Weighted>, cap: nat, x: Weighted)
    requires ByKey(pool) && cap < |pool|
    ensures x in Truncate(pool, cap) <==> x in Ranked(pool)[..cap]
    ensures multiset(Truncate(pool, cap))[x] == multiset(Ranked(pool)[..cap])[x]
  {
    var ranked := Ranked(pool);
    var top := ranked[..cap];
    RankedHolds(pool);
    KeepHolds(pool, Owners(top), x);
    HeldOnce(pool, x);
    InMultiset(Truncate(pool, cap), x);
    InMultiset(top, x);
    InMultiset(pool, x);
    assert ranked == top + ranked[cap..];
    if x in pool && x.owner in Owners(top) {
      var y :| y in top && y.owner == x.owner;
      OwnersDiffer(pool, x, y);
    }
  }

  lemma {:induction false} TruncateIsTop(pool: seq<Weighted>, cap: nat)
    requires ByKey(pool) && cap < |pool|
    ensures |Truncate(pool, cap)| == cap
    ensures forall x :: x in Truncate(pool, cap) <==> x in Ranked(pool)[..cap]
  {
    hide Truncate, Ranked, ByKey;
    var top := Ranked(pool)[..cap];
    forall x
      ensures multiset(Truncate(pool, cap))[x] == multiset(top)[x]
      ensures x in Truncate(pool, cap) <==> x in top
    {
      KeptHolds(pool, cap, x);
    }
    assert multiset(Truncate(pool, cap)) == multiset(top);
    assert |multiset(Truncate(pool, cap))| == |multiset(top)|;
  }

  /** Truncation keeps the `cap` highest ranked holders, still in key order. */
  lemma {:induction false} TruncateKeepsTop(pool: seq<Weighted>, cap: nat)
    requires ByKey(pool)
    ensures ByKey(Truncate(pool, cap)) && TopOf(Truncate(pool, cap), pool)
    ensures |Truncate(pool, cap)| == if |pool| > cap then cap else |pool|
  {
    if |pool| > cap {
      var top := Ranked(pool)[..cap];
      TruncateIsTop(pool, cap);
      hide Truncate, Ranked, ByKey, Keep;
      TruncateByKey(pool, cap);
      forall x, y | x in top && y in pool && Outranks(y, x)
        ensures y in top
      {
        RankedPrefix(pool, cap, x, y);
      }
    } else {
      TopOfSelf(pool);
    }
  }

  lemma {:induction false} RankedPrefix(pool: seq<Weighted>, cap: nat, x: Weighted, y: Weighted)
    requires cap <= |pool| && x in Ranked(pool)[..cap] && y in pool && Outranks(y, x)
    ensures y in Ranked(pool)[..cap]
  {
    hide Ranked;
    RankedHolds(pool);
    var i :| 0 <= i < cap && Ranked(pool)[i] == x;
    var j :| 0 <= j < |pool| && Ranked(pool)[j] == y;
    if j >= cap {
      assert false;
    }
    assert Ranked(pool)[..cap][j] == y;
  }

  lemma {:induction false} TruncateByKey(pool: seq<Weighted>, cap: nat)
    requires ByKey(pool)
    ensures ByKey(Truncate(pool, cap)) && forall x :: x in Truncate(pool, cap) ==> x in pool
  {
    if |pool| > cap {
      KeepByKey(pool, Owners(Ranked(pool)[..cap]));
    }
  }

  // ---- amounts follow the ranking ---------------------------------------------------------

  lemma {:induction false} DivMonotone(a: nat, b: nat, d: nat)
    requires d > 0 && a <= b
    ensures a / d <= b / d
    ensures a / d == b / d ==> a % d <= b % d
  {
    DivMod(a, d);
    DivMod(b, d);
    MulMonotone(d, b / d, a / d);
  }

  lemma {:induction false} DivAntitone(a: nat, d: nat, e: nat)
    requires 0 < d <= e
    ensures a / e <= a / d
  {
    DivMod(a, d);
    DivMod(a, e);
    var q, p := a / e, a / d;
    if q > p {
      MulMonotone(d, p, q);
      MulMonotone(q, d, e);
      assert false;
    }
  }

  lemma {:induction false} WeightsPart(pool: seq<Weighted>, i: nat)
    requires i < |pool|
    ensures pool[i].weight <= TotalWeight(pool)
    decreases |pool|
  {
    if i < |pool| - 1 {
      WeightsPart(pool[..|pool| - 1], i);
    }
  }

  /** Whoever outranks a holder is given at least as much. */
  lemma {:induction false} RankMonotone(total: nat, pool: seq<Weighted>, i: nat, j: nat)
    requires ByKey(pool) && i < |pool| && j < |pool| && Outranks(pool[i], pool[j])
    ensures LargestRemainder(total, pool)[i] >= LargestRemainder(total, pool)[j]
  {
    var weight := TotalWeight(pool);
    if weight > 0 {
      MulMonotone(total, pool[j].weight, pool[i].weight);
      DivMonotone(total * pool[j].weight, total * pool[i].weight, weight);
      RankedUnits(total, pool, i, j);
    }
  }

  lemma {:induction false} RankedUnits(total: nat, pool: seq<Weighted>, i: nat, j: nat)
    requires ByKey(pool) && i < |pool| && j < |pool| && Outranks(pool[i], pool[j]) && TotalWeight(pool) > 0
    requires var w := TotalWeight(pool); var (x, y) := (total * pool[i].weight, total * pool[j].weight);
      x / w >= y / w && (x / w == y / w ==> x % w >= y % w)
    ensures LargestRemainder(total, pool)[i] >= LargestRemainder(total, pool)[j]
  {
    hide LargestRemainder;
    var weight := TotalWeight(pool);
    ApportionmentIff(total, pool, LargestRemainder(total, pool));
    var quotas, remainders := Quotas(total, pool, weight), Remainders(total, pool, weight);
    if quotas[i] == quotas[j] && !Before(remainders, i, j) {
      SameProduct(total, pool[i].weight, pool[j].weight, weight);
    }
  }

  lemma {:induction false} SameProduct(total: nat, a: nat, b: nat, d: nat)
    requires d > 0 && total * a / d == total * b / d && total * a % d == total * b % d && a > b
    ensures total * a % d == 0
  {
    DivMod(total * a, d);
    DivMod(total * b, d);
    MulMonotone(total, b, a);
  }

  // ---- one pass ----------------------------------------------------------------------------

  lemma {:induction false} AtLeastHolds(pool: seq<Weighted>, amounts: seq<nat>, min: int, x: Weighted)
    requires |amounts| == |pool|
    ensures x in AtLeast(pool, amounts, min) <==> exists i :: 0 <= i < |pool| && pool[i] == x && amounts[i] >= min
    decreases |pool|
  {
    if pool != [] {
      AtLeastHolds(pool[..|pool| - 1], amounts[..|pool| - 1], min, x);
    }
  }

  lemma {:induction false} TotalAppend(pool: seq<Weighted>, x: Weighted)
    ensures TotalWeight(pool + [x]) == TotalWeight(pool) + x.weight
  {
    assert (pool + [x])[..|pool|] == pool;
  }

  lemma {:induction false} AtLeastShape(pool: seq<Weighted>, amounts: seq<nat>, min: int)
    requires |amounts| == |pool|
    ensures |AtLeast(pool, amounts, min)| <= |pool|
    ensures TotalWeight(AtLeast(pool, amounts, min)) <= TotalWeight(pool)
    ensures |AtLeast(pool, amounts, min)| == |pool| ==> AllAtLeast(amounts, min)
    decreases |pool|
  {
    if pool != [] {
      var n := |pool| - 1;
      AtLeastShape(pool[..n], amounts[..n], min);
      var front := AtLeast(pool[..n], amounts[..n], min);
      TotalAppend(front, pool[n]);
      assert front + [] == front;
      if |AtLeast(pool, amounts, min)| == |pool| {
        assert forall i :: 0 <= i < n ==> amounts[..n][i] == amounts[i];
      }
    }
  }

  lemma {:induction false} AtLeastByKey(pool: seq<Weighted>, amounts: seq<nat>, min: int)
    requires |amounts| == |pool| && ByKey(pool)
    ensures ByKey(AtLeast(pool, amounts, min)) && forall x :: x in AtLeast(pool, amounts, min) ==> x in pool
    decreases |pool|
  {
    if pool != [] {
      hide ByKey;
      var n := |pool| - 1;
      ByKeyPrefix(pool, n);
      AtLeastByKey(pool[..n], amounts[..n], min);
      ByKeyAppend(pool, n, AtLeast(pool[..n], amounts[..n], min));
    }
  }

  function DropPass(total: nat, min: int, pool: seq<Weighted>): seq<Weighted> {
    AtLeast(pool, LargestRemainder(total, pool), min)
  }

  /** A pass keeps a top part of the ranking. */
  lemma {:induction false} DropPassKeepsTop(total: nat, min: int, pool: seq<Weighted>)
    requires ByKey(pool)
    ensures ByKey(DropPass(total, min, pool)) && TopOf(DropPass(total, min, pool), pool)
  {
    hide LargestRemainder;
    var amounts, next := LargestRemainder(total, pool), DropPass(total, min, pool);
    AtLeastByKey(pool, amounts, min);
    forall x, y | x in next && y in pool && Outranks(y, x)
      ensures y in next
    {
      AtLeastHolds(pool, amounts, min, x);
      AtLeastHolds(pool, amounts, min, y);
      var i :| 0 <= i < |pool| && pool[i] == x && amounts[i] >= min;
      var j :| 0 <= j < |pool| && pool[j] == y;
      RankMonotone(total, pool, j, i);
    }
  }

  /** Redistribution costs a survivor at most the one unit it was topped up by. */
  lemma {:induction false} SurvivorLosesAtMostOne(total: nat, min: int, pool: seq<Weighted>, i: nat, j: nat)
    requires AllWeighted(pool) && i < |pool| && j < |DropPass(total, min, pool)|
    requires DropPass(total, min, pool)[j] == pool[i]
    ensures LargestRemainder(total, DropPass(total, min, pool))[j] + 1 >= LargestRemainder(total, pool)[i]
  {
    hide LargestRemainder, DropPass;
    var next := DropPass(total, min, pool);
    DropPassLighter(total, min, pool);
    WeightsPart(next, j);
    ApportionmentIff(total, pool, LargestRemainder(total, pool));
    ApportionmentIff(total, next, LargestRemainder(total, next));
    DivAntitone(total * pool[i].weight, TotalWeight(next), TotalWeight(pool));
  }

  lemma {:induction false} DropPassLighter(total: nat, min: int, pool: seq<Weighted>)
    ensures TotalWeight(DropPass(total, min, pool)) <= TotalWeight(pool)
  {
    AtLeastShape(pool, LargestRemainder(total, pool), min);
  }

  // ---- all passes ----------------------------------------------------------------------------

  lemma {:induction false} SettleKeepsTop(total: nat, min: int, pool: seq<Weighted>, passes: nat)
    requires ByKey(pool)
    ensures ByKey(Settle(total, min, pool, passes)) && TopOf(Settle(total, min, pool, passes), pool)
    decreases passes
  {
    hide LargestRemainder, TopOf, ByKey;
    if Settle(total, min, pool, passes) == pool {
      TopOfSelf(pool);
    } else {
      DropPassKeepsTop(total, min, pool);
      SettleKeepsTop(total, min, DropPass(total, min, pool), passes - 1);
      TopOfTop(Settle(total, min, pool, passes), DropPass(total, min, pool), pool);
    }
  }

  lemma {:induction false} TopOfSelf(pool: seq<Weighted>)
    ensures TopOf(pool, pool)
  {
  }

  /** Someone is left below the minimum only if every pass dropped someone; so with as many passes as
      holders, nobody is. */
  lemma {:induction false} BelowMinimumOnlyOutOfPasses(total: nat, min: int, pool: seq<Weighted>, passes: nat)
    ensures |Settle(total, min, pool, passes)| <= |pool|
    ensures AllAtLeast(LargestRemainder(total, Settle(total, min, pool, passes)), min)
         || |Settle(total, min, pool, passes)| + passes <= |pool|
    decreases passes
  {
    hide LargestRemainder;
    if passes > 0 && pool != [] && !AllAtLeast(LargestRemainder(total, pool), min) {
      AtLeastShape(pool, LargestRemainder(total, pool), min);
      BelowMinimumOnlyOutOfPasses(total, min, DropPass(total, min, pool), passes - 1);
    }
  }

  /** The pool after `k` passes, whether or not anyone is left below the minimum. */
  function PoolAfter(total: nat, min: int, pool: seq<Weighted>, k: nat): seq<Weighted>
    decreases k
  {
    if k == 0 then pool else PoolAfter(total, min, DropPass(total, min, pool), k - 1)
  }

  /** Pass number `k` finds someone below the minimum and drops them. */
  ghost predicate PassDrops(total: nat, min: int, pool: seq<Weighted>, k: nat) {
    |PoolAfter(total, min, pool, k + 1)| < |PoolAfter(total, min, pool, k)|
  }

  /** The pool is what `made` passes leave: each of them dropped someone, and if fewer than allowed were made nobody
      was left to drop. */
  lemma {:induction false} SettlePasses(total: nat, min: int, pool: seq<Weighted>, passes: nat) returns (made: nat)
    ensures made <= passes && Settle(total, min, pool, passes) == PoolAfter(total, min, pool, made)
    ensures forall k: nat :: k < made ==> PassDrops(total, min, pool, k)
    ensures made < passes ==> AllAtLeast(LargestRemainder(total, Settle(total, min, pool, passes)), min)
    decreases passes
  {
    hide LargestRemainder, AllAtLeast, PoolAfter, PassDrops;
    FirstPass(total, min, pool);
    if passes == 0 || AllAtLeast(LargestRemainder(total, pool), min) {
      made := 0;
    } else {
      var next := DropPass(total, min, pool);
      var rest := SettlePasses(total, min, next, passes - 1);
      made := rest + 1;
      LaterPass(total, min, pool, rest);
      forall k: nat | k < made
        ensures PassDrops(total, min, pool, k)
      {
        if k > 0 {
          LaterPass(total, min, pool, k - 1);
        }
      }
    }
  }

  lemma {:induction false} LaterPass(total: nat, min: int, pool: seq<Weighted>, k: nat)
    ensures PoolAfter(total, min, DropPass(total, min, pool), k) == PoolAfter(total, min, pool, k + 1)
    ensures PassDrops(total, min, DropPass(total, min, pool), k) ==> PassDrops(total, min, pool, k + 1)
  {
    hide DropPass;
  }

  lemma {:induction false} FirstPass(total: nat, min: int, pool: seq<Weighted>)
    ensures PoolAfter(total, min, pool, 0) == pool
    ensures AllAtLeast(LargestRemainder(total, pool), min) || (pool != [] && PassDrops(total, min, pool, 0))
  {
    hide LargestRemainder;
    assert PoolAfter(total, min, DropPass(total, min, pool), 0) == DropPass(total, min, pool);
    AtLeastShape(pool, LargestRemainder(total, pool), min);
  }

  // ---- the leaves -----------------------------------------------------------------------------

  ghost predicate Dense(leaves: seq<Leaf>) {
    forall i :: 0 <= i < |leaves| ==> leaves[i].leafIdx == i && leaves[i].amount > 0
  }

  ghost predicate PaysOnce(leaves: seq<Leaf>) {
    forall i, j :: 0 <= i < j < |leaves| ==> leaves[i].recipient < leaves[j].recipient
  }

  lemma {:induction false} LeavesHold(pool: seq<Weighted>, amounts: seq<nat>, owner: nat, amount: nat)
    requires |amounts| == |pool|
    ensures (exists k :: 0 <= k < |Leaves(pool, amounts)| && Leaves(pool, amounts)[k] == Leaf(k, owner, amount))
       <==> (exists i :: 0 <= i < |pool| && pool[i].owner == owner && amounts[i] == amount && amount > 0)
    decreases |pool|
  {
    if pool != [] {
      var n := |pool| - 1;
      LeavesHold(pool[..n], amounts[..n], owner, amount);
      var front, leaves := Leaves(pool[..n], amounts[..n]), Leaves(pool, amounts);
      if k :| 0 <= k < |leaves| && leaves[k] == Leaf(k, owner, amount) {
        assert k < |front| ==> front[k] == Leaf(k, owner, amount);
      }
      if i :| 0 <= i < |pool| && pool[i].owner == owner && amounts[i] == amount && amount > 0 {
        if i == n {
          assert leaves[|front|] == Leaf(|front|, owner, amount);
        } else {
          assert pool[..n][i].owner == owner && amounts[..n][i] == amount;
          var k :| 0 <= k < |front| && front[k] == Leaf(k, owner, amount);
          assert leaves[k] == front[k];
        }
      }
    }
  }

  lemma {:induction false} LeavesSum(pool: seq<Weighted>, amounts: seq<nat>)
    requires |amounts| == |pool|
    ensures |Leaves(pool, amounts)| <= |pool| && Allocated(Leaves(pool, amounts)) == Sum(amounts)
    decreases |pool|
  {
    if pool != [] {
      LeavesSum(pool[..|pool| - 1], amounts[..|pool| - 1]);
      var front := Leaves(pool[..|pool| - 1], amounts[..|pool| - 1]);
      assert forall leaf :: (front + [leaf])[..|front|] == front;
    }
  }

  lemma {:induction false} LeavesDense(pool: seq<Weighted>, amounts: seq<nat>)
    requires |amounts| == |pool|
    ensures Dense(Leaves(pool, amounts))
    ensures forall leaf :: leaf in Leaves(pool, amounts) ==> leaf.recipient in Owners(pool)
    decreases |pool|
  {
    if pool != [] {
      LeavesDense(pool[..|pool| - 1], amounts[..|pool| - 1]);
    }
  }

  lemma {:induction false} LeavesPayOnce(pool: seq<Weighted>, amounts: seq<nat>)
    requires |amounts| == |pool| && ByKey(pool)
    ensures PaysOnce(Leaves(pool, amounts))
    decreases |pool|
  {
    if pool != [] {
      var n := |pool| - 1;
      LeavesPayOnce(pool[..n], amounts[..n]);
      LeavesDense(pool[..n], amounts[..n]);
      var front := Leaves(pool[..n], amounts[..n]);
      forall k | 0 <= k < |front|
        ensures front[k].recipient < pool[n].owner
      {
        assert front[k].recipient in Owners(pool[..n]);
      }
    }
  }

  // ---- what an asset's holders are promised ------------------------------------------------------

  ghost predicate InFull(share: Share, params: Params) {
    share.handedOut == share.allocatable == Allocated(share.leaves) && share.dust == 0 && share.allocatable > 0
    && Dense(share.leaves) && PaysOnce(share.leaves) && 1 <= |share.leaves| <= params.maxLeavesPerAsset
  }

  lemma {:induction false} FullShare(asset: AssetInput, eligible: seq<Weighted>, params: Params)
    requires ValidParams(params) && ByKey(eligible) && AllWeighted(eligible)
    requires AllocateAsset(asset, eligible, params).Paid?
    ensures InFull(AllocateAsset(asset, eligible, params).share, params)
    ensures AllocateAsset(asset, eligible, params).share.mint == asset.mint
  {
    hide Recipients, Leaves, LargestRemainder;
    PaidInFull(asset, eligible, params);
  }

  lemma {:induction false} RecipientsAreTop(asset: AssetInput, eligible: seq<Weighted>, params: Params)
    requires ValidParams(params) && asset.allocatable >= 0 && ByKey(eligible)
    ensures ByKey(Recipients(asset, eligible, params)) && TopOf(Recipients(asset, eligible, params), eligible)
    ensures |Recipients(asset, eligible, params)| <= params.maxLeavesPerAsset
  {
    hide Settle, Truncate, TopOf, ByKey;
    var kept := Truncate(eligible, params.maxLeavesPerAsset);
    TruncateKeepsTop(eligible, params.maxLeavesPerAsset);
    SettleKeepsTop(asset.allocatable, asset.minLeafAmount, kept, params.maxMinLeafPasses);
    BelowMinimumOnlyOutOfPasses(asset.allocatable, asset.minLeafAmount, kept, params.maxMinLeafPasses);
    TopOfTop(Recipients(asset, eligible, params), kept, eligible);
  }

  lemma {:induction false} StillWeighted(pool: seq<Weighted>, all: seq<Weighted>)
    requires TopOf(pool, all) && AllWeighted(all) && pool != []
    ensures TotalWeight(pool) > 0
  {
    assert pool[0] in all;
    WeightsPart(pool, 0);
  }

  /** An asset is paid out in full or not at all, in positive leaves numbered without gaps, one a holder and
      no more than the cap; and it is skipped only when no recipient is left. */
  lemma {:induction false} PaidInFull(asset: AssetInput, eligible: seq<Weighted>, params: Params)
    requires ValidParams(params) && ByKey(eligible) && AllWeighted(eligible)
    requires asset.allocatable > 0 && asset.minLeafAmount >= 0
    ensures var outcome := AllocateAsset(asset, eligible, params);
      if Recipients(asset, eligible, params) == [] then outcome == Skipped(NoRecipients)
      else outcome.Paid? && outcome.share.handedOut == outcome.share.allocatable == asset.allocatable
           && outcome.share.dust == 0
           && outcome.share.mint == asset.mint && outcome.share.tokenProgram == asset.tokenProgram
           && Allocated(outcome.share.leaves) == asset.allocatable
           && Dense(outcome.share.leaves) && PaysOnce(outcome.share.leaves)
           && 1 <= |outcome.share.leaves| <= params.maxLeavesPerAsset
  {
    hide LargestRemainder, Recipients, TopOf, ByKey, Dense, PaysOnce;
    var pool := Recipients(asset, eligible, params);
    RecipientsAreTop(asset, eligible, params);
    LeavesSum(pool, LargestRemainder(asset.allocatable, pool));
    LeavesDense(pool, LargestRemainder(asset.allocatable, pool));
    LeavesPayOnce(pool, LargestRemainder(asset.allocatable, pool));
    if pool != [] {
      StillWeighted(pool, eligible);
      HandsOutTotal(asset.allocatable, pool);
    }
  }

  ghost predicate PaysAtLeast(leaves: seq<Leaf>, owner: nat, amount: nat) {
    exists k :: 0 <= k < |leaves| && leaves[k].recipient == owner && leaves[k].amount >= amount
  }

  /** Everyone who outranks a paid holder is paid too, and at least as much. */
  lemma {:induction false} OutrankingIsPaid(asset: AssetInput, eligible: seq<Weighted>, params: Params, k: nat,
                                            x: Weighted, y: Weighted)
    requires ValidParams(params) && ByKey(eligible) && AllocateAsset(asset, eligible, params).Paid?
    requires k < |AllocateAsset(asset, eligible, params).share.leaves|
    requires x in eligible && y in eligible && Outranks(y, x)
    requires AllocateAsset(asset, eligible, params).share.leaves[k].recipient == x.owner
    ensures PaysAtLeast(AllocateAsset(asset, eligible, params).share.leaves, y.owner,
                        AllocateAsset(asset, eligible, params).share.leaves[k].amount)
  {
    hide LargestRemainder, Recipients, Leaves;
    var pool := Recipients(asset, eligible, params);
    var amounts := LargestRemainder(asset.allocatable, pool);
    var leaf := Leaves(pool, amounts)[k];
    RecipientsAreTop(asset, eligible, params);
    LeavesDense(pool, amounts);
    LeavesHold(pool, amounts, leaf.recipient, leaf.amount);
    assert leaf == Leaf(k, leaf.recipient, leaf.amount);
    var i :| 0 <= i < |pool| && pool[i].owner == leaf.recipient && amounts[i] == leaf.amount && leaf.amount > 0;
    assert pool[i] in eligible;
    OwnersDiffer(eligible, pool[i], x);
    var j :| 0 <= j < |pool| && pool[j] == y;
    RankMonotone(asset.allocatable, pool, j, i);
    LeavesHold(pool, amounts, y.owner, amounts[j]);
    var l :| 0 <= l < |Leaves(pool, amounts)| && Leaves(pool, amounts)[l] == Leaf(l, y.owner, amounts[j]);
  }

  /** Only eligible holders are paid. */
  lemma {:induction false} PaidIsEligible(asset: AssetInput, eligible: seq<Weighted>, params: Params, k: nat)
    returns (x: Weighted)
    requires ValidParams(params) && ByKey(eligible) && AllocateAsset(asset, eligible, params).Paid?
    requires k < |AllocateAsset(asset, eligible, params).share.leaves|
    ensures x in eligible && x.owner == AllocateAsset(asset, eligible, params).share.leaves[k].recipient
  {
    hide LargestRemainder, Recipients, Leaves;
    var pool := Recipients(asset, eligible, params);
    var amounts := LargestRemainder(asset.allocatable, pool);
    var leaf := Leaves(pool, amounts)[k];
    RecipientsAreTop(asset, eligible, params);
    LeavesDense(pool, amounts);
    LeavesHold(pool, amounts, leaf.recipient, leaf.amount);
    assert leaf == Leaf(k, leaf.recipient, leaf.amount);
    var i :| 0 <= i < |pool| && pool[i].owner == leaf.recipient && amounts[i] == leaf.amount && leaf.amount > 0;
    x := pool[i];
  }

  /** A leaf below the minimum means that every pass allowed was made and dropped someone; with as many passes as
      holders there is none. */
  lemma {:induction false} MinimumHolds(asset: AssetInput, eligible: seq<Weighted>, params: Params, k: nat)
    requires ValidParams(params) && ByKey(eligible) && AllocateAsset(asset, eligible, params).Paid?
    requires k < |AllocateAsset(asset, eligible, params).share.leaves|
    ensures var share := AllocateAsset(asset, eligible, params).share;
      var kept := Truncate(eligible, params.maxLeavesPerAsset);
      share.leaves[k].amount < asset.minLeafAmount ==>
        && Recipients(asset, eligible, params)
           == PoolAfter(asset.allocatable, asset.minLeafAmount, kept, params.maxMinLeafPasses)
        && (forall pass: nat :: pass < params.maxMinLeafPasses ==>
              PassDrops(asset.allocatable, asset.minLeafAmount, kept, pass))
        && params.maxMinLeafPasses < |eligible|
    ensures var share := AllocateAsset(asset, eligible, params).share;
      share.truncated >= 0 && share.droppedBelowMin >= 0
      && |eligible| == share.truncated + share.droppedBelowMin + |Recipients(asset, eligible, params)|
  {
    hide LargestRemainder, Settle, Leaves, PoolAfter, PassDrops;
    var kept := Truncate(eligible, params.maxLeavesPerAsset);
    var pool := Recipients(asset, eligible, params);
    var amounts := LargestRemainder(asset.allocatable, pool);
    TruncateKeepsTop(eligible, params.maxLeavesPerAsset);
    BelowMinimumOnlyOutOfPasses(asset.allocatable, asset.minLeafAmount, kept, params.maxMinLeafPasses);
    var made := SettlePasses(asset.allocatable, asset.minLeafAmount, kept, params.maxMinLeafPasses);
    RecipientsAreTop(asset, eligible, params);
    LeavesDense(pool, amounts);
    var leaf := Leaves(pool, amounts)[k];
    assert leaf == Leaf(k, leaf.recipient, leaf.amount);
    LeavesHold(pool, amounts, leaf.recipient, leaf.amount);
    var i :| 0 <= i < |pool| && pool[i].owner == leaf.recipient && amounts[i] == leaf.amount && leaf.amount > 0;
  }
}
