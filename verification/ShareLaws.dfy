/** How an asset comes to be shared out, deal by deal, and where each asset of a round ends up. */
module ShareLaws {
  import opened Terms
  import opened Apportionment
  import opened Allocation
  import opened Holders

  /** Some holders and what an asset comes to for each. */
  datatype Deal = Deal(pool: seq<Weighted>, amounts: seq<nat>)

  ghost predicate DealHolds(total: nat, d: Deal) {
    |d.amounts| == |d.pool| && ByKey(d.pool) && AllWeighted(d.pool)
    && (d.pool != [] ==> TotalWeight(d.pool) > 0 && IsApportionment(total, d.pool, d.amounts))
  }

  ghost predicate Reaches(d: Deal, min: int, x: Weighted) {
    exists i :: 0 <= i < |d.pool| && i < |d.amounts| && d.pool[i] == x && d.amounts[i] >= min
  }

  /** The next deal is among exactly those who reached the minimum, and somebody did not. */
  ghost predicate Narrows(min: int, a: Deal, b: Deal) {
    |b.pool| < |a.pool| && forall x :: x in b.pool <==> Reaches(a, min, x)
  }

  /** From the highest ranked holders the cap has room for, deal after deal, as long as someone falls below the minimum
      and passes are left. */
  ghost predicate DealsHold(total: nat, min: int, params: Params, eligible: seq<Weighted>, deals: seq<Deal>) {
    deals != [] && TopOf(deals[0].pool, eligible)
    && |deals[0].pool| == (if |eligible| > params.maxLeavesPerAsset then params.maxLeavesPerAsset else |eligible|)
    && Dealt(total, min, params.maxMinLeafPasses, deals)
  }

  ghost predicate Dealt(total: nat, min: int, passes: int, deals: seq<Deal>) {
    deals != [] && |deals| - 1 <= passes && (forall k :: 0 <= k < |deals| ==> DealHolds(total, deals[k]))
    && (forall k :: 0 <= k < |deals| - 1 ==> Narrows(min, deals[k], deals[k + 1]))
    && (|deals| - 1 < passes ==> AllAtLeast(deals[|deals| - 1].amounts, min))
  }

  /** The leaves are exactly the last deal's positive amounts. */
  ghost predicate LeavesAre(d: Deal, leaves: seq<Leaf>) {
    Dense(leaves) && PaysOnce(leaves) && |d.amounts| == |d.pool|
    && forall owner, amount :: HasLeaf(leaves, owner, amount) <==> amount > 0 && HasShare(d, owner, amount)
  }

  ghost predicate HasLeaf(leaves: seq<Leaf>, owner: nat, amount: nat) {
    exists k :: 0 <= k < |leaves| && leaves[k] == Leaf(k, owner, amount)
  }

  ghost predicate HasShare(d: Deal, owner: nat, amount: nat) {
    exists i :: 0 <= i < |d.pool| && i < |d.amounts| && d.pool[i].owner == owner && d.amounts[i] == amount
  }

  ghost predicate ShareHolds(asset: AssetInput, eligible: seq<Weighted>, deals: seq<Deal>, share: Share)
    requires deals != []
  {
    var kept, last := deals[0].pool, deals[|deals| - 1];
    share.mint == asset.mint && share.tokenProgram == asset.tokenProgram && share.allocatable == asset.allocatable
    && share.handedOut == asset.allocatable && share.dust == 0 && LeavesAre(last, share.leaves)
    && share.truncated == |eligible| - |kept| && share.droppedBelowMin == |kept| - |last.pool|
  }

  /** An asset with nothing in it is skipped, and so is one whose last deal is among nobody; any other is paid out by
      its last deal. */
  ghost predicate OutcomeHolds(asset: AssetInput, eligible: seq<Weighted>, deals: seq<Deal>, outcome: AssetOutcome)
    requires deals != []
  {
    match outcome
    case Paid(share) =>
      asset.allocatable > 0 && deals[|deals| - 1].pool != [] && ShareHolds(asset, eligible, deals, share)
    case Skipped(NothingToAllocate) => asset.allocatable == 0
    case Skipped(NoRecipients) => asset.allocatable > 0 && deals[|deals| - 1].pool == []
    case NegativeAmounts => false
  }

  // ---- one asset -------------------------------------------------------------------------------

  lemma {:induction false} PoolDeals(total: nat, pool: seq<Weighted>)
    requires ByKey(pool) && AllWeighted(pool)
    ensures DealHolds(total, Deal(pool, LargestRemainder(total, pool)))
  {
    hide LargestRemainder, IsApportionment;
    if pool != [] {
      TopOfSelf(pool);
      StillWeighted(pool, pool);
      ApportionmentIff(total, pool, LargestRemainder(total, pool));
    }
  }

  lemma {:induction false} PassNarrows(total: nat, min: int, pool: seq<Weighted>)
    requires ByKey(pool) && AllWeighted(pool) && !AllAtLeast(LargestRemainder(total, pool), min)
    ensures var next := DropPass(total, min, pool);
      ByKey(next) && AllWeighted(next)
      && Narrows(min, Deal(pool, LargestRemainder(total, pool)), Deal(next, LargestRemainder(total, next)))
  {
    hide LargestRemainder, AllAtLeast;
    var amounts, next := LargestRemainder(total, pool), DropPass(total, min, pool);
    AtLeastByKey(pool, amounts, min);
    AtLeastShape(pool, amounts, min);
    forall x
      ensures x in next <==> Reaches(Deal(pool, amounts), min, x)
    {
      AtLeastHolds(pool, amounts, min, x);
    }
    forall i | 0 <= i < |next|
      ensures next[i].weight > 0
    {
      assert next[i] in pool;
    }
  }

  lemma {:induction false} SettleDeals(total: nat, min: int, pool: seq<Weighted>, passes: nat)
    returns (deals: seq<Deal>)
    requires ByKey(pool) && AllWeighted(pool)
    ensures Dealt(total, min, passes, deals) && deals[0].pool == pool
    ensures var last := Settle(total, min, pool, passes);
      deals[|deals| - 1] == Deal(last, LargestRemainder(total, last))
    decreases passes
  {
    hide LargestRemainder, DealHolds, Narrows, ByKey, AllWeighted;
    var amounts := LargestRemainder(total, pool);
    PoolDeals(total, pool);
    if passes == 0 || pool == [] || AllAtLeast(amounts, min) {
      deals := [Deal(pool, amounts)];
    } else {
      PassNarrows(total, min, pool);
      var next := DropPass(total, min, pool);
      var rest := SettleDeals(total, min, next, passes - 1);
      HeadDeal(total, next, rest, min, passes - 1);
      deals := [Deal(pool, amounts)] + rest;
      DealtOn(total, min, passes, Deal(pool, amounts), rest);
    }
  }

  lemma {:induction false} HeadDeal(total: nat, pool: seq<Weighted>, deals: seq<Deal>, min: int, passes: int)
    requires Dealt(total, min, passes, deals) && deals[0].pool == pool
    ensures deals[0].amounts == LargestRemainder(total, pool)
  {
    hide LargestRemainder, IsApportionment;
    assert DealHolds(total, deals[0]);
    if pool != [] {
      ApportionmentIff(total, pool, deals[0].amounts);
    }
  }

  lemma {:induction false} DealtOn(total: nat, min: int, passes: int, d: Deal, rest: seq<Deal>)
    requires DealHolds(total, d) && Dealt(total, min, passes - 1, rest) && Narrows(min, d, rest[0])
    ensures Dealt(total, min, passes, [d] + rest)
  {
    hide DealHolds, Narrows, AllAtLeast;
    var all := [d] + rest;
    forall k | 0 <= k < |all| - 1
      ensures Narrows(min, all[k], all[k + 1])
    {
      if k > 0 {
        assert Narrows(min, rest[k - 1], rest[k - 1 + 1]);
      }
    }
  }

  /** Every asset is dealt out so. */
  lemma {:induction false} EveryShareHolds(asset: AssetInput, eligible: seq<Weighted>, params: Params)
    returns (deals: seq<Deal>)
    requires ValidParams(params) && ByKey(eligible) && AllWeighted(eligible)
    requires asset.allocatable >= 0 && asset.minLeafAmount >= 0
    ensures DealsHold(asset.allocatable, asset.minLeafAmount, params, eligible, deals)
    ensures OutcomeHolds(asset, eligible, deals, AllocateAsset(asset, eligible, params))
  {
    hide LargestRemainder, Truncate, TopOf, Settle, Dealt, Leaves, ByKey, AllWeighted, LeavesAre;
    var kept := Truncate(eligible, params.maxLeavesPerAsset);
    TruncateKeepsTop(eligible, params.maxLeavesPerAsset);
    PartWeighted(kept, eligible);
    deals := SettleDeals(asset.allocatable, asset.minLeafAmount, kept, params.maxMinLeafPasses);
    DealtSome(asset.allocatable, asset.minLeafAmount, params.maxMinLeafPasses, deals);
    if asset.allocatable > 0 {
      var pool := Recipients(asset, eligible, params);
      PaidInFull(asset, eligible, params);
      RecipientsAreTop(asset, eligible, params);
      ItsLeaves(pool, LargestRemainder(asset.allocatable, pool));
    }
  }

  lemma {:induction false} DealtSome(total: nat, min: int, passes: int, deals: seq<Deal>)
    requires Dealt(total, min, passes, deals)
    ensures deals != []
  {
  }

  lemma {:induction false} PartWeighted(part: seq<Weighted>, all: seq<Weighted>)
    requires AllWeighted(all) && TopOf(part, all)
    ensures AllWeighted(part)
  {
    forall i | 0 <= i < |part|
      ensures part[i].weight > 0
    {
      assert part[i] in all;
    }
  }

  lemma {:induction false} ItsLeaves(pool: seq<Weighted>, amounts: seq<nat>)
    requires |amounts| == |pool| && ByKey(pool)
    ensures LeavesAre(Deal(pool, amounts), Leaves(pool, amounts))
  {
    hide Leaves, ByKey, Dense, PaysOnce;
    LeavesDense(pool, amounts);
    LeavesPayOnce(pool, amounts);
    forall owner: nat, amount: nat
      ensures HasLeaf(Leaves(pool, amounts), owner, amount)
         <==> amount > 0 && HasShare(Deal(pool, amounts), owner, amount)
    {
      LeavesHold(pool, amounts, owner, amount);
    }
  }

  /** An asset that nobody gets, though somebody is eligible, had less than the minimum for each of those it was last
      dealt to. */
  lemma {:induction false} SkippedIsScarce(total: nat, min: int, params: Params, eligible: seq<Weighted>,
                                           deals: seq<Deal>)
    requires DealsHold(total, min, params, eligible, deals) && eligible != [] && ValidParams(params)
    requires deals[|deals| - 1].pool == []
    ensures |deals| >= 2 && total < min * |deals[|deals| - 2].pool|
  {
    hide IsApportionment, TopOf;
    var k := |deals| - 2;
    assert k >= 0;
    assert Narrows(min, deals[k], deals[k + 1]) && DealHolds(total, deals[k]);
    var d := deals[k];
    forall i | 0 <= i < |d.pool|
      ensures d.amounts[i] < min
    {
      assert d.amounts[i] >= min ==> Reaches(d, min, d.pool[i]);
    }
    ApportionmentIff(total, d.pool, d.amounts);
    HandsOutTotal(total, d.pool);
    SumBelow(d.amounts, min);
  }

  lemma {:induction false} SumBelow(amounts: seq<nat>, min: int)
    requires forall i :: 0 <= i < |amounts| ==> amounts[i] < min
    ensures Sum(amounts) <= min * |amounts| && (amounts != [] ==> Sum(amounts) < min * |amounts|)
    decreases |amounts|
  {
    if amounts != [] {
      SumBelow(amounts[..|amounts| - 1], min);
    }
  }

  // ---- a round's assets --------------------------------------------------------------------------

  ghost predicate ListedAs(round: RoundAllocation, asset: AssetInput, outcome: AssetOutcome) {
    match outcome
    case Paid(share) => exists k :: 0 <= k < |round.assets| && round.assets[k].share == share
    case Skipped(reason) => SkippedAsset(asset.mint, reason) in round.skipped
    case NegativeAmounts => false
  }

  lemma {:induction false} EveryAssetListed(assets: seq<AssetInput>, eligible: seq<Weighted>, params: Params,
                                            table: HolderTable, m: nat)
    requires ValidParams(params) && ShareAssets(assets, eligible, params, table).Ok? && m < |assets|
    ensures ListedAs(ShareAssets(assets, eligible, params, table).value, assets[m],
                     AllocateAsset(assets[m], eligible, params))
    decreases |assets|
  {
    hide ValidParams, AllocateAsset;
    var n := |assets| - 1;
    var front, round := ShareAssets(assets[..n], eligible, params, table), ShareAssets(assets, eligible, params, table);
    if m < n {
      EveryAssetListed(assets[..n], eligible, params, table, m);
      StaysListed(front.value, round.value, assets[m], AllocateAsset(assets[m], eligible, params));
    } else if AllocateAsset(assets[m], eligible, params).Paid? {
      var k := |round.value.assets| - 1;
      assert round.value.assets[k].share == AllocateAsset(assets[m], eligible, params).share;
    }
  }

  lemma {:induction false} StaysListed(a: RoundAllocation, b: RoundAllocation, asset: AssetInput, outcome: AssetOutcome)
    requires ListedAs(a, asset, outcome) && a.assets <= b.assets && a.skipped <= b.skipped
    ensures ListedAs(b, asset, outcome)
  {
    if outcome.Paid? {
      var k :| 0 <= k < |a.assets| && a.assets[k].share == outcome.share;
      assert b.assets[k] == a.assets[k];
    } else {
      var k :| 0 <= k < |a.skipped| && a.skipped[k] == SkippedAsset(asset.mint, outcome.reason);
      assert b.skipped[k] == a.skipped[k];
    }
  }

  ghost predicate IsOf(round: RoundAllocation, i: int, mint: Key) {
    0 <= i < |round.assets| && round.assets[i].share.mint == mint
  }

  /** Listed assets keep the order they came in. */
  ghost predicate KeepsOrder(round: RoundAllocation, assets: seq<AssetInput>) {
    forall i, j, m, n ::
      0 <= m < n < |assets| && IsOf(round, i, assets[m].mint) && IsOf(round, j, assets[n].mint) ==> i < j
  }

  lemma {:induction false} SharesKeepOrder(assets: seq<AssetInput>, eligible: seq<Weighted>, params: Params,
                                           table: HolderTable)
    requires ValidParams(params) && ByKey(eligible) && AllWeighted(eligible) && |Mints(assets)| == |assets|
    requires ShareAssets(assets, eligible, params, table).Ok?
    ensures KeepsOrder(ShareAssets(assets, eligible, params, table).value, assets)
    decreases |assets|
  {
    if assets != [] {
      var n := |assets| - 1;
      var front := ShareAssets(assets[..n], eligible, params, table).value;
      LastMintDiffers(assets);
      SharesKeepOrder(assets[..n], eligible, params, table);
      SharesPayOut(assets[..n], eligible, params, table);
      if AllocateAsset(assets[n], eligible, params).Paid? {
        FullShare(assets[n], eligible, params);
      }
      hide ValidParams, ByKey, AllWeighted, AllocateAsset, PaysOut, KeepsOrder, Mints;
      LastKeepsOrder(front, ShareAssets(assets, eligible, params, table).value, assets);
    }
  }

  lemma {:induction false} LastKeepsOrder(front: RoundAllocation, round: RoundAllocation, assets: seq<AssetInput>)
    requires assets != [] && KeepsOrder(front, assets[..|assets| - 1])
    requires assets[|assets| - 1].mint !in Mints(assets[..|assets| - 1])
    requires forall i :: 0 <= i < |front.assets| ==> front.assets[i].share.mint in Mints(assets[..|assets| - 1])
    requires round.assets == front.assets
          || (|round.assets| == |front.assets| + 1 && front.assets <= round.assets
              && round.assets[|front.assets|].share.mint == assets[|assets| - 1].mint)
    ensures KeepsOrder(round, assets)
  {
    var last := |assets| - 1;
    assert forall m :: 0 <= m < last ==> assets[..last][m] == assets[m] && assets[m] in assets[..last];
    forall i, m | 0 <= m < last && IsOf(round, i, assets[m].mint)
      ensures IsOf(front, i, assets[m].mint)
    {
    }
    forall i, j, m, n | 0 <= m < n < |assets| && IsOf(round, i, assets[m].mint) && IsOf(round, j, assets[n].mint)
      ensures i < j
    {
      assert IsOf(front, i, assets[m].mint);
      assert n < last ==> IsOf(front, j, assets[..last][n].mint);
      assert n == last ==> !IsOf(front, j, assets[last].mint);
    }
  }

  /** Where an asset of the round went: dealt out among the eligible, and listed or skipped accordingly. */
  ghost predicate AssetHolds(round: RoundAllocation, asset: AssetInput, eligible: seq<Weighted>, params: Params) {
    asset.allocatable >= 0
    && exists deals, outcome ::
         DealsHold(asset.allocatable, asset.minLeafAmount, params, eligible, deals)
         && OutcomeHolds(asset, eligible, deals, outcome) && ListedAs(round, asset, outcome)
  }

  ghost predicate RoundHolds(input: Input, round: RoundAllocation, eligible: seq<Weighted>) {
    |round.assets| + |round.skipped| == |input.assets| && KeepsOrder(round, input.assets)
    && ByKey(eligible) && (forall x :: x in eligible <==> IsEligible(round.table, x))
    && forall m :: 0 <= m < |input.assets| ==> AssetHolds(round, input.assets[m], eligible, input.params)
  }

  ghost predicate IsEligible(table: HolderTable, x: Weighted) {
    exists i :: 0 <= i < |table.holders| && table.holders[i].eligible
                && x.owner == table.holders[i].owner && x.weight == table.holders[i].twab
  }

  lemma {:induction false} AssetsAreSound(assets: seq<AssetInput>, eligible: seq<Weighted>, params: Params,
                                          table: HolderTable, m: nat)
    requires ValidParams(params) && ShareAssets(assets, eligible, params, table).Ok? && m < |assets|
    ensures assets[m].allocatable >= 0 && assets[m].minLeafAmount >= 0
    decreases |assets|
  {
    hide ValidParams, Recipients;
    if m < |assets| - 1 {
      AssetsAreSound(assets[..|assets| - 1], eligible, params, table, m);
    }
  }

  /** In every round allocated, each asset is dealt out over the eligible holders of the table, weighted by their
      averages, and is listed or skipped as its deals say, in the order the assets came. */
  lemma {:induction false} EveryRoundHolds(input: Input)
    requires Allocate(input).Ok?
    ensures RoundHolds(input, Allocate(input).value, EligibleOf(input))
  {
    hide HoldersOf, ShareAssets, Eligible, ByKey, AllWeighted, Mints, KeepsOrder, AssetHolds, IsEligible;
    HoldersSound(input);
    var table, eligible, round := HoldersOf(input).value, EligibleOf(input), Allocate(input).value;
    AllocationPaysOut(input);
    SharesKeepOrder(input.assets, eligible, input.params, table);
    TableStays(input.assets, eligible, input.params, table);
    forall x
      ensures x in eligible <==> IsEligible(table, x)
    {
      EligibleAre(input, x);
    }
    forall m | 0 <= m < |input.assets|
      ensures AssetHolds(round, input.assets[m], eligible, input.params)
    {
      OneAssetHolds(input.assets, eligible, input.params, table, m);
    }
  }

  lemma {:induction false} EligibleAre(input: Input, x: Weighted)
    requires Allocate(input).Ok?
    ensures x in EligibleOf(input) <==> IsEligible(HoldersOf(input).value, x)
  {
    hide HoldersOf, Eligible;
    HoldersSound(input);
    EligibleHolds(HoldersOf(input).value.holders, x);
  }

  lemma {:induction false} OneAssetHolds(assets: seq<AssetInput>, eligible: seq<Weighted>, params: Params,
                                         table: HolderTable, m: nat)
    requires ValidParams(params) && ByKey(eligible) && AllWeighted(eligible) && m < |assets|
    requires ShareAssets(assets, eligible, params, table).Ok?
    ensures AssetHolds(ShareAssets(assets, eligible, params, table).value, assets[m], eligible, params)
  {
    hide ShareAssets, AllocateAsset, ByKey, AllWeighted, DealsHold, OutcomeHolds, ListedAs;
    AssetsAreSound(assets, eligible, params, table, m);
    var deals := EveryShareHolds(assets[m], eligible, params);
    EveryAssetListed(assets, eligible, params, table, m);
  }
}
