/** Why the paying phase ends: each step that pushes and does not pause uses up some leaf's attempts or settles it. */
module PushProgress {
  import opened Terms
  import opened PushPhase
  import Merkle
  import MerkleTheorems

  ghost predicate BlockOk(s: Standing, b: BlockPlan) {
    b.candidates != [] && NoRepeats(b.candidates)
    && forall leaf :: leaf in b.candidates ==>
         b.first <= leaf < b.first + PUSH_BLOCK_SIZE && OpenLeaf(s, LeafId(b.asset, leaf))
  }

  /** One block's part in a step: every candidate is sent, recorded or left for self-claim, unless the block pauses. */
  lemma {:induction false} PlanAdvances(s: Standing, env: Env, b: BlockPlan)
    requires Sane(s, env.maxAttempts) && BlockOk(s, b)
    ensures var r := PushPlan(s, env, b);
      Advances(s, r.at, b.asset, b.candidates, if r.paused then [] else b.candidates, env.maxAttempts)
  {
    hide Advances, PushBlock, Choose, Sane, NoRepeats;
    var chosen := Choose(s, env, b.asset, b.candidates);
    ChooseAdvances(s, env, b.asset, b.candidates);
    StaysSane(s, chosen.at, b.asset, b.candidates, [], env.maxAttempts);
    var r := PushPlan(s, env, b);
    var done := if r.paused then [] else chosen.plan;
    if chosen.plan == [] {
      NothingAdvances(chosen.at, b.asset, b.candidates, env.maxAttempts);
    } else {
      PlannedBlock(chosen.at, env, b, chosen.plan);
    }
    AdvancesOn(s, chosen.at, r.at, b.asset, b.candidates, [], done, done, env.maxAttempts);
    if !r.paused {
      AdvancesWeigh(s, r.at, b.asset, b.candidates, done, env.maxAttempts);
      AdvancesWeigh(chosen.at, r.at, b.asset, b.candidates, done, env.maxAttempts);
      AllDone(s, chosen.at, r.at, b, chosen.plan, env.maxAttempts);
    }
  }

  lemma {:induction false} AdvancesWeigh(s: Standing, t: Standing, asset: nat, plan: seq<nat>, done: seq<nat>,
                                         maxAttempts: nat)
    requires Advances(s, t, asset, plan, done, maxAttempts)
    ensures Sane(t, maxAttempts) && forall id :: Weight(t, id, maxAttempts) <= Weight(s, id, maxAttempts)
  {
  }

  lemma {:induction false} PlannedBlock(t: Standing, env: Env, b: BlockPlan, plan: seq<nat>)
    requires Sane(t, env.maxAttempts) && NoRepeats(plan)
    requires forall leaf :: leaf in plan ==>
      leaf in b.candidates && b.first <= leaf < b.first + PUSH_BLOCK_SIZE && !Permanent(t, LeafId(b.asset, leaf))
    ensures var r := PushBlock(t, env, b.asset, b.first, PUSH_BLOCK_LEVEL, plan);
      Advances(t, r.at, b.asset, b.candidates, if r.paused then [] else plan, env.maxAttempts)
  {
    hide Advances, PushBlock, Sane, NoRepeats, InBlock;
    assert Merkle.Pow2(1) == 2 && Merkle.Pow2(PUSH_BLOCK_LEVEL) == PUSH_BLOCK_SIZE;
    var leaves := InBlock(plan, b.first, b.first + Merkle.Pow2(PUSH_BLOCK_LEVEL));
    InBlockHolds(plan, b.first, b.first + Merkle.Pow2(PUSH_BLOCK_LEVEL));
    BlockAdvances(t, env, b.asset, b.first, PUSH_BLOCK_LEVEL, plan);
    var r := PushBlock(t, env, b.asset, b.first, PUSH_BLOCK_LEVEL, plan);
    AdvancesWider(t, r.at, b.asset, leaves, b.candidates, if r.paused then [] else leaves, env.maxAttempts);
    SameDone(t, r.at, b.asset, b.candidates, if r.paused then [] else leaves, if r.paused then [] else plan,
             env.maxAttempts);
  }

  lemma {:induction false} SameDone(s: Standing, t: Standing, asset: nat, plan: seq<nat>, done: seq<nat>,
                                    also: seq<nat>, maxAttempts: nat)
    requires Advances(s, t, asset, plan, done, maxAttempts) && forall leaf :: leaf in also ==> leaf in done
    ensures Advances(s, t, asset, plan, also, maxAttempts)
  {
  }

  lemma {:induction false} AllDone(s: Standing, t: Standing, u: Standing, b: BlockPlan, plan: seq<nat>,
                                   maxAttempts: nat)
    requires Sane(s, maxAttempts) && Sane(t, maxAttempts) && BlockOk(s, b)
    requires Advances(s, u, b.asset, b.candidates, plan, maxAttempts) && Sane(u, maxAttempts)
    requires forall id :: Weight(u, id, maxAttempts) <= Weight(t, id, maxAttempts)
    requires forall leaf :: leaf in b.candidates && leaf !in plan ==> Permanent(t, LeafId(b.asset, leaf))
    ensures Advances(s, u, b.asset, b.candidates, b.candidates, maxAttempts)
  {
    forall leaf | leaf in b.candidates && leaf !in plan
      ensures Weight(u, LeafId(b.asset, leaf), maxAttempts) < Weight(s, LeafId(b.asset, leaf), maxAttempts)
    {
      OpenWeighs(s, LeafId(b.asset, leaf), maxAttempts);
    }
  }

  // ---- a whole step ------------------------------------------------------------------------------

  ghost predicate Apart(blocks: seq<BlockPlan>) {
    forall i, j :: 0 <= i < j < |blocks| ==> Disjoint(blocks[i], blocks[j])
  }

  ghost predicate Disjoint(a: BlockPlan, b: BlockPlan) {
    a.asset != b.asset || forall leaf :: leaf in b.candidates ==> leaf !in a.candidates
  }

  ghost predicate Among(blocks: seq<BlockPlan>, id: LeafId) {
    exists i :: 0 <= i < |blocks| && blocks[i].asset == id.asset && id.leaf in blocks[i].candidates
  }

  /** What the blocks of a step do to every leaf. */
  ghost predicate Moves(s: Standing, t: Standing, blocks: seq<BlockPlan>, paused: bool, maxAttempts: nat) {
    Sane(t, maxAttempts) && s.claimed <= t.claimed
    && (forall id :: Weight(t, id, maxAttempts) <= Weight(s, id, maxAttempts))
    && (forall id :: !Among(blocks, id) ==> SameLeaf(s, t, id))
    && (!paused ==> forall id :: Among(blocks, id) ==> Weight(t, id, maxAttempts) < Weight(s, id, maxAttempts))
  }

  lemma {:induction false} AmongAppend(blocks: seq<BlockPlan>, b: BlockPlan, id: LeafId)
    ensures Among(blocks + [b], id) <==> Among(blocks, id) || (b.asset == id.asset && id.leaf in b.candidates)
  {
    var all := blocks + [b];
    if Among(blocks, id) {
      var i :| 0 <= i < |blocks| && blocks[i].asset == id.asset && id.leaf in blocks[i].candidates;
      assert all[i] == blocks[i];
    }
    if b.asset == id.asset && id.leaf in b.candidates {
      assert all[|blocks|] == b;
    }
  }

  lemma {:induction false} NextBlockOk(s: Standing, t: Standing, blocks: seq<BlockPlan>, b: BlockPlan, maxAttempts: nat)
    requires Moves(s, t, blocks, false, maxAttempts) && BlockOk(s, b)
    requires forall i :: 0 <= i < |blocks| ==> Disjoint(blocks[i], b)
    ensures BlockOk(t, b)
  {
    forall leaf | leaf in b.candidates
      ensures OpenLeaf(t, LeafId(b.asset, leaf))
    {
      assert !Among(blocks, LeafId(b.asset, leaf));
      assert SameLeaf(s, t, LeafId(b.asset, leaf));
    }
  }

  lemma {:induction false} MovesOn(s: Standing, t: Standing, u: Standing, blocks: seq<BlockPlan>, b: BlockPlan,
                                   paused: bool, maxAttempts: nat)
    requires Moves(s, t, blocks, false, maxAttempts)
    requires Advances(t, u, b.asset, b.candidates, if paused then [] else b.candidates, maxAttempts) && BlockOk(t, b)
    ensures Moves(s, u, blocks + [b], paused, maxAttempts)
  {
    hide Weight, SameLeaf;
    forall id
      ensures Among(blocks + [b], id) <==> Among(blocks, id) || !Outside(id, b.asset, b.candidates)
      ensures Weight(u, id, maxAttempts) <= Weight(t, id, maxAttempts) <= Weight(s, id, maxAttempts)
    {
      AmongAppend(blocks, b, id);
    }
    forall id | !Among(blocks + [b], id)
      ensures SameLeaf(s, u, id)
    {
      assert SameLeaf(s, t, id);
      assert Outside(id, b.asset, b.candidates);
      SameOn(s, t, u, id);
    }
    if !paused {
      forall id | Among(blocks + [b], id)
        ensures Weight(u, id, maxAttempts) < Weight(s, id, maxAttempts)
      {
        if !Among(blocks, id) {
          assert OpenLeaf(t, LeafId(b.asset, id.leaf)) && id == LeafId(b.asset, id.leaf);
        }
      }
    }
  }

  lemma {:induction false} SameOn(s: Standing, t: Standing, u: Standing, id: LeafId)
    requires SameLeaf(s, t, id) && SameLeaf(t, u, id)
    ensures SameLeaf(s, u, id)
  {
  }

  ghost predicate GatheredOk(s: Standing, blocks: seq<BlockPlan>) {
    Apart(blocks) && forall i :: 0 <= i < |blocks| ==> BlockOk(s, blocks[i])
  }

  lemma {:induction false} FrontOk(s: Standing, blocks: seq<BlockPlan>)
    requires GatheredOk(s, blocks) && blocks != []
    ensures var n := |blocks| - 1;
      GatheredOk(s, blocks[..n]) && BlockOk(s, blocks[n])
      && (forall i :: 0 <= i < n ==> Disjoint(blocks[..n][i], blocks[n])) && blocks == blocks[..n] + [blocks[n]]
  {
    hide BlockOk, Disjoint;
    assert forall i :: 0 <= i < |blocks| - 1 ==> blocks[..|blocks| - 1][i] == blocks[i];
  }

  lemma {:induction false} BlocksMove(s: Standing, env: Env, blocks: seq<BlockPlan>)
    requires Sane(s, env.maxAttempts) && GatheredOk(s, blocks)
    ensures var r := PushBlocks(s, env, blocks); Moves(s, r.at, blocks, r.paused, env.maxAttempts)
    decreases |blocks|
  {
    if blocks == [] {
      NothingMoves(s, env.maxAttempts);
    } else {
      hide Moves, BlockOk, PushPlan, Disjoint, GatheredOk, Sane;
      var n := |blocks| - 1;
      FrontOk(s, blocks);
      BlocksMove(s, env, blocks[..n]);
      var front := PushBlocks(s, env, blocks[..n]);
      if front.paused {
        MovesWider(s, front.at, blocks[..n], blocks[n], env.maxAttempts);
      } else {
        NextBlockOk(s, front.at, blocks[..n], blocks[n], env.maxAttempts);
        MovesSane(s, front.at, blocks[..n], env.maxAttempts);
        PlanAdvances(front.at, env, blocks[n]);
        var last := PushPlan(front.at, env, blocks[n]);
        MovesOn(s, front.at, last.at, blocks[..n], blocks[n], last.paused, env.maxAttempts);
      }
    }
  }

  lemma {:induction false} NothingMoves(s: Standing, maxAttempts: nat)
    requires Sane(s, maxAttempts)
    ensures Moves(s, s, [], false, maxAttempts)
  {
  }

  lemma {:induction false} MovesSane(s: Standing, t: Standing, blocks: seq<BlockPlan>, maxAttempts: nat)
    requires Moves(s, t, blocks, false, maxAttempts)
    ensures Sane(t, maxAttempts)
  {
  }

  lemma {:induction false} MovesWider(s: Standing, t: Standing, blocks: seq<BlockPlan>, b: BlockPlan, maxAttempts: nat)
    requires Moves(s, t, blocks, true, maxAttempts)
    ensures Moves(s, t, blocks + [b], true, maxAttempts)
  {
    forall id | !Among(blocks + [b], id)
      ensures SameLeaf(s, t, id)
    {
      AmongAppend(blocks, b, id);
    }
  }

  // ---- what is gathered can be pushed --------------------------------------------------------------

  lemma {:induction false} CandidatesOk(s: Standing, now: int, asset: nat, first: nat, end: nat)
    ensures NoRepeats(Candidates(s, now, asset, first, end))
    ensures forall leaf :: leaf in Candidates(s, now, asset, first, end) ==>
      first <= leaf < end && OpenLeaf(s, LeafId(asset, leaf)) && !BackingOff(s, LeafId(asset, leaf), now)
    decreases end
  {
    if end > first {
      CandidatesOk(s, now, asset, first, end - 1);
    }
  }

  lemma {:induction false} CandidatesBlock(s: Standing, now: int, asset: nat, first: nat, end: nat)
    requires end <= first + PUSH_BLOCK_SIZE
    ensures Candidates(s, now, asset, first, end) != [] ==>
      BlockOk(s, BlockPlan(asset, first, Candidates(s, now, asset, first, end)))
  {
    CandidatesOk(s, now, asset, first, end);
  }

  /** Blocks of one asset come in index order, after those of other assets. */
  ghost predicate Below(blocks: seq<BlockPlan>, asset: nat, first: nat) {
    forall i :: 0 <= i < |blocks| && blocks[i].asset == asset ==> blocks[i].first + PUSH_BLOCK_SIZE <= first
  }

  ghost predicate From(blocks: seq<BlockPlan>, asset: nat, earlier: seq<BlockPlan>) {
    forall i :: 0 <= i < |blocks| ==> blocks[i].asset == asset || blocks[i] in earlier
  }

  lemma {:induction false} BlocksOk(s: Standing, now: int, view: AssetView, maxPushes: nat, g: Gathered, k: nat)
    requires GatheredOk(s, g.blocks) && Below(g.blocks, view.asset, 0)
    ensures var r := GatherBlocks(s, now, view, maxPushes, g, k).blocks;
      GatheredOk(s, r) && Below(r, view.asset, PUSH_BLOCK_SIZE * k) && From(r, view.asset, g.blocks)
    decreases k
  {
    if k > 0 {
      hide GatheredOk, Below, From, GatherBlock;
      BlocksOk(s, now, view, maxPushes, g, k - 1);
      BlockOkStep(s, now, view, maxPushes, GatherBlocks(s, now, view, maxPushes, g, k - 1), g.blocks, k - 1);
    } else {
      FromItself(g.blocks, view.asset);
    }
  }

  lemma {:induction false} BlockOkStep(s: Standing, now: int, view: AssetView, maxPushes: nat, front: Gathered,
                                       earlier: seq<BlockPlan>, k: nat)
    requires GatheredOk(s, front.blocks) && Below(front.blocks, view.asset, PUSH_BLOCK_SIZE * k)
    requires From(front.blocks, view.asset, earlier)
    ensures var r := GatherBlock(s, now, view, maxPushes, front, k).blocks;
      GatheredOk(s, r) && Below(r, view.asset, PUSH_BLOCK_SIZE * (k + 1)) && From(r, view.asset, earlier)
  {
    hide GatheredOk, Below, From, BlockOk, Candidates, Waiting;
    var first := PUSH_BLOCK_SIZE * k;
    var end := Merkle.Min(first + PUSH_BLOCK_SIZE, view.leafCount);
    CandidatesBlock(s, now, view.asset, first, end);
    BelowLater(front.blocks, view.asset, first);
    if Candidates(s, now, view.asset, first, end) != [] {
      BlockAppends(s, front.blocks, BlockPlan(view.asset, first, Candidates(s, now, view.asset, first, end)), earlier);
    }
  }

  lemma {:induction false} FromItself(blocks: seq<BlockPlan>, asset: nat)
    ensures From(blocks, asset, blocks)
  {
  }

  lemma {:induction false} BelowLater(blocks: seq<BlockPlan>, asset: nat, first: nat)
    requires Below(blocks, asset, first)
    ensures Below(blocks, asset, first + PUSH_BLOCK_SIZE)
  {
  }

  lemma {:induction false} BlockAppends(s: Standing, blocks: seq<BlockPlan>, b: BlockPlan, earlier: seq<BlockPlan>)
    requires GatheredOk(s, blocks) && BlockOk(s, b) && Below(blocks, b.asset, b.first) && From(blocks, b.asset, earlier)
    ensures GatheredOk(s, blocks + [b]) && Below(blocks + [b], b.asset, b.first + PUSH_BLOCK_SIZE)
    ensures From(blocks + [b], b.asset, earlier)
  {
    forall i | 0 <= i < |blocks|
      ensures Disjoint(blocks[i], b)
    {
      assert BlockOk(s, blocks[i]);
    }
  }

  ghost predicate DistinctAssets(views: seq<AssetView>) {
    forall i, j :: 0 <= i < j < |views| ==> views[i].asset != views[j].asset
  }

  lemma {:induction false} GatherOk(s: Standing, now: int, views: seq<AssetView>, maxPushes: nat)
    requires DistinctAssets(views)
    ensures GatheredOk(s, Gather(s, now, views, maxPushes).blocks)
    ensures forall i :: 0 <= i < |Gather(s, now, views, maxPushes).blocks| ==>
      exists j :: 0 <= j < |views| && views[j].asset == Gather(s, now, views, maxPushes).blocks[i].asset
    decreases |views|
  {
    if views != [] {
      hide GatheredOk, GatherBlocks, BlockCount;
      var n := |views| - 1;
      GatherOk(s, now, views[..n], maxPushes);
      var front, all := Gather(s, now, views[..n], maxPushes), Gather(s, now, views, maxPushes);
      forall i | 0 <= i < |front.blocks|
        ensures front.blocks[i].asset != views[n].asset
      {
        var j :| 0 <= j < n && views[..n][j].asset == front.blocks[i].asset;
        assert views[j].asset != views[n].asset;
      }
      BlocksOk(s, now, views[n], maxPushes, front, BlockCount(views[n].leafCount));
      forall i | 0 <= i < |all.blocks|
        ensures exists j :: 0 <= j < |views| && views[j].asset == all.blocks[i].asset
      {
        if all.blocks[i].asset == views[n].asset {
          assert views[n].asset == all.blocks[i].asset;
        } else {
          var m :| 0 <= m < |front.blocks| && front.blocks[m] == all.blocks[i];
          var j :| 0 <= j < n && views[..n][j].asset == front.blocks[m].asset;
          assert views[j].asset == all.blocks[i].asset;
        }
      }
    } else {
      NothingGathered(s);
    }
  }

  lemma {:induction false} NothingGathered(s: Standing)
    ensures GatheredOk(s, [])
  {
  }

  // ---- the measure ------------------------------------------------------------------------------------

  /** All the refusals the listed leaves can still take. */
  function Measure(s: Standing, ids: seq<LeafId>, maxAttempts: nat): nat
    decreases |ids|
  {
    if ids == [] then 0 else Measure(s, ids[..|ids| - 1], maxAttempts) + Weight(s, ids[|ids| - 1], maxAttempts)
  }

  lemma {:induction false} MeasureDrops(s: Standing, t: Standing, ids: seq<LeafId>, maxAttempts: nat)
    requires forall id :: Weight(t, id, maxAttempts) <= Weight(s, id, maxAttempts)
    ensures Measure(t, ids, maxAttempts) <= Measure(s, ids, maxAttempts)
    ensures (exists id :: id in ids && Weight(t, id, maxAttempts) < Weight(s, id, maxAttempts)) ==>
              Measure(t, ids, maxAttempts) < Measure(s, ids, maxAttempts)
    decreases |ids|
  {
    if ids != [] {
      var n := |ids| - 1;
      MeasureDrops(s, t, ids[..n], maxAttempts);
      assert ids == ids[..n] + [ids[n]];
    }
  }

  lemma {:induction false} MeasureBound(s: Standing, ids: seq<LeafId>, maxAttempts: nat)
    ensures Measure(s, ids, maxAttempts) <= maxAttempts * |ids|
    decreases |ids|
  {
    if ids != [] {
      MeasureBound(s, ids[..|ids| - 1], maxAttempts);
      assert maxAttempts * |ids| == maxAttempts * (|ids| - 1) + maxAttempts;
    }
  }

  function Step(s: Standing, env: Env, views: seq<AssetView>, maxPushes: nat): Outcome {
    PushBlocks(s, env, Gather(s, env.now, views, maxPushes).blocks)
  }

  ghost predicate Covers(ids: seq<LeafId>, blocks: seq<BlockPlan>) {
    forall id :: Among(blocks, id) ==> id in ids
  }

  ghost predicate Listed(id: LeafId, views: seq<AssetView>) {
    exists j :: 0 <= j < |views| && views[j].asset == id.asset && id.leaf < views[j].leafCount
  }

  /** Every leaf of the step's assets. */
  ghost predicate Lists(ids: seq<LeafId>, views: seq<AssetView>) {
    forall id :: id in ids <==> Listed(id, views)
  }

  /** What is gathered is among them. */
  lemma {:induction false} ListsCovers(s: Standing, ids: seq<LeafId>, blocks: seq<BlockPlan>, views: seq<AssetView>)
    requires AllFit(s, blocks, views) && Lists(ids, views)
    ensures Covers(ids, blocks)
  {
    hide Merkle.Aligned, OpenLeaf;
    forall id | Among(blocks, id)
      ensures id in ids
    {
      var i :| 0 <= i < |blocks| && blocks[i].asset == id.asset && id.leaf in blocks[i].candidates;
      assert FitsIn(s, blocks[i], views);
      var j :| 0 <= j < |views| && BlockFits(s, blocks[i], views[j]);
      assert Listed(id, views);
    }
  }

  /** No step loses progress, and one that pushes without pausing strictly uses up what is left. */
  lemma {:induction false} StepDecreases(s: Standing, env: Env, views: seq<AssetView>, maxPushes: nat, ids: seq<LeafId>)
    requires Sane(s, env.maxAttempts) && DistinctAssets(views) && Lists(ids, views)
    ensures var r := Step(s, env, views, maxPushes);
      Sane(r.at, env.maxAttempts) && s.claimed <= r.at.claimed
      && Measure(r.at, ids, env.maxAttempts) <= Measure(s, ids, env.maxAttempts)
      && (Gather(s, env.now, views, maxPushes).blocks != [] && !r.paused ==>
            Measure(r.at, ids, env.maxAttempts) < Measure(s, ids, env.maxAttempts))
  {
    hide Gather, PushBlocks, Sane, Weight, Measure, Lists, AllFit;
    var blocks := Gather(s, env.now, views, maxPushes).blocks;
    GatherOk(s, env.now, views, maxPushes);
    GatheredFit(s, env.now, views, maxPushes);
    ListsCovers(s, ids, blocks, views);
    BlocksMove(s, env, blocks);
    var r := Step(s, env, views, maxPushes);
    MeasureDrops(s, r.at, ids, env.maxAttempts);
    if blocks != [] {
      var id := LeafId(blocks[0].asset, blocks[0].candidates[0]);
      assert Among(blocks, id) && id in ids;
    }
  }

  // ---- only what the program accepts -------------------------------------------------------------------

  /** What the transaction of a visit carries, the block's hashes and its siblings, passes the program's own check
      against the root of these leaves. */
  ghost predicate Passes(v: Visit, leaves: seq<Digest>) {
    v.first < |leaves|
    && Merkle.BlockVerifies(Merkle.Block(leaves, v.first, v.level), v.first, v.level, |leaves|,
                            Merkle.BlockSiblings(leaves, v.first, v.level), Merkle.RootOf(leaves))
  }

  /** An aligned block is what the tree proves. */
  lemma {:induction false} AcceptablePasses(v: Visit, leaves: seq<Digest>)
    requires Acceptable(v, v.leaves, |leaves|)
    ensures Passes(v, leaves)
  {
    MerkleTheorems.BlockComplete(leaves, v.first, v.level);
  }

  ghost predicate Sendable(v: Visit, view: AssetView) {
    Acceptable(v, v.leaves, view.leafCount) && Passes(v, view.leaves)
    && forall leaf :: leaf in v.leaves ==> leaf < view.leafCount
  }

  /** A transaction the step may send: a block of an asset's tree that the program's check accepts, in shape and in
      proof, paying leaves of that block that were open when the step began. */
  ghost predicate VisitOk(s: Standing, v: Visit, views: seq<AssetView>) {
    (exists j :: 0 <= j < |views| && views[j].asset == v.asset && Sendable(v, views[j])) && v.level <= PUSH_BLOCK_LEVEL
    && forall leaf :: leaf in v.leaves ==> OpenLeaf(s, LeafId(v.asset, leaf))
  }

  /** A gathered block lies in its asset's tree, on a boundary of its size. */
  ghost predicate BlockFits(s: Standing, b: BlockPlan, view: AssetView) {
    b.asset == view.asset && Merkle.Aligned(b.first, PUSH_BLOCK_LEVEL)
    && forall leaf :: leaf in b.candidates ==> leaf < view.leafCount && OpenLeaf(s, LeafId(b.asset, leaf))
  }

  ghost predicate FitsIn(s: Standing, b: BlockPlan, views: seq<AssetView>) {
    exists j :: 0 <= j < |views| && BlockFits(s, b, views[j])
  }

  ghost predicate AllFit(s: Standing, blocks: seq<BlockPlan>, views: seq<AssetView>) {
    forall i :: 0 <= i < |blocks| ==> FitsIn(s, blocks[i], views)
  }

  lemma {:induction false} BlocksFit(s: Standing, now: int, views: seq<AssetView>, j: nat, maxPushes: nat, g: Gathered,
                                     k: nat)
    requires j < |views| && AllFit(s, g.blocks, views)
    ensures AllFit(s, GatherBlocks(s, now, views[j], maxPushes, g, k).blocks, views)
    decreases k
  {
    if k > 0 {
      hide FitsIn, Candidates, Waiting;
      BlocksFit(s, now, views, j, maxPushes, g, k - 1);
      var first := PUSH_BLOCK_SIZE * (k - 1);
      CandidateFits(s, now, views, j, first, Merkle.Min(first + PUSH_BLOCK_SIZE, views[j].leafCount), k - 1);
    }
  }

  lemma {:induction false} CandidateFits(s: Standing, now: int, views: seq<AssetView>, j: nat, first: nat, end: nat,
                                         k: nat)
    requires j < |views| && end <= views[j].leafCount && first == PUSH_BLOCK_SIZE * k
    ensures FitsIn(s, BlockPlan(views[j].asset, first, Candidates(s, now, views[j].asset, first, end)), views)
  {
    hide OpenLeaf, BackingOff;
    CandidatesOk(s, now, views[j].asset, first, end);
    assert Merkle.Aligned(k, 0) && Merkle.Aligned(2 * k, 1) && Merkle.Aligned(4 * k, 2);
    assert Merkle.Aligned(first, PUSH_BLOCK_LEVEL);
    assert BlockFits(s, BlockPlan(views[j].asset, first, Candidates(s, now, views[j].asset, first, end)), views[j]);
  }

  lemma {:induction false} MoreViews(s: Standing, blocks: seq<BlockPlan>, views: seq<AssetView>, n: nat)
    requires n <= |views| && AllFit(s, blocks, views[..n])
    ensures AllFit(s, blocks, views)
  {
    hide BlockFits;
    forall i | 0 <= i < |blocks|
      ensures FitsIn(s, blocks[i], views)
    {
      var j :| 0 <= j < n && BlockFits(s, blocks[i], views[..n][j]);
      assert BlockFits(s, blocks[i], views[j]);
    }
  }

  lemma {:induction false} GatheredFit(s: Standing, now: int, views: seq<AssetView>, maxPushes: nat)
    ensures AllFit(s, Gather(s, now, views, maxPushes).blocks, views)
    decreases |views|
  {
    if views != [] {
      hide AllFit, GatherBlocks, BlockCount;
      var n := |views| - 1;
      GatheredFit(s, now, views[..n], maxPushes);
      MoreViews(s, Gather(s, now, views[..n], maxPushes).blocks, views, n);
      BlocksFit(s, now, views, n, maxPushes, Gather(s, now, views[..n], maxPushes), BlockCount(views[n].leafCount));
    }
  }

  lemma {:induction false} ChosenAmong(s: Standing, env: Env, asset: nat, candidates: seq<nat>)
    ensures forall leaf :: leaf in Choose(s, env, asset, candidates).plan ==> leaf in candidates
    decreases |candidates|
  {
    if candidates != [] {
      ChosenAmong(s, env, asset, candidates[..|candidates| - 1]);
    }
  }

  /** `t`: the standing by the time this block's turn comes. */
  lemma {:induction false} PlanVisits(s: Standing, t: Standing, env: Env, b: BlockPlan, views: seq<AssetView>)
    requires FitsIn(s, b, views)
    ensures forall v :: v in PushPlan(t, env, b).visits ==> VisitOk(s, v, views)
  {
    hide PushBlock, Choose, Acceptable, OpenLeaf, Merkle.Aligned, Passes;
    var j :| 0 <= j < |views| && BlockFits(s, b, views[j]);
    var chosen := Choose(t, env, b.asset, b.candidates);
    ChosenAmong(t, env, b.asset, b.candidates);
    BlockVisits(chosen.at, env, b.asset, b.first, PUSH_BLOCK_LEVEL, chosen.plan, views[j].leafCount);
    BlockLevels(chosen.at, env, b.asset, b.first, PUSH_BLOCK_LEVEL, chosen.plan);
    forall v | v in PushPlan(t, env, b).visits
      ensures VisitOk(s, v, views)
    {
      VisitOfPlan(v, chosen.plan, views[j].leafCount);
      AcceptablePasses(v, views[j].leaves);
      assert Sendable(v, views[j]);
    }
  }

  lemma {:induction false} VisitOfPlan(v: Visit, plan: seq<nat>, leafCount: nat)
    requires Acceptable(v, plan, leafCount)
    ensures Acceptable(v, v.leaves, leafCount) && forall leaf :: leaf in v.leaves ==> leaf in plan
  {
  }

  lemma {:induction false} BlocksVisit(s: Standing, env: Env, blocks: seq<BlockPlan>, views: seq<AssetView>)
    requires AllFit(s, blocks, views)
    ensures forall v :: v in PushBlocks(s, env, blocks).visits ==> VisitOk(s, v, views)
    decreases |blocks|
  {
    hide PushPlan, VisitOk, FitsIn;
    if blocks != [] {
      var n := |blocks| - 1;
      assert forall i :: 0 <= i < n ==> blocks[..n][i] == blocks[i];
      BlocksVisit(s, env, blocks[..n], views);
      PlanVisits(s, PushBlocks(s, env, blocks[..n]).at, env, blocks[n], views);
    }
  }

  /** Every transaction of a step is one the program's block check accepts, and pays only leaves still open. */
  lemma {:induction false} StepVisits(s: Standing, env: Env, views: seq<AssetView>, maxPushes: nat)
    ensures forall v :: v in Step(s, env, views, maxPushes).visits ==> VisitOk(s, v, views)
  {
    hide Gather, PushBlocks, VisitOk, AllFit;
    GatheredFit(s, env.now, views, maxPushes);
    BlocksVisit(s, env, Gather(s, env.now, views, maxPushes).blocks, views);
  }

  // ---- the end of it -------------------------------------------------------------------------------------

  lemma {:induction false} MeasureZero(s: Standing, ids: seq<LeafId>, maxAttempts: nat)
    ensures Measure(s, ids, maxAttempts) == 0 <==> forall id :: id in ids ==> Weight(s, id, maxAttempts) == 0
    decreases |ids|
  {
    hide Weight;
    if ids != [] {
      var n := |ids| - 1;
      MeasureZero(s, ids[..n], maxAttempts);
      assert ids == ids[..n] + [ids[n]];
    }
  }

  /** A step reports completion exactly when no refusal is left to any leaf. */
  lemma {:induction false} CompleteIffUsedUp(s: Standing, now: int, views: seq<AssetView>, maxPushes: nat,
                                             ids: seq<LeafId>,
                                            maxAttempts: nat)
    requires Sane(s, maxAttempts) && Lists(ids, views)
    ensures Gather(s, now, views, maxPushes).blocks == [] && Gather(s, now, views, maxPushes).deferred == 0
       <==> Measure(s, ids, maxAttempts) == 0
  {
    hide Gather, Measure, Weight, OpenLeaf, Sane;
    CompleteIff(s, now, views, maxPushes);
    MeasureZero(s, ids, maxAttempts);
    forall id
      ensures Weight(s, id, maxAttempts) == 0 <==> !OpenLeaf(s, id)
    {
      OpenWeighs(s, id, maxAttempts);
    }
    if NothingOpen(s, views) {
      forall id | id in ids
        ensures !OpenLeaf(s, id)
      {
        assert Listed(id, views);
        var j :| 0 <= j < |views| && views[j].asset == id.asset && id.leaf < views[j].leafCount;
        assert id == LeafId(views[j].asset, id.leaf);
      }
    } else {
      var j, leaf: nat :| 0 <= j < |views| && leaf < views[j].leafCount && OpenLeaf(s, LeafId(views[j].asset, leaf));
      assert Listed(LeafId(views[j].asset, leaf), views);
    }
  }

  // ---- runs ----------------------------------------------------------------------------------------------

  /** One step of a run of steps, after others claimed some leaves themselves. */
  datatype Turn = Turn(claims: set<LeafId>, env: Env, maxPushes: nat)

  /** A run of steps that all push something and never pause. */
  ghost predicate AllPush(s: Standing, turns: seq<Turn>, views: seq<AssetView>, maxAttempts: nat)
    decreases |turns|
  {
    turns == []
    || (var turn := turns[0];
        var before := s.(claimed := s.claimed + turn.claims);
        turn.env.maxAttempts == maxAttempts && Gather(before, turn.env.now, views, turn.maxPushes).blocks != []
        && !Step(before, turn.env, views, turn.maxPushes).paused
        && AllPush(Step(before, turn.env, views, turn.maxPushes).at, turns[1..], views, maxAttempts))
  }

  /** The paying phase ends: unpaused pushing steps are at most the attempts the leaves had to begin with. */
  lemma {:induction false} PushingEnds(s: Standing, turns: seq<Turn>, views: seq<AssetView>, maxAttempts: nat,
                                       ids: seq<LeafId>)
    requires Sane(s, maxAttempts) && DistinctAssets(views) && Lists(ids, views) && AllPush(s, turns, views, maxAttempts)
    ensures |turns| <= Measure(s, ids, maxAttempts) <= maxAttempts * |ids|
    decreases |turns|
  {
    hide Step, Gather, Measure, Lists;
    MeasureBound(s, ids, maxAttempts);
    if turns != [] {
      var turn := turns[0];
      var before := s.(claimed := s.claimed + turn.claims);
      ClaimsOnlyHelp(s, before, ids, maxAttempts);
      StepDecreases(before, turn.env, views, turn.maxPushes, ids);
      PushingEnds(Step(before, turn.env, views, turn.maxPushes).at, turns[1..], views, maxAttempts, ids);
    }
  }

  lemma {:induction false} ClaimsOnlyHelp(s: Standing, t: Standing, ids: seq<LeafId>, maxAttempts: nat)
    requires t.failures == s.failures && s.claimed <= t.claimed && Sane(s, maxAttempts)
    ensures Sane(t, maxAttempts) && Measure(t, ids, maxAttempts) <= Measure(s, ids, maxAttempts)
  {
    MeasureDrops(s, t, ids, maxAttempts);
  }
}
