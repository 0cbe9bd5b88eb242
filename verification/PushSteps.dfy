/** The paying step as it runs: failure records change in place while blocks are sent. */
module PushSteps {
  import opened PushPhase
  import PushProgress
  import PushFates
  import Merkle

  datatype Report = Complete | AllBackingOff | Paused | Pushed(payouts: nat, transactions: nat)

  class RoundPusher {
    var at: Standing
    /** History: the transactions sent. */
    var visits: seq<Visit>

    constructor (claimed: set<LeafId>)
      ensures at == Standing(map[], claimed) && visits == []
    {
      at, visits := Standing(map[], claimed), [];
    }

    ghost predicate Follows(r: Outcome, before: seq<Visit>)
      reads this
    {
      at == r.at && visits == before + r.visits
    }

    method RecordFailure(id: LeafId, failure: Failure)
      modifies this`at
      ensures at == Record(old(at), id, failure)
    {
      at := at.(failures := at.failures[id := failure]);
    }

    method DeferAll(asset: nat, leaves: seq<nat>, until: int)
      modifies this`at
      ensures at == Defer(old(at), asset, leaves, until)
    {
      var i := 0;
      while i < |leaves|
        invariant 0 <= i <= |leaves| && at == Defer(old(at), asset, leaves[..i], until)
      {
        assert leaves[..i + 1][..i] == leaves[..i];
        var id := LeafId(asset, leaves[i]);
        RecordFailure(id, Failure(Attempts(at, id), false, until));
        i := i + 1;
      }
      assert leaves[..i] == leaves;
    }

    /** Halves the block until it fits; a refused block of several is retried one leaf at a time. */
    method Block(env: Env, asset: nat, first: nat, level: nat, plan: seq<nat>)
      returns (pushed: nat, transactions: nat, paused: bool)
      modifies this
      ensures var r := PushBlock(old(at), env, asset, first, level, plan);
        Follows(r, old(visits)) && pushed == r.pushed && transactions == r.transactions && paused == r.paused
      decreases level, |plan|
    {
      hide PushSingly, Deliver, Defer, Fail, PushBlock, InBlock, PushOne, Merkle.Pow2;
      ghost var start := at;
      BlockIs(at, env, asset, first, level, plan);
      var leaves := InBlock(plan, first, first + Merkle.Pow2(level));
      if leaves == [] {
        return 0, 0, false;
      }
      if level > 0 && !env.fits(asset, first, level, leaves) {
        pushed, transactions, paused := Block(env, asset, first, level - 1, leaves);
        if paused {
          return;
        }
        var more, others: nat;
        more, others, paused := Block(env, asset, first + Merkle.Pow2(level - 1), level - 1, leaves);
        pushed, transactions := pushed + more, transactions + others;
        return;
      }
      visits := visits + [Visit(asset, first, level, leaves)];
      match env.send(asset, first, level, leaves) {
        case Sent =>
          at := Deliver(at, asset, leaves);
          return |leaves|, 1, false;
        case RpcTrouble =>
          DeferAll(asset, leaves, env.now + 30);
          return 0, 1, true;
        case Refused(permanent) =>
          if |leaves| > 1 {
            InBlockShorter(plan, first, first + Merkle.Pow2(level));
            pushed, transactions, paused := Singly(env, asset, leaves, level, |plan|);
            transactions := transactions + 1;
            return;
          }
          at := Fail(at, env, LeafId(asset, leaves[0]), permanent);
          return 0, 1, false;
      }
    }

    method Singly(env: Env, asset: nat, leaves: seq<nat>, ghost level: nat, ghost planned: nat)
      returns (pushed: nat, transactions: nat, paused: bool)
      requires |leaves| <= planned && planned > 1
      modifies this
      ensures var r := PushSingly(old(at), env, asset, leaves);
        Follows(r, old(visits)) && pushed == r.pushed && transactions == r.transactions && paused == r.paused
      decreases level, planned, 0
    {
      hide PushOne, PushBlock, PushSingly;
      pushed, transactions, paused := 0, 0, false;
      NoneSingly(at, env, asset, leaves);
      var i := 0;
      while i < |leaves|
        invariant 0 <= i <= |leaves| && !paused
        invariant var r := PushSingly(old(at), env, asset, leaves[..i]);
          Follows(r, old(visits)) && pushed == r.pushed && transactions == r.transactions && !r.paused
      {
        SinglyNext(old(at), env, asset, leaves, i);
        SingleIsBlock(at, env, asset, leaves[i]);
        var more, others: nat;
        more, others, paused := Block(env, asset, leaves[i], 0, [leaves[i]]);
        pushed, transactions := pushed + more, transactions + others;
        i := i + 1;
        if paused {
          StaysPaused(old(at), env, asset, leaves, i);
          return;
        }
      }
      assert leaves[..i] == leaves;
    }

    /** Leaves for self-claim what is not worth a new account; returns what is. */
    method ChooseLeaves(env: Env, asset: nat, candidates: seq<nat>) returns (plan: seq<nat>)
      modifies this`at
      ensures Chosen(at, plan) == Choose(old(at), env, asset, candidates)
    {
      plan := [];
      var i := 0;
      while i < |candidates|
        invariant 0 <= i <= |candidates| && Chosen(at, plan) == Choose(old(at), env, asset, candidates[..i])
      {
        assert candidates[..i + 1][..i] == candidates[..i];
        var id := LeafId(asset, candidates[i]);
        if env.worth(id) {
          plan := plan + [candidates[i]];
        } else {
          RecordFailure(id, Failure(Attempts(at, id), true, 0));
        }
        i := i + 1;
      }
      assert candidates[..i] == candidates;
    }

    method Push(env: Env, views: seq<AssetView>, maxPushes: nat) returns (report: Report)
      modifies this
      ensures var g := Gather(old(at), env.now, views, maxPushes);
        var r := PushProgress.Step(old(at), env, views, maxPushes);
        Follows(r, old(visits))
        && report == (if g.blocks == [] then (if g.deferred > 0 then AllBackingOff else Complete)
                      else if r.paused then Paused else Pushed(r.pushed, r.transactions))
      ensures report == Complete <==> NothingOpen(old(at), views)
      ensures forall v :: v in visits[|old(visits)|..] ==> PushProgress.VisitOk(old(at), v, views)
      ensures PushFates.StepFates(old(at), env, views, maxPushes, PushProgress.Step(old(at), env, views, maxPushes))
    {
      hide Gather, PushPlan, NothingOpen, PushProgress.VisitOk, PushFates.StepFates;
      PushFates.EveryStepFates(at, env, views, maxPushes);
      PushProgress.StepVisits(at, env, views, maxPushes);
      var g := Gather(at, env.now, views, maxPushes);
      CompleteIff(at, env.now, views, maxPushes);
      var blocks := g.blocks;
      if blocks == [] {
        report := if g.deferred > 0 then AllBackingOff else Complete;
        return;
      }
      var pushed, transactions := 0, 0;
      var i := 0;
      while i < |blocks|
        invariant 0 <= i <= |blocks|
        invariant var r := PushBlocks(old(at), env, blocks[..i]);
          Follows(r, old(visits)) && pushed == r.pushed && transactions == r.transactions && !r.paused
      {
        assert blocks[..i + 1][..i] == blocks[..i];
        var more, others, paused := OneBlock(env, blocks[i]);
        pushed, transactions := pushed + more, transactions + others;
        i := i + 1;
        if paused {
          BlocksStayPaused(old(at), env, blocks, i);
          return Paused;
        }
      }
      assert blocks[..i] == blocks;
      report := Pushed(pushed, transactions);
    }

    method OneBlock(env: Env, b: BlockPlan) returns (pushed: nat, transactions: nat, paused: bool)
      modifies this
      ensures var r := PushPlan(old(at), env, b);
        Follows(r, old(visits)) && pushed == r.pushed && transactions == r.transactions && paused == r.paused
    {
      hide Choose, PushBlock;
      var plan := ChooseLeaves(env, b.asset, b.candidates);
      if plan == [] {
        return 0, 0, false;
      }
      pushed, transactions, paused := Block(env, b.asset, b.first, PUSH_BLOCK_LEVEL, plan);
    }
  }

  lemma {:induction false} InBlockShorter(plan: seq<nat>, first: nat, end: nat)
    ensures |InBlock(plan, first, end)| <= |plan|
    decreases |plan|
  {
    if plan != [] {
      InBlockShorter(plan[..|plan| - 1], first, end);
    }
  }

  lemma {:induction false} NoneSingly(s: Standing, env: Env, asset: nat, leaves: seq<nat>)
    ensures PushSingly(s, env, asset, leaves[..0]) == Outcome(s, 0, 0, false, [])
  {
  }

  lemma {:induction false} SinglyNext(s: Standing, env: Env, asset: nat, leaves: seq<nat>, i: nat)
    requires i < |leaves| && !PushSingly(s, env, asset, leaves[..i]).paused
    ensures var front := PushSingly(s, env, asset, leaves[..i]);
      var last := PushOne(front.at, env, asset, leaves[i]);
      PushSingly(s, env, asset, leaves[..i + 1])
        == Outcome(last.at, front.pushed + last.pushed, front.transactions + last.transactions, last.paused,
                   front.visits + last.visits)
  {
    assert leaves[..i + 1][..i] == leaves[..i];
  }

  lemma {:induction false} StaysPaused(s: Standing, env: Env, asset: nat, leaves: seq<nat>, i: nat)
    requires i <= |leaves| && PushSingly(s, env, asset, leaves[..i]).paused
    ensures PushSingly(s, env, asset, leaves) == PushSingly(s, env, asset, leaves[..i])
    decreases |leaves| - i
  {
    if i == |leaves| {
      assert leaves[..i] == leaves;
    } else {
      assert leaves[..i + 1][..i] == leaves[..i];
      StaysPaused(s, env, asset, leaves, i + 1);
    }
  }

  lemma {:induction false} BlocksStayPaused(s: Standing, env: Env, blocks: seq<BlockPlan>, i: nat)
    requires i <= |blocks| && PushBlocks(s, env, blocks[..i]).paused
    ensures PushBlocks(s, env, blocks) == PushBlocks(s, env, blocks[..i])
    decreases |blocks| - i
  {
    if i == |blocks| {
      assert blocks[..i] == blocks;
    } else {
      assert blocks[..i + 1][..i] == blocks[..i];
      BlocksStayPaused(s, env, blocks, i + 1);
    }
  }
}
