/** What becomes of each leaf in a paying step: only payouts worth making are sent, those not worth it are left for
    self-claim, and every record follows from the replies to the transactions a leaf was in, and from nothing else. */
module PushFates {
  import opened PushPhase
  import opened PushProgress
  import Merkle

  /** All that is kept about a leaf. */
  datatype Lot = Lot(claimed: bool, attempts: nat, permanent: bool, until: int)

  function LotOf(s: Standing, id: LeafId): Lot {
    Lot(id in s.claimed, Attempts(s, id), Permanent(s, id),
        if id in s.failures then s.failures[id].nextAttemptAt else 0)
  }

  function ReplyTo(env: Env, v: Visit): Reply {
    env.send(v.asset, v.first, v.level, v.leaves)
  }

  predicate Carries(v: Visit, id: LeafId) {
    v.asset == id.asset && id.leaf in v.leaves
  }

  /** One transaction, for a leaf that is in it: landing claims it and clears its record; trouble on the way makes it
      wait half a minute and does not count; a refusal of several leaves says nothing of any one of them; a refusal of
      this leaf alone counts, and ends its attempts when no retry can help or the last one is used. */
  function Meet(lot: Lot, env: Env, v: Visit, id: LeafId): Lot {
    if !Carries(v, id) then lot
    else
      match ReplyTo(env, v)
      case Sent => Lot(true, 0, false, 0)
      case RpcTrouble => Lot(lot.claimed, lot.attempts, false, env.now + 30)
      case Refused(permanent) =>
        if |v.leaves| > 1 then lot
        else
          Lot(lot.claimed, lot.attempts + 1, permanent || lot.attempts + 1 >= env.maxAttempts,
              env.now + Backoff(lot.attempts + 1))
  }

  /** Transaction after transaction. */
  function MeetAll(lot: Lot, env: Env, visits: seq<Visit>, id: LeafId): Lot
    decreases |visits|
  {
    if visits == [] then lot
    else
      var n := |visits| - 1;
      Meet(MeetAll(lot, env, visits[..n], id), env, visits[n], id)
  }

  lemma {:induction false} MeetJoins(lot: Lot, env: Env, a: seq<Visit>, b: seq<Visit>, id: LeafId)
    ensures MeetAll(lot, env, a + b, id) == MeetAll(MeetAll(lot, env, a, id), env, b, id)
    decreases |b|
  {
    hide Meet;
    if b == [] {
      assert a + b == a;
    } else {
      var n := |b| - 1;
      MeetJoins(lot, env, a, b[..n], id);
      assert (a + b)[..|a| + n] == a + b[..n];
    }
  }

  lemma {:induction false} MeetOne(lot: Lot, env: Env, v: Visit, id: LeafId)
    ensures MeetAll(lot, env, [v], id) == Meet(lot, env, v, id)
  {
    hide Meet;
    assert [v][..0] == [];
    assert MeetAll(lot, env, [], id) == lot;
  }

  /** Transactions that do not carry a leaf do not change its lot. */
  lemma {:induction false} MeetNone(lot: Lot, env: Env, visits: seq<Visit>, id: LeafId)
    requires forall v :: v in visits ==> !Carries(v, id)
    ensures MeetAll(lot, env, visits, id) == lot
    decreases |visits|
  {
    if visits != [] {
      var n := |visits| - 1;
      assert visits[n] in visits && forall v :: v in visits[..n] ==> v in visits;
      MeetNone(lot, env, visits[..n], id);
    }
  }

  // ---- a block --------------------------------------------------------------------------------

  lemma {:induction false} DeferLot(s: Standing, asset: nat, leaves: seq<nat>, until: int, id: LeafId)
    ensures LotOf(Defer(s, asset, leaves, until), id)
         == if id.asset == asset && id.leaf in leaves then Lot(id in s.claimed, Attempts(s, id), false, until)
            else LotOf(s, id)
    decreases |leaves|
  {
    if leaves != [] {
      var n := |leaves| - 1;
      assert leaves == leaves[..n] + [leaves[n]];
      DeferLot(s, asset, leaves[..n], until, id);
    }
  }

  lemma {:induction false} OneLot(s: Standing, env: Env, asset: nat, leaf: nat, id: LeafId)
    ensures var r := PushOne(s, env, asset, leaf); LotOf(r.at, id) == MeetAll(LotOf(s, id), env, r.visits, id)
  {
    hide Backoff;
    MeetOne(LotOf(s, id), env, Visit(asset, leaf, 0, [leaf]), id);
    DeferLot(s, asset, [leaf], env.now + 30, id);
  }

  lemma {:induction false} SinglyLot(s: Standing, env: Env, asset: nat, leaves: seq<nat>, id: LeafId)
    ensures var r := PushSingly(s, env, asset, leaves); LotOf(r.at, id) == MeetAll(LotOf(s, id), env, r.visits, id)
    decreases |leaves|
  {
    if leaves != [] {
      hide PushOne, LotOf;
      var n := |leaves| - 1;
      SinglyLot(s, env, asset, leaves[..n], id);
      var front := PushSingly(s, env, asset, leaves[..n]);
      if !front.paused {
        OneLot(front.at, env, asset, leaves[n], id);
        MeetJoins(LotOf(s, id), env, front.visits, PushOne(front.at, env, asset, leaves[n]).visits, id);
      }
    }
  }

  lemma {:induction false} SendLot(s: Standing, env: Env, asset: nat, first: nat, level: nat, leaves: seq<nat>,
                                   id: LeafId)
    requires leaves != []
    ensures var r := SendBlock(s, env, asset, first, level, leaves);
      LotOf(r.at, id) == MeetAll(LotOf(s, id), env, r.visits, id)
  {
    hide Backoff, PushSingly, Defer;
    var visit := Visit(asset, first, level, leaves);
    MeetOne(LotOf(s, id), env, visit, id);
    match env.send(asset, first, level, leaves) {
      case Sent =>
      case RpcTrouble => DeferLot(s, asset, leaves, env.now + 30, id);
      case Refused(permanent) =>
        if |leaves| > 1 {
          SinglyLot(s, env, asset, leaves, id);
          MeetJoins(LotOf(s, id), env, [visit], PushSingly(s, env, asset, leaves).visits, id);
        } else {
          assert leaves == [leaves[0]];
        }
    }
  }

  /** A block's records are what the replies to its transactions make of them. */
  lemma {:induction false} BlockLot(s: Standing, env: Env, asset: nat, first: nat, level: nat, plan: seq<nat>,
                                    id: LeafId)
    ensures var r := PushBlock(s, env, asset, first, level, plan);
      LotOf(r.at, id) == MeetAll(LotOf(s, id), env, r.visits, id)
    decreases level
  {
    hide InBlock, PushBlock, SendBlock, LotOf;
    BlockIs(s, env, asset, first, level, plan);
    var leaves := InBlock(plan, first, first + Merkle.Pow2(level));
    if leaves != [] {
      if level > 0 && !env.fits(asset, first, level, leaves) {
        BlockLot(s, env, asset, first, level - 1, leaves, id);
        var left := PushBlock(s, env, asset, first, level - 1, leaves);
        if !left.paused {
          BlockLot(left.at, env, asset, first + Merkle.Pow2(level - 1), level - 1, leaves, id);
          var right := PushBlock(left.at, env, asset, first + Merkle.Pow2(level - 1), level - 1, leaves);
          MeetJoins(LotOf(s, id), env, left.visits, right.visits, id);
        }
      } else {
        SendLot(s, env, asset, first, level, leaves, id);
      }
    }
  }

  // ---- which leaves are sent -----------------------------------------------------------------------

  ghost predicate From(visits: seq<Visit>, asset: nat, plan: seq<nat>) {
    forall v :: v in visits ==> v.asset == asset && forall leaf :: leaf in v.leaves ==> leaf in plan
  }

  ghost predicate Carried(visits: seq<Visit>, id: LeafId) {
    exists v :: v in visits && Carries(v, id)
  }

  lemma {:induction false} CarriedJoins(a: seq<Visit>, b: seq<Visit>, id: LeafId)
    ensures Carried(a + b, id) <==> Carried(a, id) || Carried(b, id)
  {
  }

  /** Trouble on the way pauses: it is the last transaction's reply, and no other's. */
  ghost predicate Pauses(env: Env, visits: seq<Visit>, paused: bool) {
    (forall i :: 0 <= i < |visits| - 1 ==> !ReplyTo(env, visits[i]).RpcTrouble?)
    && (paused <==> visits != [] && ReplyTo(env, visits[|visits| - 1]).RpcTrouble?)
  }

  lemma {:induction false} PausesJoins(env: Env, a: seq<Visit>, b: seq<Visit>, paused: bool)
    requires Pauses(env, a, false) && Pauses(env, b, paused)
    ensures Pauses(env, a + b, paused)
  {
    var all := a + b;
    forall i | 0 <= i < |all| - 1
      ensures !ReplyTo(env, all[i]).RpcTrouble?
    {
      if i < |a| {
        assert all[i] == a[i];
      } else {
        assert all[i] == b[i - |a|];
      }
    }
    if b != [] {
      assert all[|all| - 1] == b[|b| - 1];
    } else {
      assert all == a;
    }
  }

  /** Only planned leaves are sent, and all of them unless the push pauses. */
  ghost predicate Sends(env: Env, r: Outcome, asset: nat, plan: seq<nat>, all: seq<nat>) {
    From(r.visits, asset, plan) && Pauses(env, r.visits, r.paused)
    && (!r.paused ==> forall leaf :: leaf in all ==> Carried(r.visits, LeafId(asset, leaf)))
  }

  lemma {:induction false} SinglySends(s: Standing, env: Env, asset: nat, leaves: seq<nat>)
    ensures Sends(env, PushSingly(s, env, asset, leaves), asset, leaves, leaves)
    decreases |leaves|
  {
    if leaves != [] {
      var n := |leaves| - 1;
      SinglySends(s, env, asset, leaves[..n]);
      var front := PushSingly(s, env, asset, leaves[..n]);
      assert leaves == leaves[..n] + [leaves[n]];
      if !front.paused {
        OneSends(front.at, env, asset, leaves[n]);
        var last := PushOne(front.at, env, asset, leaves[n]);
        hide PushOne, PushSingly, Pauses;
        PausesJoins(env, front.visits, last.visits, last.paused);
        forall leaf | leaf in leaves && !last.paused
          ensures Carried(front.visits + last.visits, LeafId(asset, leaf))
        {
          CarriedJoins(front.visits, last.visits, LeafId(asset, leaf));
        }
        UnfoldSingly(s, env, asset, leaves);
      }
    }
  }

  lemma {:induction false} UnfoldSingly(s: Standing, env: Env, asset: nat, leaves: seq<nat>)
    requires leaves != [] && !PushSingly(s, env, asset, leaves[..|leaves| - 1]).paused
    ensures var front := PushSingly(s, env, asset, leaves[..|leaves| - 1]);
      var last := PushOne(front.at, env, asset, leaves[|leaves| - 1]);
      PushSingly(s, env, asset, leaves).visits == front.visits + last.visits
      && PushSingly(s, env, asset, leaves).paused == last.paused
  {
  }

  lemma {:induction false} OneSends(s: Standing, env: Env, asset: nat, leaf: nat)
    ensures Sends(env, PushOne(s, env, asset, leaf), asset, [leaf], [leaf])
  {
    var r := PushOne(s, env, asset, leaf);
    assert r.visits[0] in r.visits && Carries(r.visits[0], LeafId(asset, leaf));
  }

  lemma {:induction false} SendSends(s: Standing, env: Env, asset: nat, first: nat, level: nat, leaves: seq<nat>)
    requires leaves != []
    ensures Sends(env, SendBlock(s, env, asset, first, level, leaves), asset, leaves, leaves)
  {
    hide Deliver, Defer, Fail, PushSingly;
    var visit, r := Visit(asset, first, level, leaves), SendBlock(s, env, asset, first, level, leaves);
    assert r.visits[0] == visit && visit in r.visits;
    assert forall leaf :: leaf in leaves ==> Carries(visit, LeafId(asset, leaf));
    if ReplyTo(env, visit).Refused? && |leaves| > 1 {
      SinglySends(s, env, asset, leaves);
      var singly := PushSingly(s, env, asset, leaves);
      PausesJoins(env, [visit], singly.visits, singly.paused);
    }
  }

  lemma {:induction false} BlockSends(s: Standing, env: Env, asset: nat, first: nat, level: nat, plan: seq<nat>)
    ensures Sends(env, PushBlock(s, env, asset, first, level, plan), asset, plan,
                  InBlock(plan, first, first + Merkle.Pow2(level)))
    decreases level
  {
    hide InBlock, PushBlock, SendBlock;
    BlockIs(s, env, asset, first, level, plan);
    InBlockHolds(plan, first, first + Merkle.Pow2(level));
    var leaves := InBlock(plan, first, first + Merkle.Pow2(level));
    if leaves != [] {
      if level > 0 && !env.fits(asset, first, level, leaves) {
        BlockSends(s, env, asset, first, level - 1, leaves);
        var left := PushBlock(s, env, asset, first, level - 1, leaves);
        if !left.paused {
          BlockSends(left.at, env, asset, first + Merkle.Pow2(level - 1), level - 1, leaves);
          HalvesSend(s, env, asset, first, level, plan, leaves);
        }
      } else {
        SendSends(s, env, asset, first, level, leaves);
      }
    }
  }

  lemma {:induction false} HalvesSend(s: Standing, env: Env, asset: nat, first: nat, level: nat, plan: seq<nat>,
                                      leaves: seq<nat>)
    requires level > 0 && leaves == InBlock(plan, first, first + Merkle.Pow2(level))
    requires var half := Merkle.Pow2(level - 1);
      var left := PushBlock(s, env, asset, first, level - 1, leaves);
      var right := PushBlock(left.at, env, asset, first + half, level - 1, leaves);
      && !left.paused && Sends(env, left, asset, leaves, InBlock(leaves, first, first + half))
      && Sends(env, right, asset, leaves, InBlock(leaves, first + half, first + half + half))
    ensures var half := Merkle.Pow2(level - 1);
      var left := PushBlock(s, env, asset, first, level - 1, leaves);
      var right := PushBlock(left.at, env, asset, first + half, level - 1, leaves);
      && From(left.visits + right.visits, asset, plan) && Pauses(env, left.visits + right.visits, right.paused)
      && (!right.paused ==> forall leaf :: leaf in leaves ==> Carried(left.visits + right.visits, LeafId(asset, leaf)))
  {
    hide InBlock, PushBlock, Pauses;
    var half := Merkle.Pow2(level - 1);
    var left := PushBlock(s, env, asset, first, level - 1, leaves);
    var right := PushBlock(left.at, env, asset, first + half, level - 1, leaves);
    InBlockHolds(plan, first, first + Merkle.Pow2(level));
    InBlockHolds(leaves, first, first + half);
    InBlockHolds(leaves, first + half, first + half + half);
    PausesJoins(env, left.visits, right.visits, right.paused);
    forall leaf | leaf in leaves && !right.paused
      ensures Carried(left.visits + right.visits, LeafId(asset, leaf))
    {
      CarriedJoins(left.visits, right.visits, LeafId(asset, leaf));
    }
  }

  // ---- choosing ------------------------------------------------------------------------------------

  /** What is planned is exactly what is worth it. */
  lemma {:induction false} ChosenIsWorth(s: Standing, env: Env, asset: nat, candidates: seq<nat>, leaf: nat)
    ensures leaf in Choose(s, env, asset, candidates).plan <==> leaf in candidates && env.worth(LeafId(asset, leaf))
    decreases |candidates|
  {
    if candidates != [] {
      var n := |candidates| - 1;
      assert candidates == candidates[..n] + [candidates[n]];
      ChosenIsWorth(s, env, asset, candidates[..n], leaf);
    }
  }

  predicate LeftOut(env: Env, b: BlockPlan, id: LeafId) {
    id.asset == b.asset && id.leaf in b.candidates && !env.worth(id)
  }

  /** Leaving a leaf for self-claim ends its attempts and changes nothing else. */
  ghost predicate Leaves(before: Lot, after: Lot) {
    after.permanent && after.claimed == before.claimed && after.attempts == before.attempts
  }

  lemma {:induction false} ChosenLot(s: Standing, env: Env, b: BlockPlan, id: LeafId)
    ensures var t := Choose(s, env, b.asset, b.candidates).at;
      if LeftOut(env, b, id) then Leaves(LotOf(s, id), LotOf(t, id)) else LotOf(t, id) == LotOf(s, id)
    decreases |b.candidates|
  {
    if b.candidates != [] {
      var n := |b.candidates| - 1;
      assert b.candidates == b.candidates[..n] + [b.candidates[n]];
      ChosenLot(s, env, b.(candidates := b.candidates[..n]), id);
    }
  }

  // ---- a step --------------------------------------------------------------------------------------

  /** How many of the blocks a step gets to. */
  ghost function Reached(s: Standing, env: Env, blocks: seq<BlockPlan>): (n: nat)
    ensures n <= |blocks|
    decreases |blocks|
  {
    if blocks == [] then 0
    else
      var n := |blocks| - 1;
      if PushBlocks(s, env, blocks[..n]).paused then Reached(s, env, blocks[..n]) else |blocks|
  }

  ghost predicate LeftBy(env: Env, blocks: seq<BlockPlan>, id: LeafId) {
    exists i :: 0 <= i < |blocks| && LeftOut(env, blocks[i], id)
  }

  ghost predicate AllWorth(env: Env, visits: seq<Visit>) {
    forall v, leaf :: v in visits && leaf in v.leaves ==> env.worth(LeafId(v.asset, leaf))
  }

  /** A leaf not worth pushing is left, and any other is as its transactions' replies make it. */
  ghost predicate Fated(s: Standing, t: Standing, env: Env, blocks: seq<BlockPlan>, visits: seq<Visit>, id: LeafId) {
    if LeftBy(env, blocks, id) then Leaves(LotOf(s, id), LotOf(t, id))
    else LotOf(t, id) == MeetAll(LotOf(s, id), env, visits, id)
  }

  lemma {:induction false} PlanSends(s: Standing, env: Env, b: BlockPlan)
    requires forall leaf :: leaf in b.candidates ==> b.first <= leaf < b.first + PUSH_BLOCK_SIZE
    ensures var r := PushPlan(s, env, b);
      && AllWorth(env, r.visits) && Pauses(env, r.visits, r.paused)
      && (forall v :: v in r.visits ==> v.asset == b.asset && forall leaf :: leaf in v.leaves ==> leaf in b.candidates)
      && (!r.paused ==> forall leaf :: leaf in b.candidates && env.worth(LeafId(b.asset, leaf)) ==>
                          Carried(r.visits, LeafId(b.asset, leaf)))
  {
    hide Choose, PushBlock, InBlock, Pauses;
    var chosen := Choose(s, env, b.asset, b.candidates);
    forall leaf
      ensures leaf in chosen.plan <==> leaf in b.candidates && env.worth(LeafId(b.asset, leaf))
    {
      ChosenIsWorth(s, env, b.asset, b.candidates, leaf);
    }
    if chosen.plan != [] {
      BlockSends(chosen.at, env, b.asset, b.first, PUSH_BLOCK_LEVEL, chosen.plan);
      assert Merkle.Pow2(1) == 2 && Merkle.Pow2(PUSH_BLOCK_LEVEL) == PUSH_BLOCK_SIZE;
      InBlockHolds(chosen.plan, b.first, b.first + Merkle.Pow2(PUSH_BLOCK_LEVEL));
    } else {
      NothingPauses(env);
    }
  }

  lemma {:induction false} NothingPauses(env: Env)
    ensures Pauses(env, [], false)
  {
  }

  lemma {:induction false} PlanLot(s: Standing, env: Env, b: BlockPlan, id: LeafId)
    requires forall leaf :: leaf in b.candidates ==> b.first <= leaf < b.first + PUSH_BLOCK_SIZE
    ensures Fated(s, PushPlan(s, env, b).at, env, [b], PushPlan(s, env, b).visits, id)
  {
    hide Choose, PushBlock, LotOf, MeetAll;
    var chosen, r := Choose(s, env, b.asset, b.candidates), PushPlan(s, env, b);
    ChosenLot(s, env, b, id);
    PlanSends(s, env, b);
    LeftByOne(env, b, id);
    if chosen.plan != [] {
      BlockLot(chosen.at, env, b.asset, b.first, PUSH_BLOCK_LEVEL, chosen.plan, id);
    } else {
      NothingMet(LotOf(s, id), env, id);
    }
    if LeftOut(env, b, id) && chosen.plan != [] {
      UnworthyNotCarried(env, r.visits, id);
      MeetNone(LotOf(chosen.at, id), env, r.visits, id);
    }
  }

  lemma {:induction false} NothingMet(lot: Lot, env: Env, id: LeafId)
    ensures MeetAll(lot, env, [], id) == lot
  {
  }

  lemma {:induction false} LeftByOne(env: Env, b: BlockPlan, id: LeafId)
    ensures LeftBy(env, [b], id) <==> LeftOut(env, b, id)
  {
    if LeftOut(env, b, id) {
      assert LeftOut(env, [b][0], id);
    }
  }

  lemma {:induction false} UnworthyNotCarried(env: Env, visits: seq<Visit>, id: LeafId)
    requires AllWorth(env, visits) && !env.worth(id)
    ensures forall v :: v in visits ==> !Carries(v, id)
  {
    forall v | v in visits
      ensures !Carries(v, id)
    {
      assert id == LeafId(id.asset, id.leaf);
    }
  }

  /** One block after others. */
  lemma {:induction false} FatedOn(s: Standing, t: Standing, u: Standing, env: Env, blocks: seq<BlockPlan>,
                                   b: BlockPlan, visits: seq<Visit>, more: seq<Visit>, id: LeafId)
    requires Fated(s, t, env, blocks, visits, id) && Fated(t, u, env, [b], more, id)
    requires AllWorth(env, visits) && AllWorth(env, more)
    ensures Fated(s, u, env, blocks + [b], visits + more, id)
  {
    hide LotOf, MeetAll, Meet, LeftOut;
    LeftByOne(env, b, id);
    LeftByAppend(env, blocks, b, id);
    MeetJoins(LotOf(s, id), env, visits, more, id);
    if LeftBy(env, blocks + [b], id) {
      LeftIsUnworthy(env, blocks + [b], id);
      UnworthyNotCarried(env, visits, id);
      UnworthyNotCarried(env, more, id);
      MeetNone(LotOf(s, id), env, visits, id);
      MeetNone(LotOf(t, id), env, more, id);
    }
  }

  lemma {:induction false} LeftByAppend(env: Env, blocks: seq<BlockPlan>, b: BlockPlan, id: LeafId)
    ensures LeftBy(env, blocks + [b], id) <==> LeftBy(env, blocks, id) || LeftOut(env, b, id)
  {
    hide LeftOut;
    var all := blocks + [b];
    if LeftBy(env, blocks, id) {
      var i :| 0 <= i < |blocks| && LeftOut(env, blocks[i], id);
      assert LeftOut(env, all[i], id);
    }
    if LeftOut(env, b, id) {
      assert LeftOut(env, all[|blocks|], id);
    }
    if LeftBy(env, all, id) {
      var i :| 0 <= i < |all| && LeftOut(env, all[i], id);
      assert i < |blocks| ==> LeftOut(env, blocks[i], id);
    }
  }

  lemma {:induction false} LeftIsUnworthy(env: Env, blocks: seq<BlockPlan>, id: LeafId)
    requires LeftBy(env, blocks, id)
    ensures !env.worth(id)
  {
  }

  ghost predicate InPlace(blocks: seq<BlockPlan>) {
    forall i, leaf :: 0 <= i < |blocks| && leaf in blocks[i].candidates ==>
      blocks[i].first <= leaf < blocks[i].first + PUSH_BLOCK_SIZE
  }

  ghost predicate WorthCarried(env: Env, blocks: seq<BlockPlan>, visits: seq<Visit>) {
    forall id :: Among(blocks, id) && env.worth(id) ==> Carried(visits, id)
  }

  /** The last block's part, when its turn comes. */
  lemma {:induction false} LastBlock(s: Standing, env: Env, blocks: seq<BlockPlan>)
    requires blocks != []
    ensures var n := |blocks| - 1;
      var front, r := PushBlocks(s, env, blocks[..n]), PushBlocks(s, env, blocks);
      var last := PushPlan(front.at, env, blocks[n]);
      if front.paused then r == front && Reached(s, env, blocks) == Reached(s, env, blocks[..n])
      else
        r.at == last.at && r.visits == front.visits + last.visits && r.paused == last.paused
        && Reached(s, env, blocks) == |blocks|
  {
    hide PushPlan;
  }

  lemma {:induction false} FrontInPlace(blocks: seq<BlockPlan>)
    requires InPlace(blocks) && blocks != []
    ensures var n := |blocks| - 1;
      InPlace(blocks[..n]) && blocks == blocks[..n] + [blocks[n]]
      && forall leaf :: leaf in blocks[n].candidates ==>
           blocks[n].first <= leaf < blocks[n].first + PUSH_BLOCK_SIZE
  {
    assert forall i :: 0 <= i < |blocks| - 1 ==> blocks[..|blocks| - 1][i] == blocks[i];
  }

  ghost predicate Sent(env: Env, r: Outcome, blocks: seq<BlockPlan>) {
    AllWorth(env, r.visits) && Pauses(env, r.visits, r.paused) && (!r.paused ==> WorthCarried(env, blocks, r.visits))
    && forall id :: Carried(r.visits, id) ==> Among(blocks, id)
  }

  /** One block after others that did not pause. */
  lemma {:induction false} SentOn(env: Env, r: Outcome, blocks: seq<BlockPlan>, front: Outcome, last: Outcome,
                                  b: BlockPlan)
    requires Sent(env, front, blocks) && Sent(env, last, [b]) && !front.paused
    requires r.visits == front.visits + last.visits && r.paused == last.paused
    ensures Sent(env, r, blocks + [b])
  {
    hide Pauses, Among, Carried;
    PausesJoins(env, front.visits, last.visits, last.paused);
    forall id
      ensures Among(blocks + [b], id) <==> Among(blocks, id) || Among([b], id)
      ensures Carried(r.visits, id) <==> Carried(front.visits, id) || Carried(last.visits, id)
    {
      AmongAppend(blocks, b, id);
      AmongAppend([], b, id);
      assert [] + [b] == [b];
      NotAmongNone(id);
      CarriedJoins(front.visits, last.visits, id);
    }
  }

  lemma {:induction false} NotAmongNone(id: LeafId)
    ensures !Among([], id) && !Carried([], id)
  {
  }

  lemma {:induction false} PlanSent(s: Standing, env: Env, b: BlockPlan)
    requires forall leaf :: leaf in b.candidates ==> b.first <= leaf < b.first + PUSH_BLOCK_SIZE
    ensures Sent(env, PushPlan(s, env, b), [b])
  {
    PlanSends(s, env, b);
    hide PushPlan, Pauses, AllWorth;
    forall id
      ensures Among([b], id) <==> b.asset == id.asset && id.leaf in b.candidates
    {
      AmongAppend([], b, id);
      assert [] + [b] == [b];
      NotAmongNone(id);
      assert id == LeafId(id.asset, id.leaf);
    }
  }

  lemma {:induction false} BlocksSent(s: Standing, env: Env, blocks: seq<BlockPlan>)
    requires InPlace(blocks)
    ensures Sent(env, PushBlocks(s, env, blocks), blocks)
    ensures !PushBlocks(s, env, blocks).paused ==> Reached(s, env, blocks) == |blocks|
    decreases |blocks|
  {
    if blocks == [] {
      NothingPauses(env);
      NoneCarried();
    } else {
      hide PushPlan, PushBlocks, Sent, Reached, InPlace;
      var n := |blocks| - 1;
      FrontInPlace(blocks);
      LastBlock(s, env, blocks);
      BlocksSent(s, env, blocks[..n]);
      var front := PushBlocks(s, env, blocks[..n]);
      if front.paused {
        SentSoFar(env, front, blocks[..n], blocks[n]);
      } else {
        PlanSent(front.at, env, blocks[n]);
        SentOn(env, PushBlocks(s, env, blocks), blocks[..n], front, PushPlan(front.at, env, blocks[n]), blocks[n]);
      }
    }
  }

  lemma {:induction false} NoneCarried()
    ensures forall id :: !Among([], id) && !Carried([], id)
  {
  }

  lemma {:induction false} SentSoFar(env: Env, front: Outcome, blocks: seq<BlockPlan>, b: BlockPlan)
    requires Sent(env, front, blocks) && front.paused
    ensures Sent(env, front, blocks + [b])
  {
    hide Among, Carried;
    forall id | Carried(front.visits, id)
      ensures Among(blocks + [b], id)
    {
      AmongAppend(blocks, b, id);
    }
  }

  ghost predicate FatedIn(s: Standing, r: Outcome, env: Env, blocks: seq<BlockPlan>, n: int, id: LeafId) {
    0 <= n <= |blocks| && Fated(s, r.at, env, blocks[..n], r.visits, id)
  }

  lemma {:induction false} BlocksLot(s: Standing, env: Env, blocks: seq<BlockPlan>, id: LeafId)
    requires InPlace(blocks)
    ensures FatedIn(s, PushBlocks(s, env, blocks), env, blocks, Reached(s, env, blocks), id)
    decreases |blocks|
  {
    if blocks == [] {
      NothingMet(LotOf(s, id), env, id);
    } else {
      hide PushPlan, Fated, Sent, PushBlocks, InPlace, Reached;
      var n := |blocks| - 1;
      FrontInPlace(blocks);
      LastBlock(s, env, blocks);
      BlocksLot(s, env, blocks[..n], id);
      BlocksSent(s, env, blocks[..n]);
      var front := PushBlocks(s, env, blocks[..n]);
      if front.paused {
        var reached := Reached(s, env, blocks);
        assert blocks[..n][..reached] == blocks[..reached];
      } else {
        assert blocks[..n][..n] == blocks[..n] && blocks[..|blocks|] == blocks;
        PlanLot(front.at, env, blocks[n], id);
        PlanSent(front.at, env, blocks[n]);
        var last := PushPlan(front.at, env, blocks[n]);
        SentAreWorth(env, front, blocks[..n]);
        SentAreWorth(env, last, [blocks[n]]);
        FatedOn(s, front.at, last.at, env, blocks[..n], blocks[n], front.visits, last.visits, id);
      }
    }
  }

  lemma {:induction false} SentAreWorth(env: Env, r: Outcome, blocks: seq<BlockPlan>)
    requires Sent(env, r, blocks)
    ensures AllWorth(env, r.visits)
  {
  }

  // ---- gathering -----------------------------------------------------------------------------------

  /** A leaf whose turn it is: not claimed, not left for good, and not waiting. */
  predicate Due(s: Standing, id: LeafId, now: int) {
    OpenLeaf(s, id) && !BackingOff(s, id, now)
  }

  lemma {:induction false} CandidatesAre(s: Standing, now: int, asset: nat, first: nat, end: nat, leaf: nat)
    ensures leaf in Candidates(s, now, asset, first, end) <==> first <= leaf < end && Due(s, LeafId(asset, leaf), now)
    decreases end
  {
    if end > first {
      CandidatesAre(s, now, asset, first, end - 1, leaf);
    }
  }

  function Queued(blocks: seq<BlockPlan>): nat
    decreases |blocks|
  {
    if blocks == [] then 0 else Queued(blocks[..|blocks| - 1]) + |blocks[|blocks| - 1].candidates|
  }

  lemma {:induction false} CandidatesFew(s: Standing, now: int, asset: nat, first: nat, end: nat)
    ensures |Candidates(s, now, asset, first, end)| <= if end > first then end - first else 0
    decreases end
  {
    if end > first {
      CandidatesFew(s, now, asset, first, end - 1);
    }
  }

  /** What has been gathered: leaves that are due, no more than a block past the limit, and every due leaf that was
      looked at unless the limit is reached. */
  ghost predicate GatheredWell(s: Standing, now: int, maxPushes: nat, g: Gathered) {
    g.queued == Queued(g.blocks) < maxPushes + PUSH_BLOCK_SIZE && InPlace(g.blocks)
    && forall id :: Among(g.blocks, id) ==> Due(s, id, now)
  }

  /** Nothing gathered is dropped, and the due leaves of `first` to `end` are added unless the limit is reached. */
  ghost predicate TakesUp(s: Standing, now: int, view: AssetView, maxPushes: nat, g: Gathered, r: Gathered, first: nat,
                         end: nat)
  {
    GatheredWell(s, now, maxPushes, r) && g.queued <= r.queued
    && (forall id :: Among(g.blocks, id) ==> Among(r.blocks, id))
    && forall leaf: nat :: first <= leaf < end && leaf < view.leafCount && Due(s, LeafId(view.asset, leaf), now) ==>
         Among(r.blocks, LeafId(view.asset, leaf)) || r.queued >= maxPushes
  }

  lemma {:induction false} TakesUpOn(s: Standing, now: int, view: AssetView, maxPushes: nat, g: Gathered, r: Gathered,
                                    u: Gathered, mid: nat, end: nat)
    requires TakesUp(s, now, view, maxPushes, g, r, 0, mid) && TakesUp(s, now, view, maxPushes, r, u, mid, end)
    ensures TakesUp(s, now, view, maxPushes, g, u, 0, end)
  {
    hide Among, Due, GatheredWell;
  }

  lemma {:induction false} TakesUpNothing(s: Standing, now: int, view: AssetView, maxPushes: nat, g: Gathered)
    requires GatheredWell(s, now, maxPushes, g)
    ensures TakesUp(s, now, view, maxPushes, g, g, 0, 0)
  {
    hide Among, Due, GatheredWell;
  }

  lemma {:induction false} BlockGathers(s: Standing, now: int, view: AssetView, maxPushes: nat, g: Gathered, k: nat)
    requires GatheredWell(s, now, maxPushes, g)
    ensures TakesUp(s, now, view, maxPushes, g, GatherBlock(s, now, view, maxPushes, g, k), PUSH_BLOCK_SIZE * k,
                   PUSH_BLOCK_SIZE * (k + 1))
  {
    hide Due, Candidates, Waiting, Among;
    var first := PUSH_BLOCK_SIZE * k;
    var end := Merkle.Min(first + PUSH_BLOCK_SIZE, view.leafCount);
    var candidates := Candidates(s, now, view.asset, first, end);
    CandidatesFew(s, now, view.asset, first, end);
    forall leaf: nat
      ensures leaf in candidates <==> first <= leaf < end && Due(s, LeafId(view.asset, leaf), now)
    {
      CandidatesAre(s, now, view.asset, first, end, leaf);
    }
    var b := BlockPlan(view.asset, first, candidates);
    forall id
      ensures Among(g.blocks + [b], id) <==> Among(g.blocks, id) || (b.asset == id.asset && id.leaf in b.candidates)
    {
      AmongAppend(g.blocks, b, id);
    }
    assert (g.blocks + [b])[..|g.blocks|] == g.blocks;
    assert forall id: LeafId :: id == LeafId(id.asset, id.leaf);
  }

  lemma {:induction false} OneMoreBlock(s: Standing, now: int, view: AssetView, maxPushes: nat, g: Gathered,
                                        front: Gathered, k: nat)
    requires TakesUp(s, now, view, maxPushes, g, front, 0, PUSH_BLOCK_SIZE * k)
    ensures TakesUp(s, now, view, maxPushes, g, GatherBlock(s, now, view, maxPushes, front, k), 0,
                    PUSH_BLOCK_SIZE * (k + 1))
  {
    hide GatherBlock, TakesUp, GatheredWell;
    TakenUpWell(s, now, view, maxPushes, g, front, 0, PUSH_BLOCK_SIZE * k);
    BlockGathers(s, now, view, maxPushes, front, k);
    TakesUpOn(s, now, view, maxPushes, g, front, GatherBlock(s, now, view, maxPushes, front, k), PUSH_BLOCK_SIZE * k,
              PUSH_BLOCK_SIZE * (k + 1));
  }

  lemma {:induction false} BlocksGather(s: Standing, now: int, view: AssetView, maxPushes: nat, g: Gathered, k: nat)
    requires GatheredWell(s, now, maxPushes, g)
    ensures TakesUp(s, now, view, maxPushes, g, GatherBlocks(s, now, view, maxPushes, g, k), 0, PUSH_BLOCK_SIZE * k)
    decreases k
  {
    hide GatherBlock, TakesUp, GatheredWell;
    if k == 0 {
      TakesUpNothing(s, now, view, maxPushes, g);
    } else {
      BlocksGather(s, now, view, maxPushes, g, k - 1);
      OneMoreBlock(s, now, view, maxPushes, g, GatherBlocks(s, now, view, maxPushes, g, k - 1), k - 1);
    }
  }

  lemma {:induction false} TakenUpWell(s: Standing, now: int, view: AssetView, maxPushes: nat, g: Gathered, r: Gathered,
                                       first: nat, end: nat)
    requires TakesUp(s, now, view, maxPushes, g, r, first, end)
    ensures GatheredWell(s, now, maxPushes, r)
  {
  }

  /** Every due leaf is gathered, unless as many as a step may push are. */
  lemma {:induction false} GathersDue(s: Standing, now: int, views: seq<AssetView>, maxPushes: nat)
    ensures var g := Gather(s, now, views, maxPushes);
      && GatheredWell(s, now, maxPushes, g)
      && forall id :: Listed(id, views) && Due(s, id, now) ==> Among(g.blocks, id) || g.queued >= maxPushes
    decreases |views|
  {
    if views == [] {
      assert forall id :: !Among([], id);
    } else {
      hide GatherBlocks, GatheredWell, Among, Due;
      var n := |views| - 1;
      GathersDue(s, now, views[..n], maxPushes);
      var front := Gather(s, now, views[..n], maxPushes);
      BlocksGather(s, now, views[n], maxPushes, front, BlockCount(views[n].leafCount));
      var g := Gather(s, now, views, maxPushes);
      forall id | Listed(id, views) && Due(s, id, now)
        ensures Among(g.blocks, id) || g.queued >= maxPushes
      {
        assert id == LeafId(id.asset, id.leaf);
        ListedAppend(views, id);
      }
    }
  }

  lemma {:induction false} ListedAppend(views: seq<AssetView>, id: LeafId)
    requires views != []
    ensures var n := |views| - 1;
      Listed(id, views) <==> Listed(id, views[..n]) || (views[n].asset == id.asset && id.leaf < views[n].leafCount)
  {
    var n := |views| - 1;
    forall j | 0 <= j < n
      ensures views[..n][j] == views[j]
    {
    }
  }

  // ---- the whole step ------------------------------------------------------------------------------

  /** What a paying step does, leaf by leaf:
      - every leaf sent is worth pushing and was due, and the step reports what was sent and what landed;
      - what is gathered is every due leaf, or as many as a step may push;
      - a step that nothing paused has sent every gathered leaf worth it, and it pauses only on trouble on the way;
      - a leaf that is not worth pushing is left for self-claim once its block's turn comes, and nothing else is: any
        other leaf's record is what the replies to its own transactions make of it. */
  ghost predicate StepFates(s: Standing, env: Env, views: seq<AssetView>, maxPushes: nat, r: Outcome) {
    var g := Gather(s, env.now, views, maxPushes);
    && Sent(env, r, g.blocks) && Counts(env, r) && GatheredWell(s, env.now, maxPushes, g)
    && (exists n :: (!r.paused ==> n == |g.blocks|) && EachFated(s, r, env, g.blocks, n))
    && forall id :: Listed(id, views) && Due(s, id, env.now) ==> Among(g.blocks, id) || g.queued >= maxPushes
  }

  ghost predicate EachFated(s: Standing, r: Outcome, env: Env, blocks: seq<BlockPlan>, n: int) {
    forall id :: FatedIn(s, r, env, blocks, n, id)
  }

  lemma {:induction false} EveryStepFates(s: Standing, env: Env, views: seq<AssetView>, maxPushes: nat)
    ensures StepFates(s, env, views, maxPushes, Step(s, env, views, maxPushes))
  {
    hide Gather, PushBlocks, FatedIn, Among, Due, Sent, Counts, Listed, GatheredWell;
    var g, r := Gather(s, env.now, views, maxPushes), Step(s, env, views, maxPushes);
    GathersDue(s, env.now, views, maxPushes);
    GatheredInPlace(s, env.now, maxPushes, g);
    BlocksSent(s, env, g.blocks);
    BlocksCount(s, env, g.blocks);
    var n := Reached(s, env, g.blocks);
    forall id
      ensures FatedIn(s, r, env, g.blocks, n, id)
    {
      BlocksLot(s, env, g.blocks, id);
    }
    assert EachFated(s, r, env, g.blocks, n);
  }

  lemma {:induction false} GatheredInPlace(s: Standing, now: int, maxPushes: nat, g: Gathered)
    requires GatheredWell(s, now, maxPushes, g)
    ensures InPlace(g.blocks)
  {
  }

  /** So a leaf that was worth pushing is left for good only by a refusal: of it alone, for a reason no retry can mend
      or for the last time allowed. */
  lemma {:induction false} WorthIsNotLeft(s: Standing, env: Env, views: seq<AssetView>, maxPushes: nat, id: LeafId)
    requires env.worth(id) && !Permanent(s, id) && Permanent(Step(s, env, views, maxPushes).at, id)
    ensures exists v :: v in Step(s, env, views, maxPushes).visits && v.asset == id.asset && v.leaves == [id.leaf]
                        && ReplyTo(env, v).Refused?
  {
    EveryStepFates(s, env, views, maxPushes);
    var g, r := Gather(s, env.now, views, maxPushes), Step(s, env, views, maxPushes);
    hide Gather, Step, Meet, MeetAll, Sent, GatheredWell, Due, Among, Listed;
    var n :| (!r.paused ==> n == |g.blocks|) && EachFated(s, r, env, g.blocks, n);
    assert FatedIn(s, r, env, g.blocks, n, id);
    if LeftBy(env, g.blocks[..n], id) {
      LeftIsUnworthy(env, g.blocks[..n], id);
    } else {
      EndedByRefusal(LotOf(s, id), env, r.visits, id);
    }
  }

  /** When a step is neither paused nor full, no leaf that is due goes without: the worthy are sent, the others left. */
  lemma {:induction false} DueIsDealtWith(s: Standing, env: Env, views: seq<AssetView>, maxPushes: nat, id: LeafId)
    requires Listed(id, views) && Due(s, id, env.now) && !Step(s, env, views, maxPushes).paused
    requires Gather(s, env.now, views, maxPushes).queued < maxPushes
    ensures var r := Step(s, env, views, maxPushes);
      if env.worth(id) then Carried(r.visits, id) && LotOf(r.at, id) == MeetAll(LotOf(s, id), env, r.visits, id)
      else !Carried(r.visits, id) && Leaves(LotOf(s, id), LotOf(r.at, id))
  {
    EveryStepFates(s, env, views, maxPushes);
    var g, r := Gather(s, env.now, views, maxPushes), Step(s, env, views, maxPushes);
    hide Gather, Step, Meet, MeetAll, LotOf, GatheredWell, Due, Listed, Pauses;
    assert EachFated(s, r, env, g.blocks, |g.blocks|) && g.blocks[..|g.blocks|] == g.blocks;
    assert FatedIn(s, r, env, g.blocks, |g.blocks|, id);
    if env.worth(id) {
      if LeftBy(env, g.blocks, id) {
        LeftIsUnworthy(env, g.blocks, id);
      }
    } else {
      UnworthyNotCarried(env, r.visits, id);
      var i :| 0 <= i < |g.blocks| && g.blocks[i].asset == id.asset && id.leaf in g.blocks[i].candidates;
      assert LeftOut(env, g.blocks[i], id);
    }
  }

  lemma {:induction false} EndedByRefusal(lot: Lot, env: Env, visits: seq<Visit>, id: LeafId)
    requires !lot.permanent && MeetAll(lot, env, visits, id).permanent
    ensures exists v :: v in visits && v.asset == id.asset && v.leaves == [id.leaf] && ReplyTo(env, v).Refused?
    decreases |visits|
  {
    var n := |visits| - 1;
    if MeetAll(lot, env, visits[..n], id).permanent {
      EndedByRefusal(lot, env, visits[..n], id);
      var v :| v in visits[..n] && v.asset == id.asset && v.leaves == [id.leaf] && ReplyTo(env, v).Refused?;
      assert v in visits;
    } else {
      var v := visits[n];
      assert v in visits && |v.leaves| <= 1 && id.leaf in v.leaves;
      assert v.leaves == [id.leaf];
    }
  }

  // ---- what a step reports ---------------------------------------------------------------------------

  /** The payouts of the transactions that landed. */
  function Landed(env: Env, visits: seq<Visit>): nat
    decreases |visits|
  {
    if visits == [] then 0
    else
      var n := |visits| - 1;
      Landed(env, visits[..n]) + if ReplyTo(env, visits[n]).Sent? then |visits[n].leaves| else 0
  }

  ghost predicate Counts(env: Env, r: Outcome) {
    r.pushed == Landed(env, r.visits) && r.transactions == |r.visits|
  }

  lemma {:induction false} LandedJoins(env: Env, a: seq<Visit>, b: seq<Visit>)
    ensures Landed(env, a + b) == Landed(env, a) + Landed(env, b)
    decreases |b|
  {
    if b == [] {
      assert a + b == a;
    } else {
      var n := |b| - 1;
      LandedJoins(env, a, b[..n]);
      assert (a + b)[..|a| + n] == a + b[..n];
    }
  }

  lemma {:induction false} OneCounts(s: Standing, env: Env, asset: nat, leaf: nat)
    ensures Counts(env, PushOne(s, env, asset, leaf))
  {
    hide Deliver, Defer, Fail;
    assert [Visit(asset, leaf, 0, [leaf])][..0] == [];
    assert Landed(env, []) == 0;
  }

  lemma {:induction false} SinglyCounts(s: Standing, env: Env, asset: nat, leaves: seq<nat>)
    ensures Counts(env, PushSingly(s, env, asset, leaves))
    decreases |leaves|
  {
    if leaves != [] {
      hide PushOne;
      var n := |leaves| - 1;
      SinglyCounts(s, env, asset, leaves[..n]);
      var front := PushSingly(s, env, asset, leaves[..n]);
      OneCounts(front.at, env, asset, leaves[n]);
      LandedJoins(env, front.visits, PushOne(front.at, env, asset, leaves[n]).visits);
    }
  }

  lemma {:induction false} SendCounts(s: Standing, env: Env, asset: nat, first: nat, level: nat, leaves: seq<nat>)
    requires leaves != []
    ensures Counts(env, SendBlock(s, env, asset, first, level, leaves))
  {
    hide Deliver, Defer, Fail, PushSingly;
    var visit, singly := Visit(asset, first, level, leaves), PushSingly(s, env, asset, leaves);
    assert [visit][..0] == [];
    assert Landed(env, []) == 0;
    SinglyCounts(s, env, asset, leaves);
    LandedJoins(env, [visit], singly.visits);
  }

  lemma {:induction false} BlockCounts(s: Standing, env: Env, asset: nat, first: nat, level: nat, plan: seq<nat>)
    ensures Counts(env, PushBlock(s, env, asset, first, level, plan))
    decreases level
  {
    hide InBlock, PushBlock, SendBlock;
    BlockIs(s, env, asset, first, level, plan);
    var leaves := InBlock(plan, first, first + Merkle.Pow2(level));
    if leaves != [] {
      if level > 0 && !env.fits(asset, first, level, leaves) {
        BlockCounts(s, env, asset, first, level - 1, leaves);
        var left := PushBlock(s, env, asset, first, level - 1, leaves);
        BlockCounts(left.at, env, asset, first + Merkle.Pow2(level - 1), level - 1, leaves);
        LandedJoins(env, left.visits,
                    PushBlock(left.at, env, asset, first + Merkle.Pow2(level - 1), level - 1, leaves).visits);
      } else {
        SendCounts(s, env, asset, first, level, leaves);
      }
    }
  }

  /** A step reports the payouts that landed and the transactions it sent. */
  lemma {:induction false} BlocksCount(s: Standing, env: Env, blocks: seq<BlockPlan>)
    ensures Counts(env, PushBlocks(s, env, blocks))
    decreases |blocks|
  {
    if blocks != [] {
      hide PushBlock, Choose;
      var n := |blocks| - 1;
      BlocksCount(s, env, blocks[..n]);
      var front := PushBlocks(s, env, blocks[..n]);
      var chosen := Choose(front.at, env, blocks[n].asset, blocks[n].candidates);
      BlockCounts(chosen.at, env, blocks[n].asset, blocks[n].first, PUSH_BLOCK_LEVEL, chosen.plan);
      LandedJoins(env, front.visits, PushPlan(front.at, env, blocks[n]).visits);
    }
  }

  /** Waits double from half a minute and stop growing at six hours. */
  lemma {:induction false} BackoffDoubles(attempts: nat)
    ensures 30 <= Backoff(attempts) <= Backoff(attempts + 1) <= 21_600
    ensures attempts >= 1 ==> Backoff(attempts + 1) == Merkle.Min(2 * Backoff(attempts), 21_600)
  {
    assert Merkle.Pow2(1) == 2 && Merkle.Pow2(2) == 4 && Merkle.Pow2(3) == 8 && Merkle.Pow2(4) == 16;
    assert Merkle.Pow2(5) == 32 && Merkle.Pow2(6) == 64 && Merkle.Pow2(7) == 128 && Merkle.Pow2(8) == 256;
    assert Merkle.Pow2(9) == 512;
    if attempts <= 1 {
    } else if attempts <= 5 {
    } else if attempts <= 11 {
    }
  }
}
