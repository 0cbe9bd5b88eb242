/** What the keeper's bookkeeping keeps over every step: its reserves and its tokens. */
module EngineInvariants {
  import opened Terms
  import opened Ledgers
  import opened Engine

  // ---- the reserve invariant -----------------------------------------------------------------

  function Reserves(paying: seq<ActiveRound>): nat
    decreases |paying|
  {
    if paying == [] then 0 else Reserves(paying[..|paying| - 1]) + paying[|paying| - 1].reserve
  }

  function CollectingReserve(round: Option<ActiveRound>): nat {
    if round.Some? then round.value.reserve else 0
  }

  ghost predicate DistinctRounds(paying: seq<ActiveRound>) {
    forall i, j :: 0 <= i < j < |paying| ==> paying[i].roundId != paying[j].roundId
  }

  ghost predicate NotPaying(paying: seq<ActiveRound>, roundId: nat) {
    forall i :: 0 <= i < |paying| ==> paying[i].roundId != roundId
  }

  /** The operations bucket is exactly the reserves still outstanding. */
  ghost predicate ReserveInv(s: State) {
    s.ledger.NonNegative() && s.ledger.operations == Reserves(s.paying) + CollectingReserve(s.round)
    && DistinctRounds(s.paying) && (s.round.Some? ==> NotPaying(s.paying, s.round.value.roundId))
  }

  lemma {:induction false} ReservesAppend(paying: seq<ActiveRound>, round: ActiveRound)
    ensures Reserves(paying + [round]) == Reserves(paying) + round.reserve
  {
    assert (paying + [round])[..|paying|] == paying;
  }

  lemma {:induction false} ReservesPart(paying: seq<ActiveRound>, at: nat)
    requires at < |paying|
    ensures paying[at].reserve <= Reserves(paying)
    decreases |paying|
  {
    if at < |paying| - 1 {
      ReservesPart(paying[..|paying| - 1], at);
    }
  }

  lemma {:induction false} ReservesUpdate(paying: seq<ActiveRound>, at: nat, round: ActiveRound)
    requires at < |paying| && round.reserve == paying[at].reserve
    ensures Reserves(paying[at := round]) == Reserves(paying)
    decreases |paying|
  {
    var n := |paying| - 1;
    if at < n {
      ReservesUpdate(paying[..n], at, round);
      assert paying[at := round][..n] == paying[..n][at := round];
    } else {
      assert paying[at := round][..n] == paying[..n];
    }
  }

  /** Dropping a round by its id drops exactly that round. */
  lemma {:induction false} WithoutDrops(paying: seq<ActiveRound>, roundId: nat)
    requires DistinctRounds(paying)
    ensures DistinctRounds(WithoutRound(paying, roundId)) && NotPaying(WithoutRound(paying, roundId), roundId)
    ensures forall r :: r in WithoutRound(paying, roundId) ==> r in paying
    ensures NotPaying(paying, roundId) ==> WithoutRound(paying, roundId) == paying
    decreases |paying|
  {
    if paying != [] {
      var n := |paying| - 1;
      WithoutDrops(paying[..n], roundId);
      var front := WithoutRound(paying[..n], roundId);
      forall i | 0 <= i < |front|
        ensures front[i].roundId != paying[n].roundId
      {
        assert front[i] in paying[..n];
      }
      assert paying == paying[..n] + [paying[n]];
      forall r | r in WithoutRound(paying, roundId)
        ensures r in paying
      {
      }
    }
  }

  lemma {:induction false} WithoutReserves(paying: seq<ActiveRound>, at: nat)
    requires DistinctRounds(paying) && at < |paying|
    ensures Reserves(WithoutRound(paying, paying[at].roundId)) == Reserves(paying) - paying[at].reserve
    decreases |paying|
  {
    var n := |paying| - 1;
    var front := paying[..n];
    if at == n {
      WithoutDrops(front, paying[at].roundId);
      assert front + [] == front;
    } else {
      assert front[at] == paying[at];
      WithoutReserves(front, at);
      ReservesAppend(WithoutRound(front, paying[at].roundId), paying[n]);
    }
  }

  lemma {:induction false} StillNotPaying(paying: seq<ActiveRound>, dropped: nat, roundId: nat)
    requires DistinctRounds(paying) && NotPaying(paying, roundId)
    ensures NotPaying(WithoutRound(paying, dropped), roundId)
  {
    WithoutDrops(paying, dropped);
    var rest := WithoutRound(paying, dropped);
    forall i | 0 <= i < |rest|
      ensures rest[i].roundId != roundId
    {
      assert rest[i] in paying;
    }
  }

  // ---- the token count --------------------------------------------------------------------------

  function ReservedIn(assets: seq<FundedAsset>, mint: nat): nat
    decreases |assets|
  {
    if assets == [] then 0
    else
      var last := assets[|assets| - 1];
      ReservedIn(assets[..|assets| - 1], mint)
      + if last.mint == mint && last.status == Pending then last.fundAmount else 0
  }

  function ReservedPaying(paying: seq<ActiveRound>, mint: nat): nat
    decreases |paying|
  {
    if paying == [] then 0
    else ReservedPaying(paying[..|paying| - 1], mint) + ReservedIn(paying[|paying| - 1].assets, mint)
  }

  /** The tokens of a mint this coin still answers for: its inventory and its pending reservations. */
  function Held(s: State, mint: nat): nat {
    AmountOf(s.inventory, mint) + ReservedPaying(s.paying, mint)
    + if s.round.Some? then ReservedIn(s.round.value.assets, mint) else 0
  }

  lemma {:induction false} ReservedUpdate(assets: seq<FundedAsset>, i: nat, asset: FundedAsset, mint: nat)
    requires i < |assets|
    ensures ReservedIn(assets[i := asset], mint)
         == ReservedIn(assets, mint)
            - (if assets[i].mint == mint && assets[i].status == Pending then assets[i].fundAmount else 0)
            + if asset.mint == mint && asset.status == Pending then asset.fundAmount else 0
    decreases |assets|
  {
    var n := |assets| - 1;
    if i < n {
      ReservedUpdate(assets[..n], i, asset, mint);
      assert assets[i := asset][..n] == assets[..n][i := asset];
    } else {
      assert assets[i := asset][..n] == assets[..n];
    }
  }

  lemma {:induction false} PayingUpdate(paying: seq<ActiveRound>, at: nat, round: ActiveRound, mint: nat)
    requires at < |paying|
    ensures ReservedPaying(paying[at := round], mint)
         == ReservedPaying(paying, mint) - ReservedIn(paying[at].assets, mint) + ReservedIn(round.assets, mint)
    decreases |paying|
  {
    var n := |paying| - 1;
    if at < n {
      PayingUpdate(paying[..n], at, round, mint);
      assert paying[at := round][..n] == paying[..n][at := round];
    } else {
      assert paying[at := round][..n] == paying[..n];
    }
  }

  lemma {:induction false} PayingAppend(paying: seq<ActiveRound>, round: ActiveRound, mint: nat)
    ensures ReservedPaying(paying + [round], mint) == ReservedPaying(paying, mint) + ReservedIn(round.assets, mint)
  {
    assert (paying + [round])[..|paying|] == paying;
  }

  lemma {:induction false} PayingWithout(paying: seq<ActiveRound>, at: nat, mint: nat)
    requires DistinctRounds(paying) && at < |paying|
    ensures ReservedPaying(WithoutRound(paying, paying[at].roundId), mint)
         == ReservedPaying(paying, mint) - ReservedIn(paying[at].assets, mint)
    decreases |paying|
  {
    var n := |paying| - 1;
    var front := paying[..n];
    if at == n {
      WithoutDrops(front, paying[at].roundId);
      assert front + [] == front;
    } else {
      assert front[at] == paying[at];
      PayingWithout(front, at, mint);
      PayingAppend(WithoutRound(front, paying[at].roundId), paying[n], mint);
    }
  }

  function HeldIn(assets: seq<FundedAsset>, inventory: map<nat, InventoryEntry>, mint: nat): nat {
    ReservedIn(assets, mint) + AmountOf(inventory, mint)
  }

  /** Releasing moves tokens back to inventory and loses none. */
  lemma {:induction false} ReleaseConserves(assets: seq<FundedAsset>, inventory: map<nat, InventoryEntry>,
                                            kept: set<nat>, pendingOnly: bool, n: nat, mint: nat)
    requires n <= |assets|
    ensures var r := ReleaseWhere(assets, inventory, kept, pendingOnly, n);
      HeldIn(r.assets, r.inventory, mint) == HeldIn(assets, inventory, mint)
      && forall i :: n <= i < |assets| ==> r.assets[i] == assets[i]
    decreases n
  {
    if n > 0 {
      ReleaseConserves(assets, inventory, kept, pendingOnly, n - 1, mint);
      var front := ReleaseWhere(assets, inventory, kept, pendingOnly, n - 1);
      ReleaseOneConserves(front, n - 1, Released, mint);
    }
  }

  lemma {:induction false} ReleaseOneConserves(r: Reservation, i: nat, status: AssetStatus, mint: nat)
    requires i < |r.assets| && status != Pending
    ensures HeldIn(ReleaseOne(r, i, status).assets, ReleaseOne(r, i, status).inventory, mint)
         == HeldIn(r.assets, r.inventory, mint)
  {
    ReservedUpdate(r.assets, i, r.assets[i].(status := status), mint);
  }

  /** After the last release nothing that should have been released is left pending. */
  lemma {:induction false} ReleaseLeavesNothing(assets: seq<FundedAsset>, inventory: map<nat, InventoryEntry>, n: nat)
    requires n <= |assets|
    ensures var r := ReleaseWhere(assets, inventory, {}, true, n);
      (forall i :: 0 <= i < n ==> r.assets[i].status != Pending)
      && forall i :: n <= i < |assets| ==> r.assets[i] == assets[i]
    decreases n
  {
    if n > 0 {
      ReleaseLeavesNothing(assets, inventory, n - 1);
    }
  }

  lemma {:induction false} NothingReserved(assets: seq<FundedAsset>, mint: nat)
    requires forall i :: 0 <= i < |assets| ==> assets[i].status != Pending
    ensures ReservedIn(assets, mint) == 0
    decreases |assets|
  {
    if assets != [] {
      NothingReserved(assets[..|assets| - 1], mint);
    }
  }

  /** Reserving moves tokens out of inventory and creates none. */
  lemma {:induction false} ReserveConserves(inventory: map<nat, InventoryEntry>, mints: seq<nat>, vetting: Vetting,
                                            mint: nat)
    ensures var r := ReserveAll(inventory, mints, vetting);
      HeldIn(r.assets, r.inventory, mint) == AmountOf(inventory, mint) && |r.assets| <= MAX_ASSETS_PER_ROUND
    decreases |mints|
  {
    if mints != [] {
      var n := |mints| - 1;
      ReserveConserves(inventory, mints[..n], vetting, mint);
      var front := ReserveAll(inventory, mints[..n], vetting);
      ReserveOneConserves(front, mints[n], vetting, mint);
    }
  }

  lemma {:induction false} ReserveOneConserves(r: Reservation, m: nat, vetting: Vetting, mint: nat)
    requires |r.assets| <= MAX_ASSETS_PER_ROUND
    ensures var next := ReserveOne(r, m, vetting);
      HeldIn(next.assets, next.inventory, mint) == HeldIn(r.assets, r.inventory, mint)
      && |next.assets| <= MAX_ASSETS_PER_ROUND
  {
    var next := ReserveOne(r, m, vetting);
    if next != r {
      assert next.assets[..|r.assets|] == r.assets;
    }
  }

  // ---- activating ----------------------------------------------------------------------------------

  /** What leaves the keeper's books when an asset activates: what its vault was sent. */
  function SentTo(p: Progress, i: nat, reply: Activation, now: int): nat
    requires i < |p.round.assets|
  {
    var asset := p.round.assets[i];
    if p.stopped || asset.status != Pending then 0
    else
      match reply
      case AlreadyActive(used) => if asset.fundAmount < used then asset.fundAmount else used
      case NowActive(transferred, _) =>
        if asset.nextAttemptAt > now || transferred > asset.fundAmount then 0 else transferred
      case _ => 0
  }

  function ReplyTo(replies: map<nat, Activation>, mint: nat): Activation {
    if mint in replies then replies[mint] else RpcTrouble
  }

  function SentEach(p: Progress, mints: seq<nat>, replies: map<nat, Activation>, now: int, maxAttempts: nat,
                    mint: nat): nat
    decreases |mints|
  {
    if mints == [] then 0
    else
      var n := |mints| - 1;
      var front := ActivateEach(p, mints[..n], replies, now, maxAttempts);
      var i := IndexOf(front.round.assets, mints[n]);
      SentEach(p, mints[..n], replies, now, maxAttempts, mint)
      + if !front.stopped && i < |front.round.assets| && mints[n] == mint then
          SentTo(front, i, ReplyTo(replies, mints[n]), now)
        else 0
  }

  /** One reservation is rewritten; when it stops being pending, all of it that was not sent is credited back. */
  lemma {:induction false} ActivateOneEffect(p: Progress, i: nat, reply: Activation, now: int, maxAttempts: nat)
    requires i < |p.round.assets|
    ensures var next := ActivateOne(p, i, reply, now, maxAttempts); var asset := p.round.assets[i];
      i < |next.round.assets| && next.round.assets == p.round.assets[i := next.round.assets[i]]
      && next.round.roundId == p.round.roundId && next.round.reserve == p.round.reserve
      && var after := next.round.assets[i];
         after.mint == asset.mint && after.fundAmount == asset.fundAmount
         && (if asset.status == Pending && after.status != Pending then
               SentTo(p, i, reply, now) <= asset.fundAmount
               && next.inventory == CreditInventory(p.inventory, asset.mint, asset.tokenProgram,
                                                    asset.fundAmount - SentTo(p, i, reply, now))
             else after.status == asset.status && next.inventory == p.inventory && SentTo(p, i, reply, now) == 0)
  {
    hide BackoffSecs, CreditInventory;
    CreditNothing(p.inventory, p.round.assets[i].mint, p.round.assets[i].tokenProgram);
  }

  lemma {:induction false} CreditNothing(inventory: map<nat, InventoryEntry>, mint: nat, tokenProgram: nat)
    ensures forall amount :: amount <= 0 ==> CreditInventory(inventory, mint, tokenProgram, amount) == inventory
  {
  }

  /** Activating one asset loses exactly what was sent to its vault. */
  lemma {:induction false} ActivateOneConserves(p: Progress, i: nat, reply: Activation, now: int, maxAttempts: nat,
                                                mint: nat)
    requires i < |p.round.assets|
    ensures var next := ActivateOne(p, i, reply, now, maxAttempts);
      HeldIn(next.round.assets, next.inventory, mint)
      + (if p.round.assets[i].mint == mint then SentTo(p, i, reply, now) else 0)
        == HeldIn(p.round.assets, p.inventory, mint)
      && next.round.roundId == p.round.roundId && next.round.reserve == p.round.reserve
  {
    hide ReservedIn, ActivateOne, SentTo;
    ActivateOneEffect(p, i, reply, now, maxAttempts);
    var after := ActivateOne(p, i, reply, now, maxAttempts).round.assets[i];
    ReservedUpdate(p.round.assets, i, after, mint);
  }

  lemma {:induction false} ActivateEachConserves(p: Progress, mints: seq<nat>, replies: map<nat, Activation>, now: int,
                                                 maxAttempts: nat, mint: nat)
    ensures var r := ActivateEach(p, mints, replies, now, maxAttempts);
      HeldIn(r.round.assets, r.inventory, mint) + SentEach(p, mints, replies, now, maxAttempts, mint)
        == HeldIn(p.round.assets, p.inventory, mint)
      && r.round.roundId == p.round.roundId && r.round.reserve == p.round.reserve
    decreases |mints|
  {
    hide ActivateOne, SentTo, HeldIn;
    if mints != [] {
      var n := |mints| - 1;
      ActivateEachConserves(p, mints[..n], replies, now, maxAttempts, mint);
      var front := ActivateEach(p, mints[..n], replies, now, maxAttempts);
      var i := IndexOf(front.round.assets, mints[n]);
      if i < |front.round.assets| && !front.stopped {
        ActivateOneConserves(front, i, ReplyTo(replies, mints[n]), now, maxAttempts, mint);
      }
    }
  }
}
