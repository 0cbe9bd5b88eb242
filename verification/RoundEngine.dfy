/** The engine's steps as they run: load the state file, change it, save it. */
module RoundEngines {
  import opened Terms
  import opened Ledgers
  import opened Engine
  import EngineRuns
  import EngineInvariants

  class RoundEngine {
    /** The state file. */
    var disk: State

    constructor ()
      ensures disk == State(Ledger(0, 0, 0, 0, 0), map[], None, [], [])
      ensures Valid() && forall mint :: EngineInvariants.Held(disk, mint) == 0
    {
      disk := State(Ledger(0, 0, 0, 0, 0), map[], None, [], []);
      new;
      forall mint
        ensures EngineRuns.Inv(disk) && EngineInvariants.Held(disk, mint) == 0
      {
        EngineRuns.FreshStateHolds(mint);
      }
    }

    /** What every run keeps, of the state file as it is. */
    ghost predicate Valid()
      reads this
    {
      EngineRuns.Inv(disk)
    }

    /** A step keeps that, and each mint's holdings change by what flowed and nothing else. */
    ghost predicate Stepped(before: State, step: EngineRuns.Step)
      requires EngineRuns.Enabled(before, step)
      reads this
    {
      EngineRuns.Inv(disk)
      && forall mint :: EngineInvariants.Held(disk, mint)
                        == EngineInvariants.Held(before, mint) + EngineRuns.Flow(before, step, mint)
    }

    /** Saves before sending the opening transaction; `opening` is None when that send throws. */
    method Open(roundId: nat, setup: int, opening: Option<int>) returns (failed: bool)
      requires Valid() && EngineRuns.Enabled(disk, EngineRuns.Step.Open(roundId, setup, opening))
      modifies this
      ensures Stepped(old(disk), EngineRuns.Step.Open(roundId, setup, opening))
      ensures disk == OpenRound(old(disk), roundId, setup, opening) && failed == opening.None?
    {
      StepHolds(disk, EngineRuns.Step.Open(roundId, setup, opening));
      var state := disk;
      state := state.(ledger := ChargeBasket(state.ledger, setup));
      var round := ActiveRound(roundId, Collecting, 0, 0, 0, None, [], 0);
      state := state.(round := Some(round));
      disk := state;
      if opening.None? {
        return true;
      }
      round := round.(spent := round.spent + opening.value);
      state := state.(round := Some(round));
      disk := state;
      failed := false;
    }

    method Abandon(cost: Option<int>)
      requires Valid() && EngineRuns.Enabled(disk, EngineRuns.Step.AbandonIt(cost))
      modifies this
      ensures Stepped(old(disk), EngineRuns.Step.AbandonIt(cost))
      ensures disk == AbandonCollecting(old(disk), cost)
    {
      StepHolds(disk, EngineRuns.Step.AbandonIt(cost));
      var state, round := disk, disk.round.value;
      if cost.Some? {
        round := round.(spent := round.spent + cost.value);
      }
      var ledger := ReconcileInPlace(state.ledger, round.reserve, round.spent);
      disk := state.(ledger := ledger, round := None);
    }

    method ReconcileInPlace(ledger: Ledger, reserve: int, spent: int) returns (after: Ledger)
      ensures after == Reconcile(ledger, reserve, spent)
    {
      var (debited, held) := Debit(ledger, Operations, reserve);
      after := debited;
      if spent <= held {
        after := after.(basket := after.basket + held - spent);
      } else {
        after := Debit(after, Basket, spent - held).0;
      }
    }

    method Select(selected: seq<Candidate>, estimate: nat, swapOverhead: nat)
      requires Valid() && EngineRuns.Enabled(disk, EngineRuns.Step.Select(selected, estimate, swapOverhead))
      modifies this
      ensures Stepped(old(disk), EngineRuns.Step.Select(selected, estimate, swapOverhead))
      ensures disk == SelectBasket(old(disk), selected, estimate, swapOverhead)
    {
      StepHolds(disk, EngineRuns.Step.Select(selected, estimate, swapOverhead));
      var state, round := disk, disk.round.value;
      var candidates := DropRepeats(selected);
      var pot := state.ledger.basket;
      var reserve := if |candidates| > 0 then estimate else 0;
      var perCoin: nat := if |candidates| > 0 && pot > reserve then (pot - reserve) / |candidates| else 0;
      if perCoin <= swapOverhead {
        disk := state.(round := Some(round.(purchases := Some([]))));
        return;
      }
      var ledger := state.ledger;
      ledger := ledger.(basket := ledger.basket - reserve);
      ledger := ledger.(operations := ledger.operations + reserve);
      round := round.(reserve := reserve);
      round := round.(budget := perCoin);
      round := round.(purchases := Some(ToPurchases(candidates)));
      disk := state.(ledger := ledger, round := Some(round));
    }

    /** Keeps the first candidate of each mint. */
    method DropRepeats(selected: seq<Candidate>) returns (candidates: seq<Candidate>)
      ensures candidates == Deduplicate(selected)
    {
      candidates := [];
      var seen: set<nat> := {};
      var i := 0;
      while i < |selected|
        invariant 0 <= i <= |selected| && candidates == Deduplicate(selected[..i])
        invariant forall mint :: mint in seen <==> HasMint(selected[..i], mint)
      {
        var candidate := selected[i];
        NextMint(selected, i);
        if candidate.mint !in seen {
          candidates := candidates + [candidate];
          seen := seen + {candidate.mint};
        }
        i := i + 1;
      }
      assert selected[..i] == selected;
    }

    method Settle(i: nat, r: Settlement)
      requires Valid() && EngineRuns.Enabled(disk, EngineRuns.Step.Settle(i, r))
      modifies this
      ensures Stepped(old(disk), EngineRuns.Step.Settle(i, r))
      ensures disk == SettlePurchase(old(disk), i, r)
    {
      StepHolds(disk, EngineRuns.Step.Settle(i, r));
      var state, round := disk, disk.round.value;
      var purchase := round.purchases.value[i];
      var cost := r.funding - r.returned;
      state := state.(ledger := if cost > 0 then Debit(state.ledger, Basket, cost).0
                                else state.ledger.(basket := state.ledger.basket - cost));
      if r.tokens == 0 && !purchase.refused && r.swapsSeen && purchase.outputChecks < MAX_OUTPUT_CHECKS {
        purchase := purchase.(outputChecks := purchase.outputChecks + 1);
      } else {
        purchase := purchase.(wallet := false);
        if r.tokens > 0 {
          purchase := purchase.(status := Bought, received := r.tokens);
          if purchase.lamportsSpent == 0 {
            purchase := purchase.(lamportsSpent := round.budget);
          }
          state := state.(inventory := CreditInventory(state.inventory, purchase.mint, purchase.tokenProgram,
                                                       r.arrived));
        } else {
          purchase := purchase.(lamportsSpent := 0);
          if purchase.refused {
            purchase := purchase.(status := Skipped);
          } else {
            purchase := purchase.(attempts := purchase.attempts + 1);
            purchase := purchase.(status := if purchase.attempts >= r.maxAttempts then Skipped else ToBuy);
          }
        }
      }
      disk := state.(round := Some(round.(purchases := Some(round.purchases.value[i := purchase]))));
    }

    method Reserve(held: seq<nat>, vetting: Vetting)
      requires Valid() && EngineRuns.Enabled(disk, EngineRuns.Step.Reserve(held, vetting))
      modifies this
      ensures Stepped(old(disk), EngineRuns.Step.Reserve(held, vetting))
      ensures disk == ReserveAssets(old(disk), held, vetting)
    {
      hide Once, BoughtMints, EngineRuns.Inv, EngineInvariants.Held, EngineRuns.Flow;
      StepHolds(disk, EngineRuns.Step.Reserve(held, vetting));
      var state, round := disk, disk.round.value;
      var bought := if round.purchases.Some? then BoughtMints(round.purchases.value) else [];
      var mints := Once(bought + held);
      if |mints| > MAX_VETTED_MINTS {
        mints := mints[..MAX_VETTED_MINTS];
      }
      var assets: seq<FundedAsset> := [];
      var inventory := state.inventory;
      var i := 0;
      while i < |mints|
        invariant 0 <= i <= |mints| && disk == old(disk)
        invariant Reservation(assets, inventory) == ReserveAll(state.inventory, mints[..i], vetting)
      {
        assert mints[..i + 1][..i] == mints[..i];
        var mint := mints[i];
        if |assets| < MAX_ASSETS_PER_ROUND && mint in inventory && inventory[mint].amount > 0 && mint in vetting {
          var entry := inventory[mint];
          assets := assets + [FundedAsset(mint, entry.tokenProgram, entry.amount, vetting[mint], Pending, 0, 0)];
          inventory := inventory - {mint};
        }
        i := i + 1;
      }
      assert mints[..i] == mints;
      disk := state.(inventory := inventory, round := Some(round.(assets := assets, status := Funded)));
    }

    /** Gives back, in place, every reservation that is not kept. */
    method ReleaseLoop(assets: seq<FundedAsset>, inventory: map<nat, InventoryEntry>, kept: set<nat>, pendingOnly: bool)
      returns (after: seq<FundedAsset>, stock: map<nat, InventoryEntry>)
      ensures Reservation(after, stock) == ReleaseWhere(assets, inventory, kept, pendingOnly, |assets|)
    {
      after, stock := assets, inventory;
      var i := 0;
      while i < |assets|
        invariant 0 <= i <= |assets| == |after|
        invariant Reservation(after, stock) == ReleaseWhere(assets, inventory, kept, pendingOnly, i)
        invariant forall k :: i <= k < |assets| ==> after[k] == assets[k]
      {
        if assets[i].mint !in kept && !(pendingOnly && assets[i].status != Pending) {
          if after[i].status == Pending {
            stock := CreditInventory(stock, after[i].mint, after[i].tokenProgram, after[i].fundAmount);
          }
          after := after[i := after[i].(status := Released)];
        }
        i := i + 1;
      }
    }

    method CommitRound(cost: Option<int>, payable: seq<Candidate>, expiryTs: int)
      requires Valid() && EngineRuns.Enabled(disk, EngineRuns.Step.CommitIt(cost, payable, expiryTs))
      modifies this
      ensures Stepped(old(disk), EngineRuns.Step.CommitIt(cost, payable, expiryTs))
      ensures disk == Commit(old(disk), cost, payable, expiryTs)
    {
      hide ReleaseWhere, Finish, ToExpiring, EngineRuns.Inv, EngineInvariants.Held, EngineRuns.Flow;
      StepHolds(disk, EngineRuns.Step.CommitIt(cost, payable, expiryTs));
      var state, round := disk, disk.round.value;
      if cost.Some? {
        round := round.(spent := round.spent + cost.value);
      }
      var kept := set c | c in payable :: c.mint;
      var assets, stock := ReleaseLoop(round.assets, state.inventory, kept, false);
      round := round.(assets := assets, status := Committed, expiryTs := expiryTs);
      state := state.(inventory := stock, round := None);
      if payable == [] {
        state := FinishInPlace(state, round);
      } else {
        var tracked := ExpiringRound(round.roundId, expiryTs, ToExpiring(payable));
        state := state.(expiring := state.expiring + [tracked]);
        state := state.(paying := state.paying + [round]);
      }
      disk := state;
    }

    method FinishInPlace(s: State, round: ActiveRound) returns (after: State)
      ensures after == Finish(s, round)
    {
      var assets, stock := ReleaseLoop(round.assets, s.inventory, {}, true);
      after := s.(inventory := stock);
      var ledger := ReconcileInPlace(after.ledger, round.reserve, round.spent);
      after := after.(ledger := ledger);
      after := after.(paying := WithoutRound(after.paying, round.roundId));
    }

    method FinishRound(at: nat)
      requires Valid() && EngineRuns.Enabled(disk, EngineRuns.Step.FinishIt(at))
      modifies this
      ensures Stepped(old(disk), EngineRuns.Step.FinishIt(at))
      ensures disk == FinishPaying(old(disk), at)
    {
      StepHolds(disk, EngineRuns.Step.FinishIt(at));
      var state := FinishInPlace(disk, disk.paying[at]);
      disk := state;
    }

    /** The loop over the committed assets: stops after the first that was attempted. */
    method ActivateAssets(at: nat, mints: seq<nat>, replies: map<nat, Activation>, now: int, maxAttempts: nat)
      requires Valid() && EngineRuns.Enabled(disk, EngineRuns.Step.ActivateAssets(at, mints, replies, now, maxAttempts))
      modifies this
      ensures Stepped(old(disk), EngineRuns.Step.ActivateAssets(at, mints, replies, now, maxAttempts))
      ensures disk == Activate(old(disk), at, mints, replies, now, maxAttempts)
    {
      StepHolds(disk, EngineRuns.Step.ActivateAssets(at, mints, replies, now, maxAttempts));
      hide ActivateOne, IndexOf;
      var state := disk;
      ghost var start := StartActivating(state, at);
      var p := StartActivating(state, at);
      var i := 0;
      while i < |mints|
        invariant 0 <= i <= |mints| && disk == old(disk)
        invariant p == ActivateEach(start, mints[..i], replies, now, maxAttempts) && !p.failed
      {
        if p.stopped {
          StaysStopped(start, mints, i, replies, now, maxAttempts);
          i := |mints|;
          break;
        }
        assert mints[..i + 1][..i] == mints[..i];
        var j := IndexOf(p.round.assets, mints[i]);
        if j == |p.round.assets| {
          StaysStopped(start, mints, i + 1, replies, now, maxAttempts);
          return;
        }
        p := ActivateOne(p, j, if mints[i] in replies then replies[mints[i]] else RpcTrouble, now, maxAttempts);
        OneNeverFails(start, mints, i, replies, now, maxAttempts);
        i := i + 1;
      }
      assert mints[..i] == mints;
      var round := p.round;
      if !p.stopped && !p.backingOff {
        round := round.(status := Active);
      }
      disk := state.(inventory := p.inventory, paying := state.paying[at := round]);
    }

    method CloseAsset(at: nat, j: nat, closing: Closing, now: int)
      requires Valid() && EngineRuns.Enabled(disk, EngineRuns.Step.CloseIt(at, j, closing, now))
      modifies this
      ensures Stepped(old(disk), EngineRuns.Step.CloseIt(at, j, closing, now))
      ensures disk == CloseExpired(old(disk), at, j, closing, now)
    {
      StepHolds(disk, EngineRuns.Step.CloseIt(at, j, closing, now));
      hide BackoffSecs;
      var state, expiring := disk, disk.expiring[at];
      var asset := expiring.assets[j];
      match closing {
        case Gone =>
        case Closed(cost, remaining, arrived) =>
          if cost.Some? {
            state := state.(ledger := ChargeBasket(state.ledger, cost.value));
          }
          if remaining > 0 {
            state := state.(inventory := CreditInventory(state.inventory, asset.mint, asset.tokenProgram, arrived));
          }
        case _ =>
          asset := asset.(attempts := asset.attempts + 1);
          asset := asset.(nextAttemptAt := now + if closing == NotYetExpired then 30 else BackoffSecs(asset.attempts));
          expiring := expiring.(assets := expiring.assets[j := asset]);
          disk := state.(expiring := state.expiring[at := expiring]);
          return;
      }
      expiring := expiring.(assets := Drop(expiring.assets, j));
      var remaining := if expiring.assets == [] then Drop(state.expiring, at) else state.expiring[at := expiring];
      disk := state.(expiring := remaining);
    }
  }

  lemma {:induction false} StepHolds(s: State, step: EngineRuns.Step)
    requires EngineRuns.Inv(s) && EngineRuns.Enabled(s, step)
    ensures EngineRuns.Inv(EngineRuns.Apply(s, step))
    ensures forall mint :: EngineInvariants.Held(EngineRuns.Apply(s, step), mint)
                           == EngineInvariants.Held(s, mint) + EngineRuns.Flow(s, step, mint)
  {
    hide EngineRuns.Inv, EngineRuns.Apply, EngineRuns.Enabled, EngineRuns.Flow, EngineInvariants.Held;
    EngineRuns.StepKeepsInv(s, step);
    forall mint
      ensures EngineInvariants.Held(EngineRuns.Apply(s, step), mint)
           == EngineInvariants.Held(s, mint) + EngineRuns.Flow(s, step, mint)
    {
      EngineRuns.StepConserves(s, step, mint);
    }
  }

  lemma {:induction false} NextMint(selected: seq<Candidate>, i: nat)
    requires i < |selected|
    ensures selected[..i + 1][..i] == selected[..i] && selected[..i + 1][i] == selected[i]
    ensures forall mint ::
              HasMint(selected[..i + 1], mint) <==> HasMint(selected[..i], mint) || mint == selected[i].mint
  {
    assert selected[..i + 1] == selected[..i] + [selected[i]];
    forall mint
      ensures HasMint(selected[..i + 1], mint) <==> HasMint(selected[..i], mint) || mint == selected[i].mint
    {
      if HasMint(selected[..i], mint) {
        var k :| 0 <= k < i && selected[..i][k].mint == mint;
        assert selected[..i + 1][k].mint == mint;
      }
      assert selected[..i + 1][i].mint == selected[i].mint;
      if HasMint(selected[..i + 1], mint) {
        var k :| 0 <= k < i + 1 && selected[..i + 1][k].mint == mint;
        assert k < i ==> selected[..i][k].mint == mint;
      }
    }
  }

  lemma {:induction false} OneNeverFails(p: Progress, mints: seq<nat>, i: nat, replies: map<nat, Activation>, now: int,
                                         maxAttempts: nat)
    requires i < |mints| && !ActivateEach(p, mints[..i], replies, now, maxAttempts).failed
    requires var front := ActivateEach(p, mints[..i], replies, now, maxAttempts);
      IndexOf(front.round.assets, mints[i]) < |front.round.assets|
    ensures !ActivateEach(p, mints[..i + 1], replies, now, maxAttempts).failed
  {
    hide ActivateOne, IndexOf;
    var front := ActivateEach(p, mints[..i], replies, now, maxAttempts);
    assert mints[..i + 1][..i] == mints[..i];
    OneKeepsGoing(front, IndexOf(front.round.assets, mints[i]),
                  if mints[i] in replies then replies[mints[i]] else RpcTrouble,
      now, maxAttempts);
  }

  lemma {:induction false} OneKeepsGoing(p: Progress, i: nat, reply: Activation, now: int, maxAttempts: nat)
    requires i < |p.round.assets|
    ensures ActivateOne(p, i, reply, now, maxAttempts).failed == p.failed
  {
  }

  lemma {:induction false} StaysStopped(p: Progress, mints: seq<nat>, i: nat, replies: map<nat, Activation>, now: int,
                                        maxAttempts: nat)
    requires i <= |mints| && ActivateEach(p, mints[..i], replies, now, maxAttempts).stopped
    ensures ActivateEach(p, mints, replies, now, maxAttempts) == ActivateEach(p, mints[..i], replies, now, maxAttempts)
    decreases |mints| - i
  {
    if i == |mints| {
      assert mints[..i] == mints;
    } else {
      assert mints[..i + 1][..i] == mints[..i];
      StaysStopped(p, mints, i + 1, replies, now, maxAttempts);
    }
  }
}
