/** What the round engine's steps are for, beyond adding up: what each costs the buckets, when a purchase or an
    activation is over, and which coins are bought and reserved. */
module EngineLaws {
  import opened Terms
  import opened Ledgers
  import opened Engine
  import opened EngineInvariants
  import opened EngineRuns

  // ---- lamports ----------------------------------------------------------------------------

  /** What is still to be settled: the costs of the rounds under way. */
  function Unsettled(s: State): int {
    UnsettledIn(s.paying) + if s.round.Some? then s.round.value.spent else 0
  }

  function UnsettledIn(paying: seq<ActiveRound>): int
    decreases |paying|
  {
    if paying == [] then 0 else UnsettledIn(paying[..|paying| - 1]) + paying[|paying| - 1].spent
  }

  function Reported(cost: Option<int>): int {
    if cost.Some? then cost.value else 0
  }

  /** The transaction of an activation step: only one that is made, of an asset that is due, costs anything. */
  ghost function ActivationCost(p: Progress, i: nat, reply: Activation, now: int): int
    requires i < |p.round.assets|
  {
    var asset := p.round.assets[i];
    if p.stopped || asset.status != Pending || asset.nextAttemptAt > now then 0
    else
      match reply
      case NowActive(transferred, cost) => if transferred > asset.fundAmount then 0 else Reported(cost)
      case _ => 0
  }

  ghost function ActivationCosts(p: Progress, mints: seq<nat>, replies: map<nat, Activation>, now: int, max: nat): int
    decreases |mints|
  {
    if mints == [] then 0
    else
      var n := |mints| - 1;
      var front := ActivateEach(p, mints[..n], replies, now, max);
      var i := IndexOf(front.round.assets, mints[n]);
      ActivationCosts(p, mints[..n], replies, now, max)
      + if !front.stopped && i < |front.round.assets| then ActivationCost(front, i, ReplyTo(replies, mints[n]), now)
        else 0
  }

  /** The lamports a step's own transactions took from the wallet, less what they brought back. */
  ghost function CostOf(s: State, step: Step): int
    requires Enabled(s, step)
  {
    match step
    case Open(_, setup, opening) => setup + Reported(opening)
    case ChargePot(lamports) => lamports
    case AdvanceTo(_, cost) => Reported(cost)
    case AbandonIt(cost) => Reported(cost)
    case Settle(_, r) => r.funding - r.returned
    case CommitIt(cost, _, _) => Reported(cost)
    case ActivateAssets(at, mints, replies, now, max) =>
      var start := StartActivating(s, at);
      if ActivateEach(start, mints, replies, now, max).failed then 0
      else ActivationCosts(start, mints, replies, now, max)
    case PushCost(_, lamports) => lamports
    case CloseIt(_, _, Closed(cost, _, _), _) => Reported(cost)
    case OtherBooking(ledger) => s.ledger.Total() - ledger.Total()
    case _ => 0
  }

  function Beyond(due: int, there: int): nat {
    if due > there then due - there else 0
  }

  /** What a step has to pay that the buckets do not hold: charges beyond the basket, and a round's costs beyond its
      reserve and the basket. */
  ghost function Short(s: State, step: Step): nat
    requires Inv(s) && Enabled(s, step)
  {
    match step
    case Open(_, setup, _) => if setup > 0 then Beyond(setup, s.ledger.basket) else 0
    case ChargePot(lamports) => if lamports > 0 then Beyond(lamports, s.ledger.basket) else 0
    case AbandonIt(cost) =>
      Beyond(s.round.value.spent + Reported(cost), s.round.value.reserve + s.ledger.basket)
    case Settle(_, r) => if r.funding > r.returned then Beyond(r.funding - r.returned, s.ledger.basket) else 0
    case CommitIt(cost, payable, _) =>
      if payable == [] then Beyond(s.round.value.spent + Reported(cost), s.round.value.reserve + s.ledger.basket) else 0
    case FinishIt(at) => Beyond(s.paying[at].spent, s.paying[at].reserve + s.ledger.basket)
    case CloseIt(_, _, Closed(Some(cost), _, _), _) => if cost > 0 then Beyond(cost, s.ledger.basket) else 0
    case _ => 0
  }

  /** Every lamport a step costs is charged once: to the buckets now, or to its round until that is settled. */
  lemma {:induction false} StepCosts(s: State, step: Step)
    requires Inv(s) && Enabled(s, step)
    ensures Apply(s, step).ledger.Total() - Unsettled(Apply(s, step))
         == s.ledger.Total() - Unsettled(s) - CostOf(s, step) + Short(s, step)
  {
    hide SelectBasket, FinishPaying, Commit, Activate, CloseExpired, ReserveAll, Reconcile, UnsettledIn, ActivateEach,
      ActivationCosts;
    match step {
      case Select(candidates, estimate, overhead) =>
        BudgetFits(s, candidates, estimate, overhead);
        SelectMoves(s, candidates, estimate, overhead);
      case AbandonIt(cost) =>
        var round := ChargeRound(s.round.value, cost);
        ReconcileSettles(s.ledger, round.reserve, round.spent);
      case CommitIt(cost, payable, expiryTs) => CommitCosts(s, cost, payable, expiryTs);
      case ActivateAssets(at, mints, replies, now, max) => ActivateCosts(s, at, mints, replies, now, max);
      case PushCost(at, lamports) => UnsettledUpdate(s.paying, at, ChargePaying(s, at, lamports).paying[at]);
      case FinishIt(at) => FinishCosts(s, at);
      case CloseIt(at, j, closing, now) => CloseCosts(s, at, j, closing, now);
      case _ =>
    }
  }

  lemma {:induction false} SelectMoves(s: State, candidates: seq<Candidate>, estimate: nat, overhead: nat)
    requires s.round.Some?
    ensures var after := SelectBasket(s, candidates, estimate, overhead);
      && after.ledger.Total() == s.ledger.Total() && after.paying == s.paying && after.round.Some?
      && after.round.value.spent == s.round.value.spent
  {
    hide Deduplicate, PerCoin, ToPurchases;
  }

  lemma {:induction false} UnsettledUpdate(paying: seq<ActiveRound>, at: nat, round: ActiveRound)
    requires at < |paying|
    ensures UnsettledIn(paying[at := round]) == UnsettledIn(paying) - paying[at].spent + round.spent
    decreases |paying|
  {
    var n := |paying| - 1;
    if at < n {
      UnsettledUpdate(paying[..n], at, round);
      assert paying[at := round][..n] == paying[..n][at := round];
    } else {
      assert paying[at := round][..n] == paying[..n];
    }
  }

  lemma {:induction false} UnsettledAppend(paying: seq<ActiveRound>, round: ActiveRound)
    ensures UnsettledIn(paying + [round]) == UnsettledIn(paying) + round.spent
  {
    assert (paying + [round])[..|paying|] == paying;
  }

  lemma {:induction false} UnsettledWithout(paying: seq<ActiveRound>, at: nat)
    requires DistinctRounds(paying) && at < |paying|
    ensures UnsettledIn(WithoutRound(paying, paying[at].roundId)) == UnsettledIn(paying) - paying[at].spent
    decreases |paying|
  {
    var n := |paying| - 1;
    var front := paying[..n];
    if at == n {
      WithoutDrops(front, paying[at].roundId);
      assert front + [] == front;
    } else {
      assert front[at] == paying[at];
      UnsettledWithout(front, at);
      UnsettledAppend(WithoutRound(front, paying[at].roundId), paying[n]);
    }
  }

  lemma {:induction false} FinishCosts(s: State, at: nat)
    requires Inv(s) && at < |s.paying|
    ensures var after := FinishPaying(s, at);
      after.ledger.Total() - Unsettled(after)
        == s.ledger.Total() - Unsettled(s) + Beyond(s.paying[at].spent, s.paying[at].reserve + s.ledger.basket)
  {
    hide Reconcile, ReleaseWhere, WithoutRound, UnsettledIn;
    var round := s.paying[at];
    ReservesPart(s.paying, at);
    ReconcileSettles(s.ledger, round.reserve, round.spent);
    UnsettledWithout(s.paying, at);
  }

  lemma {:induction false} CommitCosts(s: State, cost: Option<int>, payable: seq<Candidate>, expiryTs: int)
    requires Inv(s) && Enabled(s, CommitIt(cost, payable, expiryTs))
    ensures var after := Commit(s, cost, payable, expiryTs); var step := CommitIt(cost, payable, expiryTs);
      after.ledger.Total() - Unsettled(after)
        == s.ledger.Total() - Unsettled(s) - Reported(cost) + Short(s, step)
  {
    hide Reconcile, ReleaseWhere, WithoutRound, ToExpiring, UnsettledIn;
    var round := ChargeRound(s.round.value, cost);
    if payable == [] {
      ReconcileSettles(s.ledger, round.reserve, round.spent);
      WithoutDrops(s.paying, round.roundId);
    } else {
      UnsettledAppend(s.paying, Commit(s, cost, payable, expiryTs).paying[|s.paying|]);
    }
  }

  lemma {:induction false} CloseCosts(s: State, at: nat, j: nat, closing: Closing, now: int)
    requires Inv(s) && Enabled(s, CloseIt(at, j, closing, now))
    ensures var after := CloseExpired(s, at, j, closing, now); var step := CloseIt(at, j, closing, now);
      after.ledger.Total() - Unsettled(after)
        == s.ledger.Total() - Unsettled(s) - CostOf(s, step) + Short(s, step)
  {
    hide Drop, Postpone, UnsettledIn;
    PostponeKeeps(s, at, j, now + 30);
    PostponeKeeps(s, at, j, now + BackoffSecs(s.expiring[at].assets[j].attempts + 1));
  }

  lemma {:induction false} ActivateCosts(s: State, at: nat, mints: seq<nat>, replies: map<nat, Activation>, now: int,
                                         max: nat)
    requires Inv(s) && Enabled(s, ActivateAssets(at, mints, replies, now, max))
    ensures var after := Activate(s, at, mints, replies, now, max);
      after.ledger.Total() - Unsettled(after)
        == s.ledger.Total() - Unsettled(s) - CostOf(s, ActivateAssets(at, mints, replies, now, max))
  {
    hide ActivateEach, ActivationCosts, UnsettledIn;
    var start := StartActivating(s, at);
    EachCosts(start, mints, replies, now, max);
    if !ActivateEach(start, mints, replies, now, max).failed {
      UnsettledUpdate(s.paying, at, Activate(s, at, mints, replies, now, max).paying[at]);
    }
  }

  lemma {:induction false} EachCosts(p: Progress, mints: seq<nat>, replies: map<nat, Activation>, now: int, max: nat)
    ensures ActivateEach(p, mints, replies, now, max).round.spent
         == p.round.spent + ActivationCosts(p, mints, replies, now, max)
    decreases |mints|
  {
    if mints != [] {
      hide ActivateOne, ActivationCost, IndexOf;
      var n := |mints| - 1;
      EachCosts(p, mints[..n], replies, now, max);
      var front := ActivateEach(p, mints[..n], replies, now, max);
      var i := IndexOf(front.round.assets, mints[n]);
      if !front.stopped && i < |front.round.assets| {
        OneCosts(front, i, ReplyTo(replies, mints[n]), now, max);
      }
    }
  }

  lemma {:induction false} OneCosts(p: Progress, i: nat, reply: Activation, now: int, max: nat)
    requires i < |p.round.assets|
    ensures ActivateOne(p, i, reply, now, max).round.spent == p.round.spent + ActivationCost(p, i, reply, now)
  {
    hide CreditInventory, BackoffSecs;
  }

  ghost function CostsOf(s: State, steps: seq<Step>): int
    requires EnabledRun(s, steps)
    decreases |steps|
  {
    if steps == [] then 0 else CostOf(s, steps[0]) + CostsOf(Apply(s, steps[0]), steps[1..])
  }

  ghost function ShortsOf(s: State, steps: seq<Step>): nat
    requires Inv(s) && EnabledRun(s, steps)
    decreases |steps|
  {
    if steps == [] then 0
    else
      StepKeepsInv(s, steps[0]);
      Short(s, steps[0]) + ShortsOf(Apply(s, steps[0]), steps[1..])
  }

  /** Over every run of steps all buckets together pay exactly what the steps cost: what is not paid yet is some round's
      to settle, and the only shortfall is where a bucket ran dry. */
  lemma {:induction false} RunCosts(s: State, steps: seq<Step>)
    requires Inv(s) && EnabledRun(s, steps)
    ensures Run(s, steps).ledger.Total() - Unsettled(Run(s, steps))
         == s.ledger.Total() - Unsettled(s) - CostsOf(s, steps) + ShortsOf(s, steps)
    decreases |steps|
  {
    hide Inv, Apply, Enabled, CostOf, Short, Unsettled;
    if steps != [] {
      StepKeepsInv(s, steps[0]);
      StepCosts(s, steps[0]);
      RunCosts(Apply(s, steps[0]), steps[1..]);
    }
  }

  // ---- purchases ---------------------------------------------------------------------------

  /** A purchase under way is bought exactly when tokens arrived; it is given up exactly when the swap was refused or
      its last attempt brought nothing; a swap that landed unseen is looked for again at most five times before that
      counts as an attempt; and a failed attempt leaves nothing behind. */
  lemma {:induction false} PurchaseSettles(p: Purchase, budget: nat, r: Settlement)
    requires p.status == ToBuy
    ensures var q := SettledPurchase(p, budget, r);
      var unseen := r.tokens == 0 && !p.refused && r.swapsSeen && p.outputChecks < MAX_OUTPUT_CHECKS;
      && q.mint == p.mint && q.tokenProgram == p.tokenProgram && q.refused == p.refused
      && (q.status == Bought <==> r.tokens > 0)
      && (q.status == Skipped <==> r.tokens == 0 && (p.refused || (!unseen && p.attempts + 1 >= r.maxAttempts)))
      && (q.status == Bought ==> q.received == r.tokens && !q.wallet && q.attempts == p.attempts
                                 && q.lamportsSpent == if p.lamportsSpent == 0 then budget else p.lamportsSpent)
      && (unseen ==> q.attempts == p.attempts && q.outputChecks == p.outputChecks + 1 && q.wallet == p.wallet
                     && q.lamportsSpent == p.lamportsSpent)
      && (!unseen ==> q.outputChecks == p.outputChecks && !q.wallet)
      && (r.tokens == 0 && !unseen ==>
            q.received == p.received && q.lamportsSpent == 0
            && q.attempts == p.attempts + if p.refused then 0 else 1)
  {
  }

  /** The settlements a purchase can still go through. */
  function LeftToTry(p: Purchase, maxAttempts: nat): nat {
    (if p.attempts < maxAttempts then maxAttempts - p.attempts else 0)
    + if p.outputChecks < MAX_OUTPUT_CHECKS then MAX_OUTPUT_CHECKS - p.outputChecks else 0
  }

  /** Buying again between two settlements: a new wallet, a sum sent to it, perhaps a refusal. */
  datatype Buying = Buying(lamportsSpent: nat, wallet: bool, refused: bool)

  function AfterBuying(p: Purchase, b: Buying): Purchase {
    p.(lamportsSpent := b.lamportsSpent, wallet := b.wallet, refused := b.refused)
  }

  ghost predicate StaysOpen(p: Purchase, budget: nat, turns: seq<(Buying, Settlement)>, maxAttempts: nat)
    decreases |turns|
  {
    turns == []
    || (var q := SettledPurchase(AfterBuying(p, turns[0].0), budget, turns[0].1);
        turns[0].1.maxAttempts == maxAttempts && q.status == ToBuy && StaysOpen(q, budget, turns[1..], maxAttempts))
  }

  /** So no purchase is tried for ever: at most as often as attempts and checks allow. */
  lemma {:induction false} BuyingEnds(p: Purchase, budget: nat, turns: seq<(Buying, Settlement)>, maxAttempts: nat)
    requires p.status == ToBuy && StaysOpen(p, budget, turns, maxAttempts)
    ensures |turns| <= LeftToTry(p, maxAttempts) <= maxAttempts + MAX_OUTPUT_CHECKS
    decreases |turns|
  {
    if turns != [] {
      var q := SettledPurchase(AfterBuying(p, turns[0].0), budget, turns[0].1);
      PurchaseSettles(AfterBuying(p, turns[0].0), budget, turns[0].1);
      hide SettledPurchase;
      BuyingEnds(q, budget, turns[1..], maxAttempts);
    }
  }

  // ---- which coins -------------------------------------------------------------------------

  /** Each coin once, every coin that was selected, the first candidate of each, in the order they were selected. */
  lemma {:induction false} DeduplicateHolds(candidates: seq<Candidate>)
    ensures var kept := Deduplicate(candidates);
      && |kept| <= |candidates| && (candidates != [] ==> kept != [])
      && (forall i, j :: 0 <= i < j < |kept| ==> kept[i].mint != kept[j].mint)
      && (forall mint :: HasMint(kept, mint) <==> HasMint(candidates, mint))
      && forall i :: 0 <= i < |kept| ==> FirstOfMint(candidates, kept[i])
    decreases |candidates|
  {
    if candidates != [] {
      hide FirstOfMint;
      var n := |candidates| - 1;
      DeduplicateHolds(candidates[..n]);
      var front, last := Deduplicate(candidates[..n]), candidates[n];
      forall mint
        ensures HasMint(candidates, mint) <==> HasMint(candidates[..n], mint) || last.mint == mint
        ensures HasMint(front + [last], mint) <==> HasMint(front, mint) || last.mint == mint
      {
        HasMintLast(candidates, mint);
        HasMintLast(front + [last], mint);
        assert (front + [last])[..|front|] == front;
      }
      forall i | 0 <= i < |front|
        ensures FirstOfMint(candidates, front[i])
        ensures !HasMint(candidates[..n], last.mint) ==> front[i].mint != last.mint
      {
        FirstStays(candidates, front[i]);
        assert HasMint(front, front[i].mint);
      }
      if !HasMint(candidates[..n], last.mint) {
        LastIsFirst(candidates);
      }
    }
  }

  ghost predicate FirstOfMint(candidates: seq<Candidate>, c: Candidate) {
    exists k :: 0 <= k < |candidates| && candidates[k] == c && !HasMint(candidates[..k], c.mint)
  }

  lemma {:induction false} HasMintLast(candidates: seq<Candidate>, mint: nat)
    requires candidates != []
    ensures var n := |candidates| - 1;
      HasMint(candidates, mint) <==> HasMint(candidates[..n], mint) || candidates[n].mint == mint
  {
    var n := |candidates| - 1;
    if HasMint(candidates[..n], mint) {
      var i :| 0 <= i < n && candidates[..n][i].mint == mint;
      assert candidates[i].mint == mint;
    }
    if HasMint(candidates, mint) {
      var i :| 0 <= i < |candidates| && candidates[i].mint == mint;
      assert i < n ==> candidates[..n][i].mint == mint;
    }
  }

  lemma {:induction false} FirstStays(candidates: seq<Candidate>, c: Candidate)
    requires candidates != [] && FirstOfMint(candidates[..|candidates| - 1], c)
    ensures FirstOfMint(candidates, c)
  {
    var front := candidates[..|candidates| - 1];
    var k :| 0 <= k < |front| && front[k] == c && !HasMint(front[..k], c.mint);
    assert candidates[k] == c && candidates[..k] == front[..k];
  }

  lemma {:induction false} LastIsFirst(candidates: seq<Candidate>)
    requires candidates != [] && !HasMint(candidates[..|candidates| - 1], candidates[|candidates| - 1].mint)
    ensures FirstOfMint(candidates, candidates[|candidates| - 1])
  {
  }

  /** A holding is reserved if and only if it is considered, there is something of it, it was vetted, and there was
      still room among thirty; all of it is, at the amount vetting found, and once. */
  lemma {:induction false} ReserveHolds(inventory: map<nat, InventoryEntry>, mints: seq<nat>, vetting: Vetting)
    ensures var r := ReserveAll(inventory, mints, vetting);
      && |r.assets| <= MAX_ASSETS_PER_ROUND
      && (forall i :: 0 <= i < |r.assets| ==> ReservedAs(inventory, mints, vetting, r.assets[i]))
      && (forall mint :: mint in r.inventory ==> mint in inventory && r.inventory[mint] == inventory[mint])
      && (forall mint :: mint in inventory && mint !in r.inventory ==> IsReserved(r.assets, mint))
      && (forall mint :: IsReserved(r.assets, mint) ==> mint !in r.inventory)
      && (|r.assets| < MAX_ASSETS_PER_ROUND ==>
            forall mint :: mint in mints && mint in vetting && AmountOf(inventory, mint) > 0 ==>
              IsReserved(r.assets, mint))
    decreases |mints|
  {
    if mints != [] {
      hide ReservedAs;
      var n := |mints| - 1;
      ReserveHolds(inventory, mints[..n], vetting);
      var front, r := ReserveAll(inventory, mints[..n], vetting), ReserveAll(inventory, mints, vetting);
      assert mints == mints[..n] + [mints[n]];
      forall i | 0 <= i < |front.assets|
        ensures ReservedAs(inventory, mints, vetting, front.assets[i])
      {
        ReservedWider(inventory, mints, n, vetting, front.assets[i]);
      }
      if r != front {
        LastReserved(inventory, mints, vetting, front);
      }
      forall mint
        ensures IsReserved(r.assets, mint) <==> IsReserved(front.assets, mint) || (r != front && mint == mints[n])
      {
        ReservedAppend(front.assets, r.assets, mint);
      }
    } else {
      assert forall mint :: !IsReserved([], mint);
    }
  }

  ghost predicate IsReserved(assets: seq<FundedAsset>, mint: nat) {
    exists i :: 0 <= i < |assets| && assets[i].mint == mint
  }

  ghost predicate ReservedAs(inventory: map<nat, InventoryEntry>, mints: seq<nat>, vetting: Vetting, a: FundedAsset) {
    a.mint in mints && a.mint in inventory && a.mint in vetting
    && a.tokenProgram == inventory[a.mint].tokenProgram && a.fundAmount == inventory[a.mint].amount > 0
    && a.allocatable == vetting[a.mint] && a.status == Pending && a.attempts == 0
  }

  lemma {:induction false} ReservedWider(inventory: map<nat, InventoryEntry>, mints: seq<nat>, n: nat, vetting: Vetting,
                                         a: FundedAsset)
    requires n <= |mints| && ReservedAs(inventory, mints[..n], vetting, a)
    ensures ReservedAs(inventory, mints, vetting, a)
  {
  }

  lemma {:induction false} LastReserved(inventory: map<nat, InventoryEntry>, mints: seq<nat>, vetting: Vetting,
                                        front: Reservation)
    requires mints != [] && ReserveOne(front, mints[|mints| - 1], vetting) != front
    requires forall mint :: mint in front.inventory ==> mint in inventory && front.inventory[mint] == inventory[mint]
    ensures var r := ReserveOne(front, mints[|mints| - 1], vetting);
      && r.assets == front.assets + [r.assets[|front.assets|]] && r.inventory == front.inventory - {mints[|mints| - 1]}
      && |r.assets| == |front.assets| + 1 && r.assets[|front.assets|].mint == mints[|mints| - 1]
      && ReservedAs(inventory, mints, vetting, r.assets[|front.assets|])
  {
  }

  lemma {:induction false} ReservedAppend(front: seq<FundedAsset>, all: seq<FundedAsset>, mint: nat)
    requires all == front || (|all| == |front| + 1 && all[..|front|] == front)
    ensures IsReserved(all, mint) <==> IsReserved(front, mint) || (all != front && all[|front|].mint == mint)
  {
    if IsReserved(front, mint) {
      var i :| 0 <= i < |front| && front[i].mint == mint;
      assert all[i] == front[i];
    }
    if IsReserved(all, mint) {
      var i :| 0 <= i < |all| && all[i].mint == mint;
      assert i < |front| ==> all[i] == front[i];
    }
  }

  // ---- activations -------------------------------------------------------------------------

  /** Whether the reply to an attempt is a refusal: the chain's, or the client's for want of reserved tokens. */
  predicate Refuses(asset: FundedAsset, reply: Activation) {
    reply.Refused? || (reply.NowActive? && reply.transferred > asset.fundAmount)
  }

  /** An asset activates exactly when the chain says it is active or made it so with what was reserved; only a refusal
      counts against it, and it is given up exactly when the last one allowed is used; trouble on the way is waited
      out. */
  lemma {:induction false} ActivationFates(p: Progress, i: nat, reply: Activation, now: int, max: nat)
    requires i < |p.round.assets| && !p.stopped && p.round.assets[i].status == Pending
    ensures |ActivateOne(p, i, reply, now, max).round.assets| == |p.round.assets|
    ensures var next := ActivateOne(p, i, reply, now, max);
      var (before, after) := (p.round.assets[i], next.round.assets[i]);
      var due := before.nextAttemptAt <= now;
      && (after.status == Activated
          <==> reply.AlreadyActive? || (due && reply.NowActive? && !Refuses(before, reply)))
      && (after.status == Abandoned <==> due && Refuses(before, reply) && before.attempts + 1 >= max)
      && after.attempts == before.attempts + (if due && Refuses(before, reply) then 1 else 0)
      && (due && reply.RpcTrouble? ==> after.status == Pending && after.nextAttemptAt == now + 30)
      && (due && Refuses(before, reply) && after.status == Pending ==>
            after.nextAttemptAt == now + BackoffSecs(before.attempts + 1))
      && (next.stopped <==> due && !reply.AlreadyActive?)
      && (next.backingOff <==> p.backingOff || !(due || reply.AlreadyActive?))
      && forall k :: 0 <= k < |p.round.assets| && k != i ==> next.round.assets[k] == p.round.assets[k]
  {
    hide BackoffSecs, CreditInventory;
  }

  /** Waits double from a minute and stop growing at six hours. */
  lemma {:induction false} BackoffDoubles(attempts: nat)
    ensures 60 <= BackoffSecs(attempts) <= BackoffSecs(attempts + 1) <= 21_600
    ensures attempts >= 1 ==> BackoffSecs(attempts + 1) == Min(2 * BackoffSecs(attempts), 21_600)
  {
    assert PowerOfTwo(4) == 16 && PowerOfTwo(8) == 256;
    PowersGrow(attempts);
  }

  lemma {:induction false} PowersGrow(k: nat)
    ensures 1 <= PowerOfTwo(k) && (k <= 8 ==> PowerOfTwo(k) <= 256) && (k <= 9 && k > 0 ==> PowerOfTwo(k - 1) <= 256)
    decreases k
  {
    assert PowerOfTwo(0) == 1 && PowerOfTwo(1) == 2 && PowerOfTwo(2) == 4 && PowerOfTwo(3) == 8 && PowerOfTwo(4) == 16;
    assert PowerOfTwo(5) == 32 && PowerOfTwo(6) == 64 && PowerOfTwo(7) == 128 && PowerOfTwo(8) == 256;
    if k > 0 {
      PowersGrow(k - 1);
    }
  }
}
