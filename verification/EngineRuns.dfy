/** Every run of the keeper's steps: reserves add up, settling never clips, and no token goes missing. */
module EngineRuns {
  import opened Terms
  import opened Ledgers
  import opened Engine
  import opened EngineInvariants
  import opened Fees
  import GrossUp

  datatype Step =
    | Open(roundId: nat, setup: int, opening: Option<int>)
    | ChargePot(lamports: int)
    | AdvanceTo(status: RoundStatus, cost: Option<int>)
    | AbandonIt(cost: Option<int>)
    | Select(candidates: seq<Candidate>, estimate: nat, swapOverhead: nat)
    | Settle(i: nat, settlement: Settlement)
    | Reserve(held: seq<nat>, vetting: Vetting)
    | CommitIt(cost: Option<int>, payable: seq<Candidate>, expiryTs: int)
    | ActivateAssets(at: nat, mints: seq<nat>, replies: map<nat, Activation>, now: int, maxAttempts: nat)
    | PushCost(at: nat, lamports: int)
    | FinishIt(at: nat)
    | CloseIt(at: nat, j: nat, closing: Closing, now: int)
      // Claims, spends and charges of the coin's other sub-steps; KeeperRuns shows that they are no more than this.
    | OtherBooking(ledger: Ledger)

  predicate Follows(status: RoundStatus, next: RoundStatus) {
    match status
    case Collecting => next == Collecting || next == WindowClosed
    case WindowClosed => next == Seeded
    case Funded => next == Prepared
    case _ => false
  }

  /** When the dispatcher can take a step. A new round's id is the chain's next one, which no committed round has. */
  ghost predicate Enabled(s: State, step: Step) {
    match step
    case Open(roundId, _, _) => s.round.None? && NotPaying(s.paying, roundId)
    case ChargePot(_) => true
    case AdvanceTo(status, _) =>
      s.round.Some? && Follows(s.round.value.status, status)
    case AbandonIt(_) => s.round.Some? && (s.round.value.status == Collecting || s.round.value.status == WindowClosed)
    case Select(_, _, _) => s.round.Some? && s.round.value.status == Seeded && s.round.value.purchases.None?
    case Settle(i, _) =>
      s.round.Some? && s.round.value.status == Seeded && s.round.value.purchases.Some?
      && i < |s.round.value.purchases.value|
    case Reserve(_, _) => s.round.Some? && s.round.value.status == Seeded && s.round.value.purchases.Some?
    case CommitIt(_, _, _) => s.round.Some? && s.round.value.status == Prepared
    case ActivateAssets(at, _, _, _, _) => at < |s.paying| && s.paying[at].status == Committed
    case PushCost(at, _) => at < |s.paying| && s.paying[at].status == Active
    case FinishIt(at) => at < |s.paying|
    case CloseIt(at, j, _, _) => at < |s.expiring| && j < |s.expiring[at].assets|
    case OtherBooking(ledger) => ledger.NonNegative() && ledger.operations == s.ledger.operations
  }

  ghost function Apply(s: State, step: Step): State
    requires Enabled(s, step)
  {
    match step
    case Open(roundId, setup, opening) => OpenRound(s, roundId, setup, opening)
    case ChargePot(cost) => s.(ledger := ChargeBasket(s.ledger, cost))
    case AdvanceTo(status, cost) => Advance(s, status, cost)
    case AbandonIt(cost) => AbandonCollecting(s, cost)
    case Select(candidates, estimate, overhead) => SelectBasket(s, candidates, estimate, overhead)
    case Settle(i, settlement) => SettlePurchase(s, i, settlement)
    case Reserve(held, vetting) => ReserveAssets(s, held, vetting)
    case CommitIt(cost, payable, expiryTs) => Commit(s, cost, payable, expiryTs)
    case ActivateAssets(at, mints, replies, now, max) => Activate(s, at, mints, replies, now, max)
    case PushCost(at, cost) => ChargePaying(s, at, cost)
    case FinishIt(at) => FinishPaying(s, at)
    case CloseIt(at, j, closing, now) => CloseExpired(s, at, j, closing, now)
    case OtherBooking(ledger) => s.(ledger := ledger)
  }

  /** What an activation step sends to vaults; one that throws has sent nothing. */
  ghost function SentIn(s: State, at: nat, mints: seq<nat>, replies: map<nat, Activation>, now: int, max: nat,
                        mint: nat): int
    requires at < |s.paying|
  {
    if ActivateEach(StartActivating(s, at), mints, replies, now, max).failed then 0
    else SentEach(StartActivating(s, at), mints, replies, now, max, mint)
  }

  /** Tokens that come into the keeper's books less those that leave them for a vault. */
  ghost function Flow(s: State, step: Step, mint: nat): int
    requires Enabled(s, step)
  {
    match step
    case Settle(i, r) => if r.tokens > 0 && s.round.value.purchases.value[i].mint == mint then r.arrived else 0
    case ActivateAssets(at, mints, replies, now, max) =>
      -SentIn(s, at, mints, replies, now, max, mint)
    case CloseIt(at, j, Closed(_, remaining, arrived), _) =>
      if remaining > 0 && s.expiring[at].assets[j].mint == mint then arrived else 0
    case _ => 0
  }

  /** Nothing is set aside before its time, so nothing can be overwritten or abandoned with it. */
  ghost predicate RoundShape(s: State) {
    s.round.Some? ==>
      var round := s.round.value;
      (round.status == Collecting || round.status == WindowClosed ==> round.purchases.None?)
      && (round.purchases.None? ==> round.reserve == 0)
      && (round.status == Collecting || round.status == WindowClosed || round.status == Seeded ==> round.assets == [])
  }

  ghost predicate Inv(s: State) {
    ReserveInv(s) && RoundShape(s)
  }

  // ---- reserves ------------------------------------------------------------------------------

  lemma {:induction false} ChargesKeepBuckets(ledger: Ledger, cost: int)
    requires ledger.NonNegative()
    ensures ChargeBasket(ledger, cost).NonNegative() && ChargeBasket(ledger, cost).operations == ledger.operations
  {
  }

  /** What is set aside and what may be spent on coins never exceed the pot. */
  lemma {:induction false} BudgetFits(s: State, selected: seq<Candidate>, estimate: nat, swapOverhead: nat)
    requires s.round.Some? && s.ledger.NonNegative() && s.round.value.reserve == 0 && s.round.value.purchases.None?
    ensures var after := SelectBasket(s, selected, estimate, swapOverhead);
      after.ledger.NonNegative() && after.round.value.purchases.Some?
      && after.ledger.basket + after.ledger.operations == s.ledger.basket + s.ledger.operations
      && after.ledger.operations == s.ledger.operations + after.round.value.reserve
      && (after.round.value.purchases.value != [] ==>
            after.round.value.reserve + after.round.value.budget * |after.round.value.purchases.value|
              <= s.ledger.basket)
  {
    var candidates := Deduplicate(selected);
    if |candidates| > 0 {
      QuotientFits(s.ledger.basket - ReserveFor(candidates, estimate), |candidates|);
    }
  }

  lemma {:induction false} QuotientFits(x: int, n: nat)
    requires n > 0
    ensures x > 0 ==> x / n * n <= x
  {
  }

  lemma {:induction false} SelectKeepsInv(s: State, selected: seq<Candidate>, estimate: nat, swapOverhead: nat)
    requires Inv(s) && Enabled(s, Select(selected, estimate, swapOverhead))
    ensures Inv(SelectBasket(s, selected, estimate, swapOverhead))
  {
    BudgetFits(s, selected, estimate, swapOverhead);
    hide Deduplicate, PerCoin, ToPurchases;
  }

  /** Settling a paying round's reserve: the bucket holds it in full, and every other round's stays. */
  lemma {:induction false} FinishKeepsInv(s: State, at: nat)
    requires Inv(s) && at < |s.paying|
    ensures Inv(FinishPaying(s, at)) && s.paying[at].reserve <= s.ledger.operations
    ensures FinishPaying(s, at).ledger.operations == s.ledger.operations - s.paying[at].reserve
  {
    hide Reconcile, ReleaseWhere, WithoutRound;
    var round := s.paying[at];
    ReservesPart(s.paying, at);
    ReconcileSettles(s.ledger, round.reserve, round.spent);
    WithoutDrops(s.paying, round.roundId);
    WithoutReserves(s.paying, at);
    if s.round.Some? {
      StillNotPaying(s.paying, round.roundId, s.round.value.roundId);
    }
  }

  lemma {:induction false} CommitKeepsInv(s: State, cost: Option<int>, payable: seq<Candidate>, expiryTs: int)
    requires Inv(s) && s.round.Some?
    ensures Inv(Commit(s, cost, payable, expiryTs))
  {
    hide Reconcile, ReleaseWhere, WithoutRound, ToExpiring;
    var round := ChargeRound(s.round.value, cost);
    if payable == [] {
      ReconcileSettles(s.ledger, round.reserve, round.spent);
      WithoutDrops(s.paying, round.roundId);
    } else {
      var after := Commit(s, cost, payable, expiryTs);
      ReservesAppend(s.paying, after.paying[|s.paying|]);
    }
  }

  lemma {:induction false} ReplaceKeepsInv(s: State, after: State, at: nat, round: ActiveRound)
    requires Inv(s) && at < |s.paying| && round.roundId == s.paying[at].roundId && round.reserve == s.paying[at].reserve
    requires after.paying == s.paying[at := round] && after.ledger == s.ledger && after.round == s.round
    ensures Inv(after)
  {
    ReservesUpdate(s.paying, at, round);
  }

  lemma {:induction false} ActivateKeepsInv(s: State, at: nat, mints: seq<nat>, replies: map<nat, Activation>,
                                            now: int, max: nat)
    requires Inv(s) && at < |s.paying|
    ensures Inv(Activate(s, at, mints, replies, now, max))
  {
    hide Inv, ActivateEach;
    var after := Activate(s, at, mints, replies, now, max);
    ActivateEachConserves(StartActivating(s, at), mints, replies, now, max, 0);
    ReplaceKeepsInv(s, after, at, after.paying[at]);
  }

  lemma {:induction false} CloseKeepsInv(s: State, at: nat, j: nat, closing: Closing, now: int)
    requires Inv(s) && at < |s.expiring| && j < |s.expiring[at].assets|
    ensures Inv(CloseExpired(s, at, j, closing, now))
  {
    hide Drop, Postpone;
    if closing.Closed? && closing.cost.Some? {
      ChargesKeepBuckets(s.ledger, closing.cost.value);
    }
    PostponeKeeps(s, at, j, now + 30);
    PostponeKeeps(s, at, j, now + BackoffSecs(s.expiring[at].assets[j].attempts + 1));
  }

  lemma {:induction false} PostponeKeeps(s: State, at: nat, j: nat, until: int)
    requires at < |s.expiring| && j < |s.expiring[at].assets|
    ensures Postpone(s, at, j, until).ledger == s.ledger && Postpone(s, at, j, until).round == s.round
    ensures Postpone(s, at, j, until).paying == s.paying && Postpone(s, at, j, until).inventory == s.inventory
  {
  }

  /** After every step, and at the one save in the middle of one, the operations bucket is the sum of the reserves
      still outstanding and no bucket is negative. */
  lemma {:induction false} StepKeepsInv(s: State, step: Step)
    requires Inv(s) && Enabled(s, step)
    ensures Inv(Apply(s, step))
  {
    hide SelectBasket, FinishPaying, Commit, Activate, CloseExpired, ReserveAll;
    match step {
      case Select(candidates, estimate, overhead) => SelectKeepsInv(s, candidates, estimate, overhead);
      case CommitIt(cost, payable, expiryTs) => CommitKeepsInv(s, cost, payable, expiryTs);
      case ActivateAssets(at, mints, replies, now, max) => ActivateKeepsInv(s, at, mints, replies, now, max);
      case PushCost(at, cost) => ReplaceKeepsInv(s, Apply(s, step), at, Apply(s, step).paying[at]);
      case FinishIt(at) => FinishKeepsInv(s, at);
      case CloseIt(at, j, closing, now) => CloseKeepsInv(s, at, j, closing, now);
      case AbandonIt(cost) => AbandonKeepsInv(s, cost);
      case _ =>
    }
  }

  lemma {:induction false} AbandonKeepsInv(s: State, cost: Option<int>)
    requires Inv(s) && s.round.Some?
    ensures Inv(AbandonCollecting(s, cost))
  {
    hide Reconcile;
    var round := ChargeRound(s.round.value, cost);
    ReconcileSettles(s.ledger, round.reserve, round.spent);
  }

  // ---- tokens -----------------------------------------------------------------------------------

  lemma {:induction false} FinishConserves(s: State, at: nat, mint: nat)
    requires Inv(s) && at < |s.paying|
    ensures Held(FinishPaying(s, at), mint) == Held(s, mint)
  {
    hide ReleaseWhere, WithoutRound, Reconcile;
    var round := s.paying[at];
    ReleaseConserves(round.assets, s.inventory, {}, true, |round.assets|, mint);
    ReleaseLeavesNothing(round.assets, s.inventory, |round.assets|);
    NothingReserved(ReleaseWhere(round.assets, s.inventory, {}, true, |round.assets|).assets, mint);
    PayingWithout(s.paying, at, mint);
  }

  lemma {:induction false} CommitConserves(s: State, cost: Option<int>, payable: seq<Candidate>, expiryTs: int,
                                           mint: nat)
    requires Inv(s) && s.round.Some?
    ensures Held(Commit(s, cost, payable, expiryTs), mint) == Held(s, mint)
  {
    hide ReleaseWhere, WithoutRound, Reconcile, ToExpiring;
    var round := ChargeRound(s.round.value, cost);
    var kept := set c | c in payable :: c.mint;
    ReleaseConserves(round.assets, s.inventory, kept, false, |round.assets|, mint);
    var r := ReleaseWhere(round.assets, s.inventory, kept, false, |round.assets|);
    if payable == [] {
      ReleaseConserves(r.assets, r.inventory, {}, true, |r.assets|, mint);
      ReleaseLeavesNothing(r.assets, r.inventory, |r.assets|);
      NothingReserved(ReleaseWhere(r.assets, r.inventory, {}, true, |r.assets|).assets, mint);
      WithoutDrops(s.paying, round.roundId);
    } else {
      var after := Commit(s, cost, payable, expiryTs);
      PayingAppend(s.paying, after.paying[|s.paying|], mint);
    }
  }

  lemma {:induction false} ActivateConserves(s: State, at: nat, mints: seq<nat>, replies: map<nat, Activation>,
                                             now: int, max: nat, mint: nat)
    requires at < |s.paying|
    ensures Held(Activate(s, at, mints, replies, now, max), mint)
         == Held(s, mint) - SentIn(s, at, mints, replies, now, max, mint)
  {
    hide ActivateEach, SentEach;
    var after := Activate(s, at, mints, replies, now, max);
    if !ActivateEach(StartActivating(s, at), mints, replies, now, max).failed {
      ActivateEachConserves(StartActivating(s, at), mints, replies, now, max, mint);
      PayingUpdate(s.paying, at, after.paying[at], mint);
    }
  }

  lemma {:induction false} ReserveStepConserves(s: State, held: seq<nat>, vetting: Vetting, mint: nat)
    requires s.round.Some? && s.round.value.assets == []
    ensures Held(ReserveAssets(s, held, vetting), mint) == Held(s, mint)
  {
    hide ReserveAll, Once;
    var bought := if s.round.value.purchases.Some? then BoughtMints(s.round.value.purchases.value) else [];
    var mints := Once(bought + held);
    ReserveConserves(s.inventory, if |mints| > MAX_VETTED_MINTS then mints[..MAX_VETTED_MINTS] else mints, vetting,
                     mint);
  }

  lemma {:induction false} CloseConserves(s: State, at: nat, j: nat, closing: Closing, now: int, mint: nat)
    requires at < |s.expiring| && j < |s.expiring[at].assets|
    ensures Held(CloseExpired(s, at, j, closing, now), mint)
         == Held(s, mint) + Flow(s, CloseIt(at, j, closing, now), mint)
  {
    hide Drop, Postpone, ReservedPaying, ReservedIn;
    PostponeKeeps(s, at, j, now + 30);
    PostponeKeeps(s, at, j, now + BackoffSecs(s.expiring[at].assets[j].attempts + 1));
  }

  lemma {:induction false} PushConserves(s: State, at: nat, cost: int, mint: nat)
    requires at < |s.paying|
    ensures Held(ChargePaying(s, at, cost), mint) == Held(s, mint)
  {
    PayingUpdate(s.paying, at, ChargePaying(s, at, cost).paying[at], mint);
  }

  /** Per mint, inventory and pending reservations change only by what buying and closing bring in and what vaults
      are sent. */
  lemma {:induction false} StepConserves(s: State, step: Step, mint: nat)
    requires Inv(s) && Enabled(s, step)
    ensures Held(Apply(s, step), mint) == Held(s, mint) + Flow(s, step, mint)
  {
    hide SelectBasket, FinishPaying, Commit, Activate, CloseExpired, ReserveAssets, ReservedPaying, ReservedIn,
      ReserveInv;
    match step {
      case Select(candidates, estimate, overhead) => SelectConserves(s, candidates, estimate, overhead, mint);
      case Reserve(held, vetting) => ReserveStepConserves(s, held, vetting, mint);
      case CommitIt(cost, payable, expiryTs) => CommitConserves(s, cost, payable, expiryTs, mint);
      case ActivateAssets(at, mints, replies, now, max) => ActivateConserves(s, at, mints, replies, now, max, mint);
      case PushCost(at, cost) => PushConserves(s, at, cost, mint);
      case FinishIt(at) => FinishConserves(s, at, mint);
      case CloseIt(at, j, closing, now) => CloseConserves(s, at, j, closing, now, mint);
      case Open(_, _, _) => NothingReserved([], mint);
      case AbandonIt(_) => NothingReserved([], mint);
      case _ =>
    }
  }

  lemma {:induction false} SelectConserves(s: State, candidates: seq<Candidate>, estimate: nat, swapOverhead: nat,
                                           mint: nat)
    requires s.round.Some?
    ensures Held(SelectBasket(s, candidates, estimate, swapOverhead), mint) == Held(s, mint)
  {
  }

  // ---- runs -----------------------------------------------------------------------------------------

  ghost predicate EnabledRun(s: State, steps: seq<Step>)
    decreases |steps|
  {
    steps == [] || (Enabled(s, steps[0]) && EnabledRun(Apply(s, steps[0]), steps[1..]))
  }

  ghost function Run(s: State, steps: seq<Step>): State
    requires EnabledRun(s, steps)
    decreases |steps|
  {
    if steps == [] then s else Run(Apply(s, steps[0]), steps[1..])
  }

  ghost function Flows(s: State, steps: seq<Step>, mint: nat): int
    requires EnabledRun(s, steps)
    decreases |steps|
  {
    if steps == [] then 0 else Flow(s, steps[0], mint) + Flows(Apply(s, steps[0]), steps[1..], mint)
  }

  /** Over every run the reserves add up throughout, and each mint's holdings change by what flowed. */
  lemma {:induction false} BooksBalance(s: State, steps: seq<Step>, mint: nat)
    requires Inv(s) && EnabledRun(s, steps)
    ensures Inv(Run(s, steps)) && Held(Run(s, steps), mint) == Held(s, mint) + Flows(s, steps, mint)
    decreases |steps|
  {
    hide Inv, Apply, Enabled, Flow, Held;
    if steps != [] {
      StepKeepsInv(s, steps[0]);
      StepConserves(s, steps[0], mint);
      BooksBalance(Apply(s, steps[0]), steps[1..], mint);
    }
  }

  const FRESH_STATE := State(Ledger(0, 0, 0, 0, 0), map[], None, [], [])

  lemma {:induction false} FreshStateHolds(mint: nat)
    ensures Inv(FRESH_STATE) && Held(FRESH_STATE, mint) == 0
  {
  }

  // ---- sending to a vault, and a crash after it -------------------------------------------------------

  /** What `openFundActivate` sends a vault that already holds `balance`. */
  function ToTransfer(config: FeeConfig, needed: nat, balance: nat): nat {
    if balance < needed then GrossUp.Iterate(config, needed - balance, GrossUp.ROUNDS) else 0
  }

  /** A vault is funded by what is sent to it exactly when nothing was missing or the gross-up reaches what was. */
  lemma {:induction false} TransferFunds(config: FeeConfig, needed: nat, balance: nat)
    requires Fees.ValidFee(config)
    ensures balance + GrossUp.Arrives(config, ToTransfer(config, needed, balance)) >= needed
      <==> balance >= needed || GrossUp.Reaches(config, needed - balance)
  {
    hide GrossUp.Reaches, Fees.Fee, GrossUp.Iterate;
    if balance < needed {
      GrossUp.ReachesIff(config, needed - balance);
    } else {
      Fees.FeeAtMostAmount(config, 0);
    }
  }

  /** What recovery credits for an asset found active: the reservation less the gross of what its vault was measured to
      hold, under the fee in force by then. */
  function Recovered(later: FeeConfig, fundAmount: nat, funded: nat): nat {
    var used := GrossUp.Iterate(later, funded, GrossUp.ROUNDS);
    if fundAmount > used then fundAmount - used else 0
  }

  ghost predicate FeeNowhereLower(earlier: FeeConfig, later: FeeConfig) {
    forall amount: nat :: Fees.Fee(earlier, amount) <= Fees.Fee(later, amount)
  }

  /** If the fee has not fallen since the tokens were sent, no more is credited than was left over. */
  lemma {:induction false} CrashCreditsNoMore(earlier: FeeConfig, later: FeeConfig, needed: nat, balance: nat,
                                              funded: nat, fundAmount: nat)
    requires Fees.ValidFee(earlier) && Fees.ValidFee(later) && FeeNowhereLower(earlier, later)
    requires funded >= needed && ToTransfer(earlier, needed, balance) <= fundAmount
    ensures Recovered(later, fundAmount, funded) <= fundAmount - ToTransfer(earlier, needed, balance)
  {
    if balance < needed {
      GrossUp.GrossIsMonotone(earlier, needed - balance, funded - (needed - balance), GrossUp.ROUNDS);
      GrossUp.GrossGrowsWithFee(earlier, later, funded, GrossUp.ROUNDS);
    }
  }

  /** For every vault, donations and earlier balances included, and every fee at recovery: more is credited than was
      left over exactly when the gross-up of what the vault was measured to hold comes out below what was sent. Where it
      reaches, that is when one unit less than was sent would deliver as much; and then it is even where it does not. */
  lemma {:induction false} CrashCreditsMoreIff(later: FeeConfig, sent: nat, fundAmount: nat, funded: nat)
    requires Fees.ValidFee(later) && sent <= fundAmount
    ensures Recovered(later, fundAmount, funded) > fundAmount - sent <==> GrossUp.Returned(later, funded) < sent
    ensures sent > 0 && GrossUp.Delivers(later, sent - 1, funded) ==>
              Recovered(later, fundAmount, funded) > fundAmount - sent
    ensures GrossUp.Reaches(later, funded) ==>
              (Recovered(later, fundAmount, funded) > fundAmount - sent
               <==> sent > 0 && GrossUp.Delivers(later, sent - 1, funded))
  {
    hide GrossUp.Reaches, GrossUp.Returned, Fees.Fee, GrossUp.Iterate;
    GrossUp.ReachesIff(later, funded);
    var used := GrossUp.Iterate(later, funded, GrossUp.ROUNDS);
    if sent > 0 && GrossUp.Delivers(later, sent - 1, funded) {
      GrossUp.NeverOvershoots(later, funded, GrossUp.ROUNDS, sent - 1);
    }
    if used < sent && GrossUp.Reaches(later, funded) {
      GrossUp.MoreDelivers(later, used, sent - 1, funded);
    }
  }

  /** For a vault that holds what arrived of `sent` and nothing else, a fee that has fallen on it always does. */
  lemma {:induction false} FallenFeeCreditsMore(earlier: FeeConfig, later: FeeConfig, sent: nat, fundAmount: nat,
                                                funded: nat)
    requires Fees.ValidFee(earlier) && Fees.ValidFee(later) && sent <= fundAmount
    requires funded == GrossUp.Arrives(earlier, sent) && Fees.Fee(later, sent) < Fees.Fee(earlier, sent)
    ensures Recovered(later, fundAmount, funded) > fundAmount - sent
  {
    hide Fees.Fee, GrossUp.Iterate;
    Fees.FeeAtMostAmount(earlier, sent);
    GrossUp.FeeGrows(later, sent - 1, 1);
    GrossUp.NeverOvershoots(later, funded, GrossUp.ROUNDS, sent - 1);
  }

  /** A fee of 3% that is dropped before the keeper recovers: 30,928 units are credited though nothing was left over. */
  lemma {:induction false} DroppedFeeCreditsTooMuch()
    ensures var earlier, later := FeeConfig(300, 1_000_000_000), FeeConfig(0, 0);
      && ToTransfer(earlier, 1_000_000, 0) == 1_030_928
      && GrossUp.Arrives(earlier, 1_030_928) == 1_000_000
      && Recovered(later, 1_030_928, 1_000_000) == 30_928
  {
    var earlier, later := FeeConfig(300, 1_000_000_000), FeeConfig(0, 0);
    assert GrossUp.Withheld(300, 1_000_000) == 30_928;
    assert GrossUp.Iterate(later, 1_000_000, 0) == GrossUp.Iterate(later, 1_000_000, 1) == 1_000_000;
    GrossUp.EightRoundsReach(earlier, 1_000_000);
    GrossUp.LeastIs(earlier, 1_000_000, 1_030_928);
    GrossUp.StaysThere(later, 1_000_000, 0, GrossUp.ROUNDS);
  }
}
