/** The keeper as a whole: the round engine and the journal take turns on one state file. */
module KeeperRuns {
  import opened Ledgers
  import Bookings
  import Engine
  import EngineInvariants
  import EngineLaws
  import EngineRuns
  import Journal

  /** `engine.ledger` and `world.saved.ledger` are the same buckets. */
  datatype Keeper = Keeper(engine: Engine.State, world: Journal.World)

  datatype Turn =
    | RoundStep(step: EngineRuns.Step)
    | JournalStep(event: Journal.Event)
      // A transaction that is not journaled, charged to the bucket that caused it.
    | ChargeTransaction(bucket: Journal.SpentBucket, cost: nat)

  /** Neither side books anything by hand: all that changes the other's ledger is a step of its own. */
  ghost predicate Fair(k: Keeper, turn: Turn) {
    match turn
    case RoundStep(step) => !step.OtherBooking? && EngineRuns.Enabled(k.engine, step)
    case JournalStep(event) => !event.OtherBooking? && Journal.Fair(k.world, event)
    case ChargeTransaction(_, _) => true
  }

  function WithLedger(k: Keeper, ledger: Ledger): Keeper {
    Keeper(k.engine.(ledger := ledger), k.world.(saved := k.world.saved.(ledger := ledger)))
  }

  ghost function Next(k: Keeper, turn: Turn, shares: Shares): Keeper
    requires Fair(k, turn)
  {
    match turn
    case RoundStep(step) =>
      var engine := EngineRuns.Apply(k.engine, step);
      WithLedger(k.(engine := engine), engine.ledger)
    case JournalStep(event) =>
      var world := Journal.Next(k.world, event, shares);
      WithLedger(k.(world := world), world.saved.ledger)
    case ChargeTransaction(bucket, cost) => WithLedger(k, Charge(k.engine.ledger, bucket, cost))
  }

  ghost predicate FairRun(k: Keeper, turns: seq<Turn>, shares: Shares)
    decreases |turns|
  {
    turns == [] || (Fair(k, turns[0]) && FairRun(Next(k, turns[0], shares), turns[1..], shares))
  }

  ghost function Run(k: Keeper, turns: seq<Turn>, shares: Shares): Keeper
    requires FairRun(k, turns, shares)
    decreases |turns|
  {
    if turns == [] then k else Run(Next(k, turns[0], shares), turns[1..], shares)
  }

  /** Tokens brought in less tokens sent to vaults, by the rounds' steps. */
  ghost function Flows(k: Keeper, turns: seq<Turn>, shares: Shares, mint: nat): int
    requires FairRun(k, turns, shares)
    decreases |turns|
  {
    if turns == [] then 0
    else
      (if turns[0].RoundStep? then EngineRuns.Flow(k.engine, turns[0].step, mint) else 0)
      + Flows(Next(k, turns[0], shares), turns[1..], shares, mint)
  }

  ghost predicate Inv(k: Keeper) {
    EngineRuns.Inv(k.engine) && Journal.Inv(k.world) && k.world.saved.ledger == k.engine.ledger
  }

  // ---- each turn keeps it ------------------------------------------------------------------------

  /** Booking on one side is what the other side allows for: no bucket negative, the reserves untouched. */
  lemma {:induction false} BookingIsHarmless(k: Keeper, ledger: Ledger, mint: nat)
    requires Inv(k) && ledger.NonNegative() && ledger.operations == k.engine.ledger.operations
    ensures EngineRuns.Inv(k.engine.(ledger := ledger))
    ensures EngineInvariants.Held(k.engine.(ledger := ledger), mint) == EngineInvariants.Held(k.engine, mint)
  {
    hide EngineRuns.Inv, EngineInvariants.Held;
    EngineRuns.StepKeepsInv(k.engine, EngineRuns.Step.OtherBooking(ledger));
    EngineRuns.StepConserves(k.engine, EngineRuns.Step.OtherBooking(ledger), mint);
  }

  lemma {:induction false} BucketsHold(k: Keeper)
    requires Inv(k)
    ensures k.engine.ledger.NonNegative()
  {
  }

  lemma {:induction false} LedgerIsBeside(w: Journal.World, ledger: Ledger)
    requires Journal.Inv(w)
    ensures Journal.Inv(w.(saved := w.saved.(ledger := ledger)))
  {
  }

  lemma {:induction false} JournalKeepsReserves(k: Keeper, event: Journal.Event, shares: Shares)
    requires Inv(k) && FullShares(shares) && Fair(k, JournalStep(event))
    ensures var after := Journal.Next(k.world, event, shares);
      Journal.Inv(after) && after.saved.ledger.NonNegative()
      && after.saved.ledger.operations == k.engine.ledger.operations
  {
    BucketsHold(k);
    Journal.NextKeepsInv(k.world, event, shares);
    hide Journal.Inv, Journal.SettleEach;
    if event.Pass? {
      Journal.PassKeepsBuckets(k.world.saved, k.world.saved.pending, event.replies, shares);
    }
  }

  lemma {:induction false} ChargeKeepsReserves(k: Keeper, bucket: Journal.SpentBucket, cost: nat)
    requires Inv(k)
    ensures var after := Charge(k.engine.ledger, bucket, cost);
      after.NonNegative() && after.operations == k.engine.ledger.operations
  {
    BucketsHold(k);
    ChargeTakes(k.engine.ledger, bucket, cost);
    assert Charge(k.engine.ledger, bucket, cost).Get(Operations) == k.engine.ledger.Get(Operations);
  }

  lemma {:induction false} RoundStepKeepsInv(k: Keeper, step: EngineRuns.Step, shares: Shares, mint: nat)
    requires Inv(k) && Fair(k, RoundStep(step))
    ensures Inv(Next(k, RoundStep(step), shares))
    ensures EngineInvariants.Held(Next(k, RoundStep(step), shares).engine, mint)
         == EngineInvariants.Held(k.engine, mint) + EngineRuns.Flow(k.engine, step, mint)
  {
    hide EngineRuns.Inv, Journal.Inv, EngineRuns.Apply, EngineRuns.Enabled, EngineRuns.Flow, EngineInvariants.Held;
    EngineRuns.StepKeepsInv(k.engine, step);
    EngineRuns.StepConserves(k.engine, step, mint);
    LedgerIsBeside(k.world, EngineRuns.Apply(k.engine, step).ledger);
  }

  lemma {:induction false} NextKeepsInv(k: Keeper, turn: Turn, shares: Shares, mint: nat)
    requires Inv(k) && FullShares(shares) && Fair(k, turn)
    ensures Inv(Next(k, turn, shares))
    ensures EngineInvariants.Held(Next(k, turn, shares).engine, mint) == EngineInvariants.Held(k.engine, mint)
      + if turn.RoundStep? then EngineRuns.Flow(k.engine, turn.step, mint) else 0
  {
    match turn {
      case RoundStep(step) => RoundStepKeepsInv(k, step, shares, mint);
      case JournalStep(event) =>
        JournalKeepsReserves(k, event, shares);
        hide EngineRuns.Inv, Journal.Inv, Journal.Next, EngineInvariants.Held;
        var world := Journal.Next(k.world, event, shares);
        BookingIsHarmless(k, world.saved.ledger, mint);
      case ChargeTransaction(bucket, cost) =>
        ChargeKeepsReserves(k, bucket, cost);
        hide EngineRuns.Inv, Journal.Inv, EngineInvariants.Held, Charge;
        BookingIsHarmless(k, Charge(k.engine.ledger, bucket, cost), mint);
        LedgerIsBeside(k.world, Charge(k.engine.ledger, bucket, cost));
    }
  }

  lemma {:induction false} RunKeepsInv(k: Keeper, turns: seq<Turn>, shares: Shares, mint: nat)
    requires Inv(k) && FullShares(shares) && FairRun(k, turns, shares)
    ensures Inv(Run(k, turns, shares))
    ensures EngineInvariants.Held(Run(k, turns, shares).engine, mint)
         == EngineInvariants.Held(k.engine, mint) + Flows(k, turns, shares, mint)
    decreases |turns|
  {
    hide Inv, Fair, Next, EngineRuns.Flow, EngineInvariants.Held;
    if turns != [] {
      NextKeepsInv(k, turns[0], shares, mint);
      RunKeepsInv(Next(k, turns[0], shares), turns[1..], shares, mint);
    }
  }

  // ---- whole runs ------------------------------------------------------------------------------------

  ghost predicate Start(k: Keeper) {
    k.engine == EngineRuns.FRESH_STATE && k.world.saved.ledger == k.engine.ledger && Journal.Start(k.world)
  }

  /** However rounds, settling passes, crashes and charges interleave: what rounds have set aside stays theirs and no
      bucket is negative, each landed transaction is booked once or still pending, and no token goes missing. */
  lemma {:induction false} KeeperHolds(start: Keeper, turns: seq<Turn>, shares: Shares, mint: nat)
    requires Start(start) && FullShares(shares) && FairRun(start, turns, shares)
    ensures var k := Run(start, turns, shares);
      && k.world.saved.ledger == k.engine.ledger
      && EngineRuns.Inv(k.engine) && Journal.Inv(k.world)
      && EngineInvariants.Held(k.engine, mint) == Flows(start, turns, shares, mint)
  {
    hide EngineRuns.Inv, Journal.Inv, FairRun, Run, Flows, EngineInvariants.Held;
    EngineRuns.FreshStateHolds(mint);
    Journal.StartInv(start.world);
    RunKeepsInv(start, turns, shares, mint);
  }

  // ---- every lamport ---------------------------------------------------------------------------------

  /** What a turn adds to the buckets, costs its rounds have yet to settle counted as paid. */
  ghost function Net(k: Keeper, turn: Turn, shares: Shares): int
    requires Inv(k) && Fair(k, turn)
  {
    match turn
    case RoundStep(step) => EngineLaws.Short(k.engine, step) - EngineLaws.CostOf(k.engine, step)
    case JournalStep(Pass(replies)) => Bookings.PassNet(k.world.saved, k.world.saved.pending, replies, shares)
    case JournalStep(_) => 0
    case ChargeTransaction(bucket, cost) =>
      -Journal.Drawn(k.engine.ledger, Journal.Booking(Journal.Spend(bucket), 0 - cost))
  }

  ghost function Nets(k: Keeper, turns: seq<Turn>, shares: Shares): int
    requires Inv(k) && FullShares(shares) && FairRun(k, turns, shares)
    decreases |turns|
  {
    if turns == [] then 0
    else
      NextKeepsInv(k, turns[0], shares, 0);
      Net(k, turns[0], shares) + Nets(Next(k, turns[0], shares), turns[1..], shares)
  }

  /** All buckets, less what rounds under way still have to settle. */
  ghost function Free(k: Keeper): int {
    k.engine.ledger.Total() - EngineLaws.Unsettled(k.engine)
  }

  lemma {:induction false} TurnNets(k: Keeper, turn: Turn, shares: Shares)
    requires Inv(k) && FullShares(shares) && Fair(k, turn)
    ensures Free(Next(k, turn, shares)) == Free(k) + Net(k, turn, shares)
  {
    match turn {
      case RoundStep(step) =>
        hide EngineRuns.Inv, Journal.Inv, EngineRuns.Apply, EngineRuns.Enabled, EngineLaws.CostOf, EngineLaws.Short;
        EngineLaws.StepCosts(k.engine, step);
      case JournalStep(event) =>
        BucketsHold(k);
        hide EngineRuns.Inv, Journal.Inv, EngineLaws.UnsettledIn, Journal.SettleEach;
        if event.Pass? {
          Bookings.PassTotals(k.world.saved, k.world.saved.pending, event.replies, shares);
        }
      case ChargeTransaction(bucket, cost) =>
        BucketsHold(k);
        hide EngineRuns.Inv, Journal.Inv, EngineLaws.UnsettledIn, Charge;
        ChargeTakes(k.engine.ledger, bucket, cost);
    }
  }

  /** Over every interleaving the buckets change by what landed claims brought in, less what spends, charges and rounds
      cost: nothing is credited twice, and nothing is spent that is not booked, but where a bucket had run dry. */
  lemma {:induction false} KeeperTotals(k: Keeper, turns: seq<Turn>, shares: Shares)
    requires Inv(k) && FullShares(shares) && FairRun(k, turns, shares)
    ensures Free(Run(k, turns, shares)) == Free(k) + Nets(k, turns, shares)
    decreases |turns|
  {
    hide Inv, Fair, Next, Net, Free;
    if turns != [] {
      NextKeepsInv(k, turns[0], shares, 0);
      TurnNets(k, turns[0], shares);
      KeeperTotals(Next(k, turns[0], shares), turns[1..], shares);
    }
  }
}
