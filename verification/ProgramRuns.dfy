/** The whole program: sampling and payouts of one distributor on one chain, commits turning the one into the other. */
module ProgramRuns {
  import opened Terms
  import Bits
  import Distributor
  import Fees
  import Handlers
  import Lifecycle
  import LifecycleRuns
  import Merkle
  import PayoutSafety
  import SamplingHandlers
  import SlotHashes

  /** `s` is the distributor with its intents and headers; `c` is everything payouts touch, other distributors
      included. */
  datatype Program = Program(s: Lifecycle.State, c: Distributor.Chain)

  datatype Turn =
      // One of the sampling instructions, or the authority's hand-over.
    | Sample(action: LifecycleRuns.Action)
      // One of the payout instructions; another distributor's commits too.
    | Pay(payment: PayoutSafety.Action)
      // Time passes for both, and everyone else uses the token program.
    | Elapse(now: i64, slot: u64, tokens: map<Key, Distributor.TokenAccount>, fees: map<Key, Fees.FeeConfig>)

  ghost predicate Fair(p: Program, turn: Turn) {
    match turn
    case Sample(action) => !action.Tick?
    case Pay(action) =>
      !action.Environment? && PayoutSafety.Fair(p.c, action)
      && (action.NewRound? ==> action.header.distributor != p.s.distributor)
    case Elapse(now, slot, tokens, fees) =>
      p.s.slot <= slot && PayoutSafety.Fair(p.c, PayoutSafety.Action.Environment(now, tokens, fees))
  }

  /** What a sampling instruction leaves for payouts: the authority, and the header a commit creates. */
  ghost function Handed(c: Distributor.Chain, s: Lifecycle.State, action: LifecycleRuns.Action): Distributor.Chain {
    var next := LifecycleRuns.After(s, action);
    var named := c.(authorities := c.authorities[s.distributor := next.rootAuthority]);
    if action.Commit? && LifecycleRuns.Step(s, action).Ok? && action.params.roundId in next.headers then
      PayoutSafety.After(named, Started(next, action.params.roundId))
    else named
  }

  ghost function Started(s: Lifecycle.State, id: u64): PayoutSafety.Action
    requires id in s.headers
  {
    PayoutSafety.Action.NewRound(RoundKey(s.distributor, id), SamplingHandlers.PayoutHeader(s, s.headers[id]))
  }

  ghost function Next(p: Program, turn: Turn): Program {
    match turn
    case Sample(action) => Program(LifecycleRuns.After(p.s, action), Handed(p.c, p.s, action))
    case Pay(action) => p.(c := PayoutSafety.After(p.c, action))
    case Elapse(now, slot, tokens, fees) =>
      Program(LifecycleRuns.After(p.s, LifecycleRuns.Action.Tick(now, slot)),
              PayoutSafety.After(p.c, PayoutSafety.Action.Environment(now, tokens, fees)))
  }

  ghost function Count(p: Program, turn: Turn, t: LifecycleRuns.Tally): LifecycleRuns.Tally {
    if turn.Sample? then LifecycleRuns.Count(p.s, turn.action, t) else t
  }

  ghost predicate FairRun(p: Program, turns: seq<Turn>)
    decreases |turns|
  {
    turns == [] || (Fair(p, turns[0]) && FairRun(Next(p, turns[0]), turns[1..]))
  }

  ghost function Run(p: Program, turns: seq<Turn>): Program
    decreases |turns|
  {
    if turns == [] then p else Run(Next(p, turns[0]), turns[1..])
  }

  ghost function CountAll(p: Program, turns: seq<Turn>, t: LifecycleRuns.Tally): LifecycleRuns.Tally
    decreases |turns|
  {
    if turns == [] then t else CountAll(Next(p, turns[0]), turns[1..], Count(p, turns[0], t))
  }

  // ---- what ties the two together ---------------------------------------------------------------

  /** Payouts move a header's marks and nothing else. */
  ghost predicate Remarked(a: Distributor.RoundHeader, b: Distributor.RoundHeader) {
    b == a.(openedMask := b.openedMask, closedMask := b.closedMask)
  }

  /** The payout side's rounds of this distributor are exactly the committed ones, each as it was committed. */
  ghost predicate Linked(s: Lifecycle.State, c: Distributor.Chain) {
    (forall id: u64 :: id in s.headers <==> RoundKey(s.distributor, id) in c.rounds)
    && (forall id: u64 :: id in s.headers && RoundKey(s.distributor, id) in c.rounds ==>
          Remarked(SamplingHandlers.PayoutHeader(s, s.headers[id]), c.rounds[RoundKey(s.distributor, id)]))
  }

  ghost predicate Together(p: Program) {
    p.s.now == p.c.now && p.s.distributor in p.c.authorities && p.c.authorities[p.s.distributor] == p.s.rootAuthority
  }

  ghost predicate Inv(p: Program, t: LifecycleRuns.Tally, since: int) {
    LifecycleRuns.Inv(p.s, t, since) && PayoutSafety.Inv(p.c) && Linked(p.s, p.c) && Together(p)
  }

  // ---- sampling turns ---------------------------------------------------------------------------

  lemma {:induction false} SameDistributor(s: Lifecycle.State, action: LifecycleRuns.Action)
    ensures LifecycleRuns.After(s, action).distributor == s.distributor
    ensures !action.Tick? ==> LifecycleRuns.After(s, action).now == s.now
    ensures !action.Commit? ==> LifecycleRuns.After(s, action).headers == s.headers
  {
    hide Lifecycle.CloseRefusal, Lifecycle.CommitRefusal, Lifecycle.AbandonVerdict, Lifecycle.LookUpSeed;
  }

  /** Who the authority is does not matter to what payouts keep. */
  lemma {:induction false} AuthorityIsBeside(c: Distributor.Chain, authorities: map<Key, Key>)
    requires PayoutSafety.Inv(c)
    ensures PayoutSafety.Inv(c.(authorities := authorities))
  {
    var d := c.(authorities := authorities);
    PayoutSafety.InvParts(c);
    hide PayoutSafety.Inv, PayoutSafety.AssetInv, PayoutSafety.Placed, PayoutSafety.PaidOnce;
    forall k | k in d.assets
      ensures PayoutSafety.AssetInv(d, k)
    {
      PayoutSafety.InvOf(c, k);
      PayoutSafety.AssetPlaced(c, k);
      PayoutSafety.PlacesContinue(c, d, k);
      PayoutSafety.AssetFrame(c, d, k);
    }
    PayoutSafety.RecordStays(c, d);
    PayoutSafety.InvCarries(c, d);
  }

  lemma {:induction false} LinkedCommits(s: Lifecycle.State, c: Distributor.Chain)
    requires Linked(s, c)
    ensures SamplingHandlers.OnlyCommitted(s, c)
  {
  }

  lemma {:induction false} CommitKeepsInv(p: Program, t: LifecycleRuns.Tally, since: int, action: LifecycleRuns.Action)
    requires Inv(p, t, since) && action.Commit? && LifecycleRuns.Step(p.s, action).Ok?
    ensures var next := Next(p, Sample(action)); PayoutSafety.Inv(next.c) && Linked(next.s, next.c) && Together(next)
  {
    hide LifecycleRuns.Inv, PayoutSafety.Inv, Lifecycle.CommitRefusal;
    var next := LifecycleRuns.After(p.s, action);
    var named := p.c.(authorities := p.c.authorities[p.s.distributor := next.rootAuthority]);
    AuthorityIsBeside(p.c, named.authorities);
    LinkedCommits(p.s, p.c);
    SamplingHandlers.CommitStartsRound(p.s, t, since, named, action.signer, action.intentId, action.params);
    LifecycleRuns.CommitFacts(p.s, action.signer, action.intentId, action.params);
    PayoutSafety.NewRoundKeepsInv(named, RoundKey(p.s.distributor, action.params.roundId),
      SamplingHandlers.PayoutHeader(next, next.headers[action.params.roundId]));
  }

  lemma {:induction false} SampleKeepsInv(p: Program, t: LifecycleRuns.Tally, since: int, action: LifecycleRuns.Action)
    requires Inv(p, t, since) && !action.Tick?
    ensures Inv(Next(p, Sample(action)), LifecycleRuns.Count(p.s, action, t), since)
  {
    hide LifecycleRuns.Inv, PayoutSafety.Inv, LifecycleRuns.Count, LifecycleRuns.Step, Linked, Together, Handed;
    LifecycleRuns.StepKeepsInv(p.s, action, t, since);
    if action.Commit? && LifecycleRuns.Step(p.s, action).Ok? {
      CommitKeepsInv(p, t, since, action);
    } else {
      OtherKeepsInv(p, t, since, action);
    }
  }

  lemma {:induction false} OtherKeepsInv(p: Program, t: LifecycleRuns.Tally, since: int, action: LifecycleRuns.Action)
    requires Inv(p, t, since) && !action.Tick? && !(action.Commit? && LifecycleRuns.Step(p.s, action).Ok?)
    ensures var next := Next(p, Sample(action)); PayoutSafety.Inv(next.c) && Linked(next.s, next.c) && Together(next)
  {
    SameDistributor(p.s, action);
    NothingCommitted(p.s, action);
    hide LifecycleRuns.Inv, PayoutSafety.Inv, LifecycleRuns.Step, LifecycleRuns.After;
    var named := p.c.authorities[p.s.distributor := LifecycleRuns.After(p.s, action).rootAuthority];
    AuthorityIsBeside(p.c, named);
    LinkedFrame(p.s, LifecycleRuns.After(p.s, action), p.c, p.c.(authorities := named));
    hide Linked;
  }

  lemma {:induction false} LinkedFrame(s: Lifecycle.State, s': Lifecycle.State, c: Distributor.Chain,
                                       c': Distributor.Chain)
    requires Linked(s, c) && s'.headers == s.headers && s'.distributor == s.distributor && c'.rounds == c.rounds
    ensures Linked(s', c')
  {
  }

  lemma {:induction false} NothingCommitted(s: Lifecycle.State, action: LifecycleRuns.Action)
    requires !(action.Commit? && LifecycleRuns.Step(s, action).Ok?)
    ensures LifecycleRuns.After(s, action).headers == s.headers
  {
    SameDistributor(s, action);
    hide LifecycleRuns.Step;
  }

  /** `commit_round` on both sides: the intent settles, and its header is what payouts read from then on. */
  method CommitOnChain(sampling: SamplingHandlers.SamplingProgram, payouts: Handlers.Program, signer: Key,
                       intentId: u64, params: Lifecycle.CommitParams) returns (error: Option<Lifecycle.Error>)
    requires sampling.Valid() && payouts.Valid() && Linked(sampling.View(), payouts.View())
    modifies sampling, payouts
    ensures sampling.Valid() && payouts.Valid() && Linked(sampling.View(), payouts.View())
    ensures error.Some? ==> sampling.View() == old(sampling.View()) && payouts.View() == old(payouts.View())
    ensures error.None? ==>
              && RoundKey(sampling.distributor, params.roundId) !in old(payouts.rounds)
              && RoundKey(sampling.distributor, params.roundId) in payouts.rounds
              && payouts.rounds[RoundKey(sampling.distributor, params.roundId)].assetsRoot == params.assetsRoot
  {
    hide Linked, PayoutSafety.Inv, LifecycleRuns.Inv, Lifecycle.CommitRound, LifecycleRuns.Count;
    ghost var s, c := sampling.View(), payouts.View();
    if Lifecycle.CommitRound(s, signer, intentId, params).Ok? {
      CommitLinks(s, sampling.tally, sampling.since, c, signer, intentId, params);
    }
    error := sampling.CommitRound(signer, intentId, params);
    if error.None? {
      var header := SamplingHandlers.PayoutHeader(sampling.View(), sampling.headers[params.roundId]);
      payouts.StartRound(RoundKey(sampling.distributor, params.roundId), header);
    }
  }

  lemma {:induction false} CommitLinks(s: Lifecycle.State, t: LifecycleRuns.Tally, since: int, c: Distributor.Chain,
                                       signer: Key, intentId: u64, params: Lifecycle.CommitParams)
    requires LifecycleRuns.Inv(s, t, since) && Linked(s, c)
    requires Lifecycle.CommitRound(s, signer, intentId, params).Ok?
    ensures var next := Lifecycle.CommitRound(s, signer, intentId, params).value;
      var key := RoundKey(s.distributor, params.roundId);
      && params.roundId in next.headers && next.distributor == s.distributor && key !in c.rounds
      && next.headers[params.roundId].assetsRoot == params.assetsRoot
      && var header := SamplingHandlers.PayoutHeader(next, next.headers[params.roundId]);
         PayoutSafety.Fair(c, PayoutSafety.Action.NewRound(key, header))
         && Linked(next, c.(rounds := c.rounds[key := header]))
  {
    hide LifecycleRuns.Inv, Lifecycle.CommitRefusal;
    LinkedCommits(s, c);
    SamplingHandlers.CommitStartsRound(s, t, since, c, signer, intentId, params);
    LifecycleRuns.CommitFacts(s, signer, intentId, params);
  }

  // ---- payout turns -----------------------------------------------------------------------------

  ghost predicate HeadersStay(c: Distributor.Chain, d: Distributor.Chain) {
    d.now == c.now && d.authorities == c.authorities && d.rounds.Keys == c.rounds.Keys
    && forall k :: k in c.rounds && k in d.rounds ==> Remarked(c.rounds[k], d.rounds[k])
  }

  lemma {:induction false} OpenKeepsHeaders(c: Distributor.Chain, round: Key, vault: Key,
                                            params: Distributor.OpenParams)
    requires Distributor.Open(c, round, vault, params).Ok?
    ensures HeadersStay(c, Distributor.Open(c, round, vault, params).value)
  {
    hide Distributor.OpenRefusal, Bits.Mark;
    Distributor.OpenAllowed(c, round, vault, params);
  }

  lemma {:induction false} PaymentKeepsHeaders(c: Distributor.Chain, action: PayoutSafety.Action)
    requires PayoutSafety.Inv(c) && (action.PayOne? || action.PayBlock?) && PayoutSafety.Step(c, action).Ok?
    ensures HeadersStay(c, PayoutSafety.After(c, action))
  {
    hide PayoutSafety.Inv, Distributor.Process, Distributor.PushPayouts, Distributor.Pay;
    if action.PayOne? {
      PayoutSafety.ProcessIsPayable(c, action.request);
      PayoutSafety.PayEffect(c, Distributor.RequestPayout(action.request));
    } else {
      PayoutSafety.PushPayoutsKeepsInv(c, action.block);
    }
  }

  lemma {:induction false} SweepKeepsHeaders(c: Distributor.Chain, action: PayoutSafety.Action)
    requires PayoutSafety.Inv(c) && action.SweepExcess? && PayoutSafety.Step(c, action).Ok?
    ensures HeadersStay(c, PayoutSafety.After(c, action))
  {
    PayoutSafety.InvParts(c);
    hide PayoutSafety.Inv, PayoutSafety.VaultsPinned, PayoutSafety.RoundsNamed, PayoutSafety.PaidOnce,
      Distributor.Sweep;
    PayoutSafety.SweepEffect(c, action.distributor, action.key, action.mint, action.vault, action.rollover,
                             action.tokenProgram);
  }

  lemma {:induction false} CloseKeepsHeaders(c: Distributor.Chain, d: Distributor.Chain, a: PayoutSafety.Action)
    requires PayoutSafety.VaultsPinned(c.tokens) && a.CloseAsset?
    requires Distributor.Close(c, a.distributor, a.round, a.key, a.mint, a.vault, a.rollover, a.wallet, a.tokenProgram)
          == Distributor.Ok(d)
    ensures HeadersStay(c, d)
  {
    hide PayoutSafety.VaultsPinned, Distributor.Close;
    PayoutSafety.CloseEffect(c, a.distributor, a.round, a.key, a.mint, a.vault, a.rollover, a.wallet, a.tokenProgram);
  }

  lemma {:induction false} PayStepKeepsHeaders(c: Distributor.Chain, action: PayoutSafety.Action)
    requires PayoutSafety.Inv(c) && !action.Environment? && !action.NewRound?
    ensures HeadersStay(c, PayoutSafety.After(c, action))
  {
    PayoutSafety.InvParts(c);
    hide PayoutSafety.Inv, PayoutSafety.VaultsPinned, PayoutSafety.RoundsNamed, PayoutSafety.PaidOnce;
    hide HeadersStay, Distributor.Open, Distributor.Process, Distributor.PushPayouts, Distributor.Sweep,
      Distributor.Close;
    if PayoutSafety.Step(c, action).Err? {
      HeadersAreThemselves(c);
    } else {
      match action
      case OpenAsset(round, vault, params) => OpenKeepsHeaders(c, round, vault, params);
      case ActivateAsset(round, key, vault) => ActivateKeepsHeaders(c, round, key, vault);
      case PayOne(_) => PaymentKeepsHeaders(c, action);
      case PayBlock(_) => PaymentKeepsHeaders(c, action);
      case SweepExcess(_, _, _, _, _, _) => SweepKeepsHeaders(c, action);
      case CloseAsset(_, _, _, _, _, _, _, _) => CloseKeepsHeaders(c, PayoutSafety.After(c, action), action);
    }
  }

  lemma {:induction false} ActivateKeepsHeaders(c: Distributor.Chain, round: Key, key: Key, vault: Key)
    requires Distributor.Activate(c, round, key, vault).Ok?
    ensures HeadersStay(c, Distributor.Activate(c, round, key, vault).value)
  {
  }

  lemma {:induction false} HeadersAreThemselves(c: Distributor.Chain)
    ensures HeadersStay(c, c)
  {
  }

  lemma {:induction false} HeadersStayLinked(s: Lifecycle.State, c: Distributor.Chain, d: Distributor.Chain)
    requires Linked(s, c) && HeadersStay(c, d)
    ensures Linked(s, d)
  {
  }

  lemma {:induction false} PayKeepsInv(p: Program, t: LifecycleRuns.Tally, since: int, action: PayoutSafety.Action)
    requires Inv(p, t, since) && Fair(p, Pay(action))
    ensures Inv(Next(p, Pay(action)), t, since)
  {
    hide LifecycleRuns.Inv, PayoutSafety.Inv;
    PayoutSafety.StepKeepsInv(p.c, action);
    if action.NewRound? {
      hide Remarked;
      assert forall id: u64 :: RoundKey(p.s.distributor, id) != action.key;
    } else {
      hide Linked, PayoutSafety.Step;
      PayStepKeepsHeaders(p.c, action);
      HeadersStayLinked(p.s, p.c, PayoutSafety.After(p.c, action));
    }
  }

  lemma {:induction false} ElapseKeepsInv(p: Program, t: LifecycleRuns.Tally, since: int, turn: Turn)
    requires Inv(p, t, since) && turn.Elapse? && Fair(p, turn)
    ensures Inv(Next(p, turn), t, since)
  {
    hide LifecycleRuns.Inv, PayoutSafety.Inv;
    LifecycleRuns.StepKeepsInv(p.s, LifecycleRuns.Action.Tick(turn.now, turn.slot), t, since);
    PayoutSafety.StepKeepsInv(p.c, PayoutSafety.Action.Environment(turn.now, turn.tokens, turn.fees));
  }

  lemma {:induction false} NextKeepsInv(p: Program, t: LifecycleRuns.Tally, since: int, turn: Turn)
    requires Inv(p, t, since) && Fair(p, turn)
    ensures Inv(Next(p, turn), Count(p, turn, t), since)
  {
    hide Inv, Next;
    match turn
    case Sample(action) => SampleKeepsInv(p, t, since, action);
    case Pay(action) => PayKeepsInv(p, t, since, action);
    case Elapse(_, _, _, _) => ElapseKeepsInv(p, t, since, turn);
  }

  lemma {:induction false} RunKeepsInv(p: Program, turns: seq<Turn>, t: LifecycleRuns.Tally, since: int)
    requires Inv(p, t, since) && FairRun(p, turns)
    ensures Inv(Run(p, turns), CountAll(p, turns, t), since)
    decreases |turns|
  {
    hide Inv, Next, Fair, Count;
    if turns != [] {
      NextKeepsInv(p, t, since, turns[0]);
      RunKeepsInv(Next(p, turns[0]), turns[1..], Count(p, turns[0], t), since);
    }
  }

  // ---- whole runs -----------------------------------------------------------------------------------

  /** A distributor as it is created, before anyone's first round. */
  ghost predicate Start(p: Program) {
    LifecycleRuns.Start(p.s) && PayoutSafety.Start(p.c) && Together(p)
  }

  lemma {:induction false} ProgramHolds(start: Program, turns: seq<Turn>)
    requires Start(start) && FairRun(start, turns)
    ensures Inv(Run(start, turns), CountAll(start, turns, LifecycleRuns.NOTHING_YET), start.s.now)
  {
    StartInv(start);
    hide Start, Inv, Run, FairRun, CountAll;
    RunKeepsInv(start, turns, LifecycleRuns.NOTHING_YET, start.s.now);
  }

  lemma {:induction false} StartInv(p: Program)
    requires Start(p)
    ensures Inv(p, LifecycleRuns.NOTHING_YET, p.s.now)
  {
    hide LifecycleRuns.Inv, PayoutSafety.Inv;
    LifecycleRuns.StartInv(p.s);
    PayoutSafety.StartHolds(p.c);
  }

  /** What a payout of this distributor needs behind it: a settled intent, sampled as the rules say and committed, and a
      tuple within its header's root that holds the leaf. */
  ghost predicate Backed(p: Program, payout: Distributor.Payout, id: u64) {
    id in p.s.intents && p.s.intents[id].status == Lifecycle.Committed && LifecycleRuns.Sampled(p.s, p.s.intents[id])
    && p.s.intents[id].seedSlot > p.s.intents[id].closeSlot
    && id in p.s.headers && payout.asset in p.c.openings
    && var asset := p.c.openings[payout.asset];
       asset.distributor == p.s.distributor && asset.roundId == id
       && Merkle.Within(Distributor.TupleDigest(asset), p.s.headers[id].assetsRoot)
       && Merkle.Within(Distributor.LeafDigest(asset, payout.leafIdx, payout.recipient, payout.amount),
                        asset.merkleRoot)
       && PayoutSafety.SumPaid(p.c.paid, payout.asset) <= asset.allocation
  }

  /** Over every run of the whole program: nothing is ever paid from a round of this distributor unless its window was
      long enough, its seed was produced after it and its header was committed; and only leaves under that header's root
      are paid, each asset at most its allocation. */
  lemma {:induction false} EveryPayoutIsBacked(start: Program, turns: seq<Turn>, i: nat, id: u64)
    requires Start(start) && FairRun(start, turns) && i < |Run(start, turns).c.paid|
    requires var asset := Run(start, turns).c.paid[i].asset;
      asset.AssetKey? && asset.round == RoundKey(start.s.distributor, id)
    ensures Backed(Run(start, turns), Run(start, turns).c.paid[i], id)
  {
    hide Start, Run, FairRun, CountAll, Inv, Backed;
    ProgramHolds(start, turns);
    DistributorStays(start, turns);
    PayoutIsBacked(Run(start, turns), CountAll(start, turns, LifecycleRuns.NOTHING_YET), start.s.now, i, id);
  }

  lemma {:induction false} DistributorStays(p: Program, turns: seq<Turn>)
    ensures Run(p, turns).s.distributor == p.s.distributor
    decreases |turns|
  {
    if turns != [] {
      if turns[0].Sample? {
        SameDistributor(p.s, turns[0].action);
      }
      hide LifecycleRuns.Step;
      assert Next(p, turns[0]).s.distributor == p.s.distributor by {
        if turns[0].Elapse? {
          SameDistributor(p.s, LifecycleRuns.Action.Tick(turns[0].now, turns[0].slot));
        }
      }
      DistributorStays(Next(p, turns[0]), turns[1..]);
    }
  }

  lemma {:induction false} PayoutIsBacked(p: Program, t: LifecycleRuns.Tally, since: int, i: nat, id: u64)
    requires Inv(p, t, since) && i < |p.c.paid|
    requires p.c.paid[i].asset.AssetKey? && p.c.paid[i].asset.round == RoundKey(p.s.distributor, id)
    ensures Backed(p, p.c.paid[i], id)
  {
    hide LifecycleRuns.Inv, PayoutSafety.Inv, LifecycleRuns.Sampled, Merkle.Within;
    PaidIsProved(p.c, i);
    PayoutSafety.InvRecord(p.c, p.c.paid[i].asset);
    assert RoundKey(p.s.distributor, id) in p.c.rounds;
    CommittedIntent(p.s, t, since, id);
  }

  lemma {:induction false} PaidIsProved(c: Distributor.Chain, i: nat)
    requires PayoutSafety.Inv(c) && i < |c.paid|
    ensures PayoutSafety.Proved(c, c.paid[i])
  {
    hide PayoutSafety.AssetInv, PayoutSafety.Recorded, PayoutSafety.RoundsNamed, PayoutSafety.VaultsPinned,
      PayoutSafety.PaidOnce, PayoutSafety.Proved;
  }

  lemma {:induction false} CommittedIntent(s: Lifecycle.State, t: LifecycleRuns.Tally, since: int, id: u64)
    requires LifecycleRuns.Inv(s, t, since) && id in s.headers
    ensures id in s.intents && s.intents[id].status == Lifecycle.Committed && LifecycleRuns.Sampled(s, s.intents[id])
    ensures s.headers[id].roundId == id && s.intents[id].seedSlot > s.intents[id].closeSlot
  {
    hide LifecycleRuns.Ids, LifecycleRuns.Paced;
    LifecycleRuns.SeededAfterClose(s);
  }

  // ---- seeds drawn from one history -----------------------------------------------------------------

  ghost predicate AllRead(turns: seq<Turn>, history: seq<SlotHashes.SlotHash>) {
    forall i :: 0 <= i < |turns| && turns[i].Sample? ==> LifecycleRuns.Reads(turns[i].action, history)
  }

  lemma {:induction false} NextDraws(p: Program, turn: Turn, history: seq<SlotHashes.SlotHash>)
    requires SlotHashes.History(history) && SlotHashes.FullHashes(history) && LifecycleRuns.AllDrawn(p.s, history)
    requires turn.Sample? ==> LifecycleRuns.Reads(turn.action, history)
    ensures LifecycleRuns.AllDrawn(Next(p, turn).s, history)
  {
    hide SlotHashes.History, SlotHashes.FullHashes, LifecycleRuns.AllDrawn, LifecycleRuns.After;
    match turn
    case Sample(action) => LifecycleRuns.StepDraws(p.s, action, history);
    case Elapse(now, slot, _, _) => LifecycleRuns.StepDraws(p.s, LifecycleRuns.Action.Tick(now, slot), history);
    case Pay(_) =>
  }

  lemma {:induction false} RunDraws(p: Program, turns: seq<Turn>, history: seq<SlotHashes.SlotHash>)
    requires SlotHashes.History(history) && SlotHashes.FullHashes(history) && LifecycleRuns.AllDrawn(p.s, history)
    requires AllRead(turns, history)
    ensures LifecycleRuns.AllDrawn(Run(p, turns).s, history)
    decreases |turns|
  {
    hide SlotHashes.History, SlotHashes.FullHashes, LifecycleRuns.AllDrawn, LifecycleRuns.Reads, Next;
    if turns != [] {
      NextDraws(p, turns[0], history);
      RunDraws(Next(p, turns[0]), turns[1..], history);
    }
  }

  /** And where the sysvar shows one history throughout, the seed behind every payout is the first slot that history
      produced at or after the target, with that slot's hash: nobody chose it. */
  lemma {:induction false} EveryPayoutIsDrawn(start: Program, turns: seq<Turn>, history: seq<SlotHashes.SlotHash>,
                                              i: nat, id: u64)
    requires Start(start) && FairRun(start, turns) && i < |Run(start, turns).c.paid|
    requires SlotHashes.History(history) && SlotHashes.FullHashes(history) && AllRead(turns, history)
    requires var asset := Run(start, turns).c.paid[i].asset;
      asset.AssetKey? && asset.round == RoundKey(start.s.distributor, id)
    ensures var p := Run(start, turns);
      && Backed(p, p.c.paid[i], id)
      && LifecycleRuns.DrawnFrom(p.s.intents[id], p.s.config, history)
  {
    NothingDrawn(start, history);
    hide SlotHashes.History, SlotHashes.FullHashes, Start, Run, FairRun, AllRead, LifecycleRuns.DrawnFrom;
    EveryPayoutIsBacked(start, turns, i, id);
    RunDraws(start, turns, history);
  }

  lemma {:induction false} NothingDrawn(p: Program, history: seq<SlotHashes.SlotHash>)
    requires Start(p)
    ensures LifecycleRuns.AllDrawn(p.s, history)
  {
  }
}
