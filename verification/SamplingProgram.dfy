/** The sampling handlers themselves, over accounts changed in place. */
module SamplingHandlers {
  import opened Terms
  import opened SlotHashes
  import opened Lifecycle
  import opened LifecycleRuns
  import Provenance
  import Distributor
  import PayoutSafety

  class SamplingProgram {
    const distributor: Key
    const config: Config
    var rootAuthority: Key
    var pendingAuthority: Option<Key>
    var nextRoundId: u64
    var expiredSeedAbandons: u32
    var intents: map<u64, Intent>
    var headers: map<u64, Header>
    var now: i64
    var slot: u64
    /** How the rounds so far ended, and when the distributor was created. */
    ghost var tally: Tally
    ghost const since: i64

    constructor (distributor: Key, creator: Key, config: Config, now: i64, slot: u64)
      requires ValidConfig(config)
      ensures Start(View()) && View().now == now && View().rootAuthority == creator
      ensures Valid() && tally == NOTHING_YET && since == now
      ensures this.distributor == distributor && this.config == config
    {
      this.distributor := distributor;
      this.config := config;
      rootAuthority, pendingAuthority := creator, None;
      nextRoundId, expiredSeedAbandons := 0, 0;
      intents, headers := map[], map[];
      this.now := now;
      this.slot := slot;
      tally, since := NOTHING_YET, now;
      new;
      StartInv(View());
    }

    /** What every run keeps, of the accounts as they stand. */
    ghost predicate Valid()
      reads this
    {
      Inv(View(), tally, since)
    }

    function View(): State
      reads this
    {
      State(distributor, config, rootAuthority, pendingAuthority, nextRoundId, expiredSeedAbandons, intents, headers,
            now, slot)
    }

    /** An instruction has the effect of its specification, or fails and changes nothing. */
    ghost predicate Outcome(expected: Result<State>, before: State, error: Option<Error>)
      reads this
    {
      match expected
      case Ok(s) => error == None && View() == s
      case Err(e) => error == Some(e) && View() == before
    }

    /** The invariant as it will be once an instruction has had its effect, or failed. */
    ghost method Foresee(action: Action)
      requires Valid() && Fair(View(), action)
      modifies this`tally
      ensures tally == Count(old(View()), action, old(tally))
      ensures Inv(After(View(), action), tally, since)
      ensures Step(View(), action).Ok? ==> Provenance.Records(Provenance.Moment(View(), action), After(View(), action))
    {
      KnownByNumber(View(), tally, since);
      if Step(View(), action).Ok? {
        Provenance.StepRecords(View(), action);
      }
      hide Step, Inv, Count, Provenance.Records;
      StepKeepsInv(View(), action, tally, since);
      tally := Count(View(), action, tally);
    }

    /** An accepted instruction has recorded what it was given, at the clock it met. */
    ghost predicate Recorded(before: State, action: Action, error: Option<Error>)
      reads this
    {
      error.None? ==> Provenance.Records(Provenance.Moment(before, action), View())
    }

    /** Time passes between instructions. */
    method Elapse(now: i64, slot: u64)
      requires Valid() && this.now <= now && this.slot <= slot
      modifies this`now, this`slot, this`tally
      ensures Valid() && tally == old(tally) && View() == old(View()).(now := now, slot := slot)
    {
      hide Inv;
      Foresee(Action.Tick(now, slot));
      this.now, this.slot := now, slot;
    }

    method OpenRound(signer: Key, roundId: u64, commitment: SecretHash) returns (error: Option<Error>)
      requires Valid()
      modifies this`intents, this`tally
      ensures Valid() && tally == Count(old(View()), Action.Open(signer, roundId, commitment), old(tally))
      ensures Recorded(old(View()), Action.Open(signer, roundId, commitment), error)
      ensures Outcome(Lifecycle.OpenRound(old(View()), signer, roundId, commitment), old(View()), error)
    {
      hide Inv, Count, Provenance.Records;
      Foresee(Action.Open(signer, roundId, commitment));
      if roundId in intents {
        return Some(AccountInUse);
      }
      if signer != rootAuthority {
        return Some(Unauthorized);
      }
      if roundId != nextRoundId {
        return Some(InvalidRoundId);
      }
      var intent := NewIntent(View(), roundId, commitment);
      intents := intents[roundId := intent];
      error := None;
    }

    method CloseWindow(signer: Key, roundId: u64, feed: Key, reading: Option<PriceReading>, chainHead: Digest,
                       snapshotCount: u32) returns (error: Option<Error>)
      requires Valid()
      modifies this`intents, this`tally
      ensures Valid()
      ensures tally == Count(old(View()), Action.CloseIt(signer, roundId, feed, reading, chainHead, snapshotCount),
                             old(tally))
      ensures Outcome(Lifecycle.CloseWindow(old(View()), signer, roundId, feed, reading, chainHead, snapshotCount),
                      old(View()), error)
      ensures Recorded(old(View()), Action.CloseIt(signer, roundId, feed, reading, chainHead, snapshotCount), error)
      // The round in progress, a long enough window, and a price neither stale nor from the future.
      ensures error.None? ==>
        && signer == rootAuthority && roundId == nextRoundId && roundId in intents
        && intents == old(intents)[roundId := intents[roundId]] && intents[roundId].status == WindowClosed
        && intents[roundId].closeTs - intents[roundId].openTs >= config.minWindowSecs
        && now - intents[roundId].solUsd.publishTime <= config.maxPriceAgeSecs
        && intents[roundId].solUsd.publishTime - now <= config.maxPriceAgeSecs
    {
      hide Inv, Count, Provenance.Records;
      ClosedInProgress(View(), tally, since);
      Foresee(Action.CloseIt(signer, roundId, feed, reading, chainHead, snapshotCount));
      if roundId !in intents {
        return Some(AccountMissing);
      }
      var intent := intents[roundId];
      if signer != rootAuthority {
        return Some(Unauthorized);
      }
      if intent.status != IntentOpen {
        return Some(InvalidIntentStatus);
      }
      if snapshotCount < 1 {
        return Some(EmptyWindow);
      }
      var openFor := Clamp(now - intent.openTs);
      if openFor < config.minWindowSecs {
        return Some(WindowTooShort);
      }
      if feed != config.priceFeedAccount {
        return Some(PriceFeedMismatch);
      }
      if reading.None? {
        return Some(InvalidPriceAccount);
      }
      if reading.value.feedId != config.priceFeedId {
        return Some(PriceFeedMismatch);
      }
      var price := reading.value.solUsd;
      if price.price <= 0 {
        return Some(InvalidPrice);
      }
      var age := now - price.publishTime;
      if age > config.maxPriceAgeSecs {
        return Some(PriceTooOld);
      }
      if age + config.maxPriceAgeSecs < 0 {
        return Some(PriceFromTheFuture);
      }
      if price.conf * 10_000 > price.price * config.maxPriceConfBps {
        return Some(PriceConfidenceTooWide);
      }
      intents := intents[roundId := intent.(closeSlot := slot, closeTs := now, chainHead := chainHead,
        snapshotCount := snapshotCount, solUsd := price, status := WindowClosed)];
      error := None;
    }

    method LookUp(intent: Intent, data: seq<byte>) returns (result: Result<SeedLookup>)
      ensures result == LookUpSeed(View(), intent, data)
    {
      var target := intent.closeSlot + config.seedSlotOffset;
      if target > U64_MAX {
        return Err(Overflow);
      }
      var found := FindSeedInBytes(data, target);
      if found.None? {
        return Err(InvalidAccountData);
      }
      result := Ok(found.value);
    }

    method RecordSeed(roundId: u64, data: seq<byte>) returns (error: Option<Error>)
      requires Valid()
      modifies this`intents, this`tally
      ensures Valid() && tally == Count(old(View()), Action.Seed(roundId, data), old(tally))
      ensures Recorded(old(View()), Action.Seed(roundId, data), error)
      ensures Outcome(Lifecycle.RecordSeed(old(View()), roundId, data), old(View()), error)
    {
      hide Inv, Count, Provenance.Records;
      Foresee(Action.Seed(roundId, data));
      if roundId !in intents {
        return Some(AccountMissing);
      }
      var intent := intents[roundId];
      if intent.status != WindowClosed {
        return Some(InvalidIntentStatus);
      }
      var result := LookUp(intent, data);
      match result {
        case Err(e) => error := Some(e);
        case Ok(NotYet) => error := Some(SeedNotYetAvailable);
        case Ok(Expired) => error := Some(SeedHasExpired);
        case Ok(Found(seedSlot, hash)) =>
          var seeded := intent.(seedSlot := seedSlot, seedHash := hash, seedTs := now, status := Seeded);
          intents := intents[roundId := seeded];
          error := None;
      }
    }

    method AbandonRound(signer: Key, roundId: u64, data: seq<byte>) returns (error: Option<Error>)
      requires Valid()
      modifies this`intents, this`nextRoundId, this`expiredSeedAbandons, this`tally
      ensures Valid() && tally == Count(old(View()), Action.Abandon(signer, roundId, data), old(tally))
      ensures Outcome(Lifecycle.AbandonRound(old(View()), signer, roundId, data), old(View()), error)
    {
      hide Inv, Count, Provenance.Records;
      Foresee(Action.Abandon(signer, roundId, data));
      if roundId !in intents {
        return Some(AccountMissing);
      }
      var intent := intents[roundId];
      if signer != rootAuthority {
        return Some(Unauthorized);
      }
      if intent.roundId != nextRoundId {
        return Some(InvalidRoundId);
      }
      var seedExpired := false;
      if intent.status == WindowClosed {
        var result := LookUp(intent, data);
        if result.Err? {
          return Some(result.error);
        }
        seedExpired := result.value.Expired?;
      }
      var reason := AbandonReasonFor(intent.status, seedExpired, now, intent.closeTs, intent.seedTs);
      if reason.None? {
        return Some(CannotAbandon);
      }
      if (reason.value == SeedExpired && expiredSeedAbandons == U32_MAX) || nextRoundId == U64_MAX {
        return Some(Overflow);
      }
      if reason.value == SeedExpired {
        expiredSeedAbandons := expiredSeedAbandons + 1;
      }
      intents := intents[roundId := intent.(status := Abandoned)];
      nextRoundId := nextRoundId + 1;
      error := None;
    }

    method CommitRound(signer: Key, intentId: u64, p: CommitParams) returns (error: Option<Error>)
      requires Valid()
      modifies this`intents, this`nextRoundId, this`headers, this`tally
      ensures Valid() && tally == Count(old(View()), Action.Commit(signer, intentId, p), old(tally))
      ensures Recorded(old(View()), Action.Commit(signer, intentId, p), error)
      ensures Outcome(Lifecycle.CommitRound(old(View()), signer, intentId, p), old(View()), error)
      // One more header, for the round in progress, whose seed and secret are both settled.
      ensures error.None? ==>
        && signer == rootAuthority && intentId == p.roundId == old(nextRoundId) && nextRoundId == old(nextRoundId) + 1
        && intentId in intents && HashOf(p.secret) == intents[intentId].commitment
        && intents[intentId].seedSlot >= intents[intentId].closeSlot + config.seedSlotOffset
        && p.roundId !in old(headers) && p.roundId in headers
        && headers == old(headers)[p.roundId := headers[p.roundId]]
        && tally.commits == old(tally).commits + 1 == |headers|
    {
      hide Inv, Count, Provenance.Records;
      CommitMeans(View(), tally, since, signer, intentId, p);
      Foresee(Action.Commit(signer, intentId, p));
      if p.roundId in headers {
        return Some(AccountInUse);
      }
      if intentId !in intents {
        return Some(AccountMissing);
      }
      if signer != rootAuthority {
        return Some(Unauthorized);
      }
      if p.roundId != nextRoundId {
        return Some(InvalidRoundId);
      }
      var intent := intents[intentId];
      if intent.roundId != p.roundId {
        return Some(IntentMismatch);
      }
      if intent.status != Seeded {
        return Some(InvalidIntentStatus);
      }
      if HashOf(p.secret) != intent.commitment {
        return Some(SecretMismatch);
      }
      if p.assetCount > MAX_ASSETS_PER_ROUND {
        return Some(InvalidAssetCount);
      }
      if !MaskWithin(p.allowFreezeMask, p.assetCount) {
        return Some(InvalidAllowMask);
      }
      var minExpiry := now + config.minExpirySecs;
      if minExpiry > I64_MAX {
        return Some(Overflow);
      }
      if p.expiryTs < minExpiry || p.expiryTs <= now {
        return Some(ExpiryTooSoon);
      }
      if nextRoundId == U64_MAX {
        return Some(Overflow);
      }
      nextRoundId := nextRoundId + 1;
      intents := intents[intentId := intent.(status := Committed)];
      headers := headers[p.roundId := Header(p.roundId, p.assetsRoot, p.artifactHash, p.assetCount, 0, 0,
        p.allowFreezeMask, now, p.expiryTs, intent.openSlot, intent.closeSlot)];
      error := None;
    }

    method ProposeAuthority(signer: Key, next: Key) returns (error: Option<Error>)
      requires Valid()
      modifies this`pendingAuthority, this`tally
      ensures Valid() && tally == Count(old(View()), Action.Propose(signer, next), old(tally))
      ensures Recorded(old(View()), Action.Propose(signer, next), error)
      ensures Outcome(Lifecycle.ProposeAuthority(old(View()), signer, next), old(View()), error)
    {
      hide Inv, Count, Provenance.Records;
      Foresee(Action.Propose(signer, next));
      if signer != rootAuthority {
        return Some(Unauthorized);
      }
      if next == DEFAULT_KEY || next == rootAuthority {
        return Some(InvalidRootAuthority);
      }
      pendingAuthority := Some(next);
      error := None;
    }

    method AcceptAuthority(signer: Key) returns (error: Option<Error>)
      requires Valid()
      modifies this`rootAuthority, this`pendingAuthority, this`tally
      ensures Valid() && tally == Count(old(View()), Action.Accept(signer), old(tally))
      ensures Recorded(old(View()), Action.Accept(signer), error)
      ensures Outcome(Lifecycle.AcceptAuthority(old(View()), signer), old(View()), error)
    {
      hide Inv, Count, Provenance.Records;
      Foresee(Action.Accept(signer));
      if pendingAuthority != Some(signer) {
        return Some(NoPendingRootAuthority);
      }
      rootAuthority, pendingAuthority := signer, None;
      error := None;
    }
  }

  /** Anyone creates a distributor, under their own key. */
  method CreateDistributor(distributor: Key, creator: Key, config: Config, now: i64, slot: u64)
    returns (error: Option<Error>, program: SamplingProgram?)
    ensures error == if ValidConfig(config) then None else Some(InvalidConfig)
    ensures error.None? ==>
              program != null && fresh(program) && program.Valid() && Start(program.View())
              && program.View().rootAuthority == creator && program.config == config
  {
    if config.minExpirySecs < 0 || config.minExpirySecs > MAX_MIN_EXPIRY_SECS {
      return Some(InvalidConfig), null;
    }
    if config.seedSlotOffset < 1 || config.seedSlotOffset > MAX_SEED_SLOT_OFFSET {
      return Some(InvalidConfig), null;
    }
    if config.maxPriceAgeSecs < 1 {
      return Some(InvalidConfig), null;
    }
    if config.maxPriceConfBps < 1 || config.maxPriceConfBps > 10_000 {
      return Some(InvalidConfig), null;
    }
    program := new SamplingProgram(distributor, creator, config, now, slot);
    error := None;
  }

  lemma {:induction false} KnownByNumber(s: State, t: Tally, since: int)
    requires Inv(s, t, since)
    ensures forall id :: id in s.intents ==> s.intents[id].roundId == id
  {
    hide Headers, AllSampled, Counted, Paced;
  }

  /** A round whose window can be closed or which can be committed is the one in progress. */
  lemma {:induction false} ClosedInProgress(s: State, t: Tally, since: int)
    requires Inv(s, t, since)
    ensures forall id :: id in s.intents && Live(s.intents[id].status) ==> id == s.nextRoundId
  {
    hide Headers, AllSampled, Counted, Paced;
  }

  lemma {:induction false} CommitMeans(s: State, t: Tally, since: int, signer: Key, intentId: u64, p: CommitParams)
    requires Inv(s, t, since)
    ensures |s.headers| == t.commits
    ensures CommitRefusal(s, signer, intentId, p).None? ==>
      && intentId in s.intents && intentId == p.roundId == s.nextRoundId && p.roundId !in s.headers
      && s.intents[intentId].seedSlot >= s.intents[intentId].closeSlot + s.config.seedSlotOffset
      && Count(s, Action.Commit(signer, intentId, p), t).commits == t.commits + 1
  {
    hide Headers, Paced, MaskWithin;
    if CommitRefusal(s, signer, intentId, p).None? {
      CommitFacts(s, signer, intentId, p);
      assert Sampled(s, s.intents[intentId]);
    }
  }

  // ---- the round a commit starts -----------------------------------------------------------------

  function PayoutHeader(s: State, header: Header): Distributor.RoundHeader {
    Distributor.RoundHeader(s.distributor, header.roundId, header.assetsRoot, header.assetCount, header.openedMask,
      header.closedMask, header.expiryTs)
  }

  /** The payout side holds no round of this distributor that was not committed. */
  ghost predicate OnlyCommitted(s: State, c: Distributor.Chain) {
    forall id: u64 :: RoundKey(s.distributor, id) in c.rounds ==> id in s.headers
  }

  /** A commit hands payouts a round that is new to them, unopened, and not yet expired. */
  lemma {:induction false} CommitStartsRound(s: State, t: Tally, since: int, c: Distributor.Chain, signer: Key,
                                             intentId: u64, p: CommitParams)
    requires Inv(s, t, since) && OnlyCommitted(s, c) && Lifecycle.CommitRound(s, signer, intentId, p).Ok?
    ensures var next := Lifecycle.CommitRound(s, signer, intentId, p).value;
      var started := PayoutSafety.NewRound(RoundKey(s.distributor, p.roundId),
                                           PayoutHeader(s, next.headers[p.roundId]));
      PayoutSafety.Fair(c, started) && OnlyCommitted(next, PayoutSafety.After(c, started))
      && started.header.expiryTs > s.now
  {
    hide CommitRefusal, Inv;
    CommitFacts(s, signer, intentId, p);
  }
}
