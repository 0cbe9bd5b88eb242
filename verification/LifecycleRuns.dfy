/** What every run of the sampling lifecycle keeps. */
module LifecycleRuns {
  import opened Terms
  import opened SlotHashes
  import opened Lifecycle

  datatype Action =
    | Open(signer: Key, roundId: u64, commitment: SecretHash)
    | CloseIt(signer: Key, roundId: u64, feed: Key, reading: Option<PriceReading>, chainHead: Digest,
              snapshotCount: u32)
    | Seed(roundId: u64, data: seq<byte>)
    | Abandon(signer: Key, roundId: u64, data: seq<byte>)
    | Commit(signer: Key, intentId: u64, params: CommitParams)
    | Propose(signer: Key, next: Key)
    | Accept(signer: Key)
      // Time passes; the clock never runs backwards.
    | Tick(now: i64, slot: u64)

  ghost predicate Fair(s: State, action: Action) {
    action.Tick? ==> s.now <= action.now && s.slot <= action.slot
  }

  ghost function Step(s: State, action: Action): Result<State> {
    match action
    case Open(signer, roundId, commitment) => OpenRound(s, signer, roundId, commitment)
    case CloseIt(signer, roundId, feed, reading, head, count) =>
      CloseWindow(s, signer, roundId, feed, reading, head, count)
    case Seed(roundId, data) => RecordSeed(s, roundId, data)
    case Abandon(signer, roundId, data) => AbandonRound(s, signer, roundId, data)
    case Commit(signer, intentId, params) => CommitRound(s, signer, intentId, params)
    case Propose(signer, next) => ProposeAuthority(s, signer, next)
    case Accept(signer) => AcceptAuthority(s, signer)
    case Tick(now, slot) => Ok(s.(now := now, slot := slot))
  }

  ghost function After(s: State, action: Action): State {
    match Step(s, action)
    case Ok(next) => next
    case Err(_) => s
  }

  ghost predicate FairRun(s: State, actions: seq<Action>)
    decreases |actions|
  {
    actions == [] || (Fair(s, actions[0]) && FairRun(After(s, actions[0]), actions[1..]))
  }

  ghost function Run(s: State, actions: seq<Action>): State
    decreases |actions|
  {
    if actions == [] then s else Run(After(s, actions[0]), actions[1..])
  }

  /** A distributor as it is created. */
  ghost predicate Start(s: State) {
    s.nextRoundId == 0 && s.expiredSeedAbandons == 0 && s.intents == map[] && s.headers == map[]
    && s.pendingAuthority == None
    && ValidConfig(s.config)
  }

  // ---- what happened along a run -----------------------------------------------------------

  datatype Tally = Tally(commits: nat, windowOpen: nat, seedExpired: nat, secretLost: nat)

  ghost function Count(s: State, action: Action, t: Tally): Tally {
    if Step(s, action).Err? then t
    else
      match action
      case Commit(_, _, _) => t.(commits := t.commits + 1)
      case Abandon(signer, roundId, data) =>
        (match AbandonVerdict(s, signer, roundId, data)
         case Ok(WindowOpen) => t.(windowOpen := t.windowOpen + 1)
         case Ok(SeedExpired) => t.(seedExpired := t.seedExpired + 1)
         case Ok(SecretLost) => t.(secretLost := t.secretLost + 1)
         case Err(_) => t)
      case _ => t
  }

  ghost function CountAll(s: State, actions: seq<Action>, t: Tally): Tally
    decreases |actions|
  {
    if actions == [] then t else CountAll(After(s, actions[0]), actions[1..], Count(s, actions[0], t))
  }

  // ---- the invariant --------------------------------------------------------------------------

  predicate Live(status: IntentStatus) {
    status == IntentOpen || status == WindowClosed || status == Seeded
  }

  /** One intent for every id used so far, settled; at most one live one, at the next id. */
  ghost predicate Ids(s: State) {
    (forall id :: id in s.intents ==>
       id <= s.nextRoundId && s.intents[id].roundId == id && (Live(s.intents[id].status) <==> id == s.nextRoundId))
    && (forall id: u64 :: id < s.nextRoundId ==> id in s.intents)
  }

  /** A header exactly for a committed intent, over that intent's window. */
  ghost predicate Headers(s: State) {
    (forall id :: id in s.headers <==> id in s.intents && s.intents[id].status == Committed)
    && forall id :: id in s.headers && id in s.intents ==>
         s.headers[id].roundId == id && s.headers[id].assetCount <= MAX_ASSETS_PER_ROUND
         && s.headers[id].openedMask == 0 && s.headers[id].closedMask == 0
         && s.headers[id].windowStartSlot == s.intents[id].openSlot
         && s.headers[id].windowEndSlot == s.intents[id].closeSlot
  }

  /** A window that was closed was long enough and held a snapshot; a seed was produced after it. */
  ghost predicate Sampled(s: State, intent: Intent) {
    intent.openTs <= s.now
    && (intent.status == WindowClosed || intent.status == Seeded || intent.status == Committed ==>
          intent.openTs <= intent.closeTs <= s.now && intent.closeTs - intent.openTs >= s.config.minWindowSecs
          && intent.snapshotCount >= 1 && intent.solUsd.price > 0)
    && (intent.status == Seeded || intent.status == Committed ==>
          intent.closeTs <= intent.seedTs <= s.now && intent.seedSlot >= intent.closeSlot + s.config.seedSlotOffset)
  }

  /** The last recorded moment of the round in progress. */
  ghost function Floor(s: State): int {
    if s.nextRoundId !in s.intents then s.now
    else
      var intent := s.intents[s.nextRoundId];
      match intent.status
      case IntentOpen => intent.openTs
      case WindowClosed => intent.closeTs
      case Seeded => intent.seedTs
      case _ => s.now
  }

  ghost predicate Paced(s: State, t: Tally, since: int) {
    s.now < I64_MAX ==>
      since + EXPIRED_SEED_ABANDON_DELAY_SECS * t.seedExpired + SEEDED_ABANDON_DELAY_SECS * t.secretLost <= Floor(s)
  }

  ghost predicate AllSampled(s: State) {
    forall id :: id in s.intents ==> Sampled(s, s.intents[id])
  }

  ghost predicate Counted(s: State, t: Tally) {
    s.nextRoundId == t.commits + t.windowOpen + t.seedExpired + t.secretLost
    && s.expiredSeedAbandons == t.seedExpired && |s.headers| == t.commits
  }

  ghost predicate Inv(s: State, t: Tally, since: int) {
    Ids(s) && Headers(s) && AllSampled(s) && Counted(s, t) && Paced(s, t, since) && ValidConfig(s.config)
  }

  lemma {:induction false} FloorPassed(s: State)
    requires AllSampled(s)
    ensures Floor(s) <= s.now
  {
  }

  // ---- each step keeps it ------------------------------------------------------------------------

  // One intent is written, at the next id.

  ghost predicate Writes(s: State, next: State, id: u64, x: Intent) {
    next.intents == s.intents[id := x] && next.config == s.config && next.now == s.now
  }

  lemma {:induction false} WriteKeepsIds(s: State, next: State, id: u64, x: Intent)
    requires Ids(s) && Writes(s, next, id, x) && id == s.nextRoundId == x.roundId
    requires if Live(x.status) then next.nextRoundId == s.nextRoundId else next.nextRoundId == s.nextRoundId + 1
    ensures Ids(next)
  {
  }

  lemma {:induction false} WriteKeepsHeaders(s: State, next: State, id: u64, x: Intent)
    requires Headers(s) && Writes(s, next, id, x) && next.headers == s.headers
    requires x.status != Committed && (id in s.intents ==> s.intents[id].status != Committed)
    ensures Headers(next)
  {
  }

  lemma {:induction false} WriteKeepsSampled(s: State, next: State, id: u64, x: Intent)
    requires AllSampled(s) && Writes(s, next, id, x) && Sampled(next, x)
    ensures AllSampled(next)
  {
  }

  lemma {:induction false} CommitKeepsHeaders(s: State, next: State, id: u64, x: Intent, header: Header)
    requires Headers(s) && Writes(s, next, id, x) && next.headers == s.headers[id := header] && x.status == Committed
    requires header.roundId == id && header.assetCount <= MAX_ASSETS_PER_ROUND && header.openedMask == 0
    requires header.closedMask == 0
    requires header.windowStartSlot == x.openSlot && header.windowEndSlot == x.closeSlot
    ensures Headers(next)
  {
  }

  /** A live intent is the one at the next id. */
  lemma {:induction false} LiveIsNext(s: State, id: u64)
    requires Ids(s) && AllSampled(s) && id in s.intents && Live(s.intents[id].status)
    ensures id == s.nextRoundId == s.intents[id].roundId && s.nextRoundId + 1 !in s.intents && Sampled(s, s.intents[id])
  {
  }

  lemma {:induction false} OpenKeepsInv(s: State, t: Tally, since: int, signer: Key, roundId: u64,
                                        commitment: SecretHash)
    requires Inv(s, t, since) && OpenRound(s, signer, roundId, commitment).Ok?
    ensures Inv(OpenRound(s, signer, roundId, commitment).value, t, since)
  {
    hide Ids, Headers, AllSampled;
    var next := OpenRound(s, signer, roundId, commitment).value;
    FloorPassed(s);
    WriteKeepsIds(s, next, roundId, NewIntent(s, roundId, commitment));
    WriteKeepsHeaders(s, next, roundId, NewIntent(s, roundId, commitment));
    WriteKeepsSampled(s, next, roundId, NewIntent(s, roundId, commitment));
  }

  lemma {:induction false} CloseAllowed(s: State, signer: Key, roundId: u64, feed: Key, reading: Option<PriceReading>,
                                        snapshotCount: u32)
    requires CloseRefusal(s, signer, roundId, feed, reading, snapshotCount).None?
    ensures roundId in s.intents && s.intents[roundId].status == IntentOpen && snapshotCount >= 1
    ensures Clamp(s.now - s.intents[roundId].openTs) >= s.config.minWindowSecs
    ensures reading.Some? && reading.value.solUsd.price > 0
  {
  }

  lemma {:induction false} CloseKeepsInv(s: State, t: Tally, since: int, signer: Key, roundId: u64, feed: Key,
                                         reading: Option<PriceReading>, chainHead: Digest, snapshotCount: u32)
    requires Inv(s, t, since) && CloseWindow(s, signer, roundId, feed, reading, chainHead, snapshotCount).Ok?
    ensures Inv(CloseWindow(s, signer, roundId, feed, reading, chainHead, snapshotCount).value, t, since)
  {
    hide CloseRefusal, Ids, Headers, AllSampled;
    CloseAllowed(s, signer, roundId, feed, reading, snapshotCount);
    var next := CloseWindow(s, signer, roundId, feed, reading, chainHead, snapshotCount).value;
    LiveIsNext(s, roundId);
    WriteKeepsIds(s, next, roundId, next.intents[roundId]);
    WriteKeepsHeaders(s, next, roundId, next.intents[roundId]);
    WriteKeepsSampled(s, next, roundId, next.intents[roundId]);
  }

  lemma {:induction false} FoundAfterTarget(entries: seq<SlotHash>, target: u64, i: nat)
    requires 1 <= i <= |entries| && entries[i - 1].slot >= target && Scan(entries, target, i).Found?
    ensures Scan(entries, target, i).slot >= target
    decreases |entries| - i
  {
    if i < |entries| && entries[i].slot >= target {
      FoundAfterTarget(entries, target, i + 1);
    }
  }

  lemma {:induction false} SeedAfterTarget(s: State, intent: Intent, data: seq<byte>)
    requires LookUpSeed(s, intent, data).Ok? && LookUpSeed(s, intent, data).value.Found?
    ensures LookUpSeed(s, intent, data).value.slot >= intent.closeSlot + s.config.seedSlotOffset
  {
    hide Parse;
    FoundAfterTarget(Parse(data).value, intent.closeSlot + s.config.seedSlotOffset, 1);
  }

  lemma {:induction false} SeedKeepsInv(s: State, t: Tally, since: int, roundId: u64, data: seq<byte>)
    requires Inv(s, t, since) && RecordSeed(s, roundId, data).Ok?
    ensures Inv(RecordSeed(s, roundId, data).value, t, since)
  {
    hide LookUpSeed, Ids, Headers, AllSampled;
    SeedAfterTarget(s, s.intents[roundId], data);
    var next := RecordSeed(s, roundId, data).value;
    LiveIsNext(s, roundId);
    WriteKeepsIds(s, next, roundId, next.intents[roundId]);
    WriteKeepsHeaders(s, next, roundId, next.intents[roundId]);
    WriteKeepsSampled(s, next, roundId, next.intents[roundId]);
  }

  /** When a round may be abandoned, and what it costs. */
  lemma {:induction false} AbandonCosts(s: State, signer: Key, roundId: u64, data: seq<byte>)
    requires AbandonVerdict(s, signer, roundId, data).Ok?
    ensures roundId in s.intents && s.intents[roundId].roundId == s.nextRoundId < U64_MAX
    ensures Live(s.intents[roundId].status)
    ensures match AbandonVerdict(s, signer, roundId, data).value
            case WindowOpen => s.intents[roundId].status == IntentOpen
            case SeedExpired => s.intents[roundId].status == WindowClosed && s.expiredSeedAbandons < U32_MAX
                                && (s.now < I64_MAX ==>
                                      s.now >= s.intents[roundId].closeTs + EXPIRED_SEED_ABANDON_DELAY_SECS)
            case SecretLost => s.intents[roundId].status == Seeded
                               && (s.now < I64_MAX ==> s.now >= s.intents[roundId].seedTs + SEEDED_ABANDON_DELAY_SECS)
  {
    hide LookUpSeed;
  }

  /** The reason there is, if any, to abandon a round at this moment. */
  ghost predicate Abandonable(s: State, intent: Intent, data: seq<byte>, reason: AbandonReason) {
    match reason
    case WindowOpen => intent.status == IntentOpen
    case SeedExpired =>
      intent.status == WindowClosed && LookUpSeed(s, intent, data) == Ok(SeedLookup.Expired)
      && s.now >= Clamp(intent.closeTs + EXPIRED_SEED_ABANDON_DELAY_SECS) && s.expiredSeedAbandons < U32_MAX
    case SecretLost => intent.status == Seeded && s.now >= Clamp(intent.seedTs + SEEDED_ABANDON_DELAY_SECS)
  }

  /** A round is abandoned exactly by the authority, exactly while it is the next one, and exactly for one of the three
      reasons: its window is still open; its seed has expired and a day has passed since the close; or a week has passed
      since it was seeded. */
  lemma {:induction false} AbandonIff(s: State, signer: Key, roundId: u64, data: seq<byte>, reason: AbandonReason)
    ensures AbandonVerdict(s, signer, roundId, data) == Ok(reason)
       <==> roundId in s.intents && signer == s.rootAuthority && s.intents[roundId].roundId == s.nextRoundId < U64_MAX
            && Abandonable(s, s.intents[roundId], data, reason)
  {
    hide LookUpSeed;
  }

  lemma {:induction false} AbandonKeepsInv(s: State, t: Tally, since: int, signer: Key, roundId: u64, data: seq<byte>)
    requires Inv(s, t, since) && AbandonRound(s, signer, roundId, data).Ok?
    ensures Inv(AbandonRound(s, signer, roundId, data).value, Count(s, Abandon(signer, roundId, data), t), since)
  {
    hide AbandonVerdict, Ids, Headers, AllSampled;
    AbandonCosts(s, signer, roundId, data);
    var next := AbandonRound(s, signer, roundId, data).value;
    LiveIsNext(s, roundId);
    WriteKeepsIds(s, next, roundId, next.intents[roundId]);
    WriteKeepsHeaders(s, next, roundId, next.intents[roundId]);
    WriteKeepsSampled(s, next, roundId, next.intents[roundId]);
  }

  lemma {:induction false} CommitFacts(s: State, signer: Key, intentId: u64, p: CommitParams)
    requires CommitRefusal(s, signer, intentId, p).None?
    ensures intentId in s.intents && s.intents[intentId].roundId == p.roundId == s.nextRoundId < U64_MAX
    ensures s.intents[intentId].status == Seeded && p.roundId !in s.headers && p.assetCount <= MAX_ASSETS_PER_ROUND
    ensures s.intents[intentId].commitment == HashOf(p.secret)
    ensures p.expiryTs >= s.now + s.config.minExpirySecs && p.expiryTs > s.now
  {
    hide MaskWithin;
  }

  lemma {:induction false} CommitKeepsInv(s: State, t: Tally, since: int, signer: Key, intentId: u64, p: CommitParams)
    requires Inv(s, t, since) && CommitRound(s, signer, intentId, p).Ok?
    ensures Inv(CommitRound(s, signer, intentId, p).value, t.(commits := t.commits + 1), since)
  {
    hide CommitRefusal, Ids, Headers, AllSampled;
    CommitFacts(s, signer, intentId, p);
    var next := CommitRound(s, signer, intentId, p).value;
    LiveIsNext(s, intentId);
    WriteKeepsIds(s, next, intentId, next.intents[intentId]);
    CommitKeepsHeaders(s, next, intentId, next.intents[intentId], NewHeader(s, s.intents[intentId], p));
    WriteKeepsSampled(s, next, intentId, next.intents[intentId]);
  }

  lemma {:induction false} StepKeepsInv(s: State, action: Action, t: Tally, since: int)
    requires Inv(s, t, since) && Fair(s, action)
    ensures Inv(After(s, action), Count(s, action, t), since)
  {
    hide Inv, OpenRound, CloseWindow, RecordSeed, AbandonRound, CommitRound;
    if Step(s, action).Ok? {
      match action {
        case Open(signer, roundId, commitment) => OpenKeepsInv(s, t, since, signer, roundId, commitment);
        case CloseIt(signer, roundId, feed, reading, head, count) =>
          CloseKeepsInv(s, t, since, signer, roundId, feed, reading, head, count);
        case Seed(roundId, data) => SeedKeepsInv(s, t, since, roundId, data);
        case Abandon(signer, roundId, data) => AbandonKeepsInv(s, t, since, signer, roundId, data);
        case Commit(signer, intentId, p) => CommitKeepsInv(s, t, since, signer, intentId, p);
        case _ => QuietKeepsInv(s, action, t, since);
      }
    }
  }

  lemma {:induction false} QuietKeepsInv(s: State, action: Action, t: Tally, since: int)
    requires Inv(s, t, since) && Fair(s, action) && (action.Propose? || action.Accept? || action.Tick?)
    ensures Inv(After(s, action), t, since)
  {
    hide Ids, Headers, AllSampled;
    TimeKeeps(s, After(s, action));
    FloorPassed(s);
  }

  lemma {:induction false} TimeKeeps(s: State, next: State)
    requires Ids(s) && Headers(s) && AllSampled(s)
    requires next.intents == s.intents && next.headers == s.headers && next.nextRoundId == s.nextRoundId
    requires next.config == s.config && s.now <= next.now
    ensures Ids(next) && Headers(next) && AllSampled(next)
  {
  }

  lemma {:induction false} RunKeepsInv(s: State, actions: seq<Action>, t: Tally, since: int)
    requires Inv(s, t, since) && FairRun(s, actions)
    ensures Inv(Run(s, actions), CountAll(s, actions, t), since)
    decreases |actions|
  {
    hide Inv, After, Count;
    if actions != [] {
      StepKeepsInv(s, actions[0], t, since);
      RunKeepsInv(After(s, actions[0]), actions[1..], Count(s, actions[0], t), since);
    }
  }

  const NOTHING_YET := Tally(0, 0, 0, 0)

  /** Over any run: intents exactly for the ids used, each settled, plus at most one in progress; a header exactly
      for each committed one; ids count commits and abandons; and each discarded draw has cost its day or week. */
  lemma {:induction false} LifecycleHolds(start: State, actions: seq<Action>)
    requires Start(start) && FairRun(start, actions)
    ensures var (s, t) := (Run(start, actions), CountAll(start, actions, NOTHING_YET));
      Ids(s) && Headers(s) && (forall id :: id in s.intents ==> Sampled(s, s.intents[id]))
      && s.nextRoundId == t.commits + t.windowOpen + t.seedExpired + t.secretLost
      && s.expiredSeedAbandons == t.seedExpired && |s.headers| == t.commits
      && (s.now < I64_MAX ==> s.now - start.now >= 86_400 * t.seedExpired + 604_800 * t.secretLost)
      && forall id :: id in s.intents && (s.intents[id].status == Seeded || s.intents[id].status == Committed) ==>
           s.intents[id].seedSlot > s.intents[id].closeSlot
  {
    hide Ids, Headers, Sampled, Run, CountAll, FairRun, Floor;
    StartInv(start);
    RunKeepsInv(start, actions, NOTHING_YET, start.now);
    FloorPassed(Run(start, actions));
    SeededAfterClose(Run(start, actions));
  }

  lemma {:induction false} SeededAfterClose(s: State)
    requires AllSampled(s) && ValidConfig(s.config)
    ensures forall id :: id in s.intents && (s.intents[id].status == Seeded || s.intents[id].status == Committed) ==>
              s.intents[id].seedSlot > s.intents[id].closeSlot
  {
    forall id | id in s.intents && (s.intents[id].status == Seeded || s.intents[id].status == Committed)
      ensures s.intents[id].seedSlot > s.intents[id].closeSlot
    {
      assert Sampled(s, s.intents[id]);
    }
  }

  lemma {:induction false} StartInv(s: State)
    requires Start(s)
    ensures Inv(s, NOTHING_YET, s.now)
  {
  }

  // ---- written once ---------------------------------------------------------------------------------

  ghost predicate Keeps(a: Intent, b: Intent) {
    b.roundId == a.roundId && b.commitment == a.commitment && b.openSlot == a.openSlot && b.openTs == a.openTs
    && (a.status != IntentOpen ==>
          b.status != IntentOpen && b.closeSlot == a.closeSlot && b.closeTs == a.closeTs && b.chainHead == a.chainHead
          && b.snapshotCount == a.snapshotCount && b.solUsd == a.solUsd)
    && (a.status == Seeded ==>
          b.status != WindowClosed && b.seedSlot == a.seedSlot && b.seedHash == a.seedHash && b.seedTs == a.seedTs)
    && (a.status == Committed || a.status == Abandoned ==> b == a)
  }

  lemma {:induction false} KeepsOn(a: Intent, b: Intent, c: Intent)
    requires Keeps(a, b) && Keeps(b, c)
    ensures Keeps(a, c)
  {
  }

  lemma {:induction false} StepWritesOnce(s: State, action: Action, id: u64)
    requires Headers(s) && id in s.intents
    ensures id in After(s, action).intents && Keeps(s.intents[id], After(s, action).intents[id])
    ensures id in s.headers ==> id in After(s, action).headers && After(s, action).headers[id] == s.headers[id]
  {
    hide CloseRefusal, CommitRefusal, AbandonVerdict, LookUpSeed, Headers;
    match action {
      case CloseIt(signer, roundId, feed, reading, head, count) =>
        if CloseRefusal(s, signer, roundId, feed, reading, count).None? {
          CloseAllowed(s, signer, roundId, feed, reading, count);
        }
      case Abandon(signer, roundId, data) =>
        if AbandonVerdict(s, signer, roundId, data).Ok? {
          AbandonCosts(s, signer, roundId, data);
        }
      case Commit(signer, intentId, p) =>
        if CommitRefusal(s, signer, intentId, p).None? {
          CommitFacts(s, signer, intentId, p);
        }
      case _ =>
    }
  }

  /** Once written, a round's window, price, chain head, seed and commitment never change, and a settled round
      never changes at all. */
  lemma {:induction false} RunWritesOnce(s: State, actions: seq<Action>, t: Tally, since: int, id: u64)
    requires Inv(s, t, since) && FairRun(s, actions) && id in s.intents
    ensures id in Run(s, actions).intents && Keeps(s.intents[id], Run(s, actions).intents[id])
    ensures id in s.headers ==> id in Run(s, actions).headers && Run(s, actions).headers[id] == s.headers[id]
    decreases |actions|
  {
    hide Inv, After, Count, Keeps;
    if actions == [] {
      KeepsItself(s.intents[id]);
    } else {
      InvHeaders(s, t, since);
      StepWritesOnce(s, actions[0], id);
      StepKeepsInv(s, actions[0], t, since);
      var next := After(s, actions[0]);
      RunWritesOnce(next, actions[1..], Count(s, actions[0], t), since, id);
      KeepsOn(s.intents[id], next.intents[id], Run(s, actions).intents[id]);
    }
  }

  lemma {:induction false} KeepsItself(a: Intent)
    ensures Keeps(a, a)
  {
  }

  lemma {:induction false} InvHeaders(s: State, t: Tally, since: int)
    requires Inv(s, t, since)
    ensures Headers(s)
  {
  }

  // ---- abandoning never pre-empts a draw ------------------------------------------------------------------

  /** The sysvar as the runtime shows it at one moment of a history. */
  ghost predicate Shows(data: seq<byte>, history: seq<SlotHash>, lo: nat, hi: nat) {
    lo < hi <= |history| && hi - lo <= 512 && data == Encode(Window(history, lo, hi))
  }

  lemma {:induction false} ShownAnswer(s: State, intent: Intent, data: seq<byte>, history: seq<SlotHash>, lo: nat,
                                       hi: nat)
    requires History(history) && FullHashes(history) && Shows(data, history, lo, hi)
    requires intent.closeSlot + s.config.seedSlotOffset <= U64_MAX
    ensures LookUpSeed(s, intent, data)
         == Ok(Lookup(Window(history, lo, hi), intent.closeSlot + s.config.seedSlotOffset))
  {
    hide Lookup, Encode, Parse, History;
    WindowHashes(history, lo, hi);
    ParseEncoded(Window(history, lo, hi));
  }

  lemma {:induction false} WindowHashes(history: seq<SlotHash>, lo: nat, hi: nat)
    requires FullHashes(history) && lo <= hi <= |history|
    ensures FullHashes(Window(history, lo, hi))
  {
  }

  /** A round abandoned for an expired seed could not have recorded one at that moment or at any later one. */
  lemma {:induction false} ExpiredAbandonLosesNothing(s: State, signer: Key, roundId: u64, data: seq<byte>,
                                                      later: seq<byte>,
      history: seq<SlotHash>, lo: nat, hi: nat, lo': nat, hi': nat)
    requires History(history) && FullHashes(history) && lo <= lo' && hi <= hi'
    requires Shows(data, history, lo, hi) && Shows(later, history, lo', hi')
    requires AbandonVerdict(s, signer, roundId, data) == Ok(SeedExpired)
    ensures roundId in s.intents && RecordSeed(s, roundId, later) == Err(SeedHasExpired)
  {
    hide Lookup, History, FullHashes, FindSeed, AbandonVerdict, Encode, Window;
    ExpiredVerdict(s, signer, roundId, data);
    var intent := s.intents[roundId];
    ShownAnswer(s, intent, data, history, lo, hi);
    ShownAnswer(s, intent, later, history, lo', hi');
    ExpiredStaysExpired(history, lo, hi, lo', hi', intent.closeSlot + s.config.seedSlotOffset);
  }

  lemma {:induction false} ExpiredVerdict(s: State, signer: Key, roundId: u64, data: seq<byte>)
    requires AbandonVerdict(s, signer, roundId, data) == Ok(SeedExpired)
    ensures roundId in s.intents && s.intents[roundId].status == WindowClosed
    ensures LookUpSeed(s, s.intents[roundId], data) == Ok(SeedLookup.Expired)
    ensures s.intents[roundId].closeSlot + s.config.seedSlotOffset <= U64_MAX
  {
    hide FindSeed;
  }

  lemma {:induction false} RecordedSeed(s: State, roundId: u64, data: seq<byte>, slot: u64, hash: seq<byte>)
    requires roundId in s.intents && LookUpSeed(s, s.intents[roundId], data) == Ok(Found(slot, hash))
    requires RecordSeed(s, roundId, data).Ok?
    ensures SeedOf(s, roundId, data).seedSlot == slot && SeedOf(s, roundId, data).seedHash == hash
  {
    hide LookUpSeed;
  }

  lemma {:induction false} RecordedNeeds(s: State, roundId: u64, data: seq<byte>)
    requires RecordSeed(s, roundId, data).Ok?
    ensures roundId in s.intents && s.intents[roundId].closeSlot + s.config.seedSlotOffset <= U64_MAX
    ensures LookUpSeed(s, s.intents[roundId], data).Ok? && LookUpSeed(s, s.intents[roundId], data).value.Found?
  {
    hide FindSeed;
  }

  /** Whatever is recorded is the first slot at or after the target. */
  lemma {:induction false} RecordedIsFirst(s: State, roundId: u64, data: seq<byte>, history: seq<SlotHash>, lo: nat,
                                           hi: nat)
    requires History(history) && FullHashes(history) && Shows(data, history, lo, hi) && RecordSeed(s, roundId, data).Ok?
    ensures roundId in s.intents && s.intents[roundId].closeSlot + s.config.seedSlotOffset <= U64_MAX
    ensures var first := First(history, s.intents[roundId].closeSlot + s.config.seedSlotOffset);
      && first < |history|
      && SeedOf(s, roundId, data).seedSlot == history[first].slot
      && SeedOf(s, roundId, data).seedHash == history[first].hash
  {
    hide Lookup, History, FullHashes, LookUpSeed, First, Encode, Window, SeedOf, RecordSeed;
    RecordedNeeds(s, roundId, data);
    var target := s.intents[roundId].closeSlot + s.config.seedSlotOffset;
    ShownAnswer(s, s.intents[roundId], data, history, lo, hi);
    FoundIsFirst(history, lo, hi, target);
    var first := First(history, target);
    RecordedSeed(s, roundId, data, history[first].slot, history[first].hash);
  }

  ghost function SeedOf(s: State, roundId: u64, data: seq<byte>): Intent
    requires RecordSeed(s, roundId, data).Ok?
  {
    RecordedNeeds(s, roundId, data);
    RecordSeed(s, roundId, data).value.intents[roundId]
  }

  lemma {:induction false} ConfigStays(s: State, actions: seq<Action>)
    ensures Run(s, actions).config == s.config
    decreases |actions|
  {
    hide AbandonVerdict, CloseRefusal, CommitRefusal, LookUpSeed;
    if actions != [] {
      ConfigStays(After(s, actions[0]), actions[1..]);
    }
  }

  lemma {:induction false} ClosedStays(s: State, actions: seq<Action>, t: Tally, since: int, id: u64)
    requires Inv(s, t, since) && FairRun(s, actions) && id in s.intents && s.intents[id].status == WindowClosed
    ensures id in Run(s, actions).intents && Run(s, actions).intents[id].closeSlot == s.intents[id].closeSlot
  {
    hide Inv, FairRun, Run;
    RunWritesOnce(s, actions, t, since, id);
  }

  /** Once a window is closed, whatever else happens and whoever records its seed whenever, the same one is recorded:
      the first slot at or after the target. */
  lemma {:induction false} SeedIsNobodysChoice(closed: State, t: Tally, since: int, roundId: u64, one: seq<Action>,
      two: seq<Action>, data: seq<byte>, other: seq<byte>, history: seq<SlotHash>, lo: nat, hi: nat, lo': nat, hi': nat)
    requires Inv(closed, t, since) && roundId in closed.intents && closed.intents[roundId].status == WindowClosed
    requires FairRun(closed, one) && FairRun(closed, two)
    requires History(history) && FullHashes(history) && Shows(data, history, lo, hi) && Shows(other, history, lo', hi')
    requires RecordSeed(Run(closed, one), roundId, data).Ok? && RecordSeed(Run(closed, two), roundId, other).Ok?
    ensures var (a, b) := (SeedOf(Run(closed, one), roundId, data), SeedOf(Run(closed, two), roundId, other));
      a.seedSlot == b.seedSlot && a.seedHash == b.seedHash
    ensures var target := closed.intents[roundId].closeSlot + closed.config.seedSlotOffset;
      && target <= U64_MAX && First(history, target) < |history|
      && SeedOf(Run(closed, one), roundId, data).seedSlot == history[First(history, target)].slot
      && SeedOf(Run(closed, one), roundId, data).seedHash == history[First(history, target)].hash
  {
    hide Inv, FairRun, Run, History, FullHashes, First, Shows, RecordSeed, SeedOf;
    ConfigStays(closed, one);
    ConfigStays(closed, two);
    ClosedStays(closed, one, t, since, roundId);
    ClosedStays(closed, two, t, since, roundId);
    RecordedIsFirst(Run(closed, one), roundId, data, history, lo, hi);
    RecordedIsFirst(Run(closed, two), roundId, other, history, lo', hi');
  }

  // ---- seeds drawn from one history ------------------------------------------------------------------

  /** Wherever an instruction reads the sysvar, it reads a window of this history. */
  ghost predicate Reads(action: Action, history: seq<SlotHash>) {
    match action
    case Seed(_, data) => exists lo, hi :: Shows(data, history, lo, hi)
    case Abandon(_, _, data) => exists lo, hi :: Shows(data, history, lo, hi)
    case _ => true
  }

  ghost predicate AllRead(actions: seq<Action>, history: seq<SlotHash>) {
    forall i :: 0 <= i < |actions| ==> Reads(actions[i], history)
  }

  /** The intent's seed is the first slot the chain produced at or after its target, with that slot's hash. */
  ghost predicate DrawnFrom(intent: Intent, config: Config, history: seq<SlotHash>) {
    var target := intent.closeSlot + config.seedSlotOffset;
    target <= U64_MAX && First(history, target) < |history|
    && intent.seedSlot == history[First(history, target)].slot
    && intent.seedHash == history[First(history, target)].hash
  }

  ghost predicate AllDrawn(s: State, history: seq<SlotHash>) {
    forall id :: id in s.intents && (s.intents[id].status == Seeded || s.intents[id].status == Committed) ==>
      DrawnFrom(s.intents[id], s.config, history)
  }

  lemma {:induction false} SeedIsDrawn(s: State, roundId: u64, data: seq<byte>, history: seq<SlotHash>)
    requires History(history) && FullHashes(history) && Reads(Seed(roundId, data), history)
    requires RecordSeed(s, roundId, data).Ok?
    ensures DrawnFrom(RecordSeed(s, roundId, data).value.intents[roundId], s.config, history)
  {
    hide History, FullHashes, Shows, LookUpSeed, First;
    var lo, hi :| Shows(data, history, lo, hi);
    RecordedIsFirst(s, roundId, data, history, lo, hi);
  }

  lemma {:induction false} StepDraws(s: State, action: Action, history: seq<SlotHash>)
    requires History(history) && FullHashes(history) && Reads(action, history) && AllDrawn(s, history)
    ensures AllDrawn(After(s, action), history)
  {
    if action.Seed? && RecordSeed(s, action.roundId, action.data).Ok? {
      SeedIsDrawn(s, action.roundId, action.data, history);
      hide History, FullHashes, LookUpSeed, DrawnFrom;
    } else {
      OtherStepDraws(s, action, history);
    }
  }

  lemma {:induction false} OtherStepDraws(s: State, action: Action, history: seq<SlotHash>)
    requires AllDrawn(s, history) && !(action.Seed? && RecordSeed(s, action.roundId, action.data).Ok?)
    ensures AllDrawn(After(s, action), history)
  {
    hide CloseRefusal, CommitRefusal, AbandonVerdict, First, LookUpSeed;
    match action {
      case Commit(signer, intentId, p) =>
        if CommitRefusal(s, signer, intentId, p).None? {
          CommitFacts(s, signer, intentId, p);
        }
      case _ =>
    }
  }

  lemma {:induction false} RunDraws(s: State, actions: seq<Action>, history: seq<SlotHash>)
    requires History(history) && FullHashes(history) && AllRead(actions, history) && AllDrawn(s, history)
    ensures AllDrawn(Run(s, actions), history)
    decreases |actions|
  {
    hide History, FullHashes, Reads, AllDrawn, After;
    if actions != [] {
      StepDraws(s, actions[0], history);
      RunDraws(After(s, actions[0]), actions[1..], history);
    }
  }

  /** Over every run that reads one history: every recorded seed is the first slot produced at or after its target, and
      that slot comes after the close of its window. */
  lemma {:induction false} SeedsAreDrawn(start: State, actions: seq<Action>, history: seq<SlotHash>)
    requires Start(start) && FairRun(start, actions)
    requires History(history) && FullHashes(history) && AllRead(actions, history)
    ensures AllDrawn(Run(start, actions), history)
    ensures forall id :: id in Run(start, actions).intents
                         && (Run(start, actions).intents[id].status == Seeded
                             || Run(start, actions).intents[id].status == Committed) ==>
              Run(start, actions).intents[id].seedSlot > Run(start, actions).intents[id].closeSlot
  {
    hide History, FullHashes, AllRead, Run, FairRun, CountAll, Ids, Headers, Sampled, DrawnFrom;
    RunDraws(start, actions, history);
    LifecycleHolds(start, actions);
  }

  // ---- a seeded round that is dropped after all ---------------------------------------------------------

  lemma {:induction false} RunAppend(s: State, actions: seq<Action>, action: Action)
    requires FairRun(s, actions) && Fair(Run(s, actions), action)
    ensures FairRun(s, actions + [action]) && Run(s, actions + [action]) == After(Run(s, actions), action)
    decreases |actions|
  {
    hide After, Fair;
    if actions != [] {
      assert (actions + [action])[1..] == actions[1..] + [action];
      RunAppend(After(s, actions[0]), actions[1..], action);
    } else {
      var next := After(s, action);
      assert (actions + [action])[1..] == [];
      assert FairRun(next, []) && Run(next, []) == next;
    }
  }

  /** In every reachable state a recorded seed does not bind the keeper for good: once a week has passed its authority
      can discard the round, whatever the sysvar shows, and open the next. */
  lemma {:induction false} SeededDropsAfterAWeek(s: State, t: Tally, since: int, id: u64, now: i64, slot: u64,
                                                 data: seq<byte>)
    requires Inv(s, t, since) && id in s.intents && s.intents[id].status == Seeded && id < U64_MAX
    requires Fair(s, Tick(now, slot)) && now >= Clamp(s.intents[id].seedTs + SEEDED_ABANDON_DELAY_SECS)
    ensures var later := After(s, Tick(now, slot));
      && AbandonVerdict(later, s.rootAuthority, id, data) == Ok(SecretLost)
      && AbandonRound(later, s.rootAuthority, id, data).Ok?
      && AbandonRound(later, s.rootAuthority, id, data).value.intents[id].status == Abandoned
      && AbandonRound(later, s.rootAuthority, id, data).value.nextRoundId == id + 1
  {
    hide AbandonVerdict, LookUpSeed, Ids, Headers, AllSampled;
    LiveIsNext(s, id);
    AbandonIff(After(s, Tick(now, slot)), s.rootAuthority, id, data, SecretLost);
  }

  // An example: one round's states, and the two entries of the sysvar that decide its seed.

  const EXAMPLE_CONFIG := Config(0, Address(2), 7, 60, 100, 32, 0)

  const EXAMPLE_START :=
    State(Address(1), EXAMPLE_CONFIG, Address(3), None, 0, 0, map[], map[], 0, 100)

  const EXAMPLE_HASH: seq<byte> := seq(32, _ => 9 as byte)

  const EXAMPLE_HISTORY := [SlotHash(131, EXAMPLE_HASH), SlotHash(132, EXAMPLE_HASH)]

  const EXAMPLE_OPENED := Intent(0, IntentOpen, HashOf(5), 100, 0, 0, 0, Bytes(0), 0, SolUsd(0, 0, 0, 0), 0, [], 0)

  const EXAMPLE_CLOSED :=
    EXAMPLE_OPENED.(closeSlot := 100, snapshotCount := 1, solUsd := SolUsd(1, 0, 0, 0), status := WindowClosed)

  const EXAMPLE_SEEDED := EXAMPLE_CLOSED.(seedSlot := 132, seedHash := EXAMPLE_HASH, status := Seeded)

  lemma {:induction false} ExampleSeed(s: State)
    requires s.config == EXAMPLE_CONFIG
    ensures LookUpSeed(s, EXAMPLE_CLOSED, Encode(Window(EXAMPLE_HISTORY, 0, 2))) == Ok(Found(132, EXAMPLE_HASH))
  {
    var window := Window(EXAMPLE_HISTORY, 0, 2);
    assert Shows(Encode(window), EXAMPLE_HISTORY, 0, 2);
    hide Encode, FindSeed;
    ShownAnswer(s, EXAMPLE_CLOSED, Encode(window), EXAMPLE_HISTORY, 0, 2);
    assert window == [SlotHash(132, EXAMPLE_HASH), SlotHash(131, EXAMPLE_HASH)];
  }

  /** A run from a distributor's creation in which a round is opened, closed and seeded, and then abandoned. */
  lemma {:induction false} SeededRoundDropped() returns (actions: seq<Action>)
    ensures Start(EXAMPLE_START) && FairRun(EXAMPLE_START, actions)
    ensures Run(EXAMPLE_START, actions).intents == map[0 := EXAMPLE_SEEDED]
    ensures Step(Run(EXAMPLE_START, actions), Abandon(Address(3), 0, [])).Ok?
    ensures Step(Run(EXAMPLE_START, actions), Abandon(Address(3), 0, [])).value.intents[0].status == Abandoned
  {
    hide Run, FairRun, LookUpSeed, Encode;
    var start := EXAMPLE_START;
    var data := Encode(Window(EXAMPLE_HISTORY, 0, 2));
    var reading := Some(PriceReading(7, SolUsd(1, 0, 0, 0)));
    var first := start.(intents := map[0 := EXAMPLE_OPENED]);
    var closed := start.(intents := map[0 := EXAMPLE_CLOSED]);
    var later := closed.(slot := 133);
    var seeded := later.(intents := map[0 := EXAMPLE_SEEDED]);
    actions := [];
    NoActions(start);
    RunAppend(start, actions, Open(Address(3), 0, HashOf(5)));
    assert After(start, Open(Address(3), 0, HashOf(5))) == first;
    actions := actions + [Open(Address(3), 0, HashOf(5))];
    RunAppend(start, actions, CloseIt(Address(3), 0, Address(2), reading, Bytes(0), 1));
    assert After(first, CloseIt(Address(3), 0, Address(2), reading, Bytes(0), 1)) == closed;
    actions := actions + [CloseIt(Address(3), 0, Address(2), reading, Bytes(0), 1)];
    RunAppend(start, actions, Tick(0, 133));
    actions := actions + [Tick(0, 133)];
    RunAppend(start, actions, Seed(0, data));
    ExampleSeed(later);
    assert After(later, Seed(0, data)) == seeded;
    actions := actions + [Seed(0, data)];
    RunAppend(start, actions, Tick(604_800, 2_000_000));
    actions := actions + [Tick(604_800, 2_000_000)];
    AbandonIff(seeded.(now := 604_800, slot := 2_000_000), Address(3), 0, [], SecretLost);
  }

  lemma {:induction false} NoActions(s: State)
    ensures FairRun(s, []) && Run(s, []) == s
  {
  }
}
