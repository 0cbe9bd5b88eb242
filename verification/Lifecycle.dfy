/** A round's sampling lifecycle on chain: round_intent.rs, commit_round.rs and the authority hand-over. */
module Lifecycle {
  import opened Terms
  import opened SlotHashes

  const MAX_ASSETS_PER_ROUND := 30
  const SEEDED_ABANDON_DELAY_SECS := 604_800
  const EXPIRED_SEED_ABANDON_DELAY_SECS := 86_400
  const MAX_SEED_SLOT_OFFSET := 256
  const MAX_MIN_EXPIRY_SECS := 315_360_000
  const U32_MAX := 0xFFFF_FFFF

  datatype IntentStatus = IntentOpen | WindowClosed | Seeded | Committed | Abandoned

  datatype AbandonReason = WindowOpen | SeedExpired | SecretLost

  /** A secret's hash opens only to that secret. */
  datatype SecretHash = HashOf(secret: nat) | Unopened(id: nat)

  datatype SolUsd = SolUsd(price: i64, conf: u64, exponent: int, publishTime: i64)

  datatype PriceReading = PriceReading(feedId: nat, solUsd: SolUsd)

  datatype Intent = Intent(
    roundId: u64, status: IntentStatus, commitment: SecretHash, openSlot: u64, openTs: i64,
    closeSlot: u64, closeTs: i64, chainHead: Digest, snapshotCount: u32, solUsd: SolUsd,
    seedSlot: u64, seedHash: seq<byte>, seedTs: i64)

  datatype Header = Header(
    roundId: u64, assetsRoot: Digest, artifactHash: Digest, assetCount: nat, openedMask: bv32, closedMask: bv32,
    allowFreezeMask: bv32, committedTs: i64, expiryTs: i64, windowStartSlot: u64, windowEndSlot: u64)

  /** Fixed when the distributor is created. */
  datatype Config = Config(
    minExpirySecs: i64, priceFeedAccount: Key, priceFeedId: nat, maxPriceAgeSecs: u32, maxPriceConfBps: nat,
    seedSlotOffset: nat, minWindowSecs: u32)

  /** What `create_distributor` accepts. */
  predicate ValidConfig(config: Config) {
    0 <= config.minExpirySecs <= MAX_MIN_EXPIRY_SECS && 1 <= config.seedSlotOffset <= MAX_SEED_SLOT_OFFSET
    && config.maxPriceAgeSecs >= 1 && 1 <= config.maxPriceConfBps <= 10_000
  }

  datatype State = State(
    distributor: Key, config: Config, rootAuthority: Key, pendingAuthority: Option<Key>,
    nextRoundId: u64, expiredSeedAbandons: u32, intents: map<u64, Intent>, headers: map<u64, Header>,
    now: i64, slot: u64)

  datatype Error =
    | AccountMissing | AccountInUse | Unauthorized | InvalidRoundId | InvalidIntentStatus | EmptyWindow | WindowTooShort
    | PriceFeedMismatch | InvalidPriceAccount | InvalidPrice | PriceTooOld | PriceFromTheFuture | PriceConfidenceTooWide
    | Overflow | InvalidAccountData | SeedNotYetAvailable | SeedHasExpired | CannotAbandon | IntentMismatch
    | SecretMismatch
    | InvalidAssetCount | InvalidAllowMask | ExpiryTooSoon | InvalidRootAuthority | NoPendingRootAuthority
    | InvalidConfig

  datatype Result<+T> = Ok(value: T) | Err(error: Error)

  function Clamp(x: int): i64 {
    if x > I64_MAX then I64_MAX else if x < -I64_MAX - 1 then -I64_MAX - 1 else x
  }

  // ---- opening and closing the window --------------------------------------------------

  function NewIntent(s: State, roundId: u64, commitment: SecretHash): Intent {
    Intent(roundId, IntentOpen, commitment, s.slot, s.now, 0, 0, Bytes(0), 0, SolUsd(0, 0, 0, 0), 0, [], 0)
  }

  function OpenRound(s: State, signer: Key, roundId: u64, commitment: SecretHash): Result<State> {
    if roundId in s.intents then Err(AccountInUse)
    else if signer != s.rootAuthority then Err(Unauthorized)
    else if roundId != s.nextRoundId then Err(InvalidRoundId)
    else Ok(s.(intents := s.intents[roundId := NewIntent(s, roundId, commitment)]))
  }

  function CloseRefusal(s: State, signer: Key, roundId: u64, feed: Key, reading: Option<PriceReading>,
                        snapshotCount: u32)
    : Option<Error>
  {
    if roundId !in s.intents then Some(AccountMissing)
    else if signer != s.rootAuthority then Some(Unauthorized)
    else if s.intents[roundId].status != IntentOpen then Some(InvalidIntentStatus)
    else if snapshotCount < 1 then Some(EmptyWindow)
    else if Clamp(s.now - s.intents[roundId].openTs) < s.config.minWindowSecs then Some(WindowTooShort)
    else if feed != s.config.priceFeedAccount then Some(PriceFeedMismatch)
    else if reading.None? then Some(InvalidPriceAccount)
    else
      var price, age := reading.value.solUsd, s.now - reading.value.solUsd.publishTime;
      if reading.value.feedId != s.config.priceFeedId then Some(PriceFeedMismatch)
      else if price.price <= 0 then Some(InvalidPrice)
      else if age > s.config.maxPriceAgeSecs then Some(PriceTooOld)
      else if age + s.config.maxPriceAgeSecs < 0 then Some(PriceFromTheFuture)
      else if price.conf * 10_000 > price.price * s.config.maxPriceConfBps then Some(PriceConfidenceTooWide)
      else None
  }

  function CloseWindow(s: State, signer: Key, roundId: u64, feed: Key, reading: Option<PriceReading>, chainHead: Digest,
                       snapshotCount: u32): Result<State>
  {
    match CloseRefusal(s, signer, roundId, feed, reading, snapshotCount)
    case Some(error) => Err(error)
    case None =>
      var closed := s.intents[roundId].(closeSlot := s.slot, closeTs := s.now, chainHead := chainHead,
        snapshotCount := snapshotCount, solUsd := reading.value.solUsd, status := WindowClosed);
      Ok(s.(intents := s.intents[roundId := closed]))
  }

  // ---- the seed ------------------------------------------------------------------------------

  function LookUpSeed(s: State, intent: Intent, data: seq<byte>): Result<SeedLookup> {
    if intent.closeSlot + s.config.seedSlotOffset > U64_MAX then Err(Overflow)
    else
      match FindSeed(data, intent.closeSlot + s.config.seedSlotOffset)
      case None => Err(InvalidAccountData)
      case Some(lookup) => Ok(lookup)
  }

  /** Anyone may send it; only the sysvar decides. */
  function RecordSeed(s: State, roundId: u64, data: seq<byte>): Result<State> {
    if roundId !in s.intents then Err(AccountMissing)
    else if s.intents[roundId].status != WindowClosed then Err(InvalidIntentStatus)
    else
      match LookUpSeed(s, s.intents[roundId], data)
      case Err(error) => Err(error)
      case Ok(NotYet) => Err(SeedNotYetAvailable)
      case Ok(Expired) => Err(SeedHasExpired)
      case Ok(Found(slot, hash)) =>
        var seeded := s.intents[roundId].(seedSlot := slot, seedHash := hash, seedTs := s.now, status := Seeded);
        Ok(s.(intents := s.intents[roundId := seeded]))
  }

  // ---- abandoning --------------------------------------------------------------------------------

  function AbandonReasonFor(status: IntentStatus, seedExpired: bool, now: i64, closeTs: i64,
                            seedTs: i64): Option<AbandonReason>
  {
    match status
    case IntentOpen => Some(WindowOpen)
    case WindowClosed =>
      if seedExpired && now >= Clamp(closeTs + EXPIRED_SEED_ABANDON_DELAY_SECS) then Some(SeedExpired) else None
    case Seeded => if now >= Clamp(seedTs + SEEDED_ABANDON_DELAY_SECS) then Some(SecretLost) else None
    case _ => None
  }

  function AbandonVerdict(s: State, signer: Key, roundId: u64, data: seq<byte>): Result<AbandonReason> {
    if roundId !in s.intents then Err(AccountMissing) else
    var intent := s.intents[roundId];
    if signer != s.rootAuthority then Err(Unauthorized)
    else if intent.roundId != s.nextRoundId then Err(InvalidRoundId)
    else
      var lookup := if intent.status == WindowClosed then LookUpSeed(s, intent, data) else Ok(NotYet);
      match lookup
      case Err(error) => Err(error)
      case Ok(found) =>
        match AbandonReasonFor(intent.status, found.Expired?, s.now, intent.closeTs, intent.seedTs)
        case None => Err(CannotAbandon)
        case Some(reason) =>
          if reason == SeedExpired && s.expiredSeedAbandons == U32_MAX then Err(Overflow)
          else if s.nextRoundId == U64_MAX then Err(Overflow)
          else Ok(reason)
  }

  function AbandonRound(s: State, signer: Key, roundId: u64, data: seq<byte>): Result<State> {
    match AbandonVerdict(s, signer, roundId, data)
    case Err(error) => Err(error)
    case Ok(reason) =>
      VerdictNames(s, signer, roundId, data);
      Ok(s.(intents := s.intents[roundId := s.intents[roundId].(status := Abandoned)],
            nextRoundId := s.nextRoundId + 1,
            expiredSeedAbandons := if reason == SeedExpired then s.expiredSeedAbandons + 1 else s.expiredSeedAbandons))
  }

  lemma {:induction false} VerdictNames(s: State, signer: Key, roundId: u64, data: seq<byte>)
    requires AbandonVerdict(s, signer, roundId, data).Ok?
    ensures roundId in s.intents && s.nextRoundId < U64_MAX
    ensures AbandonVerdict(s, signer, roundId, data) == Ok(SeedExpired) ==> s.expiredSeedAbandons < U32_MAX
  {
  }

  // ---- committing ----------------------------------------------------------------------------------

  datatype CommitParams = CommitParams(
    roundId: u64, secret: nat, assetsRoot: Digest, artifactHash: Digest, assetCount: nat, expiryTs: i64,
    allowFreezeMask: bv32)

  /** No bit at or above `count`. */
  predicate MaskWithin(mask: bv32, count: nat)
    requires count <= MAX_ASSETS_PER_ROUND
  {
    mask & !((1 << count) - 1) == 0
  }

  function CommitRefusal(s: State, signer: Key, intentId: u64, p: CommitParams): Option<Error> {
    if p.roundId in s.headers then Some(AccountInUse)
    else if intentId !in s.intents then Some(AccountMissing)
    else if signer != s.rootAuthority then Some(Unauthorized)
    else if p.roundId != s.nextRoundId then Some(InvalidRoundId)
    else if s.intents[intentId].roundId != p.roundId then Some(IntentMismatch)
    else if s.intents[intentId].status != Seeded then Some(InvalidIntentStatus)
    else if HashOf(p.secret) != s.intents[intentId].commitment then Some(SecretMismatch)
    else if p.assetCount > MAX_ASSETS_PER_ROUND then Some(InvalidAssetCount)
    else if !MaskWithin(p.allowFreezeMask, p.assetCount) then Some(InvalidAllowMask)
    else if s.now + s.config.minExpirySecs > I64_MAX then Some(Overflow)
    else if p.expiryTs < s.now + s.config.minExpirySecs || p.expiryTs <= s.now then Some(ExpiryTooSoon)
    else if s.nextRoundId == U64_MAX then Some(Overflow)
    else None
  }

  function NewHeader(s: State, intent: Intent, p: CommitParams): Header {
    Header(p.roundId, p.assetsRoot, p.artifactHash, p.assetCount, 0, 0, p.allowFreezeMask, s.now, p.expiryTs,
      intent.openSlot, intent.closeSlot)
  }

  function CommitRound(s: State, signer: Key, intentId: u64, p: CommitParams): Result<State> {
    match CommitRefusal(s, signer, intentId, p)
    case Some(error) => Err(error)
    case None =>
      var intent := s.intents[intentId];
      CommitAllowed(s, signer, intentId, p);
      Ok(s.(nextRoundId := s.nextRoundId + 1,
            intents := s.intents[intentId := intent.(status := Committed)],
            headers := s.headers[p.roundId := NewHeader(s, intent, p)]))
  }

  lemma {:induction false} CommitAllowed(s: State, signer: Key, intentId: u64, p: CommitParams)
    requires CommitRefusal(s, signer, intentId, p).None?
    ensures intentId in s.intents && s.nextRoundId < U64_MAX
  {
  }

  // ---- handing over the authority --------------------------------------------------------------------

  const DEFAULT_KEY := Address(0)

  function ProposeAuthority(s: State, signer: Key, next: Key): Result<State> {
    if signer != s.rootAuthority then Err(Unauthorized)
    else if next == DEFAULT_KEY || next == s.rootAuthority then Err(InvalidRootAuthority)
    else Ok(s.(pendingAuthority := Some(next)))
  }

  function AcceptAuthority(s: State, signer: Key): Result<State> {
    if s.pendingAuthority != Some(signer) then Err(NoPendingRootAuthority)
    else Ok(s.(rootAuthority := signer, pendingAuthority := None))
  }
}
