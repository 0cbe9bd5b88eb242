/** The payout half of the distributor program: what one instruction does to the chain. Addresses are
    terms, the clock and the token program's own instructions are the environment. */
module Distributor {
  import opened Terms
  import opened Bits
  import opened Fees
  import Merkle

  const MAX_ASSETS_PER_ROUND := 30
  const MAX_LEAVES_PER_ASSET := 65_536
  const MAX_BLOCK_LEVEL := 5

  datatype Status = Pending | Active

  datatype RoundHeader = RoundHeader(
    distributor: Key, roundId: u64, assetsRoot: Digest, assetCount: nat,
    openedMask: bv32, closedMask: bv32, expiryTs: i64)

  datatype RoundAsset = RoundAsset(
    distributor: Key, round: Key, roundId: u64, assetIdx: nat, status: Status,
    mint: Key, tokenProgram: Key, vault: Key, merkleRoot: Digest,
    allocation: u64, funded: u64, claimed: u64, leafCount: u32, bitmap: seq<bv8>)

  /** `accepting` is false for a frozen or memo-requiring account. */
  datatype TokenAccount = TokenAccount(mint: Key, owner: Key, tokenProgram: Key, amount: u64, accepting: bool)

  /** The event every payout emits. */
  datatype Payout = Payout(asset: Key, leafIdx: u32, recipient: Key, destination: Key, amount: u64, selfClaim: bool)

  /** The accounts, and the record of what was done: each asset as it was opened, and each payout. */
  datatype Chain = Chain(
    now: i64,
    authorities: map<Key, Key>,
    rounds: map<Key, RoundHeader>,
    assets: map<Key, RoundAsset>,
    tokens: map<Key, TokenAccount>,
    fees: map<Key, FeeConfig>,
    openings: map<Key, RoundAsset>,
    paid: seq<Payout>)

  datatype Error =
    | AccountMissing | RoundMismatch | InvalidStatus | RoundExpired | RoundNotExpired | InvalidTokenProgram
    | MintMismatch | VaultMismatch | LeafIndexOutOfRange | AlreadyClaimed | ZeroAmount | ProofTooLong | InvalidProof
    | Overflow | ExceedsAllocation | DestinationNotCanonicalAta | ClaimDestinationMismatch | DestinationIsVault
    | InvalidBlock | AssetIndexOutOfRange | AssetAlreadyOpened | InvalidLeafCount | InvalidAllocation
    | InvalidAssetProof | MintRefused | Underfunded | DistributorMismatch | RolloverMismatch | NothingToSweep
    | TransferFailed | MissingSignature

  datatype Result<+T> = Ok(value: T) | Err(error: Error)

  // ---- digests --------------------------------------------------------------

  function LeafDigest(a: RoundAsset, leafIdx: u32, recipient: Key, amount: u64): Digest {
    PayoutLeaf(a.distributor, a.roundId, a.assetIdx, leafIdx, recipient, amount)
  }

  function TupleDigest(a: RoundAsset): Digest {
    AssetLeaf(a.distributor, a.roundId, a.assetIdx, a.mint, a.tokenProgram, a.merkleRoot, a.allocation, a.leafCount)
  }

  // ---- token program ----------------------------------------------------------

  predicate Holds(c: Chain, account: Key, tokenProgram: Key) {
    account in c.tokens && c.tokens[account].tokenProgram == tokenProgram
  }

  function FeeOf(c: Chain, mint: Key, amount: nat): (fee: nat)
    ensures fee <= amount
  {
    if mint in c.fees && c.fees[mint].bps <= ONE_IN_BPS then
      FeeAtMostAmount(c.fees[mint], amount);
      Fee(c.fees[mint], amount)
    else 0
  }

  /** `transfer_checked`: the source loses `amount`, the destination gains it less the fee. */
  function Transfer(c: Chain, source: Key, destination: Key, amount: u64): Result<Chain> {
    if source !in c.tokens || destination !in c.tokens || source == destination then Err(TransferFailed)
    else
      var from, to := c.tokens[source], c.tokens[destination];
      var arrives := amount - FeeOf(c, from.mint, amount);
      if from.mint != to.mint || !to.accepting || from.amount < amount || to.amount + arrives > U64_MAX then
        Err(TransferFailed)
      else
        Ok(c.(tokens := c.tokens[source := from.(amount := from.amount - amount)]
                                [destination := to.(amount := to.amount + arrives)]))
  }

  // ---- open, activate, sweep, close ---------------------------------------------

  datatype OpenParams = OpenParams(
    assetIdx: nat, merkleRoot: Digest, allocation: u64, leafCount: u32, assetProof: seq<Digest>,
    mint: Key, tokenProgram: Key, mintVetted: bool)

  function NewAsset(header: RoundHeader, round: Key, p: OpenParams): RoundAsset {
    RoundAsset(header.distributor, round, header.roundId, p.assetIdx, Pending, p.mint, p.tokenProgram,
      Ata(AssetKey(round, p.assetIdx), p.mint, p.tokenProgram), p.merkleRoot,
      p.allocation, 0, 0, p.leafCount, EmptyBitmap(p.leafCount))
  }

  function OpenRefusal(c: Chain, round: Key, vault: Key, p: OpenParams): Option<Error> {
    if round !in c.rounds then Some(AccountMissing) else
    var header := c.rounds[round];
    if c.now >= header.expiryTs then Some(RoundExpired)
    else if p.assetIdx >= header.assetCount || p.assetIdx >= 32 then Some(AssetIndexOutOfRange)
    else if HasBit(header.openedMask, p.assetIdx) then Some(AssetAlreadyOpened)
    else if p.leafCount < 1 || p.leafCount > MAX_LEAVES_PER_ASSET then Some(InvalidLeafCount)
    else if p.allocation == 0 then Some(InvalidAllocation)
    else if |p.assetProof| > Merkle.MAX_PROOF_LEN then Some(ProofTooLong)
    else if !Merkle.Verify(p.assetProof, header.assetsRoot, TupleDigest(NewAsset(header, round, p))) then
      Some(InvalidAssetProof)
    else if !p.mintVetted then Some(MintRefused)
    else if vault != Ata(AssetKey(round, p.assetIdx), p.mint, p.tokenProgram) then Some(VaultMismatch)
    else None
  }

  lemma {:induction false} OpenAllowed(c: Chain, round: Key, vault: Key, p: OpenParams)
    requires OpenRefusal(c, round, vault, p).None?
    ensures round in c.rounds && p.assetIdx < c.rounds[round].assetCount && p.assetIdx < 32
  {
  }

  function Open(c: Chain, round: Key, vault: Key, p: OpenParams): Result<Chain> {
    match OpenRefusal(c, round, vault, p)
    case Some(error) => Err(error)
    case None => Ok(Initialise(c, round, vault, p))
  }

  function Initialise(c: Chain, round: Key, vault: Key, p: OpenParams): Chain
    requires round in c.rounds && p.assetIdx < 32
  {
    var header, key := c.rounds[round], AssetKey(round, p.assetIdx);
    c.(rounds := c.rounds[round := header.(openedMask := Mark(header.openedMask, AssetBit(p.assetIdx)))],
       tokens := if vault in c.tokens then c.tokens
                 else c.tokens[vault := TokenAccount(p.mint, key, p.tokenProgram, 0, true)],
       assets := c.assets[key := NewAsset(header, round, p)],
       openings := c.openings[key := NewAsset(header, round, p)])
  }

  function ActivateRefusal(c: Chain, round: Key, key: Key, vault: Key): Option<Error> {
    if round !in c.rounds || key !in c.assets then Some(AccountMissing) else
    var a := c.assets[key];
    if round != a.round then Some(RoundMismatch)
    else if c.now >= c.rounds[round].expiryTs then Some(RoundExpired)
    else if a.status != Pending then Some(InvalidStatus)
    else if vault != a.vault then Some(VaultMismatch)
    else if !Holds(c, vault, a.tokenProgram) then Some(InvalidTokenProgram)
    else if c.tokens[vault].mint != a.mint then Some(MintMismatch)
    else if c.tokens[vault].amount < a.allocation then Some(Underfunded)
    else None
  }

  function Activate(c: Chain, round: Key, key: Key, vault: Key): Result<Chain> {
    match ActivateRefusal(c, round, key, vault)
    case Some(error) => Err(error)
    case None => Ok(c.(assets := c.assets[key := c.assets[key].(funded := c.tokens[vault].amount, status := Active)]))
  }

  function SweepRefusal(c: Chain, distributor: Key, key: Key, mint: Key, vault: Key, rollover: Key, tokenProgram: Key)
    : Option<Error>
  {
    if distributor !in c.authorities || key !in c.assets then Some(AccountMissing) else
    var a, authority := c.assets[key], c.authorities[distributor];
    if distributor != a.distributor then Some(DistributorMismatch)
    else if a.status != Active then Some(InvalidStatus)
    else if tokenProgram != a.tokenProgram then Some(InvalidTokenProgram)
    else if mint != a.mint then Some(MintMismatch)
    else if vault != a.vault then Some(VaultMismatch)
    else if rollover != Ata(authority, a.mint, a.tokenProgram) then Some(RolloverMismatch)
    else if !Holds(c, rollover, a.tokenProgram) then Some(InvalidTokenProgram)
    else if c.tokens[rollover].owner != authority then Some(RolloverMismatch)
    else if !Holds(c, vault, a.tokenProgram) then Some(InvalidTokenProgram)
    else if a.allocation < a.claimed then Some(Overflow)
    else if c.tokens[vault].amount <= a.allocation - a.claimed then Some(NothingToSweep)
    else None
  }

  function Sweep(c: Chain, distributor: Key, key: Key, mint: Key, vault: Key, rollover: Key, tokenProgram: Key)
    : Result<Chain>
  {
    match SweepRefusal(c, distributor, key, mint, vault, rollover, tokenProgram)
    case Some(error) => Err(error)
    case None =>
      var a := c.assets[key];
      Transfer(c, vault, rollover, c.tokens[vault].amount - (a.allocation - a.claimed))
  }

  function CloseRefusal(c: Chain, distributor: Key, round: Key, key: Key, mint: Key, vault: Key, rollover: Key,
                        wallet: Key, tokenProgram: Key): Option<Error>
  {
    if distributor !in c.authorities || round !in c.rounds || key !in c.assets then Some(AccountMissing) else
    var a, authority := c.assets[key], c.authorities[distributor];
    if round != a.round then Some(RoundMismatch)
    else if distributor != a.distributor then Some(DistributorMismatch)
    else if c.now < c.rounds[round].expiryTs then Some(RoundNotExpired)
    else if tokenProgram != a.tokenProgram then Some(InvalidTokenProgram)
    else if mint != a.mint then Some(MintMismatch)
    else if vault != a.vault then Some(VaultMismatch)
    else if wallet != authority then Some(RolloverMismatch)
    else if rollover != Ata(authority, a.mint, a.tokenProgram) then Some(RolloverMismatch)
    else if !Holds(c, vault, a.tokenProgram) then Some(InvalidTokenProgram)
    else if c.tokens[vault].amount > 0 && !Holds(c, rollover, a.tokenProgram) then Some(InvalidTokenProgram)
    else if c.tokens[vault].amount > 0 && c.tokens[rollover].owner != authority then Some(RolloverMismatch)
    else if a.assetIdx >= 32 then Some(AssetIndexOutOfRange)
    else None
  }

  lemma {:induction false} CloseAllowed(c: Chain, distributor: Key, round: Key, key: Key, mint: Key, vault: Key,
                                        rollover: Key, wallet: Key, tokenProgram: Key)
    requires CloseRefusal(c, distributor, round, key, mint, vault, rollover, wallet, tokenProgram).None?
    ensures round in c.rounds && key in c.assets && vault in c.tokens && c.assets[key].assetIdx < 32
  {
  }

  function Close(c: Chain, distributor: Key, round: Key, key: Key, mint: Key, vault: Key, rollover: Key,
                 wallet: Key, tokenProgram: Key): Result<Chain>
  {
    match CloseRefusal(c, distributor, round, key, mint, vault, rollover, wallet, tokenProgram)
    case Some(error) => Err(error)
    case None =>
      var remaining := c.tokens[vault].amount;
      var drained := if remaining > 0 then Transfer(c, vault, rollover, remaining) else Ok(c);
      match drained
      case Err(error) => Err(error)
      case Ok(d) =>
        var header, bit := d.rounds[round], AssetBit(c.assets[key].assetIdx);
        Ok(d.(tokens := d.tokens - {vault},
              rounds := d.rounds[round := header.(closedMask := Mark(header.closedMask, bit))],
              assets := d.assets - {key}))
  }

  // ---- payouts ----------------------------------------------------------------------

  /** `signer`: whoever pays for a push; the recipient of a self-claim has to be that. */
  datatype PayoutRequest = PayoutRequest(
    round: Key, asset: Key, mint: Key, vault: Key, tokenProgram: Key,
    recipient: Key, destination: Key, leafIdx: u32, amount: u64, proof: seq<Digest>, selfClaim: bool,
    signer: Key)

  /** The guards of `process`, in order. */
  function PayoutRefusal(c: Chain, r: PayoutRequest): Option<Error> {
    if r.round !in c.rounds || r.asset !in c.assets then Some(AccountMissing) else
    var a := c.assets[r.asset];
    if r.selfClaim && r.signer != r.recipient then Some(MissingSignature)
    else if r.round != a.round then Some(RoundMismatch)
    else if a.status != Active then Some(InvalidStatus)
    else if c.now >= c.rounds[r.round].expiryTs then Some(RoundExpired)
    else if r.tokenProgram != a.tokenProgram then Some(InvalidTokenProgram)
    else if r.mint != a.mint then Some(MintMismatch)
    else if r.vault != a.vault then Some(VaultMismatch)
    else if r.leafIdx >= a.leafCount || r.leafIdx / 8 >= |a.bitmap| then Some(LeafIndexOutOfRange)
    else if IsClaimed(a.bitmap, r.leafIdx) then Some(AlreadyClaimed)
    else if r.amount == 0 then Some(ZeroAmount)
    else if |r.proof| > Merkle.MAX_PROOF_LEN then Some(ProofTooLong)
    else if !Merkle.Verify(r.proof, a.merkleRoot, LeafDigest(a, r.leafIdx, r.recipient, r.amount)) then
      Some(InvalidProof)
    else if a.claimed + r.amount > U64_MAX then Some(Overflow)
    else if a.claimed + r.amount > a.allocation then Some(ExceedsAllocation)
    else if !r.selfClaim && r.destination != Ata(r.recipient, a.mint, a.tokenProgram) then
      Some(DestinationNotCanonicalAta)
    else if !Holds(c, r.destination, a.tokenProgram) then Some(InvalidTokenProgram)
    else if c.tokens[r.destination].mint != a.mint then Some(MintMismatch)
    else if c.tokens[r.destination].owner != r.recipient then Some(ClaimDestinationMismatch)
    else if r.destination == a.vault || r.recipient == r.asset then Some(DestinationIsVault)
    else None
  }

  /** Marks a leaf, counts it and moves its tokens: the part `process` and `push_payouts` share. */
  function Pay(c: Chain, key: Key, p: Payout): Result<Chain>
    requires key in c.assets
  {
    var a := c.assets[key];
    if p.leafIdx / 8 >= |a.bitmap| then Err(LeafIndexOutOfRange)
    else if a.claimed + p.amount > U64_MAX then Err(Overflow)
    else if a.claimed + p.amount > a.allocation then Err(ExceedsAllocation)
    else
      var marked := a.(bitmap := SetClaimed(a.bitmap, p.leafIdx), claimed := a.claimed + p.amount);
      match Transfer(c.(assets := c.assets[key := marked]), a.vault, p.destination, p.amount)
      case Err(error) => Err(error)
      case Ok(d) => Ok(d.(paid := d.paid + [p]))
  }

  function RequestPayout(r: PayoutRequest): Payout {
    Payout(r.asset, r.leafIdx, r.recipient, r.destination, r.amount, r.selfClaim)
  }

  function Process(c: Chain, r: PayoutRequest): Result<Chain> {
    match PayoutRefusal(c, r)
    case Some(error) => Err(error)
    case None => Pay(c, r.asset, RequestPayout(r))
  }

  datatype BlockLeaf = Push(amount: u64) | Skip(recipient: Key, amount: u64)

  datatype BlockRequest = BlockRequest(
    round: Key, asset: Key, mint: Key, vault: Key, tokenProgram: Key,
    firstLeaf: u32, level: nat, leaves: seq<BlockLeaf>, proof: seq<Digest>, destinations: seq<Key>,
    payer: Key)

  function BlockRefusal(c: Chain, r: BlockRequest): Option<Error> {
    if r.round !in c.rounds || r.asset !in c.assets then Some(AccountMissing) else
    var a := c.assets[r.asset];
    if r.round != a.round then Some(RoundMismatch)
    else if a.status != Active then Some(InvalidStatus)
    else if c.now >= c.rounds[r.round].expiryTs then Some(RoundExpired)
    else if r.tokenProgram != a.tokenProgram then Some(InvalidTokenProgram)
    else if r.mint != a.mint then Some(MintMismatch)
    else if r.vault != a.vault then Some(VaultMismatch)
    else if r.level > MAX_BLOCK_LEVEL then Some(InvalidBlock)
    else if |r.proof| > Merkle.MAX_PROOF_LEN then Some(ProofTooLong)
    else if !Merkle.IsBlock(|r.leaves|, r.firstLeaf, r.level, a.leafCount) then Some(InvalidBlock)
    else None
  }

  /** What the first loop of `push_payouts` gathers. */
  datatype Plan = Plan(hashes: seq<Digest>, pushes: seq<Payout>)

  function PlanLeaf(c: Chain, key: Key, destinations: seq<Key>, plan: Plan, leafIdx: u32, leaf: BlockLeaf): Result<Plan>
    requires key in c.assets
  {
    var a := c.assets[key];
    match leaf
    case Skip(recipient, amount) => Ok(plan.(hashes := plan.hashes + [LeafDigest(a, leafIdx, recipient, amount)]))
    case Push(amount) =>
      if |plan.pushes| >= |destinations| then Err(InvalidBlock) else
      var destination := destinations[|plan.pushes|];
      if !Holds(c, destination, a.tokenProgram) then Err(InvalidTokenProgram) else
      var view := c.tokens[destination];
      if view.mint != a.mint then Err(MintMismatch)
      else if destination != Ata(view.owner, a.mint, a.tokenProgram) then Err(DestinationNotCanonicalAta)
      else if destination == a.vault || view.owner == key then Err(DestinationIsVault)
      else if amount == 0 then Err(ZeroAmount)
      else Ok(Plan(plan.hashes + [LeafDigest(a, leafIdx, view.owner, amount)],
                   plan.pushes + [Payout(key, leafIdx, view.owner, destination, amount, false)]))
  }

  function PlanBlock(c: Chain, key: Key, destinations: seq<Key>, firstLeaf: u32, leaves: seq<BlockLeaf>): Result<Plan>
    requires key in c.assets && firstLeaf + |leaves| < 0x1_0000_0000
    decreases |leaves|
  {
    if leaves == [] then Ok(Plan([], []))
    else
      var n := |leaves| - 1;
      match PlanBlock(c, key, destinations, firstLeaf, leaves[..n])
      case Err(error) => Err(error)
      case Ok(plan) => PlanLeaf(c, key, destinations, plan, firstLeaf + n, leaves[n])
  }

  function PayUnclaimed(c: Chain, key: Key, p: Payout): Result<Chain>
    requires key in c.assets
  {
    if p.leafIdx / 8 < |c.assets[key].bitmap| && IsClaimed(c.assets[key].bitmap, p.leafIdx) then Ok(c)
    else Pay(c, key, p)
  }

  /** The second loop of `push_payouts`. */
  function PayAll(c: Chain, key: Key, pushes: seq<Payout>): (r: Result<Chain>)
    requires key in c.assets
    ensures r.Ok? ==> key in r.value.assets
    decreases |pushes|
  {
    if pushes == [] then Ok(c)
    else
      var n := |pushes| - 1;
      match PayAll(c, key, pushes[..n])
      case Err(error) => Err(error)
      case Ok(d) => PayUnclaimed(d, key, pushes[n])
  }

  function PushPayouts(c: Chain, r: BlockRequest): Result<Chain> {
    match BlockRefusal(c, r)
    case Some(error) => Err(error)
    case None =>
      var a := c.assets[r.asset];
      match PlanBlock(c, r.asset, r.destinations, r.firstLeaf, r.leaves)
      case Err(error) => Err(error)
      case Ok(plan) =>
        if |plan.pushes| != |r.destinations| then Err(InvalidBlock)
        else if !Merkle.BlockVerifies(plan.hashes, r.firstLeaf, r.level, a.leafCount, r.proof, a.merkleRoot) then
          Err(InvalidProof)
        else PayAll(c, r.asset, plan.pushes)
  }
}
