/** What every run of the distributor keeps, whoever sends which instruction and in whatever order. */
module PayoutSafety {
  import opened Terms
  import opened Bits
  import opened Distributor
  import Merkle

  // ---- runs ----------------------------------------------------------------------

  datatype Action =
    | NewRound(key: Key, header: RoundHeader)
    | OpenAsset(round: Key, vault: Key, params: OpenParams)
    | ActivateAsset(round: Key, key: Key, vault: Key)
    | PayOne(request: PayoutRequest)
    | PayBlock(block: BlockRequest)
    | SweepExcess(distributor: Key, key: Key, mint: Key, vault: Key, rollover: Key, tokenProgram: Key)
    | CloseAsset(distributor: Key, round: Key, key: Key, mint: Key, vault: Key, rollover: Key, wallet: Key,
                 tokenProgram: Key)
      // Time passes and everyone else uses the token program.
    | Environment(now: i64, tokens: map<Key, TokenAccount>, fees: map<Key, Fees.FeeConfig>)

  import Fees

  predicate IsVaultKey(key: Key) {
    key.Ata? && key.owner.AssetKey?
  }

  /** An account at a vault's address is that vault: only its asset can spend from it or hand it on. */
  ghost predicate VaultsPinned(tokens: map<Key, TokenAccount>) {
    forall k :: k in tokens && IsVaultKey(k) ==>
      tokens[k].owner == k.owner && tokens[k].mint == k.mint && tokens[k].tokenProgram == k.tokenProgram
  }

  ghost predicate VaultsKept(before: map<Key, TokenAccount>, after: map<Key, TokenAccount>) {
    forall k :: k in before && IsVaultKey(k) ==> k in after && before[k].amount <= after[k].amount
  }

  ghost predicate Fair(c: Chain, action: Action) {
    match action
    case NewRound(key, header) =>
      key !in c.rounds && key == RoundKey(header.distributor, header.roundId)
      && header.assetCount <= MAX_ASSETS_PER_ROUND && header.openedMask == 0 && header.closedMask == 0
    case Environment(now, tokens, _) => c.now <= now && VaultsPinned(tokens) && VaultsKept(c.tokens, tokens)
    case _ => true
  }

  ghost function Step(c: Chain, action: Action): Result<Chain> {
    match action
    case NewRound(key, header) => Ok(c.(rounds := c.rounds[key := header]))
    case OpenAsset(round, vault, params) => Open(c, round, vault, params)
    case ActivateAsset(round, key, vault) => Activate(c, round, key, vault)
    case PayOne(request) => Process(c, request)
    case PayBlock(block) => PushPayouts(c, block)
    case SweepExcess(d, key, mint, vault, rollover, tp) => Sweep(c, d, key, mint, vault, rollover, tp)
    case CloseAsset(d, round, key, mint, vault, rollover, wallet, tp) =>
      Close(c, d, round, key, mint, vault, rollover, wallet, tp)
    case Environment(now, tokens, fees) => Ok(c.(now := now, tokens := tokens, fees := fees))
  }

  /** A failed instruction changes nothing. */
  ghost function After(c: Chain, action: Action): Chain {
    match Step(c, action)
    case Ok(d) => d
    case Err(_) => c
  }

  ghost predicate FairRun(c: Chain, actions: seq<Action>)
    decreases |actions|
  {
    actions == [] || (Fair(c, actions[0]) && FairRun(After(c, actions[0]), actions[1..]))
  }

  ghost function Run(c: Chain, actions: seq<Action>): Chain
    decreases |actions|
  {
    if actions == [] then c else Run(After(c, actions[0]), actions[1..])
  }

  ghost predicate Start(c: Chain) {
    c.rounds == map[] && c.assets == map[] && c.openings == map[] && c.paid == [] && VaultsPinned(c.tokens)
  }

  // ---- the invariant ----------------------------------------------------------------

  ghost function SumPaid(paid: seq<Payout>, key: Key): nat
    decreases |paid|
  {
    if paid == [] then 0
    else
      var n := |paid| - 1;
      SumPaid(paid[..n], key) + if paid[n].asset == key then paid[n].amount else 0
  }

  ghost predicate PaidTo(paid: seq<Payout>, key: Key, leafIdx: nat) {
    exists i :: 0 <= i < |paid| && paid[i].asset == key && paid[i].leafIdx == leafIdx
  }

  ghost predicate Opened(c: Chain, key: Key) {
    key.AssetKey? && key.assetIdx < 32 && key.round in c.rounds && HasBit(c.rounds[key.round].openedMask, key.assetIdx)
  }

  /** The asset as it was opened is one its round committed to. */
  ghost predicate Placed(c: Chain, key: Key) {
    key in c.openings && Opened(c, key)
    && var a := c.openings[key];
       var header := c.rounds[key.round];
       a.round == key.round && a.assetIdx == key.assetIdx && a.vault == Ata(key, a.mint, a.tokenProgram)
       && a.distributor == header.distributor && a.roundId == header.roundId
       && 1 <= a.leafCount <= MAX_LEAVES_PER_ASSET
       && Merkle.Within(TupleDigest(a), header.assetsRoot)
  }

  /** No more than what was committed has ever been paid from it, whether or not it has been closed since. */
  ghost predicate Recorded(c: Chain, key: Key) {
    Placed(c, key) && SumPaid(c.paid, key) <= c.openings[key].allocation
  }

  /** Funding and paying an asset change nothing else about it. */
  ghost predicate Continues(a: RoundAsset, b: RoundAsset) {
    b == a.(status := b.status, funded := b.funded, claimed := b.claimed, bitmap := b.bitmap)
  }

  ghost predicate BitmapMatches(c: Chain, key: Key)
    requires key in c.assets
  {
    var a := c.assets[key];
    1 <= a.leafCount <= MAX_LEAVES_PER_ASSET && |a.bitmap| == BitmapLen(a.leafCount)
    && forall i: nat :: i < a.leafCount ==> (IsClaimed(a.bitmap, i) <==> PaidTo(c.paid, key, i))
  }

  ghost predicate Solvent(c: Chain, key: Key)
    requires key in c.assets
  {
    var a := c.assets[key];
    a.claimed == SumPaid(c.paid, key) && a.claimed <= a.allocation
    && a.vault in c.tokens
    && (a.status == Pending ==> a.claimed == 0)
    && (a.status == Active ==> c.tokens[a.vault].amount >= a.allocation - a.claimed)
  }

  ghost predicate AssetInv(c: Chain, key: Key) {
    key in c.assets && Placed(c, key) && Continues(c.openings[key], c.assets[key])
    && BitmapMatches(c, key) && Solvent(c, key)
  }

  /** A payout was proved against the root its asset was opened with. */
  ghost predicate Proved(c: Chain, p: Payout) {
    p.asset in c.openings && p.leafIdx < c.openings[p.asset].leafCount
    && Merkle.Within(LeafDigest(c.openings[p.asset], p.leafIdx, p.recipient, p.amount), c.openings[p.asset].merkleRoot)
  }

  ghost predicate PaidOnce(paid: seq<Payout>) {
    forall i, j :: 0 <= i < j < |paid| ==> paid[i].asset != paid[j].asset || paid[i].leafIdx != paid[j].leafIdx
  }

  ghost predicate RoundsNamed(c: Chain) {
    forall k :: k in c.rounds ==>
      k == RoundKey(c.rounds[k].distributor, c.rounds[k].roundId) && c.rounds[k].assetCount <= MAX_ASSETS_PER_ROUND
  }

  ghost predicate Inv(c: Chain) {
    RoundsNamed(c) && VaultsPinned(c.tokens) && PaidOnce(c.paid)
    && (forall key :: key in c.assets ==> AssetInv(c, key))
    && (forall key :: key in c.openings ==> Recorded(c, key))
    && (forall i :: 0 <= i < |c.paid| ==> Proved(c, c.paid[i]))
  }

  lemma {:induction false} InvOf(c: Chain, key: Key)
    requires Inv(c) && key in c.assets
    ensures AssetInv(c, key) && Opened(c, key) && c.assets[key].vault in c.tokens && key.round in c.rounds
    ensures key in c.openings && Continues(c.openings[key], c.assets[key])
    ensures c.assets[key].vault == Ata(key, c.assets[key].mint, c.assets[key].tokenProgram)
    ensures c.assets[key].status == Active ==>
      c.tokens[c.assets[key].vault].amount >= c.assets[key].allocation - c.assets[key].claimed
  {
    hide Proved, RoundsNamed, VaultsPinned, PaidOnce, BitmapMatches, Recorded;
  }

  // ---- paying --------------------------------------------------------------------------

  lemma {:induction false} SumAppend(paid: seq<Payout>, p: Payout, key: Key)
    ensures SumPaid(paid + [p], key) == SumPaid(paid, key) + if p.asset == key then p.amount else 0
  {
    assert (paid + [p])[..|paid|] == paid;
  }

  lemma {:induction false} PaidToAppend(paid: seq<Payout>, p: Payout, key: Key, leafIdx: nat)
    ensures PaidTo(paid + [p], key, leafIdx) <==> PaidTo(paid, key, leafIdx) || (p.asset == key && p.leafIdx == leafIdx)
  {
    var after := paid + [p];
    if p.asset == key && p.leafIdx == leafIdx {
      assert after[|paid|] == p;
    }
    if PaidTo(paid, key, leafIdx) {
      var i :| 0 <= i < |paid| && paid[i].asset == key && paid[i].leafIdx == leafIdx;
      assert after[i] == paid[i];
    }
  }

  /** What has to be known of a payout before it is made. */
  ghost predicate Payable(c: Chain, p: Payout) {
    p.asset in c.assets && c.assets[p.asset].status == Active
    && p.leafIdx < c.assets[p.asset].leafCount
    && !(p.leafIdx / 8 < |c.assets[p.asset].bitmap| && IsClaimed(c.assets[p.asset].bitmap, p.leafIdx))
    && Merkle.Within(LeafDigest(c.assets[p.asset], p.leafIdx, p.recipient, p.amount), c.assets[p.asset].merkleRoot)
    && p.destination != c.assets[p.asset].vault
  }

  /** The effect of one payment, field by field. */
  lemma {:induction false} PayEffect(c: Chain, p: Payout)
    requires p.asset in c.assets && Pay(c, p.asset, p).Ok?
    ensures var d := Pay(c, p.asset, p).value; var a := c.assets[p.asset];
      p.leafIdx / 8 < |a.bitmap| && a.claimed + p.amount <= a.allocation
      && d.assets == c.assets[p.asset := a.(bitmap := SetClaimed(a.bitmap, p.leafIdx), claimed := a.claimed + p.amount)]
      && d.paid == c.paid + [p] && d.openings == c.openings && d.rounds == c.rounds && d.now == c.now
      && d.fees == c.fees && d.authorities == c.authorities
      && d.tokens.Keys == c.tokens.Keys && a.vault in c.tokens && p.destination in c.tokens
      && a.vault != p.destination
      && d.tokens[a.vault] == c.tokens[a.vault].(amount := c.tokens[a.vault].amount - p.amount)
      && d.tokens[p.destination] == c.tokens[p.destination].(amount :=
           c.tokens[p.destination].amount + (p.amount - FeeOf(c, c.tokens[a.vault].mint, p.amount)))
      && forall k :: k in c.tokens && k != a.vault && k != p.destination ==> d.tokens[k] == c.tokens[k]
  {
  }

  lemma {:induction false} PayKeepsBitmap(c: Chain, d: Chain, p: Payout, key: Key)
    requires Inv(c) && Payable(c, p) && Pay(c, p.asset, p) == Ok(d) && key in c.assets
    ensures key in d.assets && BitmapMatches(d, key)
  {
    hide Pay, RoundsNamed, VaultsPinned, PaidOnce, Proved, Recorded, Placed, Solvent;
    PayEffect(c, p);
    assert AssetInv(c, key);
    forall i: nat | i < c.assets[key].leafCount
      ensures IsClaimed(d.assets[key].bitmap, i) <==> PaidTo(d.paid, key, i)
    {
      PaidToAppend(c.paid, p, key, i);
      if key == p.asset {
        ClaimsOne(c.assets[key].bitmap, p.leafIdx, i);
      }
    }
  }

  lemma {:induction false} PayKeepsAsset(c: Chain, p: Payout, key: Key)
    requires Inv(c) && Payable(c, p) && Pay(c, p.asset, p).Ok? && key in c.assets
    ensures AssetInv(Pay(c, p.asset, p).value, key)
  {
    hide Pay, BitmapMatches, Inv;
    PayEffect(c, p);
    PayKeepsBitmap(c, Pay(c, p.asset, p).value, p, key);
    InvOf(c, key);
    InvOf(c, p.asset);
    SumAppend(c.paid, p, key);
    assert TupleDigest(Pay(c, p.asset, p).value.assets[key]) == TupleDigest(c.assets[key]);
  }

  lemma {:induction false} PayOnceMore(c: Chain, p: Payout)
    requires Inv(c) && Payable(c, p) && Pay(c, p.asset, p).Ok?
    ensures PaidOnce(c.paid + [p])
  {
    hide Pay, Proved, Recorded, RoundsNamed, VaultsPinned;
    PayEffect(c, p);
    InvOf(c, p.asset);
    assert !PaidTo(c.paid, p.asset, p.leafIdx);
  }

  lemma {:induction false} PayKeepsProved(c: Chain, p: Payout, i: nat)
    requires Inv(c) && Payable(c, p) && Pay(c, p.asset, p).Ok? && i <= |c.paid|
    ensures Proved(Pay(c, p.asset, p).value, (c.paid + [p])[i])
  {
    hide AssetInv, Pay, RoundsNamed, VaultsPinned, PaidOnce;
    PayEffect(c, p);
    InvOf(c, p.asset);
    if i < |c.paid| {
      assert Proved(c, c.paid[i]);
    }
  }

  lemma {:induction false} PayKeepsRecord(c: Chain, p: Payout, key: Key)
    requires Inv(c) && Payable(c, p) && Pay(c, p.asset, p).Ok? && key in c.openings
    ensures Recorded(Pay(c, p.asset, p).value, key)
  {
    hide Pay, Inv, Proved;
    PayEffect(c, p);
    InvOf(c, p.asset);
    InvRecord(c, key);
    SumAppend(c.paid, p, key);
  }

  lemma {:induction false} InvRecord(c: Chain, key: Key)
    requires Inv(c) && key in c.openings
    ensures Recorded(c, key)
  {
    hide AssetInv, Proved, PaidOnce, RoundsNamed, VaultsPinned, Recorded;
  }

  lemma {:induction false} PayKeepsInv(c: Chain, p: Payout)
    requires Inv(c) && Payable(c, p) && Pay(c, p.asset, p).Ok?
    ensures Inv(Pay(c, p.asset, p).value)
  {
    hide AssetInv, Proved, PaidOnce, Recorded;
    PayEffect(c, p);
    PayOnceMore(c, p);
    var d := Pay(c, p.asset, p).value;
    forall key | key in d.assets
      ensures AssetInv(d, key)
    {
      PayKeepsAsset(c, p, key);
    }
    forall key | key in d.openings
      ensures Recorded(d, key)
    {
      PayKeepsRecord(c, p, key);
    }
    forall i | 0 <= i < |d.paid|
      ensures Proved(d, d.paid[i])
    {
      PayKeepsProved(c, p, i);
    }
  }

  lemma {:induction false} ProcessIsPayable(c: Chain, r: PayoutRequest)
    requires Process(c, r).Ok?
    ensures Payable(c, RequestPayout(r)) && Process(c, r) == Pay(c, r.asset, RequestPayout(r))
    ensures r.destination in c.tokens && c.tokens[r.destination].owner == r.recipient
  {
    var a := c.assets[r.asset];
    var leaf := LeafDigest(a, r.leafIdx, r.recipient, r.amount);
    Merkle.FoldKeeps(leaf, leaf, r.proof);
  }

  // ---- paying a block --------------------------------------------------------------------

  /** What the first loop hands to the second: payouts of this block's leaves, in leaf order. */
  ghost predicate PlanOk(c: Chain, key: Key, firstLeaf: nat, count: nat, plan: Plan)
    requires key in c.assets
  {
    |plan.hashes| == count && Merkle.Indexed(plan.hashes, firstLeaf)
    && forall j :: 0 <= j < |plan.pushes| ==>
         var p := plan.pushes[j];
         p.asset == key && firstLeaf <= p.leafIdx < firstLeaf + count
         && plan.hashes[p.leafIdx - firstLeaf] == LeafDigest(c.assets[key], p.leafIdx, p.recipient, p.amount)
         && p.destination != c.assets[key].vault && p.recipient != key && p.amount != 0 && !p.selfClaim
         && DestinationOk(c, c.assets[key], p)
  }

  /** The recipient's own canonical account for the asset's mint. */
  ghost predicate DestinationOk(c: Chain, a: RoundAsset, p: Payout) {
    Holds(c, p.destination, a.tokenProgram) && c.tokens[p.destination].owner == p.recipient
    && c.tokens[p.destination].mint == a.mint && p.destination == Ata(p.recipient, a.mint, a.tokenProgram)
  }

  lemma {:induction false} PlanLeafOk(c: Chain, key: Key, destinations: seq<Key>, plan: Plan, first: nat, n: nat,
                                       leafIdx: u32, leaf: BlockLeaf)
    requires key in c.assets && PlanOk(c, key, first, n, plan) && leafIdx == first + n
    requires PlanLeaf(c, key, destinations, plan, leafIdx, leaf).Ok?
    ensures PlanOk(c, key, first, n + 1, PlanLeaf(c, key, destinations, plan, leafIdx, leaf).value)
  {
    var next := PlanLeaf(c, key, destinations, plan, leafIdx, leaf).value;
    assert forall i :: 0 <= i < n ==> next.hashes[i] == plan.hashes[i];
    assert forall j :: 0 <= j < |plan.pushes| ==> next.pushes[j] == plan.pushes[j];
  }

  lemma {:induction false} PlanBlockOk(c: Chain, key: Key, destinations: seq<Key>, firstLeaf: u32,
                                       leaves: seq<BlockLeaf>)
    requires key in c.assets && firstLeaf + |leaves| < 0x1_0000_0000
    requires PlanBlock(c, key, destinations, firstLeaf, leaves).Ok?
    ensures PlanOk(c, key, firstLeaf, |leaves|, PlanBlock(c, key, destinations, firstLeaf, leaves).value)
    decreases |leaves|
  {
    if leaves != [] {
      hide PlanOk, PlanLeaf;
      var n := |leaves| - 1;
      PlanBlockOk(c, key, destinations, firstLeaf, leaves[..n]);
      PlanLeafOk(c, key, destinations, PlanBlock(c, key, destinations, firstLeaf, leaves[..n]).value, firstLeaf, n,
        firstLeaf + n, leaves[n]);
    }
  }

  /** Paying changes nothing a later payment of the same block depends on. */
  ghost predicate SameAsset(c: Chain, d: Chain, key: Key) {
    key in c.assets && key in d.assets
    && var a, b := c.assets[key], d.assets[key];
       b == a.(bitmap := b.bitmap, claimed := b.claimed)
       && d.openings == c.openings && d.rounds == c.rounds && d.now == c.now && d.fees == c.fees
       && d.authorities == c.authorities
       && d.assets.Keys == c.assets.Keys && d.tokens.Keys == c.tokens.Keys
       && forall k :: k in c.tokens ==> d.tokens[k] == c.tokens[k].(amount := d.tokens[k].amount)
  }

  lemma {:induction false} PaySameAsset(c: Chain, d: Chain, p: Payout, key: Key)
    requires SameAsset(c, d, key) && p.asset == key && Pay(d, key, p).Ok?
    ensures SameAsset(c, Pay(d, key, p).value, key)
  {
    hide Pay;
    PayEffect(d, p);
  }

  /** A planned payout that its block's proof covers. */
  ghost predicate PushOk(c: Chain, key: Key, p: Payout)
    requires key in c.assets
  {
    p.asset == key && p.leafIdx < c.assets[key].leafCount && p.destination != c.assets[key].vault
    && Merkle.Within(LeafDigest(c.assets[key], p.leafIdx, p.recipient, p.amount), c.assets[key].merkleRoot)
  }

  lemma {:induction false} PayAllKeepsInv(c: Chain, key: Key, pushes: seq<Payout>)
    requires Inv(c) && key in c.assets && c.assets[key].status == Active && PayAll(c, key, pushes).Ok?
    requires forall j :: 0 <= j < |pushes| ==> PushOk(c, key, pushes[j])
    ensures Inv(PayAll(c, key, pushes).value) && SameAsset(c, PayAll(c, key, pushes).value, key)
    decreases |pushes|
  {
    hide Inv, Pay;
    if pushes != [] {
      var n := |pushes| - 1;
      PayAllKeepsInv(c, key, pushes[..n]);
      var d, p := PayAll(c, key, pushes[..n]).value, pushes[n];
      InvOf(d, key);
      if !IsClaimed(d.assets[key].bitmap, p.leafIdx) {
        PayKeepsInv(d, p);
        PaySameAsset(c, d, p, key);
      }
    }
  }

  lemma {:induction false} PlanProved(c: Chain, r: BlockRequest, plan: Plan, j: nat)
    requires r.asset in c.assets && j < |plan.pushes|
    requires PlanOk(c, r.asset, r.firstLeaf, |r.leaves|, plan)
    requires Merkle.BlockVerifies(plan.hashes, r.firstLeaf, r.level, c.assets[r.asset].leafCount, r.proof,
                                  c.assets[r.asset].merkleRoot)
    ensures PushOk(c, r.asset, plan.pushes[j])
  {
    var a, p := c.assets[r.asset], plan.pushes[j];
    Merkle.BlockVerifiesWithin(plan.hashes, r.firstLeaf, r.level, a.leafCount, r.proof, a.merkleRoot,
      p.leafIdx - r.firstLeaf);
  }

  lemma {:induction false} PushPayoutsPlan(c: Chain, r: BlockRequest) returns (plan: Plan)
    requires PushPayouts(c, r).Ok?
    ensures r.asset in c.assets && c.assets[r.asset].status == Active && r.firstLeaf + |r.leaves| < 0x1_0000_0000
    ensures PlanOk(c, r.asset, r.firstLeaf, |r.leaves|, plan)
    ensures Merkle.BlockVerifies(plan.hashes, r.firstLeaf, r.level, c.assets[r.asset].leafCount, r.proof,
                                 c.assets[r.asset].merkleRoot)
    ensures PlanBlock(c, r.asset, r.destinations, r.firstLeaf, r.leaves) == Ok(plan)
    ensures PushPayouts(c, r) == PayAll(c, r.asset, plan.pushes)
  {
    hide PlanOk;
    plan := PlanBlock(c, r.asset, r.destinations, r.firstLeaf, r.leaves).value;
    PlanBlockOk(c, r.asset, r.destinations, r.firstLeaf, r.leaves);
  }

  lemma {:induction false} PushPayoutsKeepsInv(c: Chain, r: BlockRequest)
    requires Inv(c) && PushPayouts(c, r).Ok?
    ensures Inv(PushPayouts(c, r).value) && SameAsset(c, PushPayouts(c, r).value, r.asset)
  {
    hide PushPayouts, PayAll, Inv, SameAsset;
    var plan := PushPayoutsPlan(c, r);
    forall j | 0 <= j < |plan.pushes|
      ensures PushOk(c, r.asset, plan.pushes[j])
    {
      PlanProved(c, r, plan, j);
    }
    PayAllKeepsInv(c, r.asset, plan.pushes);
  }

  // ---- the other instructions ----------------------------------------------------------------

  /** An asset whose own record, round commitment and payouts stay, and whose vault keeps what it owes. */
  lemma {:induction false} AssetFrame(c: Chain, d: Chain, key: Key)
    requires AssetInv(c, key) && key in d.assets && d.assets[key] == c.assets[key] && d.paid == c.paid
    requires Placed(d, key) && d.openings[key] == c.openings[key]
    requires c.assets[key].vault in d.tokens
    requires c.assets[key].status == Active ==>
      d.tokens[c.assets[key].vault].amount >= c.assets[key].allocation - c.assets[key].claimed
    ensures AssetInv(d, key)
  {
    hide Placed;
  }

  lemma {:induction false} PlaceFrame(c: Chain, d: Chain, key: Key)
    requires Placed(c, key) && key in d.openings && d.openings[key] == c.openings[key]
    requires Opened(d, key) && SameRound(c.rounds[key.round], d.rounds[key.round])
    ensures Placed(d, key)
  {
  }

  /** Rounds that keep their commitments and their opened marks keep every asset in its place. */
  ghost predicate RoundsContinue(c: Chain, d: Chain) {
    forall k :: k in c.rounds ==>
      k in d.rounds && SameRound(c.rounds[k], d.rounds[k]) && d.rounds[k].openedMask == c.rounds[k].openedMask
  }

  lemma {:induction false} PlacesContinue(c: Chain, d: Chain, key: Key)
    requires Placed(c, key) && d.openings == c.openings && RoundsContinue(c, d)
    ensures Placed(d, key)
  {
    PlaceFrame(c, d, key);
  }

  ghost predicate SameRound(a: RoundHeader, b: RoundHeader) {
    b.assetsRoot == a.assetsRoot && b.distributor == a.distributor && b.roundId == a.roundId
  }

  /** What was opened before stays on record, and everything on record is in its place. */
  ghost predicate RecordContinues(c: Chain, d: Chain) {
    (forall key :: key in c.openings ==> key in d.openings && d.openings[key] == c.openings[key])
    && forall key :: key in d.openings ==> Placed(d, key) && (key in c.openings || SumPaid(d.paid, key) == 0)
  }

  lemma {:induction false} InvCarries(c: Chain, d: Chain)
    requires Inv(c) && RoundsNamed(d) && VaultsPinned(d.tokens) && d.paid == c.paid && RecordContinues(c, d)
    requires forall key :: key in d.assets ==> AssetInv(d, key)
    ensures Inv(d)
  {
    hide AssetInv, RoundsNamed, VaultsPinned, PaidOnce, Placed;
    forall key | key in d.openings
      ensures Recorded(d, key)
    {
      assert key in c.openings ==> Recorded(c, key);
    }
    forall i | 0 <= i < |d.paid|
      ensures Proved(d, d.paid[i])
    {
      assert Proved(c, c.paid[i]);
    }
  }

  /** When nothing is opened and no round changes its commitments. */
  lemma {:induction false} RecordStays(c: Chain, d: Chain)
    requires Inv(c) && d.openings == c.openings && RoundsContinue(c, d)
    ensures RecordContinues(c, d)
  {
    hide AssetInv, Inv, Placed, SumPaid, RoundsContinue;
    forall key | key in d.openings
      ensures Placed(d, key)
    {
      InvRecord(c, key);
      PlacesContinue(c, d, key);
    }
  }

  lemma {:induction false} NewRoundKeepsInv(c: Chain, key: Key, header: RoundHeader)
    requires Inv(c) && Fair(c, NewRound(key, header))
    ensures Inv(After(c, NewRound(key, header)))
  {
    var d := After(c, NewRound(key, header));
    InvParts(c);
    hide Inv, AssetInv, Placed, PaidOnce;
    forall k | k in d.assets
      ensures AssetInv(d, k)
    {
      InvOf(c, k);
      AssetPlaced(c, k);
      PlacesContinue(c, d, k);
      AssetFrame(c, d, k);
    }
    RecordStays(c, d);
    InvCarries(c, d);
  }

  lemma {:induction false} EnvironmentKeepsInv(c: Chain, action: Action)
    requires Inv(c) && action.Environment? && Fair(c, action)
    ensures Inv(After(c, action))
  {
    var d := After(c, action);
    InvParts(c);
    hide Inv, AssetInv, Placed, PaidOnce;
    forall k | k in d.assets
      ensures AssetInv(d, k)
    {
      InvOf(c, k);
      AssetPlaced(c, k);
      PlacesContinue(c, d, k);
      AssetFrame(c, d, k);
    }
    RecordStays(c, d);
    InvCarries(c, d);
  }

  lemma {:induction false} InvParts(c: Chain)
    requires Inv(c)
    ensures RoundsNamed(c) && VaultsPinned(c.tokens) && PaidOnce(c.paid)
  {
    hide AssetInv, Proved, Recorded, RoundsNamed, VaultsPinned, PaidOnce;
  }

  lemma {:induction false} SumNone(paid: seq<Payout>, key: Key)
    requires forall i :: 0 <= i < |paid| ==> paid[i].asset != key
    ensures SumPaid(paid, key) == 0
    decreases |paid|
  {
    if paid != [] {
      SumNone(paid[..|paid| - 1], key);
    }
  }

  lemma {:induction false} OpenStays(c: Chain, round: Key, vault: Key, p: OpenParams, key: Key)
    requires Open(c, round, vault, p).Ok? && Opened(c, key)
    ensures Opened(Open(c, round, vault, p).value, key)
    ensures key != AssetKey(round, p.assetIdx)
  {
    MarksOne(c.rounds[round].openedMask, p.assetIdx, key.assetIdx);
  }

  /** An asset opens once: nothing was ever paid from it before. */
  lemma {:induction false} OpenUnpaid(c: Chain, round: Key, vault: Key, p: OpenParams)
    requires Inv(c) && Open(c, round, vault, p).Ok?
    ensures AssetKey(round, p.assetIdx) !in c.assets && AssetKey(round, p.assetIdx) !in c.openings
    ensures forall i :: 0 <= i < |c.paid| ==> c.paid[i].asset != AssetKey(round, p.assetIdx)
  {
    var key := AssetKey(round, p.assetIdx);
    if key in c.openings {
      InvRecord(c, key);
      OpenStays(c, round, vault, p, key);
      assert false;
    }
    forall i | 0 <= i < |c.paid|
      ensures c.paid[i].asset != key
    {
      assert Proved(c, c.paid[i]);
    }
    if key in c.assets {
      InvOf(c, key);
      assert false;
    }
  }

  lemma {:induction false} OpenFresh(c: Chain, round: Key, vault: Key, p: OpenParams)
    requires Inv(c) && Open(c, round, vault, p).Ok?
    ensures AssetInv(Open(c, round, vault, p).value, AssetKey(round, p.assetIdx))
  {
    var d, key := Open(c, round, vault, p).value, AssetKey(round, p.assetIdx);
    var a := NewAsset(c.rounds[round], round, p);
    assert d.assets[key] == a;
    MarksOne(c.rounds[round].openedMask, p.assetIdx, p.assetIdx);
    Merkle.FoldKeeps(TupleDigest(a), TupleDigest(a), p.assetProof);
    OpenUnpaid(c, round, vault, p);
    SumNone(c.paid, key);
    forall i: nat | i < a.leafCount
      ensures !IsClaimed(a.bitmap, i)
    {
      NoneClaimed(a.leafCount, i);
    }
  }

  lemma {:induction false} OpenEffect(c: Chain, round: Key, vault: Key, p: OpenParams)
    requires Open(c, round, vault, p).Ok?
    ensures var d, key := Open(c, round, vault, p).value, AssetKey(round, p.assetIdx);
      d.paid == c.paid && d.assets.Keys == c.assets.Keys + {key} && key in d.assets
      && d.openings == c.openings[key := d.assets[key]]
      && d.rounds.Keys == c.rounds.Keys && c.tokens.Keys <= d.tokens.Keys
      && (forall k :: k in c.assets && k != key ==> d.assets[k] == c.assets[k])
      && (forall k :: k in c.rounds ==> SameRound(c.rounds[k], d.rounds[k]))
      && (forall k :: k in c.tokens ==> d.tokens[k] == c.tokens[k])
  {
    hide OpenRefusal;
    if OpenRefusal(c, round, vault, p).None? {
      OpenAllowed(c, round, vault, p);
    }
  }

  lemma {:induction false} OpenKeepsAsset(c: Chain, round: Key, vault: Key, p: OpenParams, key: Key)
    requires Inv(c) && Open(c, round, vault, p).Ok? && key in Open(c, round, vault, p).value.assets
    ensures AssetInv(Open(c, round, vault, p).value, key)
  {
    if key == AssetKey(round, p.assetIdx) {
      OpenFresh(c, round, vault, p);
    } else {
      hide AssetInv, Inv, Opened, Open, Placed;
      OpenEffect(c, round, vault, p);
      InvOf(c, key);
      InvRecord(c, key);
      OpenKeepsPlace(c, round, vault, p, key);
      AssetFrame(c, Open(c, round, vault, p).value, key);
    }
  }

  lemma {:induction false} OpenKeepsPlace(c: Chain, round: Key, vault: Key, p: OpenParams, key: Key)
    requires Open(c, round, vault, p).Ok? && Placed(c, key)
    ensures Placed(Open(c, round, vault, p).value, key)
  {
    hide Opened, Open;
    OpenEffect(c, round, vault, p);
    OpenStays(c, round, vault, p, key);
    PlaceFrame(c, Open(c, round, vault, p).value, key);
  }

  lemma {:induction false} OpenRecords(c: Chain, round: Key, vault: Key, p: OpenParams)
    requires Inv(c) && Open(c, round, vault, p).Ok?
    ensures RecordContinues(c, Open(c, round, vault, p).value)
  {
    hide Inv, Opened, Open, Placed, AssetInv;
    var d, added := Open(c, round, vault, p).value, AssetKey(round, p.assetIdx);
    OpenEffect(c, round, vault, p);
    OpenUnpaid(c, round, vault, p);
    SumNone(c.paid, added);
    forall key | key in d.openings
      ensures Placed(d, key)
    {
      if key == added {
        OpenFresh(c, round, vault, p);
        AssetPlaced(d, key);
      } else {
        InvRecord(c, key);
        OpenKeepsPlace(c, round, vault, p, key);
      }
    }
  }

  lemma {:induction false} AssetPlaced(c: Chain, key: Key)
    requires AssetInv(c, key)
    ensures Placed(c, key)
  {
    hide Placed;
  }

  lemma {:induction false} OpenKeepsInv(c: Chain, round: Key, vault: Key, p: OpenParams)
    requires Inv(c) && Open(c, round, vault, p).Ok?
    ensures Inv(Open(c, round, vault, p).value)
  {
    hide AssetInv, Opened, Proved, PaidOnce, RecordContinues;
    var d := Open(c, round, vault, p).value;
    forall k | k in d.assets
      ensures AssetInv(d, k)
    {
      OpenKeepsAsset(c, round, vault, p, k);
    }
    OpenRecords(c, round, vault, p);
    InvCarries(c, d);
  }

  lemma {:induction false} ActivateKeepsAsset(c: Chain, round: Key, key: Key, vault: Key, k: Key)
    requires Inv(c) && Activate(c, round, key, vault).Ok? && k in c.assets
    ensures AssetInv(Activate(c, round, key, vault).value, k)
  {
    hide Inv;
    InvOf(c, k);
    var d := Activate(c, round, key, vault).value;
    if k == key {
      assert TupleDigest(d.assets[key]) == TupleDigest(c.assets[key]);
      assert BitmapMatches(d, key);
    } else {
      PlacesContinue(c, d, k);
      AssetFrame(c, d, k);
    }
  }

  lemma {:induction false} ActivateKeepsInv(c: Chain, round: Key, key: Key, vault: Key)
    requires Inv(c) && Activate(c, round, key, vault).Ok?
    ensures Inv(Activate(c, round, key, vault).value)
  {
    hide AssetInv, Proved, PaidOnce;
    var d := Activate(c, round, key, vault).value;
    forall k | k in d.assets
      ensures AssetInv(d, k)
    {
      ActivateKeepsAsset(c, round, key, vault, k);
    }
    RecordStays(c, d);
    InvCarries(c, d);
  }

  /** Moving tokens out of one vault leaves every other vault with at least what it had. */
  lemma {:induction false} TransferEffect(c: Chain, source: Key, destination: Key, amount: u64)
    requires Transfer(c, source, destination, amount).Ok? && VaultsPinned(c.tokens)
    ensures var d := Transfer(c, source, destination, amount).value;
      d == c.(tokens := d.tokens) && d.tokens.Keys == c.tokens.Keys && VaultsPinned(d.tokens)
      && source in c.tokens && d.tokens[source].amount == c.tokens[source].amount - amount
      && forall k :: k in c.tokens && k != source ==> c.tokens[k].amount <= d.tokens[k].amount
  {
  }

  lemma {:induction false} SweepEffect(c: Chain, distributor: Key, swept: Key, mint: Key, vault: Key, rollover: Key,
                                       tokenProgram: Key)
    requires Sweep(c, distributor, swept, mint, vault, rollover, tokenProgram).Ok? && VaultsPinned(c.tokens)
    ensures var d := Sweep(c, distributor, swept, mint, vault, rollover, tokenProgram).value;
      swept in c.assets && vault == c.assets[swept].vault && vault in c.tokens
      && d == c.(tokens := d.tokens) && d.tokens.Keys == c.tokens.Keys && VaultsPinned(d.tokens)
      && d.tokens[vault].amount == c.assets[swept].allocation - c.assets[swept].claimed
      && forall k :: k in c.tokens && k != vault ==> c.tokens[k].amount <= d.tokens[k].amount
  {
    hide Transfer, VaultsPinned;
    TransferEffect(c, vault, rollover, c.tokens[vault].amount - (c.assets[swept].allocation - c.assets[swept].claimed));
  }

  lemma {:induction false} SweepKeepsInv(c: Chain, distributor: Key, key: Key, mint: Key, vault: Key, rollover: Key,
                                         tokenProgram: Key)
    requires Inv(c) && Sweep(c, distributor, key, mint, vault, rollover, tokenProgram).Ok?
    ensures Inv(Sweep(c, distributor, key, mint, vault, rollover, tokenProgram).value)
  {
    InvParts(c);
    hide Inv, VaultsPinned, PaidOnce, Drains, Sweep;
    SweepDrains(c, distributor, key, mint, vault, rollover, tokenProgram);
    DrainKeepsInv(c, Sweep(c, distributor, key, mint, vault, rollover, tokenProgram).value, key);
  }

  lemma {:induction false} SweepDrains(c: Chain, distributor: Key, key: Key, mint: Key, vault: Key, rollover: Key,
                                       tokenProgram: Key)
    requires VaultsPinned(c.tokens) && Sweep(c, distributor, key, mint, vault, rollover, tokenProgram).Ok?
    requires RoundsNamed(c)
    ensures key in c.assets && Drains(c, Sweep(c, distributor, key, mint, vault, rollover, tokenProgram).value, key)
  {
    hide VaultsPinned, Sweep;
    SweepEffect(c, distributor, key, mint, vault, rollover, tokenProgram);
  }

  /** Taking from one asset's vault what it does not owe, or closing it. */
  ghost predicate Drains(c: Chain, d: Chain, key: Key)
    requires key in c.assets
  {
    d.paid == c.paid && d.openings == c.openings && RoundsNamed(d) && RoundsContinue(c, d) && VaultsPinned(d.tokens)
    && (forall k :: k in d.assets ==> k in c.assets && d.assets[k] == c.assets[k])
    && (forall t :: t in c.tokens && t != c.assets[key].vault ==>
          t in d.tokens && c.tokens[t].amount <= d.tokens[t].amount)
    && (key in d.assets ==>
          c.assets[key].vault in d.tokens
          && d.tokens[c.assets[key].vault].amount >= c.assets[key].allocation - c.assets[key].claimed)
  }

  lemma {:induction false} DrainKeepsInv(c: Chain, d: Chain, key: Key)
    requires Inv(c) && key in c.assets && Drains(c, d, key)
    ensures Inv(d)
  {
    hide Inv, AssetInv, RoundsNamed, RoundsContinue, VaultsPinned;
    forall k | k in d.assets
      ensures AssetInv(d, k)
    {
      VaultDrained(c, d, key, k);
    }
    RecordStays(c, d);
    InvCarries(c, d);
  }

  lemma {:induction false} VaultDrained(c: Chain, d: Chain, key: Key, k: Key)
    requires Inv(c) && key in c.assets && Drains(c, d, key) && k in d.assets
    ensures AssetInv(d, k)
  {
    hide Inv, AssetInv, Placed, RoundsContinue, RoundsNamed, VaultsPinned;
    InvOf(c, key);
    InvOf(c, k);
    AssetPlaced(c, k);
    PlacesContinue(c, d, k);
    AssetFrame(c, d, k);
  }

  lemma {:induction false} CloseEffect(c: Chain, distributor: Key, round: Key, key: Key, mint: Key, vault: Key,
                                       rollover: Key, wallet: Key, tokenProgram: Key)
    requires VaultsPinned(c.tokens)
    requires Close(c, distributor, round, key, mint, vault, rollover, wallet, tokenProgram).Ok?
    ensures var d := Close(c, distributor, round, key, mint, vault, rollover, wallet, tokenProgram).value;
      key in c.assets && vault == c.assets[key].vault && round == c.assets[key].round && round in c.rounds
      && c.now >= c.rounds[round].expiryTs
      && d.now == c.now && d.authorities == c.authorities && d.paid == c.paid && d.openings == c.openings
      && d.assets == c.assets - {key} && d.rounds.Keys == c.rounds.Keys
      && (forall k :: k in c.rounds ==> d.rounds[k] == c.rounds[k].(closedMask := d.rounds[k].closedMask))
      && VaultsPinned(d.tokens)
      && forall k :: k in c.tokens && k != vault ==> k in d.tokens && c.tokens[k].amount <= d.tokens[k].amount
  {
    hide Transfer, VaultsPinned, HasBit, Mark;
    PinnedWithout(c.tokens, vault);
    if c.tokens[vault].amount > 0 {
      TransferEffect(c, vault, rollover, c.tokens[vault].amount);
      PinnedWithout(Transfer(c, vault, rollover, c.tokens[vault].amount).value.tokens, vault);
    }
  }

  lemma {:induction false} PinnedWithout(tokens: map<Key, TokenAccount>, vault: Key)
    requires VaultsPinned(tokens)
    ensures VaultsPinned(tokens - {vault})
  {
  }

  lemma {:induction false} CloseKeepsInv(c: Chain, distributor: Key, round: Key, key: Key, mint: Key, vault: Key,
                                         rollover: Key, wallet: Key, tokenProgram: Key)
    requires Inv(c) && Close(c, distributor, round, key, mint, vault, rollover, wallet, tokenProgram).Ok?
    ensures Inv(Close(c, distributor, round, key, mint, vault, rollover, wallet, tokenProgram).value)
  {
    InvParts(c);
    hide Inv, VaultsPinned, PaidOnce, Drains, Close;
    CloseDrains(c, distributor, round, key, mint, vault, rollover, wallet, tokenProgram);
    DrainKeepsInv(c, Close(c, distributor, round, key, mint, vault, rollover, wallet, tokenProgram).value, key);
  }

  lemma {:induction false} CloseDrains(c: Chain, distributor: Key, round: Key, key: Key, mint: Key, vault: Key,
                                       rollover: Key, wallet: Key, tokenProgram: Key)
    requires VaultsPinned(c.tokens) && RoundsNamed(c)
    requires Close(c, distributor, round, key, mint, vault, rollover, wallet, tokenProgram).Ok?
    ensures key in c.assets
    ensures Drains(c, Close(c, distributor, round, key, mint, vault, rollover, wallet, tokenProgram).value, key)
  {
    hide VaultsPinned, Close;
    CloseEffect(c, distributor, round, key, mint, vault, rollover, wallet, tokenProgram);
  }

  lemma {:induction false} StepKeepsInv(c: Chain, action: Action)
    requires Inv(c) && Fair(c, action)
    ensures Inv(After(c, action))
  {
    hide Inv, Open, Activate, Process, PushPayouts, Sweep, Close, Pay;
    if Step(c, action).Ok? {
      match action
      case NewRound(key, header) => NewRoundKeepsInv(c, key, header);
      case OpenAsset(round, vault, params) => OpenKeepsInv(c, round, vault, params);
      case ActivateAsset(round, key, vault) => ActivateKeepsInv(c, round, key, vault);
      case PayOne(request) =>
        ProcessIsPayable(c, request);
        PayKeepsInv(c, RequestPayout(request));
      case PayBlock(block) => PushPayoutsKeepsInv(c, block);
      case SweepExcess(d, key, mint, vault, rollover, tp) => SweepKeepsInv(c, d, key, mint, vault, rollover, tp);
      case CloseAsset(d, round, key, mint, vault, rollover, wallet, tp) =>
        CloseKeepsInv(c, d, round, key, mint, vault, rollover, wallet, tp);
      case Environment(_, _, _) => EnvironmentKeepsInv(c, action);
    }
  }

  lemma {:induction false} RunKeepsInv(c: Chain, actions: seq<Action>)
    requires Inv(c) && FairRun(c, actions)
    ensures Inv(Run(c, actions))
    decreases |actions|
  {
    hide Inv, After, Fair;
    if actions != [] {
      StepKeepsInv(c, actions[0]);
      RunKeepsInv(After(c, actions[0]), actions[1..]);
    }
  }

  lemma {:induction false} StartHolds(c: Chain)
    requires Start(c)
    ensures Inv(c)
  {
  }

  /** From an empty program, every state any run reaches satisfies the invariant. */
  lemma {:induction false} ReachableInv(c: Chain, actions: seq<Action>)
    requires Start(c) && FairRun(c, actions)
    ensures Inv(Run(c, actions))
  {
    StartHolds(c);
    RunKeepsInv(c, actions);
  }
}
