/** The instruction handlers themselves: accounts change in place, a failing instruction leaves them as
    they were. Each handler is proved to do what module Distributor says. */
module Handlers {
  import opened Terms
  import opened Bits
  import opened Fees
  import opened Distributor
  import Merkle
  import MerkleTrees
  import PayoutSafety
  import PayoutTheorems

  class Program {
    var now: i64
    var authorities: map<Key, Key>
    var rounds: map<Key, RoundHeader>
    var assets: map<Key, RoundAsset>
    var tokens: map<Key, TokenAccount>
    var fees: map<Key, FeeConfig>
    /** The record of what was done; no instruction reads it. */
    var openings: map<Key, RoundAsset>
    var paid: seq<Payout>

    constructor (clock: i64, authorities: map<Key, Key>, tokens: map<Key, TokenAccount>, fees: map<Key, FeeConfig>)
      ensures View() == Chain(clock, authorities, map[], map[], tokens, fees, map[], [])
      ensures PayoutSafety.VaultsPinned(tokens) ==> Valid()
    {
      now := clock;
      this.authorities := authorities;
      rounds, assets, openings, paid := map[], map[], map[], [];
      this.tokens := tokens;
      this.fees := fees;
      new;
      if PayoutSafety.VaultsPinned(tokens) {
        PayoutSafety.StartHolds(View());
      }
    }

    /** What every run keeps, of the accounts as they stand. */
    ghost predicate Valid()
      reads this
    {
      PayoutSafety.Inv(View())
    }

    function View(): Chain
      reads this
    {
      Chain(now, authorities, rounds, assets, tokens, fees, openings, paid)
    }

    /** What the caller of an instruction sees: its effect, or an error and nothing else. */
    ghost predicate Outcome(expected: Result<Chain>, before: Chain, error: Option<Error>)
      reads this
    {
      match expected
      case Ok(c) => error == None && View() == c
      case Err(e) => error == Some(e) && View() == before
    }

    /** The header a commit creates. */
    method StartRound(key: Key, header: RoundHeader)
      requires Valid() && PayoutSafety.Fair(View(), PayoutSafety.Action.NewRound(key, header))
      modifies this`rounds
      ensures Valid() && View() == old(View()).(rounds := old(rounds)[key := header])
    {
      PayoutSafety.StepKeepsInv(View(), PayoutSafety.Action.NewRound(key, header));
      rounds := rounds[key := header];
    }

    /** What time and everyone else's use of the token program do between instructions. */
    method Elapse(now: i64, tokens: map<Key, TokenAccount>, fees: map<Key, FeeConfig>)
      requires Valid() && PayoutSafety.Fair(View(), PayoutSafety.Action.Environment(now, tokens, fees))
      modifies this`now, this`tokens, this`fees
      ensures Valid() && View() == old(View()).(now := now, tokens := tokens, fees := fees)
    {
      PayoutSafety.StepKeepsInv(View(), PayoutSafety.Action.Environment(now, tokens, fees));
      this.now, this.tokens, this.fees := now, tokens, fees;
    }

    method TransferFromVault(vault: Key, destination: Key, amount: u64) returns (error: Option<Error>)
      modifies this`tokens
      ensures match Transfer(old(View()), vault, destination, amount)
              case Ok(c) => error == None && View() == c
              case Err(e) => error == Some(e) && View() == old(View())
    {
      if vault !in tokens || destination !in tokens || vault == destination {
        return Some(TransferFailed);
      }
      var from, to := tokens[vault], tokens[destination];
      var arrives := amount - FeeOf(View(), from.mint, amount);
      if from.mint != to.mint || !to.accepting || from.amount < amount || to.amount + arrives > U64_MAX {
        return Some(TransferFailed);
      }
      tokens := tokens[vault := from.(amount := from.amount - amount)];
      tokens := tokens[destination := to.(amount := to.amount + arrives)];
      error := None;
    }

    method OpenAsset(round: Key, vault: Key, p: OpenParams) returns (error: Option<Error>)
      requires Valid()
      modifies this`rounds, this`assets, this`tokens, this`openings
      ensures Valid()
      ensures Outcome(Open(old(View()), round, vault, p), old(View()), error)
      // Once and never again, and only as one of the tuples the round committed to, with nothing claimed.
      ensures error.None? ==>
        var key := AssetKey(round, p.assetIdx);
        && key !in old(openings) && key in assets && openings == old(openings)[key := assets[key]]
        && round in rounds && Merkle.Within(TupleDigest(assets[key]), rounds[round].assetsRoot)
        && assets[key].claimed == 0 == PayoutSafety.SumPaid(paid, key)
    {
      hide PayoutSafety.Inv;
      PayoutSafety.StepKeepsInv(View(), PayoutSafety.Action.OpenAsset(round, vault, p));
      if Open(View(), round, vault, p).Ok? {
        OpensOnce(View(), round, vault, p);
      }
      if round !in rounds {
        return Some(AccountMissing);
      }
      var header, key := rounds[round], AssetKey(round, p.assetIdx);
      if now >= header.expiryTs {
        return Some(RoundExpired);
      }
      if p.assetIdx >= header.assetCount || p.assetIdx >= 32 {
        return Some(AssetIndexOutOfRange);
      }
      if HasBit(header.openedMask, p.assetIdx) {
        return Some(AssetAlreadyOpened);
      }
      if p.leafCount < 1 || p.leafCount > MAX_LEAVES_PER_ASSET {
        return Some(InvalidLeafCount);
      }
      if p.allocation == 0 {
        return Some(InvalidAllocation);
      }
      if |p.assetProof| > Merkle.MAX_PROOF_LEN {
        return Some(ProofTooLong);
      }
      var leaf := AssetLeaf(header.distributor, header.roundId, p.assetIdx, p.mint, p.tokenProgram, p.merkleRoot,
                            p.allocation, p.leafCount);
      if !Merkle.Verify(p.assetProof, header.assetsRoot, leaf) {
        return Some(InvalidAssetProof);
      }
      if !p.mintVetted {
        return Some(MintRefused);
      }
      var expectedVault := Ata(key, p.mint, p.tokenProgram);
      if vault != expectedVault {
        return Some(VaultMismatch);
      }
      rounds := rounds[round := header.(openedMask := Mark(header.openedMask, AssetBit(p.assetIdx)))];
      if vault !in tokens {
        tokens := tokens[vault := TokenAccount(p.mint, key, p.tokenProgram, 0, true)];
      }
      var asset := RoundAsset(header.distributor, round, header.roundId, p.assetIdx, Pending, p.mint, p.tokenProgram,
        expectedVault, p.merkleRoot, p.allocation, 0, 0, p.leafCount, EmptyBitmap(p.leafCount));
      assets, openings := assets[key := asset], openings[key := asset];
      error := None;
    }

    method ActivateAsset(round: Key, key: Key, vault: Key) returns (error: Option<Error>)
      requires Valid()
      modifies this`assets
      ensures Valid()
      ensures Outcome(Activate(old(View()), round, key, vault), old(View()), error)
      // Only a vault that covers the whole allocation, and nothing but the funding and the status change.
      ensures error.None? ==>
        && key in assets && vault in tokens && assets == old(assets)[key := assets[key]]
        && assets[key].status == Active && assets[key].allocation <= assets[key].funded == tokens[vault].amount
        && key in openings && PayoutSafety.Continues(openings[key], assets[key])
    {
      hide PayoutSafety.Inv;
      PayoutSafety.StepKeepsInv(View(), PayoutSafety.Action.ActivateAsset(round, key, vault));
      if key in assets {
        PayoutSafety.InvOf(View(), key);
      }
      if round !in rounds || key !in assets {
        return Some(AccountMissing);
      }
      var asset := assets[key];
      if round != asset.round {
        return Some(RoundMismatch);
      }
      if now >= rounds[round].expiryTs {
        return Some(RoundExpired);
      }
      if asset.status != Pending {
        return Some(InvalidStatus);
      }
      if vault != asset.vault {
        return Some(VaultMismatch);
      }
      if vault !in tokens || tokens[vault].tokenProgram != asset.tokenProgram {
        return Some(InvalidTokenProgram);
      }
      if tokens[vault].mint != asset.mint {
        return Some(MintMismatch);
      }
      if tokens[vault].amount < asset.allocation {
        return Some(Underfunded);
      }
      assets := assets[key := asset.(funded := tokens[vault].amount, status := Active)];
      error := None;
    }

    method SweepExcess(distributor: Key, key: Key, mint: Key, vault: Key, rollover: Key, tokenProgram: Key)
      returns (error: Option<Error>)
      requires Valid()
      modifies this`tokens
      ensures Valid()
      ensures Outcome(Sweep(old(View()), distributor, key, mint, vault, rollover, tokenProgram), old(View()), error)
      // The excess, all of it and no more, goes to the authority's own account.
      ensures error.None? ==> PayoutTheorems.Swept(old(View()), View(), key, rollover)
    {
      hide PayoutSafety.Inv;
      hide PayoutTheorems.Swept;
      PayoutSafety.StepKeepsInv(View(),
        PayoutSafety.Action.SweepExcess(distributor, key, mint, vault, rollover, tokenProgram));
      if Sweep(View(), distributor, key, mint, vault, rollover, tokenProgram).Ok? {
        PayoutTheorems.SweepReturnsExcess(View(), distributor, key, mint, vault, rollover, tokenProgram);
      }
      if distributor !in authorities || key !in assets {
        return Some(AccountMissing);
      }
      var asset, authority := assets[key], authorities[distributor];
      if distributor != asset.distributor {
        return Some(DistributorMismatch);
      }
      if asset.status != Active {
        return Some(InvalidStatus);
      }
      if tokenProgram != asset.tokenProgram {
        return Some(InvalidTokenProgram);
      }
      if mint != asset.mint {
        return Some(MintMismatch);
      }
      if vault != asset.vault {
        return Some(VaultMismatch);
      }
      if rollover != Ata(authority, asset.mint, asset.tokenProgram) {
        return Some(RolloverMismatch);
      }
      if rollover !in tokens || tokens[rollover].tokenProgram != asset.tokenProgram {
        return Some(InvalidTokenProgram);
      }
      if tokens[rollover].owner != authority {
        return Some(RolloverMismatch);
      }
      if vault !in tokens || tokens[vault].tokenProgram != asset.tokenProgram {
        return Some(InvalidTokenProgram);
      }
      if asset.allocation < asset.claimed {
        return Some(Overflow);
      }
      var reserved := asset.allocation - asset.claimed;
      if tokens[vault].amount <= reserved {
        return Some(NothingToSweep);
      }
      error := TransferFromVault(vault, rollover, tokens[vault].amount - reserved);
    }

    method CloseAsset(distributor: Key, round: Key, key: Key, mint: Key, vault: Key, rollover: Key, wallet: Key,
                      tokenProgram: Key) returns (error: Option<Error>)
      requires Valid()
      modifies this`tokens, this`rounds, this`assets
      ensures Valid()
      ensures Outcome(Close(old(View()), distributor, round, key, mint, vault, rollover, wallet, tokenProgram),
                      old(View()), error)
      // Whatever is left goes to the authority's own account, and the mask gains this asset's bit.
      ensures error.None? ==> PayoutTheorems.Closed(old(View()), View(), key, rollover)
    {
      hide PayoutSafety.Inv;
      PayoutSafety.StepKeepsInv(View(),
        PayoutSafety.Action.CloseAsset(distributor, round, key, mint, vault, rollover, wallet, tokenProgram));
      hide PayoutTheorems.Closed;
      if Close(View(), distributor, round, key, mint, vault, rollover, wallet, tokenProgram).Ok? {
        PayoutTheorems.CloseReturnsRest(View(), distributor, round, key, mint, vault, rollover, wallet, tokenProgram);
      }
      if distributor !in authorities || round !in rounds || key !in assets {
        return Some(AccountMissing);
      }
      var asset, authority := assets[key], authorities[distributor];
      if round != asset.round {
        return Some(RoundMismatch);
      }
      if distributor != asset.distributor {
        return Some(DistributorMismatch);
      }
      if now < rounds[round].expiryTs {
        return Some(RoundNotExpired);
      }
      if tokenProgram != asset.tokenProgram {
        return Some(InvalidTokenProgram);
      }
      if mint != asset.mint {
        return Some(MintMismatch);
      }
      if vault != asset.vault {
        return Some(VaultMismatch);
      }
      if wallet != authority || rollover != Ata(authority, asset.mint, asset.tokenProgram) {
        return Some(RolloverMismatch);
      }
      if vault !in tokens || tokens[vault].tokenProgram != asset.tokenProgram {
        return Some(InvalidTokenProgram);
      }
      var remaining := tokens[vault].amount;
      if remaining > 0 {
        if rollover !in tokens || tokens[rollover].tokenProgram != asset.tokenProgram {
          return Some(InvalidTokenProgram);
        }
        if tokens[rollover].owner != authority {
          return Some(RolloverMismatch);
        }
      }
      if asset.assetIdx >= 32 {
        return Some(AssetIndexOutOfRange);
      }
      if remaining > 0 {
        error := TransferFromVault(vault, rollover, remaining);
        if error.Some? {
          return;
        }
      }
      tokens := tokens - {vault};
      rounds := rounds[round := rounds[round].(closedMask := Mark(rounds[round].closedMask, AssetBit(asset.assetIdx)))];
      assets := assets - {key};
      error := None;
    }

    /** Marks and counts a leaf, then transfers; a failed transfer undoes the marking. */
    method PayLeaf(key: Key, p: Payout) returns (error: Option<Error>)
      requires key in assets
      modifies this`assets, this`tokens, this`paid
      ensures Outcome(Pay(old(View()), key, p), old(View()), error)
    {
      var a := assets[key];
      if p.leafIdx / 8 >= |a.bitmap| {
        return Some(LeafIndexOutOfRange);
      }
      if a.claimed + p.amount > U64_MAX {
        return Some(Overflow);
      }
      if a.claimed + p.amount > a.allocation {
        return Some(ExceedsAllocation);
      }
      assets := assets[key := a.(bitmap := SetClaimed(a.bitmap, p.leafIdx), claimed := a.claimed + p.amount)];
      error := TransferFromVault(a.vault, p.destination, p.amount);
      if error.Some? {
        assets := assets[key := a];
        assert assets == old(assets);
        return;
      }
      paid := paid + [p];
    }

    method ProcessPayout(r: PayoutRequest) returns (error: Option<Error>)
      requires Valid()
      modifies this`assets, this`tokens, this`paid
      ensures Valid()
      ensures Outcome(Process(old(View()), r), old(View()), error)
    {
      hide PayoutSafety.Inv;
      PayoutSafety.StepKeepsInv(View(), PayoutSafety.Action.PayOne(r));
      if r.round !in rounds || r.asset !in assets {
        return Some(AccountMissing);
      }
      var asset := assets[r.asset];
      if r.selfClaim && r.signer != r.recipient {
        return Some(MissingSignature);
      }
      if r.round != asset.round {
        return Some(RoundMismatch);
      }
      if asset.status != Active {
        return Some(InvalidStatus);
      }
      if now >= rounds[r.round].expiryTs {
        return Some(RoundExpired);
      }
      if r.tokenProgram != asset.tokenProgram {
        return Some(InvalidTokenProgram);
      }
      if r.mint != asset.mint {
        return Some(MintMismatch);
      }
      if r.vault != asset.vault {
        return Some(VaultMismatch);
      }
      if r.leafIdx >= asset.leafCount || r.leafIdx / 8 >= |asset.bitmap| {
        return Some(LeafIndexOutOfRange);
      }
      if IsClaimed(asset.bitmap, r.leafIdx) {
        return Some(AlreadyClaimed);
      }
      if r.amount == 0 {
        return Some(ZeroAmount);
      }
      if |r.proof| > Merkle.MAX_PROOF_LEN {
        return Some(ProofTooLong);
      }
      if !Merkle.Verify(r.proof, asset.merkleRoot, LeafDigest(asset, r.leafIdx, r.recipient, r.amount)) {
        return Some(InvalidProof);
      }
      if asset.claimed + r.amount > U64_MAX {
        return Some(Overflow);
      }
      if asset.claimed + r.amount > asset.allocation {
        return Some(ExceedsAllocation);
      }
      if !r.selfClaim && r.destination != Ata(r.recipient, asset.mint, asset.tokenProgram) {
        return Some(DestinationNotCanonicalAta);
      }
      if r.destination !in tokens || tokens[r.destination].tokenProgram != asset.tokenProgram {
        return Some(InvalidTokenProgram);
      }
      if tokens[r.destination].mint != asset.mint {
        return Some(MintMismatch);
      }
      if tokens[r.destination].owner != r.recipient {
        return Some(ClaimDestinationMismatch);
      }
      if r.destination == asset.vault || r.recipient == r.asset {
        return Some(DestinationIsVault);
      }
      error := PayLeaf(r.asset, RequestPayout(r));
    }

    /** The first loop of `push_payouts`. */
    method GatherBlock(key: Key, destinations: seq<Key>, firstLeaf: u32, leaves: seq<BlockLeaf>)
      returns (error: Option<Error>, plan: Plan)
      requires key in assets && firstLeaf + |leaves| < 0x1_0000_0000
      ensures match PlanBlock(View(), key, destinations, firstLeaf, leaves)
              case Ok(expected) => error == None && plan == expected
              case Err(e) => error == Some(e)
    {
      plan := Plan([], []);
      var offset := 0;
      while offset < |leaves|
        invariant 0 <= offset <= |leaves|
        invariant PlanBlock(View(), key, destinations, firstLeaf, leaves[..offset]) == Ok(plan)
      {
        assert leaves[..offset + 1][..offset] == leaves[..offset];
        match PlanLeaf(View(), key, destinations, plan, firstLeaf + offset, leaves[offset])
        case Err(e) =>
          PlanFails(View(), key, destinations, firstLeaf, leaves, offset + 1);
          return Some(e), plan;
        case Ok(next) =>
          plan := next;
          offset := offset + 1;
      }
      assert leaves[..offset] == leaves;
      error := None;
    }

    /** `push_payouts`: gathers the block, verifies it, then pays what is still unpaid; any failure undoes it all. */
    method PushBlock(r: BlockRequest) returns (error: Option<Error>)
      requires Valid()
      modifies this`assets, this`tokens, this`paid
      ensures Valid()
      ensures Outcome(PushPayouts(old(View()), r), old(View()), error)
    {
      hide PayoutSafety.Inv;
      PayoutSafety.StepKeepsInv(View(), PayoutSafety.Action.PayBlock(r));
      if r.round !in rounds || r.asset !in assets {
        return Some(AccountMissing);
      }
      var a, plan := assets[r.asset], Plan([], []);
      if r.round != a.round {
        return Some(RoundMismatch);
      }
      if a.status != Active {
        return Some(InvalidStatus);
      }
      if now >= rounds[r.round].expiryTs {
        return Some(RoundExpired);
      }
      if r.tokenProgram != a.tokenProgram {
        return Some(InvalidTokenProgram);
      }
      if r.mint != a.mint {
        return Some(MintMismatch);
      }
      if r.vault != a.vault {
        return Some(VaultMismatch);
      }
      if r.level > MAX_BLOCK_LEVEL {
        return Some(InvalidBlock);
      }
      if |r.proof| > Merkle.MAX_PROOF_LEN {
        return Some(ProofTooLong);
      }
      if !Merkle.IsBlock(|r.leaves|, r.firstLeaf, r.level, a.leafCount) {
        return Some(InvalidBlock);
      }
      error, plan := GatherBlock(r.asset, r.destinations, r.firstLeaf, r.leaves);
      if error.Some? {
        return;
      }
      if |plan.pushes| != |r.destinations| {
        return Some(InvalidBlock);
      }
      var proven := MerkleTrees.VerifyBlock(plan.hashes, r.firstLeaf, r.level, a.leafCount, r.proof, a.merkleRoot);
      if !proven {
        return Some(InvalidProof);
      }
      error := PayPlan(r.asset, plan.pushes);
    }

    /** The second loop of `push_payouts`. */
    method PayPlan(key: Key, pushes: seq<Payout>) returns (error: Option<Error>)
      requires key in assets
      modifies this`assets, this`tokens, this`paid
      ensures Outcome(PayAll(old(View()), key, pushes), old(View()), error)
    {
      var assetsBefore, tokensBefore, paidBefore := assets, tokens, paid;
      ghost var c := View();
      var i := 0;
      while i < |pushes|
        invariant 0 <= i <= |pushes| && key in assets && c == old(View())
        invariant PayAll(c, key, pushes[..i]) == Ok(View())
      {
        assert pushes[..i + 1][..i] == pushes[..i];
        ghost var d := View();
        var bitmap := assets[key].bitmap;
        if !(pushes[i].leafIdx / 8 < |bitmap| && IsClaimed(bitmap, pushes[i].leafIdx)) {
          error := PayLeaf(key, pushes[i]);
          assert PayAll(c, key, pushes[..i + 1]) == Pay(d, key, pushes[i]);
          if error.Some? {
            PayFails(c, key, pushes, i + 1);
            assets, tokens, paid := assetsBefore, tokensBefore, paidBefore;
            return;
          }
        }
        i := i + 1;
      }
      assert pushes[..i] == pushes;
      error := None;
    }
  }

  lemma {:induction false} OpensOnce(c: Chain, round: Key, vault: Key, p: OpenParams)
    requires PayoutSafety.Inv(c) && Open(c, round, vault, p).Ok?
    ensures var d, key := Open(c, round, vault, p).value, AssetKey(round, p.assetIdx);
      && key !in c.openings && key in d.assets && d.openings == c.openings[key := d.assets[key]] && round in d.rounds
      && Merkle.Within(TupleDigest(d.assets[key]), d.rounds[round].assetsRoot)
      && d.assets[key].claimed == 0 == PayoutSafety.SumPaid(d.paid, key)
  {
    hide PayoutSafety.Inv, Merkle.Within, Open;
    PayoutSafety.OpenEffect(c, round, vault, p);
    PayoutSafety.OpenUnpaid(c, round, vault, p);
    PayoutSafety.OpenFresh(c, round, vault, p);
    PayoutSafety.SumNone(c.paid, AssetKey(round, p.assetIdx));
  }

  lemma {:induction false} PlanFails(c: Chain, key: Key, destinations: seq<Key>, firstLeaf: u32,
                                     leaves: seq<BlockLeaf>, i: nat)
    requires key in c.assets && i <= |leaves| && firstLeaf + |leaves| < 0x1_0000_0000
    requires PlanBlock(c, key, destinations, firstLeaf, leaves[..i]).Err?
    ensures PlanBlock(c, key, destinations, firstLeaf, leaves)
         == PlanBlock(c, key, destinations, firstLeaf, leaves[..i])
    decreases |leaves| - i
  {
    if i < |leaves| {
      assert leaves[..i + 1][..i] == leaves[..i];
      PlanFails(c, key, destinations, firstLeaf, leaves, i + 1);
    } else {
      assert leaves[..i] == leaves;
    }
  }

  lemma {:induction false} PayFails(c: Chain, key: Key, pushes: seq<Payout>, i: nat)
    requires key in c.assets && i <= |pushes| && PayAll(c, key, pushes[..i]).Err?
    ensures PayAll(c, key, pushes) == PayAll(c, key, pushes[..i])
    decreases |pushes| - i
  {
    if i < |pushes| {
      assert pushes[..i + 1][..i] == pushes[..i];
      PayFails(c, key, pushes, i + 1);
    } else {
      assert pushes[..i] == pushes;
    }
  }
}
