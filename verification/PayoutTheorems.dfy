/** What single steps of the distributor do for recipients, and how a batch relates to single pushes. */
module PayoutTheorems {
  import opened Terms
  import opened Bits
  import opened Distributor
  import opened PayoutSafety
  import Merkle

  // ---- recipients ------------------------------------------------------------------

  /** A payout made by a step: proved against the root, before expiry, into an account of its recipient. */
  ghost predicate WellPaid(c: Chain, p: Payout) {
    p.asset in c.assets
    && var a := c.assets[p.asset];
       a.status == Active && a.round in c.rounds && c.now < c.rounds[a.round].expiryTs && p.leafIdx < a.leafCount
       && Merkle.Within(LeafDigest(a, p.leafIdx, p.recipient, p.amount), a.merkleRoot)
       && Holds(c, p.destination, a.tokenProgram) && c.tokens[p.destination].owner == p.recipient
       && c.tokens[p.destination].mint == a.mint && p.destination != a.vault
       && (!p.selfClaim ==> p.destination == Ata(p.recipient, a.mint, a.tokenProgram))
  }

  lemma {:induction false} ProcessPaysWell(c: Chain, r: PayoutRequest)
    requires Process(c, r).Ok?
    ensures Process(c, r).value.paid == c.paid + [RequestPayout(r)] && WellPaid(c, RequestPayout(r))
    ensures r.selfClaim ==> r.signer == r.recipient
  {
    ProcessIsPayable(c, r);
    PayEffect(c, RequestPayout(r));
  }

  lemma {:induction false} PayAllPays(c: Chain, key: Key, pushes: seq<Payout>) returns (extra: seq<Payout>)
    requires key in c.assets && PayAll(c, key, pushes).Ok?
    requires forall j :: 0 <= j < |pushes| ==> pushes[j].asset == key
    ensures PayAll(c, key, pushes).value.paid == c.paid + extra
    ensures forall i :: 0 <= i < |extra| ==> extra[i] in pushes
    decreases |pushes|
  {
    hide Pay;
    if pushes == [] {
      extra := [];
    } else {
      var n := |pushes| - 1;
      extra := PayAllPays(c, key, pushes[..n]);
      var d := PayAll(c, key, pushes[..n]).value;
      if PayUnclaimed(d, key, pushes[n]) != Ok(d) {
        PayEffect(d, pushes[n]);
        assert c.paid + (extra + [pushes[n]]) == (c.paid + extra) + [pushes[n]];
        extra := extra + [pushes[n]];
      }
    }
  }

  lemma {:induction false} PlanPaysWell(c: Chain, r: BlockRequest, plan: Plan, j: nat)
    requires r.asset in c.assets && BlockRefusal(c, r).None? && j < |plan.pushes|
    requires PlanOk(c, r.asset, r.firstLeaf, |r.leaves|, plan)
    requires Merkle.BlockVerifies(plan.hashes, r.firstLeaf, r.level, c.assets[r.asset].leafCount, r.proof,
                                  c.assets[r.asset].merkleRoot)
    ensures WellPaid(c, plan.pushes[j]) && !plan.pushes[j].selfClaim
  {
    PlanProved(c, r, plan, j);
  }

  /** The instruction was a self-claim the recipient signed. */
  ghost predicate SignedBy(action: Action, recipient: Key) {
    action.PayOne? && action.request.selfClaim && action.request.signer == recipient
  }

  /** Every payout any instruction makes is a payout of a committed leaf to that leaf's recipient: into the canonical
      account, or where that recipient's own signature sends it. */
  lemma {:induction false} StepPaysRecipients(c: Chain, action: Action) returns (extra: seq<Payout>)
    requires Inv(c) && Fair(c, action)
    ensures After(c, action).paid == c.paid + extra
    ensures forall i :: 0 <= i < |extra| ==> WellPaid(c, extra[i])
    ensures forall i :: 0 <= i < |extra| && extra[i].selfClaim ==> SignedBy(action, extra[i].recipient)
  {
    hide Inv, WellPaid, Process, PushPayouts, Open, Activate, Sweep, Close;
    extra := [];
    if action.PayOne? && Step(c, action).Ok? {
      ProcessPaysWell(c, action.request);
      extra := [RequestPayout(action.request)];
    } else if action.PayBlock? && Step(c, action).Ok? {
      extra := BlockPaysRecipients(c, action.block);
    } else {
      PaidUnchanged(c, action);
    }
  }

  lemma {:induction false} BlockPaysRecipients(c: Chain, r: BlockRequest) returns (extra: seq<Payout>)
    requires PushPayouts(c, r).Ok?
    ensures PushPayouts(c, r).value.paid == c.paid + extra
    ensures forall i :: 0 <= i < |extra| ==> WellPaid(c, extra[i]) && !extra[i].selfClaim
  {
    hide PayAll, WellPaid, PlanOk, PlanBlock;
    var plan := PushPayoutsPlan(c, r);
    BlockPassed(c, r);
    hide PushPayouts, BlockRefusal;
    PlanAssets(c, r, plan);
    extra := PayAllPays(c, r.asset, plan.pushes);
    forall i | 0 <= i < |extra|
      ensures WellPaid(c, extra[i]) && !extra[i].selfClaim
    {
      var j :| 0 <= j < |plan.pushes| && plan.pushes[j] == extra[i];
      PlanPaysWell(c, r, plan, j);
    }
  }

  lemma {:induction false} BlockPassed(c: Chain, r: BlockRequest)
    requires PushPayouts(c, r).Ok?
    ensures BlockRefusal(c, r).None?
  {
    hide BlockRefusal, PayAll, PlanBlock;
  }

  lemma {:induction false} PaidUnchanged(c: Chain, action: Action)
    requires Step(c, action).Err? || (!action.PayOne? && !action.PayBlock?)
    ensures After(c, action).paid == c.paid
  {
  }

  // ---- what stays owed -----------------------------------------------------------------

  ghost function Owed(c: Chain, key: Key): int
    requires key in c.assets
  {
    c.assets[key].allocation - c.assets[key].claimed
  }

  ghost function VaultOf(c: Chain, key: Key): nat
    requires key in c.assets
  {
    if c.assets[key].vault in c.tokens then c.tokens[c.assets[key].vault].amount else 0
  }

  /** The asset is still there, the same and active, and its vault lost no more than was counted as claimed. */
  ghost predicate OwedKept(c: Chain, d: Chain, key: Key) {
    key in c.assets && key in d.assets && d.assets[key].status == Active && Continues(c.assets[key], d.assets[key])
    && VaultOf(d, key) + d.assets[key].claimed >= VaultOf(c, key) + c.assets[key].claimed
  }

  lemma {:induction false} PayKeepsOwed(c: Chain, p: Payout, key: Key)
    requires Inv(c) && Payable(c, p) && Pay(c, p.asset, p).Ok? && key in c.assets && c.assets[key].status == Active
    ensures OwedKept(c, Pay(c, p.asset, p).value, key)
  {
    hide Pay, Inv;
    PayEffect(c, p);
    InvOf(c, key);
    InvOf(c, p.asset);
  }

  lemma {:induction false} PayAllKeepsOwed(c: Chain, key: Key, pushes: seq<Payout>, other: Key)
    requires Inv(c) && key in c.assets && c.assets[key].status == Active && PayAll(c, key, pushes).Ok?
    requires forall j :: 0 <= j < |pushes| ==> PushOk(c, key, pushes[j])
    requires other in c.assets && c.assets[other].status == Active
    ensures OwedKept(c, PayAll(c, key, pushes).value, other)
    decreases |pushes|
  {
    hide Inv, Pay;
    if pushes != [] {
      var n := |pushes| - 1;
      PayAllKeepsInv(c, key, pushes[..n]);
      PayAllKeepsOwed(c, key, pushes[..n], other);
      var d, p := PayAll(c, key, pushes[..n]).value, pushes[n];
      InvOf(d, key);
      if !IsClaimed(d.assets[key].bitmap, p.leafIdx) {
        PayKeepsOwed(d, p, other);
      }
    }
  }

  lemma {:induction false} PushPayoutsKeepsOwed(c: Chain, r: BlockRequest, key: Key)
    requires Inv(c) && PushPayouts(c, r).Ok? && key in c.assets && c.assets[key].status == Active
    ensures OwedKept(c, PushPayouts(c, r).value, key)
  {
    hide PushPayouts, PayAll, Inv, OwedKept;
    var plan := PushPayoutsPlan(c, r);
    forall j | 0 <= j < |plan.pushes|
      ensures PushOk(c, r.asset, plan.pushes[j])
    {
      PlanProved(c, r, plan, j);
    }
    PayAllKeepsOwed(c, r.asset, plan.pushes, key);
  }

  lemma {:induction false} SweepKeepsOwed(c: Chain, distributor: Key, swept: Key, mint: Key, vault: Key, rollover: Key,
                                          tokenProgram: Key, key: Key)
    requires Inv(c) && Sweep(c, distributor, swept, mint, vault, rollover, tokenProgram).Ok?
    requires key in c.assets && c.assets[key].status == Active
    ensures var d := Sweep(c, distributor, swept, mint, vault, rollover, tokenProgram).value;
      if key == swept then d.assets == c.assets && VaultOf(d, key) == Owed(c, key) else OwedKept(c, d, key)
  {
    hide Sweep, Inv;
    VaultsArePinned(c);
    SweepEffect(c, distributor, swept, mint, vault, rollover, tokenProgram);
    InvOf(c, key);
    InvOf(c, swept);
  }

  lemma {:induction false} CloseKeepsOwed(c: Chain, distributor: Key, round: Key, closed: Key, mint: Key, vault: Key,
                                          rollover: Key, wallet: Key, tokenProgram: Key, key: Key)
    requires Inv(c) && Close(c, distributor, round, closed, mint, vault, rollover, wallet, tokenProgram).Ok?
    requires key in c.assets && c.assets[key].status == Active
    requires key.round in c.rounds && c.now < c.rounds[key.round].expiryTs
    ensures OwedKept(c, Close(c, distributor, round, closed, mint, vault, rollover, wallet, tokenProgram).value, key)
  {
    hide Close, Inv;
    assert VaultsPinned(c.tokens) by { VaultsArePinned(c); }
    CloseEffect(c, distributor, round, closed, mint, vault, rollover, wallet, tokenProgram);
    InvOf(c, key);
    InvOf(c, closed);
  }

  lemma {:induction false} VaultsArePinned(c: Chain)
    requires Inv(c)
    ensures VaultsPinned(c.tokens)
  {
  }

  lemma {:induction false} OpenKeepsOwed(c: Chain, round: Key, vault: Key, p: OpenParams, key: Key)
    requires Inv(c) && Open(c, round, vault, p).Ok? && key in c.assets && c.assets[key].status == Active
    ensures OwedKept(c, Open(c, round, vault, p).value, key)
  {
    hide Open, Inv;
    InvOf(c, key);
    OpenUnpaid(c, round, vault, p);
    OpenEffect(c, round, vault, p);
  }

  lemma {:induction false} QuietStepsKeepOwed(c: Chain, action: Action, key: Key)
    requires Inv(c) && Fair(c, action) && Step(c, action).Ok?
    requires action.NewRound? || action.OpenAsset? || action.ActivateAsset? || action.Environment?
    requires key in c.assets && c.assets[key].status == Active
    ensures OwedKept(c, After(c, action), key)
  {
    hide Inv, Open;
    if action.OpenAsset? {
      OpenKeepsOwed(c, action.round, action.vault, action.params, key);
    } else {
      InvOf(c, key);
    }
  }

  ghost predicate Sweeps(c: Chain, action: Action, key: Key) {
    action.SweepExcess? && action.key == key && Step(c, action).Ok?
  }

  /** Before expiry an active asset stays what it is and its `claimed` grows by the payouts the step makes of it. Its
      vault loses at most those: only a sweep of this very asset takes more, and that leaves exactly what is still
      owed. */
  lemma {:induction false} OwedLeavesOnlyAsPayouts(c: Chain, action: Action, key: Key) returns (extra: seq<Payout>)
    requires Inv(c) && Fair(c, action)
    requires key in c.assets && c.assets[key].status == Active
    requires key.round in c.rounds && c.now < c.rounds[key.round].expiryTs
    ensures var d := After(c, action);
      && d.paid == c.paid + extra && key in d.assets && d.assets[key].status == Active
      && Continues(c.assets[key], d.assets[key]) && d.assets[key].claimed == c.assets[key].claimed + SumPaid(extra, key)
      && (if Sweeps(c, action, key) then VaultOf(d, key) == Owed(d, key)
          else VaultOf(d, key) + SumPaid(extra, key) >= VaultOf(c, key))
      && VaultOf(d, key) >= Owed(d, key) >= 0
  {
    hide Inv, Open, Activate, Process, PushPayouts, Sweep, Close, Pay, SumPaid, WellPaid, SignedBy;
    var d := After(c, action);
    StepKeepsInv(c, action);
    extra := StepPaysRecipients(c, action);
    SumConcat(c.paid, extra, key);
    ClaimedIsPaid(c, key);
    if Sweeps(c, action, key) {
      SweepKeepsOwed(c, action.distributor, key, action.mint, action.vault, action.rollover, action.tokenProgram, key);
    } else {
      StepKeepsOwed(c, action, key);
    }
    hide After;
    ClaimedIsPaid(d, key);
    OwedIsHeld(d, key);
  }

  lemma {:induction false} SumConcat(paid: seq<Payout>, extra: seq<Payout>, key: Key)
    ensures SumPaid(paid + extra, key) == SumPaid(paid, key) + SumPaid(extra, key)
    decreases |extra|
  {
    if extra == [] {
      assert paid + extra == paid;
    } else {
      var n := |extra| - 1;
      SumConcat(paid, extra[..n], key);
      assert (paid + extra)[..|paid| + n] == paid + extra[..n];
    }
  }

  lemma {:induction false} ClaimedIsPaid(c: Chain, key: Key)
    requires Inv(c) && key in c.assets
    ensures c.assets[key].claimed == SumPaid(c.paid, key)
  {
    InvOf(c, key);
  }

  lemma {:induction false} StepKeepsOwed(c: Chain, action: Action, key: Key)
    requires Inv(c) && Fair(c, action) && !Sweeps(c, action, key)
    requires key in c.assets && c.assets[key].status == Active
    requires key.round in c.rounds && c.now < c.rounds[key.round].expiryTs
    ensures OwedKept(c, After(c, action), key)
  {
    hide Inv, OwedKept, Open, Activate, Process, PushPayouts, Sweep, Close, Pay;
    if Step(c, action).Err? {
      NothingKeepsOwed(c, key);
    } else {
      match action
      case PayOne(r) =>
        ProcessIsPayable(c, r);
        PayKeepsOwed(c, RequestPayout(r), key);
      case PayBlock(r) => PushPayoutsKeepsOwed(c, r, key);
      case SweepExcess(d, k, mint, vault, rollover, tp) => SweepKeepsOwed(c, d, k, mint, vault, rollover, tp, key);
      case CloseAsset(d, round, k, mint, vault, rollover, wallet, tp) =>
        CloseKeepsOwed(c, d, round, k, mint, vault, rollover, wallet, tp, key);
      case _ => QuietStepsKeepOwed(c, action, key);
    }
  }

  lemma {:induction false} NothingKeepsOwed(c: Chain, key: Key)
    requires key in c.assets && c.assets[key].status == Active
    ensures OwedKept(c, c, key)
  {
  }

  lemma {:induction false} OwedIsHeld(c: Chain, key: Key)
    requires Inv(c) && key in c.assets && c.assets[key].status == Active
    ensures VaultOf(c, key) >= Owed(c, key) >= 0
  {
    InvOf(c, key);
  }

  // ---- where the rest goes ---------------------------------------------------------------------

  /** Exactly `amount` leaves one account, and the other gains it less what the mint withholds. */
  ghost predicate Moved(before: map<Key, TokenAccount>, after: map<Key, TokenAccount>, source: Key, destination: Key,
                        amount: nat, fee: nat)
  {
    source in before && destination in before && source != destination && after.Keys == before.Keys
    && fee <= amount && before[source].mint == before[destination].mint
    && after[source].amount == before[source].amount - amount
    && after[destination].amount == before[destination].amount + amount - fee
    && after[source] == before[source].(amount := after[source].amount)
    && after[destination] == before[destination].(amount := after[destination].amount)
    && forall k :: k in before && k != source && k != destination ==> after[k] == before[k]
  }

  /** The root authority's own canonical account for an asset's mint. */
  ghost predicate IsRollover(c: Chain, a: RoundAsset, rollover: Key) {
    a.distributor in c.authorities
    && rollover == Ata(c.authorities[a.distributor], a.mint, a.tokenProgram)
    && rollover in c.tokens && c.tokens[rollover].owner == c.authorities[a.distributor]
    && c.tokens[rollover].tokenProgram == a.tokenProgram
  }

  /** What sweeping does: the excess over what is owed, all of it and no more, goes to the authority. */
  ghost predicate Swept(c: Chain, d: Chain, key: Key, rollover: Key) {
    key in c.assets
    && var a := c.assets[key];
       var excess := VaultOf(c, key) - Owed(c, key);
       a.status == Active && excess > 0 && IsRollover(c, a, rollover)
       && Moved(c.tokens, d.tokens, a.vault, rollover, excess, FeeOf(c, a.mint, excess))
       && d == c.(tokens := d.tokens)
  }

  /** What closing does: whatever the vault still holds goes to the authority, the vault and the account are gone, and
      the round's mask gains exactly this asset's bit. */
  ghost predicate Closed(c: Chain, d: Chain, key: Key, rollover: Key) {
    key in c.assets && key.AssetKey? && c.assets[key].vault in c.tokens && key.round in c.rounds
    && key.round in d.rounds
    && var a := c.assets[key];
       var remaining := c.tokens[a.vault].amount;
       c.now >= c.rounds[key.round].expiryTs
       && a.vault !in d.tokens && d.assets == c.assets - {key}
       && (if remaining == 0 then d.tokens == c.tokens - {a.vault}
           else IsRollover(c, a, rollover) && a.vault != rollover
                && exists tokens :: Drained(c, tokens, a, rollover, remaining) && d.tokens == tokens - {a.vault})
       && d.rounds == c.rounds[key.round := c.rounds[key.round].(closedMask := d.rounds[key.round].closedMask)]
       && (forall i: nat :: i < 32 ==>
             (HasBit(d.rounds[key.round].closedMask, i)
              <==> i == key.assetIdx || HasBit(c.rounds[key.round].closedMask, i)))
       && d == c.(tokens := d.tokens, rounds := d.rounds, assets := d.assets)
  }

  ghost predicate Drained(c: Chain, tokens: map<Key, TokenAccount>, a: RoundAsset, rollover: Key, remaining: nat) {
    Moved(c.tokens, tokens, a.vault, rollover, remaining, FeeOf(c, a.mint, remaining))
  }

  lemma {:induction false} TransferMoves(c: Chain, source: Key, destination: Key, amount: u64)
    requires Transfer(c, source, destination, amount).Ok?
    ensures source in c.tokens
    ensures var d := Transfer(c, source, destination, amount).value;
      d == c.(tokens := d.tokens)
      && Moved(c.tokens, d.tokens, source, destination, amount, FeeOf(c, c.tokens[source].mint, amount))
  {
  }

  /** A vault's account is for its asset's mint. */
  lemma {:induction false} VaultMint(c: Chain, key: Key)
    requires Inv(c) && key in c.assets
    ensures key.AssetKey? && key.round == c.assets[key].round && key.assetIdx == c.assets[key].assetIdx < 32
    ensures c.assets[key].vault in c.tokens && c.tokens[c.assets[key].vault].mint == c.assets[key].mint
    ensures key.round in c.rounds && c.assets[key].allocation >= c.assets[key].claimed
  {
    InvOf(c, key);
    InvParts(c);
    hide Inv, PaidOnce, RoundsNamed;
  }

  /** Sweeping sends the authority exactly the excess. */
  lemma {:induction false} SweepReturnsExcess(c: Chain, distributor: Key, key: Key, mint: Key, vault: Key,
                                              rollover: Key,
                                              tokenProgram: Key)
    requires Inv(c) && Sweep(c, distributor, key, mint, vault, rollover, tokenProgram).Ok?
    ensures Swept(c, Sweep(c, distributor, key, mint, vault, rollover, tokenProgram).value, key, rollover)
  {
    hide Inv, Transfer, Moved;
    VaultMint(c, key);
    var a := c.assets[key];
    TransferMoves(c, vault, rollover, c.tokens[vault].amount - (a.allocation - a.claimed));
  }

  /** Closing an expired asset destroys nothing: all its vault still holds is returned to the authority. */
  lemma {:induction false} CloseReturnsRest(c: Chain, distributor: Key, round: Key, key: Key, mint: Key, vault: Key,
                                            rollover: Key, wallet: Key, tokenProgram: Key)
    requires Inv(c) && Close(c, distributor, round, key, mint, vault, rollover, wallet, tokenProgram).Ok?
    ensures Closed(c, Close(c, distributor, round, key, mint, vault, rollover, wallet, tokenProgram).value, key,
                   rollover)
  {
    hide Inv, Transfer, Moved, Mark, HasBit;
    VaultMint(c, key);
    forall i: nat | i < 32
      ensures HasBit(Mark(c.rounds[round].closedMask, AssetBit(key.assetIdx)), i)
         <==> i == key.assetIdx || HasBit(c.rounds[round].closedMask, i)
    {
      MarksOne(c.rounds[round].closedMask, key.assetIdx, i);
    }
    var remaining := c.tokens[vault].amount;
    if remaining > 0 {
      TransferMoves(c, vault, rollover, remaining);
      var tokens := Transfer(c, vault, rollover, remaining).value.tokens;
      assert Drained(c, tokens, c.assets[key], rollover, remaining);
      MovedApart(c.tokens, tokens, vault, rollover, remaining, FeeOf(c, c.assets[key].mint, remaining));
    }
  }

  lemma {:induction false} MovedApart(before: map<Key, TokenAccount>, after: map<Key, TokenAccount>, source: Key,
                                      destination: Key, amount: nat, fee: nat)
    requires Moved(before, after, source, destination, amount, fee)
    ensures source != destination && source in before && destination in before
  {
  }

  // ---- a batch against single pushes ---------------------------------------------------------

  /** The single push of a planned payout, by anyone: its siblings within the block, then the block's own proof. */
  function SinglePush(r: BlockRequest, hashes: seq<Digest>, p: Payout): PayoutRequest
    requires r.firstLeaf <= p.leafIdx < r.firstLeaf + |hashes|
  {
    PayoutRequest(r.round, r.asset, r.mint, r.vault, r.tokenProgram, p.recipient, p.destination, p.leafIdx, p.amount,
      Merkle.Siblings(hashes, p.leafIdx - r.firstLeaf) + r.proof, false, r.payer)
  }

  predicate Inside(r: BlockRequest, plan: Plan) {
    forall j :: 0 <= j < |plan.pushes| ==> r.firstLeaf <= plan.pushes[j].leafIdx < r.firstLeaf + |plan.hashes|
  }

  /** Running `process` in leaf order on the first `n` planned payouts, skipping those whose bits are set. */
  function PaySingly(c: Chain, r: BlockRequest, plan: Plan, n: nat): (d: Result<Chain>)
    requires r.asset in c.assets && Inside(r, plan) && n <= |plan.pushes|
    ensures d.Ok? ==> r.asset in d.value.assets
    decreases n
  {
    if n == 0 then Ok(c)
    else
      match PaySingly(c, r, plan, n - 1)
      case Err(error) => Err(error)
      case Ok(d) =>
        var bitmap, p := d.assets[r.asset].bitmap, plan.pushes[n - 1];
        if p.leafIdx / 8 < |bitmap| && IsClaimed(bitmap, p.leafIdx) then Ok(d)
        else Process(d, SinglePush(r, plan.hashes, p))
  }

  /** One payment of the batch is exactly the single push. */
  lemma {:induction false} SinglePushPasses(c: Chain, d: Chain, r: BlockRequest, hashes: seq<Digest>, p: Payout)
    requires r.asset in c.assets && BlockRefusal(c, r).None? && SameAsset(c, d, r.asset)
    requires PlannedOk(c, r, hashes, p)
    requires Pay(d, r.asset, p).Ok? && !IsClaimed(d.assets[r.asset].bitmap, p.leafIdx)
    ensures PayoutRefusal(d, SinglePush(r, hashes, p)).None?
  {
    hide Pay, Merkle.Siblings, Merkle.Verify;
    PayEffect(d, p);
    assert hashes[p.leafIdx - r.firstLeaf] == LeafDigest(d.assets[r.asset], p.leafIdx, p.recipient, p.amount);
  }

  /** A planned payout and the proof that its own push would carry. */
  ghost predicate PlannedOk(c: Chain, r: BlockRequest, hashes: seq<Digest>, p: Payout)
    requires r.asset in c.assets
  {
    var a := c.assets[r.asset];
    p.asset == r.asset && r.firstLeaf <= p.leafIdx < r.firstLeaf + |hashes| && p.leafIdx < a.leafCount
    && p.amount != 0 && !p.selfClaim && p.destination != a.vault && p.recipient != r.asset && DestinationOk(c, a, p)
    && hashes[p.leafIdx - r.firstLeaf] == LeafDigest(a, p.leafIdx, p.recipient, p.amount)
    && var proof := Merkle.Siblings(hashes, p.leafIdx - r.firstLeaf) + r.proof;
       |proof| <= Merkle.MAX_PROOF_LEN && Merkle.Verify(proof, a.merkleRoot, hashes[p.leafIdx - r.firstLeaf])
  }

  lemma {:induction false} PlanIsPlanned(c: Chain, r: BlockRequest, plan: Plan, j: nat)
    requires r.asset in c.assets && BlockRefusal(c, r).None? && j < |plan.pushes|
    requires c.assets[r.asset].leafCount <= MAX_LEAVES_PER_ASSET
    requires PlanOk(c, r.asset, r.firstLeaf, |r.leaves|, plan)
    requires Merkle.BlockVerifies(plan.hashes, r.firstLeaf, r.level, c.assets[r.asset].leafCount, r.proof,
                                  c.assets[r.asset].merkleRoot)
    ensures PlannedOk(c, r, plan.hashes, plan.pushes[j])
  {
    hide Merkle.Siblings, Merkle.Verify, Merkle.BlockVerifies;
    var a := c.assets[r.asset];
    Merkle.BlockProvesLeaf(plan.hashes, r.firstLeaf, r.level, a.leafCount, r.proof, a.merkleRoot,
      plan.pushes[j].leafIdx - r.firstLeaf);
  }

  lemma {:induction false} PayAllSingly(c: Chain, r: BlockRequest, plan: Plan, n: nat)
    requires Inv(c) && r.asset in c.assets && BlockRefusal(c, r).None? && Inside(r, plan) && n <= |plan.pushes|
    requires PayAll(c, r.asset, plan.pushes[..n]).Ok?
    requires forall j :: 0 <= j < |plan.pushes| ==>
               PlannedOk(c, r, plan.hashes, plan.pushes[j]) && PushOk(c, r.asset, plan.pushes[j])
    ensures PaySingly(c, r, plan, n) == PayAll(c, r.asset, plan.pushes[..n])
    decreases n
  {
    hide Inv, Pay, BlockRefusal, PayoutRefusal, SameAsset, PlannedOk, PushOk;
    if n > 0 {
      assert plan.pushes[..n][..n - 1] == plan.pushes[..n - 1];
      PayAllSingly(c, r, plan, n - 1);
      BlockIsActive(c, r);
      PayAllKeepsInv(c, r.asset, plan.pushes[..n - 1]);
      var d, p := PayAll(c, r.asset, plan.pushes[..n - 1]).value, plan.pushes[n - 1];
      PlannedBit(c, d, r, plan.hashes, p);
      if !IsClaimed(d.assets[r.asset].bitmap, p.leafIdx) {
        SinglePushPasses(c, d, r, plan.hashes, p);
        PlannedRequest(c, r, plan.hashes, p);
      }
    }
  }

  lemma {:induction false} BlockIsActive(c: Chain, r: BlockRequest)
    requires BlockRefusal(c, r).None?
    ensures r.asset in c.assets && c.assets[r.asset].status == Active
  {
  }

  lemma {:induction false} PlannedBit(c: Chain, d: Chain, r: BlockRequest, hashes: seq<Digest>, p: Payout)
    requires Inv(d) && SameAsset(c, d, r.asset) && PlannedOk(c, r, hashes, p)
    ensures p.leafIdx / 8 < |d.assets[r.asset].bitmap|
  {
    InvOf(d, r.asset);
  }

  lemma {:induction false} PlannedRequest(c: Chain, r: BlockRequest, hashes: seq<Digest>, p: Payout)
    requires r.asset in c.assets && PlannedOk(c, r, hashes, p)
    ensures r.firstLeaf <= p.leafIdx < r.firstLeaf + |hashes| && RequestPayout(SinglePush(r, hashes, p)) == p
  {
  }

  /** What the first loop gathers for a block that passes the guards. */
  function PlanFor(c: Chain, r: BlockRequest): Result<Plan> {
    match BlockRefusal(c, r)
    case Some(error) => Err(error)
    case None => PlanBlock(c, r.asset, r.destinations, r.firstLeaf, r.leaves)
  }

  /** In every reachable state and whatever the asset's root: a batch that succeeds leaves exactly what single pushes of
      its unpaid leaves, in leaf order, leave. */
  lemma {:induction false} BatchRefinesSingles(c: Chain, r: BlockRequest) returns (plan: Plan)
    requires Inv(c) && PushPayouts(c, r).Ok?
    ensures PlanFor(c, r) == Ok(plan) && Inside(r, plan) && r.asset in c.assets
    ensures PaySingly(c, r, plan, |plan.pushes|) == PushPayouts(c, r)
  {
    hide Inv, PayAll, PlanOk, PlannedOk, PushOk;
    plan := PushPayoutsPlan(c, r);
    LeafLimit(c, r.asset);
    forall j | 0 <= j < |plan.pushes|
      ensures PlannedOk(c, r, plan.hashes, plan.pushes[j]) && PushOk(c, r.asset, plan.pushes[j])
      ensures r.firstLeaf <= plan.pushes[j].leafIdx < r.firstLeaf + |plan.hashes|
    {
      PlanIsPlanned(c, r, plan, j);
      PlanProved(c, r, plan, j);
      PlannedRequest(c, r, plan.hashes, plan.pushes[j]);
    }
    assert plan.pushes[..|plan.pushes|] == plan.pushes;
    PayAllSingly(c, r, plan, |plan.pushes|);
  }

  lemma {:induction false} LeafLimit(c: Chain, key: Key)
    requires Inv(c) && key in c.assets
    ensures c.assets[key].leafCount <= MAX_LEAVES_PER_ASSET
  {
    InvOf(c, key);
  }

  // ---- sending a block again ---------------------------------------------------------------

  lemma {:induction false} PlanSame(c: Chain, d: Chain, key: Key, destinations: seq<Key>, firstLeaf: u32,
                                    leaves: seq<BlockLeaf>)
    requires SameAsset(c, d, key) && firstLeaf + |leaves| < 0x1_0000_0000
    ensures PlanBlock(d, key, destinations, firstLeaf, leaves) == PlanBlock(c, key, destinations, firstLeaf, leaves)
    decreases |leaves|
  {
    if leaves != [] {
      PlanSame(c, d, key, destinations, firstLeaf, leaves[..|leaves| - 1]);
    }
  }

  ghost predicate AllClaimed(c: Chain, key: Key, pushes: seq<Payout>)
    requires key in c.assets
  {
    forall j :: 0 <= j < |pushes| ==>
      pushes[j].leafIdx / 8 < |c.assets[key].bitmap| && IsClaimed(c.assets[key].bitmap, pushes[j].leafIdx)
  }

  lemma {:induction false} PayAllClaims(c: Chain, key: Key, pushes: seq<Payout>)
    requires key in c.assets && PayAll(c, key, pushes).Ok? && forall j :: 0 <= j < |pushes| ==> pushes[j].asset == key
    ensures AllClaimed(PayAll(c, key, pushes).value, key, pushes)
    decreases |pushes|
  {
    hide Pay;
    if pushes != [] {
      var n := |pushes| - 1;
      PayAllClaims(c, key, pushes[..n]);
      var d, e := PayAll(c, key, pushes[..n]).value, PayAll(c, key, pushes).value;
      if PayUnclaimed(d, key, pushes[n]) != Ok(d) {
        PayEffect(d, pushes[n]);
        forall j | 0 <= j < |pushes|
          ensures pushes[j].leafIdx / 8 < |e.assets[key].bitmap| && IsClaimed(e.assets[key].bitmap, pushes[j].leafIdx)
        {
          assert j < n ==> pushes[..n][j] == pushes[j];
          ClaimsOne(d.assets[key].bitmap, pushes[n].leafIdx, pushes[j].leafIdx);
        }
      } else {
        PayOrClaimed(d, key, pushes[n]);
        assert forall j :: 0 <= j < n ==> pushes[..n][j] == pushes[j];
      }
    }
  }

  lemma {:induction false} PayOrClaimed(c: Chain, key: Key, p: Payout)
    requires key in c.assets && p.asset == key && PayUnclaimed(c, key, p) == Ok(c)
    ensures p.leafIdx / 8 < |c.assets[key].bitmap| && IsClaimed(c.assets[key].bitmap, p.leafIdx)
  {
    PayGrows(c, p);
  }

  lemma {:induction false} PayGrows(c: Chain, p: Payout)
    requires p.asset in c.assets
    ensures Pay(c, p.asset, p) != Ok(c)
  {
    hide Pay;
    if Pay(c, p.asset, p).Ok? {
      PayEffect(c, p);
      assert |c.paid + [p]| == |c.paid| + 1;
    }
  }

  lemma {:induction false} PayAllNothing(c: Chain, key: Key, pushes: seq<Payout>)
    requires key in c.assets && AllClaimed(c, key, pushes)
    ensures PayAll(c, key, pushes) == Ok(c)
    decreases |pushes|
  {
    if pushes != [] {
      PayAllNothing(c, key, pushes[..|pushes| - 1]);
    }
  }

  /** Sending a block that succeeded once more succeeds and changes nothing. */
  lemma {:induction false} ResendChangesNothing(c: Chain, r: BlockRequest)
    requires Inv(c) && PushPayouts(c, r).Ok?
    ensures PushPayouts(PushPayouts(c, r).value, r) == PushPayouts(c, r)
  {
    hide Inv, PlanOk, PlanLeaf, PayAll;
    var d := PushPayouts(c, r).value;
    var plan := PushPayoutsPlan(c, r);
    PushPayoutsKeepsInv(c, r);
    PlanAssets(c, r, plan);
    PayAllClaims(c, r.asset, plan.pushes);
    PayAllNothing(d, r.asset, plan.pushes);
    PlanSame(c, d, r.asset, r.destinations, r.firstLeaf, r.leaves);
  }

  lemma {:induction false} PlanAssets(c: Chain, r: BlockRequest, plan: Plan)
    requires r.asset in c.assets && PlanOk(c, r.asset, r.firstLeaf, |r.leaves|, plan)
    ensures forall j :: 0 <= j < |plan.pushes| ==> plan.pushes[j].asset == r.asset
  {
  }

  /** The positions of the block's Push leaves, in order. */
  function PushIndices(firstLeaf: nat, leaves: seq<BlockLeaf>): seq<nat>
    decreases |leaves|
  {
    if leaves == [] then []
    else
      var n := |leaves| - 1;
      PushIndices(firstLeaf, leaves[..n]) + if leaves[n].Push? then [firstLeaf + n] else []
  }

  /** The plan covers the Push leaves and nothing else, each into the destination passed for it. */
  lemma {:induction false} PlanIsThePushes(c: Chain, key: Key, destinations: seq<Key>, firstLeaf: u32,
                                           leaves: seq<BlockLeaf>)
    requires key in c.assets && firstLeaf + |leaves| < 0x1_0000_0000
    requires PlanBlock(c, key, destinations, firstLeaf, leaves).Ok?
    ensures var pushes := PlanBlock(c, key, destinations, firstLeaf, leaves).value.pushes;
      |pushes| == |PushIndices(firstLeaf, leaves)| <= |destinations|
      && forall j :: 0 <= j < |pushes| ==>
           pushes[j].leafIdx == PushIndices(firstLeaf, leaves)[j] && pushes[j].destination == destinations[j]
    decreases |leaves|
  {
    if leaves != [] {
      PlanIsThePushes(c, key, destinations, firstLeaf, leaves[..|leaves| - 1]);
    }
  }
}
