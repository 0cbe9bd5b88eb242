/** The keeper's own payout transactions against the program: `pushPayoutBlockInstructions` of
    keeper/distributor/client.ts, a block of committed leaves with its siblings. */
module BlockPayouts {
  import opened Terms
  import opened Bits
  import opened Distributor
  import opened PayoutSafety
  import opened Committed
  import opened EndToEnd
  import Allocation
  import Holders
  import Merkle
  import MerkleTheorems
  import PayoutTheorems
  import PushPhase
  import PushProgress

  // ---- what the keeper sends --------------------------------------------------------------

  /** The leaves first to end - 1, those in `push` to be paid and the others only hashed. */
  function BlockLeaves(entries: seq<Entry>, first: nat, end: nat, push: set<nat>): (leaves: seq<BlockLeaf>)
    requires first <= end <= |entries|
    ensures |leaves| == end - first
    decreases end
  {
    if end == first then []
    else
      var entry := entries[end - 1];
      BlockLeaves(entries, first, end - 1, push)
      + [if end - 1 in push then Push(entry.amount) else Skip(entry.recipient, entry.amount)]
  }

  /** The payouts asked for, in leaf order, each to the recipient's canonical account. */
  function BlockPushes(a: RoundAsset, key: Key, entries: seq<Entry>, first: nat, end: nat, push: set<nat>): seq<Payout>
    requires first <= end <= |entries| <= MAX_LEAVES_PER_ASSET
    decreases end
  {
    if end == first then []
    else
      var entry, front := entries[end - 1], BlockPushes(a, key, entries, first, end - 1, push);
      if end - 1 in push then front + [Payout(key, end - 1, entry.recipient, Canonical(a, entry), entry.amount, false)]
      else front
  }

  function Canonical(a: RoundAsset, entry: Entry): Key {
    Ata(entry.recipient, a.mint, a.tokenProgram)
  }

  function Destinations(pushes: seq<Payout>): (destinations: seq<Key>)
    ensures |destinations| == |pushes|
  {
    seq(|pushes|, j requires 0 <= j < |pushes| => pushes[j].destination)
  }

  function BlockEnd(entries: seq<Entry>, first: nat, level: nat): nat {
    Merkle.Min(first + Merkle.Pow2(level), |entries|)
  }

  function PushBlock(a: RoundAsset, key: Key, entries: seq<Entry>, first: u32, level: nat, push: set<nat>, payer: Key)
    : BlockRequest
    requires first < |entries| <= MAX_LEAVES_PER_ASSET
  {
    var end := BlockEnd(entries, first, level);
    BlockRequest(a.round, key, a.mint, a.vault, a.tokenProgram, first, level, BlockLeaves(entries, first, end, push),
      Merkle.BlockSiblings(Digests(a, entries), first, level),
      Destinations(BlockPushes(a, key, entries, first, end, push)), payer)
  }

  // ---- what has to be so ------------------------------------------------------------------

  /** Nobody is paid by two leaves of the block, as in every allocation. */
  ghost predicate Distinct(entries: seq<Entry>) {
    forall i, j :: 0 <= i < j < |entries| ==> entries[i].recipient != entries[j].recipient
  }

  /** An active, unexpired asset opened with these leaves and their total. */
  ghost predicate Live(c: Chain, key: Key, entries: seq<Entry>) {
    key in c.assets && key.AssetKey? && key.round in c.rounds && c.assets[key].status == Active
    && c.now < c.rounds[key.round].expiryTs
    && Commits(c.assets[key], entries) && c.assets[key].allocation == SumEntries(entries)
    && Distinct(entries) && forall i :: 0 <= i < |entries| ==> entries[i].amount > 0
  }

  /** Every recipient in `push` can take their payment. */
  ghost predicate AllReceive(c: Chain, key: Key, entries: seq<Entry>, push: set<nat>)
    requires key in c.assets
  {
    forall i :: i in push && i < |entries| ==>
      CanReceive(c, c.assets[key], key, entries[i].recipient, entries[i].amount)
  }

  // ---- the first loop ---------------------------------------------------------------------

  /** A payout of the block's own leaf, as it was committed. */
  ghost predicate Asked(a: RoundAsset, key: Key, entries: seq<Entry>, first: nat, end: nat, push: set<nat>, p: Payout) {
    first <= p.leafIdx < end <= |entries| && p.leafIdx in push
    && p == Payout(key, p.leafIdx, entries[p.leafIdx].recipient, Canonical(a, entries[p.leafIdx]),
                   entries[p.leafIdx].amount, false)
  }

  ghost predicate AllAsked(a: RoundAsset, key: Key, entries: seq<Entry>, first: nat, end: nat, push: set<nat>,
                           pushes: seq<Payout>)
  {
    forall j :: 0 <= j < |pushes| ==> Asked(a, key, entries, first, end, push, pushes[j])
  }

  ghost predicate InOrder(pushes: seq<Payout>) {
    forall i, j :: 0 <= i < j < |pushes| ==> pushes[i].leafIdx < pushes[j].leafIdx
  }

  lemma {:induction false} PushesHold(a: RoundAsset, key: Key, entries: seq<Entry>, first: nat, end: nat,
                                      push: set<nat>)
    requires first <= end <= |entries| <= MAX_LEAVES_PER_ASSET
    ensures AllAsked(a, key, entries, first, end, push, BlockPushes(a, key, entries, first, end, push))
    ensures InOrder(BlockPushes(a, key, entries, first, end, push))
    decreases end
  {
    if end > first {
      PushesHold(a, key, entries, first, end - 1, push);
      AskedAppend(a, key, entries, first, end, push, BlockPushes(a, key, entries, first, end - 1, push));
    }
  }

  lemma {:induction false} AskedAppend(a: RoundAsset, key: Key, entries: seq<Entry>, first: nat, end: nat,
                                       push: set<nat>, front: seq<Payout>)
    requires first < end <= |entries| <= MAX_LEAVES_PER_ASSET
    requires AllAsked(a, key, entries, first, end - 1, push, front) && InOrder(front)
    ensures AllAsked(a, key, entries, first, end, push, front)
    ensures var entry := entries[end - 1];
      var all := front + [Payout(key, end - 1, entry.recipient, Canonical(a, entry), entry.amount, false)];
      end - 1 in push ==> AllAsked(a, key, entries, first, end, push, all) && InOrder(all)
  {
    forall j | 0 <= j < |front|
      ensures Asked(a, key, entries, first, end, push, front[j]) && front[j].leafIdx < end - 1
    {
      assert Asked(a, key, entries, first, end - 1, push, front[j]);
    }
  }

  ghost predicate Covered(pushes: seq<Payout>, i: nat) {
    exists j :: 0 <= j < |pushes| && pushes[j].leafIdx == i
  }

  lemma {:induction false} PushesCover(a: RoundAsset, key: Key, entries: seq<Entry>, first: nat, end: nat,
                                       push: set<nat>, i: nat)
    requires first <= i < end <= |entries| <= MAX_LEAVES_PER_ASSET && i in push
    ensures Covered(BlockPushes(a, key, entries, first, end, push), i)
    decreases end
  {
    var front := BlockPushes(a, key, entries, first, end - 1, push);
    var pushes := BlockPushes(a, key, entries, first, end, push);
    if i == end - 1 {
      assert pushes[|front|].leafIdx == i;
    } else {
      PushesCover(a, key, entries, first, end - 1, push, i);
      var j :| 0 <= j < |front| && front[j].leafIdx == i;
      assert pushes[j] == front[j];
    }
  }

  /** The gathered plan: the committed hashes of the block and the payouts asked for. */
  lemma {:induction false} BlockPlans(c: Chain, key: Key, entries: seq<Entry>, first: u32, end: nat, push: set<nat>,
                                      destinations: seq<Key>)
    requires key in c.assets && first <= end <= |entries| <= MAX_LEAVES_PER_ASSET
    requires AllReceive(c, key, entries, push)
    requires c.assets[key].vault == Ata(key, c.assets[key].mint, c.assets[key].tokenProgram)
    requires forall i :: 0 <= i < |entries| ==> entries[i].amount > 0
    requires var pushes := BlockPushes(c.assets[key], key, entries, first, end, push);
      |pushes| <= |destinations| && destinations[..|pushes|] == Destinations(pushes)
    ensures PlanBlock(c, key, destinations, first, BlockLeaves(entries, first, end, push))
         == Ok(Plan(Digests(c.assets[key], entries)[first..end],
                    BlockPushes(c.assets[key], key, entries, first, end, push)))
    decreases end
  {
    var a := c.assets[key];
    if end > first {
      var n := end - 1;
      var front := BlockPushes(a, key, entries, first, n, push);
      hide AllReceive, PlanBlock, PlanLeaf, Digests;
      PushesPrefix(a, key, entries, first, end, push, destinations);
      BlockPlans(c, key, entries, first, n, push, destinations);
      var plan := Plan(Digests(a, entries)[first..n], front);
      LeafPlans(c, key, entries, destinations, plan, n, push);
      PlanAppends(c, key, destinations, first, BlockLeaves(entries, first, n, push), plan,
        if n in push then Push(entries[n].amount) else Skip(entries[n].recipient, entries[n].amount));
      DigestsAppend(a, entries, first, n);
    } else {
      assert Digests(a, entries)[first..end] == [];
    }
  }

  lemma {:induction false} PushesPrefix(a: RoundAsset, key: Key, entries: seq<Entry>, first: nat, end: nat,
                                        push: set<nat>, destinations: seq<Key>)
    requires first < end <= |entries| <= MAX_LEAVES_PER_ASSET
    requires var pushes := BlockPushes(a, key, entries, first, end, push);
      |pushes| <= |destinations| && destinations[..|pushes|] == Destinations(pushes)
    ensures var front := BlockPushes(a, key, entries, first, end - 1, push);
      && |front| <= |destinations| && destinations[..|front|] == Destinations(front)
      && (end - 1 in push ==> |front| < |destinations| && destinations[|front|] == Canonical(a, entries[end - 1]))
  {
    var front := BlockPushes(a, key, entries, first, end - 1, push);
    var pushes := BlockPushes(a, key, entries, first, end, push);
    assert forall j :: 0 <= j < |front| ==> pushes[j] == front[j];
    assert forall j :: 0 <= j < |pushes| ==> destinations[..|pushes|][j] == destinations[j];
    if end - 1 in push {
      assert Destinations(pushes)[|front|] == destinations[|front|];
    }
  }

  lemma {:induction false} PlanAppends(c: Chain, key: Key, destinations: seq<Key>, firstLeaf: u32,
                                       front: seq<BlockLeaf>, plan: Plan, leaf: BlockLeaf)
    requires key in c.assets && firstLeaf + |front| + 1 < 0x1_0000_0000
    requires PlanBlock(c, key, destinations, firstLeaf, front) == Ok(plan)
    ensures PlanBlock(c, key, destinations, firstLeaf, front + [leaf])
         == PlanLeaf(c, key, destinations, plan, firstLeaf + |front|, leaf)
  {
    hide PlanLeaf;
    assert (front + [leaf])[..|front|] == front;
  }

  lemma {:induction false} DigestsAppend(a: RoundAsset, entries: seq<Entry>, first: nat, n: nat)
    requires first <= n < |entries| <= MAX_LEAVES_PER_ASSET
    ensures Digests(a, entries)[first..n + 1]
         == Digests(a, entries)[first..n] + [LeafDigest(a, n, entries[n].recipient, entries[n].amount)]
  {
  }

  lemma {:induction false} LeafPlans(c: Chain, key: Key, entries: seq<Entry>, destinations: seq<Key>, plan: Plan,
                                     i: u32, push: set<nat>)
    requires key in c.assets && i < |entries| && entries[i].amount > 0 && AllReceive(c, key, entries, push)
    requires c.assets[key].vault == Ata(key, c.assets[key].mint, c.assets[key].tokenProgram)
    requires i in push ==> |plan.pushes| < |destinations|
                           && destinations[|plan.pushes|] == Canonical(c.assets[key], entries[i])
    ensures var a, entry := c.assets[key], entries[i];
      var leaf := if i in push then Push(entry.amount) else Skip(entry.recipient, entry.amount);
      PlanLeaf(c, key, destinations, plan, i, leaf)
        == Ok(Plan(plan.hashes + [LeafDigest(a, i, entry.recipient, entry.amount)],
                   if i in push
                     then plan.pushes + [Payout(key, i, entry.recipient, Canonical(a, entry), entry.amount, false)]
                   else plan.pushes))
  {
  }

  // ---- the second loop --------------------------------------------------------------------

  /** Payouts of different committed leaves, in order, each to someone who can take it. */
  ghost predicate Deliverable(c: Chain, key: Key, entries: seq<Entry>, pushes: seq<Payout>)
    requires key in c.assets
  {
    (forall j :: 0 <= j < |pushes| ==>
       var p := pushes[j];
       && p.leafIdx < |entries|
       && CanReceive(c, c.assets[key], key, entries[p.leafIdx].recipient, entries[p.leafIdx].amount)
       && p == Payout(key, p.leafIdx, entries[p.leafIdx].recipient, Canonical(c.assets[key], entries[p.leafIdx]),
                      entries[p.leafIdx].amount, false)
       && PushOk(c, key, p))
    && forall i, j :: 0 <= i < j < |pushes| ==> pushes[i].destination != pushes[j].destination
  }

  ghost predicate PaysInto(pushes: seq<Payout>, account: Key) {
    exists j :: 0 <= j < |pushes| && pushes[j].destination == account
  }

  /** Accounts the payouts do not name keep what they hold. */
  ghost predicate Untouched(c: Chain, d: Chain, key: Key, pushes: seq<Payout>)
    requires key in c.assets
  {
    forall t :: t in c.tokens && t != c.assets[key].vault && !PaysInto(pushes, t) ==>
      t in d.tokens && d.tokens[t] == c.tokens[t]
  }

  lemma {:induction false} PaymentsLand(c: Chain, key: Key, entries: seq<Entry>, pushes: seq<Payout>)
    requires Inv(c) && key in c.assets && c.assets[key].status == Active && Commits(c.assets[key], entries)
    requires c.assets[key].allocation == SumEntries(entries) && Deliverable(c, key, entries, pushes)
    ensures PayAll(c, key, pushes).Ok? && Untouched(c, PayAll(c, key, pushes).value, key, pushes)
    decreases |pushes|
  {
    hide Inv, Pay, Commits, SumEntries, CanReceive, PushOk;
    if pushes != [] {
      var n := |pushes| - 1;
      var front := pushes[..n];
      DeliverableFront(c, key, entries, pushes);
      assert pushes == front + [pushes[n]];
      hide Deliverable;
      PaymentsLand(c, key, entries, front);
      PayAllKeepsInv(c, key, front);
      var d, p := PayAll(c, key, front).value, pushes[n];
      VaultIsApart(c, key, entries, p);
      LastLands(c, d, key, entries, front, p);
    }
  }

  lemma {:induction false} DeliverableFront(c: Chain, key: Key, entries: seq<Entry>, pushes: seq<Payout>)
    requires key in c.assets && Deliverable(c, key, entries, pushes) && pushes != []
    ensures var n := |pushes| - 1; var p := pushes[n];
      && Deliverable(c, key, entries, pushes[..n]) && (forall j :: 0 <= j < n ==> PushOk(c, key, pushes[..n][j]))
      && p.leafIdx < |entries|
      && CanReceive(c, c.assets[key], key, entries[p.leafIdx].recipient, entries[p.leafIdx].amount)
      && p.destination == Canonical(c.assets[key], entries[p.leafIdx])
  {
    hide CanReceive, PushOk;
    assert forall j :: 0 <= j < |pushes| - 1 ==> pushes[..|pushes| - 1][j] == pushes[j];
  }

  lemma {:induction false} VaultIsApart(c: Chain, key: Key, entries: seq<Entry>, p: Payout)
    requires Inv(c) && key in c.assets && p.leafIdx < |entries|
    requires CanReceive(c, c.assets[key], key, entries[p.leafIdx].recipient, entries[p.leafIdx].amount)
    requires p.destination == Canonical(c.assets[key], entries[p.leafIdx])
    ensures p.destination != c.assets[key].vault && p.destination in c.tokens
  {
    hide Inv;
    InvOf(c, key);
  }

  /** One more payment after those in `front`: its destination is as it was. */
  lemma {:induction false} LastLands(c: Chain, d: Chain, key: Key, entries: seq<Entry>, front: seq<Payout>, p: Payout)
    requires Inv(d) && key in c.assets && c.assets[key].status == Active && Commits(c.assets[key], entries)
    requires c.assets[key].allocation == SumEntries(entries) && Deliverable(c, key, entries, front + [p])
    requires SameAsset(c, d, key) && Untouched(c, d, key, front)
    requires p.destination != c.assets[key].vault && p.destination in c.tokens
    ensures PayUnclaimed(d, key, p).Ok? && Untouched(c, PayUnclaimed(d, key, p).value, key, front + [p])
  {
    var all := front + [p];
    assert all[|front|] == p && forall j :: 0 <= j < |front| ==> all[j] == front[j];
    assert !PaysInto(front, p.destination) && d.tokens[p.destination] == c.tokens[p.destination];
    SameCommitment(c, d, key, entries);
    hide Inv, Commits, SumEntries, Deliverable;
    PaymentOrSkip(c, d, key, entries, p);
    UntouchedOn(c, d, key, front, p);
  }

  lemma {:induction false} SameCommitment(c: Chain, d: Chain, key: Key, entries: seq<Entry>)
    requires SameAsset(c, d, key) && Commits(c.assets[key], entries)
    ensures Commits(d.assets[key], entries)
  {
    assert |entries| <= MAX_LEAVES_PER_ASSET ==> Digests(d.assets[key], entries) == Digests(c.assets[key], entries);
  }

  lemma {:induction false} PaymentOrSkip(c: Chain, d: Chain, key: Key, entries: seq<Entry>, p: Payout)
    requires Inv(d) && SameAsset(c, d, key) && d.assets[key].status == Active && Commits(d.assets[key], entries)
    requires d.assets[key].allocation == SumEntries(entries) && p.leafIdx < |entries|
    requires CanReceive(c, c.assets[key], key, entries[p.leafIdx].recipient, entries[p.leafIdx].amount)
    requires p == Payout(key, p.leafIdx, entries[p.leafIdx].recipient, Canonical(c.assets[key], entries[p.leafIdx]),
                         entries[p.leafIdx].amount, false)
    requires p.destination in d.tokens && d.tokens[p.destination] == c.tokens[p.destination]
    ensures PayUnclaimed(d, key, p).Ok?
  {
    hide Inv, Pay, SumEntries;
    BitsMatch(d, key);
    if !IsClaimed(d.assets[key].bitmap, p.leafIdx) {
      PaymentLands(d, key, entries, p.leafIdx, p.recipient);
      PushLeafPays(d.assets[key], key, entries, p);
    }
  }

  lemma {:induction false} PushLeafPays(a: RoundAsset, key: Key, entries: seq<Entry>, p: Payout)
    requires p.leafIdx < |entries| <= MAX_LEAVES_PER_ASSET
    requires p == Payout(key, p.leafIdx, entries[p.leafIdx].recipient, Canonical(a, entries[p.leafIdx]),
                         entries[p.leafIdx].amount, false)
    ensures RequestPayout(PushLeaf(a, key, entries, p.leafIdx, p.recipient)) == p
  {
  }

  lemma {:induction false} UntouchedOn(c: Chain, d: Chain, key: Key, front: seq<Payout>, p: Payout)
    requires SameAsset(c, d, key) && Untouched(c, d, key, front) && PayUnclaimed(d, key, p).Ok? && p.asset == key
    ensures Untouched(c, PayUnclaimed(d, key, p).value, key, front + [p])
  {
    hide Pay;
    var e, all := PayUnclaimed(d, key, p).value, front + [p];
    if e != d {
      PayEffect(d, p);
    }
    forall t | t in c.tokens && t != c.assets[key].vault && !PaysInto(all, t)
      ensures t in e.tokens && e.tokens[t] == c.tokens[t]
    {
      assert all[|front|] == p && forall j :: 0 <= j < |front| ==> all[j] == front[j];
      assert !PaysInto(front, t) && t in d.tokens && d.tokens[t] == c.tokens[t];
    }
  }

  // ---- the whole instruction -----------------------------------------------------------------

  lemma {:induction false} PushesDeliver(c: Chain, key: Key, entries: seq<Entry>, first: nat, end: nat, push: set<nat>)
    requires Inv(c) && key in c.assets && Commits(c.assets[key], entries) && Distinct(entries)
    requires first <= end <= |entries| && AllReceive(c, key, entries, push)
    ensures |entries| <= MAX_LEAVES_PER_ASSET
    ensures Deliverable(c, key, entries, BlockPushes(c.assets[key], key, entries, first, end, push))
  {
    hide Inv, Merkle.RootOf;
    var a := c.assets[key];
    var pushes := BlockPushes(a, key, entries, first, end, push);
    PushesHold(a, key, entries, first, end, push);
    hide BlockPushes, CanReceive;
    forall j | 0 <= j < |pushes|
      ensures PushOk(c, key, pushes[j])
      ensures CanReceive(c, a, key, entries[pushes[j].leafIdx].recipient, entries[pushes[j].leafIdx].amount)
    {
      assert Asked(a, key, entries, first, end, push, pushes[j]);
      VaultIsApart(c, key, entries, pushes[j]);
      LeafIsWithin(a, entries, pushes[j].leafIdx);
    }
  }

  lemma {:induction false} LeafIsWithin(a: RoundAsset, entries: seq<Entry>, i: u32)
    requires Commits(a, entries) && i < |entries|
    ensures i < a.leafCount
    ensures Merkle.Within(LeafDigest(a, i, entries[i].recipient, entries[i].amount), a.merkleRoot)
  {
    Merkle.LeafWithinRoot(Digests(a, entries), i, LeafDigest(a, i, entries[i].recipient, entries[i].amount));
  }

  /** The block is the tree's own and proves against the root. */
  lemma {:induction false} BlockProves(a: RoundAsset, entries: seq<Entry>, first: nat, level: nat)
    requires Commits(a, entries) && first < |entries| && level <= MAX_BLOCK_LEVEL && Merkle.Aligned(first, level)
    ensures var end, proof := BlockEnd(entries, first, level), Merkle.BlockSiblings(Digests(a, entries), first, level);
      && first < end <= |entries| && Merkle.IsBlock(end - first, first, level, a.leafCount)
      && Merkle.BlockVerifies(Digests(a, entries)[first..end], first, level, a.leafCount, proof, a.merkleRoot)
      && |proof| <= Merkle.MAX_PROOF_LEN
  {
    var digests := Digests(a, entries);
    MerkleTheorems.BlockComplete(digests, first, level);
    MerkleTheorems.BlockSiblingsFit(digests, first, level);
    assert Merkle.Block(digests, first, level) == digests[first..BlockEnd(entries, first, level)];
  }

  /** In every reachable state before expiry, whatever was paid before, and whichever of its leaves are asked for: the
      keeper's block of an active asset is accepted, and each leaf asked for is claimed after it. */
  lemma {:induction false} BlockPays(c: Chain, key: Key, entries: seq<Entry>, first: u32, level: nat, push: set<nat>,
                                     payer: Key)
    requires Inv(c) && Live(c, key, entries) && first < |entries| <= MAX_LEAVES_PER_ASSET
    requires level <= MAX_BLOCK_LEVEL && Merkle.Aligned(first, level) && AllReceive(c, key, entries, push)
    ensures var after := PushPayouts(c, PushBlock(c.assets[key], key, entries, first, level, push, payer));
      && after.Ok? && key in after.value.assets
      && forall i: nat :: first <= i < BlockEnd(entries, first, level) && i in push ==>
           i / 8 < |after.value.assets[key].bitmap| && IsClaimed(after.value.assets[key].bitmap, i)
  {
    hide Inv, Commits, SumEntries, AllReceive, PayAll, PlanBlock, Merkle.BlockVerifies, Merkle.BlockSiblings,
      Merkle.IsBlock,
      BlockPushes, BlockLeaves, Deliverable;
    var a, end := c.assets[key], BlockEnd(entries, first, level);
    var pushes := BlockPushes(a, key, entries, first, end, push);
    InvOf(c, key);
    AssetPlaced(c, key);
    BlockProves(a, entries, first, level);
    assert Destinations(pushes)[..|pushes|] == Destinations(pushes);
    BlockPlans(c, key, entries, first, end, push, Destinations(pushes));
    PushesDeliver(c, key, entries, first, end, push);
    PaymentsLand(c, key, entries, pushes);
    PushesHold(a, key, entries, first, end, push);
    PayoutTheorems.PayAllClaims(c, key, pushes);
    forall i: nat | first <= i < end && i in push
      ensures Covered(pushes, i)
    {
      PushesCover(a, key, entries, first, end, push, i);
    }
    AskedAreClaimed(PayAll(c, key, pushes).value, key, pushes, first, end, push);
  }

  lemma {:induction false} AskedAreClaimed(c: Chain, key: Key, pushes: seq<Payout>, first: nat, end: nat,
                                           push: set<nat>)
    requires key in c.assets && PayoutTheorems.AllClaimed(c, key, pushes)
    requires forall i: nat :: first <= i < end && i in push ==> Covered(pushes, i)
    ensures forall i: nat :: first <= i < end && i in push ==>
              i / 8 < |c.assets[key].bitmap| && IsClaimed(c.assets[key].bitmap, i)
  {
    forall i: nat | first <= i < end && i in push
      ensures i / 8 < |c.assets[key].bitmap| && IsClaimed(c.assets[key].bitmap, i)
    {
      assert Covered(pushes, i);
    }
  }

  // ---- an allocation's blocks ------------------------------------------------------------------

  lemma {:induction false} TreeIsDistinct(distributor: Key, roundId: u64, i: nat, share: Allocation.Share,
                                          tree: AssetTree)
    requires TreeOf(distributor, roundId, i, share, tree) && Allocation.PaysOnce(share.leaves)
    ensures Distinct(tree.entries) && forall k :: 0 <= k < |tree.entries| ==> tree.entries[k].amount > 0
  {
  }

  lemma {:induction false} TreesAreDistinct(header: RoundHeader, allocation: Holders.RoundAllocation,
                                            params: Allocation.Params, i: nat)
    requires EndToEnd.Payable(allocation, params) && i < |TreesOf(header, allocation)|
    ensures var entries := TreesOf(header, allocation)[i].entries;
      Distinct(entries) && forall k :: 0 <= k < |entries| ==> entries[k].amount > 0
  {
    hide TreeOf, Allocation.ValidParams, BuildAssets;
    AllocationBuilds(header.distributor, header.roundId, allocation, params);
    TreeIsDistinct(header.distributor, header.roundId, i, allocation.assets[i].share, TreesOf(header, allocation)[i]);
  }

  /** After any run, any aligned block of a committed allocation, asking for whichever leaves can be received, is
      accepted and pays them: whatever was paid before, alone or in other blocks, and by whomever. */
  lemma {:induction false} AllocationBlockPays(start: Chain, actions: seq<Action>, round: Key,
      allocation: Holders.RoundAllocation, params: Allocation.Params, i: nat, first: u32, level: nat, push: set<nat>,
      payer: Key)
    requires Start(start) && FairRun(start, actions) && CommittedWith(Run(start, actions), round, allocation, params)
    requires var (c, key) := (Run(start, actions), AssetKey(round, i));
      var trees := TreesOf(c.rounds[round], allocation);
      && key in c.assets && c.assets[key].status == Active && c.now < c.rounds[round].expiryTs
      && i < |trees| && first < |trees[i].entries| <= MAX_LEAVES_PER_ASSET
      && AllReceive(c, key, trees[i].entries, push)
    requires level <= MAX_BLOCK_LEVEL && Merkle.Aligned(first, level)
    ensures var c := Run(start, actions); var key := AssetKey(round, i);
      var entries := TreesOf(c.rounds[round], allocation)[i].entries;
      var after := PushPayouts(c, PushBlock(c.assets[key], key, entries, first, level, push, payer));
      && after.Ok? && key in after.value.assets
      && forall k: nat :: first <= k < BlockEnd(entries, first, level) && k in push ==>
           k / 8 < |after.value.assets[key].bitmap| && IsClaimed(after.value.assets[key].bitmap, k)
  {
    hide EndToEnd.Payable, CommitsTo, Commits, Inv, TreesOf, Run, SumEntries, AllReceive, PushPayouts, PushBlock,
      Distinct,
      Merkle.Aligned;
    var c := Run(start, actions);
    ReachableInv(start, actions);
    AllocationCommits(c, round, allocation, params);
    var trees, key := TreesOf(c.rounds[round], allocation), AssetKey(round, i);
    LiveAsCommitted(c, round, trees, key);
    TreesAreDistinct(c.rounds[round], allocation, params, i);
    BlockPays(c, key, trees[i].entries, first, level, push, payer);
  }

  // ---- the paying step's blocks ----------------------------------------------------------------

  ghost function LeavesOf(v: PushPhase.Visit): set<nat> {
    set leaf | leaf in v.leaves
  }

  /** Every transaction a paying step sends for a live asset whose recipients can be paid is accepted by the program,
      and pays all it was sent to pay. */
  lemma {:induction false} VisitPays(c: Chain, key: Key, entries: seq<Entry>, s: PushPhase.Standing, v: PushPhase.Visit,
                                     views: seq<PushPhase.AssetView>, payer: Key)
    requires Inv(c) && Live(c, key, entries) && |entries| <= MAX_LEAVES_PER_ASSET
    requires PushProgress.VisitOk(s, v, views) && AllReceive(c, key, entries, LeavesOf(v))
    requires forall j :: 0 <= j < |views| && views[j].asset == v.asset ==>
        views[j].leaves == Digests(c.assets[key], entries)
    ensures v.first < |entries| && v.leaves != []
    ensures var after := PushPayouts(c, PushBlock(c.assets[key], key, entries, v.first, v.level, LeavesOf(v), payer));
      && after.Ok? && key in after.value.assets
      && forall leaf :: leaf in v.leaves ==>
           leaf / 8 < |after.value.assets[key].bitmap| && IsClaimed(after.value.assets[key].bitmap, leaf)
  {
    hide Inv, Live, AllReceive, PushPayouts, PushBlock, PushProgress.Passes, Merkle.Aligned;
    var j :| 0 <= j < |views| && views[j].asset == v.asset && PushProgress.Sendable(v, views[j]);
    LiveHasAsset(c, key, entries);
    BlockPays(c, key, entries, v.first, v.level, LeavesOf(v), payer);
    forall leaf | leaf in v.leaves
      ensures leaf in LeavesOf(v) && v.first <= leaf < BlockEnd(entries, v.first, v.level)
    {
    }
  }

  lemma {:induction false} LiveHasAsset(c: Chain, key: Key, entries: seq<Entry>)
    requires Live(c, key, entries)
    ensures key in c.assets
  {
  }
}
