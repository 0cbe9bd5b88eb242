/** From an allocation to the chain: keeper/round/trees.ts, and what the program then accepts. */
module EndToEnd {
  import opened Terms
  import opened Bits
  import opened Distributor
  import opened PayoutSafety
  import opened Committed
  import Allocation
  import Holders
  import Merkle

  datatype AssetTree = AssetTree(
    assetIdx: nat, mint: Key, tokenProgram: Key, merkleRoot: Digest, total: u64, leafCount: u32, entries: seq<Entry>)

  datatype Trees = Trees(assetsRoot: Digest, assets: seq<AssetTree>)

  /** Each leaf sits at its own index and its amount fits the field it is hashed in. */
  predicate Hashable(leaves: seq<Allocation.Leaf>) {
    1 <= |leaves| < 0x1_0000_0000
    && forall k :: 0 <= k < |leaves| ==> leaves[k].leafIdx == k && leaves[k].amount <= U64_MAX
  }

  function Entries(leaves: seq<Allocation.Leaf>): (entries: seq<Entry>)
    requires Hashable(leaves)
    ensures |entries| == |leaves|
  {
    seq(|leaves|, k requires 0 <= k < |leaves| => Entry(Address(leaves[k].recipient), leaves[k].amount))
  }

  function LeafDigests(distributor: Key, roundId: u64, assetIdx: nat, entries: seq<Entry>): (digests: seq<Digest>)
    requires |entries| < 0x1_0000_0000
    ensures |digests| == |entries|
  {
    seq(|entries|, k requires 0 <= k < |entries| =>
      PayoutLeaf(distributor, roundId, assetIdx, k, entries[k].recipient, entries[k].amount))
  }

  function TreeLeaf(distributor: Key, roundId: u64, tree: AssetTree): Digest {
    AssetLeaf(distributor, roundId, tree.assetIdx, tree.mint, tree.tokenProgram, tree.merkleRoot, tree.total,
              tree.leafCount)
  }

  function TreeLeaves(distributor: Key, roundId: u64, trees: seq<AssetTree>): (leaves: seq<Digest>)
    ensures |leaves| == |trees|
  {
    seq(|trees|, i requires 0 <= i < |trees| => TreeLeaf(distributor, roundId, trees[i]))
  }

  /** None where the source throws. */
  function BuildAsset(distributor: Key, roundId: u64, i: nat, asset: Holders.AssetAllocation): Option<AssetTree> {
    if asset.assetIdx != i || i > 255 || !Hashable(asset.share.leaves) || asset.share.handedOut > U64_MAX then None
    else
      var entries := Entries(asset.share.leaves);
      Some(AssetTree(i, asset.share.mint, asset.share.tokenProgram,
        Merkle.RootOf(LeafDigests(distributor, roundId, i, entries)), asset.share.handedOut, |entries|, entries))
  }

  function BuildAssets(distributor: Key, roundId: u64,
                       assets: seq<Holders.AssetAllocation>): (trees: Option<seq<AssetTree>>)
    ensures trees.Some? ==> |trees.value| == |assets|
    decreases |assets|
  {
    if assets == [] then Some([])
    else
      var n := |assets| - 1;
      var front, last := BuildAssets(distributor, roundId, assets[..n]), BuildAsset(distributor, roundId, n, assets[n]);
      if front.None? || last.None? then None else Some(front.value + [last.value])
  }

  /** A round with nothing to pay gets the all-zero root, which is nobody's digest. */
  const ZERO_ROOT := Bytes(0)

  function BuildTrees(distributor: Key, roundId: u64, assets: seq<Holders.AssetAllocation>): Option<Trees> {
    var trees := BuildAssets(distributor, roundId, assets);
    if trees.None? then None
    else if trees.value == [] then Some(Trees(ZERO_ROOT, []))
    else Some(Trees(Merkle.RootOf(TreeLeaves(distributor, roundId, trees.value)), trees.value))
  }

  // ---- every allocation builds ---------------------------------------------------------------

  ghost predicate FitsU64(round: Holders.RoundAllocation) {
    forall i :: 0 <= i < |round.assets| ==> round.assets[i].share.allocatable <= U64_MAX
  }

  /** What the trees hold of an asset. */
  ghost predicate TreeOf(distributor: Key, roundId: u64, i: nat, share: Allocation.Share, tree: AssetTree) {
    tree.assetIdx == i && tree.mint == share.mint && tree.tokenProgram == share.tokenProgram
    && tree.leafCount == |tree.entries| == |share.leaves| && 1 <= tree.leafCount <= MAX_LEAVES_PER_ASSET
    && tree.merkleRoot == Merkle.RootOf(LeafDigests(distributor, roundId, i, tree.entries))
    && tree.total == SumEntries(tree.entries) == share.allocatable > 0
    && forall k :: 0 <= k < |tree.entries| ==>
         tree.entries[k].recipient == Address(share.leaves[k].recipient)
         && tree.entries[k].amount == share.leaves[k].amount > 0
  }

  lemma {:induction false} AllocatedPart(leaves: seq<Allocation.Leaf>, k: nat)
    requires k < |leaves|
    ensures leaves[k].amount <= Allocation.Allocated(leaves)
    decreases |leaves|
  {
    if k < |leaves| - 1 {
      AllocatedPart(leaves[..|leaves| - 1], k);
    }
  }

  lemma {:induction false} EntriesSum(leaves: seq<Allocation.Leaf>)
    requires Hashable(leaves)
    ensures SumEntries(Entries(leaves)) == Allocation.Allocated(leaves)
    decreases |leaves|
  {
    var n := |leaves| - 1;
    assert Allocation.Allocated(leaves[..0]) == 0 && SumEntries([]) == 0;
    if n > 0 {
      EntriesSum(leaves[..n]);
      assert Entries(leaves)[..n] == Entries(leaves[..n]);
    } else {
      assert Entries(leaves)[..n] == [];
    }
  }

  lemma {:induction false} AssetBuilds(distributor: Key, roundId: u64, i: nat, asset: Holders.AssetAllocation,
                                       params: Allocation.Params)
    requires asset.assetIdx == i < 30 && Allocation.InFull(asset.share, params) && Allocation.ValidParams(params)
    requires asset.share.allocatable <= U64_MAX
    ensures BuildAsset(distributor, roundId, i, asset).Some?
    ensures TreeOf(distributor, roundId, i, asset.share, BuildAsset(distributor, roundId, i, asset).value)
  {
    var leaves := asset.share.leaves;
    forall k | 0 <= k < |leaves|
      ensures leaves[k].leafIdx == k && leaves[k].amount <= U64_MAX
    {
      AllocatedPart(leaves, k);
    }
    assert Hashable(leaves);
    EntriesSum(leaves);
  }

  lemma {:induction false} AssetsBuild(distributor: Key, roundId: u64, assets: seq<Holders.AssetAllocation>,
                                       params: Allocation.Params)
    requires Allocation.ValidParams(params) && |assets| <= 30
    requires forall i :: 0 <= i < |assets| ==> assets[i].assetIdx == i && Allocation.InFull(assets[i].share, params)
                                               && assets[i].share.allocatable <= U64_MAX
    ensures BuildAssets(distributor, roundId, assets).Some?
    ensures forall i :: 0 <= i < |assets| ==>
      TreeOf(distributor, roundId, i, assets[i].share, BuildAssets(distributor, roundId, assets).value[i])
    decreases |assets|
  {
    hide BuildAsset, TreeOf, Allocation.InFull, Allocation.ValidParams;
    if assets != [] {
      var n := |assets| - 1;
      AssetsBuild(distributor, roundId, assets[..n], params);
      AssetBuilds(distributor, roundId, n, assets[n], params);
    }
  }

  /** What every allocation promises, with amounts a token account can hold. */
  ghost predicate Payable(round: Holders.RoundAllocation, params: Allocation.Params) {
    Allocation.ValidParams(params) && Holders.PaysOut(round, params) && |round.assets| <= MAX_ASSETS_PER_ROUND
    && FitsU64(round)
  }

  /** Whatever `allocate` returns is payable. */
  lemma {:induction false} AllocationIsPayable(input: Holders.Input)
    requires Holders.Allocate(input).Ok? && FitsU64(Holders.Allocate(input).value)
    ensures Payable(Holders.Allocate(input).value, input.params)
  {
    hide Holders.PaysOut, FitsU64;
    Holders.AllocationPaysOut(input);
  }

  /** It can be built, and the trees hold exactly its leaves. */
  lemma {:induction false} AllocationBuilds(distributor: Key, roundId: u64, round: Holders.RoundAllocation,
                                            params: Allocation.Params)
    requires Payable(round, params)
    ensures var trees := BuildTrees(distributor, roundId, round.assets);
      trees.Some? && |trees.value.assets| == |round.assets| <= MAX_ASSETS_PER_ROUND
      && forall i :: 0 <= i < |round.assets| ==>
           TreeOf(distributor, roundId, i, round.assets[i].share, trees.value.assets[i])
  {
    hide TreeOf, Allocation.InFull, Allocation.ValidParams;
    AssetsBuild(distributor, roundId, round.assets, params);
  }

  // ---- opening -----------------------------------------------------------------------------------

  /** The header commits to these trees. */
  ghost predicate CommitsTo(c: Chain, round: Key, trees: seq<AssetTree>) {
    round in c.rounds && trees != [] && |trees| == c.rounds[round].assetCount <= MAX_ASSETS_PER_ROUND
    && c.rounds[round].assetsRoot
       == Merkle.RootOf(TreeLeaves(c.rounds[round].distributor, c.rounds[round].roundId, trees))
    && forall i :: 0 <= i < |trees| ==> Sound(c.rounds[round], i, trees[i])
  }

  ghost predicate Sound(header: RoundHeader, i: nat, tree: AssetTree) {
    tree.assetIdx == i && tree.leafCount == |tree.entries| && 1 <= tree.leafCount <= MAX_LEAVES_PER_ASSET
    && tree.merkleRoot == Merkle.RootOf(LeafDigests(header.distributor, header.roundId, i, tree.entries))
    && tree.total == SumEntries(tree.entries) > 0
    && forall k :: 0 <= k < |tree.entries| ==> tree.entries[k].amount > 0
  }

  function OpenTree(header: RoundHeader, trees: seq<AssetTree>, i: nat): OpenParams
    requires i < |trees|
  {
    var tree := trees[i];
    OpenParams(i, tree.merkleRoot, tree.total, tree.leafCount,
      Merkle.Siblings(TreeLeaves(header.distributor, header.roundId, trees), i), tree.mint, tree.tokenProgram, true)
  }

  /** Before expiry an unopened asset of the round opens with its own proof, in whatever order the assets are opened. */
  lemma {:induction false} OpenPasses(c: Chain, round: Key, trees: seq<AssetTree>, i: nat)
    requires CommitsTo(c, round, trees) && i < |trees| && c.now < c.rounds[round].expiryTs
    requires !HasBit(c.rounds[round].openedMask, i)
    ensures var p := OpenTree(c.rounds[round], trees, i);
      Open(c, round, Ata(AssetKey(round, i), p.mint, p.tokenProgram), p).Ok?
  {
    hide Initialise, HasBit;
    var header := c.rounds[round];
    var leaves := TreeLeaves(header.distributor, header.roundId, trees);
    assert Sound(header, i, trees[i]);
    Merkle.SiblingsFit(leaves, i);
    Merkle.FoldComplete(leaves, i);
    assert leaves[i] == TupleDigest(NewAsset(header, round, OpenTree(header, trees, i)));
  }

  // ---- paying ---------------------------------------------------------------------------------------

  lemma {:induction false} TreeLeavesAreLeaves(distributor: Key, roundId: u64, trees: seq<AssetTree>)
    ensures Merkle.Leaves(TreeLeaves(distributor, roundId, trees))
  {
  }

  /** Whoever opened it and whatever happened since, an asset was opened as the committed one. */
  lemma {:induction false} OpenedAsCommitted(c: Chain, round: Key, trees: seq<AssetTree>, key: Key)
    requires Inv(c) && CommitsTo(c, round, trees) && key in c.openings && key.AssetKey? && key.round == round
    ensures key.assetIdx < |trees| && Commits(c.openings[key], trees[key.assetIdx].entries)
    ensures c.openings[key].allocation == trees[key.assetIdx].total == SumEntries(trees[key.assetIdx].entries)
    ensures c.openings[key].mint == trees[key.assetIdx].mint
    ensures c.openings[key].tokenProgram == trees[key.assetIdx].tokenProgram
  {
    hide Inv, Merkle.RootOf;
    InvRecord(c, key);
    var header, a := c.rounds[round], c.openings[key];
    TreeLeavesAreLeaves(header.distributor, header.roundId, trees);
    Merkle.RootHoldsLeaf(TreeLeaves(header.distributor, header.roundId, trees), TupleDigest(a));
    assert Sound(header, key.assetIdx, trees[key.assetIdx]);
    assert Digests(a, trees[key.assetIdx].entries)
        == LeafDigests(header.distributor, header.roundId, key.assetIdx, trees[key.assetIdx].entries);
  }

  /** And it still is that one for as long as its account is there. */
  lemma {:induction false} LiveAsCommitted(c: Chain, round: Key, trees: seq<AssetTree>, key: Key)
    requires Inv(c) && CommitsTo(c, round, trees) && key in c.assets && key.AssetKey? && key.round == round
    ensures key in c.openings && key.assetIdx < |trees| && Commits(c.assets[key], trees[key.assetIdx].entries)
    ensures c.assets[key].allocation == trees[key.assetIdx].total == SumEntries(trees[key.assetIdx].entries)
    ensures c.assets[key].mint == trees[key.assetIdx].mint
    ensures c.assets[key].tokenProgram == trees[key.assetIdx].tokenProgram
  {
    hide Inv, CommitsTo, AssetInv, SumEntries;
    InvOf(c, key);
    OpenedAsCommitted(c, round, trees, key);
    var entries := trees[key.assetIdx].entries;
    assert |entries| <= MAX_LEAVES_PER_ASSET ==> Digests(c.openings[key], entries) == Digests(c.assets[key], entries);
  }

  function PushLeaf(a: RoundAsset, key: Key, entries: seq<Entry>, i: nat, payer: Key): PayoutRequest
    requires i < |entries| <= MAX_LEAVES_PER_ASSET
  {
    PayoutRequest(a.round, key, a.mint, a.vault, a.tokenProgram, entries[i].recipient,
      Ata(entries[i].recipient, a.mint, a.tokenProgram), i, entries[i].amount,
      Merkle.Siblings(Digests(a, entries), i), false, payer)
  }

  /** The recipient's canonical account exists, is theirs and can take the payment. */
  ghost predicate CanReceive(c: Chain, a: RoundAsset, key: Key, recipient: Key, amount: u64) {
    var destination := Ata(recipient, a.mint, a.tokenProgram);
    Holds(c, destination, a.tokenProgram) && c.tokens[destination].mint == a.mint
    && c.tokens[destination].owner == recipient
    && c.tokens[destination].accepting && c.tokens[destination].amount + amount <= U64_MAX && recipient != key
  }

  lemma {:induction false} LeafProofPasses(a: RoundAsset, entries: seq<Entry>, i: nat)
    requires Commits(a, entries) && i < |entries|
    ensures |Merkle.Siblings(Digests(a, entries), i)| <= Merkle.MAX_PROOF_LEN
    ensures Merkle.Verify(Merkle.Siblings(Digests(a, entries), i), a.merkleRoot,
                          LeafDigest(a, i, entries[i].recipient, entries[i].amount))
  {
    Merkle.SiblingsFit(Digests(a, entries), i);
    Merkle.FoldComplete(Digests(a, entries), i);
  }

  /** In every reachable state before expiry, any leaf of an active asset that is not yet paid passes every check and
      is paid: the order of payment never makes a leaf exceed the allocation or the vault. */
  lemma {:induction false} LeafPays(c: Chain, key: Key, entries: seq<Entry>, i: nat, payer: Key)
    requires Inv(c) && key in c.assets && Commits(c.assets[key], entries) && i < |entries|
    requires c.assets[key].allocation == SumEntries(entries) && entries[i].amount > 0
    requires c.assets[key].status == Active && key.AssetKey? && key.round in c.rounds
    requires c.now < c.rounds[key.round].expiryTs
    requires |c.assets[key].bitmap| == BitmapLen(c.assets[key].leafCount) && !IsClaimed(c.assets[key].bitmap, i)
    requires CanReceive(c, c.assets[key], key, entries[i].recipient, entries[i].amount)
    ensures PayoutRefusal(c, PushLeaf(c.assets[key], key, entries, i, payer)).None?
  {
    hide Inv, Merkle.Verify, Merkle.Siblings, IsClaimed, SumEntries, SumOver, ClaimedLeaves;
    var a := c.assets[key];
    LeafProofPasses(a, entries, i);
    ClaimedIsSetBits(c, key, entries);
    InvOf(c, key);
    AssetPlaced(c, key);
  }

  lemma {:induction false} PaymentLands(c: Chain, key: Key, entries: seq<Entry>, i: nat, payer: Key)
    requires Inv(c) && key in c.assets && Commits(c.assets[key], entries) && i < |entries|
    requires c.assets[key].allocation == SumEntries(entries) && c.assets[key].status == Active
    requires |c.assets[key].bitmap| == BitmapLen(c.assets[key].leafCount) && !IsClaimed(c.assets[key].bitmap, i)
    requires CanReceive(c, c.assets[key], key, entries[i].recipient, entries[i].amount)
    ensures Pay(c, key, RequestPayout(PushLeaf(c.assets[key], key, entries, i, payer))).Ok?
  {
    hide Inv, Merkle.Siblings, IsClaimed, SetClaimed, SumEntries, SumOver, ClaimedLeaves;
    var a := c.assets[key];
    ClaimedIsSetBits(c, key, entries);
    InvOf(c, key);
    VaultTokens(c, key);
  }

  lemma {:induction false} VaultTokens(c: Chain, key: Key)
    requires Inv(c) && key in c.assets
    ensures key.AssetKey? && c.assets[key].vault in c.tokens && c.tokens[c.assets[key].vault].mint == c.assets[key].mint
    ensures c.tokens[c.assets[key].vault].owner == key
  {
    hide Proved, RoundsNamed, PaidOnce, BitmapMatches;
    assert AssetInv(c, key);
  }

  // ---- a round, from its allocation on -----------------------------------------------------------------

  ghost function TreesOf(header: RoundHeader, allocation: Holders.RoundAllocation): seq<AssetTree> {
    match BuildTrees(header.distributor, header.roundId, allocation.assets)
    case Some(trees) => trees.assets
    case None => []
  }

  /** The header was committed with the trees of this allocation. */
  ghost predicate CommittedWith(c: Chain, round: Key, allocation: Holders.RoundAllocation, params: Allocation.Params) {
    round in c.rounds && Payable(allocation, params) && allocation.assets != []
    && var header := c.rounds[round];
       var trees := BuildTrees(header.distributor, header.roundId, allocation.assets);
       trees.Some? && header.assetsRoot == trees.value.assetsRoot && header.assetCount == |trees.value.assets|
  }

  lemma {:induction false} TreeIsSound(header: RoundHeader, i: nat, share: Allocation.Share, tree: AssetTree)
    requires TreeOf(header.distributor, header.roundId, i, share, tree)
    ensures Sound(header, i, tree)
  {
  }

  lemma {:induction false} AllocationCommits(c: Chain, round: Key, allocation: Holders.RoundAllocation,
                                             params: Allocation.Params)
    requires CommittedWith(c, round, allocation, params)
    ensures CommitsTo(c, round, TreesOf(c.rounds[round], allocation))
  {
    hide Payable, TreeOf, Sound, BuildAssets, TreeLeaves;
    var header, assets := c.rounds[round], allocation.assets;
    AllocationBuilds(header.distributor, header.roundId, allocation, params);
    var trees := TreesOf(header, allocation);
    forall i | 0 <= i < |trees|
      ensures Sound(header, i, trees[i])
    {
      TreeIsSound(header, i, assets[i].share, trees[i]);
    }
  }

  /** An allocation committed on chain can be opened, asset by asset and in any order, until it expires. */
  lemma {:induction false} AllocationOpens(c: Chain, round: Key, allocation: Holders.RoundAllocation,
                                           params: Allocation.Params, i: nat)
    requires CommittedWith(c, round, allocation, params) && i < |TreesOf(c.rounds[round], allocation)|
    requires c.now < c.rounds[round].expiryTs && i < MAX_ASSETS_PER_ROUND && !HasBit(c.rounds[round].openedMask, i)
    ensures var p := OpenTree(c.rounds[round], TreesOf(c.rounds[round], allocation), i);
      Open(c, round, Ata(AssetKey(round, i), p.mint, p.tokenProgram), p).Ok?
  {
    hide CommitsTo, OpenTree, Open, TreesOf, Payable;
    AllocationCommits(c, round, allocation, params);
    OpenPasses(c, round, TreesOf(c.rounds[round], allocation), i);
  }

  /** After any run, whatever was ever paid from the round's assets, live or closed, are leaves of the allocation, each
      paid once to its recipient: per asset the sum of the leaves paid, and never more than was allocated. */
  lemma {:induction false} AllocationPays(start: Chain, actions: seq<Action>, round: Key,
                                          allocation: Holders.RoundAllocation,
                                         params: Allocation.Params, i: nat)
    requires Start(start) && FairRun(start, actions) && CommittedWith(Run(start, actions), round, allocation, params)
    ensures var (c, key) := (Run(start, actions), AssetKey(round, i));
      var trees := TreesOf(c.rounds[round], allocation);
      && PaidOnce(c.paid)
      && (i >= |trees| ==> forall p :: p in c.paid ==> p.asset != key)
      && (i < |trees| ==>
            AsCommitted(c.paid, key, trees[i].entries)
            && SumPaid(c.paid, key) == SumOver(trees[i].entries, PaidLeaves(c.paid, key))
            && SumPaid(c.paid, key) <= SumEntries(trees[i].entries))
  {
    hide Payable, CommitsTo, Commits, Inv, TreesOf, Run, SumEntries, SumOver, SumPaid, AsCommitted, PaidLeaves;
    var c := Run(start, actions);
    ReachableInv(start, actions);
    AllocationCommits(c, round, allocation, params);
    var trees, key := TreesOf(c.rounds[round], allocation), AssetKey(round, i);
    InvParts(c);
    if key in c.openings {
      OpenedAsCommitted(c, round, trees, key);
    } else {
      UnopenedUnpaid(c, key);
    }
    if i < |trees| {
      PaidAsCommitted(c, key, trees[i].entries);
    }
  }

  lemma {:induction false} UnopenedUnpaid(c: Chain, key: Key)
    requires Inv(c) && key !in c.openings
    ensures forall p :: p in c.paid ==> p.asset != key
  {
    hide AssetInv, Recorded, RoundsNamed, VaultsPinned, PaidOnce;
    forall p | p in c.paid
      ensures p.asset != key
    {
      var i :| 0 <= i < |c.paid| && c.paid[i] == p;
      assert Proved(c, c.paid[i]);
    }
  }

  /** And while the asset's account is there its bits say which: `claimed` is the sum of the leaves whose bits are set,
      and with every bit set it is the whole allocation. */
  lemma {:induction false} AllocationClaims(start: Chain, actions: seq<Action>, round: Key,
                                            allocation: Holders.RoundAllocation,
                                           params: Allocation.Params, key: Key)
    requires Start(start) && FairRun(start, actions) && CommittedWith(Run(start, actions), round, allocation, params)
    requires key in Run(start, actions).assets && key.AssetKey? && key.round == round
    ensures var c := Run(start, actions); var a := c.assets[key]; var trees := TreesOf(c.rounds[round], allocation);
      key.assetIdx < |trees|
      && var entries := trees[key.assetIdx].entries;
         Commits(a, entries) && |a.bitmap| == BitmapLen(a.leafCount) && ClaimedLeaves(a) == PaidLeaves(c.paid, key)
         && a.claimed == SumOver(entries, ClaimedLeaves(a)) && a.allocation == SumEntries(entries)
         && ((forall i: nat :: i < |entries| ==> IsClaimed(a.bitmap, i)) ==> a.claimed == a.allocation)
  {
    hide Payable, CommitsTo, Commits, Inv, TreesOf, Run, SumEntries, SumOver, AsCommitted, PaidLeaves, ClaimedLeaves;
    var c := Run(start, actions);
    ReachableInv(start, actions);
    AllocationCommits(c, round, allocation, params);
    var trees := TreesOf(c.rounds[round], allocation);
    LiveAsCommitted(c, round, trees, key);
    var entries := trees[key.assetIdx].entries;
    CommitsCount(c.assets[key], entries);
    ClaimedArePaid(c, key, entries);
    ClaimedIsSetBits(c, key, entries);
  }

  lemma {:induction false} CommitsCount(a: RoundAsset, entries: seq<Entry>)
    requires Commits(a, entries)
    ensures |entries| == a.leafCount
  {
  }

  /** What a leaf still needs to be paid: an active asset, time, a clear bit and somewhere to go. */
  ghost predicate Due(c: Chain, round: Key, key: Key, entries: seq<Entry>, i: nat) {
    key in c.assets && key.AssetKey? && key.round == round && round in c.rounds
    && c.assets[key].status == Active && c.now < c.rounds[round].expiryTs
    && i < |entries| <= MAX_LEAVES_PER_ASSET
    && |c.assets[key].bitmap| == BitmapLen(c.assets[key].leafCount) && i / 8 < |c.assets[key].bitmap|
    && !IsClaimed(c.assets[key].bitmap, i)
    && CanReceive(c, c.assets[key], key, entries[i].recipient, entries[i].amount)
  }

  /** And each leaf still unpaid is accepted and paid, whatever was paid before it. */
  lemma {:induction false} AllocationLeafPays(start: Chain, actions: seq<Action>, round: Key,
                                              allocation: Holders.RoundAllocation,
                                             params: Allocation.Params, key: Key, i: nat, payer: Key)
    requires Start(start) && FairRun(start, actions) && CommittedWith(Run(start, actions), round, allocation, params)
    requires var c := Run(start, actions); var trees := TreesOf(c.rounds[round], allocation);
      key.AssetKey? && key.assetIdx < |trees| && Due(c, round, key, trees[key.assetIdx].entries, i)
    ensures var c := Run(start, actions);
      Process(c, PushLeaf(c.assets[key], key, TreesOf(c.rounds[round], allocation)[key.assetIdx].entries, i, payer)).Ok?
  {
    hide Payable, CommitsTo, Commits, Inv, TreesOf, Run, SumEntries, PayoutRefusal, Pay, PushLeaf, CanReceive,
      IsClaimed;
    var c := Run(start, actions);
    ReachableInv(start, actions);
    AllocationCommits(c, round, allocation, params);
    var trees := TreesOf(c.rounds[round], allocation);
    LiveAsCommitted(c, round, trees, key);
    PositiveEntry(c, round, trees, key.assetIdx, i);
    LeafPays(c, key, trees[key.assetIdx].entries, i, payer);
    PaymentLands(c, key, trees[key.assetIdx].entries, i, payer);
    PushLeafAsset(c.assets[key], key, trees[key.assetIdx].entries, i, payer);
  }

  lemma {:induction false} PositiveEntry(c: Chain, round: Key, trees: seq<AssetTree>, j: nat, i: nat)
    requires CommitsTo(c, round, trees) && j < |trees| && i < |trees[j].entries|
    ensures trees[j].entries[i].amount > 0
  {
    assert Sound(c.rounds[round], j, trees[j]);
  }

  lemma {:induction false} PushLeafAsset(a: RoundAsset, key: Key, entries: seq<Entry>, i: nat, payer: Key)
    requires i < |entries| <= MAX_LEAVES_PER_ASSET
    ensures PushLeaf(a, key, entries, i, payer).asset == key
  {
  }
}
