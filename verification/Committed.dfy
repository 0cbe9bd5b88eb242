/** An asset whose root is the tree of a list of leaves: what its claimed total and its payouts then are. */
module Committed {
  import opened Terms
  import opened Bits
  import opened Distributor
  import opened PayoutSafety
  import Merkle

  datatype Entry = Entry(recipient: Key, amount: u64)

  function Digests(a: RoundAsset, entries: seq<Entry>): (digests: seq<Digest>)
    requires |entries| <= MAX_LEAVES_PER_ASSET
    ensures |digests| == |entries|
  {
    seq(|entries|, i requires 0 <= i < |entries| => LeafDigest(a, i, entries[i].recipient, entries[i].amount))
  }

  /** The asset was opened with the tree of these leaves, whatever its allocation. */
  ghost predicate Commits(a: RoundAsset, entries: seq<Entry>) {
    1 <= |entries| <= MAX_LEAVES_PER_ASSET && |entries| == a.leafCount
    && a.merkleRoot == Merkle.RootOf(Digests(a, entries))
  }

  function SumEntries(entries: seq<Entry>): nat
    decreases |entries|
  {
    if entries == [] then 0 else SumEntries(entries[..|entries| - 1]) + entries[|entries| - 1].amount
  }

  /** The sum over the leaves in `which`. */
  function SumOver(entries: seq<Entry>, which: set<nat>): nat
    decreases |entries|
  {
    if entries == [] then 0
    else
      var n := |entries| - 1;
      SumOver(entries[..n], which) + if n in which then entries[n].amount else 0
  }

  function ClaimedLeaves(a: RoundAsset): set<nat>
    requires |a.bitmap| == BitmapLen(a.leafCount)
  {
    set i: nat | i < a.leafCount && IsClaimed(a.bitmap, i)
  }

  ghost function PaidLeaves(paid: seq<Payout>, key: Key): set<nat>
    decreases |paid|
  {
    if paid == [] then {}
    else
      var n := |paid| - 1;
      PaidLeaves(paid[..n], key) + if paid[n].asset == key then {paid[n].leafIdx} else {}
  }

  // ---- sums -------------------------------------------------------------------------------

  lemma {:induction false} SumOverAdds(entries: seq<Entry>, which: set<nat>, i: nat)
    requires i < |entries| && i !in which
    ensures SumOver(entries, which + {i}) == SumOver(entries, which) + entries[i].amount
    decreases |entries|
  {
    var n := |entries| - 1;
    if i < n {
      SumOverAdds(entries[..n], which, i);
    } else {
      SumOverIgnores(entries[..n], which, n);
    }
  }

  lemma {:induction false} SumOverIgnores(entries: seq<Entry>, which: set<nat>, i: nat)
    requires i >= |entries|
    ensures SumOver(entries, which + {i}) == SumOver(entries, which)
    decreases |entries|
  {
    if entries != [] {
      SumOverIgnores(entries[..|entries| - 1], which, i);
    }
  }

  lemma {:induction false} SumOverMost(entries: seq<Entry>, which: set<nat>)
    ensures SumOver(entries, which) <= SumEntries(entries)
    ensures (forall i: nat :: i < |entries| ==> i in which) ==> SumOver(entries, which) == SumEntries(entries)
    decreases |entries|
  {
    if entries != [] {
      SumOverMost(entries[..|entries| - 1], which);
    }
  }

  lemma {:induction false} PaidLeavesHold(paid: seq<Payout>, key: Key, i: nat)
    ensures i in PaidLeaves(paid, key) <==> PaidTo(paid, key, i)
    decreases |paid|
  {
    if paid != [] {
      var n := |paid| - 1;
      PaidLeavesHold(paid[..n], key, i);
      PaidToAppend(paid[..n], paid[n], key, i);
      assert paid == paid[..n] + [paid[n]];
    }
  }

  // ---- payouts against the committed leaves -----------------------------------------------

  ghost predicate AsCommitted(paid: seq<Payout>, key: Key, entries: seq<Entry>) {
    forall i :: 0 <= i < |paid| && paid[i].asset == key ==>
      paid[i].leafIdx < |entries| && paid[i].recipient == entries[paid[i].leafIdx].recipient
      && paid[i].amount == entries[paid[i].leafIdx].amount
  }

  lemma {:induction false} DigestsAreLeaves(a: RoundAsset, entries: seq<Entry>)
    requires |entries| <= MAX_LEAVES_PER_ASSET
    ensures Merkle.Leaves(Digests(a, entries)) && Merkle.Indexed(Digests(a, entries), 0)
  {
  }

  lemma {:induction false} OnlyCommittedLeaf(a: RoundAsset, entries: seq<Entry>, leafIdx: u32, recipient: Key,
                                             amount: u64)
    requires Commits(a, entries) && Merkle.Within(LeafDigest(a, leafIdx, recipient, amount), a.merkleRoot)
    ensures leafIdx < |entries| && entries[leafIdx] == Entry(recipient, amount)
  {
    hide Merkle.RootOf, Merkle.Within;
    DigestsAreLeaves(a, entries);
    Merkle.RootHoldsLeaf(Digests(a, entries), LeafDigest(a, leafIdx, recipient, amount));
  }

  /** In every reachable state each payout of a committed asset is one of its leaves, paid to that leaf's recipient, and
      together they are exactly the leaves paid: while the asset lives and after it is closed. */
  lemma {:induction false} PaidAsCommitted(c: Chain, key: Key, entries: seq<Entry>)
    requires Inv(c) && (key in c.openings ==> Commits(c.openings[key], entries))
    ensures AsCommitted(c.paid, key, entries)
    ensures SumPaid(c.paid, key) == SumOver(entries, PaidLeaves(c.paid, key)) <= SumEntries(entries)
  {
    hide Commits, RoundsNamed, VaultsPinned, PaidOnce, AssetInv, Recorded, SumOver, SumPaid, PaidLeaves, SumEntries;
    forall i | 0 <= i < |c.paid| && c.paid[i].asset == key
      ensures c.paid[i].leafIdx < |entries|
              && entries[c.paid[i].leafIdx] == Entry(c.paid[i].recipient, c.paid[i].amount)
    {
      var p := c.paid[i];
      assert Proved(c, p);
      OnlyCommittedLeaf(c.openings[key], entries, p.leafIdx, p.recipient, p.amount);
    }
    PaidSum(c.paid, key, entries);
    SumOverMost(entries, PaidLeaves(c.paid, key));
  }

  /** A live asset commits to what it was opened with. */
  lemma {:induction false} CommittedSinceOpening(c: Chain, key: Key, entries: seq<Entry>)
    requires Inv(c) && key in c.assets && Commits(c.assets[key], entries)
    ensures key in c.openings && Commits(c.openings[key], entries)
  {
    hide Inv, AssetInv;
    InvOf(c, key);
    assert |entries| <= MAX_LEAVES_PER_ASSET ==> Digests(c.openings[key], entries) == Digests(c.assets[key], entries);
  }

  lemma {:induction false} PaidSum(paid: seq<Payout>, key: Key, entries: seq<Entry>)
    requires AsCommitted(paid, key, entries) && PaidOnce(paid)
    ensures SumPaid(paid, key) == SumOver(entries, PaidLeaves(paid, key))
    decreases |paid|
  {
    if paid == [] {
      SumOverNone(entries);
    } else {
      var n := |paid| - 1;
      PaidSum(paid[..n], key, entries);
      if paid[n].asset == key {
        LastIsNew(paid, key);
        SumOverAdds(entries, PaidLeaves(paid[..n], key), paid[n].leafIdx);
      } else {
        assert PaidLeaves(paid, key) == PaidLeaves(paid[..n], key);
      }
    }
  }

  lemma {:induction false} LastIsNew(paid: seq<Payout>, key: Key)
    requires PaidOnce(paid) && paid != [] && paid[|paid| - 1].asset == key
    ensures paid[|paid| - 1].leafIdx !in PaidLeaves(paid[..|paid| - 1], key)
  {
    var n := |paid| - 1;
    PaidLeavesHold(paid[..n], key, paid[n].leafIdx);
  }

  lemma {:induction false} SumOverNone(entries: seq<Entry>)
    ensures SumOver(entries, {}) == 0
    decreases |entries|
  {
    if entries != [] {
      SumOverNone(entries[..|entries| - 1]);
    }
  }

  lemma {:induction false} ClaimedArePaid(c: Chain, key: Key, entries: seq<Entry>)
    requires Inv(c) && key in c.assets && Commits(c.assets[key], entries)
    ensures |c.assets[key].bitmap| == BitmapLen(c.assets[key].leafCount)
    ensures ClaimedLeaves(c.assets[key]) == PaidLeaves(c.paid, key)
  {
    hide Inv, AssetInv, PaidLeaves, SumPaid, SumOver, SumEntries, PaidTo, AsCommitted;
    CommittedSinceOpening(c, key, entries);
    PaidAsCommitted(c, key, entries);
    BitsMatch(c, key);
    var a := c.assets[key];
    forall i: nat
      ensures i in ClaimedLeaves(a) <==> i in PaidLeaves(c.paid, key)
    {
      PaidLeavesHold(c.paid, key, i);
      if PaidTo(c.paid, key, i) {
        PaidInside(c.paid, key, entries, i);
      }
    }
  }

  lemma {:induction false} BitsMatch(c: Chain, key: Key)
    requires Inv(c) && key in c.assets
    ensures BitmapMatches(c, key)
  {
    hide Inv, Placed, Solvent, BitmapMatches;
    InvOf(c, key);
  }

  lemma {:induction false} PaidInside(paid: seq<Payout>, key: Key, entries: seq<Entry>, leafIdx: nat)
    requires AsCommitted(paid, key, entries) && PaidTo(paid, key, leafIdx)
    ensures leafIdx < |entries|
  {
  }

  /** In every reachable state `claimed` is the sum of the committed amounts whose bits are set, it leaves room
      for every other leaf, and it is the whole of them once every bit is set. */
  lemma {:induction false} ClaimedIsSetBits(c: Chain, key: Key, entries: seq<Entry>)
    requires Inv(c) && key in c.assets && Commits(c.assets[key], entries)
    ensures |c.assets[key].bitmap| == BitmapLen(c.assets[key].leafCount)
    ensures c.assets[key].claimed == SumOver(entries, ClaimedLeaves(c.assets[key])) <= c.assets[key].allocation
    ensures forall i: nat :: i < |entries| && !IsClaimed(c.assets[key].bitmap, i) ==>
              c.assets[key].claimed + entries[i].amount <= SumEntries(entries)
    ensures (forall i: nat :: i < |entries| ==> IsClaimed(c.assets[key].bitmap, i)) ==>
              c.assets[key].claimed == SumEntries(entries)
  {
    hide Inv, AssetInv, SumOver, SumPaid, SumEntries, ClaimedLeaves, PaidLeaves;
    CommittedSinceOpening(c, key, entries);
    PaidAsCommitted(c, key, entries);
    ClaimedArePaid(c, key, entries);
    ClaimedSum(c, key);
    RoomForRest(c.assets[key], entries);
  }

  lemma {:induction false} ClaimedSum(c: Chain, key: Key)
    requires Inv(c) && key in c.assets
    ensures c.assets[key].claimed == SumPaid(c.paid, key) && c.assets[key].claimed <= c.assets[key].allocation
  {
    InvOf(c, key);
  }

  lemma {:induction false} RoomForRest(a: RoundAsset, entries: seq<Entry>)
    requires |a.bitmap| == BitmapLen(a.leafCount) && |entries| == a.leafCount
    ensures forall i: nat :: i < |entries| && !IsClaimed(a.bitmap, i) ==>
              SumOver(entries, ClaimedLeaves(a)) + entries[i].amount <= SumEntries(entries)
    ensures (forall i: nat :: i < |entries| ==> IsClaimed(a.bitmap, i)) ==>
              SumOver(entries, ClaimedLeaves(a)) == SumEntries(entries)
  {
    var claimed := ClaimedLeaves(a);
    forall i: nat | i < |entries| && !IsClaimed(a.bitmap, i)
      ensures SumOver(entries, claimed) + entries[i].amount <= SumEntries(entries)
    {
      SumOverAdds(entries, claimed, i);
      SumOverMost(entries, claimed + {i});
    }
    SumOverMost(entries, claimed);
  }
}
