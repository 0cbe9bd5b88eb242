/** What proofs prove: soundness, completeness and uniqueness of both verifiers, and the shape of the tree. */
module MerkleTheorems {
  import opened Terms
  import opened Merkle

  // ---- blocks are subtrees -------------------------------------------------------------

  /** An aligned block is one subtree: pairing it on its own gives the tree's own node. */
  lemma {:induction false} BlockRoot(level: seq<Digest>, first: nat, k: nat)
    requires first < |level| && Aligned(first, k)
    ensures Shr(first, k) < |Up(level, k)|
    ensures RootOf(Block(level, first, k)) == Up(level, k)[Shr(first, k)]
    decreases k
  {
    if k == 0 {
      assert Block(level, first, k) == [level[first]];
    } else {
      BlockRoot(NextLevel(level), first / 2, k - 1);
      BlockNext(level, first, k);
      RootNext(Block(level, first, k));
    }
  }

  lemma {:induction false} BlockNext(level: seq<Digest>, first: nat, k: nat)
    requires k > 0 && first < |level| && first % 2 == 0
    ensures NextLevel(Block(level, first, k)) == Block(NextLevel(level), first / 2, k - 1)
  {
    SliceNext(level, first / 2, Min(first + Pow2(k), |level|), Pow2(k - 1));
  }

  lemma {:induction false} SliceNext(level: seq<Digest>, half: nat, end: nat, p: nat)
    requires 2 * half < end <= |level| && end == Min(2 * half + 2 * p, |level|)
    ensures NextLevel(level[2 * half..end]) == NextLevel(level)[half..Min(half + p, |NextLevel(level)|)]
  {
    var block, next := level[2 * half..end], NextLevel(level);
    var above := next[half..Min(half + p, |next|)];
    assert |NextLevel(block)| == |above|;
    forall i | 0 <= i < |above|
      ensures NextLevel(block)[i] == above[i]
    {
      NextAt(block, i);
      NextAt(level, half + i);
    }
  }

  // ---- soundness -----------------------------------------------------------------------

  lemma {:induction false} VerifySound(leaves: seq<Digest>, proof: seq<Digest>, leaf: Digest)
    requires leaves != [] && Leaves(leaves) && leaf.IsLeaf()
    requires Verify(proof, RootOf(leaves), leaf)
    ensures leaf in leaves
  {
    FoldKeeps(leaf, leaf, proof);
    RootHoldsLeaf(leaves, leaf);
  }

  /** Whatever the proof and whatever leaf count the caller is given, an accepted block of payout leaves
      is exactly the committed one. */
  lemma {:induction false} BlockSound(committed: seq<Digest>, claimed: seq<Digest>, first: nat, k: nat,
                                      leafCount: nat, proof: seq<Digest>)
    requires committed != [] && Indexed(committed, 0) && Indexed(claimed, first)
    requires BlockVerifies(claimed, first, k, leafCount, proof, RootOf(committed))
    ensures first + |claimed| <= |committed|
    ensures claimed == committed[first..first + |claimed|]
  {
    hide Climb, RootOf, Shr, CeilShr, Aligned, Pow2;
    BlockLeafSound(committed, claimed, first, k, leafCount, proof, |claimed| - 1);
    forall o | 0 <= o < |claimed|
      ensures claimed[o] == committed[first + o]
    {
      BlockLeafSound(committed, claimed, first, k, leafCount, proof, o);
    }
  }

  // ---- completeness --------------------------------------------------------------------

  /** From any node, its siblings climb to the root and are used up exactly. */
  lemma {:induction false} ClimbComplete(level: seq<Digest>, index: nat)
    requires index < |level|
    ensures Climb(level[index], index, |level|, Siblings(level, index)) == Some(RootOf(level))
    decreases |level|
  {
    if |level| > 1 {
      ClimbComplete(NextLevel(level), index / 2);
      SiblingsStep(level, index);
      if SiblingIndex(index) < |level| {
        NextPaired(level, index);
      } else {
        NextCarried(level, index);
      }
    }
  }

  lemma {:induction false} BlockClimb(leaves: seq<Digest>, first: nat, k: nat, proof: seq<Digest>)
    requires first < |leaves| && Aligned(first, k) && k < 32
    ensures Shr(first, k) < |Up(leaves, k)|
    ensures BlockVerifies(Block(leaves, first, k), first, k, |leaves|, proof, RootOf(leaves))
       <==> Climb(Up(leaves, k)[Shr(first, k)], Shr(first, k), |Up(leaves, k)|, proof)
              == Some(RootOf(Up(leaves, k)))
  {
    BlockRoot(leaves, first, k);
    UpSize(leaves, k);
    RootAbove(leaves, k);
  }

  lemma {:induction false} BlockComplete(leaves: seq<Digest>, first: nat, k: nat)
    requires first < |leaves| && k < 32 && Aligned(first, k)
    ensures BlockVerifies(Block(leaves, first, k), first, k, |leaves|, BlockSiblings(leaves, first, k), RootOf(leaves))
  {
    BlockClimb(leaves, first, k, BlockSiblings(leaves, first, k));
    ClimbComplete(Up(leaves, k), Shr(first, k));
  }

  lemma {:induction false} UpShrinks(level: seq<Digest>, k: nat)
    requires level != []
    ensures |Up(level, k)| <= |level|
    decreases k
  {
    if k > 0 {
      UpShrinks(NextLevel(level), k - 1);
    }
  }

  lemma {:induction false} BlockSiblingsFit(leaves: seq<Digest>, first: nat, k: nat)
    requires first < |leaves| <= 65_536
    ensures |BlockSiblings(leaves, first, k)| <= 16 < MAX_PROOF_LEN
  {
    UpShrinks(leaves, k);
    UpSize(leaves, k);
    BlockInside(first, |leaves|, k);
    SiblingsFit(Up(leaves, k), Shr(first, k));
  }

  // ---- one proof only ------------------------------------------------------------------

  /** No leaf is held by two nodes. */
  ghost predicate Disjoint(level: seq<Digest>) {
    forall i, j, x: Digest :: 0 <= i < j < |level| && x.IsLeaf() && Within(x, level[i]) ==> !Within(x, level[j])
  }

  lemma {:induction false} NextDisjoint(level: seq<Digest>)
    requires Disjoint(level)
    ensures Disjoint(NextLevel(level))
  {
    var next := NextLevel(level);
    forall i, j, x: Digest | 0 <= i < j < |next| && x.IsLeaf() && Within(x, next[i])
      ensures !Within(x, next[j])
    {
      WithinNext(x, level, i);
      WithinNext(x, level, j);
    }
  }

  lemma {:induction false} UpDisjoint(level: seq<Digest>, k: nat)
    requires level != [] && Disjoint(level)
    ensures Disjoint(Up(level, k))
    decreases k
  {
    if k > 0 {
      NextDisjoint(level);
      UpDisjoint(NextLevel(level), k - 1);
    }
  }

  /** A climb that reaches the root from a node sharing a leaf with node `index` started at that very
      node and used exactly its siblings. */
  lemma {:induction false} ClimbUnique(level: seq<Digest>, index: nat, node: Digest, proof: seq<Digest>, x: Digest)
    requires index < |level| && Disjoint(level) && x.IsLeaf() && Within(x, level[index]) && Within(x, node)
    requires Climb(node, index, |level|, proof) == Some(RootOf(level))
    ensures node == level[index] && proof == Siblings(level, index)
    decreases |level|
  {
    if |level| > 1 {
      NextDisjoint(level);
      SiblingsStep(level, index);
      if SiblingIndex(index) < |level| {
        NextPaired(level, index);
        var sibling := level[SiblingIndex(index)];
        WithinPair(x, level[index], sibling);
        WithinPair(x, node, proof[0]);
        ClimbUnique(NextLevel(level), index / 2, HashPair(node, proof[0]), proof[1..], x);
        PairsUnordered(node, proof[0], level[index], sibling);
        assert !Within(x, sibling);
        assert proof == [proof[0]] + proof[1..];
      } else {
        NextCarried(level, index);
        ClimbUnique(NextLevel(level), index / 2, node, proof, x);
      }
    }
  }

  lemma {:induction false} IndexedDisjoint(leaves: seq<Digest>)
    requires Indexed(leaves, 0)
    ensures Disjoint(leaves)
  {
  }

  lemma {:induction false} BlockProofUnique(leaves: seq<Digest>, first: nat, k: nat, proof: seq<Digest>)
    requires first < |leaves| && Aligned(first, k) && k < 32 && Indexed(leaves, 0)
    requires BlockVerifies(Block(leaves, first, k), first, k, |leaves|, proof, RootOf(leaves))
    ensures proof == BlockSiblings(leaves, first, k)
  {
    BlockClimb(leaves, first, k, proof);
    IndexedDisjoint(leaves);
    UpDisjoint(leaves, k);
    BlockRoot(leaves, first, k);
    var x := leaves[first];
    assert x == Block(leaves, first, k)[0];
    LeafWithinRoot(Block(leaves, first, k), 0, x);
    ClimbUnique(Up(leaves, k), Shr(first, k), Up(leaves, k)[Shr(first, k)], proof, x);
  }

  /** Exactly one block of leaves with exactly one proof passes for each aligned place in a committed tree. */
  lemma {:induction false} BlockIff(committed: seq<Digest>, claimed: seq<Digest>, first: nat, k: nat,
                                    proof: seq<Digest>)
    requires committed != [] && Indexed(committed, 0) && Indexed(claimed, first)
    ensures BlockVerifies(claimed, first, k, |committed|, proof, RootOf(committed))
       <==> IsBlock(|claimed|, first, k, |committed|)
            && claimed == Block(committed, first, k) && proof == BlockSiblings(committed, first, k)
  {
    if IsBlock(|claimed|, first, k, |committed|) {
      BlockComplete(committed, first, k);
      if BlockVerifies(claimed, first, k, |committed|, proof, RootOf(committed)) {
        BlockSound(committed, claimed, first, k, |committed|, proof);
        BlockProofUnique(committed, first, k, proof);
      }
    }
  }

  lemma {:induction false} FoldLast(node: Digest, proof: seq<Digest>, last: Digest)
    ensures Fold(node, proof + [last]) == HashPair(Fold(node, proof), last)
    decreases |proof|
  {
    if proof == [] {
      assert proof + [last] == [last];
    } else {
      FoldLast(HashPair(node, proof[0]), proof[1..], last);
      assert (proof + [last])[1..] == proof[1..] + [last];
    }
  }

  ghost predicate Distinct(leaves: seq<Digest>) {
    forall i, j :: 0 <= i < j < |leaves| ==> leaves[i] != leaves[j]
  }

  /** No leaf is on both sides of any pair. */
  ghost predicate OncePerLeaf(d: Digest) {
    d.Pair? ==> OncePerLeaf(d.lo) && OncePerLeaf(d.hi)
                && forall x: Digest :: x.IsLeaf() && Within(x, d.lo) ==> !Within(x, d.hi)
  }

  /** Everything met on the way from leaf `x` up to `d`. */
  ghost function PathIn(x: Digest, d: Digest): seq<Digest> {
    if !d.Pair? then [] else if Within(x, d.lo) then PathIn(x, d.lo) + [d.hi] else PathIn(x, d.hi) + [d.lo]
  }

  lemma {:induction false} FoldUnique(x: Digest, proof: seq<Digest>, d: Digest)
    requires x.IsLeaf() && OncePerLeaf(d) && Fold(x, proof) == d
    ensures proof == PathIn(x, d)
    decreases d
  {
    if proof != [] {
      var front, last := proof[..|proof| - 1], proof[|proof| - 1];
      assert proof == front + [last];
      FoldLast(x, front, last);
      FoldKeeps(x, x, front);
      PairsUnordered(Fold(x, front), last, d.lo, d.hi);
      FoldUnique(x, front, Fold(x, front));
    }
  }

  lemma {:induction false} RootOncePerLeaf(level: seq<Digest>)
    requires level != [] && Disjoint(level) && forall i :: 0 <= i < |level| ==> OncePerLeaf(level[i])
    ensures OncePerLeaf(RootOf(level))
    decreases |level|
  {
    if |level| > 1 {
      NextDisjoint(level);
      var next := NextLevel(level);
      forall i | 0 <= i < |next|
        ensures OncePerLeaf(next[i])
      {
        NextAt(level, i);
      }
      RootOncePerLeaf(next);
    }
  }

  lemma {:induction false} VerifyUnique(leaves: seq<Digest>, i: nat, proof: seq<Digest>)
    requires i < |leaves| && Leaves(leaves) && Distinct(leaves)
    requires Verify(proof, RootOf(leaves), leaves[i])
    ensures proof == Siblings(leaves, i)
  {
    RootOncePerLeaf(leaves);
    FoldUnique(leaves[i], proof, RootOf(leaves));
    FoldComplete(leaves, i);
    FoldUnique(leaves[i], Siblings(leaves, i), RootOf(leaves));
  }

  /** A single proof passes exactly for a committed leaf, with that leaf's own siblings. */
  lemma {:induction false} VerifyIff(leaves: seq<Digest>, proof: seq<Digest>, leaf: Digest)
    requires leaves != [] && Leaves(leaves) && Distinct(leaves) && leaf.IsLeaf()
    ensures Verify(proof, RootOf(leaves), leaf)
       <==> exists i :: 0 <= i < |leaves| && leaves[i] == leaf && proof == Siblings(leaves, i)
  {
    if Verify(proof, RootOf(leaves), leaf) {
      VerifySound(leaves, proof, leaf);
      var i :| 0 <= i < |leaves| && leaves[i] == leaf;
      VerifyUnique(leaves, i, proof);
    }
    forall i | 0 <= i < |leaves| && leaves[i] == leaf && proof == Siblings(leaves, i)
      ensures Verify(proof, RootOf(leaves), leaf)
    {
      FoldComplete(leaves, i);
    }
  }

  lemma {:induction false} IndexedDistinct(leaves: seq<Digest>)
    requires Indexed(leaves, 0)
    ensures Leaves(leaves) && Distinct(leaves)
  {
  }

  /** At level 0 the block verifier and the single-leaf one accept the same proofs, the one reading the position from
      its arguments and the other from the leaf. */
  lemma {:induction false} LevelZeroAgrees(leaves: seq<Digest>, i: nat, leaf: Digest, proof: seq<Digest>)
    requires Indexed(leaves, 0) && i < |leaves| && leaf.PayoutLeaf? && leaf.leafIdx == i
    ensures BlockVerifies([leaf], i, 0, |leaves|, proof, RootOf(leaves)) <==> Verify(proof, RootOf(leaves), leaf)
  {
    hide BlockVerifies, Verify, RootOf, Distinct, Siblings;
    IndexedDistinct(leaves);
    BlockIff(leaves, [leaf], i, 0, proof);
    VerifyIff(leaves, proof, leaf);
    LevelZeroBlock(leaves, i);
    if leaf in leaves {
      var j :| 0 <= j < |leaves| && leaves[j] == leaf;
      assert j == i;
    }
  }

  lemma {:induction false} LevelZeroBlock(leaves: seq<Digest>, i: nat)
    requires i < |leaves|
    ensures Block(leaves, i, 0) == [leaves[i]] && BlockSiblings(leaves, i, 0) == Siblings(leaves, i)
    ensures IsBlock(1, i, 0, |leaves|)
  {
  }

  // ---- the shape of section 2.1 of RFC 6962 --------------------------------------------

  /** The largest power of two below `n` is Pow2(SplitLevel(n)). */
  function SplitLevel(n: nat): (k: nat)
    requires n > 1
    ensures Pow2(k) < n <= 2 * Pow2(k)
  {
    if n <= 2 then 0 else 1 + SplitLevel((n + 1) / 2)
  }

  /** The Merkle Tree Hash of the RFC, with this repository's pair hash. */
  function TreeHash(leaves: seq<Digest>): Digest
    requires leaves != []
    decreases |leaves|
  {
    if |leaves| == 1 then leaves[0]
    else
      var p := Pow2(SplitLevel(|leaves|));
      HashPair(TreeHash(leaves[..p]), TreeHash(leaves[p..]))
  }

  lemma {:induction false} NextAppend(a: seq<Digest>, b: seq<Digest>)
    requires |a| % 2 == 0
    ensures NextLevel(a + b) == NextLevel(a) + NextLevel(b)
    decreases |a|
  {
    if a == [] {
      assert a + b == b;
    } else {
      NextAppend(a[2..], b);
      assert (a + b)[2..] == a[2..] + b;
    }
  }

  lemma {:induction false} RootSplit(a: seq<Digest>, b: seq<Digest>, k: nat)
    requires |a| == Pow2(k) && 1 <= |b| <= Pow2(k)
    ensures RootOf(a + b) == HashPair(RootOf(a), RootOf(b))
    decreases k
  {
    if k == 0 {
      assert NextLevel(a + b) == [HashPair(a[0], b[0])];
    } else {
      NextAppend(a, b);
      RootSplit(NextLevel(a), NextLevel(b), k - 1);
      RootNext(b);
    }
  }

  lemma {:induction false} RootIsTreeHash(leaves: seq<Digest>)
    requires leaves != []
    ensures RootOf(leaves) == TreeHash(leaves)
    decreases |leaves|
  {
    if |leaves| > 1 {
      var k := SplitLevel(|leaves|);
      var a, b := leaves[..Pow2(k)], leaves[Pow2(k)..];
      assert leaves == a + b;
      RootSplit(a, b, k);
      RootIsTreeHash(a);
      RootIsTreeHash(b);
    }
  }
}
