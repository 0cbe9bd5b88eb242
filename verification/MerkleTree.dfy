/** The loops of lib/merkle.ts and merkle.rs, proved against the functions of module Merkle. */
module MerkleTrees {
  import opened Terms
  import opened Merkle

  /** What the constructor builds: each level pairs up the one before it, until one node is left. */
  ghost predicate IsLevels(levels: seq<seq<Digest>>, leaves: seq<Digest>) {
    levels != [] && levels[0] == leaves && |levels[|levels| - 1]| == 1
    && forall k :: 0 < k < |levels| ==> PairsUp(levels, k)
  }

  ghost predicate PairsUp(levels: seq<seq<Digest>>, k: nat)
    requires 0 < k < |levels|
  {
    |levels[k - 1]| > 1 && levels[k] == NextLevel(levels[k - 1])
  }

  lemma {:induction false} UpNext(leaves: seq<Digest>, k: nat)
    requires leaves != []
    ensures Up(leaves, k + 1) == NextLevel(Up(leaves, k))
    decreases k
  {
    if k > 0 {
      UpNext(NextLevel(leaves), k - 1);
    }
  }

  lemma {:induction false} LevelIsUp(levels: seq<seq<Digest>>, leaves: seq<Digest>, k: nat)
    requires leaves != [] && IsLevels(levels, leaves)
    ensures k < |levels| ==> levels[k] == Up(leaves, k)
    ensures k >= |levels| - 1 ==> |Up(leaves, k)| == 1
    decreases k
  {
    if k > 0 {
      assert k < |levels| ==> PairsUp(levels, k);
      LevelIsUp(levels, leaves, k - 1);
      UpNext(leaves, k - 1);
    }
  }

  method PairUp(prev: seq<Digest>) returns (next: seq<Digest>)
    ensures next == NextLevel(prev)
  {
    next := [];
    var i := 0;
    while i < |prev|
      invariant i == 2 * |next| && |next| <= |NextLevel(prev)|
      invariant next == NextLevel(prev)[..|next|]
    {
      NextAt(prev, |next|);
      next := next + [if i + 1 < |prev| then HashPair(prev[i], prev[i + 1]) else prev[i]];
      i := i + 2;
    }
  }

  lemma {:induction false} SiblingsJoin(nodes: seq<Digest>, index: nat, proof: seq<Digest>)
    requires index < |nodes| && |nodes| > 1
    ensures index / 2 < |NextLevel(nodes)|
    ensures proof + Siblings(nodes, index)
         == (if SiblingIndex(index) < |nodes| then proof + [nodes[SiblingIndex(index)]] else proof)
            + Siblings(NextLevel(nodes), index / 2)
  {
    if SiblingIndex(index) < |nodes| {
      var head, above := [nodes[SiblingIndex(index)]], Siblings(NextLevel(nodes), index / 2);
      assert proof + (head + above) == (proof + head) + above;
    }
  }

  lemma {:induction false} NoSiblings(nodes: seq<Digest>, index: nat)
    requires index < |nodes| && |nodes| == 1
    ensures Siblings(nodes, index) == []
  {
  }

  class MerkleTree {
    var levels: seq<seq<Digest>>

    ghost predicate BuiltFrom(leaves: seq<Digest>)
      reads this
    {
      leaves != [] && IsLevels(levels, leaves)
    }

    /** Reached through BuildTree, which refuses an empty list. */
    constructor (leaves: seq<Digest>)
      requires leaves != []
      ensures BuiltFrom(leaves)
    {
      var built := [leaves];
      while |built[|built| - 1]| > 1
        invariant built != [] && built[0] == leaves && built[|built| - 1] != []
        invariant forall k :: 0 < k < |built| ==> PairsUp(built, k)
        decreases |built[|built| - 1]|
      {
        var next := PairUp(built[|built| - 1]);
        forall k | 0 < k < |built| + 1
          ensures PairsUp(built + [next], k)
        {
          assert k < |built| ==> PairsUp(built, k);
        }
        built := built + [next];
      }
      levels := built;
    }

    method Root(ghost leaves: seq<Digest>) returns (root: Digest)
      requires BuiltFrom(leaves)
      ensures root == RootOf(leaves)
    {
      root := levels[|levels| - 1][0];
      LevelIsUp(levels, leaves, |levels| - 1);
      RootAbove(leaves, |levels| - 1);
    }

    /** The loop of `blockProof`, from node `start` of level `level`. */
    method CollectSiblings(level: nat, start: nat, ghost leaves: seq<Digest>) returns (proof: seq<Digest>)
      requires BuiltFrom(leaves) && level < |levels| && start < |levels[level]|
      ensures proof == Siblings(levels[level], start)
    {
      hide Siblings, NextLevel;
      proof := [];
      var index, k := start, level;
      while k < |levels| - 1
        invariant level <= k < |levels| && 0 <= index < |levels[k]|
        invariant proof + Siblings(levels[k], index) == Siblings(levels[level], start)
      {
        assert PairsUp(levels, k + 1);
        SiblingsJoin(levels[k], index, proof);
        var sibling := SiblingIndex(index);
        if sibling < |levels[k]| {
          proof := proof + [levels[k][sibling]];
        }
        index := index / 2;
        k := k + 1;
      }
      NoSiblings(levels[k], index);
      assert proof + [] == proof;
    }

    /** None where the source throws. */
    method BlockProof(firstLeaf: int, level: int, ghost leaves: seq<Digest>) returns (result: Option<seq<Digest>>)
      requires BuiltFrom(leaves)
      ensures result.Some? <==> level >= 0 && 0 <= firstLeaf < |leaves| && Aligned(firstLeaf, level)
      ensures result.Some? ==> result.value == BlockSiblings(leaves, firstLeaf, level)
    {
      if level < 0 || firstLeaf < 0 || firstLeaf >= |levels[0]| {
        return None;
      }
      var size := Pow2(level);
      AlignedIsMultiple(firstLeaf, level);
      if firstLeaf % size != 0 {
        return None;
      }
      UpSize(leaves, level);
      BlockInside(firstLeaf, |leaves|, level);
      LevelIsUp(levels, leaves, level);
      var proof: seq<Digest> := [];
      if level < |levels| {
        proof := CollectSiblings(level, firstLeaf / size, leaves);
      }
      result := Some(proof);
    }

    method Proof(index: int, ghost leaves: seq<Digest>) returns (result: Option<seq<Digest>>)
      requires BuiltFrom(leaves)
      ensures result.Some? <==> 0 <= index < |leaves|
      ensures result.Some? ==> result.value == Siblings(leaves, index)
      ensures result.Some? ==> Verify(result.value, RootOf(leaves), leaves[index])
    {
      result := BlockProof(index, 0, leaves);
      if result.Some? {
        FoldComplete(leaves, index);
      }
    }
  }

  /** Null where the source throws. */
  method BuildTree(leaves: seq<Digest>) returns (tree: MerkleTree?)
    ensures tree == null <==> leaves == []
    ensures tree != null ==> fresh(tree) && tree.BuiltFrom(leaves)
  {
    if leaves == [] {
      return null;
    }
    tree := new MerkleTree(leaves);
  }

  method BlockRootOf(leaves: seq<Digest>) returns (root: Digest)
    requires leaves != []
    ensures root == RootOf(leaves)
  {
    var level := leaves;
    while |level| > 1
      invariant level != [] && RootOf(level) == RootOf(leaves)
      decreases |level|
    {
      level := NextLevel(level);
    }
    root := level[0];
  }

  method VerifyBlock(leaves: seq<Digest>, firstLeaf: u32, level: nat, leafCount: u32, proof: seq<Digest>, root: Digest)
    returns (accepted: bool)
    ensures accepted <==> BlockVerifies(leaves, firstLeaf, level, leafCount, proof, root)
  {
    if level >= 32 || leaves == [] || firstLeaf >= leafCount {
      return false;
    }
    var blockSize := Pow2(level);
    AlignedIsMultiple(firstLeaf, level);
    if firstLeaf % blockSize != 0 || |leaves| != Min(blockSize, leafCount - firstLeaf) {
      return false;
    }
    var node := BlockRootOf(leaves);
    var index: nat := firstLeaf / blockSize;
    CeilShrIsShr(leafCount, level);
    AlignedIsMultiple(leafCount + blockSize - 1, level);
    var levelSize: nat := (leafCount + blockSize - 1) / blockSize;
    var used := 0;
    ghost var climbed := Climb(node, index, levelSize, proof);
    assert proof[used..] == proof;
    while levelSize > 1
      invariant used <= |proof| && Climb(node, index, levelSize, proof[used..]) == climbed
      decreases levelSize
    {
      if index % 2 == 1 || index + 1 < levelSize {
        if used == |proof| {
          return false;
        }
        node := HashPair(node, proof[used]);
        assert proof[used..][1..] == proof[used + 1..];
        used := used + 1;
      }
      index := index / 2;
      levelSize := (levelSize + 1) / 2;
    }
    accepted := used == |proof| && node == root;
  }
}
