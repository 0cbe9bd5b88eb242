/** The program's addresses and digests, idealised as terms: two of them are equal only if they
    were derived from equal parts, which is what sha256 and address derivation are used for. */
module Terms {
  type u32 = x: int | 0 <= x < 0x1_0000_0000
  type u64 = x: int | 0 <= x < 0x1_0000_0000_0000_0000
  type i64 = x: int | -0x8000_0000_0000_0000 <= x < 0x8000_0000_0000_0000

  const U64_MAX: int := 0xFFFF_FFFF_FFFF_FFFF
  const I64_MAX: int := 0x7FFF_FFFF_FFFF_FFFF

  datatype Option<+T> = None | Some(value: T)

  datatype Key =
    | Address(id: nat)
    | RoundKey(distributor: Key, roundId: u64)
    | AssetKey(round: Key, assetIdx: nat)
    | Ata(owner: Key, mint: Key, tokenProgram: Key)

  datatype Digest =
    | PayoutLeaf(distributor: Key, roundId: u64, assetIdx: nat, leafIdx: u32, recipient: Key, amount: u64)
    | AssetLeaf(distributor: Key, roundId: u64, assetIdx: nat, mint: Key, tokenProgram: Key,
                merkleRoot: Digest, allocation: u64, leafCount: u32)
      // sha256(0x01, min, max)
    | Pair(lo: Digest, hi: Digest)
      // any other 32 bytes
    | Bytes(id: nat)
  {
    predicate IsLeaf() {
      PayoutLeaf? || AssetLeaf?
    }
  }

  // A fixed total order on digests, standing for the byte order that sorts a pair.

  function Then(first: int, second: int): int {
    if first != 0 then first else second
  }

  function CompareKeys(a: Key, b: Key): int {
    match (a, b)
    case (Address(i), Address(j)) => i - j
    case (Address(_), _) => -1
    case (_, Address(_)) => 1
    case (RoundKey(d, i), RoundKey(e, j)) => Then(i - j, CompareKeys(d, e))
    case (RoundKey(_, _), _) => -1
    case (_, RoundKey(_, _)) => 1
    case (AssetKey(r, i), AssetKey(q, j)) => Then(i - j, CompareKeys(r, q))
    case (AssetKey(_, _), _) => -1
    case (_, AssetKey(_, _)) => 1
    case (Ata(o, m, t), Ata(p, n, u)) => Then(CompareKeys(o, p), Then(CompareKeys(m, n), CompareKeys(t, u)))
  }

  function Compare(a: Digest, b: Digest): int {
    match (a, b)
    case (Bytes(i), Bytes(j)) => i - j
    case (Bytes(_), _) => -1
    case (_, Bytes(_)) => 1
    case (Pair(l, h), Pair(k, g)) => Then(Compare(l, k), Compare(h, g))
    case (Pair(_, _), _) => -1
    case (_, Pair(_, _)) => 1
    case (PayoutLeaf(d, r, x, i, w, m), PayoutLeaf(e, s, y, j, v, n)) =>
      Then(r - s, Then(x - y, Then(i - j, Then(m - n, Then(CompareKeys(d, e), CompareKeys(w, v))))))
    case (PayoutLeaf(_, _, _, _, _, _), _) => -1
    case (_, PayoutLeaf(_, _, _, _, _, _)) => 1
    case (AssetLeaf(d, r, x, w, t, root, m, c), AssetLeaf(e, s, y, v, u, other, n, k)) =>
      Then(r - s, Then(x - y, Then(m - n, Then(c - k,
        Then(CompareKeys(d, e), Then(CompareKeys(w, v), Then(CompareKeys(t, u), Compare(root, other))))))))
  }

  lemma {:induction false} CompareKeysTotal(a: Key, b: Key)
    ensures CompareKeys(a, b) == -CompareKeys(b, a)
    ensures CompareKeys(a, b) == 0 ==> a == b
  {
    match (a, b)
    case (RoundKey(d, i), RoundKey(e, j)) => CompareKeysTotal(d, e);
    case (AssetKey(r, i), AssetKey(q, j)) => CompareKeysTotal(r, q);
    case (Ata(o, m, t), Ata(p, n, u)) =>
      CompareKeysTotal(o, p);
      CompareKeysTotal(m, n);
      CompareKeysTotal(t, u);
    case _ =>
  }

  lemma {:induction false} CompareTotal(a: Digest, b: Digest)
    ensures Compare(a, b) == -Compare(b, a)
    ensures Compare(a, b) == 0 ==> a == b
  {
    match (a, b)
    case (Pair(l, h), Pair(k, g)) =>
      CompareTotal(l, k);
      CompareTotal(h, g);
    case (PayoutLeaf(d, _, _, _, w, _), PayoutLeaf(e, _, _, _, v, _)) =>
      CompareKeysTotal(d, e);
      CompareKeysTotal(w, v);
    case (AssetLeaf(d, _, _, w, t, root, _, _), AssetLeaf(e, _, _, v, u, other, _, _)) =>
      CompareKeysTotal(d, e);
      CompareKeysTotal(w, v);
      CompareKeysTotal(t, u);
      CompareTotal(root, other);
    case _ =>
  }
}

/** lib/merkle.ts and the program's merkle.rs: trees built level by level with odd nodes carried up,
    proofs for one leaf and for an aligned block of leaves, and the two verifiers. */
module Merkle {
  import opened Terms

  const MAX_PROOF_LEN := 17

  function HashPair(a: Digest, b: Digest): Digest {
    if Compare(a, b) <= 0 then Pair(a, b) else Pair(b, a)
  }

  /** Pairs left to right, an odd node carried up. */
  function NextLevel(level: seq<Digest>): (next: seq<Digest>)
    ensures |next| == (|level| + 1) / 2
    decreases |level|
  {
    if |level| <= 1 then level else [HashPair(level[0], level[1])] + NextLevel(level[2..])
  }

  lemma {:induction false} NextAt(level: seq<Digest>, i: nat)
    requires i < |NextLevel(level)|
    ensures NextLevel(level)[i]
         == if 2 * i + 1 < |level| then HashPair(level[2 * i], level[2 * i + 1]) else level[2 * i]
    decreases |level|
  {
    if |level| > 1 && i > 0 {
      NextAt(level[2..], i - 1);
    }
  }

  function RootOf(level: seq<Digest>): Digest
    requires level != []
    decreases |level|
  {
    if |level| == 1 then level[0] else RootOf(NextLevel(level))
  }

  function SiblingIndex(index: nat): nat {
    if index % 2 == 1 then index - 1 else index + 1
  }

  /** The siblings that node `index` meets on its way up, skipping the levels where it is carried. */
  function Siblings(level: seq<Digest>, index: nat): seq<Digest>
    requires index < |level|
    decreases |level|
  {
    if |level| == 1 then []
    else
      (if SiblingIndex(index) < |level| then [level[SiblingIndex(index)]] else [])
      + Siblings(NextLevel(level), index / 2)
  }

  function Fold(node: Digest, proof: seq<Digest>): Digest
    decreases |proof|
  {
    if proof == [] then node else Fold(HashPair(node, proof[0]), proof[1..])
  }

  /** `verify`: the proof says nothing about positions, only the leaf does. */
  predicate Verify(proof: seq<Digest>, root: Digest, leaf: Digest) {
    Fold(leaf, proof) == root
  }

  /** The second loop of `verify_block`: climbs from node `index` of a level of `size` nodes; None when
      the proof is too short or too long. */
  function Climb(node: Digest, index: nat, size: nat, proof: seq<Digest>): Option<Digest>
    decreases size
  {
    if size <= 1 then
      if proof == [] then Some(node) else None
    else if index % 2 == 1 || index + 1 < size then
      if proof == [] then None else Climb(HashPair(node, proof[0]), index / 2, (size + 1) / 2, proof[1..])
    else
      Climb(node, index / 2, (size + 1) / 2, proof)
  }

  function Pow2(k: nat): (p: nat)
    ensures p >= 1
  {
    if k == 0 then 1 else 2 * Pow2(k - 1)
  }

  /** `x >> k`. */
  function Shr(x: nat, k: nat): nat
    decreases k
  {
    if k == 0 then x else Shr(x / 2, k - 1)
  }

  /** Halving with the odd one kept, `k` times: ceil(n / 2^k). */
  function CeilShr(n: nat, k: nat): nat
    decreases k
  {
    if k == 0 then n else CeilShr((n + 1) / 2, k - 1)
  }

  /** The low `k` bits are clear. */
  predicate Aligned(x: nat, k: nat)
    decreases k
  {
    k == 0 || (x % 2 == 0 && Aligned(x / 2, k - 1))
  }

  function Min(a: int, b: int): int {
    if a < b then a else b
  }

  /** The shape checks of `verify_block`. */
  predicate IsBlock(blockLen: nat, first: nat, level: nat, leafCount: nat) {
    level < 32 && 0 < blockLen && first < leafCount && Aligned(first, level)
    && blockLen == Min(Pow2(level), leafCount - first)
  }

  predicate BlockVerifies(block: seq<Digest>, first: nat, level: nat, leafCount: nat, proof: seq<Digest>,
                          root: Digest)
  {
    IsBlock(|block|, first, level, leafCount)
    && Climb(RootOf(block), Shr(first, level), CeilShr(leafCount, level), proof) == Some(root)
  }

  /** The nodes `k` levels up; the root stays the root above the tree's height. */
  function Up(level: seq<Digest>, k: nat): (up: seq<Digest>)
    requires level != []
    ensures up != []
    decreases k
  {
    if k == 0 then level else Up(NextLevel(level), k - 1)
  }

  function Block(level: seq<Digest>, first: nat, k: nat): (block: seq<Digest>)
    requires first < |level|
    ensures block != []
  {
    level[first..Min(first + Pow2(k), |level|)]
  }

  function BlockSiblings(leaves: seq<Digest>, first: nat, k: nat): seq<Digest>
    requires first < |leaves|
  {
    UpSize(leaves, k);
    BlockInside(first, |leaves|, k);
    Siblings(Up(leaves, k), Shr(first, k))
  }

  // ---- shapes -------------------------------------------------------------

  lemma {:induction false} UpSize(level: seq<Digest>, k: nat)
    requires level != []
    ensures |Up(level, k)| == CeilShr(|level|, k)
    decreases k
  {
    if k > 0 {
      UpSize(NextLevel(level), k - 1);
    }
  }

  lemma {:induction false} CeilShrIsShr(n: nat, k: nat)
    ensures CeilShr(n, k) == Shr(n + Pow2(k) - 1, k)
    decreases k
  {
    if k > 0 {
      var p := Pow2(k - 1);
      CeilShrIsShr((n + 1) / 2, k - 1);
      assert (n + 2 * p - 1) / 2 == (n + 1) / 2 + p - 1;
    }
  }

  lemma {:induction false} BlockInside(first: nat, n: nat, k: nat)
    requires first < n
    ensures Shr(first, k) < CeilShr(n, k)
    decreases k
  {
    if k > 0 {
      BlockInside(first / 2, (n + 1) / 2, k - 1);
    }
  }

  /** Aligned is the remainder test of the code, and Shr the division of lib/merkle.ts. */
  lemma {:induction false} AlignedIsMultiple(x: nat, k: nat)
    ensures Aligned(x, k) <==> x % Pow2(k) == 0
    ensures Shr(x, k) == x / Pow2(k)
    decreases k
  {
    if k > 0 {
      AlignedIsMultiple(x / 2, k - 1);
      DivTwice(x, Pow2(k - 1));
    }
  }

  lemma {:induction false} DivTwice(x: nat, p: nat)
    requires p >= 1
    ensures x / (2 * p) == (x / 2) / p
    ensures x % (2 * p) == 2 * ((x / 2) % p) + x % 2
  {
    var q, r := (x / 2) / p, (x / 2) % p;
    assert x / 2 == p * q + r;
    assert x == (2 * p) * q + (2 * r + x % 2) by {
      assert (2 * p) * q == 2 * (p * q);
    }
    DivModUnique(x, 2 * p, q, 2 * r + x % 2);
  }

  lemma {:induction false} DivModUnique(x: int, p: int, q: int, r: int)
    requires p >= 1 && 0 <= r < p && x == p * q + r
    ensures x / p == q && x % p == r
  {
    var d := x / p;
    assert x == p * d + x % p;
    MulGap(p, d, q);
    MulGap(p, q, d);
  }

  lemma {:induction false} MulGap(p: int, a: int, b: int)
    requires p >= 1
    ensures a < b ==> p * a + p <= p * b
    decreases b - a
  {
    if a + 1 < b {
      MulGap(p, a, b - 1);
    }
  }

  lemma {:induction false} RootAbove(level: seq<Digest>, k: nat)
    requires level != []
    ensures RootOf(Up(level, k)) == RootOf(level)
    decreases k
  {
    if k > 0 {
      RootAbove(NextLevel(level), k - 1);
      RootNext(level);
    }
  }

  lemma {:induction false} RootNext(level: seq<Digest>)
    requires level != []
    ensures RootOf(level) == RootOf(NextLevel(level))
  {
  }

  // ---- what a digest holds --------------------------------------------------

  ghost predicate Within(x: Digest, d: Digest)
    decreases d
  {
    x == d || (d.Pair? && (Within(x, d.lo) || Within(x, d.hi)))
  }

  /** Pairs are hashed without their order, and nothing else about them is lost. */
  lemma {:induction false} PairsUnordered(a: Digest, b: Digest, c: Digest, d: Digest)
    ensures HashPair(a, b) == HashPair(c, d) <==> (a == c && b == d) || (a == d && b == c)
  {
    CompareTotal(a, b);
    CompareTotal(c, d);
  }

  lemma {:induction false} WithinPair(x: Digest, a: Digest, b: Digest)
    ensures Within(x, HashPair(a, b)) <==> x == HashPair(a, b) || Within(x, a) || Within(x, b)
  {
  }

  lemma {:induction false} WithinNext(x: Digest, level: seq<Digest>, i: nat)
    requires !x.Pair? && i < |NextLevel(level)|
    ensures Within(x, NextLevel(level)[i]) <==>
            Within(x, level[2 * i]) || (2 * i + 1 < |level| && Within(x, level[2 * i + 1]))
  {
    NextAt(level, i);
    if 2 * i + 1 < |level| {
      WithinPair(x, level[2 * i], level[2 * i + 1]);
    }
  }

  lemma {:induction false} WithinRoot(x: Digest, level: seq<Digest>) returns (i: nat)
    requires !x.Pair? && level != [] && Within(x, RootOf(level))
    ensures i < |level| && Within(x, level[i])
    decreases |level|
  {
    if |level| == 1 {
      i := 0;
    } else {
      var j := WithinRoot(x, NextLevel(level));
      WithinNext(x, level, j);
      i := if Within(x, level[2 * j]) then 2 * j else 2 * j + 1;
    }
  }

  lemma {:induction false} LeafWithinRoot(level: seq<Digest>, i: nat, x: Digest)
    requires i < |level| && !x.Pair? && Within(x, level[i])
    ensures Within(x, RootOf(level))
    decreases |level|
  {
    if |level| > 1 {
      WithinNext(x, level, i / 2);
      LeafWithinRoot(NextLevel(level), i / 2, x);
    }
  }

  lemma {:induction false} FoldKeeps(x: Digest, node: Digest, proof: seq<Digest>)
    requires !x.Pair? && Within(x, node)
    ensures Within(x, Fold(node, proof))
    decreases |proof|
  {
    if proof != [] {
      WithinPair(x, node, proof[0]);
      FoldKeeps(x, HashPair(node, proof[0]), proof[1..]);
    }
  }

  lemma {:induction false} ClimbKeeps(x: Digest, node: Digest, index: nat, size: nat, proof: seq<Digest>)
    requires !x.Pair? && Within(x, node) && Climb(node, index, size, proof).Some?
    ensures Within(x, Climb(node, index, size, proof).value)
    decreases size
  {
    if size > 1 {
      if index % 2 == 1 || index + 1 < size {
        WithinPair(x, node, proof[0]);
        ClimbKeeps(x, HashPair(node, proof[0]), index / 2, (size + 1) / 2, proof[1..]);
      } else {
        ClimbKeeps(x, node, index / 2, (size + 1) / 2, proof);
      }
    }
  }

  // ---- soundness -------------------------------------------------------------

  ghost predicate Leaves(leaves: seq<Digest>) {
    forall i :: 0 <= i < |leaves| ==> leaves[i].IsLeaf()
  }

  /** Payout leaves carrying the indices first, first + 1, ... */
  ghost predicate Indexed(leaves: seq<Digest>, first: nat) {
    forall i :: 0 <= i < |leaves| ==> leaves[i].PayoutLeaf? && leaves[i].leafIdx == first + i
  }

  lemma {:induction false} RootHoldsLeaf(leaves: seq<Digest>, x: Digest)
    requires leaves != [] && Leaves(leaves) && !x.Pair? && Within(x, RootOf(leaves))
    ensures x in leaves
  {
    var i := WithinRoot(x, leaves);
    assert x == leaves[i];
  }

  lemma {:induction false} BlockVerifiesWithin(claimed: seq<Digest>, first: nat, k: nat, leafCount: nat,
                                               proof: seq<Digest>, root: Digest, o: nat)
    requires Leaves(claimed) && o < |claimed|
    requires BlockVerifies(claimed, first, k, leafCount, proof, root)
    ensures Within(claimed[o], root)
  {
    LeafWithinRoot(claimed, o, claimed[o]);
    ClimbKeeps(claimed[o], RootOf(claimed), Shr(first, k), CeilShr(leafCount, k), proof);
  }

  lemma {:induction false} BlockLeafSound(committed: seq<Digest>, claimed: seq<Digest>, first: nat, k: nat,
                                          leafCount: nat, proof: seq<Digest>, o: nat)
    requires committed != [] && Indexed(committed, 0) && Indexed(claimed, first) && o < |claimed|
    requires BlockVerifies(claimed, first, k, leafCount, proof, RootOf(committed))
    ensures first + o < |committed| && claimed[o] == committed[first + o]
  {
    BlockVerifiesWithin(claimed, first, k, leafCount, proof, RootOf(committed), o);
    RootHoldsLeaf(committed, claimed[o]);
  }

  // ---- completeness ------------------------------------------------------------

  lemma {:induction false} NextPaired(level: seq<Digest>, index: nat)
    requires index < |level| && SiblingIndex(index) < |level|
    ensures NextLevel(level)[index / 2] == HashPair(level[index], level[SiblingIndex(index)])
  {
    var node, sibling := level[index], level[SiblingIndex(index)];
    PairsUnordered(node, sibling, sibling, node);
    NextAt(level, index / 2);
  }

  lemma {:induction false} NextCarried(level: seq<Digest>, index: nat)
    requires index < |level| <= SiblingIndex(index)
    ensures NextLevel(level)[index / 2] == level[index]
    ensures index % 2 == 0 && index + 1 == |level|
  {
    NextAt(level, index / 2);
  }

  lemma {:induction false} SiblingsStep(level: seq<Digest>, index: nat)
    requires index < |level| && |level| > 1
    ensures var above := Siblings(NextLevel(level), index / 2);
      if SiblingIndex(index) < |level| then
        Siblings(level, index) != [] && Siblings(level, index)[0] == level[SiblingIndex(index)]
        && Siblings(level, index)[1..] == above
      else
        Siblings(level, index) == above
  {
  }

  lemma {:induction false} FoldComplete(level: seq<Digest>, index: nat)
    requires index < |level|
    ensures Verify(Siblings(level, index), RootOf(level), level[index])
    decreases |level|
  {
    if |level| > 1 {
      FoldComplete(NextLevel(level), index / 2);
      SiblingsStep(level, index);
      if SiblingIndex(index) < |level| {
        NextPaired(level, index);
      } else {
        NextCarried(level, index);
      }
    }
  }

  /** A tree of at most 2^k leaves never needs more than k siblings. */
  lemma {:induction false} SiblingsBound(level: seq<Digest>, index: nat, k: nat)
    requires index < |level| <= Pow2(k)
    ensures |Siblings(level, index)| <= k
    decreases |level|
  {
    if |level| > 1 {
      SiblingsBound(NextLevel(level), index / 2, k - 1);
    }
  }

  /** So a tree of at most 65,536 leaves stays within the program's limit. */
  lemma {:induction false} SiblingsFit(level: seq<Digest>, index: nat)
    requires index < |level| <= 65_536
    ensures |Siblings(level, index)| <= 16 < MAX_PROOF_LEN
  {
    assert Pow2(4) == 16;
    assert Pow2(8) == 256;
    assert Pow2(12) == 4_096;
    assert Pow2(16) == 65_536;
    SiblingsBound(level, index, 16);
  }

  // ---- a block's proof for one of its leaves -----------------------------------------

  lemma {:induction false} FoldJoins(node: Digest, proof: seq<Digest>, more: seq<Digest>)
    ensures Fold(node, proof + more) == Fold(Fold(node, proof), more)
    decreases |proof|
  {
    if proof == [] {
      assert proof + more == more;
    } else {
      assert (proof + more)[1..] == proof[1..] + more;
      FoldJoins(HashPair(node, proof[0]), proof[1..], more);
    }
  }

  /** A climb that succeeds folds its whole proof. */
  lemma {:induction false} ClimbFolds(node: Digest, index: nat, size: nat, proof: seq<Digest>)
    requires Climb(node, index, size, proof).Some?
    ensures Climb(node, index, size, proof).value == Fold(node, proof)
    decreases size
  {
    if size > 1 {
      if index % 2 == 1 || index + 1 < size {
        ClimbFolds(HashPair(node, proof[0]), index / 2, (size + 1) / 2, proof[1..]);
      } else {
        ClimbFolds(node, index / 2, (size + 1) / 2, proof);
      }
    }
  }

  lemma {:induction false} ClimbBound(node: Digest, index: nat, size: nat, proof: seq<Digest>, k: nat)
    requires Climb(node, index, size, proof).Some? && size <= Pow2(k)
    ensures |proof| <= k
    decreases size
  {
    if size > 1 {
      if index % 2 == 1 || index + 1 < size {
        ClimbBound(HashPair(node, proof[0]), index / 2, (size + 1) / 2, proof[1..], k - 1);
      } else {
        ClimbBound(node, index / 2, (size + 1) / 2, proof, k - 1);
      }
    }
  }

  lemma {:induction false} CeilShrBound(n: nat, k: nat, m: nat)
    requires n <= Pow2(k + m)
    ensures CeilShr(n, k) <= Pow2(m)
    decreases k
  {
    if k > 0 {
      CeilShrBound((n + 1) / 2, k - 1, m);
    }
  }

  /** Whatever the root is: the siblings of a leaf within an accepted block, then the block's own proof, prove that
      leaf, within the program's limit. */
  lemma {:induction false} BlockProvesLeaf(block: seq<Digest>, first: nat, k: nat, leafCount: nat, proof: seq<Digest>,
                                           root: Digest, o: nat)
    requires BlockVerifies(block, first, k, leafCount, proof, root) && o < |block|
    requires leafCount <= 65_536 && k <= 16
    ensures Verify(Siblings(block, o) + proof, root, block[o])
    ensures |Siblings(block, o) + proof| <= 16 < MAX_PROOF_LEN
  {
    assert Pow2(4) == 16 && Pow2(8) == 256 && Pow2(12) == 4_096;
    assert Pow2(16) == 65_536;
    hide Pow2, Siblings, Climb, Fold, CeilShr;
    var size := CeilShr(leafCount, k);
    FoldComplete(block, o);
    FoldJoins(block[o], Siblings(block, o), proof);
    ClimbFolds(RootOf(block), Shr(first, k), size, proof);
    SiblingsBound(block, o, k);
    CeilShrBound(leafCount, k, 16 - k);
    ClimbBound(RootOf(block), Shr(first, k), size, proof, 16 - k);
  }
}
