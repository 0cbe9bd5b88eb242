/** Claim bitmaps and asset masks, bit by bit as state.rs keeps them. */
module Bits {
  function ByteMask(k: nat): bv8
    requires k < 8
  {
    1 << k
  }

  function BitmapLen(leafCount: nat): nat {
    (leafCount + 7) / 8
  }

  function EmptyBitmap(leafCount: nat): seq<bv8> {
    seq(BitmapLen(leafCount), i => 0)
  }

  predicate IsClaimed(bitmap: seq<bv8>, leafIdx: nat)
    requires leafIdx / 8 < |bitmap|
  {
    bitmap[leafIdx / 8] & ByteMask(leafIdx % 8) != 0
  }

  function SetClaimed(bitmap: seq<bv8>, leafIdx: nat): seq<bv8>
    requires leafIdx / 8 < |bitmap|
  {
    bitmap[leafIdx / 8 := bitmap[leafIdx / 8] | ByteMask(leafIdx % 8)]
  }

  lemma {:induction false} OrMask(b: bv8, k: nat, m: nat)
    requires k < 8 && m < 8
    ensures ((b | ByteMask(k)) & ByteMask(m) != 0) <==> k == m || b & ByteMask(m) != 0
  {
    hide ByteMask;
    MasksDisjoint(k, m);
    OrMaskBits(b, ByteMask(k), ByteMask(m));
  }

  lemma {:induction false} OrMaskBits(b: bv8, x: bv8, y: bv8)
    ensures x & y == 0 ==> (b | x) & y == b & y
    ensures x != 0 ==> (b | x) & x != 0
  {
  }

  lemma {:induction false} MasksDisjoint(k: nat, m: nat)
    requires k < 8 && m < 8
    ensures ByteMask(k) & ByteMask(m) == if k == m then ByteMask(k) else 0
    ensures ByteMask(k) != 0
  {
    assert ByteMask(0) == 1 && ByteMask(1) == 2 && ByteMask(2) == 4 && ByteMask(3) == 8;
    assert ByteMask(4) == 16 && ByteMask(5) == 32 && ByteMask(6) == 64 && ByteMask(7) == 128;
    assert k in {0, 1, 2, 3, 4, 5, 6, 7} && m in {0, 1, 2, 3, 4, 5, 6, 7};
  }

  /** Claiming one leaf sets its bit and no other. */
  lemma {:induction false} ClaimsOne(bitmap: seq<bv8>, i: nat, j: nat)
    requires i / 8 < |bitmap| && j / 8 < |bitmap|
    ensures IsClaimed(SetClaimed(bitmap, i), j) <==> j == i || IsClaimed(bitmap, j)
  {
    if i / 8 == j / 8 {
      OrMask(bitmap[i / 8], i % 8, j % 8);
    }
  }

  lemma {:induction false} NoneClaimed(leafCount: nat, i: nat)
    requires i < leafCount
    ensures i / 8 < |EmptyBitmap(leafCount)| && !IsClaimed(EmptyBitmap(leafCount), i)
  {
    var mask := ByteMask(i % 8);
    assert 0 & mask == 0;
  }

  /** `asset_bit`, for an index below 32. */
  function AssetBit(assetIdx: nat): bv32
    requires assetIdx < 32
  {
    1 << assetIdx
  }

  predicate HasBit(mask: bv32, assetIdx: nat)
    requires assetIdx < 32
  {
    Overlap(mask, AssetBit(assetIdx))
  }

  predicate Overlap(mask: bv32, bit: bv32) {
    mask & bit != 0
  }

  lemma {:induction false} IndexBack(i: nat)
    requires i < 32
    ensures (i as bv32) as nat == i
  {
  }

  lemma {:induction false} IndicesDiffer(i: nat, j: nat)
    requires i < 32 && j < 32 && i != j
    ensures i as bv32 != j as bv32
  {
    IndexBack(i);
    IndexBack(j);
  }

  lemma {:induction false} ShiftsDisjoint(i: bv32, j: bv32)
    requires i < 32 && j < 32
    ensures i != j ==> !Overlap((1 as bv32) << i, (1 as bv32) << j)
    ensures (1 as bv32) << i != 0
  {
  }

  lemma {:induction false} AssetBitIsShift(i: nat)
    requires i < 32
    ensures i as bv32 < 32 && AssetBit(i) == (1 as bv32) << (i as bv32)
  {
  }

  lemma {:induction false} AssetBitsDisjoint(i: nat, j: nat)
    requires i < 32 && j < 32
    ensures i != j ==> !Overlap(AssetBit(i), AssetBit(j))
    ensures AssetBit(i) != 0
  {
    hide AssetBit, Overlap;
    AssetBitIsShift(i);
    AssetBitIsShift(j);
    ShiftsDisjoint(i as bv32, j as bv32);
    if i != j {
      IndicesDiffer(i, j);
    }
  }

  function Mark(mask: bv32, bit: bv32): bv32 {
    mask | bit
  }

  lemma {:induction false} OrKeeps(mask: bv32, x: bv32, y: bv32)
    ensures x & y == 0 ==> (mask | x) & y == mask & y
    ensures x != 0 ==> (mask | x) & x != 0
  {
  }

  lemma {:induction false} MarkKeeps(mask: bv32, x: bv32, y: bv32)
    ensures !Overlap(x, y) ==> (Overlap(Mark(mask, x), y) <==> Overlap(mask, y))
    ensures x != 0 ==> Overlap(Mark(mask, x), x)
  {
    OrKeeps(mask, x, y);
  }

  /** Marking one asset marks no other. */
  lemma {:induction false} MarksOne(mask: bv32, i: nat, j: nat)
    requires i < 32 && j < 32
    ensures HasBit(Mark(mask, AssetBit(i)), j) <==> i == j || HasBit(mask, j)
  {
    hide AssetBit, Overlap, Mark;
    AssetBitsDisjoint(i, j);
    MarkKeeps(mask, AssetBit(i), AssetBit(j));
  }
}
