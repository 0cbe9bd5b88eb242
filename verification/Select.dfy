/** keeper/round/select.ts: which snapshots count toward a round. */
module SampleSelection {
  import opened Terms
  import opened Sorting
  import opened Sampling

  datatype Ref = Ref(index: int, slot: int)

  datatype SlotWindow = SlotWindow(startSlot: int, endSlot: int)

  datatype Result<+T> = Ok(value: T) | BadCount | BadWindow | DuplicateIndex

  predicate BySlot(a: Ref, b: Ref) {
    a.slot < b.slot || (a.slot == b.slot && a.index < b.index)
  }

  function IndexSet(refs: seq<Ref>): set<int> {
    set r | r in refs :: r.index
  }

  predicate Inside(window: SlotWindow, r: Ref) {
    window.startSlot <= r.slot <= window.endSlot
  }

  function InWindow(candidates: seq<Ref>, window: SlotWindow): (inside: seq<Ref>)
    ensures |inside| <= |candidates|
    decreases |candidates|
  {
    if candidates == [] then []
    else
      var n := |candidates| - 1;
      InWindow(candidates[..n], window) + if Inside(window, candidates[n]) then [candidates[n]] else []
  }

  function InSlotOrder(refs: seq<Ref>): (sorted: seq<Ref>)
    ensures |sorted| == |refs|
  {
    Sort(refs, (a, b) => BySlot(a, b))
  }

  function Indices(refs: seq<Ref>): (indices: seq<int>)
    ensures |indices| == |refs|
  {
    seq(|refs|, i requires 0 <= i < |refs| => refs[i].index)
  }

  /** The candidates that are picked, in slot order. */
  ghost function Picked(candidates: seq<Ref>, window: SlotWindow, k: nat, hash: BlockHash): seq<Ref>
    requires Blocks(hash) && Lively(hash) && |candidates| <= TWO_POW_64
  {
    var inside := InSlotOrder(InWindow(candidates, window));
    if |inside| <= k then InSlotOrder(inside)
    else InSlotOrder(Shuffle(inside, Draws(hash, |inside|, 0))[..k])
  }

  ghost function Select(candidates: seq<Ref>, window: SlotWindow, k: int, hash: BlockHash): Result<seq<int>>
    requires Blocks(hash) && Lively(hash) && |candidates| <= TWO_POW_64
  {
    if k < 1 then BadCount
    else if window.startSlot > window.endSlot then BadWindow
    else if |IndexSet(candidates)| != |candidates| then DuplicateIndex
    else Ok(Indices(Picked(candidates, window, k, hash)))
  }

  /** `hash` is sha256 of the round's sample seed with a counter. */
  method SelectSampleIndices(candidates: seq<Ref>, window: SlotWindow, k: int,
                             hash: BlockHash) returns (result: Result<seq<int>>)
    requires Blocks(hash) && Lively(hash) && |candidates| <= TWO_POW_64
    ensures result == Select(candidates, window, k, hash)
    // All that are inside, or the first k of their shuffle by the seed's own draws; in slot order.
    ensures result.Ok? ==> IsSelection(candidates, window, k, hash, result.value)
    ensures result.Ok? ==> var inside := Count(candidates, r => Inside(window, r));
      |result.value| == (if inside <= k then inside else k)
      && forall i, j :: 0 <= i < j < |result.value| ==> result.value[i] != result.value[j]
  {
    hide Shuffle, Draws, Lively, Blocks, InWindow, IsSelection;
    if k < 1 {
      return BadCount;
    }
    if window.startSlot > window.endSlot {
      return BadWindow;
    }
    if |IndexSet(candidates)| != |candidates| {
      return DuplicateIndex;
    }
    var picked := InSlotOrder(InWindow(candidates, window));
    if |picked| > k {
      var rng := new Sha256Rng(hash);
      var out := Shuffled(picked, rng);
      assert out[..k] == out[..][..k];
      picked := out[..k];
    }
    result := Ok(Indices(InSlotOrder(picked)));
    SelectionHolds(candidates, window, k, hash);
    SelectionIsDrawn(candidates, window, k, hash);
  }

  // ---- properties -----------------------------------------------------------------------------

  ghost predicate DistinctIndices(refs: seq<Ref>) {
    forall i, j :: 0 <= i < j < |refs| ==> refs[i].index != refs[j].index
  }

  lemma {:induction false} IndexSetDistinct(refs: seq<Ref>)
    ensures |IndexSet(refs)| <= |refs|
    ensures |IndexSet(refs)| == |refs| ==> DistinctIndices(refs)
    decreases |refs|
  {
    if refs != [] {
      var n := |refs| - 1;
      IndexSetDistinct(refs[..n]);
      assert refs == refs[..n] + [refs[n]];
      assert IndexSet(refs) == IndexSet(refs[..n]) + {refs[n].index};
      if |IndexSet(refs)| == |refs| {
        forall i | 0 <= i < n
          ensures refs[i].index != refs[n].index
        {
          assert refs[..n][i].index in IndexSet(refs[..n]);
        }
      }
    }
  }

  lemma {:induction false} InWindowHolds(candidates: seq<Ref>, window: SlotWindow, x: Ref)
    ensures multiset(InWindow(candidates, window))[x] == if Inside(window, x) then multiset(candidates)[x] else 0
    decreases |candidates|
  {
    if candidates != [] {
      InWindowHolds(candidates[..|candidates| - 1], window, x);
      assert candidates == candidates[..|candidates| - 1] + [candidates[|candidates| - 1]];
    }
  }

  lemma {:induction false} InWindowCount(candidates: seq<Ref>, window: SlotWindow)
    ensures |InWindow(candidates, window)| == Count(candidates, r => Inside(window, r))
    decreases |candidates|
  {
    if candidates != [] {
      InWindowCount(candidates[..|candidates| - 1], window);
    }
  }

  lemma {:induction false} BySlotIsOrder()
    ensures WeakOrder((a: Ref, b: Ref) => BySlot(a, b))
  {
  }

  lemma {:induction false} SlotOrderHolds(refs: seq<Ref>)
    ensures multiset(InSlotOrder(refs)) == multiset(refs)
    ensures forall i, j :: 0 <= i < j < |refs| ==> InSlotOrder(refs)[i].slot <= InSlotOrder(refs)[j].slot
  {
    BySlotIsOrder();
    SortHolds(refs, (a, b) => BySlot(a, b));
    SortSorts(refs, (a, b) => BySlot(a, b));
  }

  lemma {:induction false} PartOfWhole(whole: seq<Ref>, k: nat)
    requires k <= |whole|
    ensures multiset(whole[..k]) <= multiset(whole)
  {
    assert whole == whole[..k] + whole[k..];
  }

  lemma {:induction false} PickedShape(candidates: seq<Ref>, window: SlotWindow, k: nat, hash: BlockHash)
    requires Blocks(hash) && Lively(hash) && |candidates| <= TWO_POW_64
    ensures var picked := Picked(candidates, window, k, hash);
      |picked| == (if |InWindow(candidates, window)| <= k then |InWindow(candidates, window)| else k)
      && multiset(picked) <= multiset(InWindow(candidates, window))
      && forall i, j :: 0 <= i < j < |picked| ==> picked[i].slot <= picked[j].slot
  {
    hide Shuffle, Draws, Lively, Blocks, InSlotOrder;
    var inside := InSlotOrder(InWindow(candidates, window));
    SlotOrderHolds(InWindow(candidates, window));
    if |inside| <= k {
      SlotOrderHolds(inside);
    } else {
      var shuffled := Shuffle(inside, Draws(hash, |inside|, 0));
      ShuffleHolds(inside, Draws(hash, |inside|, 0));
      PartOfWhole(shuffled, k);
      SlotOrderHolds(shuffled[..k]);
    }
  }

  lemma {:induction false} PartIsDistinct(part: seq<Ref>, all: seq<Ref>)
    requires DistinctIndices(all) && forall x :: multiset(part)[x] <= multiset(all)[x]
    ensures DistinctIndices(part)
  {
    forall i, j | 0 <= i < j < |part|
      ensures part[i].index != part[j].index
    {
      if part[i].index == part[j].index {
        InMultiset(part, part[i]);
        InMultiset(part, part[j]);
        InMultiset(all, part[i]);
        InMultiset(all, part[j]);
        assert part[i] == part[j];
        TwiceIn(part, i, j);
        AtMostOnce(all, part[i]);
        assert false;
      }
    }
  }

  lemma {:induction false} TwiceIn(part: seq<Ref>, i: nat, j: nat)
    requires i < j < |part| && part[i] == part[j]
    ensures multiset(part)[part[i]] >= 2
  {
    assert part == part[..j] + [part[j]] + part[j + 1..];
    assert part[i] in part[..j];
  }

  lemma {:induction false} AtMostOnce(all: seq<Ref>, x: Ref)
    requires DistinctIndices(all)
    ensures multiset(all)[x] <= 1
    decreases |all|
  {
    if all != [] {
      AtMostOnce(all[..|all| - 1], x);
      assert all == all[..|all| - 1] + [all[|all| - 1]];
    }
  }

  /** Distinct candidates inside the window, in slot order, `k` of them or all there are. */
  lemma {:induction false} SelectionHolds(candidates: seq<Ref>, window: SlotWindow, k: int, hash: BlockHash)
    requires Blocks(hash) && Lively(hash) && |candidates| <= TWO_POW_64 && Select(candidates, window, k, hash).Ok?
    ensures var picked := Picked(candidates, window, k, hash); var inside := Count(candidates, r => Inside(window, r));
      Select(candidates, window, k, hash) == Ok(Indices(picked)) && |picked| == (if inside <= k then inside else k)
      && (forall i :: 0 <= i < |picked| ==> picked[i] in candidates && Inside(window, picked[i]))
      && (forall i, j :: 0 <= i < j < |picked| ==>
            picked[i].index != picked[j].index && picked[i].slot <= picked[j].slot)
  {
    hide Lively, Blocks, InWindow, Picked;
    var picked := Picked(candidates, window, k, hash);
    PickedShape(candidates, window, k, hash);
    InWindowCount(candidates, window);
    IndexSetDistinct(candidates);
    forall x
      ensures multiset(picked)[x] <= multiset(candidates)[x]
      ensures multiset(picked)[x] > 0 ==> Inside(window, x)
    {
      InWindowHolds(candidates, window, x);
    }
    PartIsDistinct(picked, candidates);
    forall i | 0 <= i < |picked|
      ensures picked[i] in candidates && Inside(window, picked[i])
    {
      InMultiset(picked, picked[i]);
      InMultiset(candidates, picked[i]);
    }
  }

  /** The order the candidates are listed in does not matter. */
  lemma {:induction false} SelectionForgetsOrder(a: seq<Ref>, b: seq<Ref>, window: SlotWindow, k: int, hash: BlockHash)
    requires Blocks(hash) && Lively(hash) && |a| <= TWO_POW_64 && multiset(a) == multiset(b) && |b| <= TWO_POW_64
    ensures Select(a, window, k, hash) == Select(b, window, k, hash)
  {
    hide Shuffle, Draws, Lively, Blocks, InWindow, InSlotOrder, DistinctIndices;
    SameMembers(a, b);
    assert IndexSet(a) == IndexSet(b);
    if |IndexSet(a)| == |a| {
      IndexSetDistinct(a);
      WindowForgetsOrder(a, b, window);
    }
  }

  lemma {:induction false} WindowForgetsOrder(a: seq<Ref>, b: seq<Ref>, window: SlotWindow)
    requires multiset(a) == multiset(b) && DistinctIndices(a)
    ensures InSlotOrder(InWindow(a, window)) == InSlotOrder(InWindow(b, window))
  {
    var x, y := InWindow(a, window), InWindow(b, window);
    forall r
      ensures multiset(x)[r] == multiset(y)[r] <= multiset(a)[r]
    {
      InWindowHolds(a, window, r);
      InWindowHolds(b, window, r);
    }
    PartIsDistinct(x, a);
    BySlotIsOrder();
    SortForgetsOrder(x, y, (p, q) => BySlot(p, q));
  }

  // ---- what is selected ----------------------------------------------------------------------------

  /** The candidates inside the window, each as often as it is listed, earliest slot first. */
  ghost predicate InsideInOrder(candidates: seq<Ref>, window: SlotWindow, inside: seq<Ref>) {
    (forall x :: multiset(inside)[x] == if Inside(window, x) then multiset(candidates)[x] else 0)
    && forall i, j :: 0 <= i < j < |inside| ==> BySlot(inside[i], inside[j])
  }

  /** Position `i` is drawn from the first word accepted after the one that position `i + 1` took. */
  ghost predicate DrawnAt(hash: BlockHash, draws: seq<nat>, at: seq<nat>, start: nat, i: nat)
    requires 0 < i < |draws| == |at|
  {
    Blocks(hash)
    && IsNext(hash, i + 1, if i + 1 < |draws| then at[i + 1] + 1 else start, at[i])
    && draws[i] == Draw(hash, at[i]) % (i + 1)
  }

  /** The draws are the stream's accepted words, one after the other, the last position's first, each reduced to its
      position's range. */
  ghost predicate FromStream(hash: BlockHash, draws: seq<nat>, at: seq<nat>, start: nat) {
    |at| == |draws| && forall i :: 0 < i < |draws| ==> DrawnAt(hash, draws, at, start, i)
  }

  lemma {:induction false} DrawsAreTheStreams(hash: BlockHash, n: nat, start: nat) returns (at: seq<nat>)
    requires Blocks(hash) && Lively(hash) && n <= TWO_POW_64
    ensures FromStream(hash, Draws(hash, n, start), at, start)
    decreases n
  {
    if n <= 1 {
      at := seq(n, i => 0);
    } else {
      var k := NextAccepted(hash, n, start);
      var front := DrawsAreTheStreams(hash, n - 1, k + 1);
      at := front + [k];
      LastDrawn(hash, Draws(hash, n - 1, k + 1), front, n, start, k);
    }
  }

  lemma {:induction false} LastDrawn(hash: BlockHash, front: seq<nat>, at: seq<nat>, n: nat, start: nat, k: nat)
    requires n > 1 && |front| == n - 1 && Blocks(hash) && FromStream(hash, front, at, k + 1)
    requires IsNext(hash, n, start, k)
    ensures FromStream(hash, front + [Draw(hash, k) % n], at + [k], start)
  {
    hide IsNext, Draw, Blocks;
    var draws, all := front + [Draw(hash, k) % n], at + [k];
    forall i | 0 < i < n
      ensures DrawnAt(hash, draws, all, start, i)
    {
      if i < n - 1 {
        assert DrawnAt(hash, front, at, k + 1, i);
        assert draws[i] == front[i] && all[i] == at[i] && (i + 1 < n - 1 ==> all[i + 1] == at[i + 1]);
      }
    }
  }

  lemma {:induction false} StrictlyInOrder(refs: seq<Ref>)
    requires DistinctIndices(refs)
    ensures forall i, j :: 0 <= i < j < |refs| ==> BySlot(InSlotOrder(refs)[i], InSlotOrder(refs)[j])
  {
    BySlotIsOrder();
    SortSorts(refs, (a, b) => BySlot(a, b));
    SlotOrderHolds(refs);
    hide InSlotOrder;
    PartIsDistinct(InSlotOrder(refs), refs);
  }

  lemma {:induction false} WindowInOrder(candidates: seq<Ref>, window: SlotWindow)
    requires DistinctIndices(candidates)
    ensures InsideInOrder(candidates, window, InSlotOrder(InWindow(candidates, window)))
    ensures DistinctIndices(InSlotOrder(InWindow(candidates, window)))
    ensures var inside := InSlotOrder(InWindow(candidates, window));
      forall i, j :: 0 <= i < j < |inside| ==> BySlot(inside[i], inside[j])
  {
    hide InSlotOrder, InWindow, DistinctIndices;
    var inside := InWindow(candidates, window);
    forall x
      ensures multiset(inside)[x] == if Inside(window, x) then multiset(candidates)[x] else 0
    {
      InWindowHolds(candidates, window, x);
    }
    PartIsDistinct(inside, candidates);
    StrictlyInOrder(inside);
    SlotOrderHolds(inside);
    PartIsDistinct(InSlotOrder(inside), inside);
  }

  /** What a selection is: with no more than `k` inside, all of them; with more, the first `k` of the shuffle of them by
      the draws of the seed's own stream. Either way in slot order. */
  ghost predicate IsSelection(candidates: seq<Ref>, window: SlotWindow, k: int, hash: BlockHash, indices: seq<int>) {
    exists picked :: IsPicked(candidates, window, k, hash, picked) && indices == Indices(picked)
  }

  ghost predicate IsPicked(candidates: seq<Ref>, window: SlotWindow, k: int, hash: BlockHash, picked: seq<Ref>) {
    exists inside :: InsideInOrder(candidates, window, inside) && IsPickedFrom(inside, k, hash, picked)
  }

  ghost predicate IsPickedFrom(inside: seq<Ref>, k: int, hash: BlockHash, picked: seq<Ref>) {
    (forall i, j :: 0 <= i < j < |picked| ==> BySlot(picked[i], picked[j]))
    && if |inside| <= k then picked == inside
       else k >= 1 && exists draws, at :: FromStream(hash, draws, at, 0) && IsHead(inside, draws, k, picked)
  }

  ghost predicate IsHead(inside: seq<Ref>, draws: seq<nat>, k: nat, picked: seq<Ref>) {
    |draws| == |inside| && DrawVector(draws) && k <= |inside|
    && multiset(picked) == multiset(Shuffle(inside, draws)[..k])
  }

  lemma {:induction false} SelectionIsDrawn(candidates: seq<Ref>, window: SlotWindow, k: int, hash: BlockHash)
    requires Blocks(hash) && Lively(hash) && |candidates| <= TWO_POW_64 && Select(candidates, window, k, hash).Ok?
    ensures IsSelection(candidates, window, k, hash, Select(candidates, window, k, hash).value)
  {
    hide Shuffle, Draws, Lively, Blocks, InSlotOrder, InWindow, DistinctIndices, InsideInOrder, FromStream, IsHead;
    IndexSetDistinct(candidates);
    WindowInOrder(candidates, window);
    var inside := InSlotOrder(InWindow(candidates, window));
    var picked := Picked(candidates, window, k, hash);
    if |inside| <= k {
      AlreadyInOrder(inside);
      StrictlyInOrder(inside);
    } else {
      var draws := Draws(hash, |inside|, 0);
      var at := DrawsAreTheStreams(hash, |inside|, 0);
      DrawnHead(inside, draws, k, picked);
      HeadInOrder(inside, draws, k);
    }
    assert IsPickedFrom(inside, k, hash, picked);
  }

  lemma {:induction false} DrawnHead(inside: seq<Ref>, draws: seq<nat>, k: nat, picked: seq<Ref>)
    requires |draws| == |inside| && DrawVector(draws) && k <= |inside|
    requires picked == InSlotOrder(Shuffle(inside, draws)[..k])
    ensures IsHead(inside, draws, k, picked)
  {
    hide Shuffle, InSlotOrder;
    SlotOrderHolds(Shuffle(inside, draws)[..k]);
  }

  lemma {:induction false} HeadInOrder(inside: seq<Ref>, draws: seq<nat>, k: nat)
    requires |draws| == |inside| && DrawVector(draws) && k <= |inside| && DistinctIndices(inside)
    ensures var head := Shuffle(inside, draws)[..k];
      forall i, j :: 0 <= i < j < k ==> BySlot(InSlotOrder(head)[i], InSlotOrder(head)[j])
  {
    hide Shuffle, InSlotOrder, DistinctIndices;
    var order := Shuffle(inside, draws);
    ShuffleHolds(inside, draws);
    PartOfWhole(order, k);
    PartIsDistinct(order[..k], inside);
    StrictlyInOrder(order[..k]);
  }

  lemma {:induction false} AlreadyInOrder(inside: seq<Ref>)
    requires DistinctIndices(inside) && forall i, j :: 0 <= i < j < |inside| ==> BySlot(inside[i], inside[j])
    ensures InSlotOrder(inside) == inside
  {
    hide DistinctIndices;
    SlotOrderHolds(inside);
    StrictlyInOrder(inside);
    hide InSlotOrder;
    SameInOrder(InSlotOrder(inside), inside);
  }

  lemma {:induction false} SameInOrder(a: seq<Ref>, b: seq<Ref>)
    requires multiset(a) == multiset(b)
    requires forall i, j :: 0 <= i < j < |a| ==> BySlot(a[i], a[j])
    requires forall i, j :: 0 <= i < j < |b| ==> BySlot(b[i], b[j])
    ensures a == b
    decreases |a|
  {
    SameMembers(a, b);
    if a != [] {
      var n := |a| - 1;
      assert a[n] in b && b[n] in a;
      DropLastOf(a, b);
      SameInOrder(a[..n], b[..n]);
      assert a == a[..n] + [a[n]] && b == b[..n] + [b[n]];
    }
  }
}
