/** lib/rng.ts and keeper/round/select.ts: draws from a public seed, a shuffle, and the samples it picks. */
module Sampling {
  import opened Terms
  import opened Sorting
  import opened SlotHashes
  import Merkle

  const TWO_POW_64 := 0x1_0000_0000_0000_0000

  /** sha256 of the seed with a counter, for one seed. */
  type BlockHash = nat -> seq<byte>

  ghost predicate Blocks(hash: BlockHash) {
    forall c: nat :: |hash(c)| == 32
  }

  /** The k-th 64-bit value of the stream: blocks in counter order, eight bytes at a time. */
  function Draw(hash: BlockHash, k: nat): nat
    requires Blocks(hash)
  {
    ReadU64(hash(k / 4), 8 * (k % 4))
  }

  /** The largest multiple of `n` that 64 bits reach; values at or above it are rejected. */
  function Limit(n: nat): nat
    requires n > 0
  {
    TWO_POW_64 / n * n
  }

  /** From every point on, some value is accepted: what makes `below` return at all. */
  ghost predicate Lively(hash: BlockHash)
    requires Blocks(hash)
  {
    forall n: nat, start: nat :: 0 < n <= TWO_POW_64 ==> Accepts(hash, n, start)
  }

  ghost predicate Accepts(hash: BlockHash, n: nat, start: nat)
    requires Blocks(hash) && n > 0
  {
    exists k: nat :: start <= k && Draw(hash, k) < Limit(n)
  }

  lemma {:induction false} FirstAccepted(hash: BlockHash, n: nat, start: nat, k: nat) returns (first: nat)
    requires Blocks(hash) && n > 0 && start <= k && Draw(hash, k) < Limit(n)
    ensures start <= first <= k && Draw(hash, first) < Limit(n)
    ensures forall j: nat :: start <= j < first ==> Draw(hash, j) >= Limit(n)
    decreases k
  {
    first := k;
    if j: nat :| start <= j < k && Draw(hash, j) < Limit(n) {
      first := FirstAccepted(hash, n, start, j);
    }
  }

  ghost predicate IsNext(hash: BlockHash, n: nat, start: nat, k: nat)
    requires Blocks(hash) && n > 0
  {
    start <= k && Draw(hash, k) < Limit(n) && forall j: nat :: start <= j < k ==> Draw(hash, j) >= Limit(n)
  }

  lemma {:induction false} NextExists(hash: BlockHash, n: nat, start: nat)
    requires Blocks(hash) && Lively(hash) && 0 < n <= TWO_POW_64
    ensures exists k: nat :: IsNext(hash, n, start, k)
  {
    assert Accepts(hash, n, start);
    var k: nat :| start <= k && Draw(hash, k) < Limit(n);
    var first := FirstAccepted(hash, n, start, k);
    assert IsNext(hash, n, start, first);
  }

  /** Where `below(n)` stops when it starts at value `start`. */
  ghost function NextAccepted(hash: BlockHash, n: nat, start: nat): (k: nat)
    requires Blocks(hash) && Lively(hash) && 0 < n <= TWO_POW_64
    ensures IsNext(hash, n, start, k)
  {
    NextExists(hash, n, start);
    var k: nat :| IsNext(hash, n, start, k);
    k
  }

  lemma {:induction false} NextIsUnique(hash: BlockHash, n: nat, start: nat, a: nat, b: nat)
    requires Blocks(hash) && n > 0 && IsNext(hash, n, start, a) && IsNext(hash, n, start, b)
    ensures a == b
  {
  }

  ghost predicate IsPool(hash: BlockHash, pool: seq<byte>, drawn: nat, counter: nat)
    requires Blocks(hash)
  {
    |pool| % 8 == 0 && |pool| <= 32 && 4 * counter == drawn + |pool| / 8
    && (pool != [] ==> counter > 0 && pool == hash(counter - 1)[32 - |pool|..])
  }

  class Sha256Rng {
    const hash: BlockHash
    var counter: nat
    var pool: seq<byte>
    ghost var drawn: nat

    /** The pool is what is left of the last block. */
    ghost predicate Valid()
      reads this
    {
      Blocks(hash) && IsPool(hash, pool, drawn, counter)
    }

    constructor (hash: BlockHash)
      requires Blocks(hash)
      ensures Valid() && drawn == 0 && this.hash == hash
    {
      this.hash := hash;
      counter, pool, drawn := 0, [], 0;
    }

    method Refill()
      requires Valid() && |pool| < 8
      modifies this`counter, this`pool
      ensures Valid() && |pool| == 32
    {
      var next := hash(counter);
      RefilledPool(hash, pool, drawn, counter);
      counter := counter + 1;
      pool := pool + next;
    }

    method NextU64() returns (value: nat)
      requires Valid()
      modifies this
      ensures Valid() && drawn == old(drawn) + 1 && value == Draw(hash, old(drawn))
    {
      hide Draw, ReadU64;
      while |pool| < 8
        invariant Valid() && drawn == old(drawn)
        decreases 32 - |pool|
      {
        Refill();
      }
      PoolIsStream(hash, pool, drawn, counter);
      value := ReadU64(pool, 0);
      pool := pool[8..];
      drawn := drawn + 1;
    }

    /** None where the source throws. The draw is the first value below the limit, reduced. */
    method Below(n: int) returns (result: Option<nat>)
      requires Valid() && Lively(hash)
      modifies this
      ensures Valid()
      ensures result.None? <==> n <= 0 || n > TWO_POW_64
      ensures result.None? ==> drawn == old(drawn)
      ensures result.Some? ==> drawn == NextAccepted(hash, n, old(drawn)) + 1
                               && result.value == Draw(hash, NextAccepted(hash, n, old(drawn))) % n
    {
      if n <= 0 || n > TWO_POW_64 {
        return None;
      }
      var limit := TWO_POW_64 / n * n;
      ghost var accepted := NextAccepted(hash, n, drawn);
      var value := NextU64();
      while value >= limit
        invariant Valid() && old(drawn) < drawn <= accepted + 1 && value == Draw(hash, drawn - 1)
        invariant forall j: nat :: old(drawn) <= j < drawn - 1 ==> Draw(hash, j) >= limit
        decreases accepted + 1 - drawn
      {
        value := NextU64();
      }
      NextIsUnique(hash, n, old(drawn), drawn - 1, accepted);
      result := Some(value % n);
    }
  }

  lemma {:induction false} PoolIsStream(hash: BlockHash, pool: seq<byte>, drawn: nat, counter: nat)
    requires Blocks(hash) && IsPool(hash, pool, drawn, counter) && |pool| >= 8
    ensures ReadU64(pool, 0) == Draw(hash, drawn) && IsPool(hash, pool[8..], drawn + 1, counter)
  {
    hide LittleEndian;
    var block, at := hash(counter - 1), 32 - |pool|;
    assert pool[0..8] == block[at..at + 8];
    assert drawn / 4 == counter - 1 && 8 * (drawn % 4) == at;
    assert pool[8..] == block[at + 8..];
  }

  lemma {:induction false} RefilledPool(hash: BlockHash, pool: seq<byte>, drawn: nat, counter: nat)
    requires Blocks(hash) && IsPool(hash, pool, drawn, counter) && |pool| < 8
    ensures |pool + hash(counter)| == 32 && IsPool(hash, pool + hash(counter), drawn, counter + 1)
  {
    assert pool + hash(counter) == hash(counter)[0..];
  }

  // ---- no modulo bias --------------------------------------------------------------------------

  /** How many of the values below `m` leave remainder `r`. */
  function Hits(m: nat, n: nat, r: nat): nat
    requires n > 0
    decreases m
  {
    if m == 0 then 0 else Hits(m - 1, n, r) + if (m - 1) % n == r then 1 else 0
  }

  lemma {:induction false} ModOffset(q: nat, n: nat, o: nat)
    requires o < n
    ensures (q * n + o) % n == o
    decreases q
  {
    if q > 0 {
      ModOffset(q - 1, n, o);
      assert q * n + o == (q - 1) * n + o + n;
      ModStep((q - 1) * n + o, n);
    } else {
      assert q * n == 0;
    }
  }

  lemma {:induction false} ModStep(x: nat, n: nat)
    requires n > 0
    ensures (x + n) % n == x % n
  {
    var q, r := x / n, x % n;
    assert x == q * n + r;
    assert x + n == (q + 1) * n + r;
    Merkle.DivModUnique(x + n, n, q + 1, r);
  }

  lemma {:induction false} HitsInRun(q: nat, n: nat, r: nat, o: nat)
    requires r < n && o <= n
    ensures Hits(q * n + o, n, r) == Hits(q * n, n, r) + if r < o then 1 else 0
    decreases o
  {
    if o > 0 {
      HitsInRun(q, n, r, o - 1);
      ModOffset(q, n, o - 1);
    }
  }

  lemma {:induction false} HitsInMultiple(q: nat, n: nat, r: nat)
    requires r < n
    ensures Hits(q * n, n, r) == q
    decreases q
  {
    if q > 0 {
      HitsInMultiple(q - 1, n, r);
      HitsInRun(q - 1, n, r, n);
      assert (q - 1) * n + n == q * n;
    } else {
      assert q * n == 0;
    }
  }

  /** `below(n)` accepts equally many 64-bit values for every outcome. */
  lemma {:induction false} EqualShares(n: nat, r: nat)
    requires 0 < n <= TWO_POW_64 && r < n
    ensures Hits(Limit(n), n, r) == TWO_POW_64 / n
  {
    HitsInMultiple(TWO_POW_64 / n, n, r);
  }

  // ---- the shuffle --------------------------------------------------------------------------------

  /** One draw for each position, at most that position. */
  predicate DrawVector(draws: seq<nat>) {
    forall i :: 0 <= i < |draws| ==> draws[i] <= i
  }

  function Swap<T>(items: seq<T>, i: nat, j: nat): (r: seq<T>)
    requires i < |items| && j < |items|
    ensures |r| == |items|
  {
    items[i := items[j]][j := items[i]]
  }

  function Shuffle<T>(items: seq<T>, draws: seq<nat>): (r: seq<T>)
    requires |draws| == |items| && DrawVector(draws)
    ensures |r| == |items|
    decreases |items|
  {
    if items == [] then []
    else
      var n := |items| - 1;
      var swapped := Swap(items, n, draws[n]);
      Shuffle(swapped[..n], draws[..n]) + [swapped[n]]
  }

  ghost predicate NoRepeats<T>(items: seq<T>) {
    forall i, j :: 0 <= i < j < |items| ==> items[i] != items[j]
  }

  lemma {:induction false} SwapHolds<T>(items: seq<T>, i: nat, j: nat)
    requires i < |items| && j < |items|
    ensures multiset(Swap(items, i, j)) == multiset(items)
    ensures NoRepeats(items) ==> NoRepeats(Swap(items, i, j))
  {
  }

  lemma {:induction false} ShuffleHolds<T>(items: seq<T>, draws: seq<nat>)
    requires |draws| == |items| && DrawVector(draws)
    ensures multiset(Shuffle(items, draws)) == multiset(items)
    decreases |items|
  {
    if items != [] {
      var n := |items| - 1;
      var swapped := Swap(items, n, draws[n]);
      SwapHolds(items, n, draws[n]);
      ShuffleHolds(swapped[..n], draws[..n]);
      assert swapped == swapped[..n] + [swapped[n]];
    }
  }

  lemma {:induction false} ShuffleStep<T>(items: seq<T>, draws: seq<nat>)
    requires items != [] && |draws| == |items| && DrawVector(draws)
    ensures var n := |items| - 1;
      Shuffle(items, draws)[n] == items[draws[n]]
      && Shuffle(items, draws)[..n] == Shuffle(Swap(items, n, draws[n])[..n], draws[..n])
  {
  }

  /** Different draws, different orders. */
  lemma {:induction false} ShuffleIsInjective<T>(items: seq<T>, a: seq<nat>, b: seq<nat>)
    requires |a| == |b| == |items| && DrawVector(a) && DrawVector(b) && NoRepeats(items)
    requires Shuffle(items, a) == Shuffle(items, b)
    ensures a == b
    decreases |items|
  {
    if items != [] {
      var n := |items| - 1;
      hide Shuffle;
      ShuffleStep(items, a);
      ShuffleStep(items, b);
      var swapped := Swap(items, n, a[n]);
      SwapHolds(items, n, a[n]);
      ShuffleIsInjective(swapped[..n], a[..n], b[..n]);
      assert a == a[..n] + [a[n]] && b == b[..n] + [b[n]];
    }
  }

  lemma {:induction false} ShuffleNothing<T>(items: seq<T>, draws: seq<nat>)
    requires items == [] && draws == []
    ensures Shuffle(items, draws) == []
  {
  }

  lemma {:induction false} SwapLast<T>(items: seq<T>, j: nat)
    requires j < |items|
    ensures Swap(items, |items| - 1, j)[|items| - 1] == items[j]
  {
  }

  /** Every order is some draws'. */
  lemma {:induction false} ShuffleIsSurjective<T>(items: seq<T>, order: seq<T>) returns (draws: seq<nat>)
    requires multiset(order) == multiset(items)
    ensures |draws| == |items| && DrawVector(draws) && Shuffle(items, draws) == order
    decreases |items|
  {
    hide Shuffle, Swap;
    SameMembers(order, items);
    if items == [] {
      draws := [];
      ShuffleNothing(items, draws);
    } else {
      var n := |items| - 1;
      assert order[n] in items;
      var j :| 0 <= j < |items| && items[j] == order[n];
      var swapped := Swap(items, n, j);
      SwapHolds(items, n, j);
      SwapLast(items, j);
      DropLastOf(swapped, order);
      var front := ShuffleIsSurjective(swapped[..n], order[..n]);
      draws := front + [j];
      DrawsAppend(items, front, j);
      assert order == order[..n] + [order[n]];
    }
  }

  lemma {:induction false} DrawsAppend<T>(items: seq<T>, front: seq<nat>, j: nat)
    requires items != [] && |front| == |items| - 1 && DrawVector(front) && j < |items|
    ensures DrawVector(front + [j])
    ensures Shuffle(items, front + [j]) == Shuffle(Swap(items, |items| - 1, j)[..|items| - 1], front) + [items[j]]
  {
    assert (front + [j])[..|front|] == front;
  }

  lemma {:induction false} DropLastOf<T>(a: seq<T>, b: seq<T>)
    requires multiset(a) == multiset(b) && a != [] && b != [] && a[|a| - 1] == b[|b| - 1]
    ensures multiset(b[..|b| - 1]) == multiset(a[..|a| - 1])
  {
    var x := a[|a| - 1];
    assert a == a[..|a| - 1] + [x] && b == b[..|b| - 1] + [x];
    assert multiset(a[..|a| - 1]) == multiset(a) - multiset{x};
    assert multiset(b[..|b| - 1]) == multiset(b) - multiset{x};
  }

  // ---- drawing a shuffle --------------------------------------------------------------------------

  /** The draws of a shuffle of `n` items that starts at value `start` of the stream: the last position first. */
  ghost function Draws(hash: BlockHash, n: nat, start: nat): (draws: seq<nat>)
    requires Blocks(hash) && Lively(hash) && n <= TWO_POW_64
    ensures |draws| == n && DrawVector(draws)
    decreases n
  {
    if n <= 1 then seq(n, i => 0)
    else
      var k := NextAccepted(hash, n, start);
      Draws(hash, n - 1, k + 1) + [Draw(hash, k) % n]
  }

  lemma {:induction false} ShuffleTail<T>(items: seq<T>, draws: seq<nat>, i: nat)
    requires |draws| == |items| && DrawVector(draws) && i + 1 == |items|
    ensures Shuffle(items, draws) == Shuffle(Swap(items, i, draws[i])[..i], draws[..i]) + [Swap(items, i, draws[i])[i]]
  {
  }

  lemma {:induction false} DrawsStep(hash: BlockHash, draws: seq<nat>, i: nat, start: nat)
    requires Blocks(hash) && Lively(hash) && 0 < i < |draws| <= TWO_POW_64
    requires draws[..i + 1] == Draws(hash, i + 1, start)
    ensures var k := NextAccepted(hash, i + 1, start);
      draws[i] == Draw(hash, k) % (i + 1) && draws[i] <= i && draws[..i] == Draws(hash, i, k + 1)
  {
    assert draws[..i + 1][i] == draws[i] && draws[..i + 1][..i] == draws[..i];
  }

  method SwapCells<T>(out: array<T>, i: nat, j: nat)
    requires i < out.Length && j < out.Length
    modifies out
    ensures out[..] == Swap(old(out[..]), i, j)
  {
    out[i], out[j] := out[j], out[i];
  }

  /** Fisher-Yates in a new array, one draw a position from the last down to the second. */
  method Shuffled<T>(items: seq<T>, rng: Sha256Rng) returns (out: array<T>)
    requires rng.Valid() && Lively(rng.hash) && |items| <= TWO_POW_64
    modifies rng
    ensures fresh(out) && rng.Valid() && out[..] == Shuffle(items, Draws(rng.hash, |items|, old(rng.drawn)))
  {
    hide Shuffle, Swap, Draws, DrawVector, Draw, IsNext, Lively;
    ghost var draws := Draws(rng.hash, |items|, rng.drawn);
    out := new T[|items|](k requires 0 <= k < |items| => items[k]);
    assert out[..] == items;
    var i := out.Length - 1;
    ghost var cells := items;
    assert cells[..i + 1] == items && cells[i + 1..] == [];
    while i > 0
      invariant -1 <= i < |items| == out.Length && cells == out[..] && rng.Valid()
      invariant draws[..i + 1] == Draws(rng.hash, i + 1, rng.drawn)
      invariant Shuffle(cells[..i + 1], draws[..i + 1]) + cells[i + 1..] == Shuffle(items, draws)
    {
      DrawsStep(rng.hash, draws, i, rng.drawn);
      var drawn := rng.Below(i + 1);
      var j := drawn.value;
      NextDraw(cells, draws, i, j, Shuffle(items, draws));
      SwapCells(out, i, j);
      cells := Swap(cells, i, j);
      i := i - 1;
    }
    ShuffleOne(cells[..i + 1], draws[..i + 1]);
    assert cells[..i + 1] + cells[i + 1..] == cells;
  }

  lemma {:induction false} NextDraw<T>(cells: seq<T>, draws: seq<nat>, i: nat, j: nat, result: seq<T>)
    requires i < |cells| == |draws| && DrawVector(draws) && j == draws[i]
    requires Shuffle(cells[..i + 1], draws[..i + 1]) + cells[i + 1..] == result
    ensures draws[..i + 1][..i] == draws[..i]
    ensures Shuffle(Swap(cells, i, j)[..i], draws[..i]) + Swap(cells, i, j)[i..] == result
  {
    hide Shuffle, Swap;
    assert draws[..i + 1][..i] == draws[..i];
    ShuffleTail(cells[..i + 1], draws[..i + 1], i);
    SwapWithin(cells, i, j);
  }

  lemma {:induction false} ShuffleOne<T>(items: seq<T>, draws: seq<nat>)
    requires |items| == |draws| <= 1 && DrawVector(draws)
    ensures Shuffle(items, draws) == items
  {
    if items != [] {
      assert Swap(items, 0, 0) == items;
      assert Shuffle(items[..0], draws[..0]) == [];
    }
  }

  lemma {:induction false} SwapWithin<T>(out: seq<T>, i: nat, j: nat)
    requires j <= i < |out|
    ensures Swap(out[..i + 1], i, j)[..i] == Swap(out, i, j)[..i]
    ensures [Swap(out[..i + 1], i, j)[i]] + out[i + 1..] == Swap(out, i, j)[i..]
  {
  }
}
