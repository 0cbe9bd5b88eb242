/** The keeper's fee buckets: keeper/feeSplit.ts and the bucket arithmetic of keeper/round/operations.ts and coin.ts. */
module Ledgers {
  import opened Terms

  const TOTAL_BPS := 10_000

  datatype Bucket = Basket | Flywheel | PlatformBuyback | PlatformRevenue | Operations

  datatype Ledger = Ledger(basket: int, flywheel: int, platformBuyback: int, platformRevenue: int, operations: int)
  {
    function Get(bucket: Bucket): int {
      match bucket
      case Basket => basket
      case Flywheel => flywheel
      case PlatformBuyback => platformBuyback
      case PlatformRevenue => platformRevenue
      case Operations => operations
    }

    function Set(bucket: Bucket, amount: int): Ledger {
      match bucket
      case Basket => this.(basket := amount)
      case Flywheel => this.(flywheel := amount)
      case PlatformBuyback => this.(platformBuyback := amount)
      case PlatformRevenue => this.(platformRevenue := amount)
      case Operations => this.(operations := amount)
    }

    function Total(): int {
      basket + flywheel + platformBuyback + platformRevenue + operations
    }

    predicate NonNegative() {
      basket >= 0 && flywheel >= 0 && platformBuyback >= 0 && platformRevenue >= 0 && operations >= 0
    }
  }

  function Min(a: int, b: int): int {
    if a < b then a else b
  }

  /** Takes up to `amount` from a bucket; the second result is what was taken. */
  function Debit(ledger: Ledger, bucket: Bucket, amount: int): (Ledger, int) {
    var taken := Min(amount, ledger.Get(bucket));
    (ledger.Set(bucket, ledger.Get(bucket) - taken), taken)
  }

  // ---- splitting revenue ------------------------------------------------------------------

  function SumOf(amounts: seq<nat>): nat
    decreases |amounts|
  {
    if amounts == [] then 0 else SumOf(amounts[..|amounts| - 1]) + amounts[|amounts| - 1]
  }

  function Floors(total: nat, shares: seq<nat>, denominator: nat): (amounts: seq<nat>)
    requires denominator > 0
    ensures |amounts| == |shares|
  {
    seq(|shares|, i requires 0 <= i < |shares| => total * shares[i] / denominator)
  }

  /** None where the source throws: the shares must sum to the denominator. */
  method SplitByBps(total: nat, shares: seq<nat>, denominator: nat) returns (result: Option<seq<nat>>)
    requires denominator > 0
    ensures result.Some? <==> SumOf(shares) == denominator
    ensures result.Some? ==> IsSplit(total, shares, denominator, result.value)
  {
    if SumOf(shares) != denominator {
      return None;
    }
    var floors := Floors(total, shares, denominator);
    FloorsFit(total, shares, denominator);
    var last := |floors| - 1;
    var amounts := new nat[|floors|](i requires 0 <= i < |floors| => floors[i]);
    assert amounts[..] == floors;
    amounts[last] := amounts[last] + (total - SumOf(floors));
    assert amounts[..] == floors[last := floors[last] + (total - SumOf(floors))];
    SumReplace(floors, last, floors[last] + (total - SumOf(floors)));
    result := Some(amounts[..]);
  }

  /** Nothing lost, everyone at least their floor, and only the last more: by less than one unit a share. */
  ghost predicate IsSplit(total: nat, shares: seq<nat>, denominator: nat, amounts: seq<nat>)
    requires denominator > 0
  {
    |amounts| == |shares| > 0 && SumOf(amounts) == total
    && (forall i :: 0 <= i < |shares| - 1 ==> amounts[i] == total * shares[i] / denominator)
    && var last := |shares| - 1;
       total * shares[last] / denominator <= amounts[last] < total * shares[last] / denominator + |shares|
  }

  lemma {:induction false} SumReplace(amounts: seq<nat>, i: nat, x: nat)
    requires i < |amounts|
    ensures SumOf(amounts[i := x]) == SumOf(amounts) - amounts[i] + x
    decreases |amounts|
  {
    var n := |amounts| - 1;
    if i < n {
      SumReplace(amounts[..n], i, x);
      assert amounts[i := x][..n] == amounts[..n][i := x];
    } else {
      assert amounts[i := x][..n] == amounts[..n];
    }
  }

  /** The floors leave less than one unit a share over. */
  lemma {:induction false} FloorsNearly(total: nat, shares: seq<nat>, denominator: nat)
    requires denominator > 0
    ensures denominator * SumOf(Floors(total, shares, denominator)) <= total * SumOf(shares)
    ensures shares != [] ==>
      total * SumOf(shares) < denominator * SumOf(Floors(total, shares, denominator)) + denominator * |shares|
    decreases |shares|
  {
    if shares != [] {
      var n := |shares| - 1;
      var floors := Floors(total, shares, denominator);
      FloorsNearly(total, shares[..n], denominator);
      assert floors[..n] == Floors(total, shares[..n], denominator);
      Quotient(total * shares[n], denominator);
      Expand(total, SumOf(shares[..n]), shares[n]);
      Expand(denominator, SumOf(floors[..n]), floors[n]);
      Expand(denominator, n, 1);
      if n == 0 {
        assert shares[..n] == [] && floors[..n] == [];
      }
    }
  }

  lemma {:induction false} Quotient(x: nat, d: nat)
    requires d > 0
    ensures d * (x / d) <= x < d * (x / d) + d
  {
  }

  lemma {:induction false} Expand(x: int, a: int, b: int)
    ensures x * (a + b) == x * a + x * b
  {
  }

  lemma {:induction false} LessByFactor(d: nat, a: int, b: int)
    requires d > 0
    ensures d * a <= d * b ==> a <= b
    ensures d * a < d * b ==> a < b
  {
    if a > b {
      Expand(d, b, a - b);
      assert d * (a - b) >= d by { Expand(d, a - b - 1, 1); assert d * (a - b - 1) >= 0; }
    }
  }

  lemma {:induction false} FloorsFit(total: nat, shares: seq<nat>, denominator: nat)
    requires denominator > 0 && SumOf(shares) == denominator
    ensures shares != []
    ensures SumOf(Floors(total, shares, denominator)) <= total < SumOf(Floors(total, shares, denominator)) + |shares|
  {
    var given := SumOf(Floors(total, shares, denominator));
    FloorsNearly(total, shares, denominator);
    assert total * denominator == denominator * total;
    LessByFactor(denominator, given, total);
    Expand(denominator, given, |shares|);
    LessByFactor(denominator, total, given + |shares|);
  }

  datatype Shares = Shares(basket: nat, flywheel: nat, platformBuyback: nat, platformRevenue: nat)

  predicate FullShares(shares: Shares) {
    shares.flywheel + shares.platformBuyback + shares.platformRevenue + shares.basket == TOTAL_BPS
  }

  /** The basket comes last and takes the rounding remainder. */
  function Credit(ledger: Ledger, lamports: nat, shares: Shares): Ledger {
    var flywheel := lamports * shares.flywheel / TOTAL_BPS;
    var buyback := lamports * shares.platformBuyback / TOTAL_BPS;
    var revenue := lamports * shares.platformRevenue / TOTAL_BPS;
    Ledger(ledger.basket + lamports - flywheel - buyback - revenue, ledger.flywheel + flywheel,
      ledger.platformBuyback + buyback, ledger.platformRevenue + revenue, ledger.operations)
  }

  method CreditRevenue(ledger: Ledger, lamports: nat, shares: Shares) returns (result: Ledger)
    requires FullShares(shares)
    ensures result == Credit(ledger, lamports, shares)
  {
    var list := [shares.flywheel, shares.platformBuyback, shares.platformRevenue, shares.basket];
    SumFour(list);
    var split := SplitByBps(lamports, list, TOTAL_BPS);
    var amounts := split.value;
    SumFour(amounts);
    result := Ledger(ledger.basket + amounts[3], ledger.flywheel + amounts[0], ledger.platformBuyback + amounts[1],
      ledger.platformRevenue + amounts[2], ledger.operations);
  }

  lemma {:induction false} SumFour(list: seq<nat>)
    requires |list| == 4
    ensures SumOf(list) == list[0] + list[1] + list[2] + list[3]
  {
    assert SumOf(list[..1]) == list[0] by { assert list[..1][..0] == []; }
    assert list[..2][..1] == list[..1] && list[..3][..2] == list[..2] && list[..4] == list;
    assert SumOf(list[..2]) == list[0] + list[1];
    assert SumOf(list[..3]) == list[0] + list[1] + list[2];
  }

  /** A claim's credit loses nothing, and no bucket shrinks. */
  lemma {:induction false} CreditConserves(ledger: Ledger, lamports: nat, shares: Shares)
    requires FullShares(shares)
    ensures var after := Credit(ledger, lamports, shares);
      after.Total() == ledger.Total() + lamports && after.operations == ledger.operations
      && after.basket >= ledger.basket && after.flywheel >= ledger.flywheel
      && after.platformBuyback >= ledger.platformBuyback && after.platformRevenue >= ledger.platformRevenue
  {
    var others := shares.flywheel + shares.platformBuyback + shares.platformRevenue;
    assert lamports * others <= lamports * TOTAL_BPS by { Expand(lamports, others, shares.basket); }
    Expand(lamports, shares.flywheel + shares.platformBuyback, shares.platformRevenue);
    Expand(lamports, shares.flywheel, shares.platformBuyback);
  }

  /** `part` is `share` ten-thousandths of an amount, rounded down. */
  ghost predicate IsShareOf(part: int, lamports: nat, share: nat) {
    part * TOTAL_BPS <= lamports * share < (part + 1) * TOTAL_BPS
  }

  /** Each bucket gets its own share rounded down, the basket what is left, and nothing is lost. */
  ghost predicate SharedOut(before: Ledger, after: Ledger, lamports: nat, shares: Shares) {
    after.Total() == before.Total() + lamports && after.operations == before.operations
    && IsShareOf(after.flywheel - before.flywheel, lamports, shares.flywheel)
    && IsShareOf(after.platformBuyback - before.platformBuyback, lamports, shares.platformBuyback)
    && IsShareOf(after.platformRevenue - before.platformRevenue, lamports, shares.platformRevenue)
  }

  lemma {:induction false} CreditSharesOut(ledger: Ledger, lamports: nat, shares: Shares)
    ensures SharedOut(ledger, Credit(ledger, lamports, shares), lamports, shares)
  {
    QuotientIsShare(lamports, shares.flywheel);
    QuotientIsShare(lamports, shares.platformBuyback);
    QuotientIsShare(lamports, shares.platformRevenue);
    hide IsShareOf;
  }

  lemma {:induction false} QuotientIsShare(lamports: nat, share: nat)
    ensures IsShareOf(lamports * share / TOTAL_BPS, lamports, share)
  {
    Quotient(lamports * share, TOTAL_BPS);
  }

  /** And that determines every bucket. */
  lemma {:induction false} SharedOutIsOne(before: Ledger, x: Ledger, y: Ledger, lamports: nat, shares: Shares)
    requires SharedOut(before, x, lamports, shares) && SharedOut(before, y, lamports, shares)
    ensures x == y
  {
  }

  // ---- charging costs -----------------------------------------------------------------------

  /** A cost comes from its bucket, and what the bucket lacks from the basket. */
  function Charge(ledger: Ledger, bucket: Bucket, cost: nat): Ledger {
    var (after, taken) := Debit(ledger, bucket, cost);
    if cost > taken then Debit(after, Basket, cost - taken).0 else after
  }

  /** A spend lowers the ledger by its cost, or by all that its bucket and the basket hold. */
  lemma {:induction false} ChargeTakes(ledger: Ledger, bucket: Bucket, cost: nat)
    requires ledger.NonNegative()
    ensures Charge(ledger, bucket, cost).NonNegative()
    ensures ledger.Total() - Charge(ledger, bucket, cost).Total()
         == Min(cost, if bucket.Basket? then ledger.basket else ledger.Get(bucket) + ledger.basket)
    ensures forall other: Bucket :: other != bucket && other != Basket ==>
        Charge(ledger, bucket, cost).Get(other) == ledger.Get(other)
    ensures cost <= ledger.Get(bucket) ==> Charge(ledger, bucket, cost) == ledger.Set(bucket, ledger.Get(bucket) - cost)
  {
  }

  /** Settles a finished round's reserve against what it really spent. */
  function Reconcile(ledger: Ledger, reserve: int, spent: int): Ledger {
    var (after, held) := Debit(ledger, Operations, reserve);
    if spent <= held then after.(basket := after.basket + held - spent)
    else Debit(after, Basket, spent - held).0
  }

  /** With the whole reserve still held, settling never clips it: it leaves the other rounds' reserves as they are,
      and the ledger pays what the round spent, or all the reserve and the basket hold. */
  lemma {:induction false} ReconcileSettles(ledger: Ledger, reserve: nat, spent: int)
    requires ledger.NonNegative() && reserve <= ledger.operations
    ensures var after := Reconcile(ledger, reserve, spent);
      after.NonNegative() && after.operations == ledger.operations - reserve
      && ledger.Total() - after.Total() == Min(spent, reserve + ledger.basket)
      && after.flywheel == ledger.flywheel && after.platformBuyback == ledger.platformBuyback
      && after.platformRevenue == ledger.platformRevenue
  {
  }
}
