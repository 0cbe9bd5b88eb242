/** From snapshots to a round's allocation: the first half of keeper/round/allocate.ts and `allocate`. */
module Holders {
  import opened Terms
  import opened Sorting
  import opened Apportionment
  import opened Allocation

  const LAMPORTS_PER_SOL := 1_000_000_000
  const MAX_ASSETS_PER_ROUND := 30

  datatype Rational = Rational(num: int, den: int)

  type Price = p: Rational | p.num >= 0 && p.den > 0 witness Rational(0, 1)

  datatype Row = Row(address: nat, owner: nat, amount: int)

  datatype Snapshot = Snapshot(index: int, slot: int, poolPrice: Rational, accounts: seq<Row>)

  datatype Exclusion = Exclusion(owner: nat, reason: string)

  /** `offCurve`: the owners that are program addresses. */
  datatype Input = Input(
    snapshots: seq<Snapshot>, exclusions: seq<Exclusion>, assets: seq<AssetInput>, solUsdMicro: int,
    params: Params, offCurve: set<nat>)

  datatype Holder = Holder(owner: nat, sampleBalances: seq<int>, twab: int, valueUsdMicro: int, eligible: bool)

  datatype HolderTable = HolderTable(holders: seq<Holder>, excluded: seq<Exclusion>, medianPoolPrice: Price)

  datatype Error =
    | BadParams | TooManyAssets | DuplicateMint | NoSnapshots | BadSolPrice | DuplicateIndex | BadRow | BadPrice
    | BadAsset

  datatype Result<+T> = Ok(value: T) | Err(error: Error)

  // ---- balances ----------------------------------------------------------------------

  predicate Earlier(a: Snapshot, b: Snapshot) {
    a.slot < b.slot || (a.slot == b.slot && a.index < b.index)
  }

  function Ordered(snapshots: seq<Snapshot>): (ordered: seq<Snapshot>)
    ensures |ordered| == |snapshots|
  {
    Sort(snapshots, (a, b) => Earlier(a, b))
  }

  /** Later entries win, as in a Map built from the list. */
  function Explicit(exclusions: seq<Exclusion>, owner: nat): Option<string>
    decreases |exclusions|
  {
    if exclusions == [] then None
    else
      var last := exclusions[|exclusions| - 1];
      if last.owner == owner then Some(last.reason) else Explicit(exclusions[..|exclusions| - 1], owner)
  }

  function ExcludedFor(input: Input, owner: nat): Option<string> {
    if Explicit(input.exclusions, owner).Some? then Explicit(input.exclusions, owner)
    else if owner in input.offCurve then Some("program-owned (off-curve) wallet") else None
  }

  function Addresses(rows: seq<Row>): set<nat> {
    set row | row in rows :: row.address
  }

  predicate GoodRows(rows: seq<Row>) {
    (forall row :: row in rows ==> row.amount >= 0) && |Addresses(rows)| == |rows|
  }

  function BalanceIn(rows: seq<Row>, owner: nat): int
    decreases |rows|
  {
    if rows == [] then 0
    else
      var last := rows[|rows| - 1];
      BalanceIn(rows[..|rows| - 1], owner) + if last.owner == owner then last.amount else 0
  }

  function OwnersIn(rows: seq<Row>): set<nat> {
    set row | row in rows :: row.owner
  }

  function AllOwners(ordered: seq<Snapshot>): set<nat>
    decreases |ordered|
  {
    if ordered == [] then {}
    else AllOwners(ordered[..|ordered| - 1]) + OwnersIn(ordered[|ordered| - 1].accounts)
  }

  function Counted(input: Input, owners: set<nat>): set<nat> {
    set owner | owner in owners && ExcludedFor(input, owner).None?
  }

  function Balances(ordered: seq<Snapshot>, owner: nat): seq<int> {
    seq(|ordered|, i requires 0 <= i < |ordered| => BalanceIn(ordered[i].accounts, owner))
  }

  function Total(amounts: seq<int>): int
    decreases |amounts|
  {
    if amounts == [] then 0 else Total(amounts[..|amounts| - 1]) + amounts[|amounts| - 1]
  }

  // ---- the median price ---------------------------------------------------------------

  predicate Cheaper(a: Price, b: Price) {
    a.num * b.den < b.num * a.den
  }

  predicate AllPriced(snapshots: seq<Snapshot>) {
    forall i :: 0 <= i < |snapshots| ==> snapshots[i].poolPrice.num >= 0 && snapshots[i].poolPrice.den > 0
  }

  function Prices(snapshots: seq<Snapshot>): (prices: seq<Price>)
    requires AllPriced(snapshots)
    ensures |prices| == |snapshots|
  {
    seq(|snapshots|, i requires 0 <= i < |snapshots| => snapshots[i].poolPrice)
  }

  function Median(values: seq<Price>): Price
    requires values != []
  {
    Sort(values, (a, b) => Cheaper(a, b))[(|values| - 1) / 2]
  }

  // ---- holders ---------------------------------------------------------------------------

  function HolderOf(ordered: seq<Snapshot>, price: Price, solUsdMicro: nat, minEligibleUsdMicro: nat,
                    owner: nat): Holder
    requires ordered != []
  {
    var balances := Balances(ordered, owner);
    var twab := Total(balances) / |ordered|;
    var scaled := twab * price.num * solUsdMicro;
    Holder(owner, balances, twab, scaled / (price.den * LAMPORTS_PER_SOL),
      twab > 0 && scaled >= minEligibleUsdMicro * price.den * LAMPORTS_PER_SOL)
  }

  ghost function Lowest(s: set<nat>): (m: nat)
    requires s != {}
    ensures m in s && forall x :: x in s ==> m <= x
  {
    LowestExists(s);
    var m :| IsLowest(s, m);
    m
  }

  lemma {:induction false} LowestExists(s: set<nat>)
    requires s != {}
    ensures exists m :: IsLowest(s, m)
    decreases |s|
  {
    var k :| k in s;
    if s == {k} {
      assert IsLowest(s, k);
    } else {
      LowestExists(s - {k});
      var m :| IsLowest(s - {k}, m);
      LowerOfTwo(s, k, m);
    }
  }

  lemma {:induction false} LowerOfTwo(s: set<nat>, k: nat, m: nat)
    requires k in s && IsLowest(s - {k}, m)
    ensures IsLowest(s, if k < m then k else m)
  {
    forall x | x in s
      ensures (if k < m then k else m) <= x
    {
      assert x == k || x in s - {k};
    }
  }

  ghost predicate IsLowest(s: set<nat>, m: nat) {
    m in s && forall x :: x in s ==> m <= x
  }

  ghost function Ascending(s: set<nat>): (list: seq<nat>)
    ensures |list| == |s|
    decreases |s|
  {
    if s == {} then [] else [Lowest(s)] + Ascending(s - {Lowest(s)})
  }

  ghost function HolderRows(ordered: seq<Snapshot>, price: Price, solUsdMicro: nat, minEligibleUsdMicro: nat,
                            owners: seq<nat>)
    : (rows: seq<Holder>)
    requires ordered != []
  {
    seq(|owners|, i requires 0 <= i < |owners| => HolderOf(ordered, price, solUsdMicro, minEligibleUsdMicro, owners[i]))
  }

  ghost function ExcludedRows(input: Input, owners: seq<nat>): seq<Exclusion> {
    seq(|owners|, i requires 0 <= i < |owners| =>
      Exclusion(owners[i], if ExcludedFor(input, owners[i]).Some? then ExcludedFor(input, owners[i]).value else ""))
  }

  function Refusal(input: Input): Option<Error> {
    if input.snapshots == [] then Some(NoSnapshots)
    else if input.solUsdMicro <= 0 then Some(BadSolPrice)
    else if |IndexSet(input.snapshots)| != |input.snapshots| then Some(DuplicateIndex)
    else if exists s :: s in input.snapshots && !GoodRows(s.accounts) then Some(BadRow)
    else if !AllPriced(input.snapshots) then Some(BadPrice)
    else None
  }

  function IndexSet(snapshots: seq<Snapshot>): set<int> {
    set s | s in snapshots :: s.index
  }

  ghost function HoldersOf(input: Input): Result<HolderTable>
    requires input.params.minEligibleUsdMicro >= 0
  {
    match Refusal(input)
    case Some(error) => Err(error)
    case None =>
      var ordered := Ordered(input.snapshots);
      OrderedPriced(input.snapshots);
      var price := Median(Prices(ordered));
      var owners := AllOwners(ordered);
      Ok(HolderTable(
        HolderRows(ordered, price, input.solUsdMicro, input.params.minEligibleUsdMicro,
                   Ascending(Counted(input, owners))),
        ExcludedRows(input, Ascending(owners - Counted(input, owners))), price))
  }

  // ---- ordering the snapshots ----------------------------------------------------------

  lemma {:induction false} OrderedHolds(snapshots: seq<Snapshot>)
    ensures multiset(Ordered(snapshots)) == multiset(snapshots)
    ensures forall s :: s in Ordered(snapshots) <==> s in snapshots
  {
    SortHolds(snapshots, (a, b) => Earlier(a, b));
    forall s
      ensures s in Ordered(snapshots) <==> s in snapshots
    {
      InMultiset(Ordered(snapshots), s);
      InMultiset(snapshots, s);
    }
  }

  lemma {:induction false} OrderedPriced(snapshots: seq<Snapshot>)
    requires AllPriced(snapshots)
    ensures AllPriced(Ordered(snapshots))
  {
    OrderedHolds(snapshots);
    var ordered := Ordered(snapshots);
    forall i | 0 <= i < |ordered|
      ensures ordered[i].poolPrice.num >= 0 && ordered[i].poolPrice.den > 0
    {
      assert ordered[i] in snapshots;
    }
  }

  // ---- the order of snapshots and rows does not matter -------------------------------------

  lemma {:induction false} EarlierIsOrder()
    ensures WeakOrder((a: Snapshot, b: Snapshot) => Earlier(a, b))
  {
  }

  ghost predicate Indexed(snapshots: seq<Snapshot>) {
    forall i, j :: 0 <= i < j < |snapshots| ==> snapshots[i].index != snapshots[j].index
  }

  lemma {:induction false} IndexSetSize(snapshots: seq<Snapshot>)
    ensures |IndexSet(snapshots)| <= |snapshots|
    ensures |IndexSet(snapshots)| == |snapshots| ==> Indexed(snapshots)
    decreases |snapshots|
  {
    if snapshots != [] {
      var n := |snapshots| - 1;
      var front, last := IndexSet(snapshots[..n]), snapshots[n].index;
      IndexSetSize(snapshots[..n]);
      IndexSetAppend(snapshots, n);
      hide IndexSet;
      if |IndexSet(snapshots)| == |snapshots| {
        assert last !in front;
        assert forall i :: 0 <= i < n ==> snapshots[..n][i] == snapshots[i];
      }
    }
  }

  lemma {:induction false} IndexSetAppend(snapshots: seq<Snapshot>, n: nat)
    requires |snapshots| == n + 1
    ensures IndexSet(snapshots) == IndexSet(snapshots[..n]) + {snapshots[n].index}
    ensures forall i :: 0 <= i < n ==> snapshots[i].index in IndexSet(snapshots[..n])
  {
    assert snapshots == snapshots[..n] + [snapshots[n]];
    assert forall i :: 0 <= i < n ==> snapshots[..n][i] == snapshots[i] && snapshots[..n][i] in snapshots[..n];
  }

  lemma {:induction false} OrderedForgets(a: seq<Snapshot>, b: seq<Snapshot>)
    requires multiset(a) == multiset(b) && |IndexSet(a)| == |a|
    ensures Ordered(a) == Ordered(b)
  {
    IndexSetSize(a);
    EarlierIsOrder();
    SortForgetsOrder(a, b, (x, y) => Earlier(x, y));
  }

  lemma {:induction false} PricedByMembers(a: seq<Snapshot>, b: seq<Snapshot>)
    requires forall x :: x in b ==> x in a
    requires AllPriced(a)
    ensures AllPriced(b)
  {
    forall i | 0 <= i < |b|
      ensures b[i].poolPrice.num >= 0 && b[i].poolPrice.den > 0
    {
      assert b[i] in a;
    }
  }

  lemma {:induction false} SnapshotOrderRefusal(a: Input, b: Input)
    requires b == a.(snapshots := b.snapshots) && multiset(a.snapshots) == multiset(b.snapshots)
    ensures Refusal(a) == Refusal(b)
  {
    hide AllPriced, GoodRows;
    SameMembers(a.snapshots, b.snapshots);
    assert IndexSet(a.snapshots) == IndexSet(b.snapshots);
    if AllPriced(a.snapshots) { PricedByMembers(a.snapshots, b.snapshots); }
    if AllPriced(b.snapshots) { PricedByMembers(b.snapshots, a.snapshots); }
  }

  lemma {:induction false} SnapshotOrder(a: Input, b: Input)
    requires a.params.minEligibleUsdMicro >= 0
    requires b == a.(snapshots := b.snapshots) && multiset(a.snapshots) == multiset(b.snapshots)
    ensures HoldersOf(a) == HoldersOf(b)
  {
    hide Ordered, AllPriced, AllOwners;
    SnapshotOrderRefusal(a, b);
    if Refusal(a).None? {
      OrderedForgets(a.snapshots, b.snapshots);
      forall owners
        ensures Counted(a, owners) == Counted(b, owners)
        ensures ExcludedRows(a, Ascending(owners)) == ExcludedRows(b, Ascending(owners))
      {
        CountsAlike(a, b, owners);
      }
    }
  }

  lemma {:induction false} CountsAlike(a: Input, b: Input, owners: set<nat>)
    requires b == a.(snapshots := b.snapshots)
    ensures Counted(a, owners) == Counted(b, owners)
    ensures ExcludedRows(a, Ascending(owners)) == ExcludedRows(b, Ascending(owners))
  {
  }

  /** The same snapshot with its rows in another order. */
  ghost predicate Alike(a: Snapshot, b: Snapshot) {
    b == a.(accounts := b.accounts) && multiset(a.accounts) == multiset(b.accounts)
  }

  ghost predicate AllAlike(a: seq<Snapshot>, b: seq<Snapshot>) {
    |a| == |b| && forall i :: 0 <= i < |a| ==> Alike(a[i], b[i])
  }

  lemma {:induction false} InsertAlike(x: Snapshot, a: seq<Snapshot>, y: Snapshot, b: seq<Snapshot>)
    requires Alike(x, y) && AllAlike(a, b)
    ensures AllAlike(Insert(x, a, (p, q) => Earlier(p, q)), Insert(y, b, (p, q) => Earlier(p, q)))
    decreases |a|
  {
    if a != [] {
      var n := |a| - 1;
      assert AllAlike(a[..n], b[..n]);
      InsertAlike(x, a[..n], y, b[..n]);
    }
  }

  lemma {:induction false} OrderedAlike(a: seq<Snapshot>, b: seq<Snapshot>)
    requires AllAlike(a, b)
    ensures AllAlike(Ordered(a), Ordered(b))
    decreases |a|
  {
    if a != [] {
      var n := |a| - 1;
      assert AllAlike(a[..n], b[..n]);
      OrderedAlike(a[..n], b[..n]);
      InsertAlike(a[n], Ordered(a[..n]), b[n], Ordered(b[..n]));
    }
  }

  lemma {:induction false} BalanceWithout(rows: seq<Row>, k: nat, owner: nat)
    requires k < |rows|
    ensures BalanceIn(rows, owner)
         == BalanceIn(rows[..k] + rows[k + 1..], owner) + if rows[k].owner == owner then rows[k].amount else 0
    decreases |rows|
  {
    var n := |rows| - 1;
    var rest := rows[..k] + rows[k + 1..];
    BalanceLast(rows, owner);
    if k == n {
      assert rest == rows[..n];
    } else {
      assert rest[..n - 1] == rows[..n][..k] + rows[..n][k + 1..] && rest[n - 1] == rows[n];
      BalanceLast(rest, owner);
      hide BalanceIn;
      BalanceWithout(rows[..n], k, owner);
    }
  }

  lemma {:induction false} BalanceLast(rows: seq<Row>, owner: nat)
    requires rows != []
    ensures var n := |rows| - 1;
      BalanceIn(rows, owner) == BalanceIn(rows[..n], owner) + if rows[n].owner == owner then rows[n].amount else 0
  {
  }

  lemma {:induction false} BalanceForgetsOrder(a: seq<Row>, b: seq<Row>, owner: nat)
    requires multiset(a) == multiset(b)
    ensures BalanceIn(a, owner) == BalanceIn(b, owner)
    decreases |a|
  {
    SameMembers(a, b);
    if a != [] {
      var n := |a| - 1;
      assert a[n] in b;
      var k :| 0 <= k < |b| && b[k] == a[n];
      BalanceWithout(b, k, owner);
      RemoveBoth(a, b, k);
      BalanceForgetsOrder(a[..n], b[..k] + b[k + 1..], owner);
    }
  }

  lemma {:induction false} RowsAlike(a: Snapshot, b: Snapshot)
    requires Alike(a, b)
    ensures GoodRows(a.accounts) <==> GoodRows(b.accounts)
    ensures OwnersIn(a.accounts) == OwnersIn(b.accounts)
  {
    SameMembers(a.accounts, b.accounts);
    assert forall row :: row in a.accounts <==> row in b.accounts;
    assert Addresses(a.accounts) == Addresses(b.accounts);
    assert OwnersIn(a.accounts) == OwnersIn(b.accounts);
  }

  lemma {:induction false} OwnersAlike(a: seq<Snapshot>, b: seq<Snapshot>)
    requires AllAlike(a, b)
    ensures AllOwners(a) == AllOwners(b)
    decreases |a|
  {
    if a != [] {
      var n := |a| - 1;
      OwnersAlike(a[..n], b[..n]);
      RowsAlike(a[n], b[n]);
    }
  }

  lemma {:induction false} BalancesAlike(a: seq<Snapshot>, b: seq<Snapshot>, owner: nat)
    requires AllAlike(a, b)
    ensures Balances(a, owner) == Balances(b, owner)
  {
    forall i | 0 <= i < |a|
      ensures BalanceIn(a[i].accounts, owner) == BalanceIn(b[i].accounts, owner)
    {
      BalanceForgetsOrder(a[i].accounts, b[i].accounts, owner);
    }
  }

  lemma {:induction false} RowOrderRefusal(a: Input, b: Input)
    requires b == a.(snapshots := b.snapshots) && AllAlike(a.snapshots, b.snapshots)
    ensures Refusal(a) == Refusal(b)
  {
    hide GoodRows;
    IndicesAlike(a.snapshots, b.snapshots);
    if exists s :: s in a.snapshots && !GoodRows(s.accounts) { GoodAlike(a.snapshots, b.snapshots); }
    if exists s :: s in b.snapshots && !GoodRows(s.accounts) { GoodAlike(b.snapshots, a.snapshots); }
  }

  lemma {:induction false} IndicesAlike(a: seq<Snapshot>, b: seq<Snapshot>)
    requires AllAlike(a, b)
    ensures IndexSet(a) == IndexSet(b)
  {
    forall x | x in IndexSet(a)
      ensures x in IndexSet(b)
    {
      var i :| 0 <= i < |a| && a[i].index == x;
      assert b[i].index == x;
    }
    forall x | x in IndexSet(b)
      ensures x in IndexSet(a)
    {
      var i :| 0 <= i < |b| && b[i].index == x;
      assert a[i].index == x;
    }
  }

  lemma {:induction false} GoodAlike(a: seq<Snapshot>, b: seq<Snapshot>)
    requires AllAlike(a, b) && exists s :: s in a && !GoodRows(s.accounts)
    ensures exists s :: s in b && !GoodRows(s.accounts)
  {
    var s :| s in a && !GoodRows(s.accounts);
    var i :| 0 <= i < |a| && a[i] == s;
    RowsAlike(a[i], b[i]);
    assert b[i] in b;
  }

  lemma {:induction false} HolderRowsAlike(a: seq<Snapshot>, b: seq<Snapshot>, price: Price, solUsdMicro: nat,
                                           min: nat, owners: seq<nat>)
    requires AllAlike(a, b) && a != []
    ensures HolderRows(a, price, solUsdMicro, min, owners) == HolderRows(b, price, solUsdMicro, min, owners)
  {
    forall i | 0 <= i < |owners|
      ensures HolderOf(a, price, solUsdMicro, min, owners[i]) == HolderOf(b, price, solUsdMicro, min, owners[i])
    {
      BalancesAlike(a, b, owners[i]);
    }
  }

  lemma {:induction false} RowOrder(a: Input, b: Input)
    requires a.params.minEligibleUsdMicro >= 0
    requires b == a.(snapshots := b.snapshots) && AllAlike(a.snapshots, b.snapshots)
    ensures HoldersOf(a) == HoldersOf(b)
  {
    hide Ordered, AllOwners, Refusal, HolderRows, ExcludedRows, Median, Counted;
    RowOrderRefusal(a, b);
    if Refusal(a).None? {
      Unrefused(a);
      Unrefused(b);
      var x, y := Ordered(a.snapshots), Ordered(b.snapshots);
      OrderedAlike(a.snapshots, b.snapshots);
      OrderedPriced(a.snapshots);
      OrderedPriced(b.snapshots);
      assert Prices(x) == Prices(y);
      OwnersAlike(x, y);
      var owners := AllOwners(x);
      CountsAlike(a, b, owners);
      CountsAlike(a, b, owners - Counted(a, owners));
      HolderRowsAlike(x, y, Median(Prices(x)), a.solUsdMicro, a.params.minEligibleUsdMicro,
                      Ascending(Counted(a, owners)));
    }
  }

  lemma {:induction false} Unrefused(input: Input)
    requires Refusal(input).None?
    ensures input.snapshots != [] && AllPriced(input.snapshots) && input.solUsdMicro > 0
  {
  }

  // ---- the whole allocation ------------------------------------------------------------------

  datatype AssetAllocation = AssetAllocation(assetIdx: nat, share: Share)

  datatype SkippedAsset = SkippedAsset(mint: Key, reason: SkipReason)

  datatype RoundAllocation = RoundAllocation(table: HolderTable, assets: seq<AssetAllocation>,
                                             skipped: seq<SkippedAsset>)

  predicate SoundHolders(holders: seq<Holder>) {
    forall i :: 0 <= i < |holders| && holders[i].eligible ==> holders[i].twab > 0
  }

  function Eligible(holders: seq<Holder>): seq<Weighted>
    requires SoundHolders(holders)
    decreases |holders|
  {
    if holders == [] then []
    else
      var last := holders[|holders| - 1];
      Eligible(holders[..|holders| - 1]) + if last.eligible then [Weighted(last.owner, last.twab)] else []
  }

  function ShareAssets(assets: seq<AssetInput>, eligible: seq<Weighted>, params: Params,
                       table: HolderTable): Result<RoundAllocation>
    requires ValidParams(params)
    decreases |assets|
  {
    if assets == [] then Ok(RoundAllocation(table, [], []))
    else
      var n := |assets| - 1;
      match ShareAssets(assets[..n], eligible, params, table)
      case Err(error) => Err(error)
      case Ok(front) =>
        match AllocateAsset(assets[n], eligible, params)
        case NegativeAmounts => Err(BadAsset)
        case Skipped(reason) => Ok(front.(skipped := front.skipped + [SkippedAsset(assets[n].mint, reason)]))
        case Paid(share) => Ok(front.(assets := front.assets + [AssetAllocation(|front.assets|, share)]))
  }

  function Mints(assets: seq<AssetInput>): set<Key> {
    set asset | asset in assets :: asset.mint
  }

  ghost function Allocate(input: Input): Result<RoundAllocation> {
    if !ValidParams(input.params) then Err(BadParams)
    else if |input.assets| > MAX_ASSETS_PER_ROUND then Err(TooManyAssets)
    else if |Mints(input.assets)| != |input.assets| then Err(DuplicateMint)
    else
      match HoldersOf(input)
      case Err(error) => Err(error)
      case Ok(table) =>
        HoldersSound(input);
        ShareAssets(input.assets, Eligible(table.holders), input.params, table)
  }

  lemma {:induction false} HoldersSound(input: Input)
    requires input.params.minEligibleUsdMicro >= 0 && HoldersOf(input).Ok?
    ensures SoundHolders(HoldersOf(input).value.holders)
  {
  }

  /** The same allocation for any order of the snapshots and of the rows in each. `c` lists a's snapshots in
      another order, `b` lists the rows of each of those in another order. */
  lemma {:induction false} AllocateForgetsOrder(a: Input, c: Input, b: Input)
    requires c == a.(snapshots := c.snapshots) && multiset(a.snapshots) == multiset(c.snapshots)
    requires b == c.(snapshots := b.snapshots) && AllAlike(c.snapshots, b.snapshots)
    ensures Allocate(a) == Allocate(b)
  {
    hide HoldersOf, ShareAssets;
    if ValidParams(a.params) {
      SnapshotOrder(a, c);
      RowOrder(c, b);
    }
  }

  // ---- holders in key order -------------------------------------------------------------------

  ghost predicate InKeyOrder(list: seq<nat>, s: set<nat>) {
    (forall x :: x in list <==> x in s) && forall i, j :: 0 <= i < j < |list| ==> list[i] < list[j]
  }

  lemma {:induction false} PrependLowest(low: nat, list: seq<nat>, s: set<nat>)
    requires InKeyOrder(list, s) && forall x :: x in s ==> low < x
    ensures InKeyOrder([low] + list, s + {low})
  {
    assert forall i :: 0 <= i < |list| ==> list[i] in list;
  }

  lemma {:induction false} LowestApart(s: set<nat>)
    requires s != {}
    ensures Ascending(s) == [Lowest(s)] + Ascending(s - {Lowest(s)})
    ensures s - {Lowest(s)} + {Lowest(s)} == s && forall x :: x in s - {Lowest(s)} ==> Lowest(s) < x
  {
  }

  lemma {:induction false} AscendingHolds(s: set<nat>)
    ensures InKeyOrder(Ascending(s), s)
    decreases |s|
  {
    if s != {} {
      LowestApart(s);
      var low := Lowest(s);
      hide Ascending, InKeyOrder;
      AscendingHolds(s - {low});
      PrependLowest(low, Ascending(s - {low}), s - {low});
    }
  }

  ghost predicate HoldersByKey(holders: seq<Holder>) {
    forall i, j :: 0 <= i < j < |holders| ==> holders[i].owner < holders[j].owner
  }

  ghost predicate OwnersAtMost(pool: seq<Weighted>, owner: nat) {
    forall i :: 0 <= i < |pool| ==> pool[i].owner <= owner
  }

  lemma {:induction false} EligibleByKey(holders: seq<Holder>)
    requires SoundHolders(holders) && HoldersByKey(holders)
    ensures ByKey(Eligible(holders)) && AllWeighted(Eligible(holders))
    ensures holders != [] ==> OwnersAtMost(Eligible(holders), holders[|holders| - 1].owner)
    decreases |holders|
  {
    if holders != [] {
      var n := |holders| - 1;
      assert n > 0 ==> holders[..n][n - 1] == holders[n - 1] && holders[n - 1].owner < holders[n].owner;
      EligibleByKey(holders[..n]);
    }
  }

  lemma {:induction false} HoldersInOrder(input: Input)
    requires input.params.minEligibleUsdMicro >= 0 && HoldersOf(input).Ok?
    ensures HoldersByKey(HoldersOf(input).value.holders)
  {
    hide Ordered, AllOwners, Median, Counted, ExcludedRows;
    var ordered := Ordered(input.snapshots);
    AscendingHolds(Counted(input, AllOwners(ordered)));
  }

  // ---- what every allocation promises ------------------------------------------------------------

  ghost predicate PaysOut(round: RoundAllocation, params: Params) {
    forall i :: 0 <= i < |round.assets| ==> round.assets[i].assetIdx == i && InFull(round.assets[i].share, params)
  }

  ghost predicate MintsDiffer(round: RoundAllocation) {
    forall i, j :: 0 <= i < j < |round.assets| ==> round.assets[i].share.mint != round.assets[j].share.mint
  }

  lemma {:induction false} SharesPayOut(assets: seq<AssetInput>, eligible: seq<Weighted>, params: Params,
                                        table: HolderTable)
    requires ValidParams(params) && ByKey(eligible) && AllWeighted(eligible)
    requires ShareAssets(assets, eligible, params, table).Ok?
    ensures PaysOut(ShareAssets(assets, eligible, params, table).value, params)
    ensures var round := ShareAssets(assets, eligible, params, table).value;
      |round.assets| + |round.skipped| == |assets|
      && forall i :: 0 <= i < |round.assets| ==> round.assets[i].share.mint in Mints(assets)
    decreases |assets|
  {
    hide ValidParams, ByKey, AllWeighted, InFull, AllocateAsset;
    if assets != [] {
      var n := |assets| - 1;
      SharesPayOut(assets[..n], eligible, params, table);
      if AllocateAsset(assets[n], eligible, params).Paid? {
        FullShare(assets[n], eligible, params);
      }
      assert forall x :: x in assets[..n] ==> x in assets;
      assert assets[n] in assets;
    }
  }

  lemma {:induction false} LastMintDiffers(assets: seq<AssetInput>)
    requires assets != [] && |Mints(assets)| == |assets|
    ensures |Mints(assets[..|assets| - 1])| == |assets| - 1
    ensures assets[|assets| - 1].mint !in Mints(assets[..|assets| - 1])
  {
    var n := |assets| - 1;
    assert assets == assets[..n] + [assets[n]];
    assert Mints(assets) == Mints(assets[..n]) + {assets[n].mint};
    MintsAtMost(assets[..n]);
  }

  lemma {:induction false} MintsAtMost(assets: seq<AssetInput>)
    ensures |Mints(assets)| <= |assets|
    decreases |assets|
  {
    if assets != [] {
      var n := |assets| - 1;
      MintsAtMost(assets[..n]);
      assert assets == assets[..n] + [assets[n]];
      assert Mints(assets) == Mints(assets[..n]) + {assets[n].mint};
    }
  }

  lemma {:induction false} SharedMintsDiffer(assets: seq<AssetInput>, eligible: seq<Weighted>, params: Params,
                                             table: HolderTable)
    requires ValidParams(params) && ByKey(eligible) && AllWeighted(eligible) && |Mints(assets)| == |assets|
    requires ShareAssets(assets, eligible, params, table).Ok?
    ensures MintsDiffer(ShareAssets(assets, eligible, params, table).value)
    decreases |assets|
  {
    hide ValidParams, ByKey, AllWeighted, InFull, AllocateAsset, Mints;
    if assets != [] {
      var n := |assets| - 1;
      LastMintDiffers(assets);
      SharedMintsDiffer(assets[..n], eligible, params, table);
      SharesPayOut(assets[..n], eligible, params, table);
      if AllocateAsset(assets[n], eligible, params).Paid? {
        FullShare(assets[n], eligible, params);
      }
    }
  }

  /** Every asset of a round is paid out to the last unit, under a dense index, one asset a mint. */
  lemma {:induction false} AllocationPaysOut(input: Input)
    requires Allocate(input).Ok?
    ensures PaysOut(Allocate(input).value, input.params) && MintsDiffer(Allocate(input).value)
    ensures var round := Allocate(input).value;
      |round.assets| + |round.skipped| == |input.assets| && |round.assets| <= MAX_ASSETS_PER_ROUND
  {
    hide HoldersOf, ShareAssets, Eligible, PaysOut, MintsDiffer, SoundHolders, HoldersByKey;
    var table := HoldersOf(input).value;
    HoldersSound(input);
    HoldersInOrder(input);
    EligibleByKey(table.holders);
    SharesPayOut(input.assets, Eligible(table.holders), input.params, table);
    SharedMintsDiffer(input.assets, Eligible(table.holders), input.params, table);
  }

  // ---- fairness, from the snapshots on ---------------------------------------------------------------

  /** Whom the round may pay, with their weights. */
  ghost function EligibleOf(input: Input): (eligible: seq<Weighted>)
    requires Allocate(input).Ok?
    ensures ByKey(eligible) && AllWeighted(eligible)
  {
    HoldersSound(input);
    HoldersInOrder(input);
    EligibleByKey(HoldersOf(input).value.holders);
    Eligible(HoldersOf(input).value.holders)
  }

  /** Every listed share is what its own asset comes to. */
  lemma {:induction false} ShareComesFrom(assets: seq<AssetInput>, eligible: seq<Weighted>, params: Params,
                                          table: HolderTable, i: nat) returns (m: nat)
    requires ValidParams(params) && ShareAssets(assets, eligible, params, table).Ok?
    requires i < |ShareAssets(assets, eligible, params, table).value.assets|
    ensures m < |assets|
    ensures AllocateAsset(assets[m], eligible, params)
         == Paid(ShareAssets(assets, eligible, params, table).value.assets[i].share)
    decreases |assets|
  {
    hide ValidParams, AllocateAsset;
    var n := |assets| - 1;
    var front := ShareAssets(assets[..n], eligible, params, table).value;
    if i < |front.assets| {
      m := ShareComesFrom(assets[..n], eligible, params, table, i);
    } else {
      m := n;
    }
  }

  lemma {:induction false} TableStays(assets: seq<AssetInput>, eligible: seq<Weighted>, params: Params,
                                      table: HolderTable)
    requires ValidParams(params) && ShareAssets(assets, eligible, params, table).Ok?
    ensures ShareAssets(assets, eligible, params, table).value.table == table
    decreases |assets|
  {
    hide ValidParams, AllocateAsset;
    if assets != [] {
      TableStays(assets[..|assets| - 1], eligible, params, table);
    }
  }

  /** Each listed asset of a round is shared out over the same eligible holders. */
  lemma {:induction false} RoundShare(input: Input, i: nat) returns (m: nat)
    requires Allocate(input).Ok? && i < |Allocate(input).value.assets|
    ensures ValidParams(input.params) && m < |input.assets|
    ensures AllocateAsset(input.assets[m], EligibleOf(input), input.params)
         == Paid(Allocate(input).value.assets[i].share)
    ensures Allocate(input).value.table == HoldersOf(input).value
  {
    hide HoldersOf, ShareAssets, Eligible, AllocateAsset, SoundHolders;
    HoldersSound(input);
    var table := HoldersOf(input).value;
    m := ShareComesFrom(input.assets, Eligible(table.holders), input.params, table, i);
    TableStays(input.assets, Eligible(table.holders), input.params, table);
  }

  lemma {:induction false} EligibleHolds(holders: seq<Holder>, x: Weighted)
    requires SoundHolders(holders)
    ensures x in Eligible(holders)
       <==> exists i :: 0 <= i < |holders| && holders[i].eligible && x == Weighted(holders[i].owner, holders[i].twab)
    decreases |holders|
  {
    if holders != [] {
      var n := |holders| - 1;
      EligibleHolds(holders[..n], x);
      if i :| 0 <= i < |holders| && holders[i].eligible && x == Weighted(holders[i].owner, holders[i].twab) {
        assert i < n ==> holders[..n][i] == holders[i];
      }
      if x in Eligible(holders[..n]) {
        var i :| 0 <= i < n && holders[..n][i].eligible && x == Weighted(holders[..n][i].owner, holders[..n][i].twab);
        assert holders[i].eligible;
      }
    }
  }

  /** A holder that averages more, or the same under a lower key. */
  predicate Ahead(a: Holder, b: Holder) {
    a.twab > b.twab || (a.twab == b.twab && a.owner < b.owner)
  }

  /** Wherever an eligible holder is paid, everyone eligible ahead of them is paid too, and at least as much: in every
      asset of every allocation, after truncation, drop passes and rounding. */
  lemma {:induction false} AllocationIsFair(input: Input, i: nat, k: nat, x: Holder, y: Holder)
    requires Allocate(input).Ok? && i < |Allocate(input).value.assets|
    requires k < |Allocate(input).value.assets[i].share.leaves|
    requires x in Allocate(input).value.table.holders && y in Allocate(input).value.table.holders
    requires x.eligible && y.eligible && Ahead(y, x)
    requires Allocate(input).value.assets[i].share.leaves[k].recipient == x.owner
    ensures var leaves := Allocate(input).value.assets[i].share.leaves; PaysAtLeast(leaves, y.owner, leaves[k].amount)
  {
    hide HoldersOf, Allocate, Eligible, AllocateAsset, ByKey, AllWeighted, PaysAtLeast, ValidParams;
    var m := RoundShare(input, i);
    var eligible := EligibleOf(input);
    HolderIsEligible(input, x);
    HolderIsEligible(input, y);
    OutrankingIsPaid(input.assets[m], eligible, input.params, k, Weighted(x.owner, x.twab), Weighted(y.owner, y.twab));
  }

  lemma {:induction false} HolderIsEligible(input: Input, x: Holder)
    requires Allocate(input).Ok? && x in HoldersOf(input).value.holders && x.eligible
    ensures x.twab > 0 && Weighted(x.owner, x.twab) in EligibleOf(input)
  {
    hide HoldersOf, Eligible;
    HoldersSound(input);
    var holders := HoldersOf(input).value.holders;
    var i :| 0 <= i < |holders| && holders[i] == x;
    assert x.twab > 0;
    EligibleHolds(holders, Weighted(x.owner, x.twab));
  }

  /** And nobody else is: whoever is paid is an eligible holder of the table. */
  lemma {:induction false} OnlyEligiblePaid(input: Input, i: nat, k: nat) returns (x: Holder)
    requires Allocate(input).Ok? && i < |Allocate(input).value.assets|
    requires k < |Allocate(input).value.assets[i].share.leaves|
    ensures x in Allocate(input).value.table.holders && x.eligible && x.twab > 0
    ensures x.owner == Allocate(input).value.assets[i].share.leaves[k].recipient
  {
    hide HoldersOf, Allocate, Eligible, AllocateAsset, ByKey, AllWeighted, ValidParams;
    var m := RoundShare(input, i);
    var weighted := PaidIsEligible(input.assets[m], EligibleOf(input), input.params, k);
    x := EligibleIsHolder(input, weighted);
  }

  lemma {:induction false} EligibleIsHolder(input: Input, w: Weighted) returns (x: Holder)
    requires Allocate(input).Ok? && w in EligibleOf(input)
    ensures x in HoldersOf(input).value.holders && x.eligible && x.owner == w.owner && x.twab == w.weight > 0
  {
    hide HoldersOf, Eligible;
    HoldersSound(input);
    var holders := HoldersOf(input).value.holders;
    EligibleHolds(holders, w);
    var i :| 0 <= i < |holders| && holders[i].eligible && w == Weighted(holders[i].owner, holders[i].twab);
    x := holders[i];
  }

  /** A leaf of a round below its asset's minimum means that every pass allowed was made on that asset and dropped
      someone, and that there are more eligible holders than passes. */
  lemma {:induction false} RoundMinimumHolds(input: Input, i: nat, k: nat) returns (m: nat)
    requires Allocate(input).Ok? && i < |Allocate(input).value.assets|
    requires k < |Allocate(input).value.assets[i].share.leaves|
    ensures ValidParams(input.params) && m < |input.assets|
    ensures input.assets[m].mint == Allocate(input).value.assets[i].share.mint && input.assets[m].allocatable >= 0
    ensures var asset, eligible := input.assets[m], EligibleOf(input);
      var kept := Truncate(eligible, input.params.maxLeavesPerAsset);
      Allocate(input).value.assets[i].share.leaves[k].amount < asset.minLeafAmount ==>
        && (forall pass: nat :: pass < input.params.maxMinLeafPasses ==>
              PassDrops(asset.allocatable, asset.minLeafAmount, kept, pass))
        && input.params.maxMinLeafPasses < |eligible|
  {
    hide HoldersOf, Allocate, Eligible, ByKey, AllWeighted, PassDrops, Truncate, Recipients, EligibleOf;
    m := RoundShare(input, i);
    var eligible := EligibleOf(input);
    EligibleIsSound(input);
    MinimumHolds(input.assets[m], eligible, input.params, k);
  }

  lemma {:induction false} EligibleIsSound(input: Input)
    requires Allocate(input).Ok?
    ensures ByKey(EligibleOf(input)) && AllWeighted(EligibleOf(input))
  {
  }

  // ---- the median ------------------------------------------------------------------------------------

  lemma {:induction false} Cancel(x: int, y: int, d: int)
    requires d > 0 && x * d <= y * d
    ensures x <= y
  {
    if x > y {
      MulMonotone(d, y, x);
      assert false;
    }
  }

  lemma {:induction false} CheaperIsTransitive(a: Price, b: Price, c: Price)
    requires !Cheaper(b, a) && !Cheaper(c, b)
    ensures !Cheaper(c, a)
  {
    MulMonotone(c.den, a.num * b.den, b.num * a.den);
    MulMonotone(a.den, b.num * c.den, c.num * b.den);
    Regroup(a.num, b.den, c.den);
    Regroup(b.num, a.den, c.den);
    Regroup(c.num, b.den, a.den);
    Cancel(a.num * c.den, c.num * a.den, b.den);
  }

  lemma {:induction false} Regroup(x: int, y: int, z: int)
    ensures z * (x * y) == (x * z) * y == y * (x * z)
  {
  }

  lemma {:induction false} CheaperIsOrder()
    ensures WeakOrder((a: Price, b: Price) => Cheaper(a, b))
  {
    forall a: Price, b: Price, c: Price | !Cheaper(b, a) && !Cheaper(c, b)
      ensures !Cheaper(c, a)
    {
      CheaperIsTransitive(a, b, c);
    }
  }

  lemma {:induction false} SortedPrices(values: seq<Price>)
    ensures var sorted := Sort(values, (a, b) => Cheaper(a, b));
      multiset(sorted) == multiset(values)
      && forall i, j :: 0 <= i < j < |values| ==> !Cheaper(sorted[j], sorted[i])
  {
    CheaperIsOrder();
    SortSorts(values, (a, b) => Cheaper(a, b));
    SortHolds(values, (a, b) => Cheaper(a, b));
  }

  /** The lower median: a given price, with at most half the others (rounded down) below it and the rest of
      them not below it. */
  lemma {:induction false} MedianIsMiddle(values: seq<Price>)
    requires values != []
    ensures Median(values) in values
    ensures Count(values, v => Cheaper(v, Median(values))) <= (|values| - 1) / 2
    ensures Count(values, v => Cheaper(Median(values), v)) <= |values| / 2
  {
    hide Cheaper, Sort, Median;
    SortedPrices(values);
    MedianAt(values);
    var sorted := Sort(values, (a, b) => Cheaper(a, b));
    var k := (|values| - 1) / 2;
    InMultiset(sorted, sorted[k]);
    InMultiset(values, sorted[k]);
    var below, above := (v: Price) => Cheaper(v, sorted[k]), (v: Price) => Cheaper(sorted[k], v);
    NotBelowItself(sorted[k]);
    CountForgetsOrder(values, sorted, below);
    CountForgetsOrder(values, sorted, above);
    CountBounds(sorted, 0, k, below);
    CountBounds(sorted, k + 1, |values|, above);
  }

  lemma {:induction false} NotBelowItself(p: Price)
    ensures !Cheaper(p, p)
  {
  }

  lemma {:induction false} MedianAt(values: seq<Price>)
    requires values != []
    ensures Median(values) == Sort(values, (a, b) => Cheaper(a, b))[(|values| - 1) / 2]
  {
  }
}
