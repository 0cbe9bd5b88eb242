/** What a round's holder table says of the snapshots it was made from, in terms of their rows alone. */
module HolderLaws {
  import opened Terms
  import opened Sorting
  import opened Apportionment
  import opened Allocation
  import opened Holders

  // ---- the rows ------------------------------------------------------------------------------

  /** Every row of every snapshot. */
  function AllRows(snapshots: seq<Snapshot>): seq<Row>
    decreases |snapshots|
  {
    if snapshots == [] then [] else snapshots[0].accounts + AllRows(snapshots[1..])
  }

  /** What an owner holds in a list of rows, over all their accounts. */
  function Owned(rows: seq<Row>, owner: nat): int
    decreases |rows|
  {
    if rows == [] then 0 else (if rows[0].owner == owner then rows[0].amount else 0) + Owned(rows[1..], owner)
  }

  ghost predicate Seen(snapshots: seq<Snapshot>, owner: nat) {
    exists i, j :: 0 <= i < |snapshots| && 0 <= j < |snapshots[i].accounts| && snapshots[i].accounts[j].owner == owner
  }

  /** Named in the exclusions, or a program's address. */
  ghost predicate ExcludedFrom(input: Input, owner: nat) {
    owner in input.offCurve || exists k :: 0 <= k < |input.exclusions| && input.exclusions[k].owner == owner
  }

  // ---- what the table says ---------------------------------------------------------------------

  /** The average over all snapshots, whichever held more: rounded down. */
  ghost predicate IsAverage(input: Input, h: Holder) {
    var n, owned := |input.snapshots|, Owned(AllRows(input.snapshots), h.owner);
    h.twab * n <= owned < (h.twab + 1) * n
  }

  /** A holder's average at the round's price, in millionths of a dollar, rounded down. */
  ghost predicate IsValue(input: Input, table: HolderTable, h: Holder) {
    var price := table.medianPoolPrice;
    var worth := h.twab * price.num * input.solUsdMicro;
    h.valueUsdMicro * (price.den * LAMPORTS_PER_SOL) <= worth < (h.valueUsdMicro + 1) * (price.den * LAMPORTS_PER_SOL)
  }

  ghost predicate HolderHolds(input: Input, table: HolderTable, h: Holder) {
    IsAverage(input, h) && IsValue(input, table, h)
    && (h.eligible <==> h.twab > 0 && h.valueUsdMicro >= input.params.minEligibleUsdMicro)
    && |h.sampleBalances| == |input.snapshots|
    && forall j :: 0 <= j < |h.sampleBalances| ==>
         h.sampleBalances[j] == Owned(Ordered(input.snapshots)[j].accounts, h.owner)
  }

  /** The last exclusion naming an owner gives the reason, or their being a program. */
  ghost predicate ReasonHolds(input: Input, row: Exclusion) {
    if exists k :: 0 <= k < |input.exclusions| && input.exclusions[k].owner == row.owner then
      exists k :: 0 <= k < |input.exclusions| && input.exclusions[k] == row
                  && forall l :: k < l < |input.exclusions| ==> input.exclusions[l].owner != row.owner
    else row.reason == "program-owned (off-curve) wallet"
  }

  ghost predicate Lists(table: HolderTable, owner: nat) {
    exists i :: 0 <= i < |table.holders| && table.holders[i].owner == owner
  }

  ghost predicate ListsExcluded(table: HolderTable, owner: nat) {
    exists i :: 0 <= i < |table.excluded| && table.excluded[i].owner == owner
  }

  /** The holders are exactly the owners seen in some snapshot that are not excluded, each once and in key order, with
      their averages, values and eligibility; the excluded are the other owners seen; and the price is the median. */
  ghost predicate TableHolds(input: Input, table: HolderTable) {
    (forall i :: 0 <= i < |table.holders| ==> HolderHolds(input, table, table.holders[i]))
    && HoldersByKey(table.holders)
    && (forall owner :: Lists(table, owner) <==> Seen(input.snapshots, owner) && !ExcludedFrom(input, owner))
    && (forall i :: 0 <= i < |table.excluded| ==> ReasonHolds(input, table.excluded[i]))
    && (forall owner :: ListsExcluded(table, owner) <==> Seen(input.snapshots, owner) && ExcludedFrom(input, owner))
    && IsMedian(input.snapshots, table.medianPoolPrice)
  }

  /** An observed price, with at most half of the others below it and at most half above. */
  ghost predicate IsMedian(snapshots: seq<Snapshot>, price: Price) {
    snapshots != [] && AllPriced(snapshots) && price in Prices(snapshots)
    && Count(Prices(snapshots), p => Cheaper(p, price)) <= (|snapshots| - 1) / 2
    && Count(Prices(snapshots), p => Cheaper(price, p)) <= |snapshots| / 2
  }

  // ---- sums over snapshots ------------------------------------------------------------------------

  lemma {:induction false} OwnedJoins(a: seq<Row>, b: seq<Row>, owner: nat)
    ensures Owned(a + b, owner) == Owned(a, owner) + Owned(b, owner)
    decreases |a|
  {
    if a == [] {
      assert a + b == b;
    } else {
      OwnedJoins(a[1..], b, owner);
      assert (a + b)[1..] == a[1..] + b;
    }
  }

  lemma {:induction false} OwnedIsBalance(rows: seq<Row>, owner: nat)
    ensures Owned(rows, owner) == BalanceIn(rows, owner)
    decreases |rows|
  {
    if rows != [] {
      var n := |rows| - 1;
      OwnedIsBalance(rows[..n], owner);
      OwnedJoins(rows[..n], [rows[n]], owner);
      assert rows == rows[..n] + [rows[n]];
      assert [rows[n]][1..] == [];
      assert Owned([], owner) == 0;
    }
  }

  /** The sum of an owner's balances, snapshot by snapshot. */
  function SumOver(snapshots: seq<Snapshot>, owner: nat): int
    decreases |snapshots|
  {
    if snapshots == [] then 0
    else SumOver(snapshots[..|snapshots| - 1], owner) + Owned(snapshots[|snapshots| - 1].accounts, owner)
  }

  lemma {:induction false} SumWithout(snapshots: seq<Snapshot>, k: nat, owner: nat)
    requires k < |snapshots|
    ensures SumOver(snapshots, owner)
         == SumOver(snapshots[..k] + snapshots[k + 1..], owner) + Owned(snapshots[k].accounts, owner)
    decreases |snapshots|
  {
    hide Owned;
    var n := |snapshots| - 1;
    var rest := snapshots[..k] + snapshots[k + 1..];
    if k == n {
      assert rest == snapshots[..n];
    } else {
      SumWithout(snapshots[..n], k, owner);
      assert rest[..n - 1] == snapshots[..n][..k] + snapshots[..n][k + 1..] && rest[n - 1] == snapshots[n];
    }
  }

  lemma {:induction false} SumForgetsOrder(a: seq<Snapshot>, b: seq<Snapshot>, owner: nat)
    requires multiset(a) == multiset(b)
    ensures SumOver(a, owner) == SumOver(b, owner)
    decreases |a|
  {
    SameMembers(a, b);
    if a != [] {
      var n := |a| - 1;
      assert a[n] in b;
      var k :| 0 <= k < |b| && b[k] == a[n];
      SumWithout(b, k, owner);
      RemoveBoth(a, b, k);
      SumForgetsOrder(a[..n], b[..k] + b[k + 1..], owner);
    }
  }

  lemma {:induction false} AllRowsLast(snapshots: seq<Snapshot>)
    requires snapshots != []
    ensures AllRows(snapshots) == AllRows(snapshots[..|snapshots| - 1]) + snapshots[|snapshots| - 1].accounts
    decreases |snapshots|
  {
    var n := |snapshots| - 1;
    if n > 0 {
      AllRowsLast(snapshots[1..]);
      assert snapshots[1..][..n - 1] == snapshots[..n][1..];
    } else {
      assert snapshots[1..] == [] && snapshots[..0] == [];
    }
  }

  lemma {:induction false} SumIsOwned(snapshots: seq<Snapshot>, owner: nat)
    ensures SumOver(snapshots, owner) == Owned(AllRows(snapshots), owner)
    decreases |snapshots|
  {
    if snapshots != [] {
      var n := |snapshots| - 1;
      SumIsOwned(snapshots[..n], owner);
      AllRowsLast(snapshots);
      OwnedJoins(AllRows(snapshots[..n]), snapshots[n].accounts, owner);
    }
  }

  lemma {:induction false} BalancesAddUp(ordered: seq<Snapshot>, owner: nat)
    ensures Total(Balances(ordered, owner)) == SumOver(ordered, owner)
    decreases |ordered|
  {
    if ordered != [] {
      var n := |ordered| - 1;
      BalancesAddUp(ordered[..n], owner);
      OwnedIsBalance(ordered[n].accounts, owner);
      assert Balances(ordered, owner)[..n] == Balances(ordered[..n], owner);
    }
  }

  // ---- the laws ------------------------------------------------------------------------------------

  lemma {:induction false} QuotientBounds(x: int, d: nat)
    requires d > 0
    ensures (x / d) * d <= x < (x / d + 1) * d
  {
  }

  lemma {:induction false} AverageHolds(input: Input, price: Price, owner: nat)
    requires input.snapshots != [] && input.solUsdMicro >= 0 && input.params.minEligibleUsdMicro >= 0
    ensures |Ordered(input.snapshots)| == |input.snapshots|
    ensures IsAverage(input, HolderOf(Ordered(input.snapshots), price, input.solUsdMicro,
                                      input.params.minEligibleUsdMicro, owner))
  {
    hide Ordered, Balances, Total, Owned, AllRows;
    var ordered := Ordered(input.snapshots);
    OrderedHolds(input.snapshots);
    SumForgetsOrder(ordered, input.snapshots, owner);
    SumIsOwned(input.snapshots, owner);
    BalancesAddUp(ordered, owner);
    QuotientBounds(Total(Balances(ordered, owner)), |ordered|);
  }

  /** Reaching the minimum is the same before and after rounding down. */
  lemma {:induction false} FloorReaches(x: int, d: nat, min: int)
    requires d > 0
    ensures x >= min * d <==> x / d >= min
  {
    QuotientBounds(x, d);
    if x >= min * d && x / d < min {
      MulMonotone(d, x / d + 1, min);
      assert false;
    }
    if x / d >= min {
      MulUp(d, min, x / d);
    }
  }

  lemma {:induction false} MulUp(d: nat, a: int, b: int)
    requires a <= b
    ensures a * d <= b * d
  {
    assert (b - a) * d >= 0;
    assert b * d == a * d + (b - a) * d;
  }

  lemma {:induction false} ValueHolds(ordered: seq<Snapshot>, price: Price, solUsdMicro: nat, min: nat, owner: nat)
    requires ordered != []
    ensures var h := HolderOf(ordered, price, solUsdMicro, min, owner);
      var d := price.den * LAMPORTS_PER_SOL; var worth := h.twab * price.num * solUsdMicro;
      && h.valueUsdMicro * d <= worth < (h.valueUsdMicro + 1) * d
      && (h.eligible <==> h.twab > 0 && h.valueUsdMicro >= min)
  {
    hide Balances, Total;
    var h := HolderOf(ordered, price, solUsdMicro, min, owner);
    var d := price.den * LAMPORTS_PER_SOL;
    var worth := h.twab * price.num * solUsdMicro;
    QuotientBounds(worth, d);
    FloorReaches(worth, d, min);
    assert min * price.den * LAMPORTS_PER_SOL == min * d;
  }

  lemma {:induction false} OwnersSeen(snapshots: seq<Snapshot>, owner: nat)
    ensures owner in AllOwners(snapshots) <==> Seen(snapshots, owner)
    decreases |snapshots|
  {
    if snapshots != [] {
      var n := |snapshots| - 1;
      OwnersSeen(snapshots[..n], owner);
      if Seen(snapshots[..n], owner) {
        var i, j :| 0 <= i < n && 0 <= j < |snapshots[..n][i].accounts| && snapshots[..n][i].accounts[j].owner == owner;
        assert snapshots[i].accounts[j].owner == owner;
      }
      if owner in OwnersIn(snapshots[n].accounts) {
        var row :| row in snapshots[n].accounts && row.owner == owner;
        var j :| 0 <= j < |snapshots[n].accounts| && snapshots[n].accounts[j] == row;
        assert snapshots[n].accounts[j].owner == owner;
      }
      if Seen(snapshots, owner) {
        var i, j :| 0 <= i < |snapshots| && 0 <= j < |snapshots[i].accounts| && snapshots[i].accounts[j].owner == owner;
        if i < n {
          assert snapshots[..n][i].accounts[j].owner == owner;
        } else {
          assert snapshots[n].accounts[j] in snapshots[n].accounts;
        }
      }
    }
  }

  lemma {:induction false} SeenForgetsOrder(a: seq<Snapshot>, b: seq<Snapshot>, owner: nat)
    requires forall s :: s in a <==> s in b
    ensures Seen(a, owner) <==> Seen(b, owner)
  {
    SeenIn(a, b, owner);
    SeenIn(b, a, owner);
  }

  lemma {:induction false} SeenIn(a: seq<Snapshot>, b: seq<Snapshot>, owner: nat)
    requires forall s :: s in a ==> s in b
    ensures Seen(a, owner) ==> Seen(b, owner)
  {
    if i, j :| 0 <= i < |a| && 0 <= j < |a[i].accounts| && a[i].accounts[j].owner == owner {
      assert a[i] in b;
      var k :| 0 <= k < |b| && b[k] == a[i];
      assert b[k].accounts[j].owner == owner;
    }
  }

  lemma {:induction false} ExplicitHolds(exclusions: seq<Exclusion>, owner: nat)
    ensures Explicit(exclusions, owner).Some? <==> exists k :: 0 <= k < |exclusions| && exclusions[k].owner == owner
    decreases |exclusions|
  {
    if exclusions != [] {
      var n := |exclusions| - 1;
      ExplicitHolds(exclusions[..n], owner);
      if exclusions[n].owner != owner {
        if k :| 0 <= k < |exclusions| && exclusions[k].owner == owner {
          assert exclusions[..n][k].owner == owner;
        }
        if k :| 0 <= k < n && exclusions[..n][k].owner == owner {
          assert exclusions[k].owner == owner;
        }
      }
    }
  }

  lemma {:induction false} ExcludedIs(input: Input, owner: nat)
    ensures ExcludedFor(input, owner).Some? <==> ExcludedFrom(input, owner)
  {
    ExplicitHolds(input.exclusions, owner);
    hide Explicit;
  }

  /** Every holder table says the truth about its snapshots. */
  lemma {:induction false} EveryTableHolds(input: Input)
    requires input.params.minEligibleUsdMicro >= 0 && HoldersOf(input).Ok?
    ensures TableHolds(input, HoldersOf(input).value)
  {
    hide Ordered, AllOwners, Median, Counted, ExcludedRows, HolderOf, HolderHolds, Seen, ExcludedFrom, IsMedian,
      ReasonHolds;
    var table := HoldersOf(input).value;
    HoldersInOrder(input);
    hide Ascending;
    forall i | 0 <= i < |table.holders|
      ensures HolderHolds(input, table, table.holders[i])
    {
      TableHolder(input, i);
    }
    forall i | 0 <= i < |table.excluded|
      ensures ReasonHolds(input, table.excluded[i])
    {
      TableReason(input, i);
    }
    forall owner
      ensures Lists(table, owner) <==> Seen(input.snapshots, owner) && !ExcludedFrom(input, owner)
      ensures ListsExcluded(table, owner) <==> Seen(input.snapshots, owner) && ExcludedFrom(input, owner)
    {
      TableOwners(input, owner);
    }
    TableMedian(input);
  }

  lemma {:induction false} TableHolder(input: Input, i: nat)
    requires input.params.minEligibleUsdMicro >= 0 && HoldersOf(input).Ok?
    requires i < |HoldersOf(input).value.holders|
    ensures HolderHolds(input, HoldersOf(input).value, HoldersOf(input).value.holders[i])
  {
    hide Ordered, AllOwners, Median, Counted, ExcludedRows, Ascending, IsAverage, Owned, BalanceIn, Total;
    var table := HoldersOf(input).value;
    var owner := table.holders[i].owner;
    AverageHolds(input, table.medianPoolPrice, owner);
    BalancesAre(Ordered(input.snapshots), owner);
    ValueHolds(Ordered(input.snapshots), table.medianPoolPrice, input.solUsdMicro, input.params.minEligibleUsdMicro,
               owner);
  }

  lemma {:induction false} BalancesAre(ordered: seq<Snapshot>, owner: nat)
    ensures forall j :: 0 <= j < |ordered| ==> Balances(ordered, owner)[j] == Owned(ordered[j].accounts, owner)
  {
    forall j | 0 <= j < |ordered|
      ensures Balances(ordered, owner)[j] == Owned(ordered[j].accounts, owner)
    {
      OwnedIsBalance(ordered[j].accounts, owner);
    }
  }

  lemma {:induction false} LastReason(exclusions: seq<Exclusion>, owner: nat)
    requires Explicit(exclusions, owner).Some?
    ensures exists k :: 0 <= k < |exclusions| && exclusions[k] == Exclusion(owner, Explicit(exclusions, owner).value)
                        && forall l :: k < l < |exclusions| ==> exclusions[l].owner != owner
    decreases |exclusions|
  {
    var n := |exclusions| - 1;
    if exclusions[n].owner == owner {
      assert exclusions[n] == Exclusion(owner, exclusions[n].reason);
    } else {
      LastReason(exclusions[..n], owner);
      var k :| 0 <= k < n && exclusions[..n][k] == Exclusion(owner, Explicit(exclusions[..n], owner).value)
               && forall l :: k < l < n ==> exclusions[..n][l].owner != owner;
      assert exclusions[k] == exclusions[..n][k];
      forall l | k < l < |exclusions|
        ensures exclusions[l].owner != owner
      {
        assert l < n ==> exclusions[..n][l] == exclusions[l];
      }
    }
  }

  lemma {:induction false} TableReason(input: Input, i: nat)
    requires input.params.minEligibleUsdMicro >= 0 && HoldersOf(input).Ok?
    requires i < |HoldersOf(input).value.excluded|
    ensures ReasonHolds(input, HoldersOf(input).value.excluded[i])
  {
    var owners := AllOwners(Ordered(input.snapshots));
    var keys := Ascending(owners - Counted(input, owners));
    AscendingHolds(owners - Counted(input, owners));
    hide Ordered, AllOwners, Ascending, Median, HolderRows, Explicit;
    var owner := HoldersOf(input).value.excluded[i].owner;
    assert owner == keys[i] && keys[i] in keys;
    ExplicitHolds(input.exclusions, owner);
    if Explicit(input.exclusions, owner).Some? {
      LastReason(input.exclusions, owner);
    }
  }

  lemma {:induction false} TableOwners(input: Input, owner: nat)
    requires input.params.minEligibleUsdMicro >= 0 && HoldersOf(input).Ok?
    ensures Lists(HoldersOf(input).value, owner) <==> Seen(input.snapshots, owner) && !ExcludedFrom(input, owner)
    ensures ListsExcluded(HoldersOf(input).value, owner) <==> Seen(input.snapshots, owner) && ExcludedFrom(input, owner)
  {
    var ordered := Ordered(input.snapshots);
    var owners := AllOwners(ordered);
    var counted := Counted(input, owners);
    OrderedHolds(input.snapshots);
    OwnersSeen(ordered, owner);
    SeenForgetsOrder(ordered, input.snapshots, owner);
    ExcludedIs(input, owner);
    AscendingHolds(counted);
    AscendingHolds(owners - counted);
    assert owner in counted <==> owner in owners && ExcludedFor(input, owner).None?;
    hide Ordered, AllOwners, Counted, Seen, ExcludedFrom, ExcludedFor, Ascending, HolderOf;
    RowOwners(input, owner, Ascending(counted));
    ExcludedOwners(input, owner, Ascending(owners - counted));
  }

  lemma {:induction false} RowOwners(input: Input, owner: nat, keys: seq<nat>)
    requires input.params.minEligibleUsdMicro >= 0 && HoldersOf(input).Ok?
    requires keys == Ascending(Counted(input, AllOwners(Ordered(input.snapshots))))
    ensures Lists(HoldersOf(input).value, owner) <==> owner in keys
  {
    hide Ordered, AllOwners, Counted, Ascending, Median, ExcludedRows, Balances;
    var holders := HoldersOf(input).value.holders;
    assert |holders| == |keys| && forall i :: 0 <= i < |keys| ==> holders[i].owner == keys[i];
    if owner in keys {
      var i :| 0 <= i < |keys| && keys[i] == owner;
      assert holders[i].owner == owner;
    }
  }

  lemma {:induction false} ExcludedOwners(input: Input, owner: nat, keys: seq<nat>)
    requires input.params.minEligibleUsdMicro >= 0 && HoldersOf(input).Ok?
    requires var owners := AllOwners(Ordered(input.snapshots)); keys == Ascending(owners - Counted(input, owners))
    ensures ListsExcluded(HoldersOf(input).value, owner) <==> owner in keys
  {
    hide Ordered, AllOwners, Counted, Ascending, Median, HolderRows, ExcludedFor;
    var excluded := HoldersOf(input).value.excluded;
    assert |excluded| == |keys| && forall i :: 0 <= i < |keys| ==> excluded[i].owner == keys[i];
    if owner in keys {
      var i :| 0 <= i < |keys| && keys[i] == owner;
      assert excluded[i].owner == owner;
    }
  }

  lemma {:induction false} PricesCount(snapshots: seq<Snapshot>, test: Price -> bool)
    requires AllPriced(snapshots)
    ensures Count(Prices(snapshots), test)
         == Count(snapshots, (s: Snapshot) =>
                    s.poolPrice.num >= 0 && s.poolPrice.den > 0 && test(s.poolPrice))
    decreases |snapshots|
  {
    if snapshots != [] {
      var n := |snapshots| - 1;
      PricesCount(snapshots[..n], test);
      assert Prices(snapshots)[..n] == Prices(snapshots[..n]);
    }
  }

  lemma {:induction false} TableMedian(input: Input)
    requires input.params.minEligibleUsdMicro >= 0 && HoldersOf(input).Ok?
    ensures IsMedian(input.snapshots, HoldersOf(input).value.medianPoolPrice)
  {
    hide Ordered, Median, HolderRows, ExcludedRows, Cheaper, Count;
    var ordered, price := Ordered(input.snapshots), HoldersOf(input).value.medianPoolPrice;
    OrderedHolds(input.snapshots);
    OrderedPriced(input.snapshots);
    MedianIsMiddle(Prices(ordered));
    var below, above := (p: Price) => Cheaper(p, price), (p: Price) => Cheaper(price, p);
    PricesCount(ordered, below);
    PricesCount(ordered, above);
    PricesCount(input.snapshots, below);
    PricesCount(input.snapshots, above);
    CountForgetsOrder(ordered, input.snapshots,
      (s: Snapshot) => s.poolPrice.num >= 0 && s.poolPrice.den > 0 && below(s.poolPrice));
    CountForgetsOrder(ordered, input.snapshots,
      (s: Snapshot) => s.poolPrice.num >= 0 && s.poolPrice.den > 0 && above(s.poolPrice));
    PriceObserved(ordered, input.snapshots, price);
  }

  lemma {:induction false} PriceObserved(ordered: seq<Snapshot>, snapshots: seq<Snapshot>, price: Price)
    requires AllPriced(ordered) && AllPriced(snapshots) && (forall s :: s in ordered <==> s in snapshots)
    requires price in Prices(ordered)
    ensures price in Prices(snapshots)
  {
    var i :| 0 <= i < |ordered| && Prices(ordered)[i] == price;
    assert ordered[i] in snapshots;
    var j :| 0 <= j < |snapshots| && snapshots[j] == ordered[i];
    assert Prices(snapshots)[j] == price;
  }

  // ---- who is paid ---------------------------------------------------------------------------------

  /** Nobody excluded is ever a recipient: whoever is paid held tokens on average, worth the minimum at the median
      price, and is neither named in the exclusions nor a program's address. */
  lemma {:induction false} RecipientsHeld(input: Input, i: nat, k: nat) returns (x: Holder)
    requires Allocate(input).Ok? && i < |Allocate(input).value.assets|
    requires k < |Allocate(input).value.assets[i].share.leaves|
    ensures var table := Allocate(input).value.table;
      && x.owner == Allocate(input).value.assets[i].share.leaves[k].recipient && x in table.holders
      && TableHolds(input, table) && HolderHolds(input, table, x)
      && Seen(input.snapshots, x.owner) && !ExcludedFrom(input, x.owner)
      && x.twab > 0 && x.valueUsdMicro >= input.params.minEligibleUsdMicro
  {
    hide Allocate, Seen, ExcludedFrom, IsMedian, IsAverage, IsValue, ReasonHolds;
    x := OnlyEligiblePaid(input, i, k);
    AllocationTable(input);
    var table := Allocate(input).value.table;
    var j :| 0 <= j < |table.holders| && table.holders[j] == x;
    assert HolderHolds(input, table, table.holders[j]);
    assert Lists(table, x.owner);
  }

  lemma {:induction false} AllocationTable(input: Input)
    requires Allocate(input).Ok?
    ensures TableHolds(input, Allocate(input).value.table)
  {
    hide HoldersOf, ShareAssets, TableHolds, Eligible;
    HoldersSound(input);
    EveryTableHolds(input);
    TableStays(input.assets, Eligible(HoldersOf(input).value.holders), input.params, HoldersOf(input).value);
  }
}
