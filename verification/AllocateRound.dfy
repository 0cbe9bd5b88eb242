/** The loops of `computeHolders` and `allocate`, proved against module Holders. */
module RoundAllocator {
  import opened Terms
  import Apportionment
  import opened Sorting
  import opened Allocation
  import opened Holders
  import HolderLaws
  import ShareLaws

  /** The maps after all rows of the first `sample` snapshots and `rows` of the next one. */
  ghost predicate Tallied(input: Input, ordered: seq<Snapshot>, sample: nat, rows: seq<Row>,
                          balances: map<nat, seq<int>>, excluded: map<nat, string>)
    requires sample <= |ordered|
  {
    var owners := AllOwners(ordered[..sample]) + OwnersIn(rows);
    balances.Keys == Counted(input, owners) && excluded.Keys == owners - Counted(input, owners)
    && (forall owner :: owner in excluded ==> ExcludedFor(input, owner) == Some(excluded[owner]))
    && forall owner :: owner in balances ==> BalancesSoFar(ordered, sample, rows, owner, balances[owner])
  }

  ghost predicate BalancesSoFar(ordered: seq<Snapshot>, sample: nat, rows: seq<Row>, owner: nat, balances: seq<int>) {
    |balances| == |ordered| && forall s :: 0 <= s < |ordered| ==>
      balances[s] == if s < sample then BalanceIn(ordered[s].accounts, owner)
                     else if s == sample then BalanceIn(rows, owner) else 0
  }

  lemma {:induction false} AbsentHasNothing(rows: seq<Row>, owner: nat)
    requires owner !in OwnersIn(rows)
    ensures BalanceIn(rows, owner) == 0
    decreases |rows|
  {
    if rows != [] {
      assert rows[|rows| - 1].owner in OwnersIn(rows);
      AbsentHasNothing(rows[..|rows| - 1], owner);
    }
  }

  lemma {:induction false} AbsentSoFar(ordered: seq<Snapshot>, sample: nat, s: nat, owner: nat)
    requires s < sample <= |ordered| && owner !in AllOwners(ordered[..sample])
    ensures BalanceIn(ordered[s].accounts, owner) == 0
    decreases sample
  {
    var n := sample - 1;
    assert ordered[..sample][..n] == ordered[..n];
    if s == n {
      AbsentHasNothing(ordered[n].accounts, owner);
    } else {
      AbsentSoFar(ordered, n, s, owner);
    }
  }

  lemma {:induction false} NewOwnerSoFar(ordered: seq<Snapshot>, sample: nat, rows: seq<Row>, owner: nat)
    requires sample <= |ordered| && owner !in AllOwners(ordered[..sample]) + OwnersIn(rows)
    ensures BalancesSoFar(ordered, sample, rows, owner, seq(|ordered|, i => 0))
  {
    forall s | 0 <= s < sample
      ensures BalanceIn(ordered[s].accounts, owner) == 0
    {
      AbsentSoFar(ordered, sample, s, owner);
    }
    AbsentHasNothing(rows, owner);
  }

  lemma {:induction false} OwnersAppend(rows: seq<Row>, row: Row)
    ensures OwnersIn(rows + [row]) == OwnersIn(rows) + {row.owner}
    ensures Addresses(rows + [row]) == Addresses(rows) + {row.address}
    ensures forall owner ::
              BalanceIn(rows + [row], owner) == BalanceIn(rows, owner) + if row.owner == owner then row.amount else 0
  {
    var all := rows + [row];
    assert all[|rows|] == row;
    assert forall i :: 0 <= i < |rows| ==> all[i] == rows[i];
    assert all[..|rows|] == rows;
    forall x | x in OwnersIn(rows)
      ensures x in OwnersIn(all)
    {
      var i :| 0 <= i < |rows| && rows[i].owner == x;
      assert all[i].owner == x;
    }
    forall x | x in Addresses(rows)
      ensures x in Addresses(all)
    {
      var i :| 0 <= i < |rows| && rows[i].address == x;
      assert all[i].address == x;
    }
  }

  lemma {:induction false} TallyExcluded(input: Input, ordered: seq<Snapshot>, sample: nat, rows: seq<Row>, row: Row,
                                         balances: map<nat, seq<int>>, excluded: map<nat, string>)
    requires sample <= |ordered| && Tallied(input, ordered, sample, rows, balances, excluded)
    requires ExcludedFor(input, row.owner).Some?
    ensures Tallied(input, ordered, sample, rows + [row], balances,
                    excluded[row.owner := ExcludedFor(input, row.owner).value])
  {
    hide ExcludedFor, BalanceIn, AllOwners, OwnersIn;
    OwnersAppend(rows, row);
  }

  lemma {:induction false} TallyCounted(input: Input, ordered: seq<Snapshot>, sample: nat, rows: seq<Row>, row: Row,
                                        balances: map<nat, seq<int>>, excluded: map<nat, string>, mine: seq<int>)
    requires sample < |ordered| && Tallied(input, ordered, sample, rows, balances, excluded)
    requires ExcludedFor(input, row.owner).None?
    requires mine == if row.owner in balances then balances[row.owner] else seq(|ordered|, i => 0)
    ensures |mine| == |ordered|
    ensures Tallied(input, ordered, sample, rows + [row],
                    balances[row.owner := mine[sample := mine[sample] + row.amount]], excluded)
  {
    hide ExcludedFor, BalanceIn, AllOwners, OwnersIn;
    if row.owner !in balances {
      NewOwnerSoFar(ordered, sample, rows, row.owner);
    }
    OwnersAppend(rows, row);
  }

  lemma {:induction false} NextSample(input: Input, ordered: seq<Snapshot>, sample: nat, balances: map<nat, seq<int>>,
                                      excluded: map<nat, string>)
    requires sample < |ordered| && Tallied(input, ordered, sample, ordered[sample].accounts, balances, excluded)
    ensures Tallied(input, ordered, sample + 1, [], balances, excluded)
  {
    assert ordered[..sample + 1][..sample] == ordered[..sample];
    assert AllOwners(ordered[..sample + 1]) + OwnersIn([])
         == AllOwners(ordered[..sample]) + OwnersIn(ordered[sample].accounts);
  }

  method TallyRow(input: Input, ordered: seq<Snapshot>, sample: nat, ghost rows: seq<Row>, row: Row,
                  balancesBefore: map<nat, seq<int>>, excludedBefore: map<nat, string>)
    returns (balances: map<nat, seq<int>>, excluded: map<nat, string>)
    requires sample < |ordered| && Tallied(input, ordered, sample, rows, balancesBefore, excludedBefore)
    ensures Tallied(input, ordered, sample, rows + [row], balances, excluded)
  {
    hide Tallied, ExcludedFor;
    balances, excluded := balancesBefore, excludedBefore;
    var reason := ExcludedFor(input, row.owner);
    if reason.Some? {
      TallyExcluded(input, ordered, sample, rows, row, balances, excluded);
      excluded := excluded[row.owner := reason.value];
    } else {
      var mine := if row.owner in balances then balances[row.owner] else seq(|ordered|, i => 0);
      TallyCounted(input, ordered, sample, rows, row, balances, excluded, mine);
      balances := balances[row.owner := mine[sample := mine[sample] + row.amount]];
    }
  }

  method TallySnapshot(input: Input, ordered: seq<Snapshot>, sample: nat, balancesBefore: map<nat, seq<int>>,
                       excludedBefore: map<nat, string>)
    returns (good: bool, balances: map<nat, seq<int>>, excluded: map<nat, string>)
    requires sample < |ordered| && Tallied(input, ordered, sample, [], balancesBefore, excludedBefore)
    ensures good <==> GoodRows(ordered[sample].accounts)
    ensures good ==> Tallied(input, ordered, sample + 1, [], balances, excluded)
  {
    hide Tallied, GoodRows, Addresses;
    balances, excluded := balancesBefore, excludedBefore;
    var rows := ordered[sample].accounts;
    var addresses: set<nat> := {};
    var j := 0;
    NoAddresses(rows);
    while j < |rows|
      invariant 0 <= j <= |rows| && Tallied(input, ordered, sample, rows[..j], balances, excluded)
      invariant addresses == Addresses(rows[..j]) && |addresses| == j
      invariant forall i :: 0 <= i < j ==> rows[i].amount >= 0
    {
      var row := rows[j];
      if row.amount < 0 || row.address in addresses {
        RowIsBad(rows, j);
        return false, balances, excluded;
      }
      NextAddress(rows, j);
      addresses := addresses + {row.address};
      balances, excluded := TallyRow(input, ordered, sample, rows[..j], row, balances, excluded);
      j := j + 1;
    }
    assert rows[..j] == rows;
    AllGood(rows);
    NextSample(input, ordered, sample, balances, excluded);
    good := true;
  }

  lemma {:induction false} NoAddresses(rows: seq<Row>)
    ensures rows[..0] == [] && Addresses(rows[..0]) == {}
  {
  }

  lemma {:induction false} NextAddress(rows: seq<Row>, j: nat)
    requires j < |rows|
    ensures rows[..j + 1] == rows[..j] + [rows[j]]
    ensures Addresses(rows[..j + 1]) == Addresses(rows[..j]) + {rows[j].address}
  {
    assert rows[..j + 1] == rows[..j] + [rows[j]];
    OwnersAppend(rows[..j], rows[j]);
  }

  lemma {:induction false} RowIsBad(rows: seq<Row>, j: nat)
    requires j < |rows| && (rows[j].amount < 0 || rows[j].address in Addresses(rows[..j]))
    ensures !GoodRows(rows)
  {
    hide Addresses;
    if rows[j].amount < 0 {
      assert rows[j] in rows;
    } else {
      RepeatedAddress(rows, j);
    }
  }

  lemma {:induction false} AllGood(rows: seq<Row>)
    requires |Addresses(rows)| == |rows| && forall i :: 0 <= i < |rows| ==> rows[i].amount >= 0
    ensures GoodRows(rows)
  {
    hide Addresses;
  }

  lemma {:induction false} AddressesAtMost(rows: seq<Row>)
    ensures |Addresses(rows)| <= |rows|
    decreases |rows|
  {
    if rows != [] {
      var n := |rows| - 1;
      AddressesAtMost(rows[..n]);
      OwnersAppend(rows[..n], rows[n]);
      assert rows == rows[..n] + [rows[n]];
    }
  }

  lemma {:induction false} RepeatedAddress(rows: seq<Row>, j: nat)
    requires j < |rows| && rows[j].address in Addresses(rows[..j])
    ensures |Addresses(rows)| < |rows|
    decreases |rows|
  {
    var n := |rows| - 1;
    OwnersAppend(rows[..n], rows[n]);
    assert rows == rows[..n] + [rows[n]];
    if j == n {
      AddressesAtMost(rows[..n]);
    } else {
      assert rows[..n][..j] == rows[..j];
      RepeatedAddress(rows[..n], j);
    }
  }

  /** The keys of a map, listed in whatever order and then sorted by key. */
  method SortedKeys(keys: set<nat>) returns (list: seq<nat>)
    ensures list == Ascending(keys)
  {
    var listed: seq<nat> := [];
    var rest := keys;
    while rest != {}
      invariant multiset(listed) + multiset(rest) == multiset(keys)
      decreases |rest|
    {
      var key :| key in rest;
      listed := listed + [key];
      rest := rest - {key};
    }
    list := Sort(listed, (a: nat, b: nat) => a < b);
    SortedIsAscending(listed, keys);
  }

  lemma {:induction false} AscendingMultiset(s: set<nat>)
    ensures multiset(Ascending(s)) == multiset(s)
    decreases |s|
  {
    if s != {} {
      AscendingMultiset(s - {Lowest(s)});
    }
  }

  lemma {:induction false} SortedIsAscending(listed: seq<nat>, keys: set<nat>)
    requires multiset(listed) == multiset(keys)
    ensures Sort(listed, (a: nat, b: nat) => a < b) == Ascending(keys)
  {
    SortHolds(listed, (a: nat, b: nat) => a < b);
    SortSorts(listed, (a: nat, b: nat) => a < b);
    AscendingHolds(keys);
    AscendingMultiset(keys);
    SortedUnique(Sort(listed, (a: nat, b: nat) => a < b), Ascending(keys), (a: nat, b: nat) => a < b);
  }

  method TallyAll(input: Input, ordered: seq<Snapshot>)
    returns (good: bool, balances: map<nat, seq<int>>, excluded: map<nat, string>)
    ensures good <==> forall i :: 0 <= i < |ordered| ==> GoodRows(ordered[i].accounts)
    ensures good ==> Tallied(input, ordered, |ordered|, [], balances, excluded)
  {
    hide GoodRows;
    balances, excluded := map[], map[];
    var sample := 0;
    while sample < |ordered|
      invariant 0 <= sample <= |ordered| && Tallied(input, ordered, sample, [], balances, excluded)
      invariant forall i :: 0 <= i < sample ==> GoodRows(ordered[i].accounts)
    {
      good, balances, excluded := TallySnapshot(input, ordered, sample, balances, excluded);
      if !good {
        return;
      }
      sample := sample + 1;
    }
    good := true;
  }

  lemma {:induction false} TalliedBalances(input: Input, ordered: seq<Snapshot>, balances: map<nat, seq<int>>,
                                           excluded: map<nat, string>, owner: nat)
    requires Tallied(input, ordered, |ordered|, [], balances, excluded) && owner in balances
    ensures balances[owner] == Balances(ordered, owner)
  {
  }

  method ComputeHolders(input: Input) returns (result: Result<HolderTable>)
    requires input.params.minEligibleUsdMicro >= 0
    ensures result == HoldersOf(input)
    // Averages, values, eligibility, owners and the price, in terms of the snapshots' rows.
    ensures result.Ok? ==> HolderLaws.TableHolds(input, result.value)
  {
    hide HolderLaws.TableHolds, Tallied, GoodRows, AllPriced, Ordered, AllOwners, Counted;
    if input.snapshots == [] {
      return Err(NoSnapshots);
    }
    if input.solUsdMicro <= 0 {
      return Err(BadSolPrice);
    }
    if |IndexSet(input.snapshots)| != |input.snapshots| {
      return Err(DuplicateIndex);
    }
    var ordered := Ordered(input.snapshots);
    OrderedHolds(input.snapshots);
    var good, balances, excluded := TallyAll(input, ordered);
    assert good <==> forall s :: s in input.snapshots ==> GoodRows(s.accounts);
    if !good {
      return Err(BadRow);
    }
    if !AllPriced(input.snapshots) {
      return Err(BadPrice);
    }
    OrderedPriced(input.snapshots);
    var price := Median(Prices(ordered));
    var keys := SortedKeys(balances.Keys);
    AscendingHolds(balances.Keys);
    var holders := BuildHolders(input, ordered, price, balances, excluded, keys);
    var excludedKeys := SortedKeys(excluded.Keys);
    AscendingHolds(excluded.Keys);
    var excludedRows := BuildExcluded(input, ordered, balances, excluded, excludedKeys);
    TalliedKeys(input, ordered, balances, excluded);
    result := Ok(HolderTable(holders, excludedRows, price));
    HolderLaws.EveryTableHolds(input);
  }

  lemma {:induction false} TalliedKeys(input: Input, ordered: seq<Snapshot>, balances: map<nat, seq<int>>,
                                       excluded: map<nat, string>)
    requires Tallied(input, ordered, |ordered|, [], balances, excluded)
    ensures balances.Keys == Counted(input, AllOwners(ordered))
    ensures excluded.Keys == AllOwners(ordered) - Counted(input, AllOwners(ordered))
  {
    assert ordered[..|ordered|] == ordered;
    assert AllOwners(ordered) + OwnersIn([]) == AllOwners(ordered);
  }

  method BuildHolders(input: Input, ordered: seq<Snapshot>, price: Price, balances: map<nat, seq<int>>,
                      ghost excluded: map<nat, string>, keys: seq<nat>) returns (holders: seq<Holder>)
    requires ordered != [] && input.solUsdMicro > 0 && input.params.minEligibleUsdMicro >= 0
    requires Tallied(input, ordered, |ordered|, [], balances, excluded) && forall key :: key in keys ==> key in balances
    ensures holders == HolderRows(ordered, price, input.solUsdMicro, input.params.minEligibleUsdMicro, keys)
  {
    hide Tallied;
    holders := [];
    var threshold := input.params.minEligibleUsdMicro * price.den * LAMPORTS_PER_SOL;
    var i := 0;
    while i < |keys|
      invariant 0 <= i <= |keys|
      invariant |keys| == |HolderRows(ordered, price, input.solUsdMicro, input.params.minEligibleUsdMicro, keys)|
      invariant holders == HolderRows(ordered, price, input.solUsdMicro, input.params.minEligibleUsdMicro, keys)[..i]
    {
      var sampleBalances := balances[keys[i]];
      TalliedBalances(input, ordered, balances, excluded, keys[i]);
      var twab := Total(sampleBalances) / |ordered|;
      var scaled := twab * price.num * input.solUsdMicro;
      holders := holders + [Holder(keys[i], sampleBalances, twab, scaled / (price.den * LAMPORTS_PER_SOL),
                                   twab > 0 && scaled >= threshold)];
      i := i + 1;
    }
  }

  method BuildExcluded(input: Input, ghost ordered: seq<Snapshot>, ghost balances: map<nat, seq<int>>,
                       excluded: map<nat, string>, keys: seq<nat>) returns (rows: seq<Exclusion>)
    requires Tallied(input, ordered, |ordered|, [], balances, excluded) && forall key :: key in keys ==> key in excluded
    ensures rows == ExcludedRows(input, keys)
  {
    rows := [];
    var i := 0;
    while i < |keys|
      invariant 0 <= i <= |keys| == |ExcludedRows(input, keys)| && rows == ExcludedRows(input, keys)[..i]
    {
      rows := rows + [Exclusion(keys[i], excluded[keys[i]])];
      i := i + 1;
    }
  }

  method AllocateRound(input: Input) returns (result: Result<RoundAllocation>)
    ensures result == Allocate(input)
    ensures result.Ok? ==> PaysOut(result.value, input.params) && MintsDiffer(result.value)
    ensures result.Ok? ==> ShareLaws.RoundHolds(input, result.value, EligibleOf(input))
  {
    hide HoldersOf, PaysOut, MintsDiffer, ShareLaws.RoundHolds, EligibleOf;
    if !ValidParams(input.params) {
      return Err(BadParams);
    }
    if |input.assets| > MAX_ASSETS_PER_ROUND {
      return Err(TooManyAssets);
    }
    if |Mints(input.assets)| != |input.assets| {
      return Err(DuplicateMint);
    }
    var computed := ComputeHolders(input);
    if computed.Err? {
      return Err(computed.error);
    }
    HoldersSound(input);
    var eligible := Eligible(computed.value.holders);
    result := ShareAll(input.assets, eligible, input.params, computed.value);
    if result.Ok? {
      AllocationPaysOut(input);
      ShareLaws.EveryRoundHolds(input);
    }
  }

  method ShareAll(assets: seq<AssetInput>, eligible: seq<Apportionment.Weighted>, params: Params, table: HolderTable)
    returns (result: Result<RoundAllocation>)
    requires ValidParams(params)
    ensures result == ShareAssets(assets, eligible, params, table)
  {
    hide AllocateAsset, ValidParams;
    var round := RoundAllocation(table, [], []);
    var i := 0;
    while i < |assets|
      invariant 0 <= i <= |assets|
      invariant ShareAssets(assets[..i], eligible, params, table) == Ok(round)
    {
      var outcome := ShareOut(assets[i], eligible, params);
      assert assets[..i + 1][..i] == assets[..i];
      match outcome {
        case NegativeAmounts =>
          ErrorStays(assets, i + 1, eligible, params, table);
          return Err(BadAsset);
        case Skipped(reason) =>
          round := round.(skipped := round.skipped + [SkippedAsset(assets[i].mint, reason)]);
        case Paid(share) =>
          round := round.(assets := round.assets + [AssetAllocation(|round.assets|, share)]);
      }
      i := i + 1;
    }
    assert assets[..i] == assets;
    result := Ok(round);
  }

  lemma {:induction false} ErrorStays(assets: seq<AssetInput>, i: nat, eligible: seq<Apportionment.Weighted>,
                                      params: Params, table: HolderTable)
    requires ValidParams(params) && i <= |assets| && ShareAssets(assets[..i], eligible, params, table).Err?
    ensures ShareAssets(assets, eligible, params, table) == ShareAssets(assets[..i], eligible, params, table)
    decreases |assets| - i
  {
    if i == |assets| {
      assert assets[..i] == assets;
    } else {
      assert assets[..i + 1][..i] == assets[..i];
      ErrorStays(assets, i + 1, eligible, params, table);
    }
  }
}
