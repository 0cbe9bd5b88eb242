/** The keeper's bookkeeping of its rounds, keeper/round/engine.ts, step by step. Replies from the chain and the
    network are inputs to each step. */
module Engine {
  import opened Terms
  import opened Ledgers

  const MAX_ASSETS_PER_ROUND := 30
  const MAX_VETTED_MINTS := 100
  const MAX_OUTPUT_CHECKS := 5

  datatype RoundStatus = Collecting | WindowClosed | Seeded | Funded | Prepared | Committed | Active

  datatype AssetStatus = Pending | Activated | Abandoned | Released

  datatype PurchaseStatus = ToBuy | Bought | Skipped

  /** `wallet`: a swap wallet is in use; `refused`: the swap was refused for a stated reason. */
  datatype Purchase = Purchase(
    mint: nat, tokenProgram: nat, status: PurchaseStatus, lamportsSpent: nat, received: nat, attempts: nat,
    wallet: bool, refused: bool, outputChecks: nat)

  datatype FundedAsset = FundedAsset(
    mint: nat, tokenProgram: nat, fundAmount: nat, allocatable: nat, status: AssetStatus, attempts: nat,
    nextAttemptAt: int)

  datatype ActiveRound = ActiveRound(
    roundId: nat, status: RoundStatus, reserve: nat, spent: int, budget: nat, purchases: Option<seq<Purchase>>,
    assets: seq<FundedAsset>, expiryTs: int)

  datatype InventoryEntry = InventoryEntry(tokenProgram: nat, amount: nat)

  datatype ExpiringAsset = ExpiringAsset(assetIdx: nat, mint: nat, tokenProgram: nat, attempts: nat, nextAttemptAt: int)

  datatype ExpiringRound = ExpiringRound(roundId: nat, expiryTs: int, assets: seq<ExpiringAsset>)

  datatype State = State(
    ledger: Ledger, inventory: map<nat, InventoryEntry>, round: Option<ActiveRound>, paying: seq<ActiveRound>,
    expiring: seq<ExpiringRound>)

  // ---- small moves -----------------------------------------------------------------------

  function AmountOf(inventory: map<nat, InventoryEntry>, mint: nat): nat {
    if mint in inventory then inventory[mint].amount else 0
  }

  function CreditInventory(inventory: map<nat, InventoryEntry>, mint: nat, tokenProgram: nat,
                           amount: int): map<nat, InventoryEntry>
  {
    if amount <= 0 then inventory
    else inventory[mint := InventoryEntry(tokenProgram, AmountOf(inventory, mint) + amount)]
  }

  /** A cost no round owns comes from the basket; a refund goes to it. */
  function ChargeBasket(ledger: Ledger, cost: int): Ledger {
    if cost > 0 then Debit(ledger, Basket, cost).0 else ledger.(basket := ledger.basket - cost)
  }

  function ChargeRound(round: ActiveRound, cost: Option<int>): ActiveRound {
    if cost.Some? then round.(spent := round.spent + cost.value) else round
  }

  // ---- opening and abandoning ---------------------------------------------------------------

  /** Saved before the opening is sent: None for `opening` is a send that failed or a crash right after that save. */
  function OpenRound(s: State, roundId: nat, setup: int, opening: Option<int>): State {
    var round := ActiveRound(roundId, Collecting, 0, 0, 0, None, [], 0);
    s.(ledger := ChargeBasket(s.ledger, setup), round := Some(ChargeRound(round, opening)))
  }

  /** A transaction of the collecting round: its cost, and the status it moves to. */
  function Advance(s: State, status: RoundStatus, cost: Option<int>): State
    requires s.round.Some?
  {
    s.(round := Some(ChargeRound(s.round.value, cost).(status := status)))
  }

  function AbandonCollecting(s: State, cost: Option<int>): State
    requires s.round.Some?
  {
    var round := ChargeRound(s.round.value, cost);
    s.(ledger := Reconcile(s.ledger, round.reserve, round.spent), round := None)
  }

  // ---- buying -----------------------------------------------------------------------------------

  datatype Candidate = Candidate(mint: nat, tokenProgram: nat)

  predicate HasMint(candidates: seq<Candidate>, mint: nat) {
    exists i :: 0 <= i < |candidates| && candidates[i].mint == mint
  }

  function Deduplicate(candidates: seq<Candidate>): seq<Candidate>
    decreases |candidates|
  {
    if candidates == [] then []
    else
      var n := |candidates| - 1;
      var front := Deduplicate(candidates[..n]);
      if HasMint(candidates[..n], candidates[n].mint) then front else front + [candidates[n]]
  }

  function ReserveFor(candidates: seq<Candidate>, estimate: nat): nat {
    if |candidates| > 0 then estimate else 0
  }

  function PerCoin(pot: int, candidates: seq<Candidate>, estimate: nat): nat {
    if |candidates| > 0 && pot > ReserveFor(candidates, estimate) then
      (pot - ReserveFor(candidates, estimate)) / |candidates|
    else 0
  }

  function ToPurchases(candidates: seq<Candidate>): seq<Purchase> {
    seq(|candidates|, i requires 0 <= i < |candidates| =>
      Purchase(candidates[i].mint, candidates[i].tokenProgram, ToBuy, 0, 0, 0, false, false, 0))
  }

  /** Sets the round's costs aside from the pot, then splits what is left over the coins. */
  function SelectBasket(s: State, selected: seq<Candidate>, estimate: nat, swapOverhead: nat): State
    requires s.round.Some?
  {
    var candidates := Deduplicate(selected);
    var reserve, perCoin := ReserveFor(candidates, estimate), PerCoin(s.ledger.basket, candidates, estimate);
    if perCoin <= swapOverhead then s.(round := Some(s.round.value.(purchases := Some([]))))
    else
      s.(ledger := s.ledger.(basket := s.ledger.basket - reserve, operations := s.ledger.operations + reserve),
         round := Some(s.round.value.(reserve := reserve, budget := perCoin,
                                      purchases := Some(ToPurchases(candidates)))))
  }

  /** The chain's part in settling one attempt: what funding the wallet cost and sweeping it returned, the tokens swept
      and what of them is left after a transfer fee, and whether the wallet's swaps are visible. */
  datatype Settlement = Settlement(funding: int, returned: int, tokens: nat, arrived: nat, swapsSeen: bool,
                                   maxAttempts: nat)

  function SettledPurchase(p: Purchase, budget: nat, r: Settlement): Purchase {
    if r.tokens == 0 && !p.refused && r.swapsSeen && p.outputChecks < MAX_OUTPUT_CHECKS then
      p.(outputChecks := p.outputChecks + 1)
    else if r.tokens > 0 then
      p.(status := Bought, received := r.tokens,
         lamportsSpent := if p.lamportsSpent == 0 then budget else p.lamportsSpent,
         wallet := false)
    else if p.refused then p.(status := Skipped, lamportsSpent := 0, wallet := false)
    else
      p.(attempts := p.attempts + 1, lamportsSpent := 0, wallet := false,
         status := if p.attempts + 1 >= r.maxAttempts then Skipped else ToBuy)
  }

  function SettlePurchase(s: State, i: nat, r: Settlement): State
    requires s.round.Some? && s.round.value.purchases.Some? && i < |s.round.value.purchases.value|
  {
    var round, p := s.round.value, s.round.value.purchases.value[i];
    var settled := SettledPurchase(p, round.budget, r);
    s.(ledger := ChargeBasket(s.ledger, r.funding - r.returned),
       round := Some(round.(purchases := Some(round.purchases.value[i := settled]))),
       inventory := if r.tokens > 0 then CreditInventory(s.inventory, p.mint, p.tokenProgram, r.arrived)
         else s.inventory)
  }

  // ---- reserving inventory -----------------------------------------------------------------------

  /** What vetting a mint replies: None holds it back, Some is what a vault would get of the whole holding. */
  type Vetting = map<nat, nat>

  datatype Reservation = Reservation(assets: seq<FundedAsset>, inventory: map<nat, InventoryEntry>)

  function ReserveOne(r: Reservation, mint: nat, vetting: Vetting): Reservation {
    if |r.assets| >= MAX_ASSETS_PER_ROUND || AmountOf(r.inventory, mint) == 0 || mint !in vetting then r
    else
      var entry := r.inventory[mint];
      Reservation(r.assets + [FundedAsset(mint, entry.tokenProgram, entry.amount, vetting[mint], Pending, 0, 0)],
        r.inventory - {mint})
  }

  function ReserveAll(inventory: map<nat, InventoryEntry>, mints: seq<nat>, vetting: Vetting): Reservation
    decreases |mints|
  {
    if mints == [] then Reservation([], inventory)
    else ReserveOne(ReserveAll(inventory, mints[..|mints| - 1], vetting), mints[|mints| - 1], vetting)
  }

  function BoughtMints(purchases: seq<Purchase>): seq<nat>
    decreases |purchases|
  {
    if purchases == [] then []
    else
      var n := |purchases| - 1;
      BoughtMints(purchases[..n]) + if purchases[n].status == Bought then [purchases[n].mint] else []
  }

  function Once(mints: seq<nat>): seq<nat>
    decreases |mints|
  {
    if mints == [] then []
    else
      var n := |mints| - 1;
      Once(mints[..n]) + if mints[n] in mints[..n] then [] else [mints[n]]
  }

  /** The coins bought this round first, then `held`: what the inventory holds, largest first. */
  function ReserveAssets(s: State, held: seq<nat>, vetting: Vetting): State
    requires s.round.Some?
  {
    var bought := if s.round.value.purchases.Some? then BoughtMints(s.round.value.purchases.value) else [];
    var mints := Once(bought + held);
    var considered := if |mints| > MAX_VETTED_MINTS then mints[..MAX_VETTED_MINTS] else mints;
    var r := ReserveAll(s.inventory, considered, vetting);
    s.(inventory := r.inventory, round := Some(s.round.value.(assets := r.assets, status := Funded)))
  }

  /** A reservation that is given up goes back to inventory, unless it was already spent. */
  function ReleaseOne(r: Reservation, i: nat, status: AssetStatus): Reservation
    requires i < |r.assets|
  {
    var asset := r.assets[i];
    Reservation(r.assets[i := asset.(status := status)],
      if asset.status == Pending then CreditInventory(r.inventory, asset.mint, asset.tokenProgram, asset.fundAmount)
        else r.inventory)
  }

  /** Releases every asset that is not kept: at commit what the allocation left out, at the end what never activated. */
  function ReleaseWhere(assets: seq<FundedAsset>, inventory: map<nat, InventoryEntry>, kept: set<nat>,
                        pendingOnly: bool, n: nat)
    : (r: Reservation)
    requires n <= |assets|
    ensures |r.assets| == |assets|
    decreases n
  {
    if n == 0 then Reservation(assets, inventory)
    else
      var front := ReleaseWhere(assets, inventory, kept, pendingOnly, n - 1);
      if assets[n - 1].mint in kept || (pendingOnly && assets[n - 1].status != Pending) then front
      else ReleaseOne(front, n - 1, Released)
  }

  // ---- committing ---------------------------------------------------------------------------------

  /** `payable`: the assets of the committed trees, in index order. */
  function Commit(s: State, cost: Option<int>, payable: seq<Candidate>, expiryTs: int): State
    requires s.round.Some?
  {
    var round := ChargeRound(s.round.value, cost);
    var kept := set c | c in payable :: c.mint;
    var r := ReleaseWhere(round.assets, s.inventory, kept, false, |round.assets|);
    var committed := round.(assets := r.assets, status := Committed, expiryTs := expiryTs);
    var moved := s.(inventory := r.inventory, round := None);
    if payable == [] then Finish(moved, committed)
    else
      moved.(paying := moved.paying + [committed],
             expiring := moved.expiring + [ExpiringRound(round.roundId, expiryTs, ToExpiring(payable))])
  }

  function ToExpiring(payable: seq<Candidate>): seq<ExpiringAsset> {
    seq(|payable|, i requires 0 <= i < |payable| => ExpiringAsset(i, payable[i].mint, payable[i].tokenProgram, 0, 0))
  }

  // ---- paying -----------------------------------------------------------------------------------------

  function WithoutRound(paying: seq<ActiveRound>, roundId: nat): seq<ActiveRound>
    decreases |paying|
  {
    if paying == [] then []
    else
      var n := |paying| - 1;
      WithoutRound(paying[..n], roundId) + if paying[n].roundId != roundId then [paying[n]] else []
  }

  function Finish(s: State, round: ActiveRound): State {
    var r := ReleaseWhere(round.assets, s.inventory, {}, true, |round.assets|);
    s.(inventory := r.inventory, ledger := Reconcile(s.ledger, round.reserve, round.spent),
       paying := WithoutRound(s.paying, round.roundId))
  }

  function FinishPaying(s: State, at: nat): State
    requires at < |s.paying|
  {
    Finish(s, s.paying[at])
  }

  /** What the chain replies about activating one asset. `used`: the gross of what its vault was measured to hold. */
  datatype Activation =
    | AlreadyActive(used: nat)
    | NowActive(transferred: nat, cost: Option<int>)
    | RpcTrouble
    | Refused

  /** `failed`: an asset of the trees has no reservation, which makes the source throw. */
  datatype Progress = Progress(
    round: ActiveRound, inventory: map<nat, InventoryEntry>, backingOff: bool, stopped: bool, failed: bool)

  function StartActivating(s: State, at: nat): Progress
    requires at < |s.paying|
  {
    Progress(s.paying[at], s.inventory, false, false, false)
  }

  function BackoffSecs(attempts: nat): nat {
    var exponent := if attempts <= 1 then 0 else attempts - 1;
    if exponent >= 9 then 21_600 else 60 * PowerOfTwo(exponent)
  }

  function PowerOfTwo(k: nat): nat {
    if k == 0 then 1 else 2 * PowerOfTwo(k - 1)
  }

  function ReplaceAsset(round: ActiveRound, i: nat, asset: FundedAsset): ActiveRound
    requires i < |round.assets|
  {
    round.(assets := round.assets[i := asset])
  }

  /** One asset of the loop: index `i` into the round's reservations, or none for it. */
  function ActivateOne(p: Progress, i: nat, reply: Activation, now: int, maxAttempts: nat): Progress
    requires i < |p.round.assets|
  {
    var asset := p.round.assets[i];
    if p.stopped || asset.status != Pending then p
    else
      match reply
      case AlreadyActive(used) =>
        p.(round := ReplaceAsset(p.round, i, asset.(status := Activated)),
           inventory := CreditInventory(p.inventory, asset.mint, asset.tokenProgram, asset.fundAmount - used))
      case _ =>
        if asset.nextAttemptAt > now then p.(backingOff := true) else AttemptOne(p, i, reply, now, maxAttempts)
  }

  function AttemptOne(p: Progress, i: nat, reply: Activation, now: int, maxAttempts: nat): Progress
    requires i < |p.round.assets|
  {
    var asset := p.round.assets[i];
    var stopped := p.(stopped := true);
    match reply
    case AlreadyActive(_) => p
    case NowActive(transferred, cost) =>
      // More than is reserved is never sent: the send is refused instead.
      if transferred > asset.fundAmount then FailOne(stopped, i, now, maxAttempts)
      else
        stopped.(round := ChargeRound(ReplaceAsset(p.round, i, asset.(status := Activated)), cost),
                 inventory := CreditInventory(p.inventory, asset.mint, asset.tokenProgram,
                                              asset.fundAmount - transferred))
    case RpcTrouble => stopped.(round := ReplaceAsset(p.round, i, asset.(nextAttemptAt := now + 30)))
    case Refused => FailOne(stopped, i, now, maxAttempts)
  }

  function FailOne(p: Progress, i: nat, now: int, maxAttempts: nat): Progress
    requires i < |p.round.assets|
  {
    var asset := p.round.assets[i].(attempts := p.round.assets[i].attempts + 1);
    if asset.attempts >= maxAttempts then
      var r := ReleaseOne(Reservation(ReplaceAsset(p.round, i, asset).assets, p.inventory), i, Abandoned);
      p.(round := p.round.(assets := r.assets), inventory := r.inventory)
    else p.(round := ReplaceAsset(p.round, i, asset.(nextAttemptAt := now + BackoffSecs(asset.attempts))))
  }

  /** The first reservation of a mint. */
  function IndexOf(assets: seq<FundedAsset>, mint: nat): (i: nat)
    ensures i <= |assets| && (i < |assets| ==> assets[i].mint == mint)
    decreases |assets|
  {
    if assets == [] then 0
    else if assets[0].mint == mint then 0
    else 1 + IndexOf(assets[1..], mint)
  }

  function ActivateEach(p: Progress, mints: seq<nat>, replies: map<nat, Activation>, now: int,
                        maxAttempts: nat): (r: Progress)
    ensures |r.round.assets| == |p.round.assets|
    decreases |mints|
  {
    if mints == [] then p
    else
      var n := |mints| - 1;
      var front := ActivateEach(p, mints[..n], replies, now, maxAttempts);
      var i := IndexOf(front.round.assets, mints[n]);
      if front.stopped then front
      else if i == |front.round.assets| then front.(stopped := true, failed := true)
      else ActivateOne(front, i, if mints[n] in replies then replies[mints[n]] else RpcTrouble, now, maxAttempts)
  }

  /** `mints`: the assets of the committed trees. Once none is left to activate the round starts paying; a step that
      throws saves nothing. */
  function Activate(s: State, at: nat, mints: seq<nat>, replies: map<nat, Activation>, now: int,
                    maxAttempts: nat): State
    requires at < |s.paying|
  {
    var p := ActivateEach(StartActivating(s, at), mints, replies, now, maxAttempts);
    var round := if p.stopped || p.backingOff then p.round else p.round.(status := Active);
    if p.failed then s else s.(inventory := p.inventory, paying := s.paying[at := round])
  }

  function ChargePaying(s: State, at: nat, cost: int): State
    requires at < |s.paying|
  {
    s.(paying := s.paying[at := s.paying[at].(spent := s.paying[at].spent + cost)])
  }

  // ---- closing after expiry ------------------------------------------------------------------------------

  /** Gone: closed by someone else, or before a crash. */
  datatype Closing = Gone | Closed(cost: Option<int>, remaining: nat, arrived: nat) | NotYetExpired | CloseRefused

  function Drop<T>(items: seq<T>, i: nat): seq<T>
    requires i < |items|
  {
    items[..i] + items[i + 1..]
  }

  function CloseExpired(s: State, at: nat, j: nat, closing: Closing, now: int): State
    requires at < |s.expiring| && j < |s.expiring[at].assets|
  {
    var round, asset := s.expiring[at], s.expiring[at].assets[j];
    var dropped := round.(assets := Drop(round.assets, j));
    var closed := s.(expiring := if dropped.assets == [] then Drop(s.expiring, at) else s.expiring[at := dropped]);
    match closing
    case Gone => closed
    case Closed(cost, remaining, arrived) =>
      closed.(ledger := if cost.Some? then ChargeBasket(s.ledger, cost.value) else s.ledger,
              inventory := if remaining > 0 then CreditInventory(s.inventory, asset.mint, asset.tokenProgram, arrived)
                else s.inventory)
    case NotYetExpired => Postpone(s, at, j, now + 30)
    case CloseRefused => Postpone(s, at, j, now + BackoffSecs(asset.attempts + 1))
  }

  function Postpone(s: State, at: nat, j: nat, until: int): State
    requires at < |s.expiring| && j < |s.expiring[at].assets|
  {
    var round, asset := s.expiring[at], s.expiring[at].assets[j];
    var later := asset.(attempts := asset.attempts + 1, nextAttemptAt := until);
    s.(expiring := s.expiring[at := round.(assets := round.assets[j := later])])
  }
}
