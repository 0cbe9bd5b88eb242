/** How the engine's larger steps come out: how a pot is split, which reservations a round lets go, and when an
    activation step tries an asset, moves on, or makes its round pay. */
module EngineFates {
  import opened Terms
  import opened Ledgers
  import opened Engine
  import opened EngineInvariants
  import EngineLaws
  import EngineRuns

  // ---- splitting the pot -------------------------------------------------------------------

  /** Coins are bought if and only if, with the round's costs set aside, the pot gives each more than its swap's
      overhead; then the estimate is set aside, each coin gets an equal share, and less than one unit a coin is left
      over. */
  lemma {:induction false} SelectSplits(s: State, selected: seq<Candidate>, estimate: nat, swapOverhead: nat)
    requires s.round.Some?
    ensures var next, coins := SelectBasket(s, selected, estimate, swapOverhead), Deduplicate(selected);
      && next.round.Some? && next.round.value.purchases.Some?
      && (selected != [] && s.ledger.basket >= estimate + |coins| * (swapOverhead + 1)
          <==> next.round.value.purchases.value != [])
      && (if next.round.value.purchases.value == [] then
            next == s.(round := Some(s.round.value.(purchases := Some([]))))
          else
            var round := next.round.value;
            && round.purchases.value == ToPurchases(coins) && round.reserve == estimate && round.budget > swapOverhead
            && 0 <= s.ledger.basket - estimate - round.budget * |coins| < |coins|
            && next.ledger == s.ledger.(basket := s.ledger.basket - estimate,
                                        operations := s.ledger.operations + estimate))
  {
    EngineLaws.DeduplicateHolds(selected);
    var coins := Deduplicate(selected);
    hide Deduplicate;
    if selected != [] {
      Quotient(s.ledger.basket - estimate, |coins|, swapOverhead);
    }
  }

  lemma {:induction false} Quotient(x: int, n: nat, least: nat)
    requires n > 0
    ensures x > 0 ==> 0 <= x - x / n * n < n
    ensures x >= n * (least + 1) <==> x > 0 && x / n > least
  {
    var q := x / n;
    if q > least {
      assert n * q >= n * (least + 1);
    } else {
      assert n * (q + 1) <= n * (least + 1);
    }
  }

  // ---- letting go --------------------------------------------------------------------------

  predicate LetGo(a: FundedAsset, kept: set<nat>, pendingOnly: bool) {
    a.mint !in kept && (pendingOnly ==> a.status == Pending)
  }

  /** What goes back to inventory: the reservations let go that were not spent. */
  function Freed(assets: seq<FundedAsset>, kept: set<nat>, pendingOnly: bool, mint: nat): nat
    decreases |assets|
  {
    if assets == [] then 0
    else
      var a := assets[|assets| - 1];
      Freed(assets[..|assets| - 1], kept, pendingOnly, mint)
      + if LetGo(a, kept, pendingOnly) && a.status == Pending && a.mint == mint then a.fundAmount else 0
  }

  ghost predicate Lets(before: seq<FundedAsset>, after: seq<FundedAsset>, kept: set<nat>, pendingOnly: bool, n: nat) {
    |after| == |before|
    && forall i :: 0 <= i < |before| ==>
         after[i] == if i < n && LetGo(before[i], kept, pendingOnly) then before[i].(status := Released) else before[i]
  }

  /** Exactly the reservations to be let go are released, and each unspent one goes back to inventory in full. */
  lemma {:induction false} ReleaseHolds(assets: seq<FundedAsset>, inventory: map<nat, InventoryEntry>, kept: set<nat>,
                                        pendingOnly: bool, n: nat, mint: nat)
    requires n <= |assets|
    ensures var r := ReleaseWhere(assets, inventory, kept, pendingOnly, n);
      Lets(assets, r.assets, kept, pendingOnly, n)
      && AmountOf(r.inventory, mint) == AmountOf(inventory, mint) + Freed(assets[..n], kept, pendingOnly, mint)
    decreases n
  {
    if n > 0 {
      ReleaseHolds(assets, inventory, kept, pendingOnly, n - 1, mint);
      assert assets[..n][..n - 1] == assets[..n - 1];
    }
  }

  /** A commit lets go of what the allocation left out; with nothing left to pay the round is over, and otherwise it
      goes on as committed, each of its assets tracked until it expires. */
  lemma {:induction false} CommitFates(s: State, cost: Option<int>, payable: seq<Candidate>, expiryTs: int)
    requires s.round.Some? && payable != []
    ensures var was, next := s.round.value, Commit(s, cost, payable, expiryTs);
      && next.round.None? && next.ledger == s.ledger
      && |next.paying| == |s.paying| + 1 && next.paying[..|s.paying|] == s.paying
      && |next.expiring| == |s.expiring| + 1 && next.expiring[..|s.expiring|] == s.expiring
      && CommittedRound(was, next.paying[|s.paying|], set c | c in payable :: c.mint, expiryTs)
      && Tracked(next.expiring[|s.expiring|], was.roundId, payable, expiryTs)
      && forall mint :: AmountOf(next.inventory, mint) == AmountOf(s.inventory, mint)
                        + Freed(was.assets, set c | c in payable :: c.mint, false, mint)
  {
    hide ReleaseWhere;
    var was := s.round.value;
    var kept := set c | c in payable :: c.mint;
    assert was.assets[..|was.assets|] == was.assets;
    forall mint
      ensures var r := ReleaseWhere(was.assets, s.inventory, kept, false, |was.assets|);
        Lets(was.assets, r.assets, kept, false, |was.assets|)
        && AmountOf(r.inventory, mint) == AmountOf(s.inventory, mint) + Freed(was.assets, kept, false, mint)
    {
      ReleaseHolds(was.assets, s.inventory, kept, false, |was.assets|, mint);
    }
    ReleaseHolds(was.assets, s.inventory, kept, false, |was.assets|, 0);
  }

  ghost predicate CommittedRound(was: ActiveRound, r: ActiveRound, kept: set<nat>, expiryTs: int) {
    r.roundId == was.roundId && r.status == Committed && r.expiryTs == expiryTs && r.reserve == was.reserve
    && Lets(was.assets, r.assets, kept, false, |was.assets|)
  }

  /** Under the index it has in the committed trees. */
  ghost predicate Tracked(e: ExpiringRound, roundId: nat, payable: seq<Candidate>, expiryTs: int) {
    e.roundId == roundId && e.expiryTs == expiryTs && |e.assets| == |payable|
    && forall i :: 0 <= i < |payable| ==>
         e.assets[i].assetIdx == i && e.assets[i].mint == payable[i].mint
         && e.assets[i].tokenProgram == payable[i].tokenProgram && e.assets[i].attempts == 0
  }

  /** A finished round leaves nothing reserved: what never activated is back in inventory, and no other round is
      touched. */
  lemma {:induction false} FinishFates(s: State, at: nat, mint: nat)
    requires at < |s.paying|
    ensures var was, next := s.paying[at], FinishPaying(s, at);
      && AmountOf(next.inventory, mint) == AmountOf(s.inventory, mint) + Freed(was.assets, {}, true, mint)
      && next.round == s.round && next.expiring == s.expiring
      && forall r :: r in next.paying <==> r in s.paying && r.roundId != was.roundId
  {
    hide Reconcile;
    var was := s.paying[at];
    assert was.assets[..|was.assets|] == was.assets;
    ReleaseHolds(was.assets, s.inventory, {}, true, |was.assets|, mint);
    OthersStay(s.paying, was.roundId);
  }

  lemma {:induction false} OthersStay(paying: seq<ActiveRound>, roundId: nat)
    ensures forall r :: r in WithoutRound(paying, roundId) <==> r in paying && r.roundId != roundId
    decreases |paying|
  {
    if paying != [] {
      var n := |paying| - 1;
      OthersStay(paying[..n], roundId);
      assert paying == paying[..n] + [paying[n]];
    }
  }

  // ---- until it is closed --------------------------------------------------------------------

  /** An asset of a committed round, still to be closed after expiry. */
  ghost predicate Owing(expiring: seq<ExpiringRound>, roundId: nat, assetIdx: nat) {
    exists r :: r in expiring && r.roundId == roundId && Lists(r.assets, assetIdx)
  }

  ghost predicate Lists(assets: seq<ExpiringAsset>, assetIdx: nat) {
    exists a :: a in assets && a.assetIdx == assetIdx
  }

  lemma {:induction false} DropKeeps<T>(items: seq<T>, i: nat, x: T)
    requires i < |items| && x in items
    ensures x in Drop(items, i) || x == items[i]
  {
    var k :| 0 <= k < |items| && items[k] == x;
    if k < i {
      assert Drop(items, i)[k] == x;
    } else if k > i {
      assert Drop(items, i)[k - 1] == x;
    }
  }

  lemma {:induction false} ReplaceKeeps<T>(items: seq<T>, i: nat, y: T, x: T)
    requires i < |items| && x in items
    ensures x in items[i := y] || x == items[i]
    ensures y in items[i := y]
  {
    var k :| 0 <= k < |items| && items[k] == x;
    assert items[i := y][i] == y && (k != i ==> items[i := y][k] == x);
  }

  lemma {:induction false} PostponeOwes(s: State, at: nat, j: nat, until: int, r: ExpiringRound, roundId: nat,
                                        assetIdx: nat)
    requires at < |s.expiring| && j < |s.expiring[at].assets|
    requires r in s.expiring && r.roundId == roundId && Lists(r.assets, assetIdx)
    ensures Owing(Postpone(s, at, j, until).expiring, roundId, assetIdx)
  {
    var next := Postpone(s, at, j, until);
    ReplaceKeeps(s.expiring, at, next.expiring[at], r);
    if r !in next.expiring {
      var a :| a in r.assets && a.assetIdx == assetIdx;
      ReplaceKeeps(r.assets, j, next.expiring[at].assets[j], a);
      assert Lists(next.expiring[at].assets, assetIdx);
    }
  }

  lemma {:induction false} DropOwes(s: State, at: nat, j: nat, closing: Closing, now: int, r: ExpiringRound,
                                    roundId: nat, assetIdx: nat)
    requires at < |s.expiring| && j < |s.expiring[at].assets| && (closing.Gone? || closing.Closed?)
    requires r in s.expiring && r.roundId == roundId && Lists(r.assets, assetIdx)
    ensures Owing(CloseExpired(s, at, j, closing, now).expiring, roundId, assetIdx)
         || (s.expiring[at].roundId == roundId && s.expiring[at].assets[j].assetIdx == assetIdx)
  {
    hide ChargeBasket, CreditInventory;
    var next := CloseExpired(s, at, j, closing, now);
    var round := s.expiring[at];
    var dropped := round.(assets := Drop(round.assets, j));
    var a :| a in r.assets && a.assetIdx == assetIdx;
    if dropped.assets == [] {
      DropKeeps(s.expiring, at, r);
    } else {
      ReplaceKeeps(s.expiring, at, dropped, r);
    }
    if r == round {
      DropKeeps(round.assets, j, a);
      if a in dropped.assets {
        assert dropped in next.expiring && Lists(dropped.assets, assetIdx);
      }
    } else {
      assert r in next.expiring;
    }
  }

  /** No asset is forgotten before it is closed: it is tracked until a step closes it or finds it closed. */
  lemma {:induction false} StepOwes(s: State, step: EngineRuns.Step, roundId: nat, assetIdx: nat)
    requires EngineRuns.Enabled(s, step) && Owing(s.expiring, roundId, assetIdx)
    ensures Owing(EngineRuns.Apply(s, step).expiring, roundId, assetIdx)
         || (step.CloseIt? && (step.closing.Gone? || step.closing.Closed?) && s.expiring[step.at].roundId == roundId
             && s.expiring[step.at].assets[step.j].assetIdx == assetIdx)
  {
    hide ReleaseWhere, Reconcile, ActivateEach, Deduplicate, ReserveAll, ChargeBasket, CreditInventory, BackoffSecs,
      Lists;
    var r :| r in s.expiring && r.roundId == roundId && Lists(r.assets, assetIdx);
    match step {
      case CloseIt(at, j, closing, now) =>
        match closing {
          case NotYetExpired => PostponeOwes(s, at, j, now + 30, r, roundId, assetIdx);
          case CloseRefused =>
            PostponeOwes(s, at, j, now + BackoffSecs(s.expiring[at].assets[j].attempts + 1), r, roundId, assetIdx);
          case _ => DropOwes(s, at, j, closing, now, r, roundId, assetIdx);
        }
      case _ => assert r in EngineRuns.Apply(s, step).expiring;
    }
  }

  // ---- activating ----------------------------------------------------------------------------

  ghost predicate SameHoldings(a: seq<FundedAsset>, b: seq<FundedAsset>) {
    |a| == |b|
    && forall i :: 0 <= i < |a| ==> b[i] == a[i].(status := b[i].status, attempts := b[i].attempts,
      nextAttemptAt := b[i].nextAttemptAt)
  }

  /** An asset the step did not try: as it was, or found active on chain. */
  ghost predicate Untried(a: FundedAsset, b: FundedAsset, replies: map<nat, Activation>) {
    b == a || (a.status == Pending && ReplyTo(replies, a.mint).AlreadyActive? && b == a.(status := Activated))
  }

  ghost predicate TriesOne(a: seq<FundedAsset>, b: seq<FundedAsset>, replies: map<nat, Activation>, tried: int) {
    |a| == |b| && forall i :: 0 <= i < |a| && i != tried ==> Untried(a[i], b[i], replies)
  }

  /** Nothing is left to do for a mint: its reservation is not pending, or is found active. */
  ghost predicate Settled(assets: seq<FundedAsset>, replies: map<nat, Activation>, mint: nat) {
    var i := IndexOf(assets, mint);
    i < |assets| && (assets[i].status == Pending ==> ReplyTo(replies, mint).AlreadyActive?)
  }

  lemma {:induction false} SameIndex(a: seq<FundedAsset>, b: seq<FundedAsset>, mint: nat)
    requires SameHoldings(a, b)
    ensures IndexOf(a, mint) == IndexOf(b, mint)
    decreases |a|
  {
    if a != [] && a[0].mint != mint {
      SameIndex(a[1..], b[1..], mint);
    }
  }

  /** One asset of the loop. */
  lemma {:induction false} OneTries(p: Progress, i: nat, reply: Activation, now: int, max: nat)
    requires i < |p.round.assets| && !p.stopped
    ensures var r := ActivateOne(p, i, reply, now, max);
      && SameHoldings(p.round.assets, r.round.assets)
      && (forall k :: 0 <= k < |p.round.assets| && k != i ==> r.round.assets[k] == p.round.assets[k])
      && r.failed == p.failed && (p.backingOff ==> r.backingOff)
      && SameRound(p.round, r.round)
      && (!r.stopped ==>
            r.round.assets[i] == p.round.assets[i]
            || (p.round.assets[i].status == Pending && reply.AlreadyActive?
                && r.round.assets[i] == p.round.assets[i].(status := Activated)))
      && (!r.stopped && !r.backingOff <==>
            !p.backingOff && (p.round.assets[i].status == Pending ==> reply.AlreadyActive?))
  {
    hide BackoffSecs, CreditInventory;
  }

  ghost predicate SameRound(a: ActiveRound, b: ActiveRound) {
    b.roundId == a.roundId && b.status == a.status && b.reserve == a.reserve && b.budget == a.budget
    && b.expiryTs == a.expiryTs && b.purchases == a.purchases
  }

  /** The loop tries at most one asset, and stops there; it gets to the end with nothing left to wait for exactly when
      every asset is settled. */
  lemma {:induction false} EachTries(p: Progress, mints: seq<nat>, replies: map<nat, Activation>, now: int, max: nat)
    returns (tried: int)
    requires !p.stopped && !p.backingOff && !p.failed
    ensures var r := ActivateEach(p, mints, replies, now, max);
      && SameHoldings(p.round.assets, r.round.assets) && SameRound(p.round, r.round)
      && TriesOne(p.round.assets, r.round.assets, replies, tried) && (!r.stopped ==> tried == -1)
      && (!r.stopped && !r.backingOff <==> forall mint :: mint in mints ==> Settled(p.round.assets, replies, mint))
      && (r.failed ==> r.stopped)
    decreases |mints|
  {
    tried := -1;
    if mints != [] {
      var n := |mints| - 1;
      var front, r := ActivateEach(p, mints[..n], replies, now, max), ActivateEach(p, mints, replies, now, max);
      tried := EachTries(p, mints[..n], replies, now, max);
      SameIndex(p.round.assets, front.round.assets, mints[n]);
      AllSettled(p.round.assets, replies, mints);
      var i := IndexOf(front.round.assets, mints[n]);
      if !front.stopped && i < |front.round.assets| {
        OneTries(front, i, ReplyTo(replies, mints[n]), now, max);
        SettledLater(p.round.assets, front.round.assets, replies, mints[n]);
        tried := if r.stopped then i else -1;
        NextTried(p.round.assets, front.round.assets, r.round.assets, replies, i, r.stopped);
      }
      hide ActivateOne, IndexOf, Settled, SameHoldings, TriesOne;
    }
  }

  /** One more asset tried, or found as it is. */
  lemma {:induction false} NextTried(a: seq<FundedAsset>, b: seq<FundedAsset>, c: seq<FundedAsset>,
                                     replies: map<nat, Activation>, i: nat, isTried: bool)
    requires SameHoldings(a, b) && SameHoldings(b, c) && TriesOne(a, b, replies, -1) && i < |b|
    requires forall k :: 0 <= k < |b| && k != i ==> c[k] == b[k]
    requires isTried || Untried(b[i], c[i], replies)
    ensures SameHoldings(a, c) && TriesOne(a, c, replies, if isTried then i else -1)
  {
  }

  lemma {:induction false} SettledLater(a: seq<FundedAsset>, b: seq<FundedAsset>, replies: map<nat, Activation>,
                                        mint: nat)
    requires SameHoldings(a, b) && TriesOne(a, b, replies, -1)
    ensures Settled(a, replies, mint) <==> Settled(b, replies, mint)
  {
    SameIndex(a, b, mint);
  }

  lemma {:induction false} AllSettled(assets: seq<FundedAsset>, replies: map<nat, Activation>, mints: seq<nat>)
    requires mints != []
    ensures var n := |mints| - 1;
      (forall mint :: mint in mints ==> Settled(assets, replies, mint))
      <==> (forall mint :: mint in mints[..n] ==> Settled(assets, replies, mint)) && Settled(assets, replies, mints[n])
  {
    hide Settled;
    assert mints == mints[..|mints| - 1] + [mints[|mints| - 1]];
  }

  /** An activation step makes its round pay exactly when every asset of the trees is settled; it tries at most one
      asset and leaves the others as they were or as the chain has them; no other round is touched. */
  lemma {:induction false} ActivateFates(s: State, at: nat, mints: seq<nat>, replies: map<nat, Activation>, now: int,
                                         max: nat) returns (tried: int)
    requires at < |s.paying| && s.paying[at].status == Committed
    ensures var was, next := s.paying[at], Activate(s, at, mints, replies, now, max);
      && |next.paying| == |s.paying| && (forall k :: 0 <= k < |s.paying| && k != at ==> next.paying[k] == s.paying[k])
      && next.paying[at].roundId == was.roundId && next.paying[at].reserve == was.reserve
      && SameHoldings(was.assets, next.paying[at].assets)
      && TriesOne(was.assets, next.paying[at].assets, replies, tried)
      && (next.paying[at].status == Active
          <==> forall mint :: mint in mints ==> Settled(was.assets, replies, mint))
      && (next.paying[at].status == Active || next.paying[at].status == Committed)
      && (next.paying[at].status == Active ==> tried == -1)
  {
    tried := EachTries(StartActivating(s, at), mints, replies, now, max);
    if ActivateEach(StartActivating(s, at), mints, replies, now, max).failed {
      tried := -1;
    }
    hide ActivateEach, IndexOf, ReplyTo;
  }
}
