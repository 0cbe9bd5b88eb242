/** The paying phase of keeper/round/engine.ts: which payouts a step pushes, how a block is halved and retried, and why
    it ends. */
module PushPhase {
  import opened Terms
  import Merkle

  const PUSH_BLOCK_LEVEL := 3
  const PUSH_BLOCK_SIZE := 8

  datatype LeafId = LeafId(asset: nat, leaf: nat)

  datatype Failure = Failure(attempts: nat, permanent: bool, nextAttemptAt: int)

  /** The round's failure records and, on chain, what is claimed. */
  datatype Standing = Standing(failures: map<LeafId, Failure>, claimed: set<LeafId>)

  /** What a send comes back with: `permanent` marks a refusal no retry can fix. */
  datatype Reply = Sent | RpcTrouble | Refused(permanent: bool)

  /** A step's surroundings: which blocks fit a transaction, what each send replies, and which payouts are worth
      pushing. */
  datatype Env = Env(
    now: int, maxAttempts: nat, fits: (nat, nat, nat, seq<nat>) -> bool, send: (nat, nat, nat, seq<nat>) -> Reply,
    worth: LeafId -> bool)

  /** One push_payouts transaction: an aligned block and the leaves it pays. */
  datatype Visit = Visit(asset: nat, first: nat, level: nat, leaves: seq<nat>)

  datatype Outcome = Outcome(at: Standing, pushed: nat, transactions: nat, paused: bool, visits: seq<Visit>)

  function Attempts(s: Standing, id: LeafId): nat {
    if id in s.failures then s.failures[id].attempts else 0
  }

  predicate Permanent(s: Standing, id: LeafId) {
    id in s.failures && s.failures[id].permanent
  }

  predicate BackingOff(s: Standing, id: LeafId, now: int) {
    id in s.failures && s.failures[id].nextAttemptAt > now
  }

  function Backoff(attempts: nat): nat {
    var exponent := if attempts <= 1 then 0 else attempts - 1;
    if exponent >= 10 then 21_600 else 30 * Merkle.Pow2(exponent)
  }

  function Record(s: Standing, id: LeafId, failure: Failure): Standing {
    s.(failures := s.failures[id := failure])
  }

  // ---- pushing a block ---------------------------------------------------------------------

  function InBlock(plan: seq<nat>, first: nat, end: nat): seq<nat>
    decreases |plan|
  {
    if plan == [] then []
    else
      var n := |plan| - 1;
      InBlock(plan[..n], first, end) + if first <= plan[n] < end then [plan[n]] else []
  }

  /** The program paid these leaves, or found them paid. */
  function Deliver(s: Standing, asset: nat, leaves: seq<nat>): Standing {
    var ids := set leaf | leaf in leaves :: LeafId(asset, leaf);
    Standing(s.failures - ids, s.claimed + ids)
  }

  /** Not the holders' fault: try again later without counting an attempt. */
  function Defer(s: Standing, asset: nat, leaves: seq<nat>, until: int): Standing
    decreases |leaves|
  {
    if leaves == [] then s
    else
      var n := |leaves| - 1;
      var front, id := Defer(s, asset, leaves[..n], until), LeafId(asset, leaves[n]);
      Record(front, id, Failure(Attempts(front, id), false, until))
  }

  function Fail(s: Standing, env: Env, id: LeafId, permanent: bool): Standing {
    var attempts := Attempts(s, id) + 1;
    Record(s, id, Failure(attempts, permanent || attempts >= env.maxAttempts, env.now + Backoff(attempts)))
  }

  /** A leaf on its own: a level-0 block. */
  function PushOne(s: Standing, env: Env, asset: nat, leaf: nat): Outcome {
    var visit := Visit(asset, leaf, 0, [leaf]);
    match env.send(asset, leaf, 0, [leaf])
    case Sent => Outcome(Deliver(s, asset, [leaf]), 1, 1, false, [visit])
    case RpcTrouble => Outcome(Defer(s, asset, [leaf], env.now + 30), 0, 1, true, [visit])
    case Refused(permanent) => Outcome(Fail(s, env, LeafId(asset, leaf), permanent), 0, 1, false, [visit])
  }

  /** The retry of a refused block, one leaf at a time until one pauses. */
  function PushSingly(s: Standing, env: Env, asset: nat, leaves: seq<nat>): Outcome
    decreases |leaves|
  {
    if leaves == [] then Outcome(s, 0, 0, false, [])
    else
      var n := |leaves| - 1;
      var front := PushSingly(s, env, asset, leaves[..n]);
      if front.paused then front
      else
        var last := PushOne(front.at, env, asset, leaves[n]);
        Outcome(last.at, front.pushed + last.pushed, front.transactions + last.transactions, last.paused,
          front.visits + last.visits)
  }

  function PushBlock(s: Standing, env: Env, asset: nat, first: nat, level: nat, plan: seq<nat>): Outcome
    decreases level
  {
    var leaves := InBlock(plan, first, first + Merkle.Pow2(level));
    if leaves == [] then Outcome(s, 0, 0, false, [])
    else if level > 0 && !env.fits(asset, first, level, leaves) then
      var left := PushBlock(s, env, asset, first, level - 1, leaves);
      if left.paused then left
      else
        var right := PushBlock(left.at, env, asset, first + Merkle.Pow2(level - 1), level - 1, leaves);
        Outcome(right.at, left.pushed + right.pushed, left.transactions + right.transactions, right.paused,
          left.visits + right.visits)
    else SendBlock(s, env, asset, first, level, leaves)
  }

  function SendBlock(s: Standing, env: Env, asset: nat, first: nat, level: nat, leaves: seq<nat>): Outcome
    requires leaves != []
  {
    var visit := Visit(asset, first, level, leaves);
    match env.send(asset, first, level, leaves)
    case Sent => Outcome(Deliver(s, asset, leaves), |leaves|, 1, false, [visit])
    case RpcTrouble => Outcome(Defer(s, asset, leaves, env.now + 30), 0, 1, true, [visit])
    case Refused(permanent) =>
      if |leaves| > 1 then
        var singly := PushSingly(s, env, asset, leaves);
        singly.(transactions := singly.transactions + 1, visits := [visit] + singly.visits)
      else Outcome(Fail(s, env, LeafId(asset, leaves[0]), permanent), 0, 1, false, [visit])
  }

  /** A retry is the same recursion on a block of one leaf. */
  lemma {:induction false} SingleIsBlock(s: Standing, env: Env, asset: nat, leaf: nat)
    ensures PushBlock(s, env, asset, leaf, 0, [leaf]) == PushOne(s, env, asset, leaf)
  {
    assert [leaf][..0] == [];
    assert InBlock([leaf], leaf, leaf + 1) == [leaf];
  }

  // ---- what a block's push does to each leaf -------------------------------------------------------

  ghost predicate Sane(s: Standing, maxAttempts: nat) {
    maxAttempts >= 1
    && forall id :: id in s.failures && !s.failures[id].permanent ==> s.failures[id].attempts < maxAttempts
  }

  /** How many more refusals a leaf can take: none once it is claimed or left for self-claim. */
  function Weight(s: Standing, id: LeafId, maxAttempts: nat): nat {
    if id in s.claimed || Permanent(s, id) || Attempts(s, id) >= maxAttempts then 0 else maxAttempts - Attempts(s, id)
  }

  predicate OpenLeaf(s: Standing, id: LeafId) {
    id !in s.claimed && !Permanent(s, id)
  }

  predicate Outside(id: LeafId, asset: nat, plan: seq<nat>) {
    id.asset != asset || id.leaf !in plan
  }

  predicate SameLeaf(s: Standing, t: Standing, id: LeafId) {
    Attempts(t, id) == Attempts(s, id) && (Permanent(t, id) <==> Permanent(s, id))
    && (id in t.claimed <==> id in s.claimed)
  }

  /** `done`: the leaves that were sent or recorded. Nothing gets worse, nothing else changes, and claims stay. */
  ghost predicate Advances(s: Standing, t: Standing, asset: nat, plan: seq<nat>, done: seq<nat>, maxAttempts: nat) {
    Sane(t, maxAttempts) && s.claimed <= t.claimed
    && (forall id :: Weight(t, id, maxAttempts) <= Weight(s, id, maxAttempts))
    && (forall id: LeafId :: Outside(id, asset, plan) ==> SameLeaf(s, t, id))
    && forall leaf :: leaf in done && OpenLeaf(s, LeafId(asset, leaf)) ==>
         Weight(t, LeafId(asset, leaf), maxAttempts) < Weight(s, LeafId(asset, leaf), maxAttempts)
  }

  lemma {:induction false} OpenWeighs(s: Standing, id: LeafId, maxAttempts: nat)
    requires Sane(s, maxAttempts)
    ensures Weight(s, id, maxAttempts) > 0 <==> OpenLeaf(s, id)
  {
  }

  lemma {:induction false} DeliverAdvances(s: Standing, asset: nat, leaves: seq<nat>, maxAttempts: nat)
    requires Sane(s, maxAttempts)
    ensures Advances(s, Deliver(s, asset, leaves), asset, leaves, leaves, maxAttempts)
  {
  }

  lemma {:induction false} DeferKeeps(s: Standing, asset: nat, leaves: seq<nat>, until: int, maxAttempts: nat)
    requires Sane(s, maxAttempts) && forall leaf :: leaf in leaves ==> !Permanent(s, LeafId(asset, leaf))
    ensures var t := Defer(s, asset, leaves, until);
      t.claimed == s.claimed && Sane(t, maxAttempts)
      && forall id :: Attempts(t, id) == Attempts(s, id) && (Permanent(t, id) <==> Permanent(s, id))
    decreases |leaves|
  {
    if leaves != [] {
      var n := |leaves| - 1;
      assert leaves[n] in leaves && forall leaf :: leaf in leaves[..n] ==> leaf in leaves;
      DeferKeeps(s, asset, leaves[..n], until, maxAttempts);
    }
  }

  lemma {:induction false} DeferAdvances(s: Standing, asset: nat, leaves: seq<nat>, until: int, maxAttempts: nat)
    requires Sane(s, maxAttempts) && forall leaf :: leaf in leaves ==> !Permanent(s, LeafId(asset, leaf))
    ensures Advances(s, Defer(s, asset, leaves, until), asset, leaves, [], maxAttempts)
  {
    hide Defer, Sane;
    DeferKeeps(s, asset, leaves, until, maxAttempts);
  }

  lemma {:induction false} FailAdvances(s: Standing, env: Env, asset: nat, leaf: nat, permanent: bool)
    requires Sane(s, env.maxAttempts) && !Permanent(s, LeafId(asset, leaf))
    ensures Advances(s, Fail(s, env, LeafId(asset, leaf), permanent), asset, [leaf], [leaf], env.maxAttempts)
  {
    hide Backoff;
  }

  /** One step's progress after another. */
  lemma {:induction false} AdvancesOn(s: Standing, t: Standing, u: Standing, asset: nat, plan: seq<nat>,
                                      a: seq<nat>, b: seq<nat>, done: seq<nat>, maxAttempts: nat)
    requires Sane(s, maxAttempts) && Advances(s, t, asset, plan, a, maxAttempts)
    requires Advances(t, u, asset, plan, b, maxAttempts)
    requires forall leaf :: leaf in done ==> leaf in a || leaf in b
    ensures Advances(s, u, asset, plan, done, maxAttempts)
  {
    forall leaf | leaf in done && OpenLeaf(s, LeafId(asset, leaf))
      ensures Weight(u, LeafId(asset, leaf), maxAttempts) < Weight(s, LeafId(asset, leaf), maxAttempts)
    {
      hide Weight, OpenLeaf;
      var id := LeafId(asset, leaf);
      OpenWeighs(s, id, maxAttempts);
      OpenWeighs(t, id, maxAttempts);
      OpenWeighs(u, id, maxAttempts);
    }
  }

  lemma {:induction false} AdvancesWider(s: Standing, t: Standing, asset: nat, plan: seq<nat>, wider: seq<nat>,
                                         done: seq<nat>, maxAttempts: nat)
    requires Advances(s, t, asset, plan, done, maxAttempts) && forall leaf :: leaf in plan ==> leaf in wider
    ensures Advances(s, t, asset, wider, done, maxAttempts)
  {
  }

  ghost predicate Planned(s: Standing, asset: nat, plan: seq<nat>) {
    forall leaf :: leaf in plan ==> !Permanent(s, LeafId(asset, leaf))
  }

  lemma {:induction false} OneAdvances(s: Standing, env: Env, asset: nat, leaf: nat)
    requires Sane(s, env.maxAttempts) && !Permanent(s, LeafId(asset, leaf))
    ensures var r := PushOne(s, env, asset, leaf);
      Advances(s, r.at, asset, [leaf], if r.paused then [] else [leaf], env.maxAttempts)
  {
    hide Advances, Deliver, Defer, Fail;
    match env.send(asset, leaf, 0, [leaf]) {
      case Sent => DeliverAdvances(s, asset, [leaf], env.maxAttempts);
      case RpcTrouble => DeferAdvances(s, asset, [leaf], env.now + 30, env.maxAttempts);
      case Refused(permanent) => FailAdvances(s, env, asset, leaf, permanent);
    }
  }

  lemma {:induction false} StillPlanned(s: Standing, t: Standing, asset: nat, plan: seq<nat>, done: seq<nat>,
                                        rest: seq<nat>, maxAttempts: nat)
    requires Advances(s, t, asset, plan, done, maxAttempts) && Planned(s, asset, rest)
    requires forall leaf :: leaf in rest ==> leaf !in plan
    ensures Planned(t, asset, rest)
  {
    forall leaf | leaf in rest
      ensures !Permanent(t, LeafId(asset, leaf))
    {
      assert Outside(LeafId(asset, leaf), asset, plan);
    }
  }

  ghost predicate NoRepeats(plan: seq<nat>) {
    forall i, j :: 0 <= i < j < |plan| ==> plan[i] != plan[j]
  }

  lemma {:induction false} SinglyAdvances(s: Standing, env: Env, asset: nat, leaves: seq<nat>)
    requires Sane(s, env.maxAttempts) && Planned(s, asset, leaves) && NoRepeats(leaves)
    ensures var r := PushSingly(s, env, asset, leaves);
      Advances(s, r.at, asset, leaves, if r.paused then [] else leaves, env.maxAttempts)
    decreases |leaves|
  {
    if leaves != [] {
      hide Advances, Sane;
      var n := |leaves| - 1;
      var front := PushSingly(s, env, asset, leaves[..n]);
      assert leaves == leaves[..n] + [leaves[n]];
      SinglyAdvances(s, env, asset, leaves[..n]);
      AdvancesWider(s, front.at, asset, leaves[..n], leaves, if front.paused then [] else leaves[..n], env.maxAttempts);
      if !front.paused {
        StillPlanned(s, front.at, asset, leaves[..n], leaves[..n], [leaves[n]], env.maxAttempts);
        StaysSane(s, front.at, asset, leaves, leaves[..n], env.maxAttempts);
        assert leaves[n] in [leaves[n]];
        OneAdvances(front.at, env, asset, leaves[n]);
        var last := PushOne(front.at, env, asset, leaves[n]);
        var done := if last.paused then [] else [leaves[n]];
        AdvancesWider(front.at, last.at, asset, [leaves[n]], leaves, done, env.maxAttempts);
        AdvancesOn(s, front.at, last.at, asset, leaves, leaves[..n], done, if last.paused then [] else leaves,
                   env.maxAttempts);
      }
    } else {
      NothingAdvances(s, asset, leaves, env.maxAttempts);
    }
  }

  lemma {:induction false} StaysSane(s: Standing, t: Standing, asset: nat, plan: seq<nat>, done: seq<nat>,
                                     maxAttempts: nat)
    requires Advances(s, t, asset, plan, done, maxAttempts)
    ensures Sane(t, maxAttempts)
  {
  }

  lemma {:induction false} NothingAdvances(s: Standing, asset: nat, plan: seq<nat>, maxAttempts: nat)
    requires Sane(s, maxAttempts)
    ensures Advances(s, s, asset, plan, [], maxAttempts)
  {
  }

  lemma {:induction false} InBlockHolds(plan: seq<nat>, first: nat, end: nat)
    ensures forall leaf :: leaf in InBlock(plan, first, end) <==> leaf in plan && first <= leaf < end
    ensures NoRepeats(plan) ==> NoRepeats(InBlock(plan, first, end))
    decreases |plan|
  {
    if plan != [] {
      var n := |plan| - 1;
      InBlockHolds(plan[..n], first, end);
      assert plan == plan[..n] + [plan[n]];
      var front := InBlock(plan[..n], first, end);
      if NoRepeats(plan) {
        forall i | 0 <= i < |front|
          ensures front[i] != plan[n]
        {
          assert front[i] in plan[..n];
        }
      }
    }
  }

  lemma {:induction false} SendAdvances(s: Standing, env: Env, asset: nat, first: nat, level: nat, leaves: seq<nat>)
    requires Sane(s, env.maxAttempts) && Planned(s, asset, leaves) && NoRepeats(leaves) && leaves != []
    ensures var r := SendBlock(s, env, asset, first, level, leaves);
      Advances(s, r.at, asset, leaves, if r.paused then [] else leaves, env.maxAttempts)
  {
    hide Advances, Deliver, Defer, Fail, PushSingly, Sane;
    match env.send(asset, first, level, leaves) {
      case Sent => DeliverAdvances(s, asset, leaves, env.maxAttempts);
      case RpcTrouble => DeferAdvances(s, asset, leaves, env.now + 30, env.maxAttempts);
      case Refused(permanent) =>
        if |leaves| > 1 {
          SinglyAdvances(s, env, asset, leaves);
        } else {
          assert leaves == [leaves[0]] && leaves[0] in leaves;
          FailAdvances(s, env, asset, leaves[0], permanent);
        }
    }
  }

  lemma {:induction false} BlockIs(s: Standing, env: Env, asset: nat, first: nat, level: nat, plan: seq<nat>)
    ensures var leaves := InBlock(plan, first, first + Merkle.Pow2(level));
      var r := PushBlock(s, env, asset, first, level, plan);
      if leaves == [] then r == Outcome(s, 0, 0, false, [])
      else if level > 0 && !env.fits(asset, first, level, leaves) then
        var left := PushBlock(s, env, asset, first, level - 1, leaves);
        var right := PushBlock(left.at, env, asset, first + Merkle.Pow2(level - 1), level - 1, leaves);
        if left.paused then r == left
        else r == Outcome(right.at, left.pushed + right.pushed, left.transactions + right.transactions, right.paused,
                          left.visits + right.visits)
      else r == SendBlock(s, env, asset, first, level, leaves)
  {
    hide SendBlock, InBlock, Merkle.Pow2;
  }

  /** Halving covers the block: every planned leaf in it is sent or recorded, unless the push pauses, and no other
      leaf is touched. */
  lemma {:induction false} BlockAdvances(s: Standing, env: Env, asset: nat, first: nat, level: nat, plan: seq<nat>)
    requires Sane(s, env.maxAttempts) && NoRepeats(plan)
    requires Planned(s, asset, InBlock(plan, first, first + Merkle.Pow2(level)))
    ensures var r := PushBlock(s, env, asset, first, level, plan);
      var leaves := InBlock(plan, first, first + Merkle.Pow2(level));
      Advances(s, r.at, asset, leaves, if r.paused then [] else leaves, env.maxAttempts)
    decreases level
  {
    hide Advances, SendBlock, Sane, Planned, NoRepeats, PushBlock;
    BlockIs(s, env, asset, first, level, plan);
    var leaves := InBlock(plan, first, first + Merkle.Pow2(level));
    InBlockHolds(plan, first, first + Merkle.Pow2(level));
    hide InBlock;
    if leaves == [] {
      NothingAdvances(s, asset, leaves, env.maxAttempts);
    } else if level > 0 && !env.fits(asset, first, level, leaves) {
      HalvesAdvance(s, env, asset, first, level, leaves);
    } else {
      SendAdvances(s, env, asset, first, level, leaves);
    }
  }

  lemma {:induction false} HalvesAdvance(s: Standing, env: Env, asset: nat, first: nat, level: nat, leaves: seq<nat>)
    requires Sane(s, env.maxAttempts) && Planned(s, asset, leaves) && NoRepeats(leaves) && level > 0
    requires forall leaf :: leaf in leaves ==> first <= leaf < first + Merkle.Pow2(level)
    ensures var left := PushBlock(s, env, asset, first, level - 1, leaves);
      if left.paused then Advances(s, left.at, asset, leaves, [], env.maxAttempts)
      else
        var right := PushBlock(left.at, env, asset, first + Merkle.Pow2(level - 1), level - 1, leaves);
        Advances(s, right.at, asset, leaves, if right.paused then [] else leaves, env.maxAttempts)
    decreases level, 0
  {
    hide Advances, PushBlock, Sane, Planned, NoRepeats;
    var half := Merkle.Pow2(level - 1);
    var (a, b) := (InBlock(leaves, first, first + half), InBlock(leaves, first + half, first + half + half));
    InBlockHolds(leaves, first, first + half);
    InBlockHolds(leaves, first + half, first + half + half);
    PlannedPart(s, asset, leaves, a);
    PlannedPart(s, asset, leaves, b);
    hide InBlock;
    BlockAdvances(s, env, asset, first, level - 1, leaves);
    var left := PushBlock(s, env, asset, first, level - 1, leaves);
    AdvancesWider(s, left.at, asset, a, leaves, if left.paused then [] else a, env.maxAttempts);
    if !left.paused {
      StaysSane(s, left.at, asset, a, a, env.maxAttempts);
      StillPlanned(s, left.at, asset, a, a, b, env.maxAttempts);
      BlockAdvances(left.at, env, asset, first + half, level - 1, leaves);
      var right := PushBlock(left.at, env, asset, first + half, level - 1, leaves);
      AdvancesWider(left.at, right.at, asset, b, leaves, if right.paused then [] else b, env.maxAttempts);
      AdvancesOn(s, left.at, right.at, asset, leaves, a, if right.paused then [] else b,
        if right.paused then [] else leaves, env.maxAttempts);
    }
  }

  lemma {:induction false} PlannedPart(s: Standing, asset: nat, plan: seq<nat>, part: seq<nat>)
    requires Planned(s, asset, plan) && forall leaf :: leaf in part ==> leaf in plan
    ensures Planned(s, asset, part)
  {
  }

  // ---- only blocks the program accepts -----------------------------------------------------------

  lemma {:induction false} AlignedHalves(x: nat, k: nat)
    requires k > 0 && Merkle.Aligned(x, k)
    ensures Merkle.Aligned(x, k - 1) && Merkle.Aligned(x + Merkle.Pow2(k - 1), k - 1)
    decreases k
  {
    if k > 1 {
      AlignedHalves(x / 2, k - 1);
      assert (x + Merkle.Pow2(k - 1)) / 2 == x / 2 + Merkle.Pow2(k - 2);
    }
  }

  /** The slice of leaves that is sent for a visit has the shape `verify_block` asks for. */
  ghost predicate Acceptable(v: Visit, plan: seq<nat>, leafCount: nat) {
    v.leaves != []
    && (forall leaf :: leaf in v.leaves ==> leaf in plan && v.first <= leaf < v.first + Merkle.Pow2(v.level))
    && v.first < leafCount
    && Merkle.IsBlock(Merkle.Min(Merkle.Pow2(v.level), leafCount - v.first), v.first, v.level, leafCount)
  }

  lemma {:induction false} VisitIsBlock(asset: nat, plan: seq<nat>, first: nat, level: nat, leafCount: nat)
    requires Merkle.Aligned(first, level) && level < 32 && forall leaf :: leaf in plan ==> leaf < leafCount
    ensures var leaves := InBlock(plan, first, first + Merkle.Pow2(level));
      leaves != [] ==> Acceptable(Visit(asset, first, level, leaves), leaves, leafCount)
  {
    hide Merkle.Aligned, Merkle.Pow2, InBlock;
    InBlockHolds(plan, first, first + Merkle.Pow2(level));
    var leaves := InBlock(plan, first, first + Merkle.Pow2(level));
    assert leaves != [] ==> leaves[0] in leaves;
  }

  ghost predicate AllAcceptable(visits: seq<Visit>, asset: nat, plan: seq<nat>, leafCount: nat) {
    forall v :: v in visits ==> v.asset == asset && Acceptable(v, plan, leafCount)
  }

  lemma {:induction false} AcceptableWider(visits: seq<Visit>, asset: nat, part: seq<nat>, plan: seq<nat>,
                                           leafCount: nat)
    requires AllAcceptable(visits, asset, part, leafCount) && forall leaf :: leaf in part ==> leaf in plan
    ensures AllAcceptable(visits, asset, plan, leafCount)
  {
    forall v | v in visits
      ensures v.asset == asset && Acceptable(v, plan, leafCount)
    {
      assert Acceptable(v, part, leafCount);
    }
  }

  lemma {:induction false} OneVisit(s: Standing, env: Env, asset: nat, leaves: seq<nat>, n: nat, leafCount: nat)
    requires n < |leaves| && leaves[n] < leafCount
    ensures Acceptable(Visit(asset, leaves[n], 0, [leaves[n]]), leaves, leafCount)
  {
    assert leaves[n] in leaves;
  }

  lemma {:induction false} SinglyVisits(s: Standing, env: Env, asset: nat, leaves: seq<nat>, leafCount: nat)
    requires forall leaf :: leaf in leaves ==> leaf < leafCount
    ensures AllAcceptable(PushSingly(s, env, asset, leaves).visits, asset, leaves, leafCount)
    decreases |leaves|
  {
    if leaves != [] {
      hide Acceptable;
      var n := |leaves| - 1;
      assert forall leaf :: leaf in leaves[..n] ==> leaf in leaves;
      assert leaves[n] in leaves;
      OneVisit(s, env, asset, leaves, n, leafCount);
      SinglyVisits(s, env, asset, leaves[..n], leafCount);
      AcceptableWider(PushSingly(s, env, asset, leaves[..n]).visits, asset, leaves[..n], leaves, leafCount);
    }
  }

  lemma {:induction false} SendVisits(s: Standing, env: Env, asset: nat, first: nat, level: nat, leaves: seq<nat>,
                                      leafCount: nat)
    requires leaves != [] && Acceptable(Visit(asset, first, level, leaves), leaves, leafCount)
    requires forall leaf :: leaf in leaves ==> leaf < leafCount
    ensures AllAcceptable(SendBlock(s, env, asset, first, level, leaves).visits, asset, leaves, leafCount)
  {
    hide Acceptable, PushSingly;
    SinglyVisits(s, env, asset, leaves, leafCount);
  }

  /** Halving an aligned block visits aligned blocks only, each the shape the program's block check asks for. */
  lemma {:induction false} BlockVisits(s: Standing, env: Env, asset: nat, first: nat, level: nat, plan: seq<nat>,
                                       leafCount: nat)
    requires Merkle.Aligned(first, level) && level < 32 && forall leaf :: leaf in plan ==> leaf < leafCount
    ensures AllAcceptable(PushBlock(s, env, asset, first, level, plan).visits, asset, plan, leafCount)
    decreases level
  {
    hide Merkle.Aligned, Acceptable, SendBlock, InBlock, PushBlock;
    BlockIs(s, env, asset, first, level, plan);
    var leaves := InBlock(plan, first, first + Merkle.Pow2(level));
    InBlockHolds(plan, first, first + Merkle.Pow2(level));
    VisitIsBlock(asset, plan, first, level, leafCount);
    if leaves != [] {
      if level > 0 && !env.fits(asset, first, level, leaves) {
        AlignedHalves(first, level);
        BlockVisits(s, env, asset, first, level - 1, leaves, leafCount);
        var left := PushBlock(s, env, asset, first, level - 1, leaves);
        BlockVisits(left.at, env, asset, first + Merkle.Pow2(level - 1), level - 1, leaves, leafCount);
      } else {
        SendVisits(s, env, asset, first, level, leaves, leafCount);
      }
      AcceptableWider(PushBlock(s, env, asset, first, level, plan).visits, asset, leaves, plan, leafCount);
    }
  }

  ghost predicate LevelsAtMost(visits: seq<Visit>, level: nat) {
    forall v :: v in visits ==> v.level <= level
  }

  lemma {:induction false} SinglyLevels(s: Standing, env: Env, asset: nat, leaves: seq<nat>)
    ensures LevelsAtMost(PushSingly(s, env, asset, leaves).visits, 0)
    decreases |leaves|
  {
    if leaves != [] {
      SinglyLevels(s, env, asset, leaves[..|leaves| - 1]);
    }
  }

  /** Blocks only get smaller. */
  lemma {:induction false} BlockLevels(s: Standing, env: Env, asset: nat, first: nat, level: nat, plan: seq<nat>)
    ensures LevelsAtMost(PushBlock(s, env, asset, first, level, plan).visits, level)
    decreases level
  {
    hide InBlock, PushBlock, PushSingly;
    BlockIs(s, env, asset, first, level, plan);
    var leaves := InBlock(plan, first, first + Merkle.Pow2(level));
    if leaves != [] {
      if level > 0 && !env.fits(asset, first, level, leaves) {
        BlockLevels(s, env, asset, first, level - 1, leaves);
        var left := PushBlock(s, env, asset, first, level - 1, leaves);
        BlockLevels(left.at, env, asset, first + Merkle.Pow2(level - 1), level - 1, leaves);
      } else {
        SinglyLevels(s, env, asset, leaves);
      }
    }
  }

  // ---- a step: gathering ---------------------------------------------------------------------------

  datatype BlockPlan = BlockPlan(asset: nat, first: nat, candidates: seq<nat>)

  /** An active asset whose account was found, with the leaves of its committed tree. */
  datatype AssetView = AssetView(asset: nat, leaves: seq<Digest>)
  {
    const leafCount: nat := |leaves|
  }

  datatype Gathered = Gathered(blocks: seq<BlockPlan>, queued: nat, deferred: nat)

  function Candidates(s: Standing, now: int, asset: nat, first: nat, end: nat): seq<nat>
    decreases end
  {
    if end <= first then []
    else
      var id := LeafId(asset, end - 1);
      Candidates(s, now, asset, first, end - 1) + if OpenLeaf(s, id) && !BackingOff(s, id, now) then [end - 1] else []
  }

  function Waiting(s: Standing, now: int, asset: nat, first: nat, end: nat): nat
    decreases end
  {
    if end <= first then 0
    else
      var id := LeafId(asset, end - 1);
      Waiting(s, now, asset, first, end - 1) + if OpenLeaf(s, id) && BackingOff(s, id, now) then 1 else 0
  }

  /** Block `k` of an asset, after what `front` holds. */
  function GatherBlock(s: Standing, now: int, view: AssetView, maxPushes: nat, front: Gathered, k: nat): Gathered {
    var first := PUSH_BLOCK_SIZE * k;
    var end := Merkle.Min(first + PUSH_BLOCK_SIZE, view.leafCount);
    var candidates := Candidates(s, now, view.asset, first, end);
    var deferred := front.deferred + Waiting(s, now, view.asset, first, end);
    if candidates == [] then front.(deferred := deferred)
    else if front.queued >= maxPushes then front.(deferred := deferred + |candidates|)
    else Gathered(front.blocks + [BlockPlan(view.asset, first, candidates)], front.queued + |candidates|, deferred)
  }

  /** The first `k` blocks of an asset, after what `g` holds. */
  function GatherBlocks(s: Standing, now: int, view: AssetView, maxPushes: nat, g: Gathered, k: nat): Gathered
    decreases k
  {
    if k == 0 then g
    else GatherBlock(s, now, view, maxPushes, GatherBlocks(s, now, view, maxPushes, g, k - 1), k - 1)
  }

  function BlockCount(leafCount: nat): nat {
    (leafCount + PUSH_BLOCK_SIZE - 1) / PUSH_BLOCK_SIZE
  }

  function Gather(s: Standing, now: int, views: seq<AssetView>, maxPushes: nat): Gathered
    decreases |views|
  {
    if views == [] then Gathered([], 0, 0)
    else
      var n := |views| - 1;
      GatherBlocks(s, now, views[n], maxPushes, Gather(s, now, views[..n], maxPushes), BlockCount(views[n].leafCount))
  }

  lemma {:induction false} NoneGathered(s: Standing, now: int, asset: nat, first: nat, end: nat)
    ensures Candidates(s, now, asset, first, end) == [] && Waiting(s, now, asset, first, end) == 0
       <==> forall leaf: nat :: first <= leaf < end ==> !OpenLeaf(s, LeafId(asset, leaf))
    decreases end
  {
    if end > first {
      NoneGathered(s, now, asset, first, end - 1);
    }
  }

  lemma {:induction false} NothingInBlocks(s: Standing, now: int, view: AssetView, maxPushes: nat, g: Gathered, k: nat)
    ensures var r := GatherBlocks(s, now, view, maxPushes, g, k);
      r.blocks == [] && r.deferred == 0
      <==> g.blocks == [] && g.deferred == 0
           && forall leaf: nat :: leaf < PUSH_BLOCK_SIZE * k && leaf < view.leafCount ==>
                !OpenLeaf(s, LeafId(view.asset, leaf))
    decreases k
  {
    hide OpenLeaf, BackingOff;
    if k > 0 {
      NothingInBlocks(s, now, view, maxPushes, g, k - 1);
      var first := PUSH_BLOCK_SIZE * (k - 1);
      NoneGathered(s, now, view.asset, first, Merkle.Min(first + PUSH_BLOCK_SIZE, view.leafCount));
    }
  }

  ghost predicate NothingOpen(s: Standing, views: seq<AssetView>) {
    forall i, leaf: nat :: 0 <= i < |views| && leaf < views[i].leafCount ==> !OpenLeaf(s, LeafId(views[i].asset, leaf))
  }

  /** A step finishes the round as complete exactly when every leaf of its active assets is claimed or left for
      self-claim for good. */
  lemma {:induction false} CompleteIff(s: Standing, now: int, views: seq<AssetView>, maxPushes: nat)
    ensures Gather(s, now, views, maxPushes).blocks == [] && Gather(s, now, views, maxPushes).deferred == 0
       <==> NothingOpen(s, views)
    decreases |views|
  {
    hide OpenLeaf, GatherBlocks;
    if views != [] {
      var n := |views| - 1;
      CompleteIff(s, now, views[..n], maxPushes);
      NothingInBlocks(s, now, views[n], maxPushes, Gather(s, now, views[..n], maxPushes),
                      BlockCount(views[n].leafCount));
    }
  }

  // ---- a step: pushing -----------------------------------------------------------------------------------

  datatype Chosen = Chosen(at: Standing, plan: seq<nat>)

  /** Leaves too small to be worth an account are left for self-claim; the rest are planned. */
  function Choose(s: Standing, env: Env, asset: nat, candidates: seq<nat>): Chosen
    decreases |candidates|
  {
    if candidates == [] then Chosen(s, [])
    else
      var n := |candidates| - 1;
      var front, id := Choose(s, env, asset, candidates[..n]), LeafId(asset, candidates[n]);
      if env.worth(id) then front.(plan := front.plan + [candidates[n]])
      else front.(at := Record(front.at, id, Failure(Attempts(front.at, id), true, 0)))
  }

  function PushPlan(s: Standing, env: Env, b: BlockPlan): Outcome {
    var chosen := Choose(s, env, b.asset, b.candidates);
    if chosen.plan == [] then Outcome(chosen.at, 0, 0, false, [])
    else PushBlock(chosen.at, env, b.asset, b.first, PUSH_BLOCK_LEVEL, chosen.plan)
  }

  /** The blocks in turn, until one pauses. */
  function PushBlocks(s: Standing, env: Env, blocks: seq<BlockPlan>): Outcome
    decreases |blocks|
  {
    if blocks == [] then Outcome(s, 0, 0, false, [])
    else
      var n := |blocks| - 1;
      var front := PushBlocks(s, env, blocks[..n]);
      if front.paused then front
      else
        var last := PushPlan(front.at, env, blocks[n]);
        Outcome(last.at, front.pushed + last.pushed, front.transactions + last.transactions, last.paused,
          front.visits + last.visits)
  }

  lemma {:induction false} ChooseAdvances(s: Standing, env: Env, asset: nat, candidates: seq<nat>)
    requires Sane(s, env.maxAttempts) && NoRepeats(candidates) && Planned(s, asset, candidates)
    ensures var r := Choose(s, env, asset, candidates);
      Advances(s, r.at, asset, candidates, [], env.maxAttempts) && NoRepeats(r.plan)
      && (forall leaf :: leaf in r.plan ==> leaf in candidates && SameLeaf(s, r.at, LeafId(asset, leaf)))
      && forall leaf :: leaf in candidates && leaf !in r.plan ==> Permanent(r.at, LeafId(asset, leaf))
    decreases |candidates|
  {
    if candidates != [] {
      var n := |candidates| - 1;
      assert candidates == candidates[..n] + [candidates[n]];
      ChooseAdvances(s, env, asset, candidates[..n]);
      var front := Choose(s, env, asset, candidates[..n]);
      assert candidates[n] !in candidates[..n];
      if !env.worth(LeafId(asset, candidates[n])) {
        LeaveAdvances(s, front.at, asset, candidates, n, env.maxAttempts);
      }
    }
  }

  lemma {:induction false} LeaveAdvances(s: Standing, t: Standing, asset: nat, candidates: seq<nat>, n: nat,
                                         maxAttempts: nat)
    requires n < |candidates| && Advances(s, t, asset, candidates[..n], [], maxAttempts)
    ensures var id := LeafId(asset, candidates[n]);
      Advances(s, Record(t, id, Failure(Attempts(t, id), true, 0)), asset, candidates, [], maxAttempts)
  {
    var id := LeafId(asset, candidates[n]);
    var u := Record(t, id, Failure(Attempts(t, id), true, 0));
    assert candidates[n] in candidates;
    forall other: LeafId | Outside(other, asset, candidates)
      ensures SameLeaf(s, u, other)
    {
      assert Outside(other, asset, candidates[..n]);
      assert other != id;
    }
    forall other
      ensures Weight(u, other, maxAttempts) <= Weight(s, other, maxAttempts)
    {
      assert Weight(t, other, maxAttempts) <= Weight(s, other, maxAttempts);
    }
  }
}
