/** The transaction journal of keeper/coin.ts: every SOL movement is written down before it is sent and booked once
    it is known to have landed, whatever crashes in between. */
module Journal {
  import opened Terms
  import opened Ledgers

  /** What the keeper's spends outside rounds are taken from: never what rounds have set aside. */
  type SpentBucket = bucket: Bucket | bucket != Operations witness Basket

  /** `bucket` matters for a spend; a claim is split by the coin's shares. */
  datatype Kind = Claim | Spend(bucket: SpentBucket)

  datatype PendingAction = PendingAction(signature: nat, kind: Kind, purpose: string)

  const SURPLUS_PURPOSE := "partner surplus"

  /** What `resolveSignature` and `lamportChange` report. */
  datatype Reply = StillPending | NotIndexed | LandedWith(delta: int) | NeverLanded

  /** The saved state. `booked` is a history: the signatures applied to the ledger, in order. */
  datatype Saved = Saved(ledger: Ledger, pending: seq<PendingAction>, surplusWithdrawn: bool, booked: seq<nat>)

  function Without(pending: seq<PendingAction>, signature: nat): seq<PendingAction>
    decreases |pending|
  {
    if pending == [] then []
    else
      var n := |pending| - 1;
      Without(pending[..n], signature) + if pending[n].signature != signature then [pending[n]] else []
  }

  /** The ledger after a landed transaction is booked from its effect on the wallet. */
  function Book(ledger: Ledger, kind: Kind, delta: int, shares: Shares): Ledger {
    match kind
    case Spend(bucket) => Charge(ledger, bucket, if -delta > 0 then -delta else 0)
    case Claim => Credit(ledger, if delta > 0 then delta else 0, shares)
  }

  function SettleOne(s: Saved, action: PendingAction, reply: Reply, shares: Shares): Saved {
    match reply
    case StillPending => s
    case NotIndexed => s
    case NeverLanded => s.(pending := Without(s.pending, action.signature))
    case LandedWith(delta) =>
      Saved(Book(s.ledger, action.kind, delta, shares), Without(s.pending, action.signature),
        s.surplusWithdrawn || (action.kind.Claim? && action.purpose == SURPLUS_PURPOSE), s.booked + [action.signature])
  }

  function ReplyFor(replies: map<nat, Reply>, signature: nat): Reply {
    if signature in replies then replies[signature] else StillPending
  }

  function SettleEach(s: Saved, actions: seq<PendingAction>, replies: map<nat, Reply>, shares: Shares): Saved
    decreases |actions|
  {
    if actions == [] then s
    else
      var n := |actions| - 1;
      SettleOne(SettleEach(s, actions[..n], replies, shares), actions[n], ReplyFor(replies, actions[n].signature),
                shares)
  }

  function Settle(s: Saved, replies: map<nat, Reply>, shares: Shares): Saved {
    SettleEach(s, s.pending, replies, shares)
  }

  // ---- what booking a landed transaction means -----------------------------------------------

  /** A landed transaction's effect on the wallet, and what it was for. */
  datatype Booking = Booking(kind: Kind, delta: int)

  function Received(b: Booking): nat {
    if b.kind.Claim? && b.delta > 0 then b.delta else 0
  }

  function Cost(b: Booking): nat {
    if b.kind.Spend? && b.delta < 0 then -b.delta else 0
  }

  /** What of a cost there is to take: its own bucket's, then the basket's. */
  function Drawn(ledger: Ledger, b: Booking): int {
    match b.kind
    case Claim => 0
    case Spend(bucket) => Min(Cost(b), if bucket.Basket? then ledger.basket else ledger.Get(bucket) + ledger.basket)
  }

  /** A claim adds what it brought in, each bucket its share rounded down and the basket the rest; a spend takes its
      cost from its bucket and then from the basket; nothing else moves. */
  ghost predicate Booked(before: Ledger, after: Ledger, b: Booking, shares: Shares) {
    match b.kind
    case Claim =>
      SharedOut(before, after, Received(b), shares)
    case Spend(bucket) =>
      && after.Total() == before.Total() - Drawn(before, b)
      && (forall other: Bucket :: other != bucket && other != Basket ==> after.Get(other) == before.Get(other))
      && (!bucket.Basket? ==> after.Get(bucket) == before.Get(bucket) - Min(Cost(b), before.Get(bucket)))
  }

  /** The bookings a pass makes: one for each action whose landing is reported, in the order they were recorded. */
  function BookingsIn(actions: seq<PendingAction>, replies: map<nat, Reply>): seq<Booking>
    decreases |actions|
  {
    if actions == [] then []
    else
      var n := |actions| - 1;
      match ReplyFor(replies, actions[n].signature)
      case LandedWith(delta) => BookingsIn(actions[..n], replies) + [Booking(actions[n].kind, delta)]
      case _ => BookingsIn(actions[..n], replies)
  }

  /** Each ledger is the one before it with one more booking. */
  ghost predicate Follow(ledgers: seq<Ledger>, bookings: seq<Booking>, shares: Shares) {
    |ledgers| == |bookings| + 1
    && forall i :: 0 <= i < |bookings| ==> Booked(ledgers[i], ledgers[i + 1], bookings[i], shares)
  }

  /** A claim of partner surplus whose landing is reported. */
  ghost predicate SurplusLanded(actions: seq<PendingAction>, replies: map<nat, Reply>) {
    exists i :: 0 <= i < |actions| && actions[i].kind.Claim? && actions[i].purpose == SURPLUS_PURPOSE
                && ReplyFor(replies, actions[i].signature).LandedWith?
  }

  class CoinKeeper {
    const shares: Shares
    /** The state file. */
    var disk: Saved
    /** That file, what was ever written to it and what the chain was sent and made of it. */
    ghost var world: World

    constructor (shares: Shares, ledger: Ledger)
      requires FullShares(shares) && ledger.NonNegative()
      ensures this.shares == shares && disk == Saved(ledger, [], false, []) && Valid() && Start(world)
    {
      this.shares := shares;
      disk := Saved(ledger, [], false, []);
      world := World(Saved(ledger, [], false, []), map[], {}, map[], {});
      new;
      StartInv(world);
    }

    /** What every run keeps, crashes included. */
    ghost predicate Valid()
      reads this
    {
      world.saved == disk && Inv(world) && disk.ledger.NonNegative() && FullShares(shares)
    }

    /** Signs, records and only then sends; a crash may fall between the save and the send. */
    method Send(action: PendingAction, crash: bool)
      requires Valid() && action.signature !in world.recorded
      modifies this
      ensures Valid() && disk == old(disk).(pending := old(disk).pending + [action])
      ensures action.signature !in old(world.sent)
      ensures world == old(world).(saved := disk, recorded := old(world.recorded)[action.signature := action],
                                   sent := old(world.sent) + if crash then {} else {action.signature})
    {
      hide Inv;
      RecordedFirst(world, action);
      Record(action);
      if !crash {
        Transmit(action.signature);
      }
    }

    /** `journal`: the callback that runs once the transaction is signed. */
    method Record(action: PendingAction)
      requires Valid() && action.signature !in world.recorded
      modifies this
      ensures Valid() && world == Next(old(world), Event.Record(action), shares)
      ensures Pends(disk.pending, action.signature)
    {
      hide Inv;
      var state := disk;
      disk := state.(pending := state.pending + [action]);
      NextKeepsInv(world, Event.Record(action), shares);
      PendsAppend(state.pending, action, action.signature);
      world := Next(world, Event.Record(action), shares);
    }

    /** Hands a transaction to the network: only one that is in the state file. */
    ghost method Transmit(signature: nat)
      requires Valid() && Pends(disk.pending, signature)
      modifies this`world
      ensures Valid() && world == old(world).(sent := old(world.sent) + {signature})
    {
      hide Inv;
      NextKeepsInv(world, Event.Transmit(signature), shares);
      world := Next(world, Event.Transmit(signature), shares);
    }

    /** An action with a transaction still in flight is not started again. */
    method IsPending(purpose: string) returns (found: bool)
      ensures found <==> exists i :: 0 <= i < |disk.pending| && disk.pending[i].purpose == purpose
    {
      var i := 0;
      while i < |disk.pending|
        invariant 0 <= i <= |disk.pending|
        invariant forall k :: 0 <= k < i ==> disk.pending[k].purpose != purpose
      {
        if disk.pending[i].purpose == purpose {
          return true;
        }
        i := i + 1;
      }
      found := false;
    }

    /** Applies what landed, drops what never will, and saves once at the end; `crash` stops it just before that.
        `landed` and `dead`: what the chain has made by then of the transactions sent. */
    method SettlePending(replies: map<nat, Reply>, ghost landed: map<nat, int>, ghost dead: set<nat>, crash: bool)
      returns (ghost ledgers: seq<Ledger>)
      requires Valid() && ChainMoves(world, landed, dead)
      requires Truthful(world.(landed := landed, dead := dead), replies)
      modifies this
      ensures Valid() && disk == if crash then old(disk) else Settle(old(disk), replies, shares)
      ensures world == old(world).(saved := disk, landed := landed, dead := dead)
      ensures disk.ledger.operations == old(disk.ledger.operations)
      // Each reported landing is booked once, in order, into the ledger that is saved.
      ensures !crash ==>
        && Follow(ledgers, BookingsIn(old(disk.pending), replies), shares)
        && ledgers[0] == old(disk.ledger) && ledgers[|ledgers| - 1] == disk.ledger
        && disk.surplusWithdrawn == (old(disk.surplusWithdrawn) || SurplusLanded(old(disk.pending), replies))
    {
      hide Inv;
      MovesKeepInv(world, landed, dead);
      world := world.(landed := landed, dead := dead);
      ghost var seen := world;
      ledgers := [disk.ledger];
      var state, actions := disk, disk.pending;
      var i := 0;
      while i < |actions|
        invariant 0 <= i <= |actions| && disk == old(disk) && world == seen
        invariant state == SettleEach(old(disk), actions[..i], replies, shares)
      {
        var action := actions[i];
        var reply := ReplyFor(replies, action.signature);
        assert actions[..i + 1][..i] == actions[..i];
        match reply {
          case StillPending =>
          case NotIndexed =>
          case NeverLanded =>
            state := state.(pending := Without(state.pending, action.signature));
          case LandedWith(delta) =>
            var ledger := BookInPlace(state.ledger, action.kind, delta);
            state := Saved(ledger, Without(state.pending, action.signature),
              state.surplusWithdrawn || (action.kind.Claim? && action.purpose == SURPLUS_PURPOSE),
              state.booked + [action.signature]);
        }
        i := i + 1;
      }
      assert actions[..i] == actions;
      if !crash {
        NextKeepsInv(world, Event.Pass(replies), shares);
        PassKeepsBuckets(disk, disk.pending, replies, shares);
        ledgers := PassFollows(disk, disk.pending, replies, shares);
        disk := state;
        world := Next(world, Event.Pass(replies), shares);
      }
    }

    method BookInPlace(ledger: Ledger, kind: Kind, delta: int) returns (after: Ledger)
      requires FullShares(shares)
      ensures after == Book(ledger, kind, delta, shares)
    {
      match kind {
        case Spend(bucket) =>
          var cost: nat := if -delta > 0 then -delta else 0;
          var (charged, taken) := Debit(ledger, bucket, cost);
          after := charged;
          if cost > taken {
            after := Debit(after, Basket, cost - taken).0;
          }
        case Claim =>
          after := CreditRevenue(ledger, if delta > 0 then delta else 0, shares);
      }
    }
  }

  // ---- one settling pass ------------------------------------------------------------------

  ghost predicate Pends(pending: seq<PendingAction>, signature: nat) {
    exists i :: 0 <= i < |pending| && pending[i].signature == signature
  }

  ghost predicate DistinctActions(pending: seq<PendingAction>) {
    forall i, j :: 0 <= i < j < |pending| ==> pending[i].signature != pending[j].signature
  }

  lemma {:induction false} WithoutHolds(pending: seq<PendingAction>, signature: nat)
    ensures DistinctActions(pending) ==> DistinctActions(Without(pending, signature))
    ensures forall other :: Pends(Without(pending, signature), other) <==> Pends(pending, other) && other != signature
    ensures forall a :: a in Without(pending, signature) ==> a in pending
    decreases |pending|
  {
    if pending != [] {
      var n := |pending| - 1;
      WithoutHolds(pending[..n], signature);
      var front, all := Without(pending[..n], signature), Without(pending, signature);
      assert front + [] == front;
      forall other
        ensures Pends(all, other) <==> Pends(pending, other) && other != signature
      {
        PendsAppend(pending[..n], pending[n], other);
        PendsAppend(front, pending[n], other);
        assert pending == pending[..n] + [pending[n]];
      }
      if DistinctActions(pending) {
        DistinctFront(pending, n);
        forall i | 0 <= i < |front|
          ensures front[i].signature != pending[n].signature
        {
          assert front[i] in pending[..n];
        }
      }
    }
  }

  lemma {:induction false} DistinctFront(pending: seq<PendingAction>, n: nat)
    requires DistinctActions(pending) && n <= |pending|
    ensures DistinctActions(pending[..n])
  {
  }

  lemma {:induction false} PendsAppend(pending: seq<PendingAction>, a: PendingAction, signature: nat)
    ensures Pends(pending + [a], signature) <==> Pends(pending, signature) || a.signature == signature
  {
    var all := pending + [a];
    if a.signature == signature {
      assert all[|pending|].signature == signature;
    }
    if Pends(pending, signature) {
      var i :| 0 <= i < |pending| && pending[i].signature == signature;
      assert all[i].signature == signature;
    }
  }

  /** Whether a reply ends an action, and whether it books it. */
  predicate Ends(reply: Reply) {
    reply.LandedWith? || reply.NeverLanded?
  }

  ghost predicate EndedAmong(actions: seq<PendingAction>, replies: map<nat, Reply>, signature: nat) {
    Pends(actions, signature) && Ends(ReplyFor(replies, signature))
  }

  function LandedIn(actions: seq<PendingAction>, replies: map<nat, Reply>): seq<nat>
    decreases |actions|
  {
    if actions == [] then []
    else
      var n := |actions| - 1;
      LandedIn(actions[..n], replies)
      + if ReplyFor(replies, actions[n].signature).LandedWith? then [actions[n].signature] else []
  }

  /** A pass removes exactly the actions whose fate is known and books exactly the landed ones, each once. */
  lemma {:induction false} SettleEffect(s: Saved, actions: seq<PendingAction>, replies: map<nat, Reply>, shares: Shares)
    requires DistinctActions(s.pending)
    ensures var after := SettleEach(s, actions, replies, shares);
      DistinctActions(after.pending) && after.booked == s.booked + LandedIn(actions, replies)
      && (forall x :: Pends(after.pending, x) <==> Pends(s.pending, x) && !EndedAmong(actions, replies, x))
      && forall a :: a in after.pending ==> a in s.pending
    decreases |actions|
  {
    if actions != [] {
      hide DistinctActions, Book, Without, Pends;
      var n := |actions| - 1;
      SettleEffect(s, actions[..n], replies, shares);
      var front := SettleEach(s, actions[..n], replies, shares);
      WithoutHolds(front.pending, actions[n].signature);
      assert actions == actions[..n] + [actions[n]];
      forall x
        ensures Pends(actions, x) <==> Pends(actions[..n], x) || actions[n].signature == x
      {
        PendsAppend(actions[..n], actions[n], x);
      }
    } else {
      NothingPends(actions);
    }
  }

  lemma {:induction false} NothingPends(actions: seq<PendingAction>)
    requires actions == []
    ensures forall x :: !Pends(actions, x)
  {
  }

  lemma {:induction false} LandedHolds(actions: seq<PendingAction>, replies: map<nat, Reply>)
    requires DistinctActions(actions)
    ensures forall x :: x in LandedIn(actions, replies) <==> Pends(actions, x) && ReplyFor(replies, x).LandedWith?
    ensures NoRepeats(LandedIn(actions, replies))
    decreases |actions|
  {
    if actions != [] {
      var n := |actions| - 1;
      hide Pends;
      DistinctFront(actions, n);
      LandedHolds(actions[..n], replies);
      assert actions == actions[..n] + [actions[n]];
      forall x
        ensures Pends(actions, x) <==> Pends(actions[..n], x) || actions[n].signature == x
      {
        PendsAppend(actions[..n], actions[n], x);
      }
      LastIsNew(actions);
    } else {
      NothingPends(actions);
    }
  }

  lemma {:induction false} LastIsNew(actions: seq<PendingAction>)
    requires DistinctActions(actions) && actions != []
    ensures !Pends(actions[..|actions| - 1], actions[|actions| - 1].signature)
  {
  }

  ghost predicate NoRepeats(signatures: seq<nat>) {
    forall i, j :: 0 <= i < j < |signatures| ==> signatures[i] != signatures[j]
  }

  // ---- every run, with crashes ----------------------------------------------------------------

  /** The disk and, beside it, what was ever recorded and sent, and the chain: what landed, with its effect on the
      wallet, and what never will. */
  datatype World = World(
    saved: Saved, recorded: map<nat, PendingAction>, sent: set<nat>, landed: map<nat, int>, dead: set<nat>)

  datatype Event =
    | Record(action: PendingAction)
    | Transmit(signature: nat)
    | Lands(signature: nat, delta: int)
    | Dies(signature: nat)
      // A pass that reaches its save, and one that crashes before it.
    | Pass(replies: map<nat, Reply>)
    | CrashedPass(replies: map<nat, Reply>)
      // Rounds and unjournaled charges change the ledger too.
    | OtherBooking(ledger: Ledger)

  /** Replies are never wrong about a final fate. */
  ghost predicate Truthful(w: World, replies: map<nat, Reply>) {
    forall x :: x in replies ==>
      match replies[x]
      case LandedWith(delta) => x in w.landed && w.landed[x] == delta
      case NeverLanded => x in w.dead
      case _ => true
  }

  /** Signatures are fresh; only what is in the state file is sent; only what was sent lands; nothing both lands and
      dies. */
  ghost predicate Fair(w: World, event: Event) {
    match event
    case Record(action) => action.signature !in w.recorded
    case Transmit(x) => Pends(w.saved.pending, x)
    case Lands(x, _) => x in w.sent && x !in w.dead && x !in w.landed
    case Dies(x) => x in w.recorded && x !in w.landed && x !in w.dead
    case Pass(replies) => Truthful(w, replies)
    case CrashedPass(replies) => Truthful(w, replies)
    case OtherBooking(ledger) => ledger.NonNegative()
  }

  ghost function Next(w: World, event: Event, shares: Shares): World {
    match event
    case Record(action) =>
      w.(saved := w.saved.(pending := w.saved.pending + [action]), recorded := w.recorded[action.signature := action])
    case Transmit(x) => w.(sent := w.sent + {x})
    case Lands(x, delta) => w.(landed := w.landed[x := delta])
    case Dies(x) => w.(dead := w.dead + {x})
    case Pass(replies) => w.(saved := Settle(w.saved, replies, shares))
    case CrashedPass(_) => w
    case OtherBooking(ledger) => w.(saved := w.saved.(ledger := ledger))
  }

  ghost predicate FairRun(w: World, events: seq<Event>, shares: Shares)
    decreases |events|
  {
    events == [] || (Fair(w, events[0]) && FairRun(Next(w, events[0], shares), events[1..], shares))
  }

  ghost function Run(w: World, events: seq<Event>, shares: Shares): World
    decreases |events|
  {
    if events == [] then w else Run(Next(w, events[0], shares), events[1..], shares)
  }

  ghost predicate Start(w: World) {
    w.saved.pending == [] && w.saved.booked == [] && w.recorded == map[] && w.sent == {} && w.landed == map[]
    && w.dead == {}
  }

  /** Every landed transaction is booked exactly once or still to be; a dead one never is. */
  ghost predicate Inv(w: World) {
    DistinctActions(w.saved.pending) && NoRepeats(w.saved.booked) && w.landed.Keys <= w.sent <= w.recorded.Keys
    && w.dead <= w.recorded.Keys
    && w.landed.Keys !! w.dead
    && (forall x :: x in w.saved.booked ==> x in w.landed && !Pends(w.saved.pending, x))
    && (forall x :: Pends(w.saved.pending, x) ==> x in w.recorded)
    && (forall a :: a in w.saved.pending ==> a.signature in w.recorded && w.recorded[a.signature] == a)
    && (forall x :: x in w.recorded ==> Pends(w.saved.pending, x) || x in w.saved.booked || x in w.dead)
  }

  lemma {:induction false} RecordKeepsInv(w: World, action: PendingAction, shares: Shares)
    requires Inv(w) && Fair(w, Event.Record(action))
    ensures Inv(Next(w, Event.Record(action), shares))
  {
    forall x
      ensures Pends(w.saved.pending + [action], x) <==> Pends(w.saved.pending, x) || action.signature == x
    {
      PendsAppend(w.saved.pending, action, x);
    }
    hide Pends;
    RecordDistinct(w, action);
  }

  lemma {:induction false} RecordDistinct(w: World, action: PendingAction)
    requires Inv(w) && action.signature !in w.recorded
    ensures DistinctActions(w.saved.pending + [action])
  {
    forall i | 0 <= i < |w.saved.pending|
      ensures w.saved.pending[i].signature != action.signature
    {
      assert Pends(w.saved.pending, w.saved.pending[i].signature);
    }
  }

  lemma {:induction false} PassKeepsInv(w: World, replies: map<nat, Reply>, shares: Shares)
    requires Inv(w) && Fair(w, Pass(replies))
    ensures Inv(Next(w, Pass(replies), shares))
  {
    hide Pends, DistinctActions, SettleEach;
    var pending := w.saved.pending;
    SettleEffect(w.saved, pending, replies, shares);
    LandedHolds(pending, replies);
    var newly := LandedIn(pending, replies);
    forall i, j | 0 <= i < |w.saved.booked| && 0 <= j < |newly|
      ensures w.saved.booked[i] != newly[j]
    {
      assert newly[j] in newly && w.saved.booked[i] in w.saved.booked;
    }
  }

  /** Between passes more of what was sent lands or dies, and nothing that did is undone. */
  ghost predicate ChainMoves(w: World, landed: map<nat, int>, dead: set<nat>) {
    (forall x :: x in w.landed ==> x in landed && landed[x] == w.landed[x])
    && landed.Keys <= w.sent && w.dead <= dead <= w.recorded.Keys && landed.Keys !! dead
  }

  lemma {:induction false} MovesKeepInv(w: World, landed: map<nat, int>, dead: set<nat>)
    requires Inv(w) && ChainMoves(w, landed, dead)
    ensures Inv(w.(landed := landed, dead := dead))
  {
  }

  /** What is about to be recorded cannot have been sent. */
  lemma {:induction false} RecordedFirst(w: World, action: PendingAction)
    requires Inv(w) && action.signature !in w.recorded
    ensures action.signature !in w.sent
  {
  }

  lemma {:induction false} NextKeepsInv(w: World, event: Event, shares: Shares)
    requires Inv(w) && Fair(w, event)
    ensures Inv(Next(w, event, shares))
  {
    match event {
      case Record(action) => RecordKeepsInv(w, action, shares);
      case Pass(replies) => PassKeepsInv(w, replies, shares);
      case _ =>
    }
  }

  lemma {:induction false} RunKeepsInv(w: World, events: seq<Event>, shares: Shares)
    requires Inv(w) && FairRun(w, events, shares)
    ensures Inv(Run(w, events, shares))
    decreases |events|
  {
    hide Inv, Next;
    if events != [] {
      NextKeepsInv(w, events[0], shares);
      RunKeepsInv(Next(w, events[0], shares), events[1..], shares);
    }
  }

  /** With crashes allowed anywhere between saves: whatever was recorded and landed is booked exactly once or still
      pending, and what failed or expired is never booked. */
  lemma {:induction false} BookedExactlyOnce(start: World, events: seq<Event>, shares: Shares, x: nat)
    requires Start(start) && FairRun(start, events, shares)
    ensures var w := Run(start, events, shares);
      NoRepeats(w.saved.booked) && (x in w.saved.booked ==> x in w.landed)
      && (x in w.landed ==> (x in w.saved.booked <==> !Pends(w.saved.pending, x)))
      && (x in w.dead ==> x !in w.saved.booked) && (x in w.landed ==> x in w.sent)
      && w.sent <= w.recorded.Keys
  {
    hide Run, FairRun, Pends, DistinctActions;
    StartInv(start);
    RunKeepsInv(start, events, shares);
  }

  lemma {:induction false} StartInv(w: World)
    requires Start(w)
    ensures Inv(w)
  {
  }

  /** And a completed pass that is told of a landing books it. */
  lemma {:induction false} PassBooksLanded(w: World, replies: map<nat, Reply>, shares: Shares, x: nat)
    requires Inv(w) && Fair(w, Pass(replies)) && Pends(w.saved.pending, x) && ReplyFor(replies, x).LandedWith?
    ensures var after := Next(w, Pass(replies), shares).saved;
      x in after.booked && x !in w.saved.booked && !Pends(after.pending, x)
  {
    hide Pends, DistinctActions, SettleEach;
    SettleEffect(w.saved, w.saved.pending, replies, shares);
    LandedHolds(w.saved.pending, replies);
  }

  // ---- what booking does to the ledger -------------------------------------------------------------

  /** A landed claim adds what it brought in; a landed spend takes its cost, or all its bucket and the basket hold. */
  lemma {:induction false} BookingConserves(ledger: Ledger, kind: Kind, delta: int, shares: Shares)
    requires ledger.NonNegative() && FullShares(shares)
    ensures Book(ledger, kind, delta, shares).NonNegative()
    ensures Book(ledger, kind, delta, shares).operations == ledger.operations
    ensures var change := Book(ledger, kind, delta, shares).Total() - ledger.Total();
      match kind
      case Claim => change == (if delta > 0 then delta else 0)
      case Spend(bucket) =>
        -change == Min(if delta < 0 then -delta else 0,
                       if bucket.Basket? then ledger.basket else ledger.Get(bucket) + ledger.basket)
  {
    hide Charge, Credit;
    match kind {
      case Claim => CreditConserves(ledger, if delta > 0 then delta else 0, shares);
      case Spend(bucket) =>
        ChargeTakes(ledger, bucket, if -delta > 0 then -delta else 0);
        assert Charge(ledger, bucket, if -delta > 0 then -delta else 0).Get(Operations) == ledger.Get(Operations);
    }
  }

  /** No pass makes a bucket negative or touches what rounds have set aside. */
  lemma {:induction false} PassKeepsBuckets(s: Saved, actions: seq<PendingAction>, replies: map<nat, Reply>,
                                            shares: Shares)
    requires s.ledger.NonNegative() && FullShares(shares)
    ensures SettleEach(s, actions, replies, shares).ledger.NonNegative()
    ensures SettleEach(s, actions, replies, shares).ledger.operations == s.ledger.operations
    decreases |actions|
  {
    hide Book;
    if actions != [] {
      var n := |actions| - 1;
      PassKeepsBuckets(s, actions[..n], replies, shares);
      var reply := ReplyFor(replies, actions[n].signature);
      if reply.LandedWith? {
        BookingConserves(SettleEach(s, actions[..n], replies, shares).ledger, actions[n].kind, reply.delta, shares);
      }
    }
  }

  lemma {:induction false} BookIsBooked(ledger: Ledger, kind: Kind, delta: int, shares: Shares)
    requires ledger.NonNegative() && FullShares(shares)
    ensures Booked(ledger, Book(ledger, kind, delta, shares), Booking(kind, delta), shares)
  {
    hide Charge, Credit, SharedOut;
    match kind {
      case Claim => CreditSharesOut(ledger, if delta > 0 then delta else 0, shares);
      case Spend(bucket) =>
        ChargeTakes(ledger, bucket, if -delta > 0 then -delta else 0);
        ChargeOwnFirst(ledger, bucket, if -delta > 0 then -delta else 0);
    }
  }

  lemma {:induction false} ChargeOwnFirst(ledger: Ledger, bucket: Bucket, cost: nat)
    requires ledger.NonNegative()
    ensures bucket != Basket ==>
      Charge(ledger, bucket, cost).Get(bucket) == ledger.Get(bucket) - Min(cost, ledger.Get(bucket))
  {
  }

  /** There is only one way to book a landed transaction. */
  lemma {:induction false} BookedIsOne(before: Ledger, x: Ledger, y: Ledger, b: Booking, shares: Shares)
    requires Booked(before, x, b, shares) && Booked(before, y, b, shares)
    ensures x == y
  {
    if b.kind.Claim? {
      SharedOutIsOne(before, x, y, Received(b), shares);
    } else {
      assert forall bucket: Bucket :: bucket != b.kind.bucket && bucket != Basket ==> x.Get(bucket) == y.Get(bucket);
      SameBuckets(x, y);
    }
  }

  lemma {:induction false} SameBuckets(x: Ledger, y: Ledger)
    requires x.Total() == y.Total() && forall bucket: Bucket :: bucket != Basket ==> x.Get(bucket) == y.Get(bucket)
    ensures x == y
  {
    assert x.Get(Flywheel) == y.Get(Flywheel) && x.Get(PlatformBuyback) == y.Get(PlatformBuyback);
    assert x.Get(PlatformRevenue) == y.Get(PlatformRevenue) && x.Get(Operations) == y.Get(Operations);
  }

  /** The ledger after a pass is the one before it with each reported landing booked once, in order. */
  lemma {:induction false} PassFollows(s: Saved, actions: seq<PendingAction>, replies: map<nat, Reply>, shares: Shares)
    returns (ledgers: seq<Ledger>)
    requires s.ledger.NonNegative() && FullShares(shares)
    ensures Follow(ledgers, BookingsIn(actions, replies), shares)
    ensures ledgers[0] == s.ledger && ledgers[|ledgers| - 1] == SettleEach(s, actions, replies, shares).ledger
    ensures SettleEach(s, actions, replies, shares).surplusWithdrawn
         == (s.surplusWithdrawn || SurplusLanded(actions, replies))
    decreases |actions|
  {
    if actions == [] {
      ledgers := [s.ledger];
    } else {
      hide Book, Booked;
      var n := |actions| - 1;
      ledgers := PassFollows(s, actions[..n], replies, shares);
      PassKeepsBuckets(s, actions[..n], replies, shares);
      SurplusAppend(actions, replies, n);
      var front, reply := SettleEach(s, actions[..n], replies, shares), ReplyFor(replies, actions[n].signature);
      if reply.LandedWith? {
        BookIsBooked(front.ledger, actions[n].kind, reply.delta, shares);
        ledgers := ledgers + [Book(front.ledger, actions[n].kind, reply.delta, shares)];
      }
    }
  }

  lemma {:induction false} SurplusAppend(actions: seq<PendingAction>, replies: map<nat, Reply>, n: nat)
    requires |actions| == n + 1
    ensures SurplusLanded(actions, replies)
       <==> SurplusLanded(actions[..n], replies)
            || (actions[n].kind.Claim? && actions[n].purpose == SURPLUS_PURPOSE
                && ReplyFor(replies, actions[n].signature).LandedWith?)
  {
    if SurplusLanded(actions[..n], replies) {
      var i :| 0 <= i < n && actions[..n][i].kind.Claim? && actions[..n][i].purpose == SURPLUS_PURPOSE
               && ReplyFor(replies, actions[..n][i].signature).LandedWith?;
      assert actions[i] == actions[..n][i];
    }
    if i :| 0 <= i < |actions| && actions[i].kind.Claim? && actions[i].purpose == SURPLUS_PURPOSE
            && ReplyFor(replies, actions[i].signature).LandedWith? {
      assert i < n ==> actions[..n][i] == actions[i];
    }
  }
}
