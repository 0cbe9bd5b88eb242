/** What the journal's bookings come to over a whole run: the ledger is the one it started as, with every landing booked
    once and whatever else was charged in between. */
module Bookings {
  import opened Ledgers
  import opened Journal

  /** One change of the ledger: a landed transaction of the journal's, or a booking of somebody else's. */
  datatype Entry = Landing(signature: nat, booking: Booking) | Other(ledger: Ledger)

  ghost predicate Applied(before: Ledger, after: Ledger, entry: Entry, shares: Shares) {
    match entry
    case Landing(_, booking) => Booked(before, after, booking, shares)
    case Other(ledger) => after == ledger
  }

  /** Each ledger is the one before it with one more entry. */
  ghost predicate Account(ledgers: seq<Ledger>, entries: seq<Entry>, shares: Shares) {
    |ledgers| == |entries| + 1
    && forall i :: 0 <= i < |entries| ==> Applied(ledgers[i], ledgers[i + 1], entries[i], shares)
  }

  function Signatures(entries: seq<Entry>): seq<nat>
    decreases |entries|
  {
    if entries == [] then []
    else
      var n := |entries| - 1;
      Signatures(entries[..n]) + if entries[n].Landing? then [entries[n].signature] else []
  }

  function Others(entries: seq<Entry>): seq<Ledger>
    decreases |entries|
  {
    if entries == [] then []
    else
      var n := |entries| - 1;
      Others(entries[..n]) + if entries[n].Other? then [entries[n].ledger] else []
  }

  function OtherBookings(events: seq<Event>): seq<Ledger>
    decreases |events|
  {
    if events == [] then []
    else
      var n := |events| - 1;
      OtherBookings(events[..n]) + if events[n].OtherBooking? then [events[n].ledger] else []
  }

  /** Every landing is of a recorded action, for what it was recorded for, with its effect on the wallet. */
  ghost predicate AsLanded(entries: seq<Entry>, w: World) {
    forall i :: 0 <= i < |entries| && entries[i].Landing? ==>
      var x, booking := entries[i].signature, entries[i].booking;
      x in w.recorded && x in w.landed && booking == Booking(w.recorded[x].kind, w.landed[x])
  }

  // ---- one pass ---------------------------------------------------------------------------

  function LandingsIn(actions: seq<PendingAction>, replies: map<nat, Reply>): (entries: seq<Entry>)
    decreases |actions|
  {
    if actions == [] then []
    else
      var n := |actions| - 1;
      match ReplyFor(replies, actions[n].signature)
      case LandedWith(delta) =>
        LandingsIn(actions[..n], replies) + [Landing(actions[n].signature, Booking(actions[n].kind, delta))]
      case _ => LandingsIn(actions[..n], replies)
  }

  lemma {:induction false} LandingsHold(actions: seq<PendingAction>, replies: map<nat, Reply>)
    ensures var entries := LandingsIn(actions, replies);
      && |entries| == |BookingsIn(actions, replies)| && Signatures(entries) == LandedIn(actions, replies)
      && Others(entries) == []
      && forall i :: 0 <= i < |entries| ==>
           entries[i].Landing? && entries[i].booking == BookingsIn(actions, replies)[i]
    decreases |actions|
  {
    if actions != [] {
      var n := |actions| - 1;
      LandingsHold(actions[..n], replies);
      var front, entries := LandingsIn(actions[..n], replies), LandingsIn(actions, replies);
      assert |entries| > |front| ==> entries[..|entries| - 1] == front;
    }
  }

  lemma {:induction false} LandingsAreTrue(w: World, actions: seq<PendingAction>, replies: map<nat, Reply>)
    requires Truthful(w, replies)
    requires forall a :: a in actions ==> a.signature in w.recorded && w.recorded[a.signature] == a
    ensures AsLanded(LandingsIn(actions, replies), w)
    decreases |actions|
  {
    if actions != [] {
      var n := |actions| - 1;
      assert actions[n] in actions && forall a :: a in actions[..n] ==> a in actions;
      LandingsAreTrue(w, actions[..n], replies);
    }
  }

  lemma {:induction false} PassAccount(w: World, replies: map<nat, Reply>, shares: Shares)
    returns (ledgers: seq<Ledger>, entries: seq<Entry>)
    requires Inv(w) && Fair(w, Pass(replies)) && w.saved.ledger.NonNegative() && FullShares(shares)
    ensures Account(ledgers, entries, shares) && AsLanded(entries, w) && Others(entries) == []
    ensures ledgers[0] == w.saved.ledger && ledgers[|ledgers| - 1] == Next(w, Pass(replies), shares).saved.ledger
    ensures Next(w, Pass(replies), shares).saved.booked == w.saved.booked + Signatures(entries)
  {
    var pending := w.saved.pending;
    ledgers := PassFollows(w.saved, pending, replies, shares);
    entries := LandingsIn(pending, replies);
    LandingsHold(pending, replies);
    LandingsAreTrue(w, pending, replies);
    SettleEffect(w.saved, pending, replies, shares);
  }

  // ---- joining accounts --------------------------------------------------------------------

  lemma {:induction false} SignaturesJoin(a: seq<Entry>, b: seq<Entry>)
    ensures Signatures(a + b) == Signatures(a) + Signatures(b)
    decreases |b|
  {
    if b == [] {
      assert a + b == a;
    } else {
      var n := |b| - 1;
      SignaturesJoin(a, b[..n]);
      assert (a + b)[..|a| + n] == a + b[..n] && (a + b)[|a| + n] == b[n];
    }
  }

  lemma {:induction false} OthersJoin(a: seq<Entry>, b: seq<Entry>)
    ensures Others(a + b) == Others(a) + Others(b)
    decreases |b|
  {
    if b == [] {
      assert a + b == a;
    } else {
      var n := |b| - 1;
      OthersJoin(a, b[..n]);
      assert (a + b)[..|a| + n] == a + b[..n] && (a + b)[|a| + n] == b[n];
    }
  }

  lemma {:induction false} AccountsJoin(a: seq<Ledger>, entries: seq<Entry>, b: seq<Ledger>, more: seq<Entry>,
                                        shares: Shares)
    requires Account(a, entries, shares) && Account(b, more, shares) && a[|a| - 1] == b[0]
    ensures Account(a + b[1..], entries + more, shares)
    ensures (a + b[1..])[0] == a[0] && (a + b[1..])[|a + b[1..]| - 1] == b[|b| - 1]
  {
    hide Applied;
    var all, ledgers := entries + more, a + b[1..];
    forall i | 0 <= i < |all|
      ensures Applied(ledgers[i], ledgers[i + 1], all[i], shares)
    {
      if i < |entries| {
        assert ledgers[i] == a[i] && ledgers[i + 1] == a[i + 1] && all[i] == entries[i];
      } else {
        assert ledgers[i] == b[i - |entries|] && ledgers[i + 1] == b[i + 1 - |entries|];
        assert all[i] == more[i - |entries|];
      }
    }
  }

  lemma {:induction false} StillAsLanded(entries: seq<Entry>, w: World, later: World)
    requires AsLanded(entries, w) && Remembers(w, later)
    ensures AsLanded(entries, later)
  {
  }

  /** What was recorded and what landed stays so. */
  ghost predicate Remembers(w: World, later: World) {
    (forall x :: x in w.recorded ==> x in later.recorded && later.recorded[x] == w.recorded[x])
    && forall x :: x in w.landed ==> x in later.landed && later.landed[x] == w.landed[x]
  }

  lemma {:induction false} NextRemembers(w: World, event: Event, shares: Shares)
    requires Fair(w, event)
    ensures Remembers(w, Next(w, event, shares))
  {
  }

  lemma {:induction false} RunRemembers(w: World, events: seq<Event>, shares: Shares)
    requires FairRun(w, events, shares)
    ensures Remembers(w, Run(w, events, shares))
    decreases |events|
  {
    hide Next, Fair;
    if events != [] {
      NextRemembers(w, events[0], shares);
      RunRemembers(Next(w, events[0], shares), events[1..], shares);
    }
  }

  // ---- whole runs --------------------------------------------------------------------------

  lemma {:induction false} EventAccount(w: World, event: Event, shares: Shares)
    returns (ledgers: seq<Ledger>, entries: seq<Entry>)
    requires Inv(w) && Fair(w, event) && w.saved.ledger.NonNegative() && FullShares(shares)
    ensures var next := Next(w, event, shares);
      && Account(ledgers, entries, shares) && AsLanded(entries, w) && next.saved.ledger.NonNegative()
      && ledgers[0] == w.saved.ledger && ledgers[|ledgers| - 1] == next.saved.ledger
      && next.saved.booked == w.saved.booked + Signatures(entries)
      && Others(entries) == if event.OtherBooking? then [event.ledger] else []
  {
    hide Inv, SettleEach, Booked;
    match event {
      case Pass(replies) =>
        ledgers, entries := PassAccount(w, replies, shares);
        PassKeepsBuckets(w.saved, w.saved.pending, replies, shares);
      case OtherBooking(ledger) =>
        ledgers, entries := [w.saved.ledger, ledger], [Other(ledger)];
        assert entries[..0] == [];
      case _ =>
        ledgers, entries := [w.saved.ledger], [];
    }
  }

  lemma {:induction false} OtherBookingsFirst(events: seq<Event>)
    requires events != []
    ensures OtherBookings(events)
         == (if events[0].OtherBooking? then [events[0].ledger] else []) + OtherBookings(events[1..])
    decreases |events|
  {
    var n := |events| - 1;
    if n > 0 {
      OtherBookingsFirst(events[..n]);
      assert events[..n][1..] == events[1..][..n - 1];
    } else {
      assert events[..0] == [] && events[1..] == [];
    }
  }

  lemma {:induction false} RunAccount(w: World, events: seq<Event>, shares: Shares)
    returns (ledgers: seq<Ledger>, entries: seq<Entry>)
    requires Inv(w) && FairRun(w, events, shares) && w.saved.ledger.NonNegative() && FullShares(shares)
    ensures var end := Run(w, events, shares);
      && Account(ledgers, entries, shares) && AsLanded(entries, end)
      && ledgers[0] == w.saved.ledger && ledgers[|ledgers| - 1] == end.saved.ledger
      && end.saved.booked == w.saved.booked + Signatures(entries) && Others(entries) == OtherBookings(events)
    decreases |events|
  {
    hide Inv, Next, Fair, Account, AsLanded, Remembers, Signatures, Others, OtherBookings;
    if events == [] {
      ledgers, entries := NothingAccount(w, shares);
    } else {
      RunStep(w, events, shares);
      hide Run, FairRun;
      var a, first := EventAccount(w, events[0], shares);
      NextKeepsInv(w, events[0], shares);
      var next := Next(w, events[0], shares);
      var b, rest := RunAccount(next, events[1..], shares);
      AccountsShape(a, first, shares);
      AccountsShape(b, rest, shares);
      AccountsJoin(a, first, b, rest, shares);
      SignaturesJoin(first, rest);
      OthersJoin(first, rest);
      OtherBookingsFirst(events);
      NextRemembers(w, events[0], shares);
      RunRemembers(next, events[1..], shares);
      StillAsLanded(first, w, next);
      StillAsLanded(first, next, Run(w, events, shares));
      BothAsLanded(first, rest, Run(w, events, shares));
      ledgers, entries := a + b[1..], first + rest;
    }
  }

  lemma {:induction false} RunStep(w: World, events: seq<Event>, shares: Shares)
    requires FairRun(w, events, shares) && events != []
    ensures Fair(w, events[0]) && FairRun(Next(w, events[0], shares), events[1..], shares)
    ensures Run(w, events, shares) == Run(Next(w, events[0], shares), events[1..], shares)
  {
  }

  lemma {:induction false} NothingAccount(w: World, shares: Shares) returns (ledgers: seq<Ledger>, entries: seq<Entry>)
    ensures ledgers == [w.saved.ledger] && entries == [] && Account(ledgers, entries, shares) && AsLanded(entries, w)
    ensures Signatures(entries) == [] && Others(entries) == [] && OtherBookings([]) == []
  {
    ledgers, entries := [w.saved.ledger], [];
  }

  lemma {:induction false} AccountsShape(ledgers: seq<Ledger>, entries: seq<Entry>, shares: Shares)
    requires Account(ledgers, entries, shares)
    ensures |ledgers| == |entries| + 1
  {
  }

  lemma {:induction false} BothAsLanded(a: seq<Entry>, b: seq<Entry>, w: World)
    requires AsLanded(a, w) && AsLanded(b, w)
    ensures AsLanded(a + b, w)
  {
  }

  /** Over every run, crashes included: the ledger is the first one with exactly the booked landings entered into it,
      each once and in order, for what it was recorded for and with what it did to the wallet, and the bookings others
      made in between. */
  lemma {:induction false} LedgerIsAccounted(start: World, events: seq<Event>, shares: Shares)
    returns (ledgers: seq<Ledger>, entries: seq<Entry>)
    requires Start(start) && FairRun(start, events, shares)
    requires start.saved.ledger.NonNegative() && FullShares(shares)
    ensures var w := Run(start, events, shares);
      && Account(ledgers, entries, shares) && AsLanded(entries, w)
      && ledgers[0] == start.saved.ledger && ledgers[|ledgers| - 1] == w.saved.ledger
      && Signatures(entries) == w.saved.booked && NoRepeats(w.saved.booked) && Others(entries) == OtherBookings(events)
  {
    StartInv(start);
    ledgers, entries := RunAccount(start, events, shares);
    hide Inv, Run, FairRun, Account, AsLanded;
    BookedExactlyOnce(start, events, shares, 0);
  }

  // ---- totals ------------------------------------------------------------------------------

  /** What an entry adds to all buckets together. */
  function Net(before: Ledger, entry: Entry): int {
    match entry
    case Landing(_, booking) => Received(booking) - Drawn(before, booking)
    case Other(ledger) => ledger.Total() - before.Total()
  }

  ghost function NetOf(ledgers: seq<Ledger>, entries: seq<Entry>): int
    requires |ledgers| == |entries| + 1
    decreases |entries|
  {
    if entries == [] then 0
    else
      var n := |entries| - 1;
      NetOf(ledgers[..n + 1], entries[..n]) + Net(ledgers[n], entries[n])
  }

  /** All buckets together change by what landed claims brought in, less what landed spends drew, and by what others
      booked. */
  lemma {:induction false} AccountTotals(ledgers: seq<Ledger>, entries: seq<Entry>, shares: Shares)
    requires Account(ledgers, entries, shares)
    ensures ledgers[|ledgers| - 1].Total() == ledgers[0].Total() + NetOf(ledgers, entries)
    decreases |entries|
  {
    hide SharedOut;
    if entries != [] {
      var n := |entries| - 1;
      assert forall i :: 0 <= i < n ==> Applied(ledgers[i], ledgers[i + 1], entries[i], shares);
      AccountTotals(ledgers[..n + 1], entries[..n], shares);
      EntryNet(ledgers[n], ledgers[n + 1], entries[n], shares);
    }
  }

  lemma {:induction false} EntryNet(before: Ledger, after: Ledger, entry: Entry, shares: Shares)
    requires Applied(before, after, entry, shares)
    ensures after.Total() == before.Total() + Net(before, entry)
  {
  }

  /** What a pass adds to all buckets together: what the landed claims brought in, less what the landed spends drew. */
  ghost function PassNet(s: Saved, actions: seq<PendingAction>, replies: map<nat, Reply>, shares: Shares): int
    decreases |actions|
  {
    if actions == [] then 0
    else
      var n := |actions| - 1;
      var before := SettleEach(s, actions[..n], replies, shares).ledger;
      PassNet(s, actions[..n], replies, shares)
      + match ReplyFor(replies, actions[n].signature)
        case LandedWith(delta) => Net(before, Landing(actions[n].signature, Booking(actions[n].kind, delta)))
        case _ => 0
  }

  lemma {:induction false} PassTotals(s: Saved, actions: seq<PendingAction>, replies: map<nat, Reply>, shares: Shares)
    requires s.ledger.NonNegative() && FullShares(shares)
    ensures SettleEach(s, actions, replies, shares).ledger.Total()
         == s.ledger.Total() + PassNet(s, actions, replies, shares)
    decreases |actions|
  {
    hide Book;
    if actions != [] {
      var n := |actions| - 1;
      PassTotals(s, actions[..n], replies, shares);
      PassKeepsBuckets(s, actions[..n], replies, shares);
      var reply := ReplyFor(replies, actions[n].signature);
      if reply.LandedWith? {
        var before := SettleEach(s, actions[..n], replies, shares).ledger;
        BookIsBooked(before, actions[n].kind, reply.delta, shares);
        EntryNet(before, Book(before, actions[n].kind, reply.delta, shares),
          Landing(actions[n].signature, Booking(actions[n].kind, reply.delta)), shares);
      }
    }
  }

  /** A spend that its bucket and the basket cover is drawn in full. */
  lemma {:induction false} CoveredIsDrawn(ledger: Ledger, b: Booking)
    requires ledger.NonNegative() && b.kind.Spend? && Cost(b) <= ledger.basket
    ensures Drawn(ledger, b) == Cost(b)
  {
  }
}
