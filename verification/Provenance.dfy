/** Where every recorded field of a round came from: for each, the accepted instruction of the run that gave it, under
    the authority of that moment, at that moment's clock. */
module Provenance {
  import opened Terms
  import opened SlotHashes
  import opened Lifecycle
  import opened LifecycleRuns

  /** An accepted instruction, and the state it met. */
  datatype Moment = Moment(before: State, action: Action)

  /** The accepted instructions of a run, in order. */
  ghost function Trace(s: State, actions: seq<Action>): seq<Moment>
    decreases |actions|
  {
    if actions == [] then []
    else
      (if Step(s, actions[0]).Ok? then [Moment(s, actions[0])] else []) + Trace(After(s, actions[0]), actions[1..])
  }

  ghost predicate OpenedAt(m: Moment, x: Intent) {
    m.action.Open? && m.action.signer == m.before.rootAuthority
    && x.roundId == m.action.roundId == m.before.nextRoundId
    && x.commitment == m.action.commitment && x.openSlot == m.before.slot && x.openTs == m.before.now
  }

  /** The price is the configured feed's, at most `maxPriceAgeSecs` from the clock either way. */
  ghost predicate ClosedAt(m: Moment, x: Intent) {
    m.action.CloseIt? && m.action.signer == m.before.rootAuthority && x.roundId == m.action.roundId
    && x.closeSlot == m.before.slot && x.closeTs == m.before.now
    && x.closeTs - x.openTs >= m.before.config.minWindowSecs
    && x.chainHead == m.action.chainHead && x.snapshotCount == m.action.snapshotCount >= 1
    && m.action.feed == m.before.config.priceFeedAccount
    && m.action.reading == Some(PriceReading(m.before.config.priceFeedId, x.solUsd)) && x.solUsd.price > 0
    && x.solUsd.conf * 10_000 <= x.solUsd.price * m.before.config.maxPriceConfBps
    && 0 - m.before.config.maxPriceAgeSecs <= m.before.now - x.solUsd.publishTime <= m.before.config.maxPriceAgeSecs
  }

  /** Nobody's signature: what the sysvar's bytes answered. */
  ghost predicate SeededAt(m: Moment, x: Intent) {
    m.action.Seed? && x.roundId == m.action.roundId && x.seedTs == m.before.now
    && x.closeSlot + m.before.config.seedSlotOffset <= U64_MAX
    && FindSeed(m.action.data, x.closeSlot + m.before.config.seedSlotOffset)
         == Some(SeedLookup.Found(x.seedSlot, x.seedHash))
  }

  /** The published header is what the authority committed, over the window that was sampled, once its secret was
      out. */
  ghost predicate CommittedAt(m: Moment, x: Intent, h: Header) {
    m.action.Commit? && m.action.signer == m.before.rootAuthority && HashOf(m.action.params.secret) == x.commitment
    && m.action.params.roundId == x.roundId == h.roundId == m.before.nextRoundId
    && h.assetsRoot == m.action.params.assetsRoot && h.artifactHash == m.action.params.artifactHash
    && h.assetCount == m.action.params.assetCount <= MAX_ASSETS_PER_ROUND && h.openedMask == 0 && h.closedMask == 0
    && h.allowFreezeMask == m.action.params.allowFreezeMask && MaskWithin(h.allowFreezeMask, h.assetCount)
    && h.committedTs == m.before.now && h.expiryTs == m.action.params.expiryTs
    && h.expiryTs >= h.committedTs + m.before.config.minExpirySecs && h.expiryTs > h.committedTs
    && h.windowStartSlot == x.openSlot && h.windowEndSlot == x.closeSlot
  }

  ghost predicate IntentGiven(trace: seq<Moment>, x: Intent) {
    (exists i :: 0 <= i < |trace| && OpenedAt(trace[i], x))
    && (x.status == WindowClosed || x.status == Seeded || x.status == Committed ==>
          exists i :: 0 <= i < |trace| && ClosedAt(trace[i], x))
    && (x.status == Seeded || x.status == Committed ==> exists i :: 0 <= i < |trace| && SeededAt(trace[i], x))
  }

  ghost predicate HeaderGiven(trace: seq<Moment>, x: Intent, h: Header) {
    x.status == Committed && exists i :: 0 <= i < |trace| && CommittedAt(trace[i], x, h)
  }

  /** The authority is the creator, or accepted the office after it was offered. */
  ghost predicate AuthorityGiven(trace: seq<Moment>, creator: Key, authority: Key) {
    authority == creator
    || exists i :: 0 <= i < |trace| && trace[i].action == Action.Accept(authority)
                   && trace[i].before.pendingAuthority == Some(authority)
  }

  /** The office is offered by whoever holds it, and not to nobody or themselves. */
  ghost predicate OfferGiven(trace: seq<Moment>, offer: Option<Key>) {
    offer.Some? ==>
      exists i :: 0 <= i < |trace| && trace[i].action == Action.Propose(trace[i].before.rootAuthority, offer.value)
                  && offer.value != DEFAULT_KEY && offer.value != trace[i].before.rootAuthority
  }

  ghost predicate AllGiven(trace: seq<Moment>, s: State) {
    (forall id :: id in s.intents ==> s.intents[id].roundId == id && IntentGiven(trace, s.intents[id]))
    && forall id :: id in s.headers ==> id in s.intents && HeaderGiven(trace, s.intents[id], s.headers[id])
  }

  ghost predicate Given(trace: seq<Moment>, creator: Key, s: State) {
    AllGiven(trace, s) && AuthorityGiven(trace, creator, s.rootAuthority) && OfferGiven(trace, s.pendingAuthority)
  }

  /** What an accepted instruction records. */
  ghost predicate Records(m: Moment, next: State) {
    match m.action
    case Open(_, roundId, _) => roundId in next.intents && OpenedAt(m, next.intents[roundId])
    case CloseIt(_, roundId, _, _, _, _) => roundId in next.intents && ClosedAt(m, next.intents[roundId])
    case Seed(roundId, _) => roundId in next.intents && SeededAt(m, next.intents[roundId])
    case Commit(_, intentId, params) =>
      intentId in next.intents && params.roundId in next.headers
      && CommittedAt(m, next.intents[intentId], next.headers[params.roundId])
    case Propose(signer, offered) => signer == m.before.rootAuthority && next.pendingAuthority == Some(offered)
    case Accept(signer) => m.before.pendingAuthority == Some(signer) && next.rootAuthority == signer
    case _ => true
  }

  // ---- a longer trace gives the same ---------------------------------------------------------------

  lemma {:induction false} StillIntent(trace: seq<Moment>, m: Moment, x: Intent)
    requires IntentGiven(trace, x)
    ensures IntentGiven(trace + [m], x)
  {
    hide OpenedAt, ClosedAt, SeededAt;
    assert forall i :: 0 <= i < |trace| ==> (trace + [m])[i] == trace[i];
  }

  lemma {:induction false} StillHeader(trace: seq<Moment>, m: Moment, x: Intent, h: Header)
    requires HeaderGiven(trace, x, h)
    ensures HeaderGiven(trace + [m], x, h)
  {
    hide CommittedAt;
    assert forall i :: 0 <= i < |trace| ==> (trace + [m])[i] == trace[i];
  }

  lemma {:induction false} StillOffice(trace: seq<Moment>, m: Moment, creator: Key, authority: Key, offer: Option<Key>)
    requires AuthorityGiven(trace, creator, authority) && OfferGiven(trace, offer)
    ensures AuthorityGiven(trace + [m], creator, authority) && OfferGiven(trace + [m], offer)
  {
    assert forall i :: 0 <= i < |trace| ==> (trace + [m])[i] == trace[i];
  }

  lemma {:induction false} Still(trace: seq<Moment>, m: Moment, s: State)
    requires AllGiven(trace, s)
    ensures AllGiven(trace + [m], s)
  {
    hide IntentGiven, HeaderGiven;
    forall id | id in s.intents
      ensures IntentGiven(trace + [m], s.intents[id])
    {
      StillIntent(trace, m, s.intents[id]);
    }
    forall id | id in s.headers
      ensures HeaderGiven(trace + [m], s.intents[id], s.headers[id])
    {
      StillHeader(trace, m, s.intents[id], s.headers[id]);
    }
  }

  /** Writing an intent that no header is about. */
  lemma {:induction false} WriteGiven(trace: seq<Moment>, s: State, next: State, id: u64, x: Intent)
    requires AllGiven(trace, s) && next.intents == s.intents[id := x] && next.headers == s.headers
    requires x.roundId == id && IntentGiven(trace, x) && (id in s.intents ==> s.intents[id].status != Committed)
    ensures AllGiven(trace, next)
  {
    hide IntentGiven;
  }

  // ---- step by step ------------------------------------------------------------------------------------

  lemma {:induction false} OpenGiven(trace: seq<Moment>, s: State, signer: Key, roundId: u64, commitment: SecretHash)
    requires AllGiven(trace, s) && OpenRound(s, signer, roundId, commitment).Ok?
    ensures AllGiven(trace + [Moment(s, Open(signer, roundId, commitment))],
                     OpenRound(s, signer, roundId, commitment).value)
  {
    hide AllGiven;
    var m := Moment(s, Open(signer, roundId, commitment));
    var x := NewIntent(s, roundId, commitment);
    Still(trace, m, s);
    assert (trace + [m])[|trace|] == m && OpenedAt(m, x);
    assert IntentGiven(trace + [m], x);
    WriteGiven(trace + [m], s, OpenRound(s, signer, roundId, commitment).value, roundId, x);
  }

  lemma {:induction false} CloseMeans(s: State, signer: Key, roundId: u64, feed: Key, reading: Option<PriceReading>,
                                      snapshotCount: u32)
    requires CloseRefusal(s, signer, roundId, feed, reading, snapshotCount).None?
    ensures roundId in s.intents && s.intents[roundId].status == IntentOpen && signer == s.rootAuthority
    ensures reading.Some? && feed == s.config.priceFeedAccount && reading.value.feedId == s.config.priceFeedId
    ensures snapshotCount >= 1 && s.now - s.intents[roundId].openTs >= s.config.minWindowSecs
    ensures var price := reading.value.solUsd;
      price.price > 0 && price.conf * 10_000 <= price.price * s.config.maxPriceConfBps
      && 0 - s.config.maxPriceAgeSecs <= s.now - price.publishTime <= s.config.maxPriceAgeSecs
  {
  }

  lemma {:induction false} CloseGiven(trace: seq<Moment>, s: State, signer: Key, roundId: u64, feed: Key,
                                      reading: Option<PriceReading>, chainHead: Digest, snapshotCount: u32)
    requires AllGiven(trace, s) && CloseWindow(s, signer, roundId, feed, reading, chainHead, snapshotCount).Ok?
    ensures AllGiven(trace + [Moment(s, CloseIt(signer, roundId, feed, reading, chainHead, snapshotCount))],
                     CloseWindow(s, signer, roundId, feed, reading, chainHead, snapshotCount).value)
  {
    hide CloseRefusal, AllGiven;
    CloseMeans(s, signer, roundId, feed, reading, snapshotCount);
    var m := Moment(s, CloseIt(signer, roundId, feed, reading, chainHead, snapshotCount));
    var next := CloseWindow(s, signer, roundId, feed, reading, chainHead, snapshotCount).value;
    var x := next.intents[roundId];
    Still(trace, m, s);
    AreGiven(trace + [m], s, roundId);
    assert (trace + [m])[|trace|] == m && ClosedAt(m, x);
    var i :| 0 <= i < |trace + [m]| && OpenedAt((trace + [m])[i], s.intents[roundId]);
    assert OpenedAt((trace + [m])[i], x);
    assert IntentGiven(trace + [m], x);
    WriteGiven(trace + [m], s, next, roundId, x);
  }

  lemma {:induction false} AreGiven(trace: seq<Moment>, s: State, id: u64)
    requires AllGiven(trace, s) && id in s.intents
    ensures s.intents[id].roundId == id && IntentGiven(trace, s.intents[id])
  {
  }

  lemma {:induction false} SeedGiven(trace: seq<Moment>, s: State, roundId: u64, data: seq<byte>)
    requires AllGiven(trace, s) && RecordSeed(s, roundId, data).Ok?
    ensures AllGiven(trace + [Moment(s, Seed(roundId, data))], RecordSeed(s, roundId, data).value)
  {
    hide AllGiven, FindSeed;
    var m, next := Moment(s, Seed(roundId, data)), RecordSeed(s, roundId, data).value;
    var was, x := s.intents[roundId], next.intents[roundId];
    Still(trace, m, s);
    AreGiven(trace + [m], s, roundId);
    assert (trace + [m])[|trace|] == m && SeededAt(m, x);
    OpenedStays(trace + [m], was, x);
    ClosedStays(trace + [m], was, x);
    assert IntentGiven(trace + [m], x);
    WriteGiven(trace + [m], s, next, roundId, x);
  }

  lemma {:induction false} OpenedStays(trace: seq<Moment>, a: Intent, b: Intent)
    requires IntentGiven(trace, a) && b.roundId == a.roundId && b.commitment == a.commitment
    requires b.openSlot == a.openSlot && b.openTs == a.openTs
    ensures exists i :: 0 <= i < |trace| && OpenedAt(trace[i], b)
  {
    var i :| 0 <= i < |trace| && OpenedAt(trace[i], a);
    assert OpenedAt(trace[i], b);
  }

  lemma {:induction false} ClosedStays(trace: seq<Moment>, a: Intent, b: Intent)
    requires IntentGiven(trace, a) && (a.status == WindowClosed || a.status == Seeded || a.status == Committed)
    requires b.roundId == a.roundId && b.openTs == a.openTs && b.closeSlot == a.closeSlot && b.closeTs == a.closeTs
    requires b.chainHead == a.chainHead && b.snapshotCount == a.snapshotCount && b.solUsd == a.solUsd
    ensures exists i :: 0 <= i < |trace| && ClosedAt(trace[i], b)
  {
    var i :| 0 <= i < |trace| && ClosedAt(trace[i], a);
    assert ClosedAt(trace[i], b);
  }

  lemma {:induction false} SeededStays(trace: seq<Moment>, a: Intent, b: Intent)
    requires IntentGiven(trace, a) && (a.status == Seeded || a.status == Committed)
    requires b.roundId == a.roundId && b.closeSlot == a.closeSlot && b.seedSlot == a.seedSlot
    requires b.seedHash == a.seedHash && b.seedTs == a.seedTs
    ensures exists i :: 0 <= i < |trace| && SeededAt(trace[i], b)
  {
    hide FindSeed;
    var i :| 0 <= i < |trace| && SeededAt(trace[i], a);
    assert SeededAt(trace[i], b);
  }

  lemma {:induction false} AbandonGiven(trace: seq<Moment>, s: State, signer: Key, roundId: u64, data: seq<byte>)
    requires AllGiven(trace, s) && AbandonRound(s, signer, roundId, data).Ok?
    ensures AllGiven(trace + [Moment(s, Abandon(signer, roundId, data))], AbandonRound(s, signer, roundId, data).value)
  {
    hide AllGiven, AbandonVerdict;
    var m, next := Moment(s, Abandon(signer, roundId, data)), AbandonRound(s, signer, roundId, data).value;
    AbandonCosts(s, signer, roundId, data);
    Still(trace, m, s);
    AreGiven(trace + [m], s, roundId);
    OpenedStays(trace + [m], s.intents[roundId], next.intents[roundId]);
    WriteGiven(trace + [m], s, next, roundId, next.intents[roundId]);
  }

  lemma {:induction false} CommitMeets(s: State, signer: Key, intentId: u64, p: CommitParams)
    requires CommitRefusal(s, signer, intentId, p).None?
    ensures signer == s.rootAuthority && p.assetCount <= MAX_ASSETS_PER_ROUND
    ensures MaskWithin(p.allowFreezeMask, p.assetCount)
  {
    hide MaskWithin;
  }

  lemma {:induction false} CommitGiven(trace: seq<Moment>, s: State, signer: Key, intentId: u64, p: CommitParams)
    requires AllGiven(trace, s) && CommitRound(s, signer, intentId, p).Ok?
    ensures AllGiven(trace + [Moment(s, Commit(signer, intentId, p))], CommitRound(s, signer, intentId, p).value)
  {
    hide AllGiven, CommitRefusal, MaskWithin;
    CommitFacts(s, signer, intentId, p);
    CommitMeets(s, signer, intentId, p);
    var m, next := Moment(s, Commit(signer, intentId, p)), CommitRound(s, signer, intentId, p).value;
    var was, x, h := s.intents[intentId], next.intents[intentId], next.headers[p.roundId];
    Still(trace, m, s);
    AreGiven(trace + [m], s, intentId);
    OpenedStays(trace + [m], was, x);
    ClosedStays(trace + [m], was, x);
    SeededStays(trace + [m], was, x);
    assert (trace + [m])[|trace|] == m && CommittedAt(m, x, h);
    CommitWrites(trace + [m], s, next, intentId, x, h);
  }

  lemma {:induction false} CommitWrites(trace: seq<Moment>, s: State, next: State, id: u64, x: Intent, h: Header)
    requires AllGiven(trace, s) && next.intents == s.intents[id := x] && next.headers == s.headers[id := h]
    requires x.roundId == id && IntentGiven(trace, x) && HeaderGiven(trace, x, h)
    requires id in s.intents && s.intents[id].status != Committed
    ensures AllGiven(trace, next)
  {
    hide IntentGiven;
  }

  lemma {:induction false} StepGiven(trace: seq<Moment>, creator: Key, s: State, action: Action)
    requires Given(trace, creator, s) && Step(s, action).Ok?
    ensures Given(trace + [Moment(s, action)], creator, After(s, action))
  {
    hide AllGiven, AuthorityGiven, OfferGiven, OpenRound, CloseWindow, RecordSeed, AbandonRound, CommitRound;
    StepOffice(trace, creator, s, action);
    match action {
      case Open(signer, roundId, commitment) => OpenGiven(trace, s, signer, roundId, commitment);
      case CloseIt(signer, roundId, feed, reading, head, count) =>
        CloseGiven(trace, s, signer, roundId, feed, reading, head, count);
      case Seed(roundId, data) => SeedGiven(trace, s, roundId, data);
      case Abandon(signer, roundId, data) => AbandonGiven(trace, s, signer, roundId, data);
      case Commit(signer, intentId, p) => CommitGiven(trace, s, signer, intentId, p);
      case _ =>
        Still(trace, Moment(s, action), s);
        SameRounds(trace + [Moment(s, action)], s, After(s, action));
    }
  }

  lemma {:induction false} SameRounds(trace: seq<Moment>, s: State, next: State)
    requires AllGiven(trace, s) && next.intents == s.intents && next.headers == s.headers
    ensures AllGiven(trace, next)
  {
  }

  lemma {:induction false} StepRecords(s: State, action: Action)
    requires Step(s, action).Ok? && forall id :: id in s.intents ==> s.intents[id].roundId == id
    ensures Records(Moment(s, action), After(s, action))
  {
    hide CloseRefusal, FindSeed, AbandonVerdict, CommitRefusal, MaskWithin;
    match action {
      case CloseIt(signer, roundId, feed, reading, head, count) =>
        CloseMeans(s, signer, roundId, feed, reading, count);
      case Commit(signer, intentId, p) =>
        CommitFacts(s, signer, intentId, p);
        CommitMeets(s, signer, intentId, p);
      case _ =>
    }
  }

  lemma {:induction false} StepOffice(trace: seq<Moment>, creator: Key, s: State, action: Action)
    requires Given(trace, creator, s) && Step(s, action).Ok?
    ensures var (next, longer) := (After(s, action), trace + [Moment(s, action)]);
      AuthorityGiven(longer, creator, next.rootAuthority) && OfferGiven(longer, next.pendingAuthority)
  {
    hide AllGiven, CloseRefusal, LookUpSeed, AbandonVerdict, CommitRefusal;
    var m := Moment(s, action);
    StillOffice(trace, m, creator, s.rootAuthority, s.pendingAuthority);
    assert (trace + [m])[|trace|] == m;
  }

  lemma {:induction false} RunGiven(trace: seq<Moment>, creator: Key, s: State, actions: seq<Action>)
    requires Given(trace, creator, s)
    ensures Given(trace + Trace(s, actions), creator, Run(s, actions))
    decreases |actions|
  {
    hide Given, Step;
    if actions == [] {
      assert trace + [] == trace;
    } else {
      var next, rest := After(s, actions[0]), actions[1..];
      if Step(s, actions[0]).Ok? {
        StepGiven(trace, creator, s, actions[0]);
        RunGiven(trace + [Moment(s, actions[0])], creator, next, rest);
        assert trace + Trace(s, actions) == trace + [Moment(s, actions[0])] + Trace(next, rest);
      } else {
        RunGiven(trace, creator, next, rest);
        assert Trace(s, actions) == Trace(next, rest);
      }
    }
  }

  /** Over every run from creation: each intent was opened by the authority of the moment with the commitment it holds;
      its window, price and chain head are those of an accepted closing; its seed is what the sysvar answered; each
      header is what the authority committed for it; and the authority is the creator or took an office that was
      offered to it by its holder. */
  lemma {:induction false} EverythingWasGiven(start: State, actions: seq<Action>)
    requires Start(start)
    ensures Given(Trace(start, actions), start.rootAuthority, Run(start, actions))
  {
    RunGiven([], start.rootAuthority, start, actions);
    assert [] + Trace(start, actions) == Trace(start, actions);
  }
}
