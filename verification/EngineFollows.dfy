/** What replay makes of each event the engine emits. */
module EngineFollows {
  import opened BacktestJournal
  import opened EngineModel
  import opened PendingOrders
  import opened Replay
  import opened Wrappers

  /** The replayed orders agree with the engine's own book and counters. */
  ghost predicate Mirrors(o: Orders, book: map<IntentId, OrderReservation>, approved: nat, rejected: nat, fills: nat) {
    && o.approved == approved && o.rejected == rejected && o.fills == fills
    && (forall id :: id in o.reservations <==> id in book)
    && (forall id :: id in book ==>
          o.reservations[id] == (book[id].remaining, book[id].status) && book[id].status != AwaitingUpdate)
    && (forall id :: id in book ==> id in o.risks)
    && (forall id :: id in o.risks ==> id in o.intents)
    && (forall id :: id in o.intents ==> o.intents[id].0 == IntentKey(id))
    && (forall f :: f in o.fillIds ==> f.intent in book)
  }

  /** The order's intent is known under its event, and undecided. */
  predicate Plans(o: Orders, planned: Planned) {
    planned.id in o.intents && o.intents[planned.id].1 == planned.event && planned.id !in o.risks
  }

  predicate ApprovedBy(o: Orders, id: IntentId, decision: EventId) {
    id in o.risks && o.risks[id] == (Approve, decision)
  }

  predicate Untouched(o: Orders, id: IntentId) {
    forall f :: f in o.fillIds ==> f.intent != id
  }

  /** No new ledger call, intent, close or corporate action. */
  predicate Quiet(s: ReplayState, t: ReplayState) {
    t.ledger == s.ledger && t.agedTimes == s.agedTimes && t.actionIds == s.actionIds
        && t.orders.intents == s.orders.intents
  }

  /** No new intent, close or corporate action. */
  predicate Calm(s: ReplayState, t: ReplayState) {
    t.agedTimes == s.agedTimes && t.actionIds == s.actionIds && t.orders.intents == s.orders.intents
  }

  /** No new decision. */
  predicate Orderly(s: ReplayState, t: ReplayState) {
    t.orders.risks == s.orders.risks
  }

  /** Only the ledger moved on. */
  predicate Quietly(s: ReplayState, t: ReplayState) {
    t.orders == s.orders && t.agedTimes == s.agedTimes && t.actionIds == s.actionIds
  }

  predicate Decides(s: ReplayState, t: ReplayState, id: IntentId, e: Event) {
    && Quiet(s, t) && e.payload.RiskDecided? && !e.payload.outcome.OtherOutcome?
    && t.orders.reservations == s.orders.reservations
    && t.orders.risks == s.orders.risks[id := (e.payload.outcome, e.id)]
  }

  /** A new intent is known under its event, undecided; nothing else about the orders changes. */
  predicate Plan(o: Orders, after: Orders, plan: Option<Planned>) {
    match plan
    case None => after == o
    case Some(p) =>
      && p.id !in o.intents && p.id !in o.risks
      && after == o.(intents := o.intents[p.id := (IntentKey(p.id), p.event)])
  }

  /** An order decided before, or now but for another instrument. */
  predicate IsEarlier(id: IntentId, last: int, decision: int, instrument: int) {
    id.decidedAt < last || (id.decidedAt == decision && id.instrument != instrument)
  }

  lemma TargetFollows(ledger: Ledger, keys: int -> set<int>, s: ReplayState, e: Event)
    requires e.payload.TargetSet?
    ensures Step(ledger, keys, s, e) == Ok(s)
  {
  }

  lemma IntentFollows(ledger: Ledger, keys: int -> set<int>, s: ReplayState, e: Event,
                      book: map<IntentId, OrderReservation>, approved: nat, rejected: nat, fills: nat)
    requires e.payload.IntentCreated? && e.payload.intent !in s.orders.intents
             && e.payload.key == IntentKey(e.payload.intent)
    requires Mirrors(s.orders, book, approved, rejected, fills)
    ensures e.payload.intent !in s.orders.risks
    ensures Step(ledger, keys, s, e).Ok?
    ensures var t := Step(ledger, keys, s, e).value;
      && t == s.(orders := s.orders.(intents := s.orders.intents[e.payload.intent := (e.payload.key, e.id)]))
      && Mirrors(t.orders, book, approved, rejected, fills)
  {
    hide StepLedger, StepFill, StepUpdate, StepRisk, StepReserve, StepRelease;
  }

  lemma SettlementFollows(ledger: Ledger, keys: int -> set<int>, s: ReplayState, e: Event)
    requires e.payload.SettlementProcessed?
    requires var h := s.ledger + [Settled(e.payload.date, e.time)];
             ledger.accepts(h) && ledger.settlements(h) == e.payload.processed
    ensures Step(ledger, keys, s, e) == Ok(s.(ledger := s.ledger + [Settled(e.payload.date, e.time)]))
  {
  }

  lemma ActionFollows(ledger: Ledger, keys: int -> set<int>, s: ReplayState, e: Event)
    requires e.payload.ActionApplied? && e.payload.action.id !in s.actionIds && e.payload.action.version != ""
    requires var h := s.ledger + [Acted(e.payload.action, e.time)];
             ledger.accepts(h) && ledger.actionResult(h) == e.payload.effect
    ensures Step(ledger, keys, s, e) ==
            Ok(s.(ledger := s.ledger + [Acted(e.payload.action, e.time)],
                  actionIds := s.actionIds + {e.payload.action.id}))
  {
  }

  lemma OpenFollows(ledger: Ledger, keys: int -> set<int>, s: ReplayState, e: Event)
    requires e.payload.MarketOpened? && ledger.accepts(s.ledger
                                                       + [Marked(e.payload.instrument, e.payload.price, e.time, true)])
    ensures Step(ledger, keys, s, e) == Ok(s.(ledger := s.ledger
                                              + [Marked(e.payload.instrument, e.payload.price, e.time, true)]))
  {
  }

  lemma RiskFollows(ledger: Ledger, keys: int -> set<int>, s: ReplayState, e: Event, planned: Planned,
                    book: map<IntentId, OrderReservation>, approved: nat, rejected: nat, fills: nat)
    requires Mirrors(s.orders, book, approved, rejected, fills) && Plans(s.orders, planned)
    requires e.payload.RiskDecided? && e.payload.intent == planned.id && e.causation == Some(planned.event)
    requires e.payload.outcome == Approve || e.payload.outcome == Reject
    ensures Step(ledger, keys, s, e).Ok?
    ensures var t := Step(ledger, keys, s, e).value;
      && Decides(s, t, planned.id, e)
      && Mirrors(t.orders, book, if e.payload.outcome == Approve then approved + 1 else approved,
                 if e.payload.outcome == Reject then rejected + 1 else rejected, fills)
  {
    hide StepLedger, StepFill, StepUpdate, StepReserve, StepRelease, StepIntent;
  }

  lemma ReserveFollows(ledger: Ledger, keys: int -> set<int>, s: ReplayState, e: Event, id: IntentId, decision: EventId,
                       book: map<IntentId, OrderReservation>, approved: nat, rejected: nat, fills: nat)
    requires Mirrors(s.orders, book, approved, rejected, fills) && ApprovedBy(s.orders, id, decision) && id !in book
    requires e.payload == OrderReserved(id, id.quantity, Active) && e.causation == Some(decision)
    ensures Step(ledger, keys, s, e).Ok?
    ensures var t := Step(ledger, keys, s, e).value;
      && Quiet(s, t) && Orderly(s, t) && ApprovedBy(t.orders, id, decision) && Untouched(t.orders, id)
      && Mirrors(t.orders, book[id := Fresh(id)], approved, rejected, fills)
  {
    hide StepLedger, StepFill, StepUpdate, StepRisk, StepRelease, StepIntent;
  }

  lemma FillFollows(ledger: Ledger, keys: int -> set<int>, s: ReplayState, first: Event, second: Event, id: IntentId,
                    decision: EventId,
                    fill: SimFill, book: map<IntentId, OrderReservation>, approved: nat, rejected: nat, fills: nat)
    requires Mirrors(s.orders, book, approved, rejected, fills) && ApprovedBy(s.orders, id, decision)
             && Untouched(s.orders, id)
    requires id in book && book[id].status == Active && fill.quantity <= book[id].remaining
    requires fill.Valid() && fill.clientOrder == IntentKey(id) && fill.fillId.intent == id
    requires ledger.accepts(s.ledger + [Applied(fill, DateOf(first.time))])
    requires first.causation == Some(decision) && first.payload.FillReceived? && first.payload.intent == id
    requires first.payload.result == Complete || first.payload.result == Partial
    requires first.payload.fill == Some(fill) && first.payload.due ==
             ledger.dueDate(s.ledger + [Applied(fill, DateOf(first.time))])
    requires second.payload == ReservationUpdated(id, AfterFill(book[id], fill.quantity).remaining,
                                                  AfterFill(book[id], fill.quantity).status)
    ensures Step(ledger, keys, s, first).Ok? && Step(ledger, keys, Step(ledger, keys, s, first).value, second).Ok?
    ensures var t := Step(ledger, keys, Step(ledger, keys, s, first).value, second).value;
      && t.ledger == s.ledger + [Applied(fill, DateOf(first.time))] && Calm(s, t) && Orderly(s, t)
      && Mirrors(t.orders, book[id := AfterFill(book[id], fill.quantity)], approved, rejected, fills + 1)
  {
    hide StepLedger, StepRelease, StepRisk, StepReserve, StepIntent;
    assert TakeFill(s.orders, first).Ok?;
    var u := Step(ledger, keys, s, first).value;
    assert u.orders == TakeFill(s.orders, first).value;
    assert StepUpdate(u.orders, second).Ok?;
  }

  lemma UnfilledFollows(ledger: Ledger, keys: int -> set<int>, s: ReplayState, e: Event, id: IntentId,
                        decision: EventId)
    requires ApprovedBy(s.orders, id, decision) && e.causation == Some(decision)
    requires e.payload.FillReceived? && e.payload.intent == id && e.payload.result == Unfilled
    ensures Step(ledger, keys, s, e) == Ok(s)
  {
  }

  lemma ReleaseFollows(ledger: Ledger, keys: int -> set<int>, s: ReplayState, e: Event, id: IntentId,
                       book: map<IntentId, OrderReservation>, approved: nat, rejected: nat, fills: nat)
    requires Mirrors(s.orders, book, approved, rejected, fills) && id in book && book[id].status == Active
    requires e.payload.ReservationReleased? && e.payload.intent == id
             && e.payload.status in {Cancelled, Expired, Rejected}
    ensures Step(ledger, keys, s, e).Ok?
    ensures var t := Step(ledger, keys, s, e).value;
      && Quiet(s, t) && Orderly(s, t)
      && Mirrors(t.orders, book[id := book[id].(status := e.payload.status)], approved, rejected, fills)
  {
    hide StepLedger, StepFill, StepUpdate, StepRisk, StepReserve, StepIntent;
  }

  lemma CloseFollows(ledger: Ledger, keys: int -> set<int>, s: ReplayState, e: Event, aged: seq<LedgerOp>)
    requires e.payload.MarketClosed?
    requires aged == if e.time in s.agedTimes then s.ledger else s.ledger + [Aged(keys(e.time))]
    requires ledger.accepts(aged) || e.time in s.agedTimes
    requires ledger.accepts(aged + [Marked(e.payload.instrument, e.payload.price, e.time, false)])
    ensures Step(ledger, keys, s, e).Ok?
    ensures var t := Step(ledger, keys, s, e).value;
      && t.ledger == aged + [Marked(e.payload.instrument, e.payload.price, e.time, false)]
      && t.orders == s.orders && t.actionIds == s.actionIds && t.agedTimes == s.agedTimes + {e.time}
  {
  }

  lemma SnapshotFollows(ledger: Ledger, keys: int -> set<int>, s: ReplayState, e: Event)
    requires e.payload.Snapshotted? || e.payload.Reconciled?
    requires e.payload.journalChecksum == ledger.checksum(s.ledger)
             && ledger.snapshot(s.ledger, e.time) == Some(e.payload.checksum)
    ensures Step(ledger, keys, s, e).Ok?
    ensures var t := Step(ledger, keys, s, e).value; t.ledger == s.ledger && Quietly(s, t)
  {
  }

  lemma SnapshotRefused(ledger: Ledger, keys: int -> set<int>, s: ReplayState, e: Event)
    requires e.payload.Snapshotted? && ledger.snapshot(s.ledger, e.time) != Some(e.payload.checksum)
    ensures Step(ledger, keys, s, e).Err?
  {
  }

  /** Replay accepts the completion exactly when the book holds no active reservation. */
  lemma CompletionFollows(ledger: Ledger, keys: int -> set<int>, s: ReplayState, e: Event, book: map<IntentId,
                          OrderReservation>)
    requires e.payload.RunCompleted?
    requires Mirrors(s.orders, book, e.payload.approved, e.payload.rejected, e.payload.fills)
    requires ledger.snapshot(s.ledger, e.time) == Some(e.payload.checksum)
             && e.payload.journalChecksum == ledger.checksum(s.ledger)
    ensures Step(ledger, keys, s, e).Ok? <==> NoneActive(book)
  {
    if NoneActive(book) {
      assert NoneOpen(s.orders.reservations);
    }
    if NoneOpen(s.orders.reservations) {
      forall id | id in book
        ensures book[id].status != Active
      {
        assert !Open(s.orders.reservations[id]);
      }
    }
  }
}
