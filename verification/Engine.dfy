/** The event-driven backtest engine, stage by stage, with the replay that follows it. */
module Engine {
  import opened BacktestJournal
  import opened EngineFollows
  import opened EngineJournal
  import opened EngineModel
  import opened EnginePlans
  import opened EngineReports
  import opened FeeTax
  import opened LedgerCalls
  import opened PendingOrders
  import opened Replay
  import ReplaySafety
  import opened SessionTrades
  import opened Simulation
  import opened Sorting
  import opened TickRounding
  import opened Wrappers

  class EngineRun {
    const config: Config
    const world: World
    const ledger: Ledger
    const journal: DeterministicEventJournal
    const book: PendingOrderBook
    var history: seq<LedgerOp>
    var approved: nat
    var rejected: nat
    var fills: nat
    /** The closes replay will see, and the state it reaches on the journal so far. */
    ghost const keys: int -> set<int>
    ghost var accepted: bool
    ghost var replay: ReplayState

    ghost predicate Core()
      reads this, journal, book
    {
      && config.Valid() && book.Valid() && Underway(journal.events)
      && (accepted <==> Replayed(ledger, keys, journal.events).Ok?)
      && (accepted ==> Replayed(ledger, keys, journal.events) == Ok(replay))
    }

    /** Replay has followed every step so far and rebuilt the same ledger calls and orders. */
    ghost predicate Aligned()
      reads this, book
    {
      accepted && Same(ledger, replay.ledger, history)
          && Mirrors(replay.orders, book.reservations, approved, rejected, fills)
    }

    /** The book holds exactly the reservations the journal tells of. */
    ghost predicate Balanced()
      reads journal, book
    {
      book.reservations == BookOf(journal.events)
    }

    /** The ledger has been called exactly as the journal tells, and the book holds what it tells of. */
    ghost predicate InStep()
      reads this`history, journal, book
    {
      Tells(ledger, keys, journal.events, history) && Balanced()
    }

    constructor (config: Config, world: World, ledger: Ledger, firstTime: int, ghost keys: int -> set<int>)
      requires config.Valid()
      ensures Core() && InStep() && Aligned() && fresh(journal) && fresh(book) && this.keys == keys
      ensures this.config == config && this.world == world && this.ledger == ledger
      ensures journal.events == [MakeEvent(1, firstTime, None, RunStarted)] && replay == FRESH_STATE
              && book.reservations == map[]
    {
      hide Replayed, WellFormed, Tells, BookOf, Mirrors, Same;
      this.config, this.world, this.ledger, this.keys := config, world, ledger, keys;
      journal := new DeterministicEventJournal();
      book := new PendingOrderBook();
      history, approved, rejected, fills := [], 0, 0, 0;
      accepted, replay := true, FRESH_STATE;
      new;
      SameItself(ledger, []);
      StartIs(ledger, keys, firstTime);
      var first := journal.Append(firstTime, RunStarted, None);
      assert journal.events == [MakeEvent(1, firstTime, None, RunStarted)];
    }

    /** Appends an event, and lets replay take it. */
    method Record(time: int, payload: Payload, causation: Option<EventId>) returns (r: Result<Event, EngineError>)
      requires Core() && !payload.RunCompleted?
      modifies journal, this`accepted, this`replay
      ensures r.Ok? <==> LastTime(old(journal.events)) <= time
      ensures r.Ok? ==>
                && Core()
                && r.value == MakeEvent(|old(journal.events)| + 1, time, causation, payload)
                && journal.events == old(journal.events) + [r.value] && LastTime(old(journal.events)) <= time
                && LastTime(journal.events) == time
                && (!EndsSession(payload) ==> Extends(old(journal.events), journal.events, time, IsTrade(payload)))
                && (Tells(ledger, keys, old(journal.events), history) && IsSilent(payload) ==>
                      Tells(ledger, keys, journal.events, history))
                && (TellsNext(ledger, keys, old(journal.events), history, r.value) ==>
                      Tells(ledger, keys, journal.events, history))
                && BookOf(journal.events) == Booked(BookOf(old(journal.events)), r.value)
                && Has(journal.events, time, payload)
                && (HasPartialFill(journal.events) <==> HasPartialFill(old(journal.events)) || IsPartial(payload))
                && accepted == (old(accepted) && Step(ledger, keys, old(replay), r.value).Ok?)
                && (accepted ==> Step(ledger, keys, old(replay), r.value) == Ok(replay))
    {
      hide Step, Replayed, WellFormed, HasPartialFill, Has, Tells, TellsNext, IsSilent, BookOf, Booked;
      var appended := journal.Append(time, payload, causation);
      if appended.Err? {
        return Err(JournalRefused(appended.error));
      }
      TellsAppended(ledger, keys, old(journal.events), history, appended.value);
      BookNext(old(journal.events), appended.value);
      ReplayedNext(ledger, keys, old(journal.events), appended.value);
      PartialNext(old(journal.events), appended.value);
      HasAppended(old(journal.events), appended.value);
      var next := Replayed(ledger, keys, journal.events);
      accepted := next.Ok?;
      if next.Ok? {
        replay := next.value;
      }
      r := Ok(appended.value);
    }

    /** Two events of the same cause at the same time. */
    method RecordBoth(time: int, one: Payload, other: Payload, causation: Option<EventId>)
        returns (r: Result<(Event, Event), EngineError>)
      requires Core() && !one.RunCompleted? && !other.RunCompleted? && !EndsSession(one) && !EndsSession(other)
      modifies journal, this`accepted, this`replay
      ensures r.Ok? <==> LastTime(old(journal.events)) <= time
      ensures r.Ok? ==>
                && Core() && Extends(old(journal.events), journal.events, time, true)
                && LastTime(journal.events) == time
                && (TellsNext(ledger, keys, old(journal.events), history, r.value.0) && IsSilent(other) ==>
                      Tells(ledger, keys, journal.events, history))
                && BookOf(journal.events) == Booked(Booked(BookOf(old(journal.events)), r.value.0), r.value.1)
                && journal.events == AddAll(old(journal.events), time, causation, [one, other])
                && r.value.0.payload == one && r.value.1.payload == other
                && r.value.0.time == r.value.1.time == time && r.value.0.causation == r.value.1.causation == causation
                && (HasPartialFill(journal.events) <==>
                      HasPartialFill(old(journal.events)) || IsPartial(one) || IsPartial(other))
                && (old(accepted) && Step(ledger, keys, old(replay), r.value.0).Ok?
                    && Step(ledger, keys, Step(ledger, keys, old(replay), r.value.0).value, r.value.1).Ok? ==>
                      accepted && Ok(replay) == Step(ledger, keys, Step(ledger, keys, old(replay), r.value.0).value,
                                                     r.value.1))
    {
      hide Replayed, Underway, HasPartialFill, Has, Step, IsSilent, TellsNext, Tells, BookOf, Booked;
      var first :- Record(time, one, causation);
      var second := Record(time, other, causation);
      r := Ok((first, second.value));
    }

    /** A call that changes the ledger. */
    method Apply(op: LedgerOp) returns (r: Result<seq<LedgerOp>, EngineError>)
      modifies this`history
      ensures r.Ok? <==> ledger.accepts(old(history) + [op])
      ensures r.Ok? ==> history == old(history) + [op] == r.value
    {
      if !ledger.accepts(history + [op]) {
        return Err(LedgerFailed);
      }
      history := history + [op];
      r := Ok(history);
    }

    // ---- One order ----

    /** The risk decision on a planned order. */
    method DecideRisk(planned: Planned, price: real, time: int, ghost tracked: bool)
        returns (r: Result<Event, EngineError>)
      requires Core() && InStep()
      requires tracked ==> Aligned() && Plans(replay.orders, planned)
      modifies this`approved, this`rejected, this`accepted, this`replay, journal
      ensures r.Ok? <==> LastTime(old(journal.events)) <= time
      ensures r.Ok? ==>
                && Core() && InStep() && Extends(old(journal.events), journal.events, time, true)
                && LastTime(journal.events) == time
                && (HasPartialFill(journal.events) <==> HasPartialFill(old(journal.events)))
                && journal.events == old(journal.events) + [r.value]
                && r.value == MakeEvent(|old(journal.events)| + 1, time, Some(planned.event),
                                        RiskDecided(planned.id,
                                                    if world.approves(history, book.reservations, planned.id, price)
                                                    then Approve else Reject))
                && (tracked ==> Aligned() && Decides(old(replay), replay, planned.id, r.value))
    {
      hide Tells, BookOf, Replayed, Underway, HasPartialFill, Has, Step, Mirrors, Same, SameAnswers, Plans, Extends,
           LastTime;
      var outcome := if world.approves(history, book.reservations, planned.id, price) then Approve else Reject;
      var event :- Record(time, RiskDecided(planned.id, outcome), Some(planned.event));
      if tracked {
        RiskFollows(ledger, keys, old(replay), event, planned, book.reservations, approved, rejected, fills);
      }
      if outcome == Approve {
        approved := approved + 1;
      } else {
        rejected := rejected + 1;
      }
      r := Ok(event);
    }

    /** The reservation of an approved order. */
    method ReserveOrder(id: IntentId, decision: EventId, time: int, ghost tracked: bool)
        returns (r: Result<OrderReservation, EngineError>)
      requires Core() && InStep()
      requires id !in book.reservations
      requires tracked ==> Aligned() && ApprovedBy(replay.orders, id, decision)
      modifies this`accepted, this`replay, journal, book
      ensures r.Ok? <==> LastTime(old(journal.events)) <= time
      ensures r.Ok? ==>
                && Core() && InStep() && Extends(old(journal.events), journal.events, time, true)
                && LastTime(journal.events) == time
                && (HasPartialFill(journal.events) <==> HasPartialFill(old(journal.events)))
                && journal.events == AddAll(old(journal.events), time, Some(decision),
                                            [OrderReserved(id, id.quantity, Active)])
                && book.reservations == old(book.reservations)[id := Fresh(id)]
                && (tracked ==>
                      && Aligned() && Quiet(old(replay), replay) && Orderly(old(replay), replay)
                      && ApprovedBy(replay.orders, id, decision) && Untouched(replay.orders, id))
    {
      hide Tells, BookOf, Replayed, Underway, HasPartialFill, Has, Step, Mirrors, Same, SameAnswers, ApprovedBy,
           Untouched, Extends, LastTime;
      var reserved := book.Reserve(id);
      var item := reserved.value;
      var event :- Record(time, OrderReserved(id, item.remaining, item.status), Some(decision));
      AddOne(old(journal.events), time, Some(decision), event.payload);
      if tracked {
        ReserveFollows(ledger, keys, old(replay), event, id, decision, old(book.reservations), approved, rejected,
                       fills);
      }
      r := Ok(item);
    }

    /** The rest of an order that is not filled this session is released. */
    method ReleaseOrder(id: IntentId, decision: EventId, status: OrderStatus, time: int, ghost tracked: bool)
        returns (r: Result<Event, EngineError>)
      requires Core() && InStep() && id in book.reservations
      requires tracked ==> Aligned()
      modifies this`accepted, this`replay, journal, book`reservations
      ensures (status in {Cancelled, Expired, Rejected} && old(book.reservations)[id].status == Active
              && LastTime(old(journal.events)) <= time) ==> r.Ok?
      ensures r.Ok? ==>
                && Core() && InStep() && Extends(old(journal.events), journal.events, time, true)
                && LastTime(journal.events) == time
                && (HasPartialFill(journal.events) <==> HasPartialFill(old(journal.events)))
                && status in {Cancelled, Expired, Rejected}
                && journal.events == AddAll(old(journal.events), time, Some(decision),
                                            [ReservationReleased(id, old(book.reservations)[id].remaining, status)])
                && book.reservations == old(book.reservations)[id := old(book.reservations)[id].(status := status)]
                && (tracked ==> Aligned() && Quiet(old(replay), replay) && Orderly(old(replay), replay))
    {
      hide Tells, BookOf, Booked, Replayed, Underway, HasPartialFill, Has, Step, Mirrors, Same, SameAnswers, Extends,
           LastTime;
      var released := book.Release(id, status);
      if released.Err? {
        return Err(BookRefused(released.error));
      }
      var item := released.value;
      var event :- Record(time, ReservationReleased(id, item.remaining, item.status), Some(decision));
      BookedChange(old(book.reservations), event, id);
      AddOne(old(journal.events), time, Some(decision), event.payload);
      if tracked {
        ReleaseFollows(ledger, keys, old(replay), event, id, old(book.reservations), approved, rejected, fills);
      }
      r := Ok(event);
    }

    /** The book, the ledger and the counter take a fill. */
    method TakeFill(id: IntentId, fill: SimFill, tradeDate: int) returns (r: Result<OrderReservation, EngineError>)
      requires Core()
      modifies this`history, this`fills, book`reservations
      ensures (Lenient(ledger) && id in old(book.reservations) && old(book.reservations)[id] == Fresh(id)
              && FillsOrder(fill, id)) ==> r.Ok?
      ensures r.Ok? ==>
                && Core() && id in old(book.reservations) && old(book.reservations)[id].status == Active
                && fill.quantity <= old(book.reservations)[id].remaining
                && r.value == AfterFill(old(book.reservations)[id], fill.quantity)
                && book.reservations == old(book.reservations)[id := r.value]
                && history == old(history) + [Applied(fill, tradeDate)] && ledger.accepts(history)
                && fills == old(fills) + 1
    {
      hide Replayed, Underway;
      var updated := book.ApplyFill(id, fill);
      if updated.Err? {
        return Err(BookRefused(updated.error));
      }
      var _ :- Apply(Applied(fill, tradeDate));
      fills := fills + 1;
      r := Ok(updated.value);
    }

    /** A fill, and the two events that report it. */
    method FillOrder(id: IntentId, decision: EventId, fill: SimFill, unfilled: int, tradeDate: int,
                     ghost tracked: bool) returns (r: Result<Event, EngineError>)
      requires Core() && InStep() && fill.Valid() && fill.clientOrder == IntentKey(id) && fill.fillId.intent == id
               && DateOf(fill.time) == tradeDate
      requires id in book.reservations
      requires tracked ==> Aligned() && ApprovedBy(replay.orders, id, decision) && Untouched(replay.orders, id)
      modifies this, journal, book`reservations
      ensures (Lenient(ledger) && old(book.reservations)[id] == Fresh(id) && FillsOrder(fill, id)
              && LastTime(old(journal.events)) <= fill.time) ==> r.Ok?
      ensures r.Ok? ==>
                && Core() && InStep() && Extends(old(journal.events), journal.events, fill.time, true)
                   && LastTime(journal.events) == fill.time
                && (HasPartialFill(journal.events) <==> HasPartialFill(old(journal.events)) || unfilled != 0)
                && fill.quantity <= old(book.reservations)[id].remaining
                && history == old(history) + [Applied(fill, tradeDate)]
                && journal.events == AddAll(old(journal.events), fill.time, Some(decision),
                                            FillReport(id, fill, unfilled, ledger.dueDate(history),
                                                       AfterFill(old(book.reservations)[id], fill.quantity)))
                && book.reservations
                   == old(book.reservations)[id := AfterFill(old(book.reservations)[id], fill.quantity)]
                && (tracked ==> Aligned() && Calm(old(replay), replay) && Orderly(old(replay), replay))
    {
      hide Tells, BookOf, Booked, TellsNext, Replayed, Underway, HasPartialFill, Has, Step, Mirrors, Same, SameAnswers,
           ApprovedBy, Untouched, SimFill.Valid, Extends, LastTime;
      var item :- TakeFill(id, fill, tradeDate);
      var result := if unfilled == 0 then Complete else Partial;
      var reported :- RecordBoth(fill.time, FillReceived(id, result, Some(fill), ledger.dueDate(history)),
                                 ReservationUpdated(id, item.remaining, item.status), Some(decision));
      BookedChange(old(book.reservations), reported.0, id);
      BookedChange(old(book.reservations), reported.1, id);
      FillTells(ledger, keys, old(journal.events), old(history), fill, tradeDate, reported.0);
      if tracked {
        SameAfter(ledger, old(replay).ledger, old(history), Applied(fill, tradeDate));
        FillFollows(ledger, keys, old(replay), reported.0, reported.1, id, decision, fill, old(book.reservations),
                    approved, rejected, old(fills));
      }
      r := Ok(reported.1);
    }

    /** The events that report an order without a fill. */
    method ExpireOrder(id: IntentId, decision: EventId, time: int, ghost tracked: bool)
        returns (r: Result<Event, EngineError>)
      requires Core() && InStep() && id in book.reservations
      requires tracked ==> Aligned() && ApprovedBy(replay.orders, id, decision)
      modifies this`accepted, this`replay, journal, book`reservations
      ensures old(book.reservations)[id].status == Active && LastTime(old(journal.events)) <= time ==> r.Ok?
      ensures r.Ok? ==>
                && Core() && InStep() && Extends(old(journal.events), journal.events, time, true)
                && LastTime(journal.events) == time
                && (HasPartialFill(journal.events) <==> HasPartialFill(old(journal.events)))
                && journal.events == AddAll(old(journal.events), time, Some(decision),
                                            [FillReceived(id, Unfilled, None, 0),
                                             ReservationReleased(id, old(book.reservations)[id].remaining, Expired)])
                && book.reservations == old(book.reservations)[id := old(book.reservations)[id].(status := Expired)]
                && (tracked ==> Aligned() && Quiet(old(replay), replay) && Orderly(old(replay), replay))
    {
      hide Tells, BookOf, Booked, Replayed, Underway, HasPartialFill, Has, Step, Mirrors, Same, SameAnswers,
           ApprovedBy;
      var event :- Record(time, FillReceived(id, Unfilled, None, 0), Some(decision));
      BookedChange(old(book.reservations), event, id);
      AddOne(old(journal.events), time, Some(decision), event.payload);
      AddMore(old(journal.events), time, Some(decision), [event.payload],
              [ReservationReleased(id, book.reservations[id].remaining, Expired)]);
      assert [event.payload] + [ReservationReleased(id, book.reservations[id].remaining, Expired)]
          == [event.payload, ReservationReleased(id, book.reservations[id].remaining, Expired)];
      if tracked {
        UnfilledFollows(ledger, keys, old(replay), event, id, decision);
      }
      r := ReleaseOrder(id, decision, Expired, time, tracked);
    }

    /** What the session's quote makes of a reserved order. */
    method SettleOrder(id: IntentId, decision: EventId, outcome: FillOutcome, time: int, ghost tracked: bool)
        returns (r: Result<bool, EngineError>)
      requires Core() && InStep() && OutcomeFits(outcome, id, time)
      requires id in book.reservations && book.reservations[id] == Fresh(id)
      requires tracked ==> Aligned() && ApprovedBy(replay.orders, id, decision) && Untouched(replay.orders, id)
      modifies this, journal, book`reservations
      ensures Lenient(ledger) && LastTime(old(journal.events)) <= time ==> r.Ok?
      ensures r.Ok? ==>
                && Core() && InStep() && Extends(old(journal.events), journal.events, time, true)
                && LastTime(journal.events) == time
                && (HasPartialFill(journal.events) <==>
                      HasPartialFill(old(journal.events)) || (outcome.fill.Some? && outcome.unfilled != 0))
                && journal.events == AddAll(old(journal.events), time, Some(decision),
                                            Settlement(id, outcome, ledger.dueDate(history),
                                                       config.fills.cancelUnfilled))
                && history == (if outcome.fill.Some?
                               then old(history) + [Applied(outcome.fill.value, DateOf(time))] else old(history))
                && book.reservations
                   == old(book.reservations)[id := SettledAs(id, outcome, config.fills.cancelUnfilled)]
                && (tracked ==> Aligned() && Calm(old(replay), replay) && Orderly(old(replay), replay))
    {
      hide Tells, BookOf, Replayed, Underway, HasPartialFill, Has, Step, Mirrors, Same, SameAnswers, IsPartial,
           ApprovedBy, Untouched, SimFill.Valid, Extends, AddAll, EngineRun.Core, EngineRun.Aligned;
      ghost var start := journal.events;
      if outcome.fill.None? {
        var _ :- ExpireOrder(id, decision, time, tracked);
        return Ok(true);
      }
      var _ :- FillOrder(id, decision, outcome.fill.value, outcome.unfilled, DateOf(time), tracked);
      ghost var filled, item := journal.events, AfterFill(Fresh(id), outcome.fill.value.quantity);
      if outcome.unfilled != 0 && config.fills.cancelUnfilled {
        var _ := ReleaseOrder(id, decision, Cancelled, time, tracked);
        ExtendsTwice(start, filled, journal.events, time, true);
        AddMore(start, time, Some(decision),
                FillReport(id, outcome.fill.value, outcome.unfilled, ledger.dueDate(history), item),
                [ReservationReleased(id, item.remaining, Cancelled)]);
      }
      ghost var report := FillReport(id, outcome.fill.value, outcome.unfilled, ledger.dueDate(history), item);
      assert report + [] == report;
      assert book.reservations == old(book.reservations)[id := SettledAs(id, outcome, config.fills.cancelUnfilled)];
      r := Ok(true);
    }

    /** One planned order, from its risk decision to what the session leaves of it. */
    method ExecuteOrder(planned: Planned, quote: Quote, ghost tracked: bool)
        returns (r: Result<bool, EngineError>, ghost x: Executed)
      requires Core() && InStep() && quote.Valid() && planned.id.quantity > 0 && planned.id !in book.reservations
      requires tracked ==>
                 Aligned() && Plans(replay.orders, planned)
                 && Tidy(config.fills.cancelUnfilled, book.reservations, journal.events)
      modifies this, journal, book
      ensures (Lenient(ledger) && LastTime(old(journal.events)) <= quote.time
              && quote.instrument == planned.id.instrument && planned.id.decidedAt < quote.time
              && Sellable(config.fills, [quote])) ==> r.Ok?
      ensures r.Ok? ==>
                && Core() && InStep() && Extends(old(journal.events), journal.events, quote.time, true)
                   && LastTime(journal.events) == quote.time
                && (!config.fills.allowPartial ==>
                      (HasPartialFill(journal.events) <==> HasPartialFill(old(journal.events))))
                && x.planned == planned
                && IsHonest(config, world, ledger, quote, old(history), old(book.reservations), x)
                && journal.events == EmitOrder(old(journal.events), quote.time, x, config.fills.cancelUnfilled)
                && history == LedgerAfter(old(history), x)
                && book.reservations == BookAfter(old(book.reservations), x, config.fills.cancelUnfilled)
                && (tracked ==>
                      && Aligned() && Calm(old(replay), replay)
                      && replay.orders.risks.Keys == old(replay.orders.risks.Keys) + {planned.id}
                      && Tidy(config.fills.cancelUnfilled, book.reservations, journal.events))
    {
      hide Tells, BookOf, Replayed, Underway, HasPartialFill, Has, Step, Mirrors, Same, SameAnswers, Plans, NoneActive,
           IsPartial, Untouched, Extends, AddAll, Settlement, IsBestPrice, RawPrice, IsOutcome, OutcomeFits, SettledAs,
           Fresh, AfterFill, EngineRun.Core, EngineRun.Aligned;
      var id := planned.id;
      x := Executed(planned, 0.0, false, FillOutcome(None, 0), 0);
      ghost var before := journal.events;
      var price :- Estimate(id.side, quote);
      var event :- DecideRisk(planned, price, quote.time, tracked);
      ghost var decided := journal.events;
      x := Executed(planned, price, event.payload.outcome == Approve, FillOutcome(None, 0), 0);
      AddOne(before, quote.time, Some(planned.event), event.payload);
      if event.payload.outcome == Reject {
        return Ok(false), x;
      }
      var _ := ReserveOrder(id, event.id, quote.time, tracked);
      ghost var reservedEvents := journal.events;
      var outcome := Outcome(id, quote);
      if outcome.Err? {
        return Err(NotSimulated(outcome.error)), x;
      }
      var settled :- SettleOrder(id, event.id, outcome.value, quote.time, tracked);
      ExtendsThrice(before, decided, reservedEvents, journal.events, quote.time, true);
      x := Executed(planned, price, true, outcome.value, ledger.dueDate(history));
      AddMore(decided, quote.time, Some(event.id), [OrderReserved(id, id.quantity, Active)],
              Settlement(id, outcome.value, x.due, config.fills.cancelUnfilled));
      FillTime(outcome.value, id, quote.time);
      assert book.reservations == BookAfter(old(book.reservations), x, config.fills.cancelUnfilled);
      if tracked {
        SettledIsActive(id, outcome.value, config.fills.cancelUnfilled, quote.time);
        NewOrderActive(old(book.reservations), id, book.reservations[id]);
      }
      r := Ok(true);
    }

    method Estimate(side: Side, quote: Quote) returns (r: Result<real, EngineError>)
      requires Core() && quote.Valid()
      ensures r.Ok? <==> side == Buy || RawPrice(config.fills.slippageBps, side, quote.open) >= 0.01
      ensures r.Ok? ==> IsBestPrice(side, RawPrice(config.fills.slippageBps, side, quote.open), r.value)
    {
      var price, _ := EstimatedPrice(config.fills.slippageBps, side, quote.open);
      if price.Err? {
        return Err(NotSimulated(PriceFailed(price.error)));
      }
      r := Ok(price.value);
    }

    method Outcome(id: IntentId, quote: Quote) returns (r: Result<FillOutcome, SimulationError>)
      requires Core() && quote.Valid() && id.quantity > 0
      ensures (quote.instrument == id.instrument && id.decidedAt < quote.time
              && (id.side == Buy || RawPrice(config.fills.slippageBps, id.side, quote.open) >= 0.01)) ==> r.Ok?
      ensures r.Ok? ==> OutcomeFits(r.value, id, quote.time) && IsOutcome(config.fills, config.fees, id, quote, r.value)
      ensures r.Ok? && r.value.fill.Some? && !config.fills.allowPartial ==> r.value.unfilled == 0
    {
      hide IsBestPrice, RawPrice, Gross, Capacity;
      r := Simulate(config.fills, config.fees, id, quote);
    }

    // ---- The stages of a day ----

    /** One target: its event, and the order that would reach it. */
    method DecideTarget(session: Session, target: Target, netAssetValue: real, ghost tracked: bool)
        returns (r: Result<Option<Planned>, EngineError>)
      requires Core() && InStep()
      requires tracked ==> Aligned() && forall id :: id in replay.orders.intents ==>
                 IsEarlier(id, LastTime(journal.events), session.decision, target.instrument)
      modifies this`accepted, this`replay, journal
      ensures (CanSize(session, target) && netAssetValue > 0.0 && world.quantity(history, target.instrument) >= 0
              && LastTime(old(journal.events)) <= session.decision) ==> r.Ok?
      ensures r.Ok? ==>
                && Core() && InStep() && Extends(old(journal.events), journal.events, session.decision, false)
                   && LastTime(journal.events) == session.decision
                && LastTime(old(journal.events)) <= session.decision
                && (HasPartialFill(journal.events) <==> HasPartialFill(old(journal.events)))
                && (r.value.Some? ==> r.value.value.id.quantity > 0 && r.value.value.id.instrument == target.instrument
                                      && r.value.value.id.decidedAt == session.decision)
                && HasSince(|old(journal.events)|, journal.events, session.decision, TargetSet(target.instrument))
                && (r.value.Some? ==> Announced(journal.events, r.value.value))
                && CanSize(session, target)
                && target.instrument in session.decisionPrices && session.decisionPrices[target.instrument] > 0.0
                && IsSized(Some(config.fees), Budget(netAssetValue, target.weight),
                           session.decisionPrices[target.instrument],
                           world.quantity(history, target.instrument), OrderIn(r.value))
                && (tracked ==>
                      && Aligned() && replay.agedTimes == old(replay.agedTimes)
                         && replay.actionIds == old(replay.actionIds)
                      && Plan(old(replay.orders), replay.orders, r.value))
    {
      hide Tells, BookOf, Replayed, Underway, HasPartialFill, Has, HasSince, Step, Mirrors, Same, SameAnswers, IsSized,
           Budget;
      var event :- Record(session.decision, TargetSet(target.instrument), None);
      HasAppended(old(journal.events), event);
      ghost var announced := journal.events;
      if tracked {
        TargetFollows(ledger, keys, old(replay), event);
      }
      if target.instrument !in session.decisionPrices {
        return Err(MissingPrice);
      }
      var sized := Convert(Some(config.fees), target.weight, netAssetValue, session.decisionPrices[target.instrument],
                           world.quantity(history, target.instrument), target.equity);
      if sized.Err? {
        return Err(NotSized(sized.error));
      }
      SizedIsPositive(Some(config.fees), Budget(netAssetValue, target.weight),
                      session.decisionPrices[target.instrument],
                      world.quantity(history, target.instrument), sized.value);
      if sized.value.None? {
        return Ok(None);
      }
      var id := IntentId(target.instrument, session.decision, sized.value.value.0, sized.value.value.1);
      ghost var before := replay;
      var recorded := Record(session.decision, IntentCreated(id, IntentKey(id)), Some(event.id));
      var created := recorded.value;
      HasSinceStays(|old(journal.events)|, announced, journal.events, session.decision, TargetSet(target.instrument));
      assert journal.events[|announced|] == created;
      if tracked {
        IntentFollows(ledger, keys, before, created, book.reservations, approved, rejected, fills);
      }
      r := Ok(Some(Planned(id, created.id)));
    }

    /** The strategy's targets are distinct, and keep the decision contract. */
    method CheckTargets(session: Session, targets: seq<Target>) returns (r: Result<bool, EngineError>)
      ensures r.Ok? <==> Distinct(targets, TargetInstrument) && forall t <- targets :: MeetsContract(session, t)
      ensures r.Ok? ==> forall t <- targets :: Quoted(session.quotes, t.instrument)
      ensures r.Err? ==> r.error in {DuplicateTargets, BadTarget}
    {
      hide Quoted;
      if exists i, j :: 0 <= i < j < |targets| && targets[i].instrument == targets[j].instrument {
        return Err(DuplicateTargets);
      }
      if exists t <- targets :: t.generatedAt != session.decision || !t.ours
                                || forall q <- session.quotes :: q.instrument != t.instrument {
        NotQuoted(session.quotes);
        return Err(BadTarget);
      }
      NotQuoted(session.quotes);
      r := Ok(true);
    }

    /** The decisions of a session, target by target. */
    method Decide(session: Session, ghost tracked: bool) returns (r: Result<seq<Planned>, EngineError>)
      requires Core() && InStep() && session.Valid()
      requires tracked ==> Aligned() && forall id :: id in replay.orders.intents ==>
                 id.decidedAt < LastTime(journal.events)
      modifies this`accepted, this`replay, journal
      ensures (Lenient(ledger) && Solvent(world) && Sizeable(world, session)
              && (world.targets(session) != [] ==> LastTime(old(journal.events)) <= session.decision)) ==> r.Ok?
      ensures r.Ok? ==>
                && Core() && InStep() && Extends(old(journal.events), journal.events, session.decision, false)
                && LastTime(old(journal.events)) <= LastTime(journal.events)
                && (HasPartialFill(journal.events) <==> HasPartialFill(old(journal.events)))
                && Distinct(r.value, PlannedId) && (forall p <- r.value ::
                                                      p.id.quantity > 0 && Quoted(session.quotes, p.id.instrument)
                                                      && p.id.decidedAt == session.decision)
                && (r.value != [] ==> LastTime(old(journal.events)) <= session.decision)
                && Sizeable(world, session)
                && (if world.targets(session) == [] then journal.events == old(journal.events)
                    else LastTime(old(journal.events)) <= session.decision == LastTime(journal.events))
                && Targets(journal.events, session.decision, world.targets(session))
                && PlansExactly(config, world, session, history, r.value)
                && (forall p <- r.value :: Announced(journal.events, p))
                && (tracked ==>
                      && Aligned() && replay.agedTimes == old(replay.agedTimes)
                         && replay.actionIds == old(replay.actionIds)
                      && replay.orders.risks == old(replay.orders.risks)
                      && (forall p <- r.value :: Plans(replay.orders, p))
                      && (forall id :: id in replay.orders.intents ==>
                            id in old(replay.orders.intents)
                                || (id.decidedAt == session.decision && exists p <- r.value :: p.id == id)))
    {
      hide Tells, BookOf, CanSize, MeetsContract, Session.Valid, BelongsToDay, IsEarlier, IsTrade, EndsSession,
           Underway, HasPartialFill, Has, HasSince, Mirrors, Same, SameAnswers, Extends, EngineRun.Core,
           EngineRun.Aligned, TargetsAscend, Sorted, Insert, TargetBefore, Distinct, LastTime, Quoted, Orderable, Known,
           Instrumented, Targets, FollowsAll, FollowsTarget, IsSized, Budget, Announced;
      if ledger.snapshot(history, session.decision).None? {
        return Err(LedgerFailed);
      }
      var netAssetValue := world.netAssetValue(history, session.decision);
      var targets := world.targets(session);
      var checked :- CheckTargets(session, targets);
      var sorted := Sorted(targets, TargetBefore);
      SortedKeeps(targets, TargetBefore, TargetInstrument);
      SortedTargetsAscend(targets);
      var planned: seq<Planned> := [];
      ghost var start, orders := journal.events, replay.orders;
      ExtendsItself(start, session.decision, false);
      NothingPlanned(session.quotes, sorted, orders, LastTime(start), session.decision);
      NothingFollowed(config.fees, world, session, history, sorted);
      ReportsNothing(start, session.decision, sorted, []);
      for i := 0 to |sorted|
        invariant Targets(journal.events, session.decision, sorted[..i])
        invariant if i == 0 then planned == [] && journal.events == start
                  else LastTime(start) <= session.decision == LastTime(journal.events)
        invariant forall j :: 0 <= j < i ==> CanSize(session, sorted[j])
        invariant FollowsAll(config.fees, world, session, history, sorted[..i], planned)
        invariant forall p <- planned :: Announced(journal.events, p)
        invariant tracked ==> replay.orders.risks == old(replay.orders.risks)
        invariant Core() && InStep() && Extends(start, journal.events, session.decision, false)
                  && LastTime(start) <= LastTime(journal.events)
        invariant HasPartialFill(journal.events) <==> HasPartialFill(start)
        invariant Orderable(planned, session.quotes, session.decision, Instrumented(sorted[..i]))
        invariant tracked ==>
                    Aligned() && replay.agedTimes == old(replay.agedTimes) && replay.actionIds == old(replay.actionIds)
        invariant tracked ==>
                    Known(orders, replay.orders, planned, LastTime(journal.events), session.decision,
                          Instrumented(sorted[..i]))
      {
        var t := sorted[i];
        assert t in targets;
        InstrumentedNext(sorted, i);
        ghost var before, known := journal.events, replay.orders;
        if tracked {
          KnownIsEarlier(orders, known, planned, LastTime(before), session.decision, Instrumented(sorted[..i]),
                         t.instrument);
        }
        var plan :- DecideTarget(session, t, netAssetValue, tracked);
        ExtendsTwice(start, before, journal.events, session.decision, false);
        if tracked {
          KnownNext(orders, known, replay.orders, planned, plan, LastTime(before), session.decision,
                    Instrumented(sorted[..i]), t.instrument);
        }
        NotYetPlanned(planned, session.quotes, session.decision, Instrumented(sorted[..i]), t.instrument);
        FollowsNow(config.fees, world, session, history, t, planned, plan);
        FollowsOneMore(config.fees, world, session, history, sorted, i, planned, plan);
        ExtendsPrefix(before, journal.events, session.decision, false);
        TargetsOneMore(before, journal.events, session.decision, sorted, i);
        AnnouncedOneMore(before, journal.events, planned, plan);
        OrderableNext(planned, plan, session.quotes, session.decision, Instrumented(sorted[..i]), t.instrument);
        planned := Added(planned, plan);
      }
      assert sorted[..|sorted|] == sorted;
      ReportsSame(journal.events, session.decision, targets, sorted, [], []);
      FollowsSame(config.fees, world, session, history, targets, sorted, planned);
      PlannedIsSafe(planned, session.quotes, session.decision, Instrumented(sorted[..|sorted|]));
      SameInstrumented(sorted, targets);
      NoneOrBoth(sorted, targets);
      AllCanSize(world, session, sorted);
      if tracked {
        PlannedIsKnown(orders, replay.orders, planned, LastTime(journal.events), session.decision,
                       Instrumented(sorted[..|sorted|]));
      }
      r := Ok(planned);
    }

    /** All planned orders of a session, sells first: the journal gains exactly their events, in that order. */
    method ExecuteOrders(session: Session, planned: seq<Planned>, ghost tracked: bool)
        returns (r: Result<bool, EngineError>, ghost xs: seq<Executed>)
      requires Core() && InStep() && session.Valid() && Distinct(planned, PlannedId)
      requires forall p <- planned ::
                 && p.id.quantity > 0 && Quoted(session.quotes, p.id.instrument) && p.id !in book.reservations
                 && p.id.decidedAt == session.decision
      requires tracked ==> Aligned() && Tidy(config.fills.cancelUnfilled, book.reservations, journal.events)
      requires tracked ==> forall p <- planned :: Plans(replay.orders, p)
      modifies this, journal, book
      ensures (Lenient(ledger) && Sellable(config.fills, session.quotes)
              && (planned != [] ==> LastTime(old(journal.events)) <= session.execution)) ==> r.Ok?
      ensures r.Ok? ==>
                && Core() && InStep() && Extends(old(journal.events), journal.events, session.execution, true)
                && (!config.fills.allowPartial ==>
                      (HasPartialFill(journal.events) <==> HasPartialFill(old(journal.events))))
                && (if planned == [] then journal.events == old(journal.events)
                    else LastTime(journal.events) == session.execution)
                && PlansOf(xs) == Sorted(planned, TradesBefore) && SalesFirst(xs)
                && AreHonest(config, world, ledger, session.quotes, old(history), old(book.reservations), xs)
                && journal.events == EmitOrders(old(journal.events), session.execution, xs,
                                                config.fills.cancelUnfilled)
                && history == LedgerAfterAll(old(history), xs)
                && book.reservations == BookAfterAll(old(book.reservations), xs, config.fills.cancelUnfilled)
                && (forall id :: id in book.reservations ==>
                      id in old(book.reservations) || exists p <- planned :: p.id == id)
                && (tracked ==>
                      && Aligned() && Calm(old(replay), replay)
                         && Tidy(config.fills.cancelUnfilled, book.reservations, journal.events)
                      && (forall id :: id in old(replay.orders.risks) ==> id in replay.orders.risks)
                      && (forall p <- planned :: p.id in replay.orders.risks))
    {
      hide SalesFirst, Sorted, Insert, Distinct, LastTime, Tells, BookOf, Lenient, Sellable, IsTrade, EndsSession,
           TradesBefore, Underway, HasPartialFill, Has, Mirrors, Same, SameAnswers, Plans, NoneActive, Extends, Tidy,
           EngineRun.Core, EngineRun.Aligned, IsHonest, EmitOrder, LedgerAfter, BookAfter, AreHonest, Quoted,
           EmitOrders, LedgerAfterAll, BookAfterAll, PlansOf;
      var orders := Sorted(planned, TradesBefore);
      SortedKeeps(planned, TradesBefore, PlannedId);
      ghost var start, history0, book0 := journal.events, history, book.reservations;
      ghost var cancel := config.fills.cancelUnfilled;
      xs := [];
      ExtendsItself(start, session.execution, true);
      NothingExecuted(config, world, ledger, session.quotes, history0, book0, start, session.execution);
      for i := 0 to |orders|
        invariant Core() && InStep() && Extends(start, journal.events, session.execution, true)
        invariant if i == 0 then journal.events == start else LastTime(journal.events) == session.execution
        invariant !config.fills.allowPartial ==> (HasPartialFill(journal.events) <==> HasPartialFill(start))
        invariant tracked ==> Aligned() && Calm(old(replay), replay) && Tidy(cancel, book.reservations, journal.events)
        invariant tracked ==> forall j :: i <= j < |orders| ==> Plans(replay.orders, orders[j])
        invariant tracked ==> forall id :: id in old(replay.orders.risks) ==> id in replay.orders.risks
        invariant tracked ==> forall j :: 0 <= j < i ==> orders[j].id in replay.orders.risks
        invariant PlansOf(xs) == orders[..i] && AreHonest(config, world, ledger, session.quotes, history0, book0, xs)
        invariant journal.events == EmitOrders(start, session.execution, xs, cancel)
        invariant history == LedgerAfterAll(history0, xs) && book.reservations == BookAfterAll(book0, xs, cancel)
        invariant forall id :: id in book.reservations ==>
                    id in book0 || exists j :: 0 <= j < i && orders[j].id == id
      {
        var p := orders[i];
        assert p in planned;
        var quote := QuoteOf(session.quotes, p.id.instrument);
        ghost var before, orders0 := journal.events, replay.orders;
        NotYetBooked(book0, book.reservations, orders, i);
        ghost var booked := book.reservations;
        SellableOne(config.fills, session.quotes, quote);
        var done, x := ExecuteOrder(p, quote, tracked);
        if done.Err? {
          return Err(done.error), xs;
        }
        ExtendsTwice(start, before, journal.events, session.execution, true);
        OneMoreOrder(start, history0, book0, session.execution, xs, x, cancel);
        OneMoreHonest(config, world, ledger, session.quotes, history0, book0, xs, x);
        assert orders[..i + 1] == orders[..i] + [p];
        BookedOneMore(booked, x, cancel);
        if tracked {
          forall j | i < j < |orders|
            ensures Plans(replay.orders, orders[j])
          {
            assert PlannedId(orders[i]) != PlannedId(orders[j]);
            StillPlanned(orders0, replay.orders, p.id, orders[j]);
          }
        }
        xs := xs + [x];
      }
      assert orders[..|orders|] == orders;
      NoneOrBoth(orders, planned);
      SellsTradeFirst(planned, xs);
      forall p | tracked && p in planned
        ensures p.id in replay.orders.risks
      {
        var j :| 0 <= j < |orders| && orders[j] == p;
      }
      r := Ok(true);
    }

    /** One corporate action. */
    method ApplyAction(a: Action, time: int, ghost tracked: bool) returns (r: Result<Event, EngineError>)
      requires Core() && InStep() && a.version != ""
      requires tracked ==> Aligned() && a.id !in replay.actionIds
      modifies this`history, this`accepted, this`replay, journal
      ensures Lenient(ledger) && LastTime(old(journal.events)) <= time ==> r.Ok?
      ensures r.Ok? ==>
                && Core() && InStep() && Extends(old(journal.events), journal.events, time, false)
                && LastTime(journal.events) == time
                && (HasPartialFill(journal.events) <==> HasPartialFill(old(journal.events)))
                && r.value.payload.ActionApplied? && r.value.payload.action == a
                   && HasSince(|old(journal.events)|, journal.events, time, r.value.payload)
                && (tracked ==>
                      && Aligned() && replay.orders == old(replay.orders) && replay.agedTimes == old(replay.agedTimes)
                      && replay.actionIds == old(replay.actionIds) + {a.id})
    {
      hide Tells, BookOf, Replayed, Underway, HasPartialFill, Has, HasSince, Step, Mirrors, Same, SameAnswers;
      var _ :- Apply(Acted(a, time));
      var event :- Record(time, ActionApplied(a, ledger.actionResult(history)), None);
      HasAppended(old(journal.events), event);
      OneCallTells(ledger, keys, old(journal.events), old(history), Acted(a, time), event);
      if tracked {
        SameAfter(ledger, old(replay).ledger, old(history), Acted(a, time));
        ActionFollows(ledger, keys, old(replay), event);
      }
      r := Ok(event);
    }

    /** The settlements of a day. */
    method ProcessSettlements(date: int, time: int, ghost tracked: bool) returns (r: Result<Event, EngineError>)
      requires Core() && InStep()
      requires tracked ==> Aligned()
      modifies this`history, this`accepted, this`replay, journal
      ensures Lenient(ledger) && LastTime(old(journal.events)) <= time ==> r.Ok?
      ensures r.Ok? ==>
                && Core() && InStep() && Extends(old(journal.events), journal.events, time, false)
                && LastTime(journal.events) == time
                && LastTime(old(journal.events)) <= time
                && (HasPartialFill(journal.events) <==> HasPartialFill(old(journal.events)))
                && journal.events == old(journal.events) + [r.value]
                && r.value.payload.SettlementProcessed? && r.value.payload.date == date
                   && Has(journal.events, time, r.value.payload)
                && (tracked ==> Aligned() && Quietly(old(replay), replay))
    {
      hide Tells, BookOf, Replayed, Underway, HasPartialFill, Has, Step, Mirrors, Same, SameAnswers;
      var _ :- Apply(Settled(date, time));
      var event :- Record(time, SettlementProcessed(date, ledger.settlements(history)), None);
      OneCallTells(ledger, keys, old(journal.events), old(history), Settled(date, time), event);
      if tracked {
        SameAfter(ledger, old(replay).ledger, old(history), Settled(date, time));
        SettlementFollows(ledger, keys, old(replay), event);
      }
      r := Ok(event);
    }

    /** A day's settlements, then its corporate actions. */
    method AccountDay(date: int, today: seq<Action>, ghost tracked: bool) returns (r: Result<bool, EngineError>)
      requires Core() && InStep() && Distinct(today, ActionId) && forall a <- today :: a.version != ""
      requires tracked ==> Aligned() && forall a <- today :: a.id !in replay.actionIds
      modifies this`history, this`accepted, this`replay, journal
      ensures Lenient(ledger) && LastTime(old(journal.events)) <= AccountingTime(date) ==> r.Ok?
      ensures r.Ok? ==>
                && Core() && InStep() && Extends(old(journal.events), journal.events, AccountingTime(date), false)
                   && LastTime(journal.events) == AccountingTime(date)
                && LastTime(old(journal.events)) <= AccountingTime(date) && Accounted(journal.events, date, today)
                && |old(journal.events)| < |journal.events|
                && journal.events[|old(journal.events)|].payload.SettlementProcessed?
                && (HasPartialFill(journal.events) <==> HasPartialFill(old(journal.events)))
                && (tracked ==>
                      && Aligned() && replay.orders == old(replay.orders) && replay.agedTimes == old(replay.agedTimes)
                      && replay.actionIds == old(replay.actionIds) + ActionIds(today))
    {
      hide Tells, BookOf, Underway, HasPartialFill, Has, HasSince, Extends, EngineRun.Core, EngineRun.Aligned,
           ActionIds, ActionsAscend, Accounted;
      var time := date * MINUTES_A_DAY + 510;
      ghost var start, known := journal.events, replay.actionIds;
      var actions := Sorted(today, ActionBefore);
      SortedKeeps(today, ActionBefore, ActionId);
      SortedActionsAscend(today);
      NoActionIds(actions);
      var settled :- ProcessSettlements(date, time, tracked);
      NothingApplied(journal.events, date, settled.payload.processed, actions);
      for i := 0 to |actions|
        invariant Accounted(journal.events, date, actions[..i])
        invariant |start| < |journal.events| && journal.events[|start|].payload.SettlementProcessed?
        invariant Core() && InStep() && Extends(start, journal.events, time, false) && LastTime(journal.events) == time
        invariant HasPartialFill(journal.events) <==> HasPartialFill(start)
        invariant tracked ==>
                    Aligned() && replay.orders == old(replay.orders) && replay.agedTimes == old(replay.agedTimes)
        invariant tracked ==> replay.actionIds == known + ActionIds(actions[..i])
      {
        var a := actions[i];
        assert a in today;
        ActionIdsNext(actions, i);
        ghost var before := journal.events;
        var event :- ApplyAction(a, time, tracked);
        ExtendsTwice(start, before, journal.events, time, false);
        ExtendsPrefix(before, journal.events, time, false);
        AccountedOneMore(before, journal.events, date, actions, i, event.payload.effect);
      }
      assert actions[..|actions|] == actions;
      AccountedSame(journal.events, date, today, actions);
      SameActionIds(actions, today);
      r := Ok(true);
    }

    /** One opening mark. */
    method OpenQuote(q: Quote, time: int, ghost tracked: bool) returns (r: Result<Event, EngineError>)
      requires Core() && InStep()
      requires tracked ==> Aligned()
      modifies this`history, this`accepted, this`replay, journal
      ensures Lenient(ledger) && LastTime(old(journal.events)) <= time ==> r.Ok?
      ensures r.Ok? ==>
                && Core() && InStep() && Extends(old(journal.events), journal.events, time, false)
                && LastTime(journal.events) == time
                && LastTime(old(journal.events)) <= time
                && (HasPartialFill(journal.events) <==> HasPartialFill(old(journal.events)))
                && HasSince(|old(journal.events)|, journal.events, time, MarketOpened(q.instrument, q.open))
                && (tracked ==> Aligned() && Quietly(old(replay), replay))
    {
      hide Tells, BookOf, Replayed, Underway, HasPartialFill, Has, HasSince, Step, Mirrors, Same, SameAnswers;
      var _ :- Apply(Marked(q.instrument, q.open, time, true));
      var event :- Record(time, MarketOpened(q.instrument, q.open), None);
      HasAppended(old(journal.events), event);
      OneCallTells(ledger, keys, old(journal.events), old(history), Marked(q.instrument, q.open, time, true), event);
      if tracked {
        SameAfter(ledger, old(replay).ledger, old(history), Marked(q.instrument, q.open, time, true));
        OpenFollows(ledger, keys, old(replay), event);
      }
      r := Ok(event);
    }

    /** The session's opening marks. */
    method OpenMarket(session: Session, ghost tracked: bool) returns (r: Result<bool, EngineError>)
      requires Core() && InStep() && session.Valid()
      requires tracked ==> Aligned()
      modifies this`history, this`accepted, this`replay, journal
      ensures Lenient(ledger) ==>
                (session.quotes != [] ==> LastTime(old(journal.events)) <= session.execution) ==> r.Ok?
      ensures r.Ok? ==>
                && Core() && InStep() && Extends(old(journal.events), journal.events, session.execution, false)
                && (if session.quotes == [] then journal.events == old(journal.events)
                    else LastTime(old(journal.events)) <= session.execution == LastTime(journal.events))
                && Opens(journal.events, session.execution, session.quotes)
                && (HasPartialFill(journal.events) <==> HasPartialFill(old(journal.events)))
                && (tracked ==> Aligned() && Quietly(old(replay), replay))
    {
      hide Tells, BookOf, Replayed, Underway, HasPartialFill, Has, HasSince, Step, Mirrors, Same, SameAnswers, Opens,
           Targets, Closes, QuotesAscend, Extends, LastTime, EngineRun.Core, EngineRun.Aligned;
      var quotes := Sorted(session.quotes, QuoteBefore);
      SortedKeeps(session.quotes, QuoteBefore, InstrumentOf);
      SortedQuotesAscend(session.quotes);
      ghost var start := journal.events;
      ExtendsItself(start, session.execution, false);
      ReportsNothing(start, session.execution, [], quotes);
      for i := 0 to |quotes|
        invariant Opens(journal.events, session.execution, quotes[..i])
        invariant Core() && InStep() && Extends(old(journal.events), journal.events, session.execution, false)
        invariant i > 0 ==> LastTime(start) <= session.execution == LastTime(journal.events)
        invariant i == 0 ==> journal.events == start
        invariant HasPartialFill(journal.events) <==> HasPartialFill(old(journal.events))
        invariant tracked ==> Aligned() && Quietly(old(replay), replay)
      {
        var q := quotes[i];
        ghost var before := journal.events;
        var event :- OpenQuote(q, session.execution, tracked);
        ExtendsTwice(start, before, journal.events, session.execution, false);
        ExtendsPrefix(before, journal.events, session.execution, false);
        OpensOneMore(before, journal.events, session.execution, quotes, i);
      }
      assert quotes[..|quotes|] == quotes;
      ReportsSame(journal.events, session.execution, [], [], session.quotes, quotes);
      NoneOrBoth(quotes, session.quotes);
      if ledger.snapshot(history, session.execution).None? {
        return Err(LedgerFailed);
      }
      r := Ok(true);
    }

    /** The ledger has aged its positions for a close that replay has not seen yet. */
    ghost predicate HasAged(time: int)
      reads this, book
    {
      && accepted && Mirrors(replay.orders, book.reservations, approved, rejected, fills)
      && time !in replay.agedTimes && ledger.accepts(history)
         && Same(ledger, replay.ledger + [Aged(keys(time))], history)
    }

    /** One closing mark. */
    method CloseQuote(q: Quote, time: int, ghost tracked: bool) returns (r: Result<Event, EngineError>)
      requires Core() && AtClose(ledger, keys, journal.events, history, time) && Balanced()
      requires tracked ==> HasAged(time) || (Aligned() && time in replay.agedTimes)
      modifies this`history, this`accepted, this`replay, journal
      ensures Lenient(ledger) && LastTime(old(journal.events)) <= time ==> r.Ok?
      ensures r.Ok? ==>
                && Core() && InStep() && AtClose(ledger, keys, journal.events, history, time)
                && journal.events == old(journal.events) + [r.value]
                && r.value.time == time && r.value.payload == MarketClosed(q.instrument, q.close)
                && LastTime(old(journal.events)) <= time
                && (HasPartialFill(journal.events) <==> HasPartialFill(old(journal.events)))
                && (tracked ==>
                      && Aligned() && replay.orders == old(replay.orders) && replay.actionIds == old(replay.actionIds)
                      && replay.agedTimes == old(replay.agedTimes) + {time})
    {
      hide Replayed, Underway, HasPartialFill, Has, Step, Mirrors, Same, SameAnswers, Tells, TellsNext, AtClose,
           BookOf;
      var _ :- Apply(Marked(q.instrument, q.close, time, false));
      var event :- Record(time, MarketClosed(q.instrument, q.close), None);
      CloseTells(ledger, keys, old(journal.events), old(history), event);
      StillAtClose(ledger, keys, old(journal.events), history, event);
      if tracked {
        ghost var aged := if time in old(replay).agedTimes then old(replay).ledger
            else old(replay).ledger + [Aged(keys(time))];
        SameNow(ledger, aged, old(history), time);
        SameAfter(ledger, aged, old(history), Marked(q.instrument, q.close, time, false));
        CloseFollows(ledger, keys, old(replay), event, aged);
      }
      r := Ok(event);
    }

    /** The closing snapshot and its reconciliation. */
    method Report(time: int, ghost tracked: bool) returns (r: Result<bool, EngineError>)
      requires Core() && AtClose(ledger, keys, journal.events, history, time) && Balanced()
      requires CloseKeys(journal.events, time) == {} ==> keys(time) == {}
      requires tracked ==> Aligned()
      modifies this`accepted, this`replay, journal
      ensures Lenient(ledger) && LastTime(old(journal.events)) <= time ==> r.Ok?
      ensures r.Ok? ==>
                && Core() && InStep() && Reports(old(journal.events), journal.events, time)
                && LastTime(journal.events) == time
                && LastTime(old(journal.events)) <= time
                && (HasPartialFill(journal.events) <==> HasPartialFill(old(journal.events)))
                && HasReport(journal.events, time) && ledger.snapshot(history, time).Some?
                && (tracked ==> Aligned() && Quietly(old(replay), replay))
                && (old(accepted) && ledger.snapshot(history, time) != ledger.snapshot(old(replay.ledger), time) ==>
                      !accepted)
    {
      hide Replayed, Underway, HasPartialFill, Has, HasSince, Precedes, Step, Mirrors, Same, SameAnswers, Tells,
           TellsNext, AtClose, BookOf;
      var shown := ledger.snapshot(history, time);
      if shown.None? {
        return Err(LedgerFailed);
      }
      var first :- Record(time, Snapshotted(shown.value, ledger.checksum(history)), None);
      ghost var middle, reported := replay, journal.events;
      ReportTells(ledger, keys, old(journal.events), history, first);
      if tracked {
        SameNow(ledger, old(replay).ledger, history, time);
        SnapshotFollows(ledger, keys, old(replay), first);
      }
      if old(accepted) && ledger.snapshot(history, time) != ledger.snapshot(old(replay.ledger), time) {
        SnapshotRefused(ledger, keys, old(replay), first);
      }
      var restated := Record(time, Reconciled(shown.value, ledger.checksum(history)), None);
      var second := restated.value;
      HasAppended(old(journal.events), first);
      HasAppended(reported, second);
      PrecedesNext(reported, journal.events, time, first.payload, second.payload);
      RestatementTells(ledger, keys, reported, history, second);
      if tracked {
        SnapshotFollows(ledger, keys, middle, second);
      }
      r := Ok(true);
    }

    method AgePositions(session: Session, ghost tracked: bool) returns (r: Result<bool, EngineError>)
      requires Core() && InStep() && keys(session.close) == Instruments(session.quotes)
      requires CloseKeys(journal.events, session.close) == {}
      requires tracked ==> Aligned() && session.close !in replay.agedTimes
      modifies this`history
      ensures Lenient(ledger) ==> r.Ok?
      ensures r.Ok? ==>
                && Core() && AtClose(ledger, keys, journal.events, history, session.close) && Balanced()
                && (tracked ==> HasAged(session.close))
                && history == old(history) + [Aged(Instruments(session.quotes))]
    {
      hide Mirrors, Same, SameAnswers, Underway, Replayed, CloseKeys;
      var _ :- Apply(Aged(Instruments(session.quotes)));
      if tracked {
        SameAfter(ledger, replay.ledger, old(history), Aged(Instruments(session.quotes)));
      }
      r := Ok(true);
    }

    /** The session's closing marks, after ageing the positions it does not quote. */
    method CloseMarket(session: Session, ghost tracked: bool) returns (r: Result<bool, EngineError>)
      requires Core() && InStep() && session.Valid() && keys(session.close) == Instruments(session.quotes)
      requires tracked ==> Aligned() && session.close !in replay.agedTimes
      requires ClosesMatch(journal.events, keys) && forall e <- journal.events :: EndsSession(e.payload) ==>
                 e.time < session.close
      modifies this`history, this`accepted, this`replay, journal
      ensures Lenient(ledger) && LastTime(old(journal.events)) <= session.close ==> r.Ok?
      ensures r.Ok? ==>
                && Core() && InStep() && old(journal.events) <= journal.events
                && LastTime(old(journal.events)) <= session.close == LastTime(journal.events)
                && (HasPartialFill(journal.events) <==> HasPartialFill(old(journal.events)))
                && ClosesMatch(journal.events, keys)
                && Closes(journal.events, session.close, session.quotes) && HasReport(journal.events, session.close)
                && (forall e <- journal.events :: EndsSession(e.payload) ==>
                      e in old(journal.events) || e.time == session.close)
                && (forall i :: |old(journal.events)| <= i < |journal.events| ==>
                      journal.events[i].time == session.close && !IsTrade(journal.events[i].payload))
                && (session.quotes == [] ==> Closing(keys, journal.events, session.close) == old(history))
                && (tracked && KeepsUp(ledger, session.quotes, old(history)) ==>
                      && Aligned() && replay.orders == old(replay.orders) && replay.actionIds == old(replay.actionIds)
                      && replay.agedTimes <= old(replay.agedTimes) + {session.close})
                && (tracked && !KeepsUp(ledger, session.quotes, old(history)) && AgesHoldings(ledger) ==> !accepted)
    {
      hide QuotesAscend, Sorted, Insert, QuoteBefore, Distinct, Underway, HasPartialFill, Has, HasSince, ClosesMatch,
           CloseKeys, ClosesSince, Instruments, Opens, Targets, Closes,
           HasReport, Closing, Tells, AtClose, EndsSession, AgesHoldings, EngineRun.Core, EngineRun.Aligned,
           EngineRun.HasAged;
      ghost var start := journal.events;
      if tracked {
        AlignedIsSame(this);
      }
      var quotes := Sorted(session.quotes, QuoteBefore);
      SortedKeeps(session.quotes, QuoteBefore, InstrumentOf);
      SortedQuotesAscend(session.quotes);
      NoCloseYet(start, session.close);
      var _ :- AgePositions(session, tracked);
      ReportsNothing(start, session.close, [], quotes);
      for i := 0 to |quotes|
        invariant Closes(journal.events, session.close, quotes[..i])
        invariant Core() && AtClose(ledger, keys, journal.events, history, session.close) && Balanced()
        invariant i > 0 ==> InStep()
        invariant i == 0 ==> journal.events == start
        invariant ClosesSince(start, journal.events, session.close, Instruments(quotes[..i]))
        invariant i > 0 ==> LastTime(start) <= session.close == LastTime(journal.events)
        invariant HasPartialFill(journal.events) <==> HasPartialFill(start)
        invariant tracked && i == 0 ==> HasAged(session.close) && replay == old(replay)
        invariant i == 0 ==>
                    history == old(history) + [Aged(Instruments(session.quotes))] && accepted == old(accepted)
                    && replay == old(replay)
        invariant tracked && i > 0 ==>
                    && Aligned() && replay.orders == old(replay.orders) && replay.actionIds == old(replay.actionIds)
                    && replay.agedTimes == old(replay.agedTimes) + {session.close}
      {
        ghost var before := journal.events;
        var event :- CloseQuote(quotes[i], session.close, tracked);
        HasAppended(before, event);
        ClosesOneMore(before, journal.events, session.close, quotes, i);
        ClosesSinceNext(start, before, event, session.close, quotes, i);
      }
      assert quotes[..|quotes|] == quotes;
      SameInstruments(quotes, session.quotes);
      ghost var closed := journal.events;
      SessionCloses(start, closed, session.close, keys);
      if tracked && quotes == [] && AgesHoldings(ledger) {
        QuotelessClose(this, old(replay).ledger, old(history), session.close);
      }
      var reported :- Report(session.close, tracked && KeepsUp(ledger, session.quotes, old(history)));
      ReportEnds(closed, journal.events, session.close, keys);
      if session.quotes == [] {
        ClosingIs(ledger, keys, start, journal.events, session.close, old(history));
      }
      ReportsStay(closed, journal.events, session.close, [], quotes);
      ReportsSame(journal.events, session.close, [], [], session.quotes, quotes);
      r := Ok(true);
    }

    /** Replay has followed, every planned order was decided on, and only uncancelled remainders are still open. */
    ghost predicate Rested()
      reads this, journal, book
    {
      && Aligned() && Tidy(config.fills.cancelUnfilled, book.reservations, journal.events) && AllDecided(replay.orders)
      && forall id :: id in replay.orders.intents ==> id.decidedAt < LastTime(journal.events)
    }

    /** Where the run stands before a calendar date. */
    ghost predicate Before(date: int, tracked: bool)
      reads this, journal, book
    {
      && Core() && InStep() && ClosesMatch(journal.events, keys)
      && (forall id :: id in book.reservations ==> id.decidedAt < LastTime(journal.events))
      && (!config.fills.allowPartial ==> !HasPartialFill(journal.events))
      && BelongsBefore(journal.events, date)
      && (tracked ==> Rested() && forall a :: a in replay.agedTimes ==> DateOf(a) < date)
    }

    /** A date without a session. */
    method RunHoliday(date: int, today: seq<Action>, ghost tracked: bool) returns (r: Result<bool, EngineError>)
      requires Before(date, tracked) && Distinct(today, ActionId) && forall a <- today :: a.version != ""
      requires tracked ==> forall a <- today :: a.id !in replay.actionIds
      modifies this, journal, book
      ensures Lenient(ledger) && LastTime(old(journal.events)) <= AccountingTime(date) ==> r.Ok?
      ensures r.Ok? ==>
                && Before(date + 1, tracked) && old(journal.events) <= journal.events
                   && Accounted(journal.events, date, today)
                && NoTrades(old(journal.events), journal.events)
                && LastTime(old(journal.events)) <= AccountingTime(date) == LastTime(journal.events)
                && (tracked ==> replay.actionIds == old(replay.actionIds) + ActionIds(today))
    {
      hide BelongsBefore, EndsSession, IsTrade, Tells, BookOf, LastTime, Underway, HasPartialFill, Has, Mirrors, Same,
           SameAnswers, NoneActive, ClosesMatch, EngineRun.Core, EngineRun.Aligned;
      ghost var start := journal.events;
      var accounted :- AccountDay(date, today, tracked);
      ClosesStillMatch(start, journal.events, AccountingTime(date), false, keys);
      BelongsLater(start, date, date + 1);
      BelongsAfter(start, journal.events, date + 1, AccountingTime(date));
      r := Ok(true);
    }

    /** A session up to its opening marks: decisions and accounting. */
    method OpenSession(session: Session, today: seq<Action>, ghost tracked: bool)
        returns (r: Result<seq<Planned>, EngineError>, ghost decided: seq<Event>, ghost settled: seq<Event>)
      requires Core() && InStep() && session.Valid()
      requires Distinct(today, ActionId) && forall a <- today :: a.version != ""
      requires tracked ==> Rested() && forall a <- today :: a.id !in replay.actionIds
      modifies this`history, this`accepted, this`replay, journal
      ensures (Lenient(ledger) && Solvent(world) && Sizeable(world, session)
              && InTime(world, session, LastTime(old(journal.events)))) ==> r.Ok?
      ensures r.Ok? ==>
                && Core() && InStep()
                && OpenedAs(config, world, keys, session, today, old(journal.events), decided, settled,
                            journal.events, r.value)
                && Distinct(r.value, PlannedId) && (forall p <- r.value ::
                                                      p.id.quantity > 0 && Quoted(session.quotes, p.id.instrument)
                                                      && p.id.decidedAt == session.decision)
                && (r.value != [] ==> LastTime(old(journal.events)) <= session.decision && session.quotes != [])
                && Sizeable(world, session) && StartsInTime(world, session, LastTime(old(journal.events)))
                && LastTime(journal.events) == TradingStart(session)
                && (HasPartialFill(journal.events) <==> HasPartialFill(old(journal.events)))
                && (tracked ==>
                      && Aligned() && replay.agedTimes == old(replay.agedTimes)
                         && replay.actionIds == old(replay.actionIds) + ActionIds(today)
                      && replay.orders.risks == old(replay.orders.risks)
                      && (forall p <- r.value :: Plans(replay.orders, p))
                      && (forall id :: id in replay.orders.intents ==>
                            id in old(replay.orders.intents)
                                || (id.decidedAt == session.decision && exists p <- r.value :: p.id == id)))
    {
      hide Tells, BookOf, Session.Valid, Distinct, DateOf, Lenient, Solvent, Sizeable, AccountingTime, Underway,
           HasPartialFill, Has, Mirrors, Same, SameAnswers, NoneActive, Tidy, AllDecided, Extends, PlansExactly,
           Announced, EndsSession, IsTrade, Calls, Truthful, Plans, Quoted, LastTime, Targets, Opens, Accounted,
           ActionIds, EngineRun.Core, EngineRun.Aligned;
      EveningBefore(session);
      decided, settled := [], [];
      var planned := Decide(session, tracked);
      if planned.Err? {
        return planned, decided, settled;
      }
      decided := journal.events;
      PlansNeedQuotes(planned.value, session.quotes);
      TellsTruth(ledger, keys, decided, history);
      var accounted := AccountDay(session.tradeDate, today, tracked);
      if accounted.Err? {
        return Err(accounted.error), decided, settled;
      }
      settled := journal.events;
      var started := OpenMarket(session, tracked);
      if started.Err? {
        return Err(started.error), decided, settled;
      }
      r := planned;
    }

    /** A session up to its last order: decisions, accounting, opening marks and orders. */
    method TradeSession(session: Session, today: seq<Action>, ghost tracked: bool)
        returns (r: Result<bool, EngineError>)
      requires Core() && InStep() && session.Valid() && ClosesMatch(journal.events, keys)
      requires BelongsBefore(journal.events, session.tradeDate)
      requires forall id :: id in book.reservations ==> id.decidedAt < LastTime(journal.events)
      requires Distinct(today, ActionId) && forall a <- today :: a.version != ""
      requires tracked ==> Rested() && forall a <- today :: a.id !in replay.actionIds
      modifies this, journal, book
      ensures (Lenient(ledger) && Solvent(world) && Sizeable(world, session) && Sellable(config.fills, session.quotes)
              && InTime(world, session, LastTime(old(journal.events)))) ==> r.Ok?
      ensures r.Ok? ==>
                && Core() && InStep() && old(journal.events) <= journal.events && ClosesMatch(journal.events, keys)
                && (forall e <- journal.events :: EndsSession(e.payload) ==> e in old(journal.events))
                && Targets(journal.events, session.decision, world.targets(session))
                   && Opens(journal.events, session.execution, session.quotes)
                && Accounted(journal.events, session.tradeDate, today)
                && Traded(config, world, ledger, keys, journal.events, session)
                && BelongsBefore(journal.events, session.tradeDate + 1)
                && TradesOnly(old(journal.events), journal.events, session.tradeDate)
                && Sizeable(world, session) && StartsInTime(world, session, LastTime(old(journal.events)))
                && LastTime(journal.events) == TradingStart(session)
                && (forall id :: id in book.reservations ==>
                      id in old(book.reservations) || id.decidedAt == session.decision)
                && (!config.fills.allowPartial ==>
                      (HasPartialFill(journal.events) <==> HasPartialFill(old(journal.events))))
                && (tracked ==>
                      && Aligned() && Tidy(config.fills.cancelUnfilled, book.reservations, journal.events)
                         && AllDecided(replay.orders)
                      && replay.agedTimes == old(replay.agedTimes)
                         && replay.actionIds == old(replay.actionIds) + ActionIds(today)
                      && forall id :: id in replay.orders.intents ==>
                           id in old(replay.orders.intents) || id.decidedAt == session.decision)
    {
      hide Tells, BookOf, Session.Valid, Distinct, DateOf, Lenient, Solvent, Sizeable, Sellable, AccountingTime,
           Underway, HasPartialFill, Has, Mirrors, Same, SameAnswers, NoneActive, ClosesMatch, Extends, Traded,
           TradesOnly, BelongsBefore, OpenedAs, EndsSession, IsTrade, Calls, Truthful, Plans, Quoted, LastTime,
           Targets, Opens, Accounted, ActionIds, AllDecided, AreHonest, EmitOrders, LedgerAfterAll, BookAfterAll,
           PlansOf, Tidy, EngineRun.Core, EngineRun.Aligned;
      ghost var start, orders0 := journal.events, replay.orders;
      var plan, decided, settled := OpenSession(session, today, tracked);
      if plan.Err? {
        return Err(plan.error);
      }
      ghost var marked, planning := journal.events, replay.orders;
      TellsTruth(ledger, keys, marked, history);
      TidyStill(config.fills.cancelUnfilled, book.reservations, start, marked);
      var executed, xs := ExecuteOrders(session, plan.value, tracked);
      if executed.Err? {
        return Err(executed.error);
      }
      TradesFollow(config, world, ledger, keys, session, today, start, decided, settled, marked, journal.events,
                   plan.value, xs);
      if tracked {
        AllAreDecided(orders0, planning, replay.orders, plan.value);
      }
      r := Ok(true);
    }

    /** A date with a session: decisions, accounting, opening marks, orders, closing marks. */
    method RunSession(session: Session, today: seq<Action>, ghost tracked: bool)
        returns (r: Result<bool, EngineError>)
      requires session.Valid() && keys(session.close) == Instruments(session.quotes)
      requires Before(session.tradeDate, tracked) && Distinct(today, ActionId) && forall a <- today :: a.version != ""
      requires tracked ==> forall a <- today :: a.id !in replay.actionIds
      modifies this, journal, book
      ensures (Lenient(ledger) && Solvent(world) && Sizeable(world, session) && Sellable(config.fills, session.quotes)
              && InTime(world, session, LastTime(old(journal.events)))) ==> r.Ok?
      ensures r.Ok? ==>
                var keepsUp := KeepsUp(ledger, session.quotes, Closing(keys, journal.events, session.close));
                && Before(session.tradeDate + 1, tracked && keepsUp) && old(journal.events) <= journal.events
                && Reported(journal.events, world.targets(session), session)
                   && Accounted(journal.events, session.tradeDate, today)
                && Traded(config, world, ledger, keys, journal.events, session)
                && TradesOnly(old(journal.events), journal.events, session.tradeDate)
                && LastTime(journal.events) == session.close
                && Sizeable(world, session) && InTime(world, session, LastTime(old(journal.events)))
                && (tracked && keepsUp ==> replay.actionIds == old(replay.actionIds) + ActionIds(today))
                && (tracked && !keepsUp && AgesHoldings(ledger) ==> !accepted)
    {
      hide Underway, HasPartialFill, Has, Mirrors, Same, SameAnswers, NoneActive, ClosesMatch, Instruments, Tells,
           AgesHoldings, Targets, Opens, Closes, Closing, EndsSession, BookOf, Traded, BelongsBefore, IsTrade,
           HasReport, Accounted, ActionIds, AllDecided, EngineRun.Core, EngineRun.Aligned;
      ghost var start := journal.events;
      HasStarted(this);
      var done :- TradeSession(session, today, tracked);
      ghost var traded := journal.events;
      ClosesBelong(start, session.tradeDate);
      ClosesAreBefore(traded, session);
      var closed :- CloseMarket(session, tracked);
      BelongsAfter(traded, journal.events, session.tradeDate + 1, session.close);
      TimePasses(start, this);
      TradedStays(config, world, ledger, keys, traded, journal.events, session);
      ReportsStay(traded, journal.events, session.decision, world.targets(session), []);
      ReportsStay(traded, journal.events, session.execution, [], session.quotes);
      AccountedStays(traded, journal.events, session.tradeDate, today);
      r := Ok(true);
    }

    /** The completion event, after which the journal is the result. */
    method CompleteRun(date: int, ghost reached: int, ghost tracked: bool) returns (r: Result<seq<Event>, EngineError>)
      requires Before(reached, tracked)
      modifies journal
      ensures Lenient(ledger) && LastTime(old(journal.events)) <= CompletionTime(date) ==> r.Ok?
      ensures r.Ok? ==>
                && WellFormed(r.value) && CompletedOnlyLast(r.value) && r.value[0].payload.RunStarted?
                && ClosesMatch(r.value, keys) && old(journal.events) <= r.value && Truthful(ledger, keys, r.value)
                && NoTrades(old(journal.events), r.value) && LastTime(old(journal.events)) <= CompletionTime(date)
                && (!accepted ==> Replayed(ledger, keys, r.value).Err?)
                && (tracked ==>
                      (Replayed(ledger, keys, r.value).Ok? <==>
                         config.fills.cancelUnfilled || !HasPartialFill(r.value)))
                && (tracked ==> ReplaySafety.EveryOrderDecided(r.value))
                && (!config.fills.allowPartial ==> !HasPartialFill(r.value))
    {
      hide ReplaySafety.EveryOrderDecided, Mirrors, Same, SameAnswers, HasPartialFill, ClosesMatch, Replayed,
           NoneActive, NoneOpen, Tells, TellsNext, Truthful;
      var time := date * MINUTES_A_DAY + 1020;
      var shown := ledger.snapshot(history, time);
      if shown.None? {
        return Err(LedgerFailed);
      }
      ghost var before := journal.events;
      var event := journal.Append(time, RunCompleted(shown.value, ledger.checksum(history), approved, rejected, fills),
                                  None);
      if event.Err? {
        return Err(JournalRefused(event.error));
      }
      ReplayedNext(ledger, keys, before, event.value);
      PartialNext(before, event.value);
      RestatementTells(ledger, keys, before, history, event.value);
      TellsAppended(ledger, keys, before, history, event.value);
      TellsTruth(ledger, keys, journal.events, history);
      ClosesStillMatch(before, journal.events, time, false, keys);
      if tracked {
        SameNow(ledger, replay.ledger, history, time);
        CompletionFollows(ledger, keys, replay, event.value, book.reservations);
        ReplaySafety.OrdersAreDecided(ledger, keys, before, replay, event.value);
      }
      r := Ok(journal.events);
    }
  }

  /** The journal that only opens the run. */
  lemma StartIs(ledger: Ledger, keys: int -> set<int>, time: int)
    ensures var events := [MakeEvent(1, time, None, RunStarted)];
      && WellFormed(events) && Replayed(ledger, keys, events) == Ok(FRESH_STATE)
      && Tells(ledger, keys, events, []) && BookOf(events) == map[]
    ensures Mirrors(FRESH_STATE.orders, map[], 0, 0, 0)
  {
    assert [MakeEvent(1, time, None, RunStarted)][..0] == [];
  }

  lemma NotQuoted(quotes: seq<Quote>)
    ensures forall instrument :: Quoted(quotes, instrument) <==> exists q <- quotes :: q.instrument == instrument
  {
  }

  lemma EveningBefore(session: Session)
    requires session.Valid()
    ensures session.decision <= AccountingTime(session.tradeDate)
  {
  }

  lemma HasStarted(run: EngineRun)
    requires run.Core()
    ensures run.journal.events != []
  {
  }

  lemma TimePasses(start: seq<Event>, run: EngineRun)
    requires run.Core() && start != [] && start <= run.journal.events
    ensures LastTime(start) <= LastTime(run.journal.events)
  {
    InOrder(run.journal.events, |start| - 1, |run.journal.events| - 1);
  }

  /** Distinct orders that were not in the book before are not in it until their turn. */
  lemma NotYetBooked(before: map<IntentId, OrderReservation>, book: map<IntentId, OrderReservation>,
                     orders: seq<Planned>, i: nat)
    requires i < |orders| && Distinct(orders, PlannedId) && orders[i].id !in before
    requires forall id :: id in book ==> id in before || exists j :: 0 <= j < i && orders[j].id == id
    ensures orders[i].id !in book
  {
    forall j | 0 <= j < i
      ensures orders[j].id != orders[i].id
    {
      assert PlannedId(orders[j]) != PlannedId(orders[i]);
    }
  }

  lemma BookedOneMore(book: map<IntentId, OrderReservation>, x: Executed, cancel: bool)
    ensures forall id :: id in BookAfter(book, x, cancel) ==> id in book || id == x.planned.id
  {
    hide SettledAs;
  }

  lemma AlignedIsSame(run: EngineRun)
    requires run.Aligned()
    ensures Same(run.ledger, run.replay.ledger, run.history)
  {
  }

  /**
    * With nothing to close, replay never learns that the positions aged: that changes nothing when none is held, and
    * differs in the snapshot otherwise.
    */
  lemma QuotelessClose(run: EngineRun, replayed: seq<LedgerOp>, before: seq<LedgerOp>, close: int)
    requires run.HasAged(close) && AgesHoldings(run.ledger) && run.replay.ledger == replayed
    requires run.history == before + [Aged({})] && Same(run.ledger, replayed, before)
    ensures run.accepted
    ensures !run.ledger.holds(before) ==> run.Aligned()
    ensures run.ledger.holds(before) && run.ledger.snapshot(run.history, close).Some? ==>
              run.ledger.snapshot(run.history, close) != run.ledger.snapshot(replayed, close)
  {
    hide Mirrors, Same;
    SameNow(run.ledger, replayed, before, close);
    if !run.ledger.holds(before) {
      SameThrough(run.ledger, replayed, before, run.history);
    }
  }

  lemma StillBefore(run: EngineRun, date: int, later: int, tracked: bool)
    requires run.Before(date, tracked) && date <= later
    ensures run.Before(later, tracked)
  {
    hide ClosesMatch, Mirrors, Same, SameAnswers, Replayed, Underway, HasPartialFill, Tidy;
  }
}
