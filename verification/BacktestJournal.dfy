/** The backtest event journal: typed events under identities that cover all of their content. */
module BacktestJournal {
  import opened FeeTax
  import opened Wrappers

  /**
    * What the digests of an order intent cover, within one run and one strategy. Instrument keys are kept as their
    * rank.
    */
  datatype IntentId = IntentId(instrument: int, decidedAt: int, side: Side, quantity: int)

  /** The idempotency key is a digest of the same content. */
  datatype IntentKey = IntentKey(of: IntentId)

  datatype FillId = FillId(intent: IntentId, time: int, quantity: int)

  datatype SimFill = SimFill(
    fillId: FillId, clientOrder: IntentKey, instrument: int, side: Side, quantity: int,
    price: real, fee: int, tax: int, time: int)
  {
    /** `Fill.__post_init__`. */
    predicate Valid() {
      quantity > 0 && price > 0.0 && fee >= 0 && tax >= 0
    }
  }

  datatype Action = Action(id: int, date: int, version: string)

  /** Texts the replay compares; any other text a payload may hold is kept as it stands. */
  datatype Outcome = Approve | Reject | OtherOutcome(text: string)

  datatype OrderStatus = Active | AwaitingUpdate | Filled | Cancelled | Expired | Rejected | OtherStatus(text: string)

  datatype FillStatus = Complete | Partial | Unfilled | OtherFill(text: string)

  datatype Payload =
    | RunStarted
    | TargetSet(instrument: int)
    | IntentCreated(intent: IntentId, key: IntentKey)
    | SettlementProcessed(date: int, processed: seq<string>)
    | ActionApplied(action: Action, effect: int)
    | MarketOpened(instrument: int, price: real)
    | MarketClosed(instrument: int, price: real)
    | RiskDecided(intent: IntentId, outcome: Outcome)
    | OrderReserved(intent: IntentId, remaining: int, status: OrderStatus)
    | FillReceived(intent: IntentId, result: FillStatus, fill: Option<SimFill>, due: int)
    | ReservationUpdated(intent: IntentId, remaining: int, status: OrderStatus)
    | ReservationReleased(intent: IntentId, remaining: int, status: OrderStatus)
    | Snapshotted(checksum: int, journalChecksum: int)
    | Reconciled(checksum: int, journalChecksum: int)
    | RunCompleted(checksum: int, journalChecksum: int, approved: nat, rejected: nat, fills: nat)

  /** An event digest covers the sequence, the time, the cause and the payload. */
  datatype EventId = EventId(sequence: int, time: int, causation: Option<EventId>, payload: Payload)

  datatype Event = Event(id: EventId, sequence: int, time: int, causation: Option<EventId>, payload: Payload)

  datatype JournalError = OutOfOrder

  function MakeEvent(sequence: int, time: int, causation: Option<EventId>, payload: Payload): Event {
    Event(EventId(sequence, time, causation, payload), sequence, time, causation, payload)
  }

  /** A list of events as `append` builds it: counted from one, in time order, under recomputed identities. */
  predicate WellFormed(events: seq<Event>) {
    && (forall i :: 0 <= i < |events| ==>
          events[i] == MakeEvent(i + 1, events[i].time, events[i].causation, events[i].payload))
    && (forall i :: 1 <= i < |events| ==> events[i - 1].time <= events[i].time)
  }

  class DeterministicEventJournal {
    var events: seq<Event>

    constructor ()
      ensures events == []
    {
      events := [];
    }

    /** `append`: refuses an event earlier than the last one. */
    method Append(time: int, payload: Payload, causation: Option<EventId>) returns (r: Result<Event, JournalError>)
      modifies this
      ensures r == if old(events) != [] && time < old(events)[|old(events)| - 1].time then Err(OutOfOrder)
                   else Ok(MakeEvent(|old(events)| + 1, time, causation, payload))
      ensures events == if r.Ok? then old(events) + [r.value] else old(events)
      ensures WellFormed(old(events)) ==> WellFormed(events)
    {
      if events != [] && time < events[|events| - 1].time {
        return Err(OutOfOrder);
      }
      var sequence := |events| + 1;
      var event := Event(EventId(sequence, time, causation, payload), sequence, time, causation, payload);
      events := events + [event];
      r := Ok(event);
    }
  }

  // ---- Canonical payloads ----

  /**
    * A payload value before it is encoded. Payload dictionaries have text keys; their order does not matter, because
    * the digest sorts them.
    */
  datatype Value =
    | Null | Text(s: string) | Number(n: int) | Flag(b: bool)
    | Decimal(v: real) | Moment(t: int) | Named(member: string)
    | List(items: seq<Value>) | Dict(entries: map<string, Value>)

  /** The text a decimal or a date gets. */
  datatype Rendering = Rendering(decimal: real -> string, moment: int -> string)

  /** `_canonical`: decimals and dates become text, enumeration members their value. */
  function Canonical(r: Rendering, value: Value): Value {
    match value
    case Decimal(v) => Text(r.decimal(v))
    case Moment(t) => Text(r.moment(t))
    case Named(member) => Text(member)
    case List(items) => List(seq(|items|, i requires 0 <= i < |items| => Canonical(r, items[i])))
    case Dict(entries) => Dict(map key | key in entries :: Canonical(r, entries[key]))
    case _ => value
  }

  /** Replay re-encodes payloads that are already canonical, so encoding twice must change nothing. */
  lemma {:induction false} CanonicalIsIdempotent(r: Rendering, value: Value)
    ensures Canonical(r, Canonical(r, value)) == Canonical(r, value)
  {
    match value
    case List(items) =>
      forall i | 0 <= i < |items|
        ensures Canonical(r, Canonical(r, items[i])) == Canonical(r, items[i])
      {
        CanonicalIsIdempotent(r, items[i]);
      }
    case Dict(entries) =>
      forall key | key in entries
        ensures Canonical(r, Canonical(r, entries[key])) == Canonical(r, entries[key])
      {
        CanonicalIsIdempotent(r, entries[key]);
      }
    case _ =>
  }
}
