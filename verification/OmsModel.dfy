/**
 The tables of the paper order-management database as one value, and each of its transactions as a
 function from that value to the next one.
 */
module OmsModel {
  import opened FeeTax
  import opened Wrappers

  // ---- Rows ----

  datatype OrderState =
    | Created | RiskPending | RiskApproved | RiskRejected
    | SubmitPending | Submitted | Acknowledged | PartiallyFilled | Filled
    | CancelPending | Cancelled | ReplacePending | Replaced | Rejected | Expired | Unknown

  predicate IsTerminal(s: OrderState) {
    s in {RiskRejected, Filled, Cancelled, Rejected, Expired}
  }

  function AllowedTransitions(s: OrderState): set<OrderState> {
    match s
    case Created => {RiskPending}
    case RiskPending => {RiskApproved, RiskRejected}
    case RiskApproved => {SubmitPending}
    case SubmitPending => {Submitted, Rejected, Unknown}
    case Submitted => {Acknowledged, Rejected, CancelPending, Unknown}
    case Acknowledged => {PartiallyFilled, Filled, CancelPending, ReplacePending, Rejected, Expired, Unknown}
    case PartiallyFilled => {PartiallyFilled, Filled, CancelPending, ReplacePending, Expired, Unknown}
    case CancelPending => {Cancelled, PartiallyFilled, Filled, Unknown}
    case ReplacePending => {Replaced, PartiallyFilled, Filled, Unknown}
    case Replaced => {SubmitPending, CancelPending}
    case Unknown => {Submitted, Acknowledged, Cancelled, Rejected}
    case RiskRejected => {}
    case Filled => {}
    case Cancelled => {}
    case Rejected => {}
    case Expired => {}
  }

  /**
   The digest of an order's columns, so the columns are read from it. An idempotency key is an integer
   standing for its digest, and integers order outbox rows as their digests do.
   */
  datatype OrderId = OrderId(client: string, key: int, instrument: string, side: Side, quantity: int)

  datatype Order = Order(
    id: OrderId, filled: int, state: OrderState, version: int, sequence: int, createdAt: int, updatedAt: int)

  /** What the broker calls the identity of a fill. */
  datatype FillIdentity = FillIdentity(key: int, quantity: int, price: real)

  datatype Digest = Digest(of: FillIdentity)

  datatype PaperFill = PaperFill(fillId: Digest, identity: FillIdentity, quantity: int, price: real, time: int)

  datatype FillRow = FillRow(order: OrderId, fill: PaperFill)

  /** The suffix an event adds to the order identity to form its unique business identity. */
  datatype Business =
    | NamedTag(state: OrderState) | CreatedTag | SubmitTag | FillTag(identity: FillIdentity)
    | CancelTag | CancelResultTag(status: string) | ReplaceTag | ReplaceResultTag(status: string)
    | RecoveryTag(sequence: int)

  datatype Payload = NoPayload | FillPayload(fillId: Digest, quantity: int, price: real)

  datatype Event = Event(
    sequence: int, previous: Option<OrderState>, state: OrderState, business: Business,
    payload: Payload, time: int, reason: string)

  /** Equality of event identities: what the event digest covers, within one order. */
  predicate SameIdentity(a: Event, b: Event) {
    a.sequence == b.sequence && a.state == b.state && a.business == b.business && a.payload == b.payload
  }

  datatype OutboxRow = OutboxRow(key: int, order: OrderId, createdAt: int, delivered: Option<int>, attempts: nat)

  /** `granted` is a history variable: the cash first reserved. No query reads it. */
  datatype Reservation = Reservation(cash: real, quantity: int, original: int, active: bool, granted: real)

  datatype Db = Db(
    orders: map<OrderId, Order>, journal: map<OrderId, seq<Event>>, fills: seq<FillRow>,
    outbox: seq<OutboxRow>, reservations: map<OrderId, Reservation>)

  const EMPTY_DB := Db(map[], map[], [], [], map[])

  datatype OmsError =
    | OrderNotFound | VersionConflict | PreviousStateMismatch | SequenceGap | IllegalTransition | FillOutOfRange
    | FillConflict | IdentityConflict | NotUnknown | InvalidOrder | InvalidNotional | Crashed

  // ---- Queries ----

  function JournalOf(db: Db, id: OrderId): seq<Event> {
    if id in db.journal then db.journal[id] else []
  }

  predicate HasIdentity(journal: seq<Event>, e: Event) {
    exists i :: 0 <= i < |journal| && SameIdentity(journal[i], e)
  }

  /** An insert of `e` would break a uniqueness constraint of the events table. */
  predicate EventConflicts(journal: seq<Event>, e: Event) {
    exists i :: 0 <= i < |journal| && (journal[i].business == e.business || journal[i].sequence == e.sequence)
  }

  /** The fill row recorded under a business identity. */
  function FindFill(fills: seq<FillRow>, identity: FillIdentity): Option<FillRow> {
    if fills == [] then None
    else if fills[0].fill.identity == identity then Some(fills[0])
    else FindFill(fills[1..], identity)
  }

  predicate HasFillId(fills: seq<FillRow>, fillId: Digest) {
    exists i :: 0 <= i < |fills| && fills[i].fill.fillId == fillId
  }

  predicate HasOutboxKey(outbox: seq<OutboxRow>, key: int) {
    exists i :: 0 <= i < |outbox| && outbox[i].key == key
  }

  /** The first pending row in `created_at, outbox_id` order. */
  function FirstPending(outbox: seq<OutboxRow>): Option<OutboxRow> {
    if outbox == [] then None
    else if outbox[0].delivered.None? then Some(outbox[0])
    else FirstPending(outbox[1..])
  }

  /** The rows still to deliver. */
  function Pending(outbox: seq<OutboxRow>): seq<OutboxRow> {
    if outbox == [] then []
    else (if outbox[0].delivered.None? then [outbox[0]] else []) + Pending(outbox[1..])
  }

  // ---- Transactions ----

  predicate Before(a: OutboxRow, b: OutboxRow) {
    a.createdAt < b.createdAt || (a.createdAt == b.createdAt && a.key < b.key)
  }

  /** The outbox is kept in query order. */
  function InsertRow(outbox: seq<OutboxRow>, row: OutboxRow): seq<OutboxRow> {
    if outbox == [] || Before(row, outbox[0]) then [row] + outbox
    else [outbox[0]] + InsertRow(outbox[1..], row)
  }

  /** The order row after event `e`, which adds `quantity` to the filled amount. */
  function Advanced(o: Order, e: Event, quantity: int): Order {
    o.(filled := o.filled + quantity, state := e.state, version := o.version + 1, sequence := e.sequence,
       updatedAt := e.time)
  }

  function NewOrder(id: OrderId, at: int): Order {
    Order(id, 0, Created, 1, 1, at, at)
  }

  function CreationEvent(at: int): Event {
    Event(1, None, Created, CreatedTag, NoPayload, at, "command_accepted")
  }

  /** `by_idempotency_key`. */
  ghost function ByKey(db: Db, key: int): Option<Order> {
    if exists id :: id in db.orders && id.key == key
    then (var id :| id in db.orders && id.key == key; Some(db.orders[id]))
    else None
  }

  /** `create`: a new order row with its first event, or the order that already has the key. */
  ghost function Create(db: Db, id: OrderId, at: int): Result<(Db, Order), OmsError> {
    if ByKey(db, id.key).Some? then Ok((db, ByKey(db, id.key).value))
    else if exists other :: other in db.orders && other.client == id.client then Err(IdentityConflict)
    else
      Ok((db.(orders := db.orders[id := NewOrder(id, at)], journal := db.journal[id := [CreationEvent(at)]]),
          NewOrder(id, at)))
  }

  /** Common part of both transition transactions: everything checked before the row is changed. */
  function CheckEvent(o: Order, e: Event, expectedVersion: int): Option<OmsError> {
    if o.version != expectedVersion then Some(VersionConflict)
    else if e.previous != Some(o.state) then Some(PreviousStateMismatch)
    else if e.sequence != o.sequence + 1 then Some(SequenceGap)
    else if e.state !in AllowedTransitions(o.state) then Some(IllegalTransition)
    else None
  }

  /** The cash a submission reserves; its outbox row and its reservation row are written together. */
  datatype Submission = Submission(cash: real, quantity: int)

  function Released(r: Reservation): Reservation {
    if r.active then r.(cash := 0.0, quantity := 0, active := false) else r
  }

  /** `transition`: one event, with an optional submission or an optional release of the reservation. */
  function Transition(db: Db, id: OrderId, e: Event, expectedVersion: int, submission: Option<Submission>,
                      release: bool)
    : Result<(Db, Order), OmsError>
  {
    if id !in db.orders then Err(OrderNotFound)
    else
      var current, journal := db.orders[id], JournalOf(db, id);
      if HasIdentity(journal, e) then Ok((db, current))
      else
        match CheckEvent(current, e, expectedVersion)
        case Some(problem) => Err(problem)
        case None =>
          if EventConflicts(journal, e) then Err(IdentityConflict)
          else if submission.Some? && (HasOutboxKey(db.outbox, id.key) || id in db.reservations)
              then Err(IdentityConflict)
          else
            var updated := Advanced(current, e, 0);
            var moved := db.(orders := db.orders[id := updated], journal := db.journal[id := journal + [e]]);
            var submitted :=
              if submission.None? then moved
              else
                var s := submission.value;
                moved.(outbox := InsertRow(db.outbox, OutboxRow(id.key, id, e.time, None, 0)),
                       reservations := db.reservations[id := Reservation(s.cash, s.quantity, id.quantity, true,
                                                                         s.cash)]);
            var released :=
              if release && id in submitted.reservations
              then submitted.(reservations := submitted.reservations[id := Released(submitted.reservations[id])])
              else submitted;
            Ok((released, updated))
  }

  function Min(a: int, b: int): int {
    if a < b then a else b
  }

  /** The reservation after a fill that leaves `remaining` of the order unfilled. */
  function Scaled(r: Reservation, remaining: int): Reservation {
    if r.active && r.original > 0
    then r.(cash := r.cash * (remaining as real) / (r.original as real),
            quantity := Min(r.quantity, remaining), active := remaining != 0)
    else r
  }

  /** `transition_fill`: a unique fill, its event and the reduced reservation. */
  function TransitionFill(db: Db, id: OrderId, e: Event, expectedVersion: int, fill: PaperFill)
    : Result<(Db, Order), OmsError>
  {
    if id !in db.orders then Err(OrderNotFound)
    else
      var current, journal, prior := db.orders[id], JournalOf(db, id), FindFill(db.fills, fill.identity);
      if prior.Some? then
        if prior.value.fill.quantity != fill.quantity || prior.value.fill.price != fill.price then Err(FillConflict)
        else Ok((db, current))
      else
        match CheckEvent(current, e, expectedVersion)
        case Some(problem) => Err(problem)
        case None =>
          var filled := current.filled + fill.quantity;
          if !(0 < filled <= id.quantity) then Err(FillOutOfRange)
          else if HasFillId(db.fills, fill.fillId) || HasIdentity(journal, e) || EventConflicts(journal, e)
              then Err(IdentityConflict)
          else
            var updated := Advanced(current, e, fill.quantity);
            var moved := db.(
              orders := db.orders[id := updated], journal := db.journal[id := journal + [e]],
              fills := db.fills + [FillRow(id, fill)]);
            Ok((if id in db.reservations
                then moved.(reservations := db.reservations[id := Scaled(db.reservations[id], id.quantity - filled)])
                else moved,
                updated))
  }

  /** `mark_outbox_delivered`. */
  function MarkDelivered(outbox: seq<OutboxRow>, key: int, at: int): (r: seq<OutboxRow>)
    ensures |r| == |outbox|
  {
    seq(|outbox|, i requires 0 <= i < |outbox| =>
          if outbox[i].key == key then outbox[i].(delivered := Some(at), attempts := outbox[i].attempts + 1)
              else outbox[i])
  }

  /** `increment_outbox_attempt`. */
  function IncrementAttempt(outbox: seq<OutboxRow>, key: int): (r: seq<OutboxRow>)
    ensures |r| == |outbox|
  {
    seq(|outbox|, i requires 0 <= i < |outbox| =>
          if outbox[i].key == key then outbox[i].(attempts := outbox[i].attempts + 1) else outbox[i])
  }

  // ---- Events the service builds ----

  function NextEvent(o: Order, state: OrderState, business: Business, payload: Payload, reason: string,
                     time: int): Event {
    Event(o.sequence + 1, Some(o.state), state, business, payload, time, reason)
  }

  /** `_transition` names the event after its state and keeps the time of the order row. */
  function NamedEvent(o: Order, state: OrderState, reason: string): Event {
    NextEvent(o, state, NamedTag(state), NoPayload, reason, o.updatedAt)
  }

  function FillEvent(o: Order, fill: PaperFill): Event {
    NextEvent(o, if o.filled + fill.quantity == o.id.quantity then Filled else PartiallyFilled,
              FillTag(fill.identity), FillPayload(fill.fillId, fill.quantity, fill.price), "paper_fill", fill.time)
  }

  // ---- Commands ----

  datatype Command = Command(
    client: string, key: int, instrument: string, side: Side, quantity: int,
    estimatedPrice: real, availableCash: real, createdAt: int, availablePosition: int)
  {
    function Id(): OrderId {
      OrderId(client, key, instrument, side, quantity)
    }
  }

  datatype BrokerResult = BrokerResult(acknowledgedAt: int, rejected: bool, reason: string, fills: seq<PaperFill>)

  // ---- Sums over the reservations table ----

  ghost function Total(m: map<OrderId, Reservation>, f: (OrderId, Reservation) -> real): real
    decreases |m|
  {
    if m == map[] then 0.0
    else
      var id :| id in m;
      f(id, m[id]) + Total(m - {id}, f)
  }

  lemma {:induction false} TotalWithout(m: map<OrderId, Reservation>, f: (OrderId, Reservation) -> real, id: OrderId)
    requires id in m
    ensures Total(m, f) == f(id, m[id]) + Total(m - {id}, f)
    decreases |m|
  {
    var first :| first in m && Total(m, f) == f(first, m[first]) + Total(m - {first}, f);
    if first != id {
      TotalWithout(m - {first}, f, id);
      TotalWithout(m - {id}, f, first);
      assert m - {first} - {id} == m - {id} - {first};
    }
  }

  /** Writing one row changes the total by the difference of its weights. */
  lemma TotalUpdated(m: map<OrderId, Reservation>, f: (OrderId, Reservation) -> real, id: OrderId, r: Reservation)
    ensures Total(m[id := r], f) == Total(m, f) + f(id, r) - (if id in m then f(id, m[id]) else 0.0)
  {
    TotalWithout(m[id := r], f, id);
    assert m[id := r] - {id} == m - {id};
    if id in m {
      TotalWithout(m, f, id);
    } else {
      assert m - {id} == m;
    }
  }

  /** What a row adds to `reserved_cash`. */
  function CashOf(id: OrderId, r: Reservation): real {
    if id.side == Buy && r.active then r.cash else 0.0
  }

  /** What a row adds to `reserved_sell_quantity` of an instrument. */
  function SellOf(instrument: string): (OrderId, Reservation) -> real {
    (id: OrderId, r: Reservation) =>
      if id.side == Sell && id.instrument == instrument && r.active then r.quantity as real else 0.0
  }

  ghost function ReservedCash(db: Db): real {
    Total(db.reservations, CashOf)
  }

  ghost function ReservedSell(db: Db, instrument: string): real {
    Total(db.reservations, SellOf(instrument))
  }
}
