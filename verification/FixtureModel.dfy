/** The offline broker fixture as a state machine. */
module FixtureModel {
  import opened Wrappers

  datatype Fault = LostResponse | RateLimited | SessionExpired | OddLotRefused | Suspended | LimitLocked

  datatype Capability = CanSubmit | CanCancel | CanReplace

  datatype Health = Disconnected | Healthy | Degraded | Expired

  datatype OrderState =
    | PendingSubmit | Acknowledged | PartiallyFilled | Filled | CancelPending | Cancelled
    | ReplacePending | Replaced | RejectedState | ExpiredState | UnknownState

  datatype Request = Request(order: int, key: int, quantity: int, commonLot: bool, limitPrice: Option<real>)

  datatype Snapshot = Snapshot(state: OrderState, quantity: int, filled: int, sequence: nat)

  datatype FixtureOrder = FixtureOrder(request: Request, snapshot: Snapshot)

  datatype BrokerEvent =
    | OrderEvent(identity: int, order: int, sequence: nat, state: OrderState)
    | FillEvent(identity: int, order: int, sequence: nat, fillId: int, quantity: int)
  {
    /** The event types' own checks. */
    predicate Valid() {
      sequence >= 1 && (FillEvent? ==> quantity > 0)
    }
  }

  datatype Code =
    | KillNewRisk | UnsupportedCapability | IdempotencyConflict | RateLimit | OddLotRejected | InstrumentSuspended
    | PriceLimitLocked | OrderNotFound | AlreadyFilled | QuantityBelowFilled

  datatype Answer = Accepted | Rejected(code: Code) | OutcomeUnknown

  datatype Ingestion = Applied | Ignored | Corrupted

  datatype State = State(
    faults: set<Fault>, supported: set<Capability>, health: Health, kill: bool,
    orders: map<int, FixtureOrder>, keys: map<int, int>,
    events: map<int, BrokerEvent>, last: map<int, nat>, fills: map<int, BrokerEvent>)

  function Acknowledge(request: Request): FixtureOrder {
    FixtureOrder(request, Snapshot(Acknowledged, request.quantity, 0, 1))
  }

  /** `open`: an expired session leaves the kill switch as it is. */
  function Open(s: State): State {
    if SessionExpired in s.faults then s.(health := Expired) else s.(health := Healthy, kill := false)
  }

  function Close(s: State): State {
    s.(health := Disconnected, kill := true)
  }

  function ForceKill(s: State): State {
    s.(health := Degraded, kill := true)
  }

  function Reconnect(s: State): State {
    s.(faults := {}, health := Healthy, kill := false)
  }

  /** What stops a submission before anything is recorded. */
  function Refusal(s: State, request: Request): Option<Answer> {
    if s.kill || s.health != Healthy then Some(Rejected(KillNewRisk))
    else if CanSubmit !in s.supported then Some(Rejected(UnsupportedCapability))
    else if request.key in s.keys then
      if s.keys[request.key] in s.orders && s.orders[s.keys[request.key]].request == request then Some(Accepted)
      else Some(Rejected(IdempotencyConflict))
    else if RateLimited in s.faults then Some(Rejected(RateLimit))
    else if !request.commonLot && OddLotRefused in s.faults then Some(Rejected(OddLotRejected))
    else if Suspended in s.faults then Some(Rejected(InstrumentSuspended))
    else if LimitLocked in s.faults then Some(Rejected(PriceLimitLocked))
    else None
  }

  /** `submit`: a new idempotency key records the order, even when its response is lost. */
  function Submit(s: State, request: Request): (State, Answer) {
    match Refusal(s, request)
    case Some(answer) => (s, answer)
    case None =>
      (s.(orders := s.orders[request.order := Acknowledge(request)], keys := s.keys[request.key := request.order],
          last := s.last[request.order := 1]),
       if LostResponse in s.faults then OutcomeUnknown else Accepted)
  }

  function Cancel(s: State, order: int): (State, Answer) {
    if CanCancel !in s.supported then (s, Rejected(UnsupportedCapability))
    else if order !in s.orders then (s, Rejected(OrderNotFound))
    else
      var snapshot := s.orders[order].snapshot;
      if snapshot.state == Filled then (s, Rejected(AlreadyFilled))
      else
        var cancelled := snapshot.(state := Cancelled, sequence := snapshot.sequence + 1);
        (s.(orders := s.orders[order := s.orders[order].(snapshot := cancelled)],
            last := s.last[order := cancelled.sequence]), Accepted)
  }

  function Replace(s: State, order: int, quantity: int, limitPrice: Option<real>): (State, Answer) {
    if CanReplace !in s.supported then (s, Rejected(UnsupportedCapability))
    else if order !in s.orders then (s, Rejected(OrderNotFound))
    else
      var FixtureOrder(request, snapshot) := s.orders[order];
      if snapshot.state == Filled then (s, Rejected(AlreadyFilled))
      else if quantity < snapshot.filled then (s, Rejected(QuantityBelowFilled))
      else
        var replaced := snapshot.(state := Replaced, quantity := quantity, sequence := snapshot.sequence + 1);
        (s.(orders := s.orders[order := FixtureOrder(request.(quantity := quantity, limitPrice := limitPrice),
                                                     replaced)],
            last := s.last[order := replaced.sequence]), Accepted)
  }

  function LastSequence(s: State, order: int): nat {
    if order in s.last then s.last[order] else 0
  }

  /** What one event makes of a snapshot. */
  function Effect(snapshot: Snapshot, e: BrokerEvent): Snapshot {
    match e
    case OrderEvent(_, _, sequence, state) => snapshot.(state := state, sequence := sequence)
    case FillEvent(_, _, sequence, _, quantity) =>
      var filled := snapshot.filled + quantity;
      snapshot.(filled := filled, state := if filled == snapshot.quantity then Filled
                else PartiallyFilled, sequence := sequence)
  }

  predicate OverFills(snapshot: Snapshot, e: BrokerEvent) {
    e.FillEvent? && snapshot.filled + e.quantity > snapshot.quantity
  }

  /** `ingest_event`. */
  function Ingest(s: State, e: BrokerEvent, checksumValid: bool): (State, Ingestion) {
    if !checksumValid then (s.(kill := true), Corrupted)
    else if e.identity in s.events then (s, Ignored)
    else if e.sequence != LastSequence(s, e.order) + 1 then (s.(kill := true, health := Degraded), Ignored)
    else if e.order !in s.orders then (s.(kill := true), Ignored)
    else if e.FillEvent? && e.fillId in s.fills then (s, Ignored)
    else if OverFills(s.orders[e.order].snapshot, e) then (s.(kill := true), Corrupted)
    else
      (s.(orders := s.orders[e.order := s.orders[e.order].(snapshot := Effect(s.orders[e.order].snapshot, e))],
          events := s.events[e.identity := e], last := s.last[e.order := e.sequence],
          fills := if e.FillEvent? then s.fills[e.fillId := e] else s.fills), Applied)
  }

  datatype Call =
    | OpenSession | CloseSession | Kill(reason: int) | ReconnectSession
    | SubmitOrder(request: Request) | CancelOrder(order: int) | ReplaceOrder(order: int, quantity: int,
                                                                             limitPrice: Option<real>)
    | IngestEvent(event: BrokerEvent, checksumValid: bool)
  {
    /** What the request types check: positive quantities and sequences. */
    predicate Valid() {
      match this
      case SubmitOrder(request) => request.quantity > 0
      case ReplaceOrder(_, quantity, _) => quantity > 0
      case IngestEvent(event, _) => event.Valid()
      case _ => true
    }
  }

  function After(s: State, call: Call): State {
    match call
    case OpenSession => Open(s)
    case CloseSession => Close(s)
    case Kill(_) => ForceKill(s)
    case ReconnectSession => Reconnect(s)
    case SubmitOrder(request) => Submit(s, request).0
    case CancelOrder(order) => Cancel(s, order).0
    case ReplaceOrder(order, quantity, limitPrice) => Replace(s, order, quantity, limitPrice).0
    case IngestEvent(event, checksumValid) => Ingest(s, event, checksumValid).0
  }

  function Run(s: State, calls: seq<Call>): State {
    if calls == [] then s else After(Run(s, calls[..|calls| - 1]), calls[|calls| - 1])
  }

  function Initial(faults: set<Fault>, supported: set<Capability>): State {
    State(faults, supported, Disconnected, true, map[], map[], map[], map[], map[])
  }
}
