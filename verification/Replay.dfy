/** The fail-closed replay of a backtest journal. */
module Replay {
  import opened BacktestJournal
  import opened Wrappers

  /** A call that changes the portfolio ledger. */
  datatype LedgerOp =
    | Settled(date: int, time: int)
    | Acted(action: Action, time: int)
    | Marked(instrument: int, price: real, time: int, atOpen: bool)
    | Aged(keys: set<int>)
    | Applied(fill: SimFill, date: int)

  /**
    * Any deterministic ledger: everything it answers, and whether it holds a position, is a function of the calls
    * made so far.
    */
  datatype Ledger = Ledger(
    accepts: seq<LedgerOp> -> bool,
    settlements: seq<LedgerOp> -> seq<string>,
    actionResult: seq<LedgerOp> -> int,
    dueDate: seq<LedgerOp> -> int,
    snapshot: (seq<LedgerOp>, int) -> Option<int>,
    checksum: seq<LedgerOp> -> int,
    holds: seq<LedgerOp> -> bool)

  datatype ReplayError = Mismatch | LedgerRaised

  /** The intents, risk decisions, reservations and fills read so far. */
  datatype Orders = Orders(
    intents: map<IntentId, (IntentKey, EventId)>,
    risks: map<IntentId, (Outcome, EventId)>,
    reservations: map<IntentId, (int, OrderStatus)>,
    fillIds: set<FillId>, approved: nat, rejected: nat, fills: nat)

  datatype ReplayState = ReplayState(
    ledger: seq<LedgerOp>, orders: Orders, actionIds: set<int>, agedTimes: set<int>, snapshots: nat,
        reconciliations: nat)

  datatype ReplayResult = ReplayResult(finalSnapshot: int, journalChecksum: int, snapshots: nat, reconciliations: nat)

  const MINUTES_A_DAY := 1440

  function DateOf(time: int): int {
    time / MINUTES_A_DAY
  }

  const FRESH_STATE := ReplayState([], Orders(map[], map[], map[], {}, 0, 0, 0), {}, {}, 0, 0)

  /** The instruments closed at one time, anywhere in the journal. */
  function CloseKeys(events: seq<Event>, time: int): set<int> {
    set e <- events | e.payload.MarketClosed? && e.time == time :: e.payload.instrument
  }

  /** The instruments closing at every time of a journal. */
  function ClosesOf(events: seq<Event>): int -> set<int> {
    (time: int) => CloseKeys(events, time)
  }

  function Do(ledger: Ledger, s: ReplayState, op: LedgerOp): Result<ReplayState, ReplayError> {
    if ledger.accepts(s.ledger + [op]) then Ok(s.(ledger := s.ledger + [op])) else Err(LedgerRaised)
  }

  function Check<T>(ok: bool, s: T): Result<T, ReplayError> {
    if ok then Ok(s) else Err(Mismatch)
  }

  function StepIntent(s: Orders, e: Event): Result<Orders, ReplayError>
    requires e.payload.IntentCreated?
  {
    var id := e.payload.intent;
    Check(id !in s.intents, s.(intents := s.intents[id := (e.payload.key, e.id)]))
  }

  function StepAction(ledger: Ledger, s: ReplayState, e: Event): Result<ReplayState, ReplayError>
    requires e.payload.ActionApplied?
  {
    var action := e.payload.action;
    if action.id in s.actionIds || action.version == "" then Err(Mismatch)
    else
      var s1 :- Do(ledger, s.(actionIds := s.actionIds + {action.id}), Acted(action, e.time));
      Check(ledger.actionResult(s1.ledger) == e.payload.effect, s1)
  }

  /** The first close of a session ages the positions that do not close in it. */
  function StepClose(ledger: Ledger, keys: int -> set<int>, s: ReplayState, e: Event): Result<ReplayState, ReplayError>
    requires e.payload.MarketClosed?
  {
    var s1 :- if e.time in s.agedTimes then Ok(s)
              else Do(ledger, s.(agedTimes := s.agedTimes + {e.time}), Aged(keys(e.time)));
    Do(ledger, s1, Marked(e.payload.instrument, e.payload.price, e.time, false))
  }

  function StepRisk(s: Orders, e: Event): Result<Orders, ReplayError>
    requires e.payload.RiskDecided?
  {
    var id, outcome := e.payload.intent, e.payload.outcome;
    if id !in s.intents || e.causation != Some(s.intents[id].1) || id in s.risks || outcome.OtherOutcome?
        then Err(Mismatch)
    else
      var decided := s.(risks := s.risks[id := (outcome, e.id)]);
      Ok(if outcome == Approve then decided.(approved := s.approved + 1) else decided.(rejected := s.rejected + 1))
  }

  /** The event refers to the approval of its order. */
  predicate Approved(s: Orders, id: IntentId, e: Event) {
    id in s.risks && s.risks[id].0 == Approve && e.causation == Some(s.risks[id].1)
  }

  function StepReserve(s: Orders, e: Event): Result<Orders, ReplayError>
    requires e.payload.OrderReserved?
  {
    var id := e.payload.intent;
    Check(Approved(s, id, e) && id !in s.reservations,
          s.(reservations := s.reservations[id := (e.payload.remaining, e.payload.status)]))
  }

  /** What a fill does to the orders, before the ledger takes it. */
  function TakeFill(s: Orders, e: Event): Result<Orders, ReplayError>
    requires e.payload.FillReceived?
  {
    var id := e.payload.intent;
    if e.payload.result.OtherFill? || !Approved(s, id, e) then Err(Mismatch)
    else if e.payload.result.Unfilled? then Ok(s)
    else if e.payload.fill.None? || !e.payload.fill.value.Valid() || id !in s.reservations then Err(Mismatch)
    else
      var fill := e.payload.fill.value;
      var (remaining, status) := s.reservations[id];
      Check(fill.fillId !in s.fillIds && status == Active && fill.quantity <= remaining
            && id in s.intents && fill.clientOrder == s.intents[id].0,
            s.(fillIds := s.fillIds + {fill.fillId}, fills := s.fills + 1,
               reservations := s.reservations[id := (remaining - fill.quantity, AwaitingUpdate)]))
  }

  predicate IsFill(e: Event) {
    e.payload.FillReceived? && (e.payload.result == Complete || e.payload.result == Partial) && e.payload.fill.Some?
  }

  function StepFill(ledger: Ledger, s: ReplayState, e: Event): Result<ReplayState, ReplayError>
    requires e.payload.FillReceived?
  {
    var orders :- TakeFill(s.orders, e);
    if !IsFill(e) then Ok(s)
    else
      var s1 :- Do(ledger, s.(orders := orders), Applied(e.payload.fill.value, DateOf(e.time)));
      Check(ledger.dueDate(s1.ledger) == e.payload.due, s1)
  }

  function StepUpdate(s: Orders, e: Event): Result<Orders, ReplayError>
    requires e.payload.ReservationUpdated?
  {
    var id := e.payload.intent;
    if id !in s.reservations then Err(Mismatch)
    else
      var (remaining, status) := s.reservations[id];
      var expected := if remaining == 0 then Filled else Active;
      Check(status == AwaitingUpdate && e.payload.remaining == remaining && e.payload.status == expected,
            s.(reservations := s.reservations[id := (remaining, expected)]))
  }

  /** The remaining quantity a release reports is not compared with the reservation. */
  function StepRelease(s: Orders, e: Event): Result<Orders, ReplayError>
    requires e.payload.ReservationReleased?
  {
    var id, released := e.payload.intent, e.payload.status;
    if id !in s.reservations then Err(Mismatch)
    else
      var (remaining, status) := s.reservations[id];
      Check(status == Active && (released == Cancelled || released == Expired || released == Rejected),
            s.(reservations := s.reservations[id := (remaining, released)]))
  }

  /** A portfolio snapshot or reconciliation reports what the rebuilt ledger shows. */
  function StepSnapshot(ledger: Ledger, s: ReplayState, e: Event): Result<ReplayState, ReplayError>
    requires e.payload.Snapshotted? || e.payload.Reconciled?
  {
    var shown := ledger.snapshot(s.ledger, e.time);
    if shown.None? then Err(LedgerRaised)
    else
      Check(e.payload.checksum == shown.value && e.payload.journalChecksum == ledger.checksum(s.ledger),
            if e.payload.Snapshotted? then s.(snapshots := s.snapshots + 1)
                else s.(reconciliations := s.reconciliations + 1))
  }

  predicate Open(reservation: (int, OrderStatus)) {
    reservation.1 == Active || reservation.1 == AwaitingUpdate
  }

  predicate NoneOpen(reservations: map<IntentId, (int, OrderStatus)>) {
    forall id :: id in reservations ==> !Open(reservations[id])
  }

  function StepCompleted(ledger: Ledger, s: ReplayState, e: Event): Result<ReplayState, ReplayError>
    requires e.payload.RunCompleted?
  {
    if !NoneOpen(s.orders.reservations) then Err(Mismatch)
    else
      var shown := ledger.snapshot(s.ledger, e.time);
      if shown.None? then Err(LedgerRaised)
      else Check(e.payload == RunCompleted(shown.value, ledger.checksum(s.ledger), s.orders.approved,
                                           s.orders.rejected, s.orders.fills), s)
  }

  /** The events that only change orders. */
  predicate IsOrderEvent(e: Event) {
    || e.payload.IntentCreated? || e.payload.RiskDecided? || e.payload.OrderReserved?
    || e.payload.ReservationUpdated? || e.payload.ReservationReleased?
  }

  function StepOrders(s: Orders, e: Event): Result<Orders, ReplayError>
    requires IsOrderEvent(e)
  {
    match e.payload
    case IntentCreated(_, _) => StepIntent(s, e)
    case RiskDecided(_, _) => StepRisk(s, e)
    case OrderReserved(_, _, _) => StepReserve(s, e)
    case ReservationUpdated(_, _, _) => StepUpdate(s, e)
    case ReservationReleased(_, _, _) => StepRelease(s, e)
  }

  /** The events that change the ledger, or compare it. */
  function StepLedger(ledger: Ledger, keys: int -> set<int>, s: ReplayState, e: Event): Result<ReplayState, ReplayError>
    requires !IsOrderEvent(e) && !e.payload.FillReceived?
  {
    match e.payload
    case SettlementProcessed(date, processed) =>
      var s1 :- Do(ledger, s, Settled(date, e.time));
      Check(ledger.settlements(s1.ledger) == processed, s1)
    case ActionApplied(_, _) => StepAction(ledger, s, e)
    case MarketOpened(instrument, price) => Do(ledger, s, Marked(instrument, price, e.time, true))
    case MarketClosed(_, _) => StepClose(ledger, keys, s, e)
    case Snapshotted(_, _) => StepSnapshot(ledger, s, e)
    case Reconciled(_, _) => StepSnapshot(ledger, s, e)
    case RunCompleted(_, _, _, _, _) => StepCompleted(ledger, s, e)
    case RunStarted => Ok(s)
    case TargetSet(_) => Ok(s)
  }

  function Step(ledger: Ledger, keys: int -> set<int>, s: ReplayState, e: Event): Result<ReplayState, ReplayError> {
    if IsOrderEvent(e) then
      var orders :- StepOrders(s.orders, e);
      Ok(s.(orders := orders))
    else if e.payload.FillReceived? then StepFill(ledger, s, e)
    else StepLedger(ledger, keys, s, e)
  }

  /** The state rebuilt from a journal whose first event opens the run. */
  function Replayed(ledger: Ledger, keys: int -> set<int>, events: seq<Event>): Result<ReplayState, ReplayError>
    requires events != []
  {
    if |events| == 1 then Ok(FRESH_STATE)
    else
      var s :- Replayed(ledger, keys, events[..|events| - 1]);
      Step(ledger, keys, s, events[|events| - 1])
  }

  predicate CompletedOnlyLast(events: seq<Event>) {
    && events != [] && events[|events| - 1].payload.RunCompleted?
    && forall i :: 0 <= i < |events| - 1 ==> !events[i].payload.RunCompleted?
  }

  /** The journals the replay accepts. */
  predicate Accepted(ledger: Ledger, events: seq<Event>) {
    && events != [] && events[0].payload.RunStarted?
    && WellFormed(events) && CompletedOnlyLast(events)
    && Replayed(ledger, ClosesOf(events), events).Ok?
  }

  lemma {:induction false} FailureSticks(ledger: Ledger, keys: int -> set<int>, events: seq<Event>, n: nat)
    requires 1 <= n <= |events| && Replayed(ledger, keys, events[..n]).Err?
    ensures Replayed(ledger, keys, events) == Replayed(ledger, keys, events[..n])
  {
    if n == |events| {
      assert events[..n] == events;
    } else {
      var prefix := events[..|events| - 1];
      assert prefix[..n] == events[..n];
      FailureSticks(ledger, keys, prefix, n);
    }
  }

  /** The running totals of `replay_events`. */
  class Replayer {
    const ledger: Ledger
    const events: seq<Event>
    var history: seq<LedgerOp>
    var intents: map<IntentId, (IntentKey, EventId)>
    var risks: map<IntentId, (Outcome, EventId)>
    var reservations: map<IntentId, (int, OrderStatus)>
    var fillIds: set<FillId>
    var actionIds: set<int>
    var agedTimes: set<int>
    var approved: nat
    var rejected: nat
    var fills: nat
    var snapshots: nat
    var reconciliations: nat

    ghost function BookNow(): Orders
      reads this
    {
      Orders(intents, risks, reservations, fillIds, approved, rejected, fills)
    }

    ghost function Now(): ReplayState
      reads this
    {
      ReplayState(history, BookNow(), actionIds, agedTimes, snapshots, reconciliations)
    }

    /** The step of an event that changes orders only is the one taken. */
    ghost predicate Moved(before: ReplayState, step: Result<Orders, ReplayError>, r: Result<(), ReplayError>)
      reads this
    {
      && Now() == before.(orders := BookNow())
      && match step
         case Ok(orders) => r == Ok(()) && BookNow() == orders
         case Err(problem) => r == Err(problem)
    }

    /** The step of an event is the one taken. */
    ghost predicate Stepped(step: Result<ReplayState, ReplayError>, r: Result<(), ReplayError>)
      reads this
    {
      match step
      case Ok(state) => r == Ok(()) && Now() == state
      case Err(problem) => r == Err(problem)
    }

    constructor (ledger: Ledger, events: seq<Event>)
      ensures Now() == FRESH_STATE && this.ledger == ledger && this.events == events
    {
      this.ledger, this.events, history := ledger, events, [];
      intents, risks, reservations, fillIds, actionIds, agedTimes := map[], map[], map[], {}, {}, {};
      approved, rejected, fills, snapshots, reconciliations := 0, 0, 0, 0, 0;
    }

    method Call(op: LedgerOp) returns (r: Result<(), ReplayError>)
      modifies this`history
      ensures Stepped(Do(ledger, old(Now()), op), r)
    {
      if !ledger.accepts(history + [op]) {
        return Err(LedgerRaised);
      }
      history := history + [op];
      r := Ok(());
    }

    // ---- Orders ----

    method TakeIntent(e: Event) returns (r: Result<(), ReplayError>)
      requires e.payload.IntentCreated?
      modifies this`intents
      ensures Moved(old(Now()), StepIntent(old(BookNow()), e), r)
    {
      if e.payload.intent in intents {
        return Err(Mismatch);
      }
      intents := intents[e.payload.intent := (e.payload.key, e.id)];
      r := Ok(());
    }

    method TakeRisk(e: Event) returns (r: Result<(), ReplayError>)
      requires e.payload.RiskDecided?
      modifies this`risks, this`approved, this`rejected
      ensures Moved(old(Now()), StepRisk(old(BookNow()), e), r)
    {
      var id := e.payload.intent;
      if id !in intents || e.causation != Some(intents[id].1) || id in risks {
        return Err(Mismatch);
      }
      match e.payload.outcome {
        case Approve => approved := approved + 1;
        case Reject => rejected := rejected + 1;
        case OtherOutcome(_) => return Err(Mismatch);
      }
      risks := risks[id := (e.payload.outcome, e.id)];
      r := Ok(());
    }

    method TakeReservation(e: Event) returns (r: Result<(), ReplayError>)
      requires e.payload.OrderReserved?
      modifies this`reservations
      ensures Moved(old(Now()), StepReserve(old(BookNow()), e), r)
    {
      var id := e.payload.intent;
      if id !in risks || risks[id].0 != Approve || id in reservations || e.causation != Some(risks[id].1) {
        return Err(Mismatch);
      }
      reservations := reservations[id := (e.payload.remaining, e.payload.status)];
      r := Ok(());
    }

    method TakeUpdate(e: Event) returns (r: Result<(), ReplayError>)
      requires e.payload.ReservationUpdated?
      modifies this`reservations
      ensures Moved(old(Now()), StepUpdate(old(BookNow()), e), r)
    {
      var id := e.payload.intent;
      if id !in reservations {
        return Err(Mismatch);
      }
      var (remaining, status) := reservations[id];
      if status != AwaitingUpdate || e.payload.remaining != remaining {
        return Err(Mismatch);
      }
      var expected := if remaining == 0 then Filled else Active;
      if e.payload.status != expected {
        return Err(Mismatch);
      }
      reservations := reservations[id := (remaining, expected)];
      r := Ok(());
    }

    method TakeRelease(e: Event) returns (r: Result<(), ReplayError>)
      requires e.payload.ReservationReleased?
      modifies this`reservations
      ensures Moved(old(Now()), StepRelease(old(BookNow()), e), r)
    {
      var id := e.payload.intent;
      if id !in reservations {
        return Err(Mismatch);
      }
      var (remaining, status) := reservations[id];
      if status != Active || e.payload.status !in {Cancelled, Expired, Rejected} {
        return Err(Mismatch);
      }
      reservations := reservations[id := (remaining, e.payload.status)];
      r := Ok(());
    }

    /** What a fill does to the orders, before the ledger takes it. */
    method BookFill(e: Event) returns (r: Result<(), ReplayError>)
      requires e.payload.FillReceived?
      modifies this`reservations, this`fillIds, this`fills
      ensures Moved(old(Now()), TakeFill(old(BookNow()), e), r)
    {
      var id := e.payload.intent;
      if e.payload.result.OtherFill? || id !in risks || risks[id].0 != Approve || e.causation != Some(risks[id].1) {
        return Err(Mismatch);
      }
      if e.payload.result == Unfilled {
        return Ok(());
      }
      if e.payload.fill.None? || !e.payload.fill.value.Valid() || id !in reservations {
        return Err(Mismatch);
      }
      var fill := e.payload.fill.value;
      var (remaining, status) := reservations[id];
      if fill.fillId in fillIds || status != Active || fill.quantity > remaining
         || id !in intents || fill.clientOrder != intents[id].0 {
        return Err(Mismatch);
      }
      fillIds, fills := fillIds + {fill.fillId}, fills + 1;
      reservations := reservations[id := (remaining - fill.quantity, AwaitingUpdate)];
      r := Ok(());
    }

    method ReceiveFill(e: Event) returns (r: Result<(), ReplayError>)
      requires e.payload.FillReceived?
      modifies this
      ensures Stepped(StepFill(ledger, old(Now()), e), r)
    {
      hide TakeFill, SimFill.Valid;
      BookedFills(BookNow(), e);
      var booked := BookFill(e);
      if booked.Err? || e.payload.result == Unfilled {
        return booked;
      }
      var called := Call(Applied(e.payload.fill.value, e.time / MINUTES_A_DAY));
      if called.Err? {
        return called;
      }
      if ledger.dueDate(history) != e.payload.due {
        return Err(Mismatch);
      }
      r := Ok(());
    }

    // ---- The ledger ----

    method TakeSettlement(e: Event) returns (r: Result<(), ReplayError>)
      requires e.payload.SettlementProcessed?
      modifies this`history
      ensures Stepped(StepLedger(ledger, ClosesOf(events), old(Now()), e), r)
    {
      var called := Call(Settled(e.payload.date, e.time));
      if called.Err? {
        return called;
      }
      if ledger.settlements(history) != e.payload.processed {
        return Err(Mismatch);
      }
      r := Ok(());
    }

    method TakeAction(e: Event) returns (r: Result<(), ReplayError>)
      requires e.payload.ActionApplied?
      modifies this`history, this`actionIds
      ensures Stepped(StepAction(ledger, old(Now()), e), r)
    {
      var action := e.payload.action;
      if action.id in actionIds || action.version == "" {
        return Err(Mismatch);
      }
      actionIds := actionIds + {action.id};
      var called := Call(Acted(action, e.time));
      if called.Err? {
        return called;
      }
      if ledger.actionResult(history) != e.payload.effect {
        return Err(Mismatch);
      }
      r := Ok(());
    }

    method TakeClose(e: Event) returns (r: Result<(), ReplayError>)
      requires e.payload.MarketClosed?
      modifies this`history, this`agedTimes
      ensures Stepped(StepClose(ledger, ClosesOf(events), old(Now()), e), r)
    {
      if e.time !in agedTimes {
        agedTimes := agedTimes + {e.time};
        var closing := set item <- events | item.payload.MarketClosed? && item.time == e.time ::
          item.payload.instrument;
        var aged := Call(Aged(closing));
        if aged.Err? {
          return aged;
        }
      }
      r := Call(Marked(e.payload.instrument, e.payload.price, e.time, false));
    }

    method TakeReport(e: Event) returns (r: Result<(), ReplayError>)
      requires e.payload.Snapshotted? || e.payload.Reconciled?
      modifies this`snapshots, this`reconciliations
      ensures Stepped(StepSnapshot(ledger, old(Now()), e), r)
    {
      var shown := ledger.snapshot(history, e.time);
      if shown.None? {
        return Err(LedgerRaised);
      }
      if e.payload.checksum != shown.value || e.payload.journalChecksum != ledger.checksum(history) {
        return Err(Mismatch);
      }
      if e.payload.Snapshotted? {
        snapshots := snapshots + 1;
      } else {
        reconciliations := reconciliations + 1;
      }
      r := Ok(());
    }

    method TakeCompletion(e: Event) returns (r: Result<(), ReplayError>)
      requires e.payload.RunCompleted?
      ensures Stepped(StepCompleted(ledger, Now(), e), r)
    {
      if exists id <- reservations :: reservations[id].1 in {Active, AwaitingUpdate} {
        return Err(Mismatch);
      }
      var shown := ledger.snapshot(history, e.time);
      if shown.None? {
        return Err(LedgerRaised);
      }
      if e.payload != RunCompleted(shown.value, ledger.checksum(history), approved, rejected, fills) {
        return Err(Mismatch);
      }
      r := Ok(());
    }

    /** One event. */
    method Take(e: Event) returns (r: Result<(), ReplayError>)
      modifies this
      ensures Stepped(Step(ledger, ClosesOf(events), old(Now()), e), r)
    {
      hide StepIntent, StepRisk, StepReserve, StepUpdate, StepRelease, StepFill, StepAction, StepClose, StepSnapshot,
           StepCompleted, Do, ClosesOf;
      match e.payload {
        case IntentCreated(_, _) => r := TakeIntent(e);
        case SettlementProcessed(_, _) => r := TakeSettlement(e);
        case ActionApplied(_, _) => r := TakeAction(e);
        case MarketOpened(instrument, price) => r := Call(Marked(instrument, price, e.time, true));
        case MarketClosed(_, _) => r := TakeClose(e);
        case RiskDecided(_, _) => r := TakeRisk(e);
        case OrderReserved(_, _, _) => r := TakeReservation(e);
        case FillReceived(_, _, _, _) => r := ReceiveFill(e);
        case ReservationUpdated(_, _, _) => r := TakeUpdate(e);
        case ReservationReleased(_, _, _) => r := TakeRelease(e);
        case Snapshotted(_, _) => r := TakeReport(e);
        case Reconciled(_, _) => r := TakeReport(e);
        case RunCompleted(_, _, _, _, _) => r := TakeCompletion(e);
        case RunStarted => r := Ok(());
        case TargetSet(_) => r := Ok(());
      }
    }
  }

  /** A fill that the orders take is a fill for the ledger, unless it reports none. */
  lemma BookedFills(s: Orders, e: Event)
    requires e.payload.FillReceived?
    ensures TakeFill(s, e).Ok? ==> (IsFill(e) <==> e.payload.result != Unfilled)
    ensures TakeFill(s, e).Ok? && e.payload.result != Unfilled ==> e.payload.fill.Some?
    ensures TakeFill(s, e).Ok? && e.payload.result == Unfilled ==> TakeFill(s, e) == Ok(s)
  {
  }

  /** `replay_events`: rebuilds the journal event by event, then folds it over a fresh ledger. */
  method ReplayEvents(ledger: Ledger, events: seq<Event>) returns (r: Result<ReplayResult, ReplayError>)
    ensures r.Ok? <==> Accepted(ledger, events)
    ensures r.Ok? ==>
              var s := Replayed(ledger, ClosesOf(events), events).value;
              && ledger.snapshot(s.ledger, events[|events| - 1].time) == Some(r.value.finalSnapshot)
              && r.value == ReplayResult(r.value.finalSnapshot, ledger.checksum(s.ledger), s.snapshots,
                                         s.reconciliations)
  {
    hide Step, ClosesOf;
    if events == [] || !events[0].payload.RunStarted? {
      return Err(Mismatch);
    }
    var rebuilt := new DeterministicEventJournal();
    for i := 0 to |events|
      invariant rebuilt.events == events[..i]
      invariant WellFormed(events[..i])
    {
      var event := events[i];
      if event.sequence != i + 1 {
        return Err(Mismatch);
      }
      var recreated := rebuilt.Append(event.time, event.payload, event.causation);
      if recreated.Err? || recreated.value != event {
        return Err(Mismatch);
      }
      assert events[..i + 1] == events[..i] + [event];
    }
    assert events[..|events|] == events;
    if exists i :: 0 <= i < |events| - 1 && events[i].payload.RunCompleted? {
      return Err(Mismatch);
    }
    ghost var keys := ClosesOf(events);
    var totals := new Replayer(ledger, events);
    for i := 1 to |events|
      invariant Replayed(ledger, keys, events[..i]) == Ok(totals.Now())
    {
      ghost var prefix := events[..i + 1];
      assert prefix[..i] == events[..i] && prefix[i] == events[i];
      var taken := totals.Take(events[i]);
      if taken.Err? {
        FailureSticks(ledger, keys, events, i + 1);
        return Err(taken.error);
      }
    }
    var last := events[|events| - 1];
    if !last.payload.RunCompleted? {
      return Err(Mismatch);
    }
    LastStep(ledger, keys, events, totals.Now());
    var shown := ledger.snapshot(totals.history, last.time);
    r := Ok(ReplayResult(shown.value, ledger.checksum(totals.history), totals.snapshots, totals.reconciliations));
  }

  /** The final snapshot exists: completion has just been compared with it. */
  lemma LastStep(ledger: Ledger, keys: int -> set<int>, events: seq<Event>, s: ReplayState)
    requires |events| > 1 || (events != [] && events[0].payload.RunStarted?)
    requires events[|events| - 1].payload.RunCompleted? && Replayed(ledger, keys, events) == Ok(s)
    ensures ledger.snapshot(s.ledger, events[|events| - 1].time).Some?
    ensures NoneOpen(s.orders.reservations)
    ensures events[|events| - 1].payload ==
              RunCompleted(ledger.snapshot(s.ledger, events[|events| - 1].time).value, ledger.checksum(s.ledger),
                           s.orders.approved, s.orders.rejected, s.orders.fills)
  {
  }
}
