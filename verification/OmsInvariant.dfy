/**
 What every reachable database keeps: order rows are the fold of their journals, fill rows are the fill
 events, and reservations follow the orders.
 */
module OmsInvariant {
  import opened FeeTax
  import opened OmsModel
  import opened OmsRuns
  import opened Wrappers

  // ---- The journal determines the order ----

  function FilledBy(e: Event): int {
    if e.payload.FillPayload? then e.payload.quantity else 0
  }

  /** The order row rebuilt from its events. */
  function FoldOrder(id: OrderId, journal: seq<Event>): Order
    requires |journal| >= 1
  {
    var last := journal[|journal| - 1];
    if |journal| == 1 then Order(id, 0, last.state, 1, last.sequence, last.time, last.time)
    else Advanced(FoldOrder(id, journal[..|journal| - 1]), last, FilledBy(last))
  }

  /** The fill rows that a journal's fill events stand for. */
  function FillsIn(id: OrderId, journal: seq<Event>): seq<FillRow> {
    if journal == [] then []
    else
      var last := journal[|journal| - 1];
      var before := FillsIn(id, journal[..|journal| - 1]);
      match (last.payload, last.business)
      case (FillPayload(fillId, quantity, price), FillTag(identity)) =>
        before + [FillRow(id, PaperFill(fillId, identity, quantity, price, last.time))]
      case _ => before
  }

  /** The rows of one order, in the order they were written. */
  function RowsOf(fills: seq<FillRow>, id: OrderId): seq<FillRow> {
    if fills == [] then []
    else
      var last := fills[|fills| - 1];
      RowsOf(fills[..|fills| - 1], id) + if last.order == id then [last] else []
  }

  function FilledSum(rows: seq<FillRow>): int {
    if rows == [] then 0 else FilledSum(rows[..|rows| - 1]) + rows[|rows| - 1].fill.quantity
  }

  // ---- Well-formed journals ----

  /** How a business identity, the state and the payload of an event go together. */
  predicate Shaped(e: Event) {
    && (e.payload.FillPayload? <==> e.business.FillTag?)
    && match e.business
       case NamedTag(s) => e.state == s && s in {RiskPending, RiskApproved, RiskRejected, Submitted, Acknowledged,
                                                 Rejected}
       case CreatedTag => e.state == Created
       case SubmitTag => e.state == SubmitPending
       case FillTag(_) => e.state in {PartiallyFilled, Filled}
       case CancelTag => e.state == CancelPending
       case CancelResultTag(status) => e.state == if status == "cancelled" then Cancelled else Unknown
       case ReplaceTag => e.state == ReplacePending
       case ReplaceResultTag(status) => e.state == if status == "replaced" then Replaced else Unknown
       case RecoveryTag(n) => e.previous == Some(Unknown) && n == e.sequence
  }

  predicate Chained(journal: seq<Event>) {
    forall i :: 1 <= i < |journal| ==>
      && journal[i].sequence == i + 1
      && journal[i].previous == Some(journal[i - 1].state)
      && journal[i].state in AllowedTransitions(journal[i - 1].state)
  }

  predicate GoodJournal(journal: seq<Event>) {
    && |journal| >= 1 && journal[0].sequence == 1 && journal[0].business == CreatedTag
    && (forall i :: 0 <= i < |journal| ==> Shaped(journal[i]))
    && Chained(journal)
    && (forall i, k :: 0 <= i < k < |journal| ==> journal[i].business != journal[k].business)
  }

  // ---- The invariant ----

  ghost predicate OrderOk(id: OrderId, o: Order, journal: seq<Event>, rows: seq<FillRow>) {
    && GoodJournal(journal)
    && o == FoldOrder(id, journal)
    && rows == FillsIn(id, journal)
    && id.quantity >= 1 && 0 <= o.filled <= id.quantity
    && o.filled == FilledSum(rows)
    && (o.state == Filled <==> o.filled == id.quantity)
    && o.state == journal[|journal| - 1].state && o.id == id
    && o.version == o.sequence == |journal|
    && (|rows| == 0 ==> o.filled == 0)
    && (!WasSubmitted(o.state) ==> rows == [])
  }

  /** The states of an order that has been handed to the outbox. */
  predicate WasSubmitted(s: OrderState) {
    s !in {Created, RiskPending, RiskApproved, RiskRejected}
  }

  predicate EndsInRecovery(journal: seq<Event>) {
    |journal| >= 1 && journal[|journal| - 1].business.RecoveryTag?
  }

  /** The reserved cash against the proportional part of the granted cash, after `n` fills. */
  predicate CashOk(id: OrderId, remaining: int, n: nat, r: Reservation) {
    if id.side == Sell then r.granted == 0.0 && r.cash == 0.0
    else
      && r.granted > 0.0
      && (r.active ==>
            && 0.0 < r.cash
            && (if n == 0 then r.cash == r.granted else r.cash < r.granted)
            && (if n <= 1 then r.cash * (id.quantity as real) == r.granted * (remaining as real)
                else r.cash * (id.quantity as real) < r.granted * (remaining as real)))
  }

  predicate ReservationOk(id: OrderId, o: Order, journal: seq<Event>, n: nat, r: Reservation) {
    && r.original == id.quantity
    && (r.active <==> !IsTerminal(o.state) || EndsInRecovery(journal))
    && (r.active ==> r.quantity == id.quantity - o.filled)
    && (!r.active ==> r.cash == 0.0 && r.quantity == 0)
    && CashOk(id, id.quantity - o.filled, n, r)
  }

  ghost predicate OutboxOk(db: Db) {
    && (forall i, k :: 0 <= i < k < |db.outbox| ==> Before(db.outbox[i], db.outbox[k]))
    && (forall i, k :: 0 <= i < k < |db.outbox| ==> db.outbox[i].key != db.outbox[k].key)
    && (forall i :: 0 <= i < |db.outbox| ==>
          db.outbox[i].order in db.reservations && db.outbox[i].key == db.outbox[i].order.key)
  }

  ghost predicate KeysUnique(db: Db) {
    forall a, b :: a in db.orders && b in db.orders && a.key == b.key ==> a == b
  }

  /** The part of the invariant about one order. */
  ghost predicate RowOk(db: Db, id: OrderId)
    requires id in db.orders && id in db.journal
  {
    && OrderOk(id, db.orders[id], db.journal[id], RowsOf(db.fills, id))
    && (id in db.reservations <==> WasSubmitted(db.orders[id].state))
    && (id in db.reservations ==>
          ReservationOk(id, db.orders[id], db.journal[id], |RowsOf(db.fills, id)|, db.reservations[id]))
  }

  ghost predicate FillsBelong(db: Db) {
    forall i :: 0 <= i < |db.fills| ==> db.fills[i].order in db.orders
  }

  ghost predicate Inv(db: Db) {
    && db.orders.Keys == db.journal.Keys
    && db.reservations.Keys <= db.orders.Keys
    && (forall id :: id in db.orders ==> RowOk(db, id))
    && FillsBelong(db)
    && KeysUnique(db)
    && OutboxOk(db)
  }

  /** The invariant of one order, taken apart. */
  lemma RowParts(db: Db, id: OrderId)
    requires Inv(db) && id in db.orders
    ensures id in db.journal && OrderOk(id, db.orders[id], db.journal[id], RowsOf(db.fills, id))
    ensures id in db.reservations <==> WasSubmitted(db.orders[id].state)
    ensures id in db.reservations ==>
              ReservationOk(id, db.orders[id], db.journal[id], |RowsOf(db.fills, id)|, db.reservations[id])
  {
    hide OrderOk, ReservationOk, WasSubmitted, RowsOf, OutboxOk, KeysUnique, FillsBelong;
    assert RowOk(db, id);
  }

  // ---- Rows ----

  lemma RowsAppend(fills: seq<FillRow>, row: FillRow, id: OrderId)
    ensures RowsOf(fills + [row], id) == RowsOf(fills, id) + if row.order == id then [row] else []
  {
    assert (fills + [row])[..|fills|] == fills;
  }

  lemma {:induction false} RowsOfStranger(fills: seq<FillRow>, id: OrderId)
    requires forall i :: 0 <= i < |fills| ==> fills[i].order != id
    ensures RowsOf(fills, id) == []
  {
    if fills != [] {
      RowsOfStranger(fills[..|fills| - 1], id);
    }
  }

  // ---- Each transaction keeps the invariant ----

  /** The rows of one order are the same in both databases. */
  ghost predicate SameRow(db: Db, after: Db, id: OrderId) {
    && id in db.orders && id in after.orders && id in db.journal && id in after.journal
    && after.orders[id] == db.orders[id]
    && after.journal[id] == db.journal[id]
    && RowsOf(after.fills, id) == RowsOf(db.fills, id)
    && (id in after.reservations <==> id in db.reservations)
    && (id in db.reservations ==> after.reservations[id] == db.reservations[id])
  }

  /** `after` differs from `db` only in the rows of `id`. */
  ghost predicate OnlyTouches(db: Db, after: Db, id: OrderId) {
    && (forall x :: x in after.orders <==> x in db.orders || x == id)
    && (forall x :: x in after.journal <==> x in after.orders)
    && (forall x :: x in after.reservations ==> x in after.orders)
    && (forall other :: other in db.orders && other != id ==> SameRow(db, after, other))
  }

  lemma SameRowOk(db: Db, after: Db, id: OrderId)
    requires SameRow(db, after, id) && RowOk(db, id)
    ensures RowOk(after, id)
  {
    hide OrderOk, ReservationOk, RowsOf;
  }

  lemma Rebuilt(db: Db, after: Db, id: OrderId)
    requires Inv(db) && OnlyTouches(db, after, id)
    requires RowOk(after, id) && FillsBelong(after) && KeysUnique(after) && OutboxOk(after)
    ensures Inv(after)
  {
    hide RowOk, SameRow, OutboxOk, KeysUnique, FillsBelong;
    forall other | other in after.orders
      ensures RowOk(after, other)
    {
      if other != id {
        assert SameRow(db, after, other) && RowOk(db, other);
        SameRowOk(db, after, other);
      }
    }
  }

  /** The parts of the invariant that are not about single orders. */
  lemma TableParts(db: Db)
    requires Inv(db)
    ensures db.orders.Keys == db.journal.Keys && db.reservations.Keys <= db.orders.Keys
    ensures FillsBelong(db) && KeysUnique(db) && OutboxOk(db)
  {
    hide RowOk, FillsBelong, KeysUnique, OutboxOk;
  }

  lemma NewOrderOk(id: OrderId, at: int)
    requires id.quantity >= 1
    ensures OrderOk(id, NewOrder(id, at), [CreationEvent(at)], [])
  {
  }

  lemma CreatedFrame(db: Db, id: OrderId, at: int, after: Db)
    requires Inv(db) && id.quantity >= 1 && id !in db.orders
    requires forall other :: other in db.orders ==> other.key != id.key
    requires after == db.(orders := db.orders[id := NewOrder(id, at)], journal := db.journal[id := [CreationEvent(at)]])
    ensures OnlyTouches(db, after, id) && FillsBelong(after) && KeysUnique(after) && OutboxOk(after)
  {
    hide Inv, RowsOf, KeysUnique, OutboxOk, FillsBelong;
    TableParts(db);
    CreatedTables(db, id, after);
    forall other | other in db.orders && other != id
      ensures SameRow(db, after, other)
    {
    }
  }

  lemma CreatedTables(db: Db, id: OrderId, after: Db)
    requires FillsBelong(db) && KeysUnique(db) && OutboxOk(db)
    requires forall other :: other in db.orders ==> other.key != id.key
    requires after.orders.Keys == db.orders.Keys + {id} && after.fills == db.fills && after.outbox == db.outbox
    requires after.reservations == db.reservations
    ensures FillsBelong(after) && KeysUnique(after) && OutboxOk(after)
  {
  }

  lemma CreatedRow(db: Db, id: OrderId, at: int, after: Db)
    requires Inv(db) && id.quantity >= 1 && id !in db.orders
    requires after == db.(orders := db.orders[id := NewOrder(id, at)], journal := db.journal[id := [CreationEvent(at)]])
    ensures RowOk(after, id)
  {
    hide OrderOk, RowsOf, ReservationOk, KeysUnique, OutboxOk;
    RowsOfStranger(db.fills, id);
    NewOrderOk(id, at);
  }

  lemma CreateKeeps(db: Db, id: OrderId, at: int)
    requires Inv(db) && id.quantity >= 1 && ByKey(db, id.key).None? && Create(db, id, at).Ok?
    ensures Inv(Create(db, id, at).value.0)
    ensures id !in db.orders
    ensures Create(db, id, at).value.1 == Create(db, id, at).value.0.orders[id]
  {
    hide RowOk, FillsBelong, KeysUnique, OutboxOk, OnlyTouches;
    var after := Create(db, id, at).value.0;
    CreatedRow(db, id, at, after);
    CreatedFrame(db, id, at, after);
    Rebuilt(db, after, id);
  }

  /** Appending an accepted event keeps a journal well formed. */
  lemma JournalAdvances(journal: seq<Event>, e: Event)
    requires GoodJournal(journal) && Shaped(e) && !EventConflicts(journal, e)
    requires e.sequence == |journal| + 1
    requires e.previous == Some(journal[|journal| - 1].state)
             && e.state in AllowedTransitions(journal[|journal| - 1].state)
    ensures GoodJournal(journal + [e])
  {
    hide Shaped, AllowedTransitions;
  }

  /** No event follows a terminal state, and submitted orders stay submitted. */
  lemma TransitionFacts(s: OrderState, next: OrderState)
    requires next in AllowedTransitions(s)
    ensures !IsTerminal(s)
    ensures WasSubmitted(s) ==> WasSubmitted(next)
    ensures next == SubmitPending ==> s in {RiskApproved, Replaced}
    ensures !WasSubmitted(s) && WasSubmitted(next) ==> next == SubmitPending
  {
  }

  lemma OnlyFillsFill(e: Event, previous: OrderState)
    requires Shaped(e) && e.payload.NoPayload? && e.previous == Some(previous)
             && e.state in AllowedTransitions(previous)
    ensures e.state != Filled
  {
  }

  lemma LastState(journal: seq<Event>)
    requires GoodJournal(journal)
    ensures |journal| >= 1
  {
  }

  /** Appending an accepted event keeps one order's invariant. */
  lemma OrderAdvances(id: OrderId, o: Order, journal: seq<Event>, rows: seq<FillRow>, e: Event, version: int)
    requires OrderOk(id, o, journal, rows)
    requires CheckEvent(o, e, version).None? && Shaped(e) && !EventConflicts(journal, e)
    requires e.payload.NoPayload?
    ensures OrderOk(id, Advanced(o, e, 0), journal + [e], rows)
  {
    hide GoodJournal, AllowedTransitions, WasSubmitted, FilledSum, EventConflicts;
    LastState(journal);
    JournalAdvances(journal, e);
    TransitionFacts(o.state, e.state);
    OnlyFillsFill(e, o.state);
    assert (journal + [e])[..|journal|] == journal;
  }

  lemma OrderFills(id: OrderId, o: Order, journal: seq<Event>, rows: seq<FillRow>, fill: PaperFill, version: int)
    requires OrderOk(id, o, journal, rows) && fill.quantity >= 0
    requires CheckEvent(o, FillEvent(o, fill), version).None? && !EventConflicts(journal, FillEvent(o, fill))
    requires 0 < o.filled + fill.quantity <= id.quantity
    ensures OrderOk(id, Advanced(o, FillEvent(o, fill), fill.quantity), journal + [FillEvent(o, fill)],
                    rows + [FillRow(id, fill)])
  {
    hide GoodJournal, AllowedTransitions, EventConflicts;
    var e := FillEvent(o, fill);
    LastState(journal);
    JournalAdvances(journal, e);
    TransitionFacts(o.state, e.state);
    assert (journal + [e])[..|journal|] == journal;
    assert (rows + [FillRow(id, fill)])[..|rows|] == rows;
  }

  /** The release flag and the submission go with the kinds of event the service pairs them with. */
  predicate ServiceEvent(e: Event, submission: Option<Submission>, release: bool) {
    && Shaped(e) && e.payload.NoPayload?
    && (submission.Some? <==> e.business == SubmitTag)
    && (release <==> IsTerminal(e.state) && e.state != RiskRejected && !e.business.RecoveryTag?)
  }

  predicate SubmissionOk(id: OrderId, submission: Option<Submission>) {
    submission.Some? ==>
      && submission.value.quantity == id.quantity
      && (if id.side == Sell then submission.value.cash == 0.0 else submission.value.cash > 0.0)
  }

  /** The reservation of an order after an event without a fill. */
  lemma ReservationFollows(id: OrderId, o: Order, journal: seq<Event>, rows: seq<FillRow>, r: Reservation, e: Event,
                           release: bool, version: int)
    requires OrderOk(id, o, journal, rows) && ReservationOk(id, o, journal, |rows|, r)
    requires CheckEvent(o, e, version).None? && ServiceEvent(e, None, release) && WasSubmitted(o.state)
    ensures ReservationOk(id, Advanced(o, e, 0), journal + [e], |rows|, if release then Released(r) else r)
  {
    hide OrderOk, AllowedTransitions;
    TransitionFacts(o.state, e.state);
  }

  lemma InsertRowOk(outbox: seq<OutboxRow>, row: OutboxRow)
    requires forall i, k :: 0 <= i < k < |outbox| ==> Before(outbox[i], outbox[k])
    requires forall i, k :: 0 <= i < k < |outbox| ==> outbox[i].key != outbox[k].key
    requires !HasOutboxKey(outbox, row.key)
    ensures var r := InsertRow(outbox, row);
            && (forall i, k :: 0 <= i < k < |r| ==> Before(r[i], r[k]))
            && (forall i, k :: 0 <= i < k < |r| ==> r[i].key != r[k].key)
            && (forall x :: x in r <==> x == row || x in outbox)
  {
    if outbox != [] && !Before(row, outbox[0]) {
      var tail := outbox[1..];
      assert forall i :: 0 <= i < |tail| ==> tail[i] == outbox[i + 1];
      InsertRowOk(tail, row);
      var r, t := InsertRow(outbox, row), InsertRow(tail, row);
      assert forall x :: x in outbox <==> x == outbox[0] || x in tail;
      forall x | x in t
        ensures Before(outbox[0], x) && outbox[0].key != x.key
      {
        if x != row {
          var i :| 0 <= i < |tail| && tail[i] == x;
        }
      }
    }
  }

  /** The tables after an accepted event: rows of `id` replaced, `reservations` given. */
  function Moved(db: Db, id: OrderId, e: Event, reservations: map<OrderId, Reservation>): Db
    requires id in db.orders && id in db.journal
  {
    db.(orders := db.orders[id := Advanced(db.orders[id], e, 0)], journal := db.journal[id := db.journal[id] + [e]],
        reservations := reservations)
  }

  /** Keys and outbox rows only depend on which orders and reservations exist. */
  lemma SideTables(db: Db, after: Db)
    requires KeysUnique(db) && OutboxOk(db)
    requires after.orders.Keys == db.orders.Keys && after.outbox == db.outbox
    requires db.reservations.Keys <= after.reservations.Keys
    ensures KeysUnique(after) && OutboxOk(after)
  {
  }

  /** What an event without a fill leaves untouched. */
  lemma MovedFrame(db: Db, id: OrderId, e: Event, reservations: map<OrderId, Reservation>)
    requires Inv(db) && id in db.orders && reservations.Keys ==
             db.reservations.Keys + (if id in reservations then {id} else {})
    requires forall other :: other in reservations && other != id ==>
               other in db.reservations && reservations[other] == db.reservations[other]
    ensures OnlyTouches(db, Moved(db, id, e, reservations), id)
    ensures FillsBelong(Moved(db, id, e, reservations)) && KeysUnique(Moved(db, id, e, reservations))
    ensures OutboxOk(Moved(db, id, e, reservations))
  {
    hide Inv, RowsOf, KeysUnique, OutboxOk, FillsBelong, Advanced;
    TableParts(db);
    var after := Moved(db, id, e, reservations);
    assert after.orders.Keys == db.orders.Keys;
    SideTables(db, after);
    FillsBelongSame(db, after);
    forall other | other in db.orders && other != id
      ensures SameRow(db, after, other)
    {
    }
  }

  lemma EventRow(db: Db, id: OrderId, e: Event, version: int, release: bool)
    requires id in db.orders && id in db.journal && RowOk(db, id) && ServiceEvent(e, None, release)
    requires CheckEvent(db.orders[id], e, version).None? && !EventConflicts(db.journal[id], e)
    ensures var kept := if release && id in db.reservations then db.reservations[id := Released(db.reservations[id])]
            else db.reservations;
            RowOk(Moved(db, id, e, kept), id)
  {
    hide OrderOk, ReservationOk, RowsOf, WasSubmitted, EventConflicts, CheckEvent, Released;
    var o, journal, rows := db.orders[id], db.journal[id], RowsOf(db.fills, id);
    OrderAdvances(id, o, journal, rows, e, version);
    EventState(o, e, version, release);
    if id in db.reservations {
      ReservationFollows(id, o, journal, rows, db.reservations[id], e, release, version);
    }
  }

  lemma EventState(o: Order, e: Event, version: int, release: bool)
    requires CheckEvent(o, e, version).None? && ServiceEvent(e, None, release)
    ensures WasSubmitted(o.state) <==> WasSubmitted(e.state)
  {
    TransitionFacts(o.state, e.state);
  }

  lemma PlainKeeps(db: Db, id: OrderId, e: Event, version: int, release: bool)
    requires Inv(db) && id in db.orders && ServiceEvent(e, None, release)
    requires CheckEvent(db.orders[id], e, version).None? && !EventConflicts(db.journal[id], e)
    ensures var kept := if release && id in db.reservations then db.reservations[id := Released(db.reservations[id])]
            else db.reservations;
            Inv(Moved(db, id, e, kept))
  {
    hide RowOk, FillsBelong, KeysUnique, OutboxOk, OnlyTouches, ServiceEvent, CheckEvent, EventConflicts, Released;
    var kept := if release && id in db.reservations then db.reservations[id := Released(db.reservations[id])]
        else db.reservations;
    EventRow(db, id, e, version, release);
    MovedFrame(db, id, e, kept);
    Rebuilt(db, Moved(db, id, e, kept), id);
  }

  lemma SubmitRow(db: Db, id: OrderId, e: Event, version: int, s: Submission)
    requires id in db.orders && id in db.journal && RowOk(db, id) && ServiceEvent(e, Some(s), false)
             && SubmissionOk(id, Some(s))
    requires CheckEvent(db.orders[id], e, version).None? && !EventConflicts(db.journal[id], e)
    requires id !in db.reservations
    ensures RowOk(Moved(db, id, e, db.reservations[id := Reservation(s.cash, s.quantity, id.quantity, true, s.cash)]),
                  id)
  {
    hide OrderOk, ReservationOk, RowsOf, EventConflicts, CheckEvent;
    var o, journal, rows := db.orders[id], db.journal[id], RowsOf(db.fills, id);
    OrderAdvances(id, o, journal, rows, e, version);
    GrantedOk(id, o, journal, rows, e, s);
    assert WasSubmitted(e.state);
  }

  lemma SubmitKeeps(db: Db, id: OrderId, e: Event, version: int, s: Submission)
    requires Inv(db) && id in db.orders && ServiceEvent(e, Some(s), false) && SubmissionOk(id, Some(s))
    requires CheckEvent(db.orders[id], e, version).None? && !EventConflicts(db.journal[id], e)
    requires !HasOutboxKey(db.outbox, id.key) && id !in db.reservations
    ensures var row := OutboxRow(id.key, id, e.time, None, 0);
            var granted := Reservation(s.cash, s.quantity, id.quantity, true, s.cash);
            Inv(Moved(db, id, e, db.reservations[id := granted]).(outbox := InsertRow(db.outbox, row)))
  {
    hide FillsBelong, OnlyTouches, ServiceEvent, CheckEvent, EventConflicts, OrderOk, ReservationOk, RowsOf, OutboxOk;
    var row := OutboxRow(id.key, id, e.time, None, 0);
    var kept := db.reservations[id := Reservation(s.cash, s.quantity, id.quantity, true, s.cash)];
    SubmitRow(db, id, e, version, s);
    MovedFrame(db, id, e, kept);
    var moved := Moved(db, id, e, kept);
    Rebuilt(db, moved, id);
    var after := moved.(outbox := InsertRow(db.outbox, row));
    OutboxGrows(db, after, row);
    assert forall other :: other in after.orders ==> RowOk(moved, other) && RowOk(after, other);
    assert FillsBelong(after) by { FillsBelongSame(moved, after); }
  }

  lemma FillsBelongSame(db: Db, after: Db)
    requires FillsBelong(db) && after.fills == db.fills && db.orders.Keys <= after.orders.Keys
    ensures FillsBelong(after)
  {
  }

  /** A new reservation holds the whole order and all of the granted cash. */
  lemma GrantedOk(id: OrderId, o: Order, journal: seq<Event>, rows: seq<FillRow>, e: Event, s: Submission)
    requires OrderOk(id, o, journal, rows) && !WasSubmitted(o.state) && SubmissionOk(id, Some(s))
    requires e.state == SubmitPending
    ensures ReservationOk(id, Advanced(o, e, 0), journal + [e], |rows|,
                          Reservation(s.cash, s.quantity, id.quantity, true, s.cash))
  {
    hide GoodJournal, FoldOrder, FillsIn, FilledSum;
  }

  lemma OutboxGrows(db: Db, after: Db, row: OutboxRow)
    requires OutboxOk(db) && !HasOutboxKey(db.outbox, row.key)
    requires after.outbox == InsertRow(db.outbox, row)
    requires row.order in after.reservations && row.key == row.order.key
    requires db.reservations.Keys <= after.reservations.Keys
    ensures OutboxOk(after)
  {
    InsertRowOk(db.outbox, row);
    forall i | 0 <= i < |after.outbox|
      ensures after.outbox[i].order in after.reservations && after.outbox[i].key == after.outbox[i].order.key
    {
      assert after.outbox[i] in after.outbox;
    }
  }

  lemma TransitionKeeps(db: Db, id: OrderId, e: Event, version: int, submission: Option<Submission>, release: bool)
    requires Inv(db) && ServiceEvent(e, submission, release) && SubmissionOk(id, submission)
    requires Transition(db, id, e, version, submission, release).Ok?
    ensures var (after, o) := Transition(db, id, e, version, submission, release).value;
            Inv(after) && id in after.orders && o == after.orders[id]
  {
    hide RowOk, OutboxOk, KeysUnique, FillsBelong;
    if !HasIdentity(db.journal[id], e) {
      if submission.Some? {
        SubmitKeeps(db, id, e, version, submission.value);
      } else {
        PlainKeeps(db, id, e, version, release);
      }
    }
  }

  // ---- Fills ----

  /** Scaling by `after / original` stays at or below the proportional part; it is exact for the first fill only. */
  lemma ScaledCash(cash: real, granted: real, first: bool, after: int, original: int, scaled: real)
    requires 0 <= after < original && 0.0 < cash
    requires if first then cash == granted else cash < granted
    requires scaled == cash * (after as real) / (original as real)
    ensures after == 0 ==> scaled == 0.0
    ensures after > 0 ==>
              && 0.0 < scaled < granted
              && (if first then scaled * (original as real) == granted * (after as real)
                  else scaled * (original as real) < granted * (after as real))
  {
    assert scaled * (original as real) == cash * (after as real);
  }

  lemma ReservationFills(id: OrderId, o: Order, journal: seq<Event>, rows: seq<FillRow>, r: Reservation,
                         fill: PaperFill, version: int)
    requires OrderOk(id, o, journal, rows) && ReservationOk(id, o, journal, |rows|, r) && fill.quantity >= 0
    requires CheckEvent(o, FillEvent(o, fill), version).None? && 0 < o.filled + fill.quantity <= id.quantity
    ensures ReservationOk(id, Advanced(o, FillEvent(o, fill), fill.quantity), journal + [FillEvent(o, fill)],
                          |rows| + 1,
                          Scaled(r, id.quantity - (o.filled + fill.quantity)))
  {
    hide GoodJournal, FoldOrder, FillsIn, FilledSum;
    TransitionFacts(o.state, FillEvent(o, fill).state);
    var after := id.quantity - (o.filled + fill.quantity);
    assert r.active;
    if id.side == Buy {
      ScaledCash(r.cash, r.granted, |rows| == 0, after, id.quantity, Scaled(r, after).cash);
    }
  }

  lemma TransitionFillKeeps(db: Db, id: OrderId, version: int, fill: PaperFill)
    requires Inv(db) && id in db.orders && fill.quantity >= 0
    requires TransitionFill(db, id, FillEvent(db.orders[id], fill), version, fill).Ok?
    ensures var (after, o) := TransitionFill(db, id, FillEvent(db.orders[id], fill), version, fill).value;
            Inv(after) && id in after.orders && o == after.orders[id]
  {
    hide RowOk, FillsBelong, KeysUnique, OutboxOk, OnlyTouches, CheckEvent, EventConflicts, HasIdentity, FillEvent;
    if FindFill(db.fills, fill.identity).None? {
      var after := TransitionFill(db, id, FillEvent(db.orders[id], fill), version, fill).value.0;
      FillRowOk(db, id, version, fill);
      FillFrame(db, id, fill, after);
      Rebuilt(db, after, id);
    }
  }

  /** The tables after an accepted fill. */
  function FilledDb(db: Db, id: OrderId, fill: PaperFill): Db
    requires id in db.orders && id in db.journal
  {
    var o := db.orders[id];
    var e := FillEvent(o, fill);
    db.(orders := db.orders[id := Advanced(o, e, fill.quantity)], journal := db.journal[id := db.journal[id] + [e]],
        fills := db.fills + [FillRow(id, fill)],
        reservations := if id in db.reservations
                        then db.reservations[id := Scaled(db.reservations[id],
                                                          id.quantity - (o.filled + fill.quantity))]
                        else db.reservations)
  }

  lemma FillFrame(db: Db, id: OrderId, fill: PaperFill, after: Db)
    requires Inv(db) && id in db.orders && after == FilledDb(db, id, fill)
    ensures OnlyTouches(db, after, id)
    ensures FillsBelong(after) && KeysUnique(after) && OutboxOk(after)
  {
    hide Inv, RowsOf, KeysUnique, OutboxOk, FillsBelong, FillEvent, Advanced, Scaled;
    TableParts(db);
    SideTables(db, after);
    FillBelongs(db, after, FillRow(id, fill));
    forall other | other in db.orders && other != id
      ensures SameRow(db, after, other)
    {
      RowsAppend(db.fills, FillRow(id, fill), other);
    }
  }

  lemma FillBelongs(db: Db, after: Db, row: FillRow)
    requires FillsBelong(db) && after.fills == db.fills + [row] && row.order in db.orders
    requires db.orders.Keys == after.orders.Keys
    ensures FillsBelong(after)
  {
  }

  lemma FillRowOk(db: Db, id: OrderId, version: int, fill: PaperFill)
    requires id in db.orders && id in db.journal && RowOk(db, id) && fill.quantity >= 0
    requires CheckEvent(db.orders[id], FillEvent(db.orders[id], fill), version).None?
    requires !EventConflicts(db.journal[id], FillEvent(db.orders[id], fill))
    requires 0 < db.orders[id].filled + fill.quantity <= id.quantity
    ensures RowOk(FilledDb(db, id, fill), id)
  {
    hide OrderOk, ReservationOk, RowsOf, WasSubmitted, EventConflicts, CheckEvent, Scaled, FillEvent;
    var o, journal, rows := db.orders[id], db.journal[id], RowsOf(db.fills, id);
    OrderFills(id, o, journal, rows, fill, version);
    RowsAppend(db.fills, FillRow(id, fill), id);
    FillStates(o, fill, version);
    if id in db.reservations {
      ReservationFills(id, o, journal, rows, db.reservations[id], fill, version);
    }
  }

  lemma FillStates(o: Order, fill: PaperFill, version: int)
    requires CheckEvent(o, FillEvent(o, fill), version).None?
    ensures WasSubmitted(o.state) && WasSubmitted(FillEvent(o, fill).state)
  {
  }

  // ---- The outbox updates ----

  lemma CoreKeeps(db: Db)
    requires Inv(db)
    ensures Inv(Core(db))
  {
    hide RowOk;
    var after := Core(db);
    assert forall id :: id in db.orders && id in db.journal ==> RowOk(after, id) by {
      SameRows(db, after);
    }
  }

  lemma CoreReflects(db: Db)
    requires Inv(Core(db))
    ensures Inv(db)
  {
    hide RowOk;
    SameRows(Core(db), db);
    var core := Core(db);
    assert forall i :: 0 <= i < |db.outbox| ==> core.outbox[i] == db.outbox[i].(attempts := 0);
  }

  lemma SameRows(db: Db, after: Db)
    requires after == db.(outbox := after.outbox)
    ensures forall id :: id in db.orders && id in db.journal && RowOk(db, id) ==> RowOk(after, id)
  {
    hide OrderOk, ReservationOk, RowsOf;
  }

  lemma DeliveredKeeps(db: Db, row: OutboxRow, at: int)
    requires Inv(db)
    ensures Inv(Delivered(db, row, at))
  {
    hide RowOk;
    var after := Delivered(db, row, at);
    SameRows(db, after);
  }
}
