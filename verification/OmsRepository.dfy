/**
 The repository as an object: one method per transaction. Any of them may be the point where the process
 dies, which leaves the tables as they were.
 */
module OmsRepository {
  import opened OmsInvariant
  import opened OmsModel
  import opened RowSums
  import opened Wrappers

  /** The outcome of a transaction: committed as specified, rolled back, or never started. */
  ghost predicate Transacted(before: Db, spec: Result<(Db, Order), OmsError>, after: Db, r: Result<Order, OmsError>) {
    || (r == Err(Crashed) && after == before)
    || match spec
       case Ok((db, o)) => r == Ok(o) && after == db
       case Err(problem) => r == Err(problem) && after == before
  }

  /** By creation time, then key. */
  predicate InQueryOrder(rows: seq<OutboxRow>) {
    forall i, k :: 0 <= i < k < |rows| ==>
      rows[i].createdAt < rows[k].createdAt || (rows[i].createdAt == rows[k].createdAt && rows[i].key < rows[k].key)
  }

  lemma {:induction false} PendingBefore(outbox: seq<OutboxRow>)
    requires forall i, k :: 0 <= i < k < |outbox| ==> Before(outbox[i], outbox[k])
    ensures forall i, k :: 0 <= i < k < |Pending(outbox)| ==> Before(Pending(outbox)[i], Pending(outbox)[k])
    ensures forall row <- Pending(outbox) :: row in outbox
  {
    hide Before;
    if outbox != [] {
      PendingBefore(outbox[1..]);
      forall row | row in outbox[1..]
        ensures row in outbox && Before(outbox[0], row)
      {
        var k :| 0 <= k < |outbox| - 1 && outbox[1..][k] == row;
        assert outbox[k + 1] == row;
      }
    }
  }

  lemma PendingFrom(outbox: seq<OutboxRow>, i: nat)
    requires i < |outbox|
    ensures Pending(outbox[i..]) == (if outbox[i].delivered.None? then [outbox[i]] else []) + Pending(outbox[i + 1..])
  {
    assert outbox[i..][1..] == outbox[i + 1..];
  }

  lemma PendingInOrder(db: Db)
    requires OutboxOk(db)
    ensures InQueryOrder(Pending(db.outbox))
  {
    PendingBefore(db.outbox);
  }

  /** What the uniqueness constraints of the events table compare. */
  lemma EventConstraints(journal: seq<Event>, e: Event)
    ensures HasIdentity(journal, e) <==>
            exists other <- journal :: other.sequence == e.sequence && other.state == e.state
                                       && other.business == e.business && other.payload == e.payload
    ensures EventConflicts(journal, e) <==>
            exists other <- journal :: other.business == e.business || other.sequence == e.sequence
    ensures HasIdentity(journal, e) ==> EventConflicts(journal, e)
  {
    if other :| other in journal && other.sequence == e.sequence && other.state == e.state
                && other.business == e.business && other.payload == e.payload {
      var i :| 0 <= i < |journal| && journal[i] == other;
      assert SameIdentity(journal[i], e);
    }
  }

  lemma RowConstraints(fills: seq<FillRow>, outbox: seq<OutboxRow>)
    ensures forall fillId :: HasFillId(fills, fillId) <==> exists row <- fills :: row.fill.fillId == fillId
    ensures forall key :: HasOutboxKey(outbox, key) <==> exists row <- outbox :: row.key == key
  {
  }

  lemma ScaledIs(r: Reservation, remaining: int, cash: real)
    requires r.active && r.original > 0 ==> cash == r.cash * (remaining as real) / (r.original as real)
    ensures Scaled(r, remaining) ==
            if r.active && r.original > 0
            then r.(cash := cash, quantity := if r.quantity < remaining then r.quantity else remaining,
                    active := remaining != 0)
            else r
  {
  }

  class Repository {
    var orders: map<OrderId, Order>
    var journal: map<OrderId, seq<Event>>
    var fills: seq<FillRow>
    var outbox: seq<OutboxRow>
    var reservations: map<OrderId, Reservation>

    /** The tables as one value. */
    function Snapshot(): Db
      reads this
    {
      Db(orders, journal, fills, outbox, reservations)
    }

    constructor ()
      ensures Snapshot() == EMPTY_DB
    {
      orders, journal, fills, outbox, reservations := map[], map[], [], [], map[];
    }

    /** Whether the process dies before the next commit. */
    method Dies() returns (dies: bool)
    {
      dies := *;
    }

    method Get(id: OrderId) returns (r: Result<Order, OmsError>)
      ensures r == if id in orders then Ok(orders[id]) else Err(OrderNotFound)
    {
      r := if id in orders then Ok(orders[id]) else Err(OrderNotFound);
    }

    method ByIdempotencyKey(key: int) returns (r: Option<Order>)
      requires Inv(Snapshot())
      ensures r == ByKey(Snapshot(), key)
    {
      hide OrderOk, ReservationOk, RowsOf, OutboxOk, FillsBelong;
      if id: OrderId :| id in orders && id.key == key {
        assert KeysUnique(Snapshot());
        r := Some(orders[id]);
      } else {
        r := None;
      }
    }

    /** `list_orders`: every order row, once. */
    method ListOrders() returns (rows: seq<Order>)
      requires forall id <- orders :: orders[id].id == id
      ensures forall i :: 0 <= i < |rows| ==> rows[i].id in orders && orders[rows[i].id] == rows[i]
      ensures forall i, j :: 0 <= i < j < |rows| ==> rows[i].id != rows[j].id
      ensures forall id :: id in orders ==> exists i :: 0 <= i < |rows| && rows[i].id == id
    {
      rows := [];
      var left := orders.Keys;
      while left != {}
        invariant left <= orders.Keys
        invariant forall i :: 0 <= i < |rows| ==>
                    rows[i].id in orders && orders[rows[i].id] == rows[i] && rows[i].id !in left
        invariant forall i, j :: 0 <= i < j < |rows| ==> rows[i].id != rows[j].id
        invariant forall id :: id in orders && id !in left ==> exists i :: 0 <= i < |rows| && rows[i].id == id
      {
        var id :| id in left;
        ghost var before := rows;
        rows := rows + [orders[id]];
        left := left - {id};
        forall other | other in orders && other !in left
          ensures exists i :: 0 <= i < |rows| && rows[i].id == other
        {
          if other == id {
            assert rows[|before|].id == other;
          } else {
            var i :| 0 <= i < |before| && before[i].id == other;
            assert rows[i].id == other;
          }
        }
      }
    }

    /** `pending_outbox`: the rows still to deliver, by creation time and then key. */
    method PendingOutbox() returns (rows: seq<OutboxRow>)
      ensures rows == Pending(outbox)
      ensures OutboxOk(Snapshot()) ==> InQueryOrder(rows)
    {
      hide InQueryOrder, OutboxOk, Before;
      rows := [];
      for i := 0 to |outbox|
        invariant rows + Pending(outbox[i..]) == Pending(outbox)
      {
        PendingFrom(outbox, i);
        if outbox[i].delivered.None? {
          rows := rows + [outbox[i]];
        }
      }
      assert outbox[|outbox|..] == [];
      if OutboxOk(Snapshot()) {
        PendingInOrder(Snapshot());
      }
    }

    /** `reserved_cash`: the cash of all active buy reservations. */
    method ReservedCashTotal() returns (total: real)
      ensures total == ReservedCash(Snapshot())
      ensures forall ids :: AllActiveBuys(reservations, ids) ==> total == CashSum(reservations, ids)
    {
      total := SumRows(CashOf);
      forall ids | AllActiveBuys(reservations, ids)
        ensures total == CashSum(reservations, ids)
      {
        CashIsReserved(reservations, ids);
      }
    }

    /** `reserved_sell_quantity`. */
    method ReservedSellTotal(instrument: string) returns (total: real)
      ensures total == ReservedSell(Snapshot(), instrument)
      ensures forall ids :: AllActiveSells(reservations, instrument, ids) ==>
                total == QuantitySum(reservations, ids) as real
    {
      total := SumRows(SellOf(instrument));
      forall ids | AllActiveSells(reservations, instrument, ids)
        ensures total == QuantitySum(reservations, ids) as real
      {
        QuantityIsReserved(reservations, instrument, ids);
      }
    }

    method SumRows(f: (OrderId, Reservation) -> real) returns (total: real)
      ensures total == Total(reservations, f)
    {
      total := 0.0;
      var left := reservations.Keys;
      assert reservations - (reservations.Keys - left) == reservations;
      while left != {}
        invariant left <= reservations.Keys
        invariant total + Total(reservations - (reservations.Keys - left), f) == Total(reservations, f)
      {
        var id :| id in left;
        var rest := reservations - (reservations.Keys - left);
        TotalWithout(rest, f, id);
        assert rest - {id} == reservations - (reservations.Keys - (left - {id}));
        total := total + f(id, reservations[id]);
        left := left - {id};
      }
      assert reservations - (reservations.Keys - {}) == map[];
    }

    method Create(id: OrderId, at: int) returns (r: Result<Order, OmsError>)
      requires Inv(Snapshot())
      modifies this
      ensures Transacted(old(Snapshot()), OmsModel.Create(old(Snapshot()), id, at), Snapshot(), r)
    {
      hide Inv;
      var dies := Dies();
      if dies {
        return Err(Crashed);
      }
      var existing := ByIdempotencyKey(id.key);
      if existing.Some? {
        return Ok(existing.value);
      }
      if exists other :: other in orders && other.client == id.client {
        return Err(IdentityConflict);
      }
      orders := orders[id := Order(id, 0, Created, 1, 1, at, at)];
      journal := journal[id := [Event(1, None, Created, CreatedTag, NoPayload, at, "command_accepted")]];
      r := Ok(orders[id]);
    }

    method Transition(id: OrderId, e: Event, expectedVersion: int, submission: Option<Submission>, release: bool)
      returns (r: Result<Order, OmsError>)
      modifies this
      ensures Transacted(old(Snapshot()), OmsModel.Transition(old(Snapshot()), id, e, expectedVersion, submission,
                                                              release),
                         Snapshot(), r)
    {
      hide HasIdentity, EventConflicts, HasOutboxKey, SameIdentity, AllowedTransitions, InsertRow;
      var dies := Dies();
      if dies {
        return Err(Crashed);
      }
      if id !in orders {
        return Err(OrderNotFound);
      }
      var current, written := orders[id], if id in journal then journal[id] else [];
      EventConstraints(written, e);
      RowConstraints(fills, outbox);
      if exists other <- written :: other.sequence == e.sequence && other.state == e.state
                                    && other.business == e.business && other.payload == e.payload {
        return Ok(current);
      }
      if current.version != expectedVersion {
        return Err(VersionConflict);
      }
      if e.previous != Some(current.state) {
        return Err(PreviousStateMismatch);
      }
      if e.sequence != current.sequence + 1 {
        return Err(SequenceGap);
      }
      if e.state !in AllowedTransitions(current.state) {
        return Err(IllegalTransition);
      }
      if exists other <- written :: other.business == e.business || other.sequence == e.sequence {
        return Err(IdentityConflict);
      }
      if submission.Some? && ((exists row <- outbox :: row.key == id.key) || id in reservations) {
        return Err(IdentityConflict);
      }
      orders := orders[id := current.(state := e.state, version := current.version + 1, sequence := e.sequence,
                                      updatedAt := e.time)];
      journal := journal[id := written + [e]];
      if submission.Some? {
        var s := submission.value;
        outbox := InsertRow(outbox, OutboxRow(id.key, id, e.time, None, 0));
        reservations := reservations[id := Reservation(s.cash, s.quantity, id.quantity, true, s.cash)];
      }
      if release && id in reservations && reservations[id].active {
        reservations := reservations[id := reservations[id].(cash := 0.0, quantity := 0, active := false)];
      }
      r := Ok(orders[id]);
    }

    method TransitionFill(id: OrderId, e: Event, expectedVersion: int, fill: PaperFill)
        returns (r: Result<Order, OmsError>)
      modifies this
      ensures Transacted(old(Snapshot()), OmsModel.TransitionFill(old(Snapshot()), id, e, expectedVersion, fill),
                         Snapshot(), r)
    {
      hide FindFill, HasIdentity, EventConflicts, HasFillId, SameIdentity, Scaled, AllowedTransitions;
      var dies := Dies();
      if dies {
        return Err(Crashed);
      }
      if id !in orders {
        return Err(OrderNotFound);
      }
      var current, written := orders[id], if id in journal then journal[id] else [];
      EventConstraints(written, e);
      RowConstraints(fills, outbox);
      var prior := FindFill(fills, fill.identity);
      if prior.Some? {
        if prior.value.fill.quantity != fill.quantity || prior.value.fill.price != fill.price {
          return Err(FillConflict);
        }
        return Ok(current);
      }
      if current.version != expectedVersion {
        return Err(VersionConflict);
      }
      if e.previous != Some(current.state) {
        return Err(PreviousStateMismatch);
      }
      if e.sequence != current.sequence + 1 {
        return Err(SequenceGap);
      }
      if e.state !in AllowedTransitions(current.state) {
        return Err(IllegalTransition);
      }
      var filled := current.filled + fill.quantity;
      if !(0 < filled <= id.quantity) {
        return Err(FillOutOfRange);
      }
      if (exists row <- fills :: row.fill.fillId == fill.fillId)
         || exists other <- written :: other.business == e.business || other.sequence == e.sequence {
        return Err(IdentityConflict);
      }
      fills := fills + [FillRow(id, fill)];
      orders := orders[id := current.(filled := filled, state := e.state, version := current.version + 1,
                                      sequence := e.sequence, updatedAt := e.time)];
      journal := journal[id := written + [e]];
      if id in reservations && reservations[id].active && reservations[id].original > 0 {
        var held, remaining := reservations[id], id.quantity - filled;
        var cash := held.cash * (remaining as real) / (held.original as real);
        var quantity := if held.quantity < remaining then held.quantity else remaining;
        ScaledIs(held, remaining, cash);
        reservations := reservations[id := held.(cash := cash, quantity := quantity, active := remaining != 0)];
      } else if id in reservations {
        ScaledIs(reservations[id], id.quantity - filled, 0.0);
        assert reservations == reservations[id := Scaled(reservations[id], id.quantity - filled)];
      }
      r := Ok(orders[id]);
    }

    method MarkOutboxDelivered(key: int, at: int) returns (r: Result<(), OmsError>)
      modifies this
      ensures r == Ok(()) || r == Err(Crashed)
      ensures Snapshot() == if r.Ok? then old(Snapshot()).(outbox := MarkDelivered(old(outbox), key, at))
              else old(Snapshot())
    {
      var dies := Dies();
      if dies {
        return Err(Crashed);
      }
      var rows := outbox;
      outbox := seq(|rows|, i requires 0 <= i < |rows| =>
        if rows[i].key == key then rows[i].(delivered := Some(at), attempts := rows[i].attempts + 1) else rows[i]);
      r := Ok(());
    }

    method IncrementOutboxAttempt(key: int) returns (r: Result<(), OmsError>)
      modifies this
      ensures r == Ok(()) || r == Err(Crashed)
      ensures Snapshot() == if r.Ok? then old(Snapshot()).(outbox := IncrementAttempt(old(outbox), key))
              else old(Snapshot())
    {
      var dies := Dies();
      if dies {
        return Err(Crashed);
      }
      var rows := outbox;
      outbox := seq(|rows|, i requires 0 <= i < |rows| =>
        if rows[i].key == key then rows[i].(attempts := rows[i].attempts + 1) else rows[i]);
      r := Ok(());
    }
  }
}
