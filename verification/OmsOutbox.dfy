/** The outbox queue and the delivery of its rows: what the next commit is, and that delivery always comes to a halt. */
module OmsOutbox {
  import opened OmsInvariant
  import opened OmsModel
  import opened OmsRecovery
  import opened OmsRuns
  import opened Wrappers

  // ---- Facts about the outbox queue ----

  function Stripped(rows: seq<OutboxRow>): (r: seq<OutboxRow>)
    ensures |r| == |rows|
  {
    seq(|rows|, i requires 0 <= i < |rows| => rows[i].(attempts := 0))
  }

  lemma {:induction false} PendingStripped(outbox: seq<OutboxRow>)
    ensures Pending(Stripped(outbox)) == Stripped(Pending(outbox))
  {
    if outbox != [] {
      PendingStripped(outbox[1..]);
      assert Stripped(outbox)[1..] == Stripped(outbox[1..]);
    }
  }

  lemma {:induction false} FirstIsPending(outbox: seq<OutboxRow>)
    ensures FirstPending(outbox) == if Pending(outbox) == [] then None else Some(Pending(outbox)[0])
  {
    if outbox != [] {
      FirstIsPending(outbox[1..]);
    }
  }

  ghost predicate KeysDistinct(outbox: seq<OutboxRow>) {
    forall i, k :: 0 <= i < k < |outbox| ==> outbox[i].key != outbox[k].key
  }

  /** Marking the first pending row removes it from the queue. */
  lemma {:induction false} MarkingPops(outbox: seq<OutboxRow>, at: int)
    requires Pending(outbox) != [] && KeysDistinct(outbox)
    ensures Pending(MarkDelivered(outbox, Pending(outbox)[0].key, at)) == Pending(outbox)[1..]
  {
    var key := Pending(outbox)[0].key;
    var marked := MarkDelivered(outbox, key, at);
    assert marked[1..] == MarkDelivered(outbox[1..], key, at);
    if outbox[0].delivered.None? {
      assert forall i :: 0 <= i < |outbox[1..]| ==> outbox[1..][i] == outbox[i + 1];
      assert MarkDelivered(outbox[1..], key, at) == outbox[1..];
    } else {
      var k := PendingMember(outbox[1..]);
      assert outbox[1..][k] == outbox[k + 1];
      MarkingPops(outbox[1..], at);
    }
  }

  lemma {:induction false} PendingMember(outbox: seq<OutboxRow>) returns (i: nat)
    requires Pending(outbox) != []
    ensures i < |outbox| && outbox[i] == Pending(outbox)[0]
  {
    if outbox[0].delivered.None? {
      i := 0;
    } else {
      var k := PendingMember(outbox[1..]);
      i := k + 1;
    }
  }

  /** Attempt counters play no part in a transaction without a submission. */
  lemma TransitionOnCore(db: Db, id: OrderId, e: Event, version: int, release: bool)
    ensures Transition(Core(db), id, e, version, None, release) ==
            match Transition(db, id, e, version, None, release)
            case Ok((after, o)) => Ok((Core(after), o))
            case Err(problem) => Err(problem)
  {
    hide CheckEvent, HasIdentity, EventConflicts;
  }

  lemma TransitionFillOnCore(db: Db, id: OrderId, e: Event, version: int, fill: PaperFill)
    ensures TransitionFill(Core(db), id, e, version, fill) ==
            match TransitionFill(db, id, e, version, fill)
            case Ok((after, o)) => Ok((Core(after), o))
            case Err(problem) => Err(problem)
  {
    hide CheckEvent, HasIdentity, EventConflicts, FindFill, HasFillId;
  }

  lemma CoreOfAttempt(db: Db, key: int)
    ensures Core(db.(outbox := IncrementAttempt(db.outbox, key))) == Core(db)
  {
  }

  lemma CoreOfMark(db: Db, row: OutboxRow, at: int)
    ensures Core(db.(outbox := MarkDelivered(db.outbox, row.key, at))) == Delivered(Core(db), row, at)
  {
  }

  /** One more effective commit. */
  lemma AdvanceOneMore(db: Db, answer: OrderId -> BrokerResult, k: nat, next: Db)
    requires NextCommit(Advance(db, answer, k), answer) == Ok(Some(next))
    ensures Advance(db, answer, k + 1) == next
  {
    hide NextCommit;
    AdvanceSplit(db, answer, k, 1);
    assert Advance(Advance(db, answer, k), answer, 1) == Advance(next, answer, 0);
  }

  /** The database `now` is `start` after `k` effective commits, up to attempt counters. */
  ghost predicate Reached(start: Db, answer: OrderId -> BrokerResult, k: nat, now: Db) {
    Core(now) == Advance(start, answer, k)
  }

  // ---- Where a delivery stands ----

  /** The row carries its own identity and no event is later than it. */
  predicate TidyOrder(o: Order, id: OrderId, journal: seq<Event>) {
    o.id == id && forall i :: 0 <= i < |journal| ==> journal[i].sequence <= o.sequence
  }

  /** Rows carry their own identities, and outbox keys are distinct. */
  ghost predicate Tidy(db: Db) {
    && (forall id :: id in db.orders ==> TidyOrder(db.orders[id], id, JournalOf(db, id)))
    && KeysDistinct(db.outbox)
    && (forall i :: 0 <= i < |db.outbox| ==> db.outbox[i].key == db.outbox[i].order.key)
  }

  lemma SequencesBounded(db: Db, id: OrderId)
    requires Inv(db) && id in db.orders
    ensures TidyOrder(db.orders[id], id, JournalOf(db, id))
  {
    hide Inv, ReservationOk, WasSubmitted, FoldOrder, FillsIn, RowsOf, FilledSum;
    RowParts(db, id);
  }

  lemma InvIsTidy(db: Db)
    requires Inv(db)
    ensures Tidy(db)
  {
    forall id | id in db.orders
      ensures TidyOrder(db.orders[id], id, JournalOf(db, id))
    {
      SequencesBounded(db, id);
    }
    hide RowOk, KeysUnique, FillsBelong, TidyOrder;
  }

  /** Replacing one order's row and journal keeps the rest tidy. */
  lemma TidyMoved(db: Db, after: Db, id: OrderId)
    requires Tidy(db) && after.outbox == db.outbox && id in db.orders
    requires after.orders.Keys == db.orders.Keys
    requires forall other :: other in db.orders && other != id ==>
               after.orders[other] == db.orders[other] && JournalOf(after, other) == JournalOf(db, other)
    requires TidyOrder(after.orders[id], id, JournalOf(after, id))
    ensures Tidy(after)
  {
    hide TidyOrder, JournalOf, KeysDistinct;
  }

  lemma TransitionTouches(db: Db, id: OrderId, e: Event, version: int, release: bool)
    requires Tidy(db) && Transition(db, id, e, version, None, release).Ok? && e.sequence > db.orders[id].sequence
    ensures var (after, o) := Transition(db, id, e, version, None, release).value;
            && after.outbox == db.outbox && after.fills == db.fills && Tidy(after)
            && id in after.orders && o == after.orders[id] && o.id == id && o.state == e.state
  {
    hide EventConflicts, KeysDistinct;
    assert TidyOrder(db.orders[id], id, JournalOf(db, id));
    var after := Transition(db, id, e, version, None, release).value.0;
    assert !HasIdentity(JournalOf(db, id), e);
    assert TidyOrder(after.orders[id], id, JournalOf(after, id));
    hide Tidy, TidyOrder;
    TidyMoved(db, after, id);
  }

  lemma TransitionFillTouches(db: Db, id: OrderId, e: Event, version: int, fill: PaperFill)
    requires Tidy(db) && TransitionFill(db, id, e, version, fill).Ok?
    ensures var (after, o) := TransitionFill(db, id, e, version, fill).value;
            && after.outbox == db.outbox && Tidy(after)
            && id in after.orders && o == after.orders[id] && o.id == id
            && if FindFill(db.fills, fill.identity).Some? then after == db && Recorded(db.fills, fill)
               else after.fills == db.fills + [FillRow(id, fill)] && o.state == e.state && after != db
  {
    hide EventConflicts, HasIdentity, KeysDistinct, FindFill, HasFillId;
    assert TidyOrder(db.orders[id], id, JournalOf(db, id));
    var after := TransitionFill(db, id, e, version, fill).value.0;
    if FindFill(db.fills, fill.identity).None? {
      assert TidyOrder(after.orders[id], id, JournalOf(after, id));
      hide Tidy, TidyOrder;
      TidyMoved(db, after, id);
    }
  }

  /** `row` is being delivered, and its order is `o`. */
  ghost predicate AtRow(db: Db, row: OutboxRow, o: Order) {
    Tidy(db) && FirstPending(Core(db).outbox) == Some(row.(attempts := 0)) && row.order in db.orders
        && o == db.orders[row.order]
  }

  /** Only the marking is left. */
  ghost predicate AtMark(db: Db, row: OutboxRow, answer: OrderId -> BrokerResult) {
    NextCommit(Core(db), answer) == Ok(Some(Delivered(Core(db), row, answer(row.order).acknowledgedAt)))
  }

  lemma AtRowIsTidy(db: Db, row: OutboxRow, o: Order)
    requires AtRow(db, row, o)
    ensures Tidy(db)
  {
  }

  /** The commit that delivery of `row` makes next, by the state of its order. */
  lemma NextIs(db: Db, row: OutboxRow, o: Order, answer: OrderId -> BrokerResult)
    requires AtRow(db, row, o)
    ensures o.id == row.order
    ensures o.state == SubmitPending ==>
              NextCommit(Core(db), answer) == JustDb(Named(Core(db), o, Submitted, "paper_request_delivered", false))
    ensures answer(row.order).rejected && o.state == Submitted ==>
              NextCommit(Core(db), answer) == JustDb(Named(Core(db), o, Rejected, answer(row.order).reason, true))
    ensures answer(row.order).rejected && o.state !in {SubmitPending, Submitted} ==> AtMark(db, row, answer)
    ensures !answer(row.order).rejected && o.state == Submitted ==>
              NextCommit(Core(db), answer) == JustDb(Named(Core(db), o, Acknowledged, answer(row.order).reason, false))
  {
    hide Named, KeysDistinct, FirstOpenFill;
    MarkIgnoresAttempts(Core(db), row, answer(row.order).acknowledgedAt);
  }

  lemma MarkIgnoresAttempts(db: Db, row: OutboxRow, at: int)
    ensures Delivered(db, row.(attempts := 0), at) == Delivered(db, row, at)
  {
  }

  lemma TidyIds(db: Db, id: OrderId)
    requires Tidy(db) && id in db.orders
    ensures db.orders[id].id == id
  {
  }

  lemma MissingOrder(db: Db, row: OutboxRow, answer: OrderId -> BrokerResult)
    requires FirstPending(Core(db).outbox) == Some(row.(attempts := 0)) && row.order !in db.orders
    ensures NextCommit(Core(db), answer) == Err(OrderNotFound)
  {
  }

  /** What the transaction for fill `j` does, when the fills before it are recorded. */
  lemma FillCommit(db: Db, row: OutboxRow, o: Order, answer: OrderId -> BrokerResult, j: nat)
    requires AtRow(db, row, o) && o.state !in {SubmitPending, Submitted}
    requires !answer(row.order).rejected && j < |answer(row.order).fills|
    requires forall i :: 0 <= i < j ==> Recorded(db.fills, answer(row.order).fills[i])
    ensures var fill := answer(row.order).fills[j];
            match TransitionFill(db, o.id, FillEvent(o, fill), o.version, fill)
            case Err(problem) => NextCommit(Core(db), answer) == Err(problem)
            case Ok((after, o')) =>
              && AtRow(after, row, o') && o'.state !in {SubmitPending, Submitted}
              && (forall i :: 0 <= i <= j ==> Recorded(after.fills, answer(row.order).fills[i]))
              && after.outbox == db.outbox
              && (after == db || NextCommit(Core(db), answer) == Ok(Some(Core(after))))
  {
    hide FindFill, HasFillId, CheckEvent, HasIdentity, EventConflicts, KeysDistinct;
    var fills := answer(row.order).fills;
    var fill := fills[j];
    FirstOpenIs(db.fills, fills, j);
    FillNext(db, row, o, answer);
    TransitionFillOnCore(db, o.id, FillEvent(o, fill), o.version, fill);
    if FindFill(db.fills, fill.identity).None? {
      if TransitionFill(db, o.id, FillEvent(o, fill), o.version, fill).Ok? {
        TransitionFillTouches(db, o.id, FillEvent(o, fill), o.version, fill);
        var (after, o') := TransitionFill(db, o.id, FillEvent(o, fill), o.version, fill).value;
        CoreOutbox(db, after);
        forall i | 0 <= i <= j
          ensures Recorded(after.fills, fills[i])
        {
          FindAppended(db.fills, FillRow(o.id, fill), fills[i].identity);
        }
      }
    } else {
      PriorDecides(db, o.id, FillEvent(o, fill), o.version, fill);
    }
  }

  lemma CoreOutbox(db: Db, after: Db)
    requires after.outbox == db.outbox
    ensures Core(after).outbox == Core(db).outbox
  {
  }

  /** A recorded identity decides the fill transaction before anything else. */
  lemma PriorDecides(db: Db, id: OrderId, e: Event, version: int, fill: PaperFill)
    requires id in db.orders && FindFill(db.fills, fill.identity).Some?
    ensures TransitionFill(db, id, e, version, fill) ==
            if Recorded(db.fills, fill) then Ok((db, db.orders[id])) else Err(FillConflict)
  {
    hide CheckEvent, HasIdentity, EventConflicts, HasFillId;
  }

  /** Past the acknowledgement, the next commit is the first open fill or the marking. */
  lemma FillNext(db: Db, row: OutboxRow, o: Order, answer: OrderId -> BrokerResult)
    requires AtRow(db, row, o) && o.state !in {SubmitPending, Submitted} && !answer(row.order).rejected
    ensures var open := FirstOpenFill(db.fills, answer(row.order).fills);
            match open
            case Err(problem) => NextCommit(Core(db), answer) == Err(problem)
            case Ok(None) => AtMark(db, row, answer)
            case Ok(Some(fill)) =>
              NextCommit(Core(db), answer) == JustDb(TransitionFill(Core(db), o.id, FillEvent(o, fill), o.version,
                                                                    fill))
  {
    hide TransitionFill, FillEvent, FirstOpenFill, KeysDistinct;
    MarkIgnoresAttempts(Core(db), row, answer(row.order).acknowledgedAt);
  }

  lemma AttemptIsTidy(db: Db, key: int)
    requires Tidy(db)
    ensures Tidy(db.(outbox := IncrementAttempt(db.outbox, key)))
  {
    TidyOutbox(db, IncrementAttempt(db.outbox, key));
  }

  lemma TidyOutbox(db: Db, outbox: seq<OutboxRow>)
    requires Tidy(db) && |outbox| == |db.outbox|
    requires forall i :: 0 <= i < |outbox| ==>
               outbox[i].key == db.outbox[i].key && outbox[i].order == db.outbox[i].order
    ensures Tidy(db.(outbox := outbox))
  {
    hide TidyOrder;
    var after := db.(outbox := outbox);
    assert forall id :: JournalOf(after, id) == JournalOf(db, id);
  }

  lemma MarkIsTidy(db: Db, key: int, at: int)
    requires Tidy(db)
    ensures Tidy(db.(outbox := MarkDelivered(db.outbox, key, at)))
  {
    TidyOutbox(db, MarkDelivered(db.outbox, key, at));
  }

  lemma AttemptThenMark(outbox: seq<OutboxRow>, key: int, at: int)
    ensures Stripped(MarkDelivered(IncrementAttempt(outbox, key), key, at)) == Stripped(MarkDelivered(outbox, key, at))
  {
  }

  lemma NothingAdvancedYet(start: Db, answer: OrderId -> BrokerResult)
    ensures Advance(start, answer, 0) == start
  {
  }

  lemma {:induction false} PendingAreRows(outbox: seq<OutboxRow>, row: OutboxRow)
    requires row in Pending(outbox)
    ensures row in outbox
  {
    if !(outbox[0].delivered.None? && row == outbox[0]) {
      PendingAreRows(outbox[1..], row);
    }
  }

  /** Pending rows belong to different request keys. */
  lemma {:induction false} PendingKeysDiffer(outbox: seq<OutboxRow>)
    requires KeysDistinct(outbox) && forall i :: 0 <= i < |outbox| ==> outbox[i].key == outbox[i].order.key
    ensures var p := Pending(outbox); forall i, k :: 0 <= i < k < |p| ==> p[i].order.key != p[k].order.key
  {
    if outbox != [] {
      var rest := outbox[1..];
      assert forall i :: 0 <= i < |rest| ==> rest[i] == outbox[i + 1];
      PendingKeysDiffer(rest);
      forall row | row in Pending(rest)
        ensures row.order.key != outbox[0].order.key
      {
        PendingAreRows(rest, row);
      }
      var p := Pending(outbox);
      if outbox[0].delivered.None? {
        assert p == [outbox[0]] + Pending(rest);
        forall i, k | 0 <= i < k < |p|
          ensures p[i].order.key != p[k].order.key
        {
          assert p[k] == Pending(rest)[k - 1];
          assert p[k] in Pending(rest);
          assert i > 0 ==> p[i] == Pending(rest)[i - 1];
        }
      } else {
        assert p == Pending(rest);
      }
    }
  }

  lemma PendingFacts(db: Db)
    requires Tidy(db)
    ensures Pending(Stripped(db.outbox)) == Stripped(Pending(db.outbox))
    ensures var p := Pending(db.outbox); forall i, k :: 0 <= i < k < |p| ==> p[i].order.key != p[k].order.key
  {
    PendingStripped(db.outbox);
    PendingKeysDiffer(db.outbox);
  }

  /** Delivering the row at the head of the queue leaves the rest of the queue. */
  lemma PopsStripped(here: Db, items: seq<OutboxRow>, at: int, after: seq<OutboxRow>)
    requires Tidy(here) && items != [] && Pending(Stripped(here.outbox)) == Stripped(items)
    requires Stripped(after) == Stripped(MarkDelivered(here.outbox, items[0].key, at))
    ensures Pending(Stripped(after)) == Stripped(items[1..])
  {
    var plain := Stripped(here.outbox);
    assert Stripped(items)[0].key == items[0].key;
    MarkingPops(plain, at);
    assert Stripped(after) == Stripped(MarkDelivered(plain, items[0].key, at));
    PendingStripped(MarkDelivered(plain, items[0].key, at));
    assert Stripped(Stripped(items)[1..]) == Stripped(items[1..]);
  }

  lemma Drained(db: Db, answer: OrderId -> BrokerResult)
    requires FirstPending(Stripped(db.outbox)).None?
    ensures NextCommit(Core(db), answer) == Ok(None)
  {
    assert Core(db).outbox == Stripped(db.outbox);
  }

  lemma CoreIsStripped(db: Db)
    ensures Core(db).outbox == Stripped(db.outbox)
  {
  }
}
