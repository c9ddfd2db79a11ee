/** Outbox delivery as a series of commits: where it can stop, and what delivering one row amounts to. */
module OmsRecovery {
  import opened OmsInvariant
  import opened OmsModel
  import opened OmsReachable
  import opened OmsRuns
  import opened Wrappers

  /** Delivery can make no further commit: the outbox is drained, or the next commit raises. */
  ghost predicate Settled(db: Db, answer: OrderId -> BrokerResult) {
    !(NextCommit(db, answer).Ok? && NextCommit(db, answer).value.Some?)
  }

  lemma {:induction false} AdvanceSplit(db: Db, answer: OrderId -> BrokerResult, a: nat, b: nat)
    ensures Advance(db, answer, a + b) == Advance(Advance(db, answer, a), answer, b)
    decreases a
  {
    hide NextCommit;
    if a > 0 {
      if NextCommit(db, answer).Ok? && NextCommit(db, answer).value.Some? {
        AdvanceSplit(NextCommit(db, answer).value.value, answer, a - 1, b);
      } else {
        SettledStays(db, answer, b);
      }
    }
  }

  lemma SettledStays(db: Db, answer: OrderId -> BrokerResult, k: nat)
    requires Settled(db, answer)
    ensures Advance(db, answer, k) == db
  {
    hide NextCommit;
  }

  /** Two deliveries that can go no further have reached the same database. */
  lemma SettledIsUnique(db: Db, answer: OrderId -> BrokerResult, j: nat, k: nat)
    requires Settled(Advance(db, answer, j), answer) && Settled(Advance(db, answer, k), answer)
    ensures Advance(db, answer, j) == Advance(db, answer, k)
  {
    hide Settled, Advance;
    if j <= k {
      AdvanceSplit(db, answer, j, k - j);
      SettledStays(Advance(db, answer, j), answer, k - j);
    } else {
      AdvanceSplit(db, answer, k, j - k);
      SettledStays(Advance(db, answer, k), answer, j - k);
    }
  }

  // ---- Delivery of one row completes ----

  function QuantitySum(fills: seq<PaperFill>): int {
    if fills == [] then 0 else fills[0].quantity + QuantitySum(fills[1..])
  }

  predicate SameFill(row: FillRow, fill: PaperFill) {
    row.fill.quantity == fill.quantity && row.fill.price == fill.price
  }

  /** The fill is recorded as it stands. */
  predicate Recorded(recorded: seq<FillRow>, fill: PaperFill) {
    FindFill(recorded, fill.identity).Some? && SameFill(FindFill(recorded, fill.identity).value, fill)
  }

  /** The fills from `i` on are new, positive, distinct and within what is left of the order. */
  predicate OpenFills(recorded: seq<FillRow>, fills: seq<PaperFill>, i: nat, left: int)
    requires i <= |fills|
  {
    && (forall k :: 0 <= k < i ==> Recorded(recorded, fills[k]))
    && (forall k :: i <= k < |fills| ==>
          && fills[k].quantity > 0
          && FindFill(recorded, fills[k].identity).None? && !HasFillId(recorded, fills[k].fillId))
    && (forall k, l :: i <= k < l < |fills| ==>
          fills[k].identity != fills[l].identity && fills[k].fillId != fills[l].fillId)
    && QuantitySum(fills[i..]) <= left
  }

  lemma {:induction false} FindAppended(recorded: seq<FillRow>, row: FillRow, identity: FillIdentity)
    ensures FindFill(recorded + [row], identity) ==
            if FindFill(recorded, identity).Some? then FindFill(recorded, identity)
            else if row.fill.identity == identity then Some(row) else None
  {
    if recorded == [] {
      assert recorded + [row] == [row];
    } else {
      assert (recorded + [row])[1..] == recorded[1..] + [row];
      FindAppended(recorded[1..], row, identity);
    }
  }

  /** With the first `i` fills recorded, delivery goes on with fill `i`. */
  lemma {:induction false} FirstOpenIs(recorded: seq<FillRow>, fills: seq<PaperFill>, i: nat)
    requires i <= |fills|
    requires forall k :: 0 <= k < i ==> Recorded(recorded, fills[k])
    ensures i == |fills| ==> FirstOpenFill(recorded, fills) == Ok(None)
    ensures i < |fills| && FindFill(recorded, fills[i].identity).None? ==>
              FirstOpenFill(recorded, fills) == Ok(Some(fills[i]))
    ensures i < |fills| && FindFill(recorded, fills[i].identity).Some? && !Recorded(recorded, fills[i]) ==>
              FirstOpenFill(recorded, fills) == Err(FillConflict)
  {
    if i > 0 {
      assert forall k :: 0 <= k < i - 1 ==> fills[1..][k] == fills[k + 1];
      assert Recorded(recorded, fills[0]);
      FirstOpenIs(recorded, fills[1..], i - 1);
    }
  }

  lemma {:induction false} RowsAreFound(recorded: seq<FillRow>, k: nat)
    requires k < |recorded|
    ensures FindFill(recorded, recorded[k].fill.identity).Some?
  {
    if k > 0 && recorded[0].fill.identity != recorded[k].fill.identity {
      RowsAreFound(recorded[1..], k - 1);
    }
  }

  /** A fill tag in a journal stands for a row of the fills table. */
  lemma {:induction false} TaggedIsFiled(id: OrderId, journal: seq<Event>, k: nat)
    requires forall i :: 0 <= i < |journal| ==> Shaped(journal[i])
    requires k < |journal| && journal[k].business.FillTag?
    ensures exists r :: r in FillsIn(id, journal) && r.fill.identity == journal[k].business.identity
  {
    var n := |journal| - 1;
    if k < n {
      TaggedIsFiled(id, journal[..n], k);
      var r :| r in FillsIn(id, journal[..n]) && r.fill.identity == journal[k].business.identity;
      assert r in FillsIn(id, journal);
    } else {
      var e := journal[n];
      var r := FillRow(id, PaperFill(e.payload.fillId, e.business.identity, e.payload.quantity, e.payload.price,
                                     e.time));
      assert FillsIn(id, journal) == FillsIn(id, journal[..n]) + [r];
    }
  }

  lemma {:induction false} RowOfIsRow(fills: seq<FillRow>, id: OrderId, r: FillRow)
    requires r in RowsOf(fills, id)
    ensures r in fills
  {
    if fills != [] {
      var n := |fills| - 1;
      if r in RowsOf(fills[..n], id) {
        RowOfIsRow(fills[..n], id, r);
      }
    }
  }

  /** A fill that is not recorded does not collide with the journal. */
  lemma NewFillHasNoConflict(db: Db, id: OrderId, fill: PaperFill)
    requires Inv(db) && id in db.orders && FindFill(db.fills, fill.identity).None?
    ensures !EventConflicts(JournalOf(db, id), FillEvent(db.orders[id], fill))
    ensures !HasIdentity(JournalOf(db, id), FillEvent(db.orders[id], fill))
  {
    hide Inv, ReservationOk, WasSubmitted, FoldOrder, FilledSum;
    RowParts(db, id);
    var journal := db.journal[id];
    forall i | 0 <= i < |journal|
      ensures journal[i].business != FillTag(fill.identity) && journal[i].sequence != |journal| + 1
    {
      if journal[i].business == FillTag(fill.identity) {
        TaggedIsFiled(id, journal, i);
        var r :| r in FillsIn(id, journal) && r.fill.identity == fill.identity;
        RowOfIsRow(db.fills, id, r);
        var k :| 0 <= k < |db.fills| && db.fills[k] == r;
        RowsAreFound(db.fills, k);
        assert false;
      }
    }
  }

  lemma LastIsSubmit(journal: seq<Event>)
    requires GoodJournal(journal) && journal[|journal| - 1].state == SubmitPending
    ensures journal[|journal| - 1].business == SubmitTag
  {
    var n := |journal| - 1;
    assert Shaped(journal[n]) && Shaped(journal[0]);
    if n > 0 {
      assert journal[n].previous == Some(journal[n - 1].state);
      assert journal[n].state in AllowedTransitions(journal[n - 1].state);
    }
  }

  /** An order waiting for submission has only been through the risk decision. */
  lemma {:induction false} BeforeSubmission(journal: seq<Event>, i: nat)
    requires GoodJournal(journal) && journal[|journal| - 1].state == SubmitPending
    requires i < |journal| - 1
    ensures journal[i].state in {Created, RiskPending, RiskApproved}
  {
    if i > 0 {
      BeforeSubmission(journal, i - 1);
      assert journal[i].state in AllowedTransitions(journal[i - 1].state);
      assert journal[i + 1].state in AllowedTransitions(journal[i].state);
      LastIsSubmit(journal);
    }
  }

  lemma TagsBeforeSubmission(db: Db, id: OrderId, state: OrderState)
    requires Inv(db) && id in db.orders && db.orders[id].state == SubmitPending
    requires state in {Submitted, Acknowledged}
    ensures forall i :: 0 <= i < |JournalOf(db, id)| ==> JournalOf(db, id)[i].business != NamedTag(state)
  {
    hide Inv, ReservationOk, WasSubmitted, FoldOrder, FillsIn, RowsOf, FilledSum;
    RowParts(db, id);
    var journal := db.journal[id];
    forall i | 0 <= i < |journal|
      ensures journal[i].business != NamedTag(state)
    {
      if i < |journal| - 1 {
        BeforeSubmission(journal, i);
      }
    }
  }

  /** A state named for the first time is accepted. */
  lemma FirstNamed(db: Db, id: OrderId, state: OrderState, reason: string)
    requires Inv(db) && id in db.orders && state in AllowedTransitions(db.orders[id].state)
    requires forall i :: 0 <= i < |JournalOf(db, id)| ==> JournalOf(db, id)[i].business != NamedTag(state)
    ensures id in db.journal
    ensures var e := NamedEvent(db.orders[id], state, reason);
            Named(db, db.orders[id], state, reason, false) ==
                Ok((Moved(db, id, e, db.reservations), Advanced(db.orders[id], e, 0)))
  {
    hide Inv, ReservationOk, WasSubmitted, FoldOrder, FillsIn, RowsOf, FilledSum, AllowedTransitions;
    RowParts(db, id);
    hide Shaped;
    var e, journal := NamedEvent(db.orders[id], state, reason), db.journal[id];
    forall i | 0 <= i < |journal|
      ensures journal[i].business != e.business && journal[i].sequence != e.sequence
    {
      assert JournalOf(db, id)[i].business != NamedTag(state);
      assert journal[i].sequence == i + 1;
    }
    hide GoodJournal, OrderOk;
    assert !EventConflicts(journal, e) && !HasIdentity(journal, e);
  }

  function RowsFor(id: OrderId, fills: seq<PaperFill>): seq<FillRow> {
    seq(|fills|, k requires 0 <= k < |fills| => FillRow(id, fills[k]))
  }

  lemma {:induction false} QuantityPositive(fills: seq<PaperFill>)
    requires forall k :: 0 <= k < |fills| ==> fills[k].quantity > 0
    ensures QuantitySum(fills) >= 0
    ensures QuantitySum(fills) == 0 ==> fills == []
  {
    if fills != [] {
      QuantityPositive(fills[1..]);
    }
  }

  lemma OpenAdvances(recorded: seq<FillRow>, fills: seq<PaperFill>, i: nat, left: int, id: OrderId)
    requires i < |fills| && OpenFills(recorded, fills, i, left)
    ensures OpenFills(recorded + [FillRow(id, fills[i])], fills, i + 1, left - fills[i].quantity)
    ensures fills[i].quantity <= left
    ensures fills[i].quantity == left ==> i + 1 == |fills|
  {
    var row := FillRow(id, fills[i]);
    forall k | 0 <= k < |fills|
      ensures FindFill(recorded + [row], fills[k].identity) ==
              if FindFill(recorded, fills[k].identity).Some? then FindFill(recorded, fills[k].identity)
              else if fills[i].identity == fills[k].identity then Some(row) else None
    {
      FindAppended(recorded, row, fills[k].identity);
    }
    assert fills[i..][1..] == fills[i + 1..];
    QuantityPositive(fills[i + 1..]);
  }

  /** The next open fill is accepted. */
  lemma OpenFillAccepted(db: Db, id: OrderId, fill: PaperFill)
    requires Inv(db) && id in db.orders && db.orders[id].state in {Acknowledged, PartiallyFilled, CancelPending,
                                                                   ReplacePending}
    requires fill.quantity >= 0 && 0 < db.orders[id].filled + fill.quantity <= id.quantity
    requires FindFill(db.fills, fill.identity).None? && !HasFillId(db.fills, fill.fillId)
    ensures id in db.journal && db.orders[id].id == id
    ensures var o := db.orders[id];
            TransitionFill(db, id, FillEvent(o, fill), o.version, fill)
            == Ok((FilledDb(db, id, fill), Advanced(o, FillEvent(o, fill), fill.quantity)))
    ensures Inv(FilledDb(db, id, fill))
  {
    hide Inv, EventConflicts, HasIdentity, FindFill, HasFillId, Advanced, FillEvent, CheckEvent;
    OrderFacts(db, id);
    NewFillHasNoConflict(db, id, fill);
    FillEventFits(db.orders[id], fill);
    ReservationScales(db, id);
    TransitionFillKeeps(db, id, db.orders[id].version, fill);
  }

  lemma FillEventFits(o: Order, fill: PaperFill)
    requires o.state in {Acknowledged, PartiallyFilled, CancelPending, ReplacePending}
    ensures CheckEvent(o, FillEvent(o, fill), o.version).None?
  {
  }

  lemma ReservationScales(db: Db, id: OrderId)
    requires Inv(db) && id in db.orders
    ensures id in db.journal && JournalOf(db, id) == db.journal[id]
  {
  }

  /** `end` is `db` with the fills recorded and the row delivered. */
  ghost predicate DeliveredFrom(db: Db, end: Db, row: OutboxRow, fills: seq<PaperFill>, at: int) {
    && end.fills == db.fills + RowsFor(row.order, fills)
    && end.outbox == Delivered(db, row, at).outbox
    && row.order in db.orders && row.order in end.orders
    && end.orders[row.order].filled == db.orders[row.order].filled + QuantitySum(fills)
  }

  /** Delivery of `row` stands at fill `i`. */
  ghost predicate Draining(db: Db, row: OutboxRow, result: BrokerResult, i: nat) {
    && Inv(db) && FirstPending(db.outbox) == Some(row) && row.order in db.orders
    && !result.rejected && i <= |result.fills|
    && (db.orders[row.order].state in {Acknowledged, PartiallyFilled}
        || (db.orders[row.order].state == Filled && i == |result.fills|))
    && OpenFills(db.fills, result.fills, i, row.order.quantity - db.orders[row.order].filled)
  }

  /** One fill further. */
  lemma DrainStep(db: Db, answer: OrderId -> BrokerResult, row: OutboxRow, i: nat)
    requires Draining(db, row, answer(row.order), i) && i < |answer(row.order).fills|
    ensures row.order in db.journal
    ensures var next := FilledDb(db, row.order, answer(row.order).fills[i]);
            NextCommit(db, answer) == Ok(Some(next)) && Draining(next, row, answer(row.order), i + 1)
  {
    hide Inv, Delivered, FindFill, OpenFills, TransitionFill, FillEvent, FilledDb, Recorded, HasFillId;
    var id, result := row.order, answer(row.order);
    var fills, o := result.fills, db.orders[row.order];
    OpenParts(db.fills, fills, i, id.quantity - o.filled);
    FirstOpenIs(db.fills, fills, i);
    OpenAdvances(db.fills, fills, i, id.quantity - o.filled, id);
    OrderFacts(db, id);
    OpenFillAccepted(db, id, fills[i]);
    FilledFacts(db, id, fills[i]);
  }

  lemma DrainEnd(db: Db, answer: OrderId -> BrokerResult, row: OutboxRow)
    requires Draining(db, row, answer(row.order), |answer(row.order).fills|)
    ensures NextCommit(db, answer) == Ok(Some(Delivered(db, row, answer(row.order).acknowledgedAt)))
  {
    hide Inv, Delivered, FindFill, OpenFills, Recorded, HasFillId;
    var id, fills := row.order, answer(row.order).fills;
    OpenParts(db.fills, fills, |fills|, id.quantity - db.orders[id].filled);
    FirstOpenIs(db.fills, fills, |fills|);
  }

  /** From the acknowledgement on, every fill is recorded once and the row is marked delivered. */
  lemma {:induction false} FillsDrain(db: Db, answer: OrderId -> BrokerResult, row: OutboxRow, i: nat)
    requires Draining(db, row, answer(row.order), i)
    ensures DeliveredFrom(db, Advance(db, answer, |answer(row.order).fills| - i + 1), row,
                          answer(row.order).fills[i..], answer(row.order).acknowledgedAt)
    decreases |answer(row.order).fills| - i
  {
    hide NextCommit, Inv, OpenFills, FilledDb, Delivered, RowsFor;
    var fills, at := answer(row.order).fills, answer(row.order).acknowledgedAt;
    if i == |fills| {
      DrainEnd(db, answer, row);
      var end := Delivered(db, row, at);
      assert Advance(db, answer, 1) == Advance(end, answer, 0);
      NothingLeft(db, row, at);
    } else {
      DrainStep(db, answer, row, i);
      var next := FilledDb(db, row.order, fills[i]);
      FillsDrain(next, answer, row, i + 1);
      OrderFacts(db, row.order);
      FilledFacts(db, row.order, fills[i]);
      DrainJoins(db.fills, row.order, fills, i);
      SameDelivery(db, next, row, at);
    }
  }

  lemma NothingLeft(db: Db, row: OutboxRow, at: int)
    requires row.order in db.orders
    ensures DeliveredFrom(db, Delivered(db, row, at), row, [], at)
  {
  }

  lemma OpenParts(recorded: seq<FillRow>, fills: seq<PaperFill>, i: nat, left: int)
    requires i <= |fills| && OpenFills(recorded, fills, i, left)
    ensures forall k :: 0 <= k < i ==> Recorded(recorded, fills[k])
    ensures i < |fills| ==>
              fills[i].quantity > 0 && FindFill(recorded, fills[i].identity).None?
                  && !HasFillId(recorded, fills[i].fillId)
  {
  }

  lemma FilledFacts(db: Db, id: OrderId, fill: PaperFill)
    requires id in db.orders && id in db.journal && db.orders[id].id == id
    ensures var next := FilledDb(db, id, fill);
            && next.outbox == db.outbox && next.fills == db.fills + [FillRow(id, fill)]
            && id in next.orders && next.orders[id].filled == db.orders[id].filled + fill.quantity
            && next.orders[id].state == (if next.orders[id].filled == id.quantity then Filled else PartiallyFilled)
  {
  }

  lemma DrainJoins(recorded: seq<FillRow>, id: OrderId, fills: seq<PaperFill>, i: nat)
    requires i < |fills|
    ensures (recorded + [FillRow(id, fills[i])]) + RowsFor(id, fills[i + 1..]) == recorded + RowsFor(id, fills[i..])
    ensures QuantitySum(fills[i..]) == fills[i].quantity + QuantitySum(fills[i + 1..])
  {
    assert fills[i..][1..] == fills[i + 1..];
    assert RowsFor(id, fills[i..]) == [FillRow(id, fills[i])] + RowsFor(id, fills[i + 1..]);
  }

  lemma SameDelivery(db: Db, next: Db, row: OutboxRow, at: int)
    requires next.outbox == db.outbox
    ensures Delivered(next, row, at).outbox == Delivered(db, row, at).outbox
  {
  }

  /**
   A pending submission that the broker acknowledges with new, positive, distinct fills within the order
   quantity is delivered in full: every fill is recorded once and the row is marked delivered.
   */
  lemma DeliveryCompletes(db: Db, answer: OrderId -> BrokerResult, row: OutboxRow)
    requires Inv(db) && FirstPending(db.outbox) == Some(row) && row.order in db.orders
    requires db.orders[row.order].state == SubmitPending && !answer(row.order).rejected
    requires OpenFills(db.fills, answer(row.order).fills, 0, row.order.quantity - db.orders[row.order].filled)
    ensures DeliveredFrom(db, Advance(db, answer, |answer(row.order).fills| + 3), row,
                          answer(row.order).fills, answer(row.order).acknowledgedAt)
  {
    hide Inv, NextCommit, OpenFills, Delivered, Advance, RowsFor;
    var id, result := row.order, answer(row.order);
    var d2 := AcknowledgedDb(db, answer, row);
    FillsDrain(d2, answer, row, 0);
    AdvanceSplit(db, answer, 2, |result.fills| + 1);
    assert result.fills[0..] == result.fills;
    SameDelivery(db, d2, row, result.acknowledgedAt);
  }

  /** The first two commits of an acknowledged delivery. */
  lemma AcknowledgedDb(db: Db, answer: OrderId -> BrokerResult, row: OutboxRow) returns (d2: Db)
    requires Inv(db) && FirstPending(db.outbox) == Some(row) && row.order in db.orders
    requires db.orders[row.order].state == SubmitPending && !answer(row.order).rejected
    ensures Inv(d2) && d2 == Advance(db, answer, 2) && d2.outbox == db.outbox && d2.fills == db.fills
    ensures Advance(db, answer, 1).outbox == db.outbox
    ensures row.order in d2.orders && d2.orders[row.order].state == Acknowledged
    ensures d2.orders[row.order].filled == db.orders[row.order].filled
  {
    hide Inv, NamedEvent, Transition, EventConflicts, HasIdentity;
    var id, result := row.order, answer(row.order);
    var o := db.orders[id];
    OrderFacts(db, id);
    TagsBeforeSubmission(db, id, Submitted);
    TagsBeforeSubmission(db, id, Acknowledged);
    FirstNamed(db, id, Submitted, "paper_request_delivered");
    NamedKeeps(db, o, Submitted, "paper_request_delivered", false);
    var e1 := NamedEvent(o, Submitted, "paper_request_delivered");
    var d1 := Moved(db, id, e1, db.reservations);
    assert NextCommit(db, answer) == Ok(Some(d1));
    NamedFacts(o, Submitted, "paper_request_delivered");
    var o1 := d1.orders[id];
    assert JournalOf(d1, id) == JournalOf(db, id) + [e1];
    FirstNamed(d1, id, Acknowledged, result.reason);
    NamedKeeps(d1, o1, Acknowledged, result.reason, false);
    var e2 := NamedEvent(o1, Acknowledged, result.reason);
    d2 := Moved(d1, id, e2, d1.reservations);
    NamedFacts(o1, Acknowledged, result.reason);
    assert NextCommit(d1, answer) == Ok(Some(d2));
    hide NextCommit;
    assert Advance(db, answer, 2) == Advance(d1, answer, 1) == Advance(d2, answer, 0);
    assert Advance(db, answer, 1) == Advance(d1, answer, 0);
  }

  lemma NamedFacts(o: Order, state: OrderState, reason: string)
    ensures var e := NamedEvent(o, state, reason);
            e.state == state && e.business == NamedTag(state) && Advanced(o, e, 0).filled == o.filled
            && Advanced(o, e, 0).id == o.id
  {
  }
}
