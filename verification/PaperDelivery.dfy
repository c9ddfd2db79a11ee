/**
 Delivery against the paper broker: a pending submission is delivered if and only if the participation cap
 does not round down to nothing.
 */
module PaperDelivery {
  import opened FeeTax
  import opened OmsInvariant
  import opened OmsModel
  import opened OmsReachable
  import opened OmsRecovery
  import opened OmsRuns
  import opened PaperBroker
  import opened Wrappers

  /** The fill carries the key of its order, and its identity says what it fills. */
  predicate OwnFill(id: OrderId, fill: PaperFill) {
    fill.identity == FillIdentity(id.key, fill.quantity, fill.price) && fill.fillId == Digest(fill.identity)
  }

  ghost predicate OwnFills(db: Db) {
    forall i :: 0 <= i < |db.fills| ==> OwnFill(db.fills[i].order, db.fills[i].fill)
  }

  ghost predicate OwnAnswers(answer: OrderId -> BrokerResult) {
    forall id, i :: 0 <= i < |answer(id).fills| ==> OwnFill(id, answer(id).fills[i])
  }

  /** `row` has been marked delivered. */
  ghost predicate RowDelivered(db: Db, key: int) {
    exists i :: 0 <= i < |db.outbox| && db.outbox[i].key == key && db.outbox[i].delivered.Some?
  }

  lemma {:induction false} PendingIsRow(outbox: seq<OutboxRow>) returns (i: nat)
    requires FirstPending(outbox).Some?
    ensures i < |outbox| && outbox[i] == FirstPending(outbox).value && outbox[i].delivered.None?
  {
    if outbox[0].delivered.None? {
      i := 0;
    } else {
      var k := PendingIsRow(outbox[1..]);
      i := k + 1;
    }
  }

  lemma MarkedIsDelivered(db: Db, row: OutboxRow, at: int)
    requires FirstPending(db.outbox) == Some(row)
    ensures RowDelivered(Delivered(db, row, at), row.key)
  {
    var i := PendingIsRow(db.outbox);
    assert Delivered(db, row, at).outbox[i].delivered == Some(at);
  }

  lemma NotYetDelivered(db: Db, row: OutboxRow)
    requires OutboxOk(db) && FirstPending(db.outbox) == Some(row)
    ensures !RowDelivered(db, row.key)
  {
    var i := PendingIsRow(db.outbox);
  }

  lemma {:induction false} FoundRow(recorded: seq<FillRow>, identity: FillIdentity)
    requires FindFill(recorded, identity).Some?
    ensures exists k ::
              0 <= k < |recorded| && recorded[k] == FindFill(recorded, identity).value
              && recorded[k].fill.identity == identity
  {
    if recorded[0].fill.identity == identity {
      assert recorded[0] == FindFill(recorded, identity).value;
    } else {
      FoundRow(recorded[1..], identity);
      var k :| 0 <= k < |recorded[1..]| && recorded[1..][k] == FindFill(recorded[1..], identity).value
          && recorded[1..][k].fill.identity == identity;
      assert recorded[k + 1] == FindFill(recorded, identity).value;
    }
  }

  lemma {:induction false} RowIsOfOrder(fills: seq<FillRow>, k: nat)
    requires k < |fills|
    ensures fills[k] in RowsOf(fills, fills[k].order)
  {
    var n := |fills| - 1;
    if k < n {
      assert fills[..n][k] == fills[k];
      RowIsOfOrder(fills[..n], k);
    }
  }

  /** An order waiting for submission has no recorded fill. */
  lemma NothingFilledYet(db: Db, id: OrderId)
    requires Inv(db) && OwnFills(db) && id in db.orders && db.orders[id].state == SubmitPending
    ensures db.orders[id].filled == 0
    ensures forall k :: 0 <= k < |db.fills| ==> db.fills[k].fill.identity.key != id.key
  {
    RowsEmpty(db, id);
    forall k | 0 <= k < |db.fills|
      ensures db.fills[k].fill.identity.key != id.key
    {
      RowIsOfOrder(db.fills, k);
      var owner := db.fills[k].order;
      assert owner in db.orders && owner.key == db.fills[k].fill.identity.key;
    }
  }

  lemma RowsEmpty(db: Db, id: OrderId)
    requires Inv(db) && id in db.orders && db.orders[id].state == SubmitPending
    ensures RowsOf(db.fills, id) == [] && db.orders[id].filled == 0
  {
    hide Inv, ReservationOk, WasSubmitted, FoldOrder;
    RowParts(db, id);
    var journal := db.journal[id];
    forall i | 0 <= i < |journal|
      ensures !journal[i].business.FillTag?
    {
      assert Shaped(journal[i]);
      if i < |journal| - 1 {
        BeforeSubmission(journal, i);
      }
    }
    hide GoodJournal;
    NoFillTags(id, journal);
  }

  lemma {:induction false} NoFillTags(id: OrderId, journal: seq<Event>)
    requires forall i :: 0 <= i < |journal| ==> !journal[i].business.FillTag?
    ensures FillsIn(id, journal) == []
  {
    if journal != [] {
      NoFillTags(id, journal[..|journal| - 1]);
    }
  }

  /** A single positive fill under an unused identity is open. */
  lemma SingleFillIsOpen(recorded: seq<FillRow>, fill: PaperFill, left: int)
    requires 0 < fill.quantity <= left && fill.fillId == Digest(fill.identity)
    requires forall k :: 0 <= k < |recorded| ==>
               recorded[k].fill.identity != fill.identity
                   && recorded[k].fill.fillId == Digest(recorded[k].fill.identity)
    ensures OpenFills(recorded, [fill], 0, left)
  {
    assert [fill][0..] == [fill] && [fill][1..] == [];
    if FindFill(recorded, fill.identity).Some? {
      FoundRow(recorded, fill.identity);
    }
  }

  lemma NoFillIsOpen(recorded: seq<FillRow>, left: int)
    requires left >= 0
    ensures OpenFills(recorded, [], 0, left)
  {
    var none: seq<PaperFill> := [];
    assert none[0..] == none;
  }

  /** The paper broker's positive fill is open for an order waiting for submission. */
  lemma PaperFillIsOpen(db: Db, id: OrderId, market: map<string, MarketEvent>, p: BrokerPolicy)
    requires Inv(db) && OwnFills(db) && id in db.orders && db.orders[id].state == SubmitPending
    requires !ZeroCapacity(market, p, id)
    ensures OpenFills(db.fills, Respond(market, p, id).fills, 0, id.quantity - db.orders[id].filled)
  {
    hide Inv, Respond, ZeroCapacity, OpenFills;
    OrderFacts(db, id);
    NothingFilledYet(db, id);
    RespondFacts(market, p, id);
    var fills := Respond(market, p, id).fills;
    if |fills| == 1 {
      assert fills == [fills[0]];
      SingleFillIsOpen(db.fills, fills[0], id.quantity);
    } else {
      NoFillIsOpen(db.fills, id.quantity);
    }
  }

  /** A rejected submission is closed and delivered in three commits. */
  lemma RejectionCompletes(db: Db, answer: OrderId -> BrokerResult, row: OutboxRow)
    requires Inv(db) && FirstPending(db.outbox) == Some(row) && row.order in db.orders
    requires db.orders[row.order].state == SubmitPending && answer(row.order).rejected
    ensures RowDelivered(Advance(db, answer, 3), row.key)
    ensures row.order in Advance(db, answer, 3).orders && Advance(db, answer, 3).orders[row.order].state == Rejected
  {
    hide Inv, NamedEvent, Transition, EventConflicts, HasIdentity, Delivered;
    var id, result := row.order, answer(row.order);
    var o := db.orders[id];
    OrderFacts(db, id);
    TagsBeforeSubmission(db, id, Submitted);
    NotRejectedBefore(db, id);
    FirstNamed(db, id, Submitted, "paper_request_delivered");
    NamedKeeps(db, o, Submitted, "paper_request_delivered", false);
    var e1 := NamedEvent(o, Submitted, "paper_request_delivered");
    var d1 := Moved(db, id, e1, db.reservations);
    NamedFacts(o, Submitted, "paper_request_delivered");
    assert NextCommit(db, answer) == Ok(Some(d1));
    var o1 := d1.orders[id];
    assert JournalOf(d1, id) == JournalOf(db, id) + [e1];
    FirstRejected(d1, id, result.reason);
    var d2 := Named(d1, o1, Rejected, result.reason, true).value.0;
    assert NextCommit(d1, answer) == Ok(Some(d2));
    assert NextCommit(d2, answer) == Ok(Some(Delivered(d2, row, result.acknowledgedAt)));
    MarkedIsDelivered(d2, row, result.acknowledgedAt);
    hide NextCommit;
    var d3 := Delivered(d2, row, result.acknowledgedAt);
    assert Advance(db, answer, 3) == Advance(d1, answer, 2) == Advance(d2, answer, 1) == Advance(d3, answer, 0);
    DeliveredOrders(d2, row, result.acknowledgedAt);
  }

  lemma DeliveredOrders(db: Db, row: OutboxRow, at: int)
    ensures Delivered(db, row, at).orders == db.orders
  {
  }

  lemma NotRejectedBefore(db: Db, id: OrderId)
    requires Inv(db) && id in db.orders && db.orders[id].state == SubmitPending
    ensures forall i :: 0 <= i < |JournalOf(db, id)| ==> JournalOf(db, id)[i].business != NamedTag(Rejected)
  {
    hide Inv, ReservationOk, WasSubmitted, FoldOrder, FillsIn, RowsOf, FilledSum;
    RowParts(db, id);
    var journal := db.journal[id];
    forall i | 0 <= i < |journal|
      ensures journal[i].business != NamedTag(Rejected)
    {
      assert Shaped(journal[i]);
      if i < |journal| - 1 {
        BeforeSubmission(journal, i);
      }
    }
  }

  lemma FirstRejected(db: Db, id: OrderId, reason: string)
    requires Inv(db) && id in db.orders && db.orders[id].state == Submitted
    requires forall i :: 0 <= i < |JournalOf(db, id)| ==> JournalOf(db, id)[i].business != NamedTag(Rejected)
    ensures db.orders[id].id == id && Named(db, db.orders[id], Rejected, reason, true).Ok?
    ensures var after := Named(db, db.orders[id], Rejected, reason, true).value.0;
            after.outbox == db.outbox && id in after.orders && after.orders[id].state == Rejected
  {
    hide Inv, ReservationOk, WasSubmitted, FoldOrder, FillsIn, RowsOf, FilledSum;
    OrderFacts(db, id);
    RowParts(db, id);
    hide Shaped;
    var e, journal := NamedEvent(db.orders[id], Rejected, reason), db.journal[id];
    forall i | 0 <= i < |journal|
      ensures journal[i].business != e.business && journal[i].sequence != e.sequence
    {
      assert JournalOf(db, id)[i].business != NamedTag(Rejected);
      assert journal[i].sequence == i + 1;
    }
    hide GoodJournal, OrderOk;
    assert !EventConflicts(journal, e) && !HasIdentity(journal, e);
  }

  /** With a capacity of nothing, delivery stops at the acknowledged order and the row stays pending. */
  lemma ZeroFillSticks(db: Db, answer: OrderId -> BrokerResult, row: OutboxRow, k: nat)
    requires Inv(db) && OwnFills(db) && FirstPending(db.outbox) == Some(row) && row.order in db.orders
    requires db.orders[row.order].state == SubmitPending && !answer(row.order).rejected
    requires |answer(row.order).fills| == 1 && answer(row.order).fills[0].quantity <= 0
    requires answer(row.order).fills[0].identity.key == row.order.key
    ensures !RowDelivered(Advance(db, answer, k), row.key)
    ensures k >= 2 ==> NextCommit(Advance(db, answer, k), answer) == Err(FillOutOfRange)
  {
    hide Inv, NextCommit, FindFill, Advance, RowDelivered, OwnFills;
    var d2 := AcknowledgedDb(db, answer, row);
    NothingFilledYet(db, row.order);
    var fill := answer(row.order).fills[0];
    if FindFill(d2.fills, fill.identity).Some? {
      FoundRow(d2.fills, fill.identity);
    }
    StuckAt(d2, answer, row);
    if k >= 2 {
      AdvanceSplit(db, answer, 2, k - 2);
      StuckStays(d2, answer, k - 2);
    } else if k == 0 {
      NothingAdvanced(db, answer);
    }
    OutboxFacts(db);
    NotYetDelivered(db, row);
    SameOutbox(db, Advance(db, answer, k), row.key);
  }

  lemma StuckStays(db: Db, answer: OrderId -> BrokerResult, k: nat)
    requires NextCommit(db, answer).Err?
    ensures Advance(db, answer, k) == db
  {
  }

  lemma NothingAdvanced(db: Db, answer: OrderId -> BrokerResult)
    ensures Advance(db, answer, 0) == db
  {
  }

  lemma SameOutbox(db: Db, other: Db, key: int)
    requires db.outbox == other.outbox
    ensures RowDelivered(db, key) <==> RowDelivered(other, key)
  {
  }

  lemma OutboxFacts(db: Db)
    requires Inv(db)
    ensures OutboxOk(db)
  {
  }

  lemma StuckAt(db: Db, answer: OrderId -> BrokerResult, row: OutboxRow)
    requires Inv(db) && FirstPending(db.outbox) == Some(row) && row.order in db.orders
    requires db.orders[row.order].state == Acknowledged && db.orders[row.order].filled == 0
    requires !answer(row.order).rejected && |answer(row.order).fills| == 1 && answer(row.order).fills[0].quantity <= 0
    requires FindFill(db.fills, answer(row.order).fills[0].identity).None?
    ensures NextCommit(db, answer) == Err(FillOutOfRange)
  {
    hide Inv, EventConflicts, HasIdentity, FindFill;
    OrderFacts(db, row.order);
    FillEventFits(db.orders[row.order], answer(row.order).fills[0]);
  }

  ghost predicate EventuallyDelivered(db: Db, answer: OrderId -> BrokerResult, key: int) {
    exists k: nat :: RowDelivered(Advance(db, answer, k), key)
  }

  function PaperAnswers(market: map<string, MarketEvent>, p: BrokerPolicy): OrderId -> BrokerResult {
    (request: OrderId) => Respond(market, p, request)
  }

  /**
   A pending submission at the head of the outbox is delivered, after enough commits, if and only if the
   broker's capacity for it is not zero; with zero capacity every attempt raises at the same fill.
   */
  lemma DeliveredIffCapacity(db: Db, row: OutboxRow, market: map<string, MarketEvent>, p: BrokerPolicy)
    requires Inv(db) && OwnFills(db) && FirstPending(db.outbox) == Some(row) && row.order in db.orders
    requires db.orders[row.order].state == SubmitPending
    ensures EventuallyDelivered(db, PaperAnswers(market, p), row.key) <==> !ZeroCapacity(market, p, row.order)
  {
    hide Inv, Respond, ZeroCapacity, OwnFills, Advance, RowDelivered, OpenFills;
    var answer := PaperAnswers(market, p);
    OrderFacts(db, row.order);
    RespondFacts(market, p, row.order);
    if ZeroCapacity(market, p, row.order) {
      forall k: nat
        ensures !RowDelivered(Advance(db, answer, k), row.key)
      {
        ZeroFillSticks(db, answer, row, k);
      }
    } else if answer(row.order).rejected {
      RejectionCompletes(db, answer, row);
    } else {
      PaperFillIsOpen(db, row.order, market, p);
      DeliveryCompletes(db, answer, row);
      DeliveredFromIsDelivered(db, Advance(db, answer, |answer(row.order).fills| + 3), row,
                               answer(row.order).fills, answer(row.order).acknowledgedAt);
    }
  }

  lemma DeliveredFromIsDelivered(db: Db, end: Db, row: OutboxRow, fills: seq<PaperFill>, at: int)
    requires FirstPending(db.outbox) == Some(row) && DeliveredFrom(db, end, row, fills, at)
    ensures RowDelivered(end, row.key)
  {
    MarkedIsDelivered(db, row, at);
  }

  // ---- Fill identities over a run ----

  lemma PaperAnswersAreOwn(market: map<string, MarketEvent>, p: BrokerPolicy)
    ensures OwnAnswers(PaperAnswers(market, p))
  {
    forall id, i | 0 <= i < |PaperAnswers(market, p)(id).fills|
      ensures OwnFill(id, PaperAnswers(market, p)(id).fills[i])
    {
      RespondFacts(market, p, id);
    }
  }

  lemma NextCommitOwns(db: Db, answer: OrderId -> BrokerResult)
    requires Inv(db) && OwnFills(db) && OwnAnswers(answer)
    requires NextCommit(db, answer).Ok? && NextCommit(db, answer).value.Some?
    ensures OwnFills(NextCommit(db, answer).value.value)
  {
    hide Inv, NamedEvent, FillEvent, CheckEvent, EventConflicts, HasIdentity, HasFillId, FindFill;
    var row := FirstPending(db.outbox).value;
    var result, after := answer(row.order), NextCommit(db, answer).value.value;
    OrderFacts(db, row.order);
    if after.fills != db.fills {
      var fill := FirstOpenFill(db.fills, result.fills).value.value;
      FirstOpenFillIsOne(db.fills, result.fills);
      assert after.fills == db.fills + [FillRow(row.order, fill)];
      var i :| 0 <= i < |result.fills| && result.fills[i] == fill;
      assert OwnFill(row.order, answer(row.order).fills[i]);
    }
  }

  lemma {:induction false} AdvanceOwns(db: Db, answer: OrderId -> BrokerResult, commits: nat)
    requires Inv(db) && OwnFills(db) && OwnAnswers(answer) && NonNegativeFills(answer)
    ensures OwnFills(Advance(db, answer, commits))
    decreases commits
  {
    hide Inv, NextCommit, OwnFills, OwnAnswers;
    if commits > 0 && NextCommit(db, answer).Ok? && NextCommit(db, answer).value.Some? {
      NextCommitOwns(db, answer);
      NonNegativeNext(db, answer);
      NextCommitKeeps(db, answer);
      AdvanceOwns(NextCommit(db, answer).value.value, answer, commits - 1);
    }
  }

  /** Only a delivery writes fill rows. */
  lemma OnlyDeliveryFills(db: Db, fees: FeeTaxPolicy, call: Call)
    requires !call.Deliver?
    ensures After(db, fees, call).fills == db.fills
  {
    hide Transition, NamedEvent, NextEvent, RiskReason, Required;
    TransitionWritesNoFill();
  }

  lemma TransitionWritesNoFill()
    ensures forall db, id, e, version, submission, release ::
              Transition(db, id, e, version, submission, release).Ok? ==>
              Transition(db, id, e, version, submission, release).value.0.fills == db.fills
  {
    hide CheckEvent, EventConflicts, HasIdentity;
  }

  /** When every delivery of a run talks to a paper broker, every recorded fill is its order's own. */
  lemma {:induction false} RunOwns(fees: FeeTaxPolicy, calls: seq<Call>)
    requires fees.Valid() && forall call :: call in calls ==>
               PaperCall(call) && (call.Deliver? ==> OwnAnswers(call.answer))
    ensures OwnFills(Run(fees, calls))
  {
    hide Inv, After, OwnFills, OwnAnswers;
    if calls == [] {
      NoFillsOwned();
    } else {
      var earlier, last := calls[..|calls| - 1], calls[|calls| - 1];
      RunOwns(fees, earlier);
      RunIsSafe(fees, earlier);
      if last.Deliver? {
        AdvanceOwns(Run(fees, earlier), last.answer, last.commits);
        DeliverIsAdvance(Run(fees, earlier), fees, last);
      } else {
        OnlyDeliveryFills(Run(fees, earlier), fees, last);
        SameFillsOwned(Run(fees, earlier), After(Run(fees, earlier), fees, last));
      }
    }
  }

  lemma NoFillsOwned()
    ensures OwnFills(EMPTY_DB)
  {
  }

  lemma SameFillsOwned(db: Db, after: Db)
    requires OwnFills(db) && after.fills == db.fills
    ensures OwnFills(after)
  {
  }
}
