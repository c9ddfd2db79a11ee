/** Which pending rows a delivery gets past, and when it drains the whole outbox. */
module OutboxDelivery {
  import opened FeeTax
  import opened OmsInvariant
  import opened OmsModel
  import opened OmsOutbox
  import opened OmsReachable
  import opened OmsRecovery
  import opened OmsRuns
  import opened OmsSettling
  import opened PaperBroker
  import opened PaperDelivery
  import opened PaperRuns
  import opened Wrappers

  predicate HasTag(journal: seq<Event>, tag: Business) {
    exists i :: 0 <= i < |journal| && journal[i].business == tag
  }

  /** One more tag at most. */
  ghost predicate OnlyAdds(journal: seq<Event>, after: seq<Event>, tag: Business) {
    forall other :: HasTag(after, other) ==> HasTag(journal, other) || other == tag
  }

  /** The states in which a delivery still gets to record a fill. */
  predicate TakesFills(s: OrderState) {
    s in {SubmitPending, Submitted, Acknowledged, PartiallyFilled, CancelPending, ReplacePending}
  }

  /**
    * Delivery gets past the order's row: the broker rejected it, or the order can still be acknowledged where it has
    * to be, and every reported fill is recorded or can be.
    */
  ghost predicate Deliverable(db: Db, id: OrderId, result: BrokerResult)
    requires id in db.orders
  {
    var o := db.orders[id];
    || result.rejected
    || (&& (o.state == Submitted ==> !HasTag(JournalOf(db, id), NamedTag(Acknowledged)))
        && forall fill <- result.fills ::
             Recorded(db.fills, fill) || (TakesFills(o.state) && 0 < o.filled + fill.quantity <= id.quantity))
  }

  /** What holds of the database and the broker throughout a delivery. */
  ghost predicate Sound(db: Db, answer: OrderId -> BrokerResult) {
    && Inv(db) && OwnFills(db) && OwnAnswers(answer) && SingleFills(answer)
    && (NonNegativeFills(answer) || FromBroker(db, answer))
  }

  ghost predicate AtHead(db: Db, row: OutboxRow, answer: OrderId -> BrokerResult) {
    Sound(db, answer) && FirstPending(db.outbox) == Some(row) && row.order in db.orders
  }

  /** Everything about other orders is as it was. */
  ghost predicate Frame(db: Db, after: Db, id: OrderId) {
    && after.orders.Keys == db.orders.Keys
    && (forall other :: other in db.orders && other != id ==>
          after.orders[other] == db.orders[other] && JournalOf(after, other) == JournalOf(db, other))
    && forall identity: FillIdentity :: identity.key != id.key ==>
         FindFill(after.fills, identity) == FindFill(db.fills, identity)
  }

  /** The row is delivered and the rest of the queue is left. */
  ghost predicate Cleared(db: Db, end: Db, row: OutboxRow, answer: OrderId -> BrokerResult) {
    && Sound(end, answer) && RowDelivered(end, row.key) && Frame(db, end, row.order)
    && Pending(db.outbox) != [] && Stripped(Pending(end.outbox)) == Stripped(Pending(db.outbox)[1..])
  }

  /** The next commit raises, with the queue as it was. */
  ghost predicate Blocked(db: Db, end: Db, answer: OrderId -> BrokerResult) {
    NextCommit(end, answer).Err? && end.outbox == db.outbox
  }

  ghost predicate Reaches(db: Db, end: Db, row: OutboxRow, answer: OrderId -> BrokerResult)
    requires row.order in db.orders
  {
    if Deliverable(db, row.order, answer(row.order)) then Cleared(db, end, row, answer) else Blocked(db, end, answer)
  }

  lemma FrameTwice(a: Db, b: Db, c: Db, id: OrderId)
    requires Frame(a, b, id) && Frame(b, c, id)
    ensures Frame(a, c, id)
  {
    hide FindFill, JournalOf;
  }

  lemma FrameNamed(db: Db, id: OrderId, state: OrderState, reason: string, release: bool)
    requires id in db.orders && db.orders[id].id == id && Named(db, db.orders[id], state, reason, release).Ok?
    ensures Frame(db, Named(db, db.orders[id], state, reason, release).value.0, id)
  {
    hide CheckEvent, HasIdentity, EventConflicts, FindFill, NamedEvent;
  }

  lemma FrameFilled(db: Db, id: OrderId, fill: PaperFill)
    requires id in db.orders && id in db.journal && OwnFill(id, fill)
    ensures Frame(db, FilledDb(db, id, fill), id)
  {
    hide FillEvent, Scaled, Advanced;
    forall identity: FillIdentity | identity.key != id.key
      ensures FindFill(FilledDb(db, id, fill).fills, identity) == FindFill(db.fills, identity)
    {
      FindAppended(db.fills, FillRow(id, fill), identity);
    }
  }

  // ---- The last commit ----

  lemma SoundIsTidy(db: Db, answer: OrderId -> BrokerResult)
    requires Sound(db, answer)
    ensures Tidy(db) && Inv(db) && OwnFills(db)
  {
    hide Inv, OwnFills, OwnAnswers, SingleFills, NonNegativeFills, FromBroker;
    InvIsTidy(db);
  }

  lemma SameFillsSound(db: Db, after: Db, answer: OrderId -> BrokerResult)
    requires Sound(db, answer) && Inv(after) && after.fills == db.fills
    ensures Sound(after, answer)
  {
    hide Inv, OwnAnswers, SingleFills, NonNegativeFills;
  }

  /** Marking the row finishes it. */
  lemma MarkClears(db: Db, row: OutboxRow, answer: OrderId -> BrokerResult) returns (end: Db)
    requires AtHead(db, row, answer)
    requires NextCommit(db, answer) == Ok(Some(Delivered(db, row, answer(row.order).acknowledgedAt)))
    ensures Advance(db, answer, 1) == end && Cleared(db, end, row, answer)
  {
    hide Inv, Sound, Tidy, NextCommit, Delivered, RowDelivered;
    var at := answer(row.order).acknowledgedAt;
    end := Delivered(db, row, at);
    SoundIsTidy(db, answer);
    MarkCommit(db, row, at);
    MarkedIsDelivered(db, row, at);
    DeliveredKeeps(db, row, at);
    SameFillsSound(db, end, answer);
    assert Advance(db, answer, 1) == Advance(end, answer, 0);
  }

  /** One commit before. */
  lemma Follow(db: Db, next: Db, end: Db, k: nat, row: OutboxRow, answer: OrderId -> BrokerResult)
    requires row.order in db.orders && row.order in next.orders && next.outbox == db.outbox
             && Frame(db, next, row.order)
    requires NextCommit(db, answer) == Ok(Some(next)) && Advance(next, answer, k) == end
             && Reaches(next, end, row, answer)
    requires Deliverable(db, row.order, answer(row.order)) <==> Deliverable(next, row.order, answer(row.order))
    ensures Advance(db, answer, k + 1) == end && Reaches(db, end, row, answer)
  {
    hide NextCommit, Deliverable, Sound, Frame, RowDelivered;
    if Cleared(next, end, row, answer) {
      FrameTwice(db, next, end, row.order);
    }
  }

  // ---- Recording a fill ----

  /** A recorded identity is recorded with its own quantity and price. */
  lemma FoundIsRecorded(db: Db, id: OrderId, fill: PaperFill)
    requires OwnFills(db) && OwnFill(id, fill)
    ensures FindFill(db.fills, fill.identity).Some? <==> Recorded(db.fills, fill)
  {
    if FindFill(db.fills, fill.identity).Some? {
      FoundRow(db.fills, fill.identity);
      var k :| 0 <= k < |db.fills| && db.fills[k] == FindFill(db.fills, fill.identity).value
          && db.fills[k].fill.identity == fill.identity;
      assert OwnFill(db.fills[k].order, db.fills[k].fill);
    }
  }

  lemma NoSuchFillId(db: Db, id: OrderId, fill: PaperFill)
    requires OwnFills(db) && OwnFill(id, fill) && FindFill(db.fills, fill.identity).None?
    ensures !HasFillId(db.fills, fill.fillId)
  {
    forall k | 0 <= k < |db.fills|
      ensures db.fills[k].fill.fillId != fill.fillId
    {
      RowsAreFound(db.fills, k);
      assert OwnFill(db.fills[k].order, db.fills[k].fill);
    }
  }

  /** What is not recorded yet does not take anything back. */
  lemma OpenIsForward(db: Db, row: OutboxRow, answer: OrderId -> BrokerResult, fill: PaperFill)
    requires AtHead(db, row, answer) && answer(row.order).fills == [fill] && FindFill(db.fills, fill.identity).None?
    requires 0 < db.orders[row.order].filled + fill.quantity
    ensures fill.quantity >= 0
  {
    hide Inv, FindFill, RowsOf, OwnFills, OwnAnswers;
    OrderFacts(db, row.order);
    if !NonNegativeFills(answer) && db.orders[row.order].filled > 0 {
      FilledHasRow(db, row.order);
      var r := RowsOf(db.fills, row.order)[0];
      RowIsTheFill(db, answer, row.order, r);
      var k :| 0 <= k < |db.fills| && db.fills[k] == r;
      RowsAreFound(db.fills, k);
    } else if NonNegativeFills(answer) {
      assert answer(row.order).fills[0].quantity >= 0;
    }
  }

  lemma FillRefused(db: Db, id: OrderId, fill: PaperFill)
    requires id in db.orders && FindFill(db.fills, fill.identity).None?
    requires !TakesFills(db.orders[id].state) || !(0 < db.orders[id].filled + fill.quantity <= id.quantity)
    requires db.orders[id].id == id
    ensures TransitionFill(db, id, FillEvent(db.orders[id], fill), db.orders[id].version, fill).Err?
  {
    hide HasIdentity, EventConflicts, FindFill, HasFillId;
  }

  /** Past the acknowledgement, one fill and the marking are left. */
  lemma AtFills(db: Db, row: OutboxRow, answer: OrderId -> BrokerResult) returns (k: nat, end: Db)
    requires AtHead(db, row, answer) && !answer(row.order).rejected
             && db.orders[row.order].state !in {SubmitPending, Submitted}
    ensures Advance(db, answer, k) == end && Reaches(db, end, row, answer)
  {
    hide Inv, FindFill, Sound, Cleared, Recorded, HasTag, OwnFills, TransitionFill, FillEvent, Advance, Delivered,
         Frame, TakesFills;
    var id, o, fills := row.order, db.orders[row.order], answer(row.order).fills;
    AtMostOne(db, row, answer);
    OrderFacts(db, id);
    if fills == [] {
      end := MarkClears(db, row, answer);
      k := 1;
    } else {
      var fill := fills[0];
      FirstOpenIs(db.fills, fills, 0);
      FoundIsRecorded(db, id, fill);
      if Recorded(db.fills, fill) {
        FirstOpenIs(db.fills, fills, 1);
        end := MarkClears(db, row, answer);
        k := 1;
      } else if TakesFills(o.state) && 0 < o.filled + fill.quantity <= id.quantity {
        k, end := AtOpenFill(db, row, answer, fill);
      } else {
        FillRefused(db, id, fill);
        k, end := 0, db;
        NothingAdvanced(db, answer);
      }
    }
  }

  lemma AtMostOne(db: Db, row: OutboxRow, answer: OrderId -> BrokerResult)
    requires AtHead(db, row, answer)
    ensures var fills := answer(row.order).fills; fills == [] || (fills == [fills[0]] && OwnFill(row.order, fills[0]))
    ensures Inv(db) && OwnFills(db)
  {
    hide Inv, OwnFills;
    assert |answer(row.order).fills| <= 1;
  }

  /** An open fill is recorded, and then the row is marked. */
  lemma AtOpenFill(db: Db, row: OutboxRow, answer: OrderId -> BrokerResult, fill: PaperFill) returns (k: nat, end: Db)
    requires AtHead(db, row, answer) && !answer(row.order).rejected
             && db.orders[row.order].state !in {SubmitPending, Submitted}
    requires answer(row.order).fills == [fill] && OwnFill(row.order, fill) && FindFill(db.fills, fill.identity).None?
    requires TakesFills(db.orders[row.order].state)
             && 0 < db.orders[row.order].filled + fill.quantity <= row.order.quantity
    ensures Advance(db, answer, k) == end && Cleared(db, end, row, answer)
  {
    hide Inv, FindFill, Sound, OwnFills, Advance, Delivered, Frame, Tidy, HasFillId, FilledDb, FillEvent, RowDelivered;
    var id, o := row.order, db.orders[row.order];
    SoundIsTidy(db, answer);
    OrderFacts(db, id);
    NoSuchFillId(db, id, fill);
    OpenIsForward(db, row, answer, fill);
    OpenFillAccepted(db, id, fill);
    FirstOpenIs(db.fills, [fill], 0);
    var next := FilledDb(db, id, fill);
    assert NextCommit(db, answer) == Ok(Some(next));
    FilledFacts(db, id, fill);
    FrameFilled(db, id, fill);
    FilledIsSound(db, row, answer, fill, next);
    FindAppended(db.fills, FillRow(id, fill), fill.identity);
    FirstOpenIs(next.fills, [fill], 1);
    assert NextCommit(next, answer) == Ok(Some(Delivered(next, row, answer(id).acknowledgedAt)));
    end := MarkClears(next, row, answer);
    k := 2;
    AdvanceOnce(db, next, answer, 1);
    FrameTwice(db, next, end, id);
  }

  lemma AdvanceOnce(db: Db, next: Db, answer: OrderId -> BrokerResult, k: nat)
    requires NextCommit(db, answer) == Ok(Some(next))
    ensures Advance(db, answer, k + 1) == Advance(next, answer, k)
  {
  }

  lemma FilledIsSound(db: Db, row: OutboxRow, answer: OrderId -> BrokerResult, fill: PaperFill, next: Db)
    requires AtHead(db, row, answer) && answer(row.order).fills == [fill] && OwnFill(row.order, fill)
    requires Inv(next) && next.fills == db.fills + [FillRow(row.order, fill)]
    ensures Sound(next, answer)
  {
    hide Inv, OwnAnswers, SingleFills, NonNegativeFills;
  }

  // ---- Up to the acknowledgement ----

  /** Events that end an order are its last. */
  lemma {:induction false} EndingsAreLast(journal: seq<Event>, i: nat)
    requires GoodJournal(journal) && i < |journal| && IsTerminal(journal[i].state)
    ensures i == |journal| - 1
  {
    if i < |journal| - 1 {
      assert journal[i + 1].state in AllowedTransitions(journal[i].state);
      TransitionFacts(journal[i].state, journal[i + 1].state);
    }
  }

  lemma NotRejectedYet(db: Db, id: OrderId)
    requires Inv(db) && id in db.orders && !IsTerminal(db.orders[id].state)
    ensures forall i :: 0 <= i < |JournalOf(db, id)| ==> JournalOf(db, id)[i].business != NamedTag(Rejected)
  {
    hide Inv, ReservationOk, WasSubmitted, FoldOrder, FillsIn, RowsOf, FilledSum;
    RowParts(db, id);
    var journal := db.journal[id];
    forall i | 0 <= i < |journal|
      ensures journal[i].business != NamedTag(Rejected)
    {
      assert Shaped(journal[i]);
      if journal[i].business == NamedTag(Rejected) {
        EndingsAreLast(journal, i);
      }
    }
  }

  /** A state named for the first time is one sound commit. */
  lemma NamedStep(db: Db, row: OutboxRow, answer: OrderId -> BrokerResult, state: OrderState, reason: string)
      returns (next: Db)
    requires AtHead(db, row, answer) && state in {Submitted, Acknowledged}
             && state in AllowedTransitions(db.orders[row.order].state)
    requires !HasTag(JournalOf(db, row.order), NamedTag(state))
    ensures db.orders[row.order].id == row.order
    ensures Named(db, db.orders[row.order], state, reason, false).Ok?
            && next == Named(db, db.orders[row.order], state, reason, false).value.0
    ensures AtHead(next, row, answer) && Frame(db, next, row.order) && next.outbox == db.outbox
            && next.fills == db.fills
    ensures next.orders[row.order].state == state && next.orders[row.order].filled == db.orders[row.order].filled
    ensures OnlyAdds(JournalOf(db, row.order), JournalOf(next, row.order), NamedTag(state))
  {
    hide Inv, Sound, Named, Frame, AllowedTransitions;
    var id, o := row.order, db.orders[row.order];
    SoundIsTidy(db, answer);
    OrderFacts(db, id);
    FirstNamed(db, id, state, reason);
    NamedFacts(o, state, reason);
    NamedKeeps(db, o, state, reason, false);
    FrameNamed(db, id, state, reason, false);
    next := Named(db, o, state, reason, false).value.0;
    SameFillsSound(db, next, answer);
    TagsOfNext(db, next, id, NamedEvent(o, state, reason));
  }

  lemma TagsOfNext(db: Db, next: Db, id: OrderId, e: Event)
    requires JournalOf(next, id) == JournalOf(db, id) + [e]
    ensures OnlyAdds(JournalOf(db, id), JournalOf(next, id), e.business)
  {
  }

  lemma SameDeliverable(db: Db, next: Db, id: OrderId, result: BrokerResult)
    requires id in db.orders && id in next.orders && next.fills == db.fills
             && next.orders[id].filled == db.orders[id].filled
    requires TakesFills(db.orders[id].state) && TakesFills(next.orders[id].state)
    requires db.orders[id].state == Submitted ==> !HasTag(JournalOf(db, id), NamedTag(Acknowledged))
    requires next.orders[id].state == Submitted ==> !HasTag(JournalOf(next, id), NamedTag(Acknowledged))
    ensures Deliverable(db, id, result) <==> Deliverable(next, id, result)
  {
    hide Recorded, HasTag, JournalOf;
  }

  /** A second acknowledgement conflicts with the first. */
  lemma SecondAcknowledgement(db: Db, id: OrderId, reason: string)
    requires Inv(db) && id in db.orders && db.orders[id].state == Submitted
             && HasTag(JournalOf(db, id), NamedTag(Acknowledged))
    ensures Named(db, db.orders[id], Acknowledged, reason, false).Err?
  {
    hide Inv;
    OrderFacts(db, id);
    SequencesBounded(db, id);
    var e := NamedEvent(db.orders[id], Acknowledged, reason);
    assert !HasIdentity(JournalOf(db, id), e);
    assert EventConflicts(JournalOf(db, id), e);
  }

  /** A submitted order is acknowledged, unless it was before. */
  lemma AtSubmitted(db: Db, row: OutboxRow, answer: OrderId -> BrokerResult) returns (k: nat, end: Db)
    requires AtHead(db, row, answer) && !answer(row.order).rejected && db.orders[row.order].state == Submitted
    ensures Advance(db, answer, k) == end && Reaches(db, end, row, answer)
  {
    hide Inv, Sound, Named, Frame, Cleared, HasTag, Advance, Deliverable;
    var id, reason := row.order, answer(row.order).reason;
    SoundIsTidy(db, answer);
    if HasTag(JournalOf(db, id), NamedTag(Acknowledged)) {
      SecondAcknowledgement(db, id, reason);
      k, end := 0, db;
      NothingAdvanced(db, answer);
      UsedTagBlocks(db, id, answer(id));
    } else {
      var next := NamedStep(db, row, answer, Acknowledged, reason);
      var rest, last := AtFills(next, row, answer);
      SameDeliverable(db, next, id, answer(id));
      Follow(db, next, last, rest, row, answer);
      k, end := rest + 1, last;
    }
  }

  lemma UsedTagBlocks(db: Db, id: OrderId, result: BrokerResult)
    requires id in db.orders && db.orders[id].state == Submitted && !result.rejected
    requires HasTag(JournalOf(db, id), NamedTag(Acknowledged))
    ensures !Deliverable(db, id, result)
  {
  }

  lemma NoTagsYet(db: Db, id: OrderId, state: OrderState)
    requires Inv(db) && id in db.orders && db.orders[id].state == SubmitPending && state in {Submitted, Acknowledged}
    ensures !HasTag(JournalOf(db, id), NamedTag(state))
  {
    hide Inv;
    TagsBeforeSubmission(db, id, state);
  }

  /** A pending submission is handed over first. */
  lemma HandOver(db: Db, row: OutboxRow, answer: OrderId -> BrokerResult) returns (next: Db)
    requires AtHead(db, row, answer) && db.orders[row.order].state == SubmitPending
    ensures NextCommit(db, answer) == Ok(Some(next)) && AtHead(next, row, answer) && Frame(db, next, row.order)
    ensures next.outbox == db.outbox && next.orders[row.order].state == Submitted
    ensures OnlyAdds(JournalOf(db, row.order), JournalOf(next, row.order), NamedTag(Submitted))
    ensures Deliverable(db, row.order, answer(row.order)) <==> Deliverable(next, row.order, answer(row.order))
  {
    hide Inv, Sound, Named, Frame, HasTag, Deliverable;
    SoundIsTidy(db, answer);
    NoTagsYet(db, row.order, Submitted);
    NoTagsYet(db, row.order, Acknowledged);
    next := NamedStep(db, row, answer, Submitted, "paper_request_delivered");
    SameDeliverable(db, next, row.order, answer(row.order));
  }

  /** A rejected order is closed if it was only submitted, and the row marked. */
  lemma AtRejection(db: Db, row: OutboxRow, answer: OrderId -> BrokerResult) returns (k: nat, end: Db)
    requires AtHead(db, row, answer) && answer(row.order).rejected && db.orders[row.order].state != SubmitPending
    ensures Advance(db, answer, k) == end && Reaches(db, end, row, answer)
  {
    hide Inv, Sound, Named, Frame, Cleared, Advance, Delivered;
    var id, reason := row.order, answer(row.order).reason;
    SoundIsTidy(db, answer);
    OrderFacts(db, id);
    if db.orders[id].state == Submitted {
      NotRejectedYet(db, id);
      FirstRejected(db, id, reason);
      NamedKeeps(db, db.orders[id], Rejected, reason, true);
      FrameNamed(db, id, Rejected, reason, true);
      var next := Named(db, db.orders[id], Rejected, reason, true).value.0;
      NamedFills(db, db.orders[id], Rejected, reason, true);
      SameFillsSound(db, next, answer);
      var last := MarkClears(next, row, answer);
      Follow(db, next, last, 1, row, answer);
      k, end := 2, last;
    } else {
      end := MarkClears(db, row, answer);
      k := 1;
    }
  }

  lemma NamedFills(db: Db, o: Order, state: OrderState, reason: string, release: bool)
    requires Named(db, o, state, reason, release).Ok?
    ensures Named(db, o, state, reason, release).value.0.fills == db.fills
  {
    PlainFills(db);
  }

  /** Where a delivery gets with the row at the head of the queue. */
  lemma HeadRow(db: Db, row: OutboxRow, answer: OrderId -> BrokerResult) returns (k: nat, end: Db)
    requires AtHead(db, row, answer)
    ensures Advance(db, answer, k) == end && Reaches(db, end, row, answer)
  {
    hide Inv, Sound, Reaches, Frame, Advance, NextCommit, Deliverable;
    if db.orders[row.order].state == SubmitPending {
      var next := HandOver(db, row, answer);
      var rest, last;
      if answer(row.order).rejected {
        rest, last := AtRejection(next, row, answer);
      } else {
        rest, last := AtSubmitted(next, row, answer);
      }
      Follow(db, next, last, rest, row, answer);
      k, end := rest + 1, last;
    } else if answer(row.order).rejected {
      k, end := AtRejection(db, row, answer);
    } else if db.orders[row.order].state == Submitted {
      k, end := AtSubmitted(db, row, answer);
    } else {
      k, end := AtFills(db, row, answer);
    }
  }

  // ---- The head row ----

  lemma NextKeepsDelivered(db: Db, answer: OrderId -> BrokerResult, key: int)
    requires NextCommit(db, answer).Ok? && NextCommit(db, answer).value.Some? && RowDelivered(db, key)
    ensures RowDelivered(NextCommit(db, answer).value.value, key)
  {
    hide FirstOpenFill, CheckEvent, HasIdentity, EventConflicts, FindFill, HasFillId, NamedEvent, FillEvent;
    var i :| 0 <= i < |db.outbox| && db.outbox[i].key == key && db.outbox[i].delivered.Some?;
    var after := NextCommit(db, answer).value.value;
    assert after.outbox[i].key == key && after.outbox[i].delivered.Some?;
  }

  lemma {:induction false} DeliveredStays(db: Db, answer: OrderId -> BrokerResult, key: int, k: nat)
    requires RowDelivered(db, key)
    ensures RowDelivered(Advance(db, answer, k), key)
    decreases k
  {
    hide NextCommit, RowDelivered;
    if k > 0 && NextCommit(db, answer).Ok? && NextCommit(db, answer).value.Some? {
      NextKeepsDelivered(db, answer, key);
      DeliveredStays(NextCommit(db, answer).value.value, answer, key, k - 1);
    }
  }

  /** The row at the head of the outbox is delivered, after enough commits, if and only if it is deliverable. */
  lemma DeliveredIffDeliverable(db: Db, row: OutboxRow, answer: OrderId -> BrokerResult)
    requires AtHead(db, row, answer)
    ensures EventuallyDelivered(db, answer, row.key) <==> Deliverable(db, row.order, answer(row.order))
  {
    hide Inv, Sound, Frame, Advance, NextCommit, Deliverable, RowDelivered;
    SoundIsTidy(db, answer);
    var k, end := HeadRow(db, row, answer);
    if !Deliverable(db, row.order, answer(row.order)) {
      OutboxFacts(db);
      NotYetDelivered(db, row);
      SameOutbox(db, end, row.key);
      forall j: nat
        ensures !RowDelivered(Advance(db, answer, j), row.key)
      {
        if j <= k {
          AdvanceSplit(db, answer, j, k - j);
          if RowDelivered(Advance(db, answer, j), row.key) {
            DeliveredStays(Advance(db, answer, j), answer, row.key, k - j);
          }
        } else {
          AdvanceSplit(db, answer, k, j - k);
          StuckStays(end, answer, j - k);
        }
      }
    }
  }

  // ---- A cancelled order at the head ----

  lemma NotCancelledYet(db: Db, id: OrderId, tag: Business)
    requires Inv(db) && id in db.orders && db.orders[id].state == SubmitPending
             && (tag.CancelTag? || tag.CancelResultTag?)
    ensures !HasTag(JournalOf(db, id), tag)
  {
    hide Inv, ReservationOk, WasSubmitted, FoldOrder, FillsIn, RowsOf, FilledSum;
    RowParts(db, id);
    var journal := db.journal[id];
    forall i | 0 <= i < |journal|
      ensures journal[i].business != tag
    {
      assert Shaped(journal[i]);
      if i < |journal| - 1 {
        BeforeSubmission(journal, i);
      } else {
        LastIsSubmit(journal);
      }
    }
  }

  /** A command whose identity is new and whose state is allowed is one sound commit. */
  lemma SingleStep(db: Db, row: OutboxRow, answer: OrderId -> BrokerResult, state: OrderState, tag: Business,
                   reason: string, at: int,
                   release: bool) returns (next: Db)
    requires AtHead(db, row, answer) && state in AllowedTransitions(db.orders[row.order].state)
    requires !HasTag(JournalOf(db, row.order), tag)
    requires ServiceEvent(NextEvent(db.orders[row.order], state, tag, NoPayload, reason, at), None, release)
    ensures next == Single(db, row.order, state, tag, reason, at, release).db && AtHead(next, row, answer)
    ensures next.orders[row.order].state == state && next.fills == db.fills
    ensures OnlyAdds(JournalOf(db, row.order), JournalOf(next, row.order), tag)
  {
    hide Inv, Sound, AllowedTransitions, ServiceEvent, Released;
    var id, o := row.order, db.orders[row.order];
    var e := NextEvent(o, state, tag, NoPayload, reason, at);
    SoundIsTidy(db, answer);
    OrderFacts(db, id);
    SequencesBounded(db, id);
    SingleKeeps(db, id, state, tag, reason, at, release);
    next := Single(db, id, state, tag, reason, at, release).db;
    NewTagFits(JournalOf(db, id), e, o.sequence);
    SameFillsSound(db, next, answer);
    TagsOfNext(db, next, id, e);
  }

  lemma NewTagFits(journal: seq<Event>, e: Event, last: int)
    requires !HasTag(journal, e.business) && e.sequence == last + 1
    requires forall i :: 0 <= i < |journal| ==> journal[i].sequence <= last
    ensures !HasIdentity(journal, e) && !EventConflicts(journal, e)
  {
  }

  lemma CancelBoth(sent: Db, row: OutboxRow, answer: OrderId -> BrokerResult, at: int, later: int)
      returns (cancelled: Db)
    requires AtHead(sent, row, answer) && sent.orders[row.order].state == Submitted
    requires !HasTag(JournalOf(sent, row.order), CancelTag)
             && !HasTag(JournalOf(sent, row.order), CancelResultTag("cancelled"))
    ensures cancelled == CancelApplied(CancelRequested(sent, row.order, at).db, row.order, "cancelled", later).db
    ensures AtHead(cancelled, row, answer) && cancelled.orders[row.order].state == Cancelled
            && cancelled.fills == sent.fills
  {
    hide Inv, Sound, Single, HasTag, JournalOf;
    var asked := SingleStep(sent, row, answer, CancelPending, CancelTag, "cancel_requested", at, false);
    cancelled := SingleStep(asked, row, answer, Cancelled, CancelResultTag("cancelled"), "cancelled", later, true);
  }

  /**
    * An order handed to the broker and cancelled before its answer was recorded: its row stays at the head of the
    * outbox, and a reported fill keeps it there for good, whatever the capacity.
    */
  lemma CancelledRowSticks(db: Db, row: OutboxRow, answer: OrderId -> BrokerResult, fill: PaperFill, at: int,
                           later: int)
    requires AtHead(db, row, answer) && db.orders[row.order].state == SubmitPending
    requires !answer(row.order).rejected && answer(row.order).fills == [fill] && FindFill(db.fills, fill.identity).None?
    ensures var cancelled := CancelApplied(CancelRequested(Advance(db, answer, 1), row.order, at).db, row.order,
                                           "cancelled", later).db;
      && row.order in cancelled.orders && cancelled.orders[row.order].state == Cancelled
      && FirstPending(cancelled.outbox) == Some(row) && !EventuallyDelivered(cancelled, answer, row.key)
  {
    hide Inv, Sound, Deliverable, HasTag, FindFill, NextCommit, EventuallyDelivered, Frame, JournalOf, CancelApplied,
         CancelRequested;
    var id := row.order;
    SoundIsTidy(db, answer);
    NotCancelledYet(db, id, CancelTag);
    NotCancelledYet(db, id, CancelResultTag("cancelled"));
    var sent := HandOver(db, row, answer);
    HandOverFills(db, sent, answer);
    AdvanceOnce(db, sent, answer, 0);
    NothingAdvanced(sent, answer);
    var cancelled := CancelBoth(sent, row, answer, at, later);
    DeliveredIffDeliverable(cancelled, row, answer);
    NoMoreFills(cancelled, id, answer(id), fill);
  }

  lemma HandOverFills(db: Db, next: Db, answer: OrderId -> BrokerResult)
    requires NextCommit(db, answer) == Ok(Some(next)) && FirstPending(db.outbox).Some?
    requires FirstPending(db.outbox).value.order in db.orders
             && db.orders[FirstPending(db.outbox).value.order].state == SubmitPending
    ensures next.fills == db.fills
  {
    hide NamedEvent;
    PlainFills(db);
  }

  lemma NoMoreFills(db: Db, id: OrderId, result: BrokerResult, fill: PaperFill)
    requires id in db.orders && !TakesFills(db.orders[id].state) && !result.rejected && fill in result.fills
    requires FindFill(db.fills, fill.identity).None?
    ensures !Deliverable(db, id, result)
  {
  }

  // ---- The whole outbox ----

  ghost predicate AllDeliverable(db: Db, answer: OrderId -> BrokerResult) {
    forall row <- Pending(db.outbox) :: row.order in db.orders && Deliverable(db, row.order, answer(row.order))
  }

  /** Enough commits leave no row to deliver. */
  ghost predicate EventuallyDrained(db: Db, answer: OrderId -> BrokerResult) {
    exists k: nat :: FirstPending(Advance(db, answer, k).outbox).None?
  }

  lemma PendingHasOrder(db: Db, row: OutboxRow)
    requires Inv(db) && row in Pending(db.outbox)
    ensures row.order in db.orders && row.key == row.order.key
  {
    hide RowOk, FillsBelong, KeysUnique;
    PendingAreRows(db.outbox, row);
  }

  /** Clearing one row leaves the others as deliverable as they were. */
  lemma OthersStay(db: Db, end: Db, row: OutboxRow, other: OrderId, result: BrokerResult)
    requires Frame(db, end, row.order) && other in db.orders && other.key != row.order.key
    requires forall fill <- result.fills :: OwnFill(other, fill)
    ensures other in end.orders && (Deliverable(end, other, result) <==> Deliverable(db, other, result))
  {
    hide FindFill, HasTag, JournalOf;
    forall fill | fill in result.fills
      ensures Recorded(end.fills, fill) <==> Recorded(db.fills, fill)
    {
      assert fill.identity.key != row.order.key;
    }
  }

  lemma RestOfQueue(db: Db, end: Db, row: OutboxRow, answer: OrderId -> BrokerResult)
    requires Sound(db, answer) && FirstPending(db.outbox) == Some(row) && row.order in db.orders
             && Cleared(db, end, row, answer)
    requires Deliverable(db, row.order, answer(row.order))
    ensures AllDeliverable(end, answer) <==> AllDeliverable(db, answer)
  {
    hide Inv, Deliverable, Frame, Tidy, RowDelivered, NonNegativeFills, FromBroker, SingleFills, OwnFills;
    SoundIsTidy(db, answer);
    PendingFacts(db);
    FirstIsPending(db.outbox);
    var queue, left := Pending(db.outbox), Pending(end.outbox);
    forall i | 1 <= i < |queue|
      ensures queue[i].order in db.orders && queue[i].order == left[i - 1].order && queue[i].order in end.orders
      ensures Deliverable(end, queue[i].order, answer(queue[i].order)) <==>
                Deliverable(db, queue[i].order, answer(queue[i].order))
    {
      assert queue[i] in queue && queue[0] in queue;
      PendingHasOrder(db, queue[i]);
      assert Stripped(left)[i - 1] == Stripped(queue[1..])[i - 1];
      OthersStay(db, end, row, queue[i].order, answer(queue[i].order));
    }
    SameRows(queue, left, db, end, answer);
  }

  lemma SameRows(queue: seq<OutboxRow>, left: seq<OutboxRow>, db: Db, end: Db, answer: OrderId -> BrokerResult)
    requires queue == Pending(db.outbox) && left == Pending(end.outbox) && |queue| == |left| + 1
    requires queue[0].order in db.orders && Deliverable(db, queue[0].order, answer(queue[0].order))
    requires forall i :: 1 <= i < |queue| ==>
               && queue[i].order in db.orders && queue[i].order == left[i - 1].order && queue[i].order in end.orders
               && (Deliverable(end, queue[i].order, answer(queue[i].order)) <==>
                     Deliverable(db, queue[i].order, answer(queue[i].order)))
    ensures AllDeliverable(end, answer) <==> AllDeliverable(db, answer)
  {
    hide Deliverable;
    if AllDeliverable(db, answer) {
      forall row | row in left
        ensures row.order in end.orders && Deliverable(end, row.order, answer(row.order))
      {
        var i :| 0 <= i < |left| && left[i] == row;
        assert queue[i + 1] in queue;
      }
    }
    if AllDeliverable(end, answer) {
      forall row | row in queue
        ensures row.order in db.orders && Deliverable(db, row.order, answer(row.order))
      {
        var i :| 0 <= i < |queue| && queue[i] == row;
        if i > 0 {
          assert left[i - 1] in left;
        }
      }
    }
  }

  /** Where delivery of the whole outbox halts. */
  lemma {:induction false} WholeOutbox(db: Db, answer: OrderId -> BrokerResult) returns (k: nat, end: Db)
    requires Sound(db, answer)
    ensures Advance(db, answer, k) == end && Settled(end, answer)
    ensures FirstPending(end.outbox).None? <==> AllDeliverable(db, answer)
    decreases |Pending(db.outbox)|
  {
    hide Inv, Sound, Deliverable, Frame, Advance, NextCommit, Tidy, RowDelivered;
    SoundIsTidy(db, answer);
    FirstIsPending(db.outbox);
    if Pending(db.outbox) == [] {
      k, end := 0, db;
      NothingAdvanced(db, answer);
      NothingPending(db, answer);
    } else {
      var row := Pending(db.outbox)[0];
      PendingHasOrder(db, row);
      var first, middle := HeadRow(db, row, answer);
      if Deliverable(db, row.order, answer(row.order)) {
        RestOfQueue(db, middle, row, answer);
        assert |Stripped(Pending(middle.outbox))| == |Stripped(Pending(db.outbox)[1..])|;
        var rest, last := WholeOutbox(middle, answer);
        AdvanceSplit(db, answer, first, rest);
        k, end := first + rest, last;
      } else {
        k, end := first, middle;
      }
    }
  }

  lemma NothingPending(db: Db, answer: OrderId -> BrokerResult)
    requires FirstPending(db.outbox).None? && Pending(db.outbox) == []
    ensures Settled(db, answer) && AllDeliverable(db, answer)
  {
  }

  lemma DrainedIsSettled(db: Db, answer: OrderId -> BrokerResult)
    requires FirstPending(db.outbox).None?
    ensures Settled(db, answer)
  {
  }

  /** Delivery drains the outbox if and only if every pending row is deliverable. */
  lemma DrainedIffDeliverable(db: Db, answer: OrderId -> BrokerResult)
    requires Sound(db, answer)
    ensures EventuallyDrained(db, answer) <==> AllDeliverable(db, answer)
  {
    hide Sound, Advance, NextCommit, AllDeliverable, Settled;
    var k, end := WholeOutbox(db, answer);
    forall j: nat | FirstPending(Advance(db, answer, j).outbox).None?
      ensures AllDeliverable(db, answer)
    {
      DrainedIsSettled(Advance(db, answer, j), answer);
      SettledIsUnique(db, answer, j, k);
    }
  }

  // ---- Against the paper broker ----

  /**
    * What this means for a paper broker: the row is rejected, or the order was not acknowledged before it was
    * recovered to submitted, and there is no fill, or it is recorded, or the order takes fills and the capacity is
    * not zero.
    */
  ghost predicate PaperDeliverable(db: Db, id: OrderId, market: map<string, MarketEvent>, p: BrokerPolicy)
    requires id in db.orders
  {
    var o, result := db.orders[id], Respond(market, p, id);
    || result.rejected
    || (&& (o.state == Submitted ==> !HasTag(JournalOf(db, id), NamedTag(Acknowledged)))
        && (|| result.fills == [] || Recorded(db.fills, result.fills[0])
            || (TakesFills(o.state) && !ZeroCapacity(market, p, id))))
  }

  lemma PaperIsDeliverable(db: Db, id: OrderId, market: map<string, MarketEvent>, p: BrokerPolicy)
    requires Inv(db) && OwnFills(db) && FromBroker(db, PaperAnswers(market, p)) && id in db.orders
    ensures PaperDeliverable(db, id, market, p) <==> Deliverable(db, id, PaperAnswers(market, p)(id))
  {
    hide Inv, Respond, ZeroCapacity, FindFill, HasTag, OwnFills, FromBroker, TakesFills, RowsOf, JournalOf;
    var answer := PaperAnswers(market, p);
    var o, result := db.orders[id], Respond(market, p, id);
    OrderFacts(db, id);
    RespondFacts(market, p, id);
    PaperFillsOnce(market, p);
    if result.fills != [] {
      var fill := result.fills[0];
      assert result.fills == [fill];
      if !Recorded(db.fills, fill) {
        NothingFilled(db, answer, id, fill);
        assert ZeroCapacity(market, p, id) <==> fill.quantity <= 0;
      }
    }
  }

  /** The one fill of a broker that fills once is the only thing that fills an order. */
  lemma NothingFilled(db: Db, answer: OrderId -> BrokerResult, id: OrderId, fill: PaperFill)
    requires Inv(db) && OwnFills(db) && FromBroker(db, answer) && SingleFills(answer) && id in db.orders
    requires answer(id).fills == [fill] && OwnFill(id, fill) && !Recorded(db.fills, fill)
    ensures db.orders[id].filled == 0
  {
    hide Inv, FindFill, OwnFills, FromBroker, SingleFills, RowsOf;
    OrderFacts(db, id);
    FoundIsRecorded(db, id, fill);
    if db.orders[id].filled > 0 {
      FilledHasRow(db, id);
      var r := RowsOf(db.fills, id)[0];
      RowIsTheFill(db, answer, id, r);
      var k :| 0 <= k < |db.fills| && db.fills[k] == r;
      RowsAreFound(db.fills, k);
      assert false;
    }
  }

  /** What a reachable database and its paper broker keep. */
  lemma ReachableIsSound(fees: FeeTaxPolicy, calls: seq<Call>, market: map<string, MarketEvent>, p: BrokerPolicy)
    requires fees.Valid() && AgainstPaper(calls, market, p)
    ensures Sound(Run(fees, calls), PaperAnswers(market, p))
    ensures FromBroker(Run(fees, calls), PaperAnswers(market, p))
  {
    hide Inv, Run, FromBroker, OwnFills, OwnAnswers, SingleFills, AgainstPaper;
    PaperRunIsSafe(fees, calls, market, p);
    PaperAnswersAreOwn(market, p);
    PaperFillsOnce(market, p);
    FromOwnBroker(Run(fees, calls), PaperAnswers(market, p));
  }

  lemma FromOwnBroker(db: Db, answer: OrderId -> BrokerResult)
    requires FromBroker(db, answer) && OwnAnswers(answer)
    ensures OwnFills(db)
  {
    forall i | 0 <= i < |db.fills|
      ensures OwnFill(db.fills[i].order, db.fills[i].fill)
    {
      var id := db.fills[i].order;
      var k :| 0 <= k < |answer(id).fills| && answer(id).fills[k] == db.fills[i].fill;
      assert OwnFill(id, answer(id).fills[k]);
    }
  }

  /**
    * Over every run against one paper broker, with any participation cap: the row at the head of the outbox is
    * eventually delivered exactly when the condition holds of its order, and the outbox is eventually drained exactly
    * when it holds of every pending order.
    */
  lemma ReachableDelivery(fees: FeeTaxPolicy, calls: seq<Call>, market: map<string, MarketEvent>, p: BrokerPolicy)
    requires fees.Valid() && AgainstPaper(calls, market, p)
    ensures var db, answer := Run(fees, calls), PaperAnswers(market, p);
      && (forall row <- Pending(db.outbox) :: row.order in db.orders)
      && (FirstPending(db.outbox).Some? ==>
            var row := FirstPending(db.outbox).value;
            && row.order in db.orders
            && (EventuallyDelivered(db, answer, row.key) <==> PaperDeliverable(db, row.order, market, p)))
      && (EventuallyDrained(db, answer) <==>
            forall row <- Pending(db.outbox) :: row.order in db.orders && PaperDeliverable(db, row.order, market, p))
  {
    hide Inv, Run, FromBroker, OwnFills, EventuallyDelivered, EventuallyDrained, Deliverable, PaperDeliverable, Tidy,
         OwnAnswers, SingleFills;
    ReachableIsSound(fees, calls, market, p);
    var db, answer := Run(fees, calls), PaperAnswers(market, p);
    forall row | row in Pending(db.outbox)
      ensures row.order in db.orders
      ensures PaperDeliverable(db, row.order, market, p) <==> Deliverable(db, row.order, answer(row.order))
    {
      PendingHasOrder(db, row);
      PaperIsDeliverable(db, row.order, market, p);
    }
    FirstIsPending(db.outbox);
    if FirstPending(db.outbox).Some? {
      var row := FirstPending(db.outbox).value;
      assert row == Pending(db.outbox)[0] && row in Pending(db.outbox);
      DeliveredIffDeliverable(db, row, answer);
    }
    DrainedIffDeliverable(db, answer);
  }
}
