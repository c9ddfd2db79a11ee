/** When the commands of the order service are accepted, and what an accepted one changes. */
module OmsCommands {
  import opened OmsInvariant
  import opened OmsModel
  import opened OmsRuns
  import opened Wrappers

  /** The order has been in the state before. */
  predicate HasBeen(journal: seq<Event>, state: OrderState) {
    exists e <- journal :: e.state == state
  }

  /** An event of the order has this business identity. */
  predicate IsTaken(journal: seq<Event>, business: Business) {
    exists e <- journal :: e.business == business
  }

  /** The states in which a broker's answer may leave the order's fate unknown. */
  predicate MayTurnUnknown(s: OrderState) {
    s in {SubmitPending, Submitted, Acknowledged, PartiallyFilled, CancelPending, ReplacePending}
  }

  /** The transition table read backwards: where an order may come from. */
  lemma WaysInto(s: OrderState, t: OrderState)
    ensures t in AllowedTransitions(s) <==>
            match t
            case Created => false
            case RiskPending => s == Created
            case RiskApproved => s == RiskPending
            case RiskRejected => s == RiskPending
            case SubmitPending => s in {RiskApproved, Replaced}
            case Submitted => s in {SubmitPending, Unknown}
            case Acknowledged => s in {Submitted, Unknown}
            case PartiallyFilled => s in {Acknowledged, PartiallyFilled, CancelPending, ReplacePending}
            case Filled => s in {Acknowledged, PartiallyFilled, CancelPending, ReplacePending}
            case CancelPending => s in {Submitted, Acknowledged, PartiallyFilled, Replaced}
            case Cancelled => s in {CancelPending, Unknown}
            case ReplacePending => s in {Acknowledged, PartiallyFilled}
            case Replaced => s == ReplacePending
            case Rejected => s in {SubmitPending, Submitted, Acknowledged, Unknown}
            case Expired => s in {Acknowledged, PartiallyFilled}
            case Unknown => MayTurnUnknown(s)
  {
  }

  /** Terminal are exactly the states nothing follows. */
  lemma TerminalIsFinal(s: OrderState)
    ensures IsTerminal(s) <==> forall t :: t !in AllowedTransitions(s)
  {
    match s
    case Created => assert RiskPending in AllowedTransitions(s);
    case RiskPending => assert RiskApproved in AllowedTransitions(s);
    case RiskApproved => assert SubmitPending in AllowedTransitions(s);
    case SubmitPending => assert Submitted in AllowedTransitions(s);
    case Submitted => assert Acknowledged in AllowedTransitions(s);
    case Acknowledged => assert Filled in AllowedTransitions(s);
    case PartiallyFilled => assert Filled in AllowedTransitions(s);
    case CancelPending => assert Cancelled in AllowedTransitions(s);
    case ReplacePending => assert Replaced in AllowedTransitions(s);
    case Replaced => assert SubmitPending in AllowedTransitions(s);
    case Unknown => assert Submitted in AllowedTransitions(s);
    case _ =>
  }

  /** An accepted command moves the order to `state` by one event, and touches nothing but the order's own rows. */
  ghost predicate Moves(db: Db, ran: Ran, id: OrderId, state: OrderState, reason: string, at: int, release: bool)
    requires id in db.orders
  {
    var o := db.orders[id];
    ran.outcome.Ok? ==>
      var moved := Order(id, o.filled, state, o.version + 1, o.sequence + 1, o.createdAt, at);
      && ran.outcome == Ok(moved) && ran.db.orders == db.orders[id := moved]
      && ran.db.fills == db.fills && ran.db.outbox == db.outbox
      && (exists e ::
            && ran.db.journal == db.journal[id := JournalOf(db, id) + [e]]
            && e.sequence == o.sequence + 1 && e.previous == Some(o.state) && e.state == state
            && e.payload == NoPayload && e.time == at && e.reason == reason)
      && ran.db.reservations ==
         if release && id in db.reservations && db.reservations[id].active
         then db.reservations[id := Reservation(0.0, 0, id.quantity, false, db.reservations[id].granted)]
         else db.reservations
  }

  /** The next event is new to its journal, and conflicts with it only in its business identity. */
  lemma NewToJournal(journal: seq<Event>, e: Event)
    requires GoodJournal(journal) && e.sequence == |journal| + 1
    ensures !HasIdentity(journal, e) && (EventConflicts(journal, e) <==> IsTaken(journal, e.business))
  {
    hide GoodJournal;
    SequencesCount(journal);
    if IsTaken(journal, e.business) {
      var other :| other in journal && other.business == e.business;
      var i :| 0 <= i < |journal| && journal[i] == other;
      assert journal[i].business == e.business;
    }
  }

  lemma JournalIsGood(db: Db, id: OrderId)
    requires Inv(db) && id in db.orders
    ensures GoodJournal(JournalOf(db, id)) && db.orders[id].sequence == |JournalOf(db, id)|
  {
    hide GoodJournal, ReservationOk, FoldOrder, FillsIn, RowsOf, FilledSum;
    RowParts(db, id);
  }

  lemma SequencesCount(journal: seq<Event>)
    requires GoodJournal(journal)
    ensures forall i :: 0 <= i < |journal| ==> journal[i].sequence == i + 1
  {
    hide Shaped;
  }

  /** A command is accepted exactly when its state may follow and its business identity is new. */
  lemma Accepted(db: Db, id: OrderId, state: OrderState, business: Business, reason: string, at: int, release: bool)
    requires Inv(db) && id in db.orders
    ensures var ran := Single(db, id, state, business, reason, at, release);
            && (ran.outcome.Ok? <==>
                  state in AllowedTransitions(db.orders[id].state) && !IsTaken(JournalOf(db, id), business))
            && Moves(db, ran, id, state, reason, at, release)
            && (ran.outcome.Err? ==> ran.db == db)
  {
    hide Inv, AllowedTransitions, HasIdentity, EventConflicts, IsTaken, GoodJournal;
    JournalIsGood(db, id);
    NewToJournal(JournalOf(db, id), NextEvent(db.orders[id], state, business, NoPayload, reason, at));
    RowIs(db, id);
  }

  lemma RowIs(db: Db, id: OrderId)
    requires Inv(db) && id in db.orders
    ensures db.orders[id].id == id && id in db.journal
    ensures id in db.reservations ==> db.reservations[id].original == id.quantity
  {
    hide GoodJournal, FoldOrder, FillsIn, RowsOf, FilledSum, CashOk;
    RowParts(db, id);
  }

  /** A business identity of a request is used exactly when the order has been in the state it asks for. */
  lemma RequestsLeaveTraces(db: Db, id: OrderId)
    requires Inv(db) && id in db.orders
    ensures IsTaken(JournalOf(db, id), CancelTag) <==> HasBeen(JournalOf(db, id), CancelPending)
    ensures IsTaken(JournalOf(db, id), ReplaceTag) <==> HasBeen(JournalOf(db, id), ReplacePending)
    ensures IsTaken(JournalOf(db, id), ReplaceResultTag("replaced")) <==> HasBeen(JournalOf(db, id), Replaced)
    ensures forall n :: n > |JournalOf(db, id)| ==> !IsTaken(JournalOf(db, id), RecoveryTag(n))
  {
    hide Inv, ReservationOk, FoldOrder, FillsIn, RowsOf, FilledSum, Chained;
    RowParts(db, id);
    var journal := db.journal[id];
    SequencesCount(journal);
    forall i | 0 <= i < |journal|
      ensures journal[i].business == CancelTag <==> journal[i].state == CancelPending
      ensures journal[i].business == ReplaceTag <==> journal[i].state == ReplacePending
      ensures journal[i].business == ReplaceResultTag("replaced") <==> journal[i].state == Replaced
      ensures journal[i].business.RecoveryTag? ==> journal[i].business.sequence <= |journal|
    {
      TraceOf(journal, i);
    }
    assert forall e :: e in journal <==> exists i :: 0 <= i < |journal| && journal[i] == e;
  }

  /** Only its own request puts an order into a pending state. */
  lemma TraceOf(journal: seq<Event>, i: nat)
    requires GoodJournal(journal) && i < |journal|
    ensures journal[i].business == CancelTag <==> journal[i].state == CancelPending
    ensures journal[i].business == ReplaceTag <==> journal[i].state == ReplacePending
    ensures journal[i].business == ReplaceResultTag("replaced") <==> journal[i].state == Replaced
    ensures journal[i].business.RecoveryTag? ==> journal[i].business.sequence == journal[i].sequence
  {
    assert Shaped(journal[i]);
    if i > 0 {
      assert journal[i].previous == Some(journal[i - 1].state);
      assert journal[i].state in AllowedTransitions(journal[i - 1].state);
    }
  }

  /**
    * Cancelling is accepted exactly once, from the states in which the broker may hold the order; its result closes the
    * order and releases what it reserved exactly when the broker says so.
    */
  lemma CancelIsAccepted(db: Db, id: OrderId, status: string, at: int)
    requires Inv(db) && id in db.orders
    ensures var s, ran := db.orders[id].state, CancelRequested(db, id, at);
            && (ran.outcome.Ok? <==>
                  s in {Submitted, Acknowledged, PartiallyFilled, Replaced}
                  && !HasBeen(JournalOf(db, id), CancelPending))
            && Moves(db, ran, id, CancelPending, "cancel_requested", at, false)
    ensures var s, ran := db.orders[id].state, CancelApplied(db, id, status, at);
            && (ran.outcome.Ok? <==>
                  (if status == "cancelled" then s in {CancelPending, Unknown} else MayTurnUnknown(s))
                  && !IsTaken(JournalOf(db, id), CancelResultTag(status)))
            && if status == "cancelled" then Moves(db, ran, id, Cancelled, status, at, true)
               else Moves(db, ran, id, Unknown, status, at, false)
  {
    hide Inv, Single, Moves, HasBeen, IsTaken;
    Accepted(db, id, CancelPending, CancelTag, "cancel_requested", at, false);
    RequestsLeaveTraces(db, id);
    if status == "cancelled" {
      Accepted(db, id, Cancelled, CancelResultTag(status), status, at, true);
    } else {
      Accepted(db, id, Unknown, CancelResultTag(status), status, at, false);
    }
  }

  /** Replacing is accepted at most once, for an order the broker has acknowledged and not finished. */
  lemma ReplaceIsAccepted(db: Db, id: OrderId, status: string, at: int)
    requires Inv(db) && id in db.orders
    ensures var s, ran := db.orders[id].state, ReplaceRequested(db, id, at);
            && (ran.outcome.Ok? <==>
                  s in {Acknowledged, PartiallyFilled} && !HasBeen(JournalOf(db, id), ReplacePending))
            && Moves(db, ran, id, ReplacePending, "replace_requested", at, false)
    ensures var s, ran := db.orders[id].state, ReplaceApplied(db, id, status, at);
            && (ran.outcome.Ok? <==>
                  if status == "replaced" then s == ReplacePending && !HasBeen(JournalOf(db, id), Replaced)
                  else MayTurnUnknown(s) && !IsTaken(JournalOf(db, id), ReplaceResultTag(status)))
            && Moves(db, ran, id, if status == "replaced" then Replaced else Unknown, status, at, false)
  {
    hide Inv, Single, Moves, HasBeen, IsTaken;
    Accepted(db, id, ReplacePending, ReplaceTag, "replace_requested", at, false);
    RequestsLeaveTraces(db, id);
    Accepted(db, id, if status == "replaced" then Replaced else Unknown, ReplaceResultTag(status), status, at, false);
  }

  /** An order of unknown fate can be recovered, as often as needed, to exactly four states. */
  lemma RecoveryIsAccepted(db: Db, id: OrderId, state: OrderState, reason: string, at: int)
    requires Inv(db) && id in db.orders
    ensures var ran := Recovered(db, id, state, reason, at);
            && (ran.outcome.Ok? <==>
                  db.orders[id].state == Unknown && state in {Submitted, Acknowledged, Cancelled, Rejected})
            && Moves(db, ran, id, state, reason, at, false)
  {
    hide Inv, Single, Moves, HasBeen, IsTaken, GoodJournal;
    var next := db.orders[id].sequence + 1;
    Accepted(db, id, state, RecoveryTag(next), reason, at, false);
    RequestsLeaveTraces(db, id);
    JournalIsGood(db, id);
    if db.orders[id].state != Unknown {
      NotAccepted(db, id, state, reason, at);
    }
  }

  lemma NotAccepted(db: Db, id: OrderId, state: OrderState, reason: string, at: int)
    requires id in db.orders && db.orders[id].state != Unknown
    ensures Recovered(db, id, state, reason, at).outcome.Err?
    ensures Moves(db, Recovered(db, id, state, reason, at), id, state, reason, at, false)
  {
  }

  /** A fill of the order's own: what it makes of the order's reservation. */
  ghost predicate Shrinks(r: Reservation, after: Reservation, remaining: int) {
    if r.active && r.original > 0 then
      && after.cash * r.original as real == r.cash * remaining as real
      && after.quantity == (if remaining < r.quantity then remaining else r.quantity)
      && after.active == (remaining != 0) && after.original == r.original && after.granted == r.granted
    else after == r
  }

  /** What recording a fill changes: the order's own rows, and the fill table by one row. */
  ghost predicate Records(db: Db, id: OrderId, fill: PaperFill, after: Db, moved: Order)
    requires id in db.orders
  {
    var o := db.orders[id];
    var remaining := id.quantity - o.filled - fill.quantity;
    && moved == Order(id, o.filled + fill.quantity, if remaining == 0 then Filled else PartiallyFilled,
                      o.version + 1, o.sequence + 1, o.createdAt, fill.time)
    && after.orders == db.orders[id := moved] && after.outbox == db.outbox
    && after.fills == db.fills + [FillRow(id, fill)]
    && (exists e ::
          && after.journal == db.journal[id := JournalOf(db, id) + [e]]
          && e.sequence == o.sequence + 1 && e.previous == Some(o.state) && e.state == moved.state
          && e.business == FillTag(fill.identity) && e.time == fill.time
          && e.payload == FillPayload(fill.fillId, fill.quantity, fill.price))
    && if id in db.reservations
       then id in after.reservations && Shrinks(db.reservations[id], after.reservations[id], remaining)
            && after.reservations == db.reservations[id := after.reservations[id]]
       else after.reservations == db.reservations
  }

  /**
    * A fill not recorded before is accepted exactly in the states in which the broker may be trading the order, if it
    * adds to a positive amount within the order and neither its identity nor its business identity is taken. It closes
    * the order exactly when the order is then filled.
    */
  lemma FillIsAccepted(db: Db, id: OrderId, fill: PaperFill)
    requires Inv(db) && id in db.orders && FindFill(db.fills, fill.identity).None?
    ensures var o := db.orders[id];
      var step := TransitionFill(db, id, FillEvent(o, fill), o.version, fill);
      && (step.Ok? <==>
            && o.state in {Acknowledged, PartiallyFilled, CancelPending, ReplacePending}
            && 0 < o.filled + fill.quantity <= id.quantity
            && !(exists row <- db.fills :: row.fill.fillId == fill.fillId)
            && !IsTaken(JournalOf(db, id), FillTag(fill.identity)))
      && (step.Ok? ==> Records(db, id, fill, step.value.0, step.value.1))
  {
    hide Inv, HasIdentity, EventConflicts, IsTaken, Shrinks, Scaled, HasFillId, GoodJournal;
    var o := db.orders[id];
    FillIds(db.fills, fill.fillId);
    RowIs(db, id);
    JournalIsGood(db, id);
    NewToJournal(JournalOf(db, id), FillEvent(o, fill));
    if id in db.reservations {
      ScaledShrinks(db.reservations[id], id.quantity - o.filled - fill.quantity);
    }
  }

  lemma FillIds(fills: seq<FillRow>, fillId: Digest)
    ensures HasFillId(fills, fillId) <==> exists row <- fills :: row.fill.fillId == fillId
  {
  }

  lemma ScaledShrinks(r: Reservation, remaining: int)
    ensures Shrinks(r, Scaled(r, remaining), remaining)
  {
    if r.active && r.original > 0 {
      Quotient(r.cash * remaining as real, r.original as real);
    }
  }

  lemma Quotient(a: real, b: real)
    requires b > 0.0
    ensures a / b * b == a
  {
  }
}
