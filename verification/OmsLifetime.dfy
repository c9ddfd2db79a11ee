/**
 Bounded order life: with the paper broker's cancel and replace answers and positive fills, no run makes a
 journal longer than thirteen events plus the order quantity, although the state graph has cycles.
 */
module OmsLifetime {
  import opened FeeTax
  import opened OmsGuarantees
  import opened OmsInvariant
  import opened OmsModel
  import opened OmsReachable
  import opened OmsRuns
  import opened Wrappers

  /** The only answers of the paper broker to a cancel and to a replace, and only positive fills of the order. */
  ghost predicate BrokerCall(call: Call, id: OrderId) {
    match call
    case Deliver(answer, _) => PositiveFills(answer(id))
    case ApplyCancel(_, status, _) => status in {"cancelled", "unknown_order"}
    case ApplyReplace(_, status, _) => status in {"replaced", "unknown_order"}
    case _ => true
  }

  predicate PositiveFills(result: BrokerResult) {
    forall i :: 0 <= i < |result.fills| ==> result.fills[i].quantity >= 1
  }

  // ---- What kinds of events such runs write ----

  predicate BrokerEvent(e: Event) {
    match e.business
    case CancelResultTag(status) => status in {"cancelled", "unknown_order"}
    case ReplaceResultTag(status) => status in {"replaced", "unknown_order"}
    case FillTag(_) => e.payload.FillPayload? && e.payload.quantity >= 1
    case _ => true
  }

  predicate BrokerJournal(journal: seq<Event>) {
    forall i :: 0 <= i < |journal| ==> BrokerEvent(journal[i])
  }

  ghost predicate BrokerEvents(db: Db, id: OrderId) {
    BrokerJournal(JournalOf(db, id))
  }

  lemma TransitionWrites(db: Db, id: OrderId, target: OrderId, e: Event, version: int, submission: Option<Submission>,
                         release: bool)
    requires BrokerEvents(db, id) && BrokerEvent(e) && Transition(db, target, e, version, submission, release).Ok?
    ensures BrokerEvents(Transition(db, target, e, version, submission, release).value.0, id)
  {
    hide CheckEvent, HasIdentity, EventConflicts, BrokerEvent;
    assert BrokerJournal(JournalOf(db, id) + [e]);
  }

  lemma TransitionFillWrites(db: Db, id: OrderId, target: OrderId, e: Event, version: int, fill: PaperFill)
    requires BrokerEvents(db, id) && (target == id ==> BrokerEvent(e))
             && TransitionFill(db, target, e, version, fill).Ok?
    ensures BrokerEvents(TransitionFill(db, target, e, version, fill).value.0, id)
  {
    hide CheckEvent, HasIdentity, EventConflicts, BrokerEvent, FindFill, HasFillId;
    if target == id {
      assert BrokerJournal(JournalOf(db, id) + [e]);
    }
  }

  lemma NamedWrites(db: Db, id: OrderId, o: Order, state: OrderState, reason: string, release: bool)
    requires BrokerEvents(db, id) && Named(db, o, state, reason, release).Ok?
    ensures BrokerEvents(Named(db, o, state, reason, release).value.0, id)
  {
    hide Transition, BrokerEvents;
    TransitionWrites(db, id, o.id, NamedEvent(o, state, reason), o.version, None, release);
  }

  lemma DecidedWrites(db: Db, id: OrderId, o: Order, fees: FeeTaxPolicy, c: Command, commits: nat)
    requires BrokerEvents(db, id)
    ensures BrokerEvents(Decided(db, o, fees, c, commits).db, id)
  {
    hide Transition, BrokerEvents, Named;
    if Required(fees, c).Ok? && commits > 0 {
      var required := Required(fees, c).value;
      var reason := RiskReason(db, c, required);
      if reason.Some? {
        if Named(db, o, RiskRejected, reason.value, false).Ok? {
          NamedWrites(db, id, o, RiskRejected, reason.value, false);
        }
      } else if Named(db, o, RiskApproved, "paper_risk_approved", false).Ok? {
        NamedWrites(db, id, o, RiskApproved, "paper_risk_approved", false);
        var (approved, o') := Named(db, o, RiskApproved, "paper_risk_approved", false).value;
        if commits > 1 && Submit(approved, o', c, required).Ok? {
          var e := NextEvent(o', SubmitPending, SubmitTag, NoPayload, "paper_submit_queued", o'.updatedAt);
          TransitionWrites(approved, id, o'.id, e, o'.version,
                           Some(Submission(if c.side == Buy then required else 0.0, c.quantity)), false);
        }
      }
    }
  }

  lemma CreatedWrites(db: Db, id: OrderId, target: OrderId, at: int)
    requires BrokerEvents(db, id) && Create(db, target, at).Ok?
    ensures BrokerEvents(Create(db, target, at).value.0, id)
  {
  }

  lemma QueuedWrites(db: Db, id: OrderId, fees: FeeTaxPolicy, c: Command, commits: nat)
    requires BrokerEvents(db, id)
    ensures BrokerEvents(Queued(db, fees, c, commits).db, id)
  {
    hide BrokerEvents, Named, Decided, Create;
    if ByKey(db, c.key).None? && c.quantity >= 1 && commits > 0 && Create(db, c.Id(), c.createdAt).Ok? {
      CreatedWrites(db, id, c.Id(), c.createdAt);
      var (created, o) := Create(db, c.Id(), c.createdAt).value;
      if commits > 1 && Named(created, o, RiskPending, "risk_evaluation_started", false).Ok? {
        NamedWrites(created, id, o, RiskPending, "risk_evaluation_started", false);
        var (pending, o') := Named(created, o, RiskPending, "risk_evaluation_started", false).value;
        DecidedWrites(pending, id, o', fees, c, commits - 2);
      }
    }
  }

  lemma NextCommitWrites(db: Db, id: OrderId, answer: OrderId -> BrokerResult)
    requires Inv(db) && BrokerEvents(db, id) && (PositiveFills(answer(id)) || NextFillsAtLeast(db, answer, 1))
    requires NextCommit(db, answer).Ok? && NextCommit(db, answer).value.Some?
    ensures BrokerEvents(NextCommit(db, answer).value.value, id)
  {
    hide Inv, BrokerEvents, Named, TransitionFill, FirstOpenFill, Delivered;
    var row := FirstPending(db.outbox).value;
    var o, result := db.orders[row.order], answer(row.order);
    OrderFacts(db, row.order);
    if o.state == SubmitPending {
      NamedWrites(db, id, o, Submitted, "paper_request_delivered", false);
    } else if result.rejected && o.state == Submitted {
      NamedWrites(db, id, o, Rejected, result.reason, true);
    } else if !result.rejected && o.state == Submitted {
      NamedWrites(db, id, o, Acknowledged, result.reason, false);
    } else if !result.rejected && FirstOpenFill(db.fills, result.fills).value.Some? {
      var fill := FirstOpenFill(db.fills, result.fills).value.value;
      FirstOpenFillIsOne(db.fills, result.fills);
      FillIsAppended(db, o.id, FillEvent(o, fill), o.version, fill);
      TransitionFillWrites(db, id, o.id, FillEvent(o, fill), o.version, fill);
    } else {
      DeliveredWrites(db, id, row, result.acknowledgedAt);
    }
  }

  lemma DeliveredWrites(db: Db, id: OrderId, row: OutboxRow, at: int)
    requires BrokerEvents(db, id)
    ensures BrokerEvents(Delivered(db, row, at), id)
  {
  }

  lemma {:induction false} AdvanceWrites(db: Db, id: OrderId, answer: OrderId -> BrokerResult, commits: nat)
    requires Inv(db) && BrokerEvents(db, id) && NonNegativeFills(answer) && PositiveFills(answer(id))
    ensures BrokerEvents(Advance(db, answer, commits), id)
    decreases commits
  {
    hide Inv, BrokerEvents, NextCommit, PositiveFills, NonNegativeFills;
    if commits > 0 && NextCommit(db, answer).Ok? && NextCommit(db, answer).value.Some? {
      NextCommitWrites(db, id, answer);
      NonNegativeNext(db, answer);
      NextCommitKeeps(db, answer);
      AdvanceWrites(NextCommit(db, answer).value.value, id, answer, commits - 1);
    }
  }

  lemma SingleWrites(db: Db, id: OrderId, target: OrderId, state: OrderState, business: Business, reason: string,
                     at: int, release: bool)
    requires BrokerEvents(db, id)
    requires target in db.orders ==> BrokerEvent(NextEvent(db.orders[target], state, business, NoPayload, reason, at))
    ensures BrokerEvents(Single(db, target, state, business, reason, at, release).db, id)
  {
    hide BrokerEvents, Transition, BrokerEvent;
    if target in db.orders {
      var o := db.orders[target];
      var e := NextEvent(o, state, business, NoPayload, reason, at);
      if Transition(db, target, e, o.version, None, release).Ok? {
        TransitionWrites(db, id, target, e, o.version, None, release);
      }
    }
  }

  /** The calls other than deliveries write only such events; what they apply is a paper broker's answer. */
  predicate PaperStatus(call: Call) {
    match call
    case ApplyCancel(_, status, _) => status in {"cancelled", "unknown_order"}
    case ApplyReplace(_, status, _) => status in {"replaced", "unknown_order"}
    case _ => true
  }

  lemma CallWrites(db: Db, id: OrderId, fees: FeeTaxPolicy, call: Call)
    requires BrokerEvents(db, id) && PaperStatus(call) && !call.Deliver?
    ensures BrokerEvents(After(db, fees, call), id)
  {
    hide BrokerEvents, Queued, Single;
    match call
    case Queue(command, commits) => QueuedWrites(db, id, fees, command, commits);
    case Deliver(_, _) =>
    case RequestCancel(target, at) => SingleWrites(db, id, target, CancelPending, CancelTag, "cancel_requested", at,
                                                   false);
    case ApplyCancel(target, status, at) =>
      var state := if status == "cancelled" then Cancelled else Unknown;
      SingleWrites(db, id, target, state, CancelResultTag(status), status, at, state == Cancelled);
    case RequestReplace(target, at) => SingleWrites(db, id, target, ReplacePending, ReplaceTag, "replace_requested",
                                                    at, false);
    case ApplyReplace(target, status, at) =>
      SingleWrites(db, id, target, if status == "replaced" then Replaced
                   else Unknown, ReplaceResultTag(status), status, at, false);
    case Recover(target, state, reason, at) =>
      if target in db.orders && db.orders[target].state == Unknown {
        SingleWrites(db, id, target, state, RecoveryTag(db.orders[target].sequence + 1), reason, at, false);
      }
  }

  lemma {:induction false} RunWrites(fees: FeeTaxPolicy, calls: seq<Call>, id: OrderId)
    requires fees.Valid() && forall call :: call in calls ==> PaperCall(call) && BrokerCall(call, id)
    ensures BrokerEvents(Run(fees, calls), id)
  {
    hide Inv, BrokerEvents, After, PaperCall, BrokerCall;
    if calls == [] {
      NothingWritten(id);
    } else {
      var earlier, last := calls[..|calls| - 1], calls[|calls| - 1];
      RunWrites(fees, earlier, id);
      RunIsSafe(fees, earlier);
      CallParts(last, id);
      if last.Deliver? {
        AdvanceWrites(Run(fees, earlier), id, last.answer, last.commits);
        DeliverIsAdvance(Run(fees, earlier), fees, last);
      } else {
        CallWrites(Run(fees, earlier), id, fees, last);
      }
    }
  }

  lemma CallParts(call: Call, id: OrderId)
    requires PaperCall(call) && BrokerCall(call, id)
    ensures PaperStatus(call) && (call.Deliver? ==> NonNegativeFills(call.answer) && PositiveFills(call.answer(id)))
  {
  }

  lemma NothingWritten(id: OrderId)
    ensures BrokerEvents(EMPTY_DB, id)
  {
  }

  // ---- Counting the events of one journal ----

  function Occurs(journal: seq<Event>, b: Business): nat {
    if journal == [] then 0
    else Occurs(journal[..|journal| - 1], b) + if journal[|journal| - 1].business == b then 1 else 0
  }

  function Recoveries(journal: seq<Event>): nat {
    if journal == [] then 0
    else Recoveries(journal[..|journal| - 1]) + if journal[|journal| - 1].business.RecoveryTag? then 1 else 0
  }

  function FillCount(journal: seq<Event>): nat {
    if journal == [] then 0
    else FillCount(journal[..|journal| - 1]) + if journal[|journal| - 1].business.FillTag? then 1 else 0
  }

  /** Occurrences of the identities that do not end an order. */
  function Passing(journal: seq<Event>): nat {
    Occurs(journal, CreatedTag) + Occurs(journal, NamedTag(RiskPending)) + Occurs(journal, NamedTag(RiskApproved))
    + Occurs(journal, SubmitTag) + Occurs(journal, NamedTag(Submitted)) + Occurs(journal, NamedTag(Acknowledged))
    + Occurs(journal, CancelTag) + Occurs(journal, ReplaceTag) + Occurs(journal, ReplaceResultTag("replaced"))
    + Occurs(journal, CancelResultTag("unknown_order")) + Occurs(journal, ReplaceResultTag("unknown_order"))
  }

  /** Occurrences of the identities that end an order without a fill. */
  function Ending(journal: seq<Event>): nat {
    Occurs(journal, NamedTag(RiskRejected)) + Occurs(journal, NamedTag(Rejected)) + Occurs(journal,
        CancelResultTag("cancelled"))
  }

  predicate Classified(journal: seq<Event>) {
    forall i :: 0 <= i < |journal| ==> Shaped(journal[i]) && BrokerEvent(journal[i])
  }

  lemma ClassOf(e: Event)
    requires Shaped(e) && BrokerEvent(e)
    ensures e.business.RecoveryTag? || e.business.FillTag?
            || e.business in {CreatedTag, NamedTag(RiskPending), NamedTag(RiskApproved), SubmitTag, NamedTag(Submitted),
                              NamedTag(Acknowledged), CancelTag, ReplaceTag, ReplaceResultTag("replaced"),
                              CancelResultTag("unknown_order"), ReplaceResultTag("unknown_order"),
                              NamedTag(RiskRejected), NamedTag(Rejected), CancelResultTag("cancelled")}
  {
  }

  lemma OccursStep(journal: seq<Event>, b: Business)
    requires journal != []
    ensures Occurs(journal, b) == Occurs(journal[..|journal| - 1], b) + if journal[|journal| - 1].business == b then 1
            else 0
  {
  }

  lemma AllOccursStep(journal: seq<Event>)
    requires journal != []
    ensures forall b :: Occurs(journal, b) ==
                        Occurs(journal[..|journal| - 1], b) + if journal[|journal| - 1].business == b then 1 else 0
  {
    forall b
      ensures Occurs(journal, b) == Occurs(journal[..|journal| - 1], b) + if journal[|journal| - 1].business == b
              then 1 else 0
    {
      OccursStep(journal, b);
    }
  }

  /** Every event is a passing one, an ending one, a recovery or a fill. */
  lemma {:induction false} EveryEventCounts(journal: seq<Event>)
    requires Classified(journal)
    ensures |journal| == Passing(journal) + Ending(journal) + Recoveries(journal) + FillCount(journal)
  {
    hide Shaped, BrokerEvent, Occurs;
    if journal != [] {
      var n := |journal| - 1;
      EveryEventCounts(journal[..n]);
      ClassOf(journal[n]);
      AllOccursStep(journal);
    } else {
      NothingOccurs();
    }
  }

  lemma NothingOccurs()
    ensures forall b :: Occurs([], b) == 0
  {
  }

  lemma {:induction false} OccursOnce(journal: seq<Event>, b: Business)
    requires forall i, k :: 0 <= i < k < |journal| ==> journal[i].business != journal[k].business
    ensures Occurs(journal, b) <= 1
    ensures Occurs(journal, b) == 1 ==> exists i :: 0 <= i < |journal| && journal[i].business == b
  {
    if journal != [] {
      var n := |journal| - 1;
      OccursOnce(journal[..n], b);
    }
  }

  lemma PassingIsBounded(journal: seq<Event>)
    requires forall i, k :: 0 <= i < k < |journal| ==> journal[i].business != journal[k].business
    ensures Passing(journal) <= 11
    ensures Occurs(journal, CancelResultTag("unknown_order")) + Occurs(journal, ReplaceResultTag("unknown_order")) <= 2
  {
    hide Occurs;
    OccursOnce(journal, CreatedTag);
    OccursOnce(journal, NamedTag(RiskPending));
    OccursOnce(journal, NamedTag(RiskApproved));
    OccursOnce(journal, SubmitTag);
    OccursOnce(journal, NamedTag(Submitted));
    OccursOnce(journal, NamedTag(Acknowledged));
    OccursOnce(journal, CancelTag);
    OccursOnce(journal, ReplaceTag);
    OccursOnce(journal, ReplaceResultTag("replaced"));
    OccursOnce(journal, CancelResultTag("unknown_order"));
    OccursOnce(journal, ReplaceResultTag("unknown_order"));
  }

  /** An order is recovered at most once for each time it became unknown. */
  lemma {:induction false} RecoveriesArePaidFor(journal: seq<Event>)
    requires |journal| >= 1 && journal[0].business == CreatedTag && Classified(journal) && Chained(journal)
    ensures Recoveries(journal) + (if journal[|journal| - 1].state == Unknown then 1 else 0)
         <= Occurs(journal, CancelResultTag("unknown_order")) + Occurs(journal, ReplaceResultTag("unknown_order"))
  {
    var n := |journal| - 1;
    var e := journal[n];
    assert Shaped(e) && BrokerEvent(e);
    if n == 0 {
      assert journal[..0] == [];
    } else {
      var before := journal[..n];
      RecoveriesArePaidFor(before);
      assert e.previous == Some(journal[n - 1].state) && e.state in AllowedTransitions(journal[n - 1].state);
      UnknownIsEntered(e, journal[n - 1].state);
    }
  }

  /** Only an unknown cancel or replace result makes an order unknown, and recovery leaves that state. */
  lemma UnknownIsEntered(e: Event, previous: OrderState)
    requires Shaped(e) && BrokerEvent(e) && e.previous == Some(previous) && e.state in AllowedTransitions(previous)
    ensures e.state == Unknown ==>
              previous != Unknown && e.business in {CancelResultTag("unknown_order"), ReplaceResultTag("unknown_order")}
    ensures e.business.RecoveryTag? ==> previous == Unknown && e.state != Unknown
  {
  }

  /** Endings are final, so at most one of them occurs, and then the order is not filled. */
  lemma {:induction false} EndingIsLast(journal: seq<Event>)
    requires Classified(journal) && Chained(journal)
    ensures Ending(journal) <= 1
    ensures Ending(journal) == 1 ==> IsTerminal(journal[|journal| - 1].state) && journal[|journal| - 1].state != Filled
  {
    if journal != [] {
      var n := |journal| - 1;
      var e := journal[n];
      assert Shaped(e) && BrokerEvent(e);
      var before := journal[..n];
      EndingIsLast(before);
      if n > 0 {
        assert e.state in AllowedTransitions(journal[n - 1].state);
        TransitionFacts(journal[n - 1].state, e.state);
      }
      EndingTag(e);
    }
  }

  lemma EndingTag(e: Event)
    requires Shaped(e)
    ensures e.business in {NamedTag(RiskRejected), NamedTag(Rejected), CancelResultTag("cancelled")} ==>
              IsTerminal(e.state) && e.state != Filled
  {
  }

  /** Each fill takes at least one unit. */
  lemma {:induction false} FillsArePaidFor(id: OrderId, journal: seq<Event>)
    requires Classified(journal)
    ensures FillCount(journal) <= FilledSum(FillsIn(id, journal))
  {
    if journal != [] {
      var n := |journal| - 1;
      FillsArePaidFor(id, journal[..n]);
      assert Shaped(journal[n]) && BrokerEvent(journal[n]);
      var rows := FillsIn(id, journal);
      if journal[n].business.FillTag? {
        assert rows[..|rows| - 1] == FillsIn(id, journal[..n]);
      }
    }
  }

  /** A journal of such events is as long as its order is large, up to a constant. */
  lemma BrokerJournalIsBounded(db: Db, id: OrderId)
    requires Inv(db) && BrokerEvents(db, id) && id in db.orders
    ensures |JournalOf(db, id)| <= 13 + id.quantity
    ensures |JournalOf(db, id)| <= 14 + FillCount(JournalOf(db, id))
  {
    hide Inv, ReservationOk, WasSubmitted, FoldOrder, FillsIn, RowsOf, FilledSum, Passing, Ending, BrokerEvent, Shaped,
         AllowedTransitions, IsTerminal, FillCount;
    RowParts(db, id);
    var journal := db.journal[id];
    assert BrokerJournal(JournalOf(db, id));
    EveryEventCounts(journal);
    PassingIsBounded(journal);
    RecoveriesArePaidFor(journal);
    EndingIsLast(journal);
    FillsArePaidFor(id, journal);
  }

  /**
   Over every run, with the paper broker's cancel and replace answers and positive fills of the order, its journal has
   at most 13 events plus its quantity.
   */
  lemma JournalIsBounded(fees: FeeTaxPolicy, calls: seq<Call>, id: OrderId)
    requires PaperRun(fees, calls) && (forall call :: call in calls ==> BrokerCall(call, id))
    requires id in Run(fees, calls).orders
    ensures |JournalOf(Run(fees, calls), id)| <= 13 + id.quantity
  {
    hide Inv, Run, BrokerEvents, BrokerCall, PaperCall;
    RunIsSafe(fees, calls);
    RunWrites(fees, calls, id);
    BrokerJournalIsBounded(Run(fees, calls), id);
  }
}
