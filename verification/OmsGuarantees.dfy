/** What the invariant means for a reader of the database: journal, terminal states, reservations, reconciliation. */
module OmsGuarantees {
  import opened FeeTax
  import opened OmsInvariant
  import opened OmsModel
  import opened OmsReachable
  import opened OmsRuns
  import opened Wrappers

  ghost predicate PaperRun(fees: FeeTaxPolicy, calls: seq<Call>) {
    fees.Valid() && forall call :: call in calls ==> PaperCall(call)
  }

  // ---- The order table is the fold of the journal ----

  /**
   In every reachable database an order row is exactly what its journal rebuilds: sequences count from one,
   the version equals the last sequence, consecutive states are allowed transitions, business identities
   do not repeat, and the fill rows are the fill events.
   */
  lemma JournalDeterminesOrder(fees: FeeTaxPolicy, calls: seq<Call>, id: OrderId)
    requires PaperRun(fees, calls) && id in Run(fees, calls).orders
    ensures var db := Run(fees, calls);
            var o, journal := db.orders[id], JournalOf(db, id);
            && |journal| >= 1 && o == FoldOrder(id, journal)
            && o.version == o.sequence == |journal|
            && (forall i :: 0 <= i < |journal| ==> journal[i].sequence == i + 1)
            && (forall i :: 1 <= i < |journal| ==> journal[i].state in AllowedTransitions(journal[i - 1].state))
            && (forall i, k :: 0 <= i < k < |journal| ==> journal[i].business != journal[k].business)
            && RowsOf(db.fills, id) == FillsIn(id, journal)
  {
    hide Inv, Run, ReservationOk, WasSubmitted, FoldOrder, FillsIn, RowsOf, Shaped, AllowedTransitions, FilledSum;
    RunIsSafe(fees, calls);
    RowParts(Run(fees, calls), id);
  }

  /** Filled quantity is the sum of the order's fill rows, and an order is Filled exactly when nothing remains. */
  lemma FilledIsTheSumOfFills(fees: FeeTaxPolicy, calls: seq<Call>, id: OrderId)
    requires PaperRun(fees, calls) && id in Run(fees, calls).orders
    ensures var db := Run(fees, calls);
            && 0 <= db.orders[id].filled <= id.quantity
            && db.orders[id].filled == FilledSum(RowsOf(db.fills, id))
            && (db.orders[id].state == Filled <==> db.orders[id].filled == id.quantity)
  {
    hide Inv, Run, ReservationOk, WasSubmitted, FoldOrder, FillsIn, RowsOf, GoodJournal, FilledSum;
    RunIsSafe(fees, calls);
    RowParts(Run(fees, calls), id);
  }

  // ---- Append-only, and terminal orders never change ----

  /** Every journal and the fills table only grow, and an order in a terminal state is left alone. */
  ghost predicate Extends(db: Db, after: Db) {
    && db.fills <= after.fills
    && forall id :: id in db.orders ==>
         && id in after.orders
         && JournalOf(db, id) <= JournalOf(after, id)
         && (IsTerminal(db.orders[id].state) ==>
               after.orders[id] == db.orders[id] && JournalOf(after, id) == JournalOf(db, id))
  }

  lemma ExtendsTransitive(a: Db, b: Db, c: Db)
    requires Extends(a, b) && Extends(b, c)
    ensures Extends(a, c)
  {
    hide JournalOf;
    forall id | id in a.orders
      ensures id in c.orders && JournalOf(a, id) <= JournalOf(c, id)
      ensures IsTerminal(a.orders[id].state) ==> c.orders[id] == a.orders[id] && JournalOf(c, id) == JournalOf(a, id)
    {
      assert id in b.orders && JournalOf(a, id) <= JournalOf(b, id) <= JournalOf(c, id);
    }
  }

  lemma AcceptedIsNotTerminal(o: Order, e: Event, version: int)
    requires CheckEvent(o, e, version).None?
    ensures !IsTerminal(o.state)
  {
  }

  lemma TransitionExtends(db: Db, id: OrderId, e: Event, version: int, submission: Option<Submission>, release: bool)
    requires Transition(db, id, e, version, submission, release).Ok?
    ensures Extends(db, Transition(db, id, e, version, submission, release).value.0)
  {
    hide IsTerminal, CheckEvent, HasIdentity, EventConflicts;
    if !HasIdentity(JournalOf(db, id), e) {
      AcceptedIsNotTerminal(db.orders[id], e, version);
    }
  }

  lemma TransitionFillExtends(db: Db, id: OrderId, e: Event, version: int, fill: PaperFill)
    requires TransitionFill(db, id, e, version, fill).Ok?
    ensures Extends(db, TransitionFill(db, id, e, version, fill).value.0)
  {
    hide IsTerminal, CheckEvent, HasIdentity, EventConflicts, FindFill, HasFillId;
    if FindFill(db.fills, fill.identity).None? {
      AcceptedIsNotTerminal(db.orders[id], e, version);
    }
  }

  lemma QueuedExtends(db: Db, fees: FeeTaxPolicy, c: Command, commits: nat)
    requires Inv(db)
    ensures Extends(db, Queued(db, fees, c, commits).db)
  {
    hide Extends, Transition, NamedEvent, Decided, Inv;
    ExtendsItself(db);
    if ByKey(db, c.key).None? && c.quantity >= 1 && commits > 0 && Create(db, c.Id(), c.createdAt).Ok? {
      CreateKeeps(db, c.Id(), c.createdAt);
      var (created, o) := Create(db, c.Id(), c.createdAt).value;
      CreatedExtends(db, c.Id(), c.createdAt, created);
      if commits > 1 && Named(created, o, RiskPending, "risk_evaluation_started", false).Ok? {
        var e := NamedEvent(o, RiskPending, "risk_evaluation_started");
        TransitionExtends(created, o.id, e, o.version, None, false);
        var (pending, o') := Named(created, o, RiskPending, "risk_evaluation_started", false).value;
        ExtendsTransitive(db, created, pending);
        DecidedExtends(pending, o', fees, c, commits - 2);
        ExtendsTransitive(db, pending, Decided(pending, o', fees, c, commits - 2).db);
      }
    }
  }

  lemma ExtendsItself(db: Db)
    ensures Extends(db, db)
  {
  }

  lemma CreatedExtends(db: Db, id: OrderId, at: int, created: Db)
    requires id !in db.orders
    requires created == db.(orders := db.orders[id := NewOrder(id, at)],
                            journal := db.journal[id := [CreationEvent(at)]])
    ensures Extends(db, created)
  {
  }

  lemma DecidedExtends(db: Db, o: Order, fees: FeeTaxPolicy, c: Command, commits: nat)
    ensures Extends(db, Decided(db, o, fees, c, commits).db)
  {
    hide Extends, Transition, NamedEvent;
    ExtendsItself(db);
    if Required(fees, c).Ok? && commits > 0 {
      var required := Required(fees, c).value;
      var reason := RiskReason(db, c, required);
      if reason.Some? {
        if Named(db, o, RiskRejected, reason.value, false).Ok? {
          TransitionExtends(db, o.id, NamedEvent(o, RiskRejected, reason.value), o.version, None, false);
        }
      } else if Named(db, o, RiskApproved, "paper_risk_approved", false).Ok? {
        TransitionExtends(db, o.id, NamedEvent(o, RiskApproved, "paper_risk_approved"), o.version, None, false);
        var (approved, o') := Named(db, o, RiskApproved, "paper_risk_approved", false).value;
        if commits > 1 && Submit(approved, o', c, required).Ok? {
          TransitionExtends(approved, o'.id, NextEvent(o', SubmitPending, SubmitTag, NoPayload, "paper_submit_queued",
                                                       o'.updatedAt),
                            o'.version, Some(Submission(if c.side == Buy then required else 0.0, c.quantity)), false);
          ExtendsTransitive(db, approved, Submit(approved, o', c, required).value.0);
        }
      }
    }
  }

  lemma NextCommitExtends(db: Db, answer: OrderId -> BrokerResult)
    requires NextCommit(db, answer).Ok? && NextCommit(db, answer).value.Some?
    ensures Extends(db, NextCommit(db, answer).value.value)
  {
    hide Extends, Transition, TransitionFill, NamedEvent, FillEvent, FirstOpenFill, Delivered;
    var row := FirstPending(db.outbox).value;
    var o, result := db.orders[row.order], answer(row.order);
    DeliveredExtends(db, row, result.acknowledgedAt);
    if o.state == SubmitPending {
      TransitionExtends(db, o.id, NamedEvent(o, Submitted, "paper_request_delivered"), o.version, None, false);
    } else if result.rejected && o.state == Submitted {
      TransitionExtends(db, o.id, NamedEvent(o, Rejected, result.reason), o.version, None, true);
    } else if !result.rejected && o.state == Submitted {
      TransitionExtends(db, o.id, NamedEvent(o, Acknowledged, result.reason), o.version, None, false);
    } else if !result.rejected && FirstOpenFill(db.fills, result.fills).value.Some? {
      var fill := FirstOpenFill(db.fills, result.fills).value.value;
      TransitionFillExtends(db, o.id, FillEvent(o, fill), o.version, fill);
    }
  }

  lemma DeliveredExtends(db: Db, row: OutboxRow, at: int)
    ensures Extends(db, Delivered(db, row, at))
  {
  }

  lemma {:induction false} AdvanceExtends(db: Db, answer: OrderId -> BrokerResult, commits: nat)
    ensures Extends(db, Advance(db, answer, commits))
    decreases commits
  {
    hide Extends, NextCommit;
    ExtendsItself(db);
    if commits > 0 && NextCommit(db, answer).Ok? && NextCommit(db, answer).value.Some? {
      NextCommitExtends(db, answer);
      var after := NextCommit(db, answer).value.value;
      AdvanceExtends(after, answer, commits - 1);
      ExtendsTransitive(db, after, Advance(after, answer, commits - 1));
    }
  }

  lemma SingleExtends(db: Db, id: OrderId, state: OrderState, business: Business, reason: string, at: int,
                      release: bool)
    ensures Extends(db, Single(db, id, state, business, reason, at, release).db)
  {
    hide Extends, Transition;
    ExtendsItself(db);
    if id in db.orders {
      var o := db.orders[id];
      var e := NextEvent(o, state, business, NoPayload, reason, at);
      if Transition(db, id, e, o.version, None, release).Ok? {
        TransitionExtends(db, id, e, o.version, None, release);
      }
    }
  }

  /** One call, complete or cut short by a crash, only appends and never touches a terminal order. */
  lemma AfterExtends(db: Db, fees: FeeTaxPolicy, call: Call)
    requires Inv(db)
    ensures Extends(db, After(db, fees, call))
  {
    hide Extends, Queued, Advance, Single, Inv;
    ExtendsItself(db);
    match call
    case Queue(command, commits) => QueuedExtends(db, fees, command, commits);
    case Deliver(answer, commits) => AdvanceExtends(db, answer, commits);
    case RequestCancel(id, at) => SingleExtends(db, id, CancelPending, CancelTag, "cancel_requested", at, false);
    case ApplyCancel(id, status, at) =>
      var state := if status == "cancelled" then Cancelled else Unknown;
      SingleExtends(db, id, state, CancelResultTag(status), status, at, state == Cancelled);
    case RequestReplace(id, at) => SingleExtends(db, id, ReplacePending, ReplaceTag, "replace_requested", at, false);
    case ApplyReplace(id, status, at) =>
      SingleExtends(db, id, if status == "replaced" then Replaced
                    else Unknown, ReplaceResultTag(status), status, at, false);
    case Recover(id, state, reason, at) =>
      if id in db.orders && db.orders[id].state == Unknown {
        SingleExtends(db, id, state, RecoveryTag(db.orders[id].sequence + 1), reason, at, false);
      }
  }

  /** Whatever happens later in a run, what an earlier part of it wrote stays written. */
  lemma {:induction false} RunExtends(fees: FeeTaxPolicy, calls: seq<Call>, later: seq<Call>)
    requires PaperRun(fees, calls + later)
    ensures Extends(Run(fees, calls), Run(fees, calls + later))
    decreases |later|
  {
    hide Extends, After, Inv;
    if later == [] {
      assert calls + later == calls;
      ExtendsItself(Run(fees, calls));
    } else {
      var most, last := later[..|later| - 1], later[|later| - 1];
      assert (calls + later)[..|calls + later| - 1] == calls + most;
      RunExtends(fees, calls, most);
      RunIsSafe(fees, calls + most);
      AfterExtends(Run(fees, calls + most), fees, last);
      ExtendsTransitive(Run(fees, calls), Run(fees, calls + most), Run(fees, calls + later));
    }
  }

  // ---- Reservations ----

  /**
   A submitted order holds exactly its unfilled quantity while its reservation is active, and the reservation
   stays active until a terminal state, except that a manual recovery into a terminal state does not release it.
   */
  lemma ReservationFollowsOrder(fees: FeeTaxPolicy, calls: seq<Call>, id: OrderId)
    requires PaperRun(fees, calls) && id in Run(fees, calls).orders
    ensures var db := Run(fees, calls);
            && (id in db.reservations <==> WasSubmitted(db.orders[id].state))
            && (id in db.reservations ==>
                  var r := db.reservations[id];
                  && (r.active <==> !IsTerminal(db.orders[id].state) || EndsInRecovery(JournalOf(db, id)))
                  && r.quantity == (if r.active then id.quantity - db.orders[id].filled else 0)
                  && (!r.active ==> r.cash == 0.0))
  {
    hide Inv, Run, OrderOk, RowsOf, WasSubmitted, CashOk;
    RunIsSafe(fees, calls);
    RowParts(Run(fees, calls), id);
  }

  /**
   An active buy reservation holds the proportional part of the granted cash if and only if the order has had
   at most one fill; after more fills it holds strictly less.
   */
  lemma CashIsProportionalUpToOneFill(fees: FeeTaxPolicy, calls: seq<Call>, id: OrderId)
    requires PaperRun(fees, calls) && id in Run(fees, calls).reservations && id.side == Buy
    requires Run(fees, calls).reservations[id].active
    ensures var db := Run(fees, calls);
            var r, fills := db.reservations[id], |RowsOf(db.fills, id)|;
            && id in db.orders
            && var proportional := r.granted * ((id.quantity - db.orders[id].filled) as real);
               && r.cash * (id.quantity as real) <= proportional
               && (r.cash * (id.quantity as real) == proportional <==> fills <= 1)
  {
    hide Inv, Run, RowsOf, WasSubmitted, GoodJournal, FoldOrder, FillsIn, FilledSum;
    RunIsSafe(fees, calls);
    ReservedOrders(Run(fees, calls));
    RowParts(Run(fees, calls), id);
  }

  // ---- Reconciliation ----

  datatype Mismatch =
    | UnknownBrokerOrder(client: string)
    | MissingBrokerOrder(id: OrderId)
    | LocalSequenceMismatch(id: OrderId)

  /** `reconcile_oms` without the optional snapshot: broker requests against local orders and journals. */
  function Reconcile(db: Db, brokerRequests: set<string>): set<Mismatch> {
    (set client | client in brokerRequests && (forall id :: id in db.orders ==> id.client != client) ::
       UnknownBrokerOrder(client))
    + (set id | id in db.orders && !IsTerminal(db.orders[id].state)
                && db.orders[id].state !in {Created, RiskPending, RiskApproved, SubmitPending}
                && id.client !in brokerRequests :: MissingBrokerOrder(id))
    + (set id | id in db.orders && |JournalOf(db, id)| > 0
                && JournalOf(db, id)[|JournalOf(db, id)| - 1].sequence != db.orders[id].sequence ::
                     LocalSequenceMismatch(id))
  }

  /** Reconciliation never finds an order whose sequence differs from its journal's. */
  lemma NoLocalSequenceMismatch(fees: FeeTaxPolicy, calls: seq<Call>, brokerRequests: set<string>, id: OrderId)
    requires PaperRun(fees, calls)
    ensures LocalSequenceMismatch(id) !in Reconcile(Run(fees, calls), brokerRequests)
  {
    hide Run, FoldOrder, FillsIn, RowsOf;
    if id in Run(fees, calls).orders {
      JournalDeterminesOrder(fees, calls, id);
    }
  }
}
