/**
  * Repeating a `queue` command whose first call died: exactly when the repetition ends where an uninterrupted call
  * does.
  */
module QueueRetry {
  import opened FeeTax
  import opened OmsInvariant
  import opened OmsModel
  import opened OmsRuns

  /** The command creates an order: its key and client are new. */
  ghost predicate Creates(db: Db, c: Command) {
    c.quantity >= 1 && forall id :: id in db.orders ==> id.key != c.key && id.client != c.client
  }

  /** How many commits an uninterrupted call of a creating command makes. */
  ghost function CommitsNeeded(db: Db, fees: FeeTaxPolicy, c: Command): nat {
    match Required(fees, c)
    case Err(_) => 2
    case Ok(required) => if RiskReason(db, c, required).Some? then 3 else 4
  }

  /** The state of the order after so many commits. */
  ghost function StateAfter(db: Db, fees: FeeTaxPolicy, c: Command, commits: nat): OrderState
    requires commits >= 1
  {
    if commits == 1 then Created
    else if commits == 2 || CommitsNeeded(db, fees, c) == 2 then RiskPending
    else if CommitsNeeded(db, fees, c) == 3 then RiskRejected
    else if commits == 3 then RiskApproved else SubmitPending
  }

  /** The reservation an approved command makes. */
  function Grant(c: Command, required: real): Reservation {
    var cash := if c.side == Buy then required else 0.0;
    Reservation(cash, c.quantity, c.quantity, true, cash)
  }

  /** The reservations after so many commits: only the last of four commits makes one. */
  ghost predicate ReservesAfter(db: Db, after: Db, fees: FeeTaxPolicy, c: Command, commits: nat) {
    after.reservations ==
    if commits >= 4 && CommitsNeeded(db, fees, c) == 4
    then db.reservations[c.Id() := Grant(c, Required(fees, c).value)] else db.reservations
  }

  /** The row and journal of an order on its way through `queue`, in a database where nothing else of it exists. */
  ghost predicate OnItsWay(db: Db, id: OrderId, o: Order, journal: seq<Event>) {
    && id in db.orders && db.orders[id] == o && o.id == id && JournalOf(db, id) == journal && id in db.journal
    && o.version == o.sequence == |journal| && id !in db.reservations && !HasOutboxKey(db.outbox, id.key)
    && forall i :: 0 <= i < |journal| ==> journal[i].sequence == i + 1
  }

  /** A state named for the first time is committed. */
  lemma NextStage(db: Db, id: OrderId, o: Order, journal: seq<Event>, state: OrderState, reason: string)
    requires OnItsWay(db, id, o, journal) && state in AllowedTransitions(o.state)
    requires forall i :: 0 <= i < |journal| ==> journal[i].business != NamedTag(state)
    ensures Named(db, o, state, reason, false).Ok?
    ensures var (after, o') := Named(db, o, state, reason, false).value;
      && OnItsWay(after, id, o', journal + [NamedEvent(o, state, reason)]) && o'.state == state
      && after.reservations == db.reservations && after.outbox == db.outbox
  {
    var e := NamedEvent(o, state, reason);
    assert !EventConflicts(journal, e) && !HasIdentity(journal, e);
  }

  lemma LastStage(db: Db, id: OrderId, o: Order, journal: seq<Event>, c: Command, required: real)
    requires OnItsWay(db, id, o, journal) && o.state == RiskApproved
    requires forall i :: 0 <= i < |journal| ==> journal[i].business != SubmitTag
    ensures Submit(db, o, c, required).Ok?
    ensures var after := Submit(db, o, c, required).value.0;
            && id in after.orders && after.orders[id].state == SubmitPending
            && (c.quantity == id.quantity ==> after.reservations == db.reservations[id := Grant(c, required)])
  {
    var e := NextEvent(o, SubmitPending, SubmitTag, NoPayload, "paper_submit_queued", o.updatedAt);
    assert !EventConflicts(journal, e) && !HasIdentity(journal, e);
  }

  lemma NoSuchKey(db: Db, c: Command)
    requires Inv(db) && Creates(db, c)
    ensures ByKey(db, c.key).None? && Create(db, c.Id(), c.createdAt).Ok?
    ensures OnItsWay(Create(db, c.Id(), c.createdAt).value.0, c.Id(), NewOrder(c.Id(), c.createdAt),
                     [CreationEvent(c.createdAt)])
    ensures Create(db, c.Id(), c.createdAt).value.0 ==
            db.(orders := db.orders[c.Id() := NewOrder(c.Id(), c.createdAt)],
                journal := db.journal[c.Id() := [CreationEvent(c.createdAt)]])
    ensures Create(db, c.Id(), c.createdAt).value.1 == NewOrder(c.Id(), c.createdAt)
  {
    hide RowOk;
  }

  lemma SameReason(db: Db, after: Db, c: Command, required: real)
    requires after.reservations == db.reservations
    ensures RiskReason(after, c, required) == RiskReason(db, c, required)
  {
  }

  /** The stages of the risk decision. */
  lemma DecisionStages(db: Db, pending: Db, fees: FeeTaxPolicy, c: Command, o: Order, journal: seq<Event>, k: nat)
    requires OnItsWay(pending, c.Id(), o, journal) && o.state == RiskPending && pending.reservations == db.reservations
    requires forall i :: 0 <= i < |journal| ==> journal[i].business in {CreatedTag, NamedTag(RiskPending)}
    ensures var after := Decided(pending, o, fees, c, k).db;
            && c.Id() in after.orders && after.orders[c.Id()].state == StateAfter(db, fees, c, k + 2)
            && ReservesAfter(db, after, fees, c, k + 2)
    ensures k >= 2 ==> Decided(pending, o, fees, c, k) == Decided(pending, o, fees, c, 2)
    ensures k == 1 && CommitsNeeded(db, fees, c) <= 3 ==>
              Decided(pending, o, fees, c, k) == Decided(pending, o, fees, c, 2)
    ensures k == 0 && CommitsNeeded(db, fees, c) == 2 ==>
              Decided(pending, o, fees, c, k) == Decided(pending, o, fees, c, 2)
  {
    hide Named, Submit, RiskReason, Required, NamedEvent;
    if Required(fees, c).Ok? && k > 0 {
      var required := Required(fees, c).value;
      SameReason(db, pending, c, required);
      if RiskReason(db, c, required).Some? {
        NextStage(pending, c.Id(), o, journal, RiskRejected, RiskReason(db, c, required).value);
      } else {
        NextStage(pending, c.Id(), o, journal, RiskApproved, "paper_risk_approved");
        if k > 1 {
          var (approved, o') := Named(pending, o, RiskApproved, "paper_risk_approved", false).value;
          ApprovedIsNamed(o, "paper_risk_approved");
          LastStage(approved, c.Id(), o', journal + [NamedEvent(o, RiskApproved, "paper_risk_approved")], c, required);
        }
      }
    } else if Required(fees, c).Ok? {
      SameReason(db, pending, c, Required(fees, c).value);
    }
  }

  lemma ApprovedIsNamed(o: Order, reason: string)
    ensures NamedEvent(o, RiskApproved, reason).business == NamedTag(RiskApproved)
  {
  }

  lemma PendingIsNamed(o: Order, reason: string)
    ensures NamedEvent(o, RiskPending, reason).business == NamedTag(RiskPending)
  {
  }

  /** What a creating command leaves after `k` commits. */
  lemma QueueStages(db: Db, fees: FeeTaxPolicy, c: Command, k: nat)
    requires Inv(db) && Creates(db, c) && k >= 1
    ensures var after := Queued(db, fees, c, k).db;
            && c.Id() in after.orders && after.orders[c.Id()].state == StateAfter(db, fees, c, k)
            && ReservesAfter(db, after, fees, c, k)
    ensures k >= CommitsNeeded(db, fees, c) ==> Queued(db, fees, c, k).db == Queued(db, fees, c, 4).db
  {
    hide Inv, Named, Decided, Create, NamedEvent, StateAfter, CommitsNeeded;
    var id, o := c.Id(), NewOrder(c.Id(), c.createdAt);
    NoSuchKey(db, c);
    Needs(db, fees, c);
    if k > 1 {
      var created := Create(db, id, c.createdAt).value.0;
      var journal := [CreationEvent(c.createdAt)];
      NextStage(created, id, o, journal, RiskPending, "risk_evaluation_started");
      PendingIsNamed(o, "risk_evaluation_started");
      var (pending, o') := Named(created, o, RiskPending, "risk_evaluation_started", false).value;
      var more := journal + [NamedEvent(o, RiskPending, "risk_evaluation_started")];
      DecisionStages(db, pending, fees, c, o', more, k - 2);
    }
  }

  lemma Needs(db: Db, fees: FeeTaxPolicy, c: Command)
    ensures 2 <= CommitsNeeded(db, fees, c) <= 4 && StateAfter(db, fees, c, 1) == Created
  {
  }

  /** The stages before the last one differ from it. */
  lemma StatesDiffer(db: Db, fees: FeeTaxPolicy, c: Command, k: nat)
    requires k >= 1
    ensures StateAfter(db, fees, c, k) == StateAfter(db, fees, c, 4) <==> k >= CommitsNeeded(db, fees, c)
  {
  }

  lemma KeyIsFound(db: Db, id: OrderId)
    requires id in db.orders
    ensures ByKey(db, id.key).Some?
  {
  }

  /**
    * A command repeated after its first call died after `k` commits ends in the database of one uninterrupted call if
    * and only if the command creates nothing, nothing was committed, or everything was: two commits when the costs
    * cannot be computed, three when risk rejects, four otherwise. In between, the order stays parked where it is.
    */
  lemma RetryFinishes(db: Db, fees: FeeTaxPolicy, c: Command, k: nat)
    requires Inv(db) && fees.Valid()
    ensures Queued(Queued(db, fees, c, k).db, fees, c, 4).db == Queued(db, fees, c, 4).db <==>
              !Creates(db, c) || k == 0 || k >= CommitsNeeded(db, fees, c)
    ensures Creates(db, c) && k >= 1 ==> Queued(Queued(db, fees, c, k).db, fees, c, 4).db == Queued(db, fees, c, k).db
  {
    hide Inv, StateAfter, CommitsNeeded, Decided, Create, Named;
    if !Creates(db, c) {
      CreatesNothing(db, fees, c, k);
      CreatesNothing(db, fees, c, 4);
    } else if k == 0 {
      NoSuchKey(db, c);
    } else {
      QueueStages(db, fees, c, k);
      QueueStages(db, fees, c, 4);
      StatesDiffer(db, fees, c, k);
      KeyIsFound(Queued(db, fees, c, k).db, c.Id());
    }
  }

  lemma CreatesNothing(db: Db, fees: FeeTaxPolicy, c: Command, k: nat)
    requires Inv(db) && !Creates(db, c)
    ensures Queued(db, fees, c, k).db == db
  {
    hide Inv, Decided, Named;
  }
}
