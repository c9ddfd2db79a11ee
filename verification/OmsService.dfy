/** The paper order service: commands on the repository and the outbox worker. */
module OmsService {
  import opened FeeTax
  import opened OmsInvariant
  import opened OmsModel
  import opened OmsOutbox
  import opened OmsReachable
  import opened OmsRecovery
  import opened OmsRepository
  import opened OmsRuns
  import opened OmsSettling
  import opened PaperBroker
  import opened PaperDelivery
  import opened Wrappers

  /** What a single-transaction command may do: as specified, or nothing because the process died first. */
  ghost predicate RanOrDied(before: Db, spec: Ran, after: Db, r: Result<Order, OmsError>) {
    (after == spec.db && r == spec.outcome) || (after == before && r == Err(Crashed))
  }

  lemma FillEventIs(o: Order, fill: PaperFill)
    ensures FillEvent(o, fill) ==
            Event(o.sequence + 1, Some(o.state),
                  if o.filled + fill.quantity == o.id.quantity then Filled else PartiallyFilled,
                  FillTag(fill.identity), FillPayload(fill.fillId, fill.quantity, fill.price), fill.time, "paper_fill")
  {
  }

  class PaperOmsService {
    const repository: Repository
    const fees: FeeTaxPolicy

    constructor (repository: Repository, fees: FeeTaxPolicy)
      ensures this.repository == repository && this.fees == fees
    {
      this.repository, this.fees := repository, fees;
    }

    /** `_transition`: the event is named after its state and keeps the time of the order row. */
    method TransitionTo(o: Order, state: OrderState, reason: string, release: bool)
      returns (r: Result<Order, OmsError>)
      modifies repository
      ensures Transacted(old(repository.Snapshot()), Named(old(repository.Snapshot()), o, state, reason, release),
                         repository.Snapshot(), r)
    {
      hide OmsModel.Transition;
      var event := Event(o.sequence + 1, Some(o.state), state, NamedTag(state), NoPayload, o.updatedAt, reason);
      r := repository.Transition(o.id, event, o.version, None, release);
    }

    /** `queue`: the whole call, or the part of it before the process dies. */
    method Queue(c: Command) returns (r: Result<Order, OmsError>, ghost commits: nat)
      requires Inv(repository.Snapshot()) && fees.Valid()
      modifies repository
      ensures Ran(repository.Snapshot(), r) == Queued(old(repository.Snapshot()), fees, c, commits)
      ensures r != Err(Crashed) ==> commits >= 4
      ensures Inv(repository.Snapshot())
    {
      hide Inv, Named, OmsModel.ByKey;
      ghost var before := repository.Snapshot();
      commits := 4;
      QueuedInv(before, fees, c);
      var existing := repository.ByIdempotencyKey(c.key);
      if existing.Some? {
        return Ok(existing.value), 4;
      }
      if c.quantity < 1 {
        return Err(InvalidOrder), 4;
      }
      var created := repository.Create(c.Id(), c.createdAt);
      if created.Err? {
        return created, if created == Err(Crashed) then 0 else 4;
      }
      var o := created.value;
      ghost var afterCreate := repository.Snapshot();
      var pending := TransitionTo(o, RiskPending, "risk_evaluation_started", false);
      if pending.Err? {
        return pending, if pending == Err(Crashed) then 1 else 4;
      }
      o := pending.value;
      r, commits := Decide(c, o);
      commits := commits + 2;
    }

    /** The risk decision of `queue`, and the submission of an approved order. */
    method Decide(c: Command, o: Order) returns (r: Result<Order, OmsError>, ghost commits: nat)
      modifies repository
      ensures Ran(repository.Snapshot(), r) == Decided(old(repository.Snapshot()), o, fees, c, commits)
      ensures r != Err(Crashed) ==> commits >= 2
    {
      hide OmsModel.Transition, Named, Required;
      commits := 2;
      var priced := Required(fees, c);
      if priced.Err? {
        return Err(InvalidNotional), 2;
      }
      var required := priced.value;
      var reserved := repository.ReservedCashTotal();
      var reservedSell := repository.ReservedSellTotal(c.instrument);
      if c.side == Buy && required > c.availableCash - reserved {
        r := TransitionTo(o, RiskRejected, "insufficient_cash", false);
        commits := if r == Err(Crashed) then 0 else 2;
        return;
      }
      if c.side == Sell && c.quantity as real > c.availablePosition as real - reservedSell {
        r := TransitionTo(o, RiskRejected, "insufficient_position", false);
        commits := if r == Err(Crashed) then 0 else 2;
        return;
      }
      var approved := TransitionTo(o, RiskApproved, "paper_risk_approved", false);
      if approved.Err? {
        return approved, if approved == Err(Crashed) then 0 else 2;
      }
      var a := approved.value;
      var event := Event(a.sequence + 1, Some(a.state), SubmitPending, SubmitTag, NoPayload, a.updatedAt,
                         "paper_submit_queued");
      var submission := Submission(if c.side == Buy then required else 0.0, c.quantity);
      r := repository.Transition(a.id, event, a.version, Some(submission), false);
      commits := if r == Err(Crashed) then 1 else 2;
    }

    // ---- process_outbox ----

    /** One named transition of a delivery is one effective commit. */
    method DeliverNamed(row: OutboxRow, o: Order, state: OrderState, reason: string, release: bool,
                        ghost start: Db, ghost answer: OrderId -> BrokerResult, ghost k: nat)
      returns (r: Result<Order, OmsError>)
      requires Reached(start, answer, k, repository.Snapshot()) && AtRow(repository.Snapshot(), row, o)
      requires NextCommit(Core(repository.Snapshot()), answer)
            == JustDb(Named(Core(repository.Snapshot()), o, state, reason, release))
      modifies repository
      ensures repository.outbox == old(repository.outbox)
      ensures r.Ok? ==> Reached(start, answer, k + 1, repository.Snapshot())
      ensures r.Ok? ==> AtRow(repository.Snapshot(), row, r.value)
                        && r.value.state == state
      ensures r.Err? ==> repository.Snapshot() == old(repository.Snapshot())
      ensures r.Err? && r.error != Crashed ==> NextCommit(Core(repository.Snapshot()), answer) == Err(r.error)
    {
      hide NextCommit, OmsModel.Transition, Advance, Tidy;
      ghost var before := repository.Snapshot();
      assert o.id == row.order by { TidyIds(before, row.order); }
      TransitionOnCore(before, o.id, NamedEvent(o, state, reason), o.version, release);
      r := TransitionTo(o, state, reason, release);
      if r.Ok? {
        TransitionTouches(before, o.id, NamedEvent(o, state, reason), o.version, release);
        CoreOutbox(before, repository.Snapshot());
        AdvanceOneMore(start, answer, k, Core(repository.Snapshot()));
      }
    }

    /** Records the fills of an acknowledged result, one commit each; recorded ones are skipped. */
    method DeliverFills(row: OutboxRow, o: Order, result: BrokerResult,
                        ghost start: Db, ghost answer: OrderId -> BrokerResult, ghost k0: nat)
      returns (r: Result<(), OmsError>, ghost k: nat)
      requires Reached(start, answer, k0, repository.Snapshot())
      requires AtRow(repository.Snapshot(), row, o) && o.state !in {SubmitPending, Submitted}
      requires result == answer(row.order) && !result.rejected
      modifies repository
      ensures repository.outbox == old(repository.outbox)
      ensures Reached(start, answer, k, repository.Snapshot())
      ensures Tidy(repository.Snapshot())
      ensures r.Ok? ==> AtMark(repository.Snapshot(), row, answer)
      ensures r.Err? && r.error != Crashed ==> NextCommit(Core(repository.Snapshot()), answer) == Err(r.error)
    {
      hide NextCommit, OmsModel.TransitionFill, Advance, FindFill, Recorded, FirstOpenFill, Tidy, FillEvent;
      k := k0;
      var order := o;
      for j := 0 to |result.fills|
        invariant repository.outbox == old(repository.outbox)
        invariant Reached(start, answer, k, repository.Snapshot())
        invariant AtRow(repository.Snapshot(), row, order) && order.state !in {SubmitPending, Submitted}
        invariant forall i :: 0 <= i < j ==> Recorded(repository.fills, result.fills[i])
      {
        var fill := result.fills[j];
        ghost var before := repository.Snapshot();
        FillCommit(before, row, order, answer, j);
        var following := if order.filled + fill.quantity == order.id.quantity then Filled else PartiallyFilled;
        var event := Event(order.sequence + 1, Some(order.state), following, FillTag(fill.identity),
                           FillPayload(fill.fillId, fill.quantity, fill.price), fill.time, "paper_fill");
        assert event == FillEvent(order, fill) by { FillEventIs(order, fill); }
        var recorded := repository.TransitionFill(order.id, event, order.version, fill);
        if recorded.Err? {
          return Err(recorded.error), k;
        }
        order := recorded.value;
        if repository.Snapshot() != before {
          AdvanceOneMore(start, answer, k, Core(repository.Snapshot()));
          k := k + 1;
        }
      }
      FirstOpenIs(repository.fills, result.fills, |result.fills|);
      FillNext(repository.Snapshot(), row, order, answer);
      r := Ok(());
    }

    /** The commits of one row before it is marked delivered. */
    method DeliverOrder(row: OutboxRow, o: Order, result: BrokerResult,
                        ghost start: Db, ghost answer: OrderId -> BrokerResult, ghost k0: nat)
      returns (r: Result<(), OmsError>, ghost k: nat)
      requires Reached(start, answer, k0, repository.Snapshot()) && AtRow(repository.Snapshot(), row, o)
      requires result == answer(row.order)
      modifies repository
      ensures repository.outbox == old(repository.outbox)
      ensures Reached(start, answer, k, repository.Snapshot()) && Tidy(repository.Snapshot())
      ensures r.Ok? ==> AtMark(repository.Snapshot(), row, answer)
      ensures r.Err? && r.error != Crashed ==> NextCommit(Core(repository.Snapshot()), answer) == Err(r.error)
    {
      hide NextCommit, Advance, Tidy, Reached, AtMark, Core, Named;
      k := k0;
      var order := o;
      assert Tidy(repository.Snapshot()) by { AtRowIsTidy(repository.Snapshot(), row, o); }
      if order.state == SubmitPending {
        NextIs(repository.Snapshot(), row, order, answer);
        var moved := DeliverNamed(row, order, Submitted, "paper_request_delivered", false, start, answer, k);
        if moved.Err? {
          return Err(moved.error), k;
        }
        order, k := moved.value, k + 1;
      }
      NextIs(repository.Snapshot(), row, order, answer);
      if result.rejected {
        if order.state == Submitted {
          var moved := DeliverNamed(row, order, Rejected, result.reason, true, start, answer, k);
          if moved.Err? {
            return Err(moved.error), k;
          }
          order, k := moved.value, k + 1;
          NextIs(repository.Snapshot(), row, order, answer);
        }
        return Ok(()), k;
      }
      if order.state == Submitted {
        var moved := DeliverNamed(row, order, Acknowledged, result.reason, false, start, answer, k);
        if moved.Err? {
          return Err(moved.error), k;
        }
        order, k := moved.value, k + 1;
      }
      r, k := DeliverFills(row, order, result, start, answer, k);
    }

    /** One pass of the loop of `process_outbox`. */
    method DeliverRow(broker: DeterministicPaperBroker, row: OutboxRow,
                      ghost start: Db, ghost answer: OrderId -> BrokerResult, ghost k0: nat)
      returns (r: Result<(), OmsError>, ghost k: nat)
      requires Reached(start, answer, k0, repository.Snapshot()) && Tidy(repository.Snapshot())
      requires FirstPending(Core(repository.Snapshot()).outbox) == Some(row.(attempts := 0))
      requires broker.Valid() && broker.Replies()(row.order) == answer(row.order)
      modifies repository, broker
      ensures Reached(start, answer, k, repository.Snapshot()) && Tidy(repository.Snapshot())
      ensures broker.Valid() && broker.Replies()(row.order) == old(broker.Replies()(row.order))
      ensures forall other: OrderId :: other.key != row.order.key ==>
                broker.Replies()(other) == old(broker.Replies()(other))
      ensures r.Ok? ==>
                Stripped(repository.outbox)
                == Stripped(MarkDelivered(old(repository.outbox), row.key, answer(row.order).acknowledgedAt))
      ensures r.Err? && r.error != Crashed ==> NextCommit(Core(repository.Snapshot()), answer) == Err(r.error)
    {
      hide NextCommit, Advance, Tidy, Core, Answers;
      k := k0;
      ghost var entry := repository.Snapshot();
      var result := broker.Submit(row.order);
      CoreOfAttempt(entry, row.key);
      AttemptIsTidy(entry, row.key);
      var counted := repository.IncrementOutboxAttempt(row.key);
      if counted.Err? {
        return Err(counted.error), k;
      }
      var got := repository.Get(row.order);
      if got.Err? {
        MissingOrder(repository.Snapshot(), row, answer);
        return Err(got.error), k;
      }
      var settled, k' := DeliverOrder(row, got.value, result, start, answer, k);
      k := k';
      if settled.Err? {
        return Err(settled.error), k;
      }
      ghost var d1 := repository.Snapshot();
      CoreOfMark(d1, row, result.acknowledgedAt);
      MarkIsTidy(d1, row.key, result.acknowledgedAt);
      var marked := repository.MarkOutboxDelivered(row.key, result.acknowledgedAt);
      if marked.Err? {
        return Err(marked.error), k;
      }
      AdvanceOneMore(start, answer, k, Core(repository.Snapshot()));
      k := k + 1;
      AttemptThenMark(entry.outbox, row.key, result.acknowledgedAt);
      r := Ok(());
    }

    /**
     `process_outbox`: the deliveries made are exactly the next effective commits, and unless the process dies the call
     ends where delivery halts: with the outbox drained, or at a commit whose error it raises. However far it got, what
     is left leads to the same end, and the broker answers the orders of the outbox as before.
     */
    method ProcessOutbox(broker: DeterministicPaperBroker) returns (r: Result<nat, OmsError>, ghost commits: nat)
      requires Tidy(repository.Snapshot()) && broker.Valid()
      modifies repository, broker
      ensures Tidy(repository.Snapshot()) && broker.Valid()
      ensures Tidy(Core(old(repository.Snapshot()))) && Tidy(Core(repository.Snapshot()))
      ensures var answer, start, now := old(broker.Replies()),
                                        Core(old(repository.Snapshot())), Core(repository.Snapshot());
              && now == Advance(start, answer, commits)
              && FullDelivery(now, answer) == FullDelivery(start, answer)
              && (r != Err(Crashed) ==> now == FullDelivery(start, answer))
              && (r.Ok? ==> NextCommit(now, answer) == Ok(None))
              && (r.Err? && r.error != Crashed ==> NextCommit(now, answer) == Err(r.error))
              && (old(Inv(repository.Snapshot())) && NonNegativeFills(answer) ==> Inv(repository.Snapshot()))
      ensures SameQueue(old(repository.outbox), repository.outbox)
              && Agree(repository.outbox, broker.Replies(), old(broker.Replies()))
      ensures r.Ok? ==> r.value == |Pending(old(repository.outbox))|
    {
      hide NextCommit, Advance, Tidy, Inv, NonNegativeFills, SameQueue, Agree, FullDelivery, Settled,
           DeterministicPaperBroker.Replies,
           DeterministicPaperBroker.Valid;
      ghost var before := repository.Snapshot();
      ghost var start := Core(before);
      ghost var answer := broker.Replies();
      AgreeItself(before.outbox, answer);
      var items := repository.PendingOutbox();
      NothingAdvancedYet(start, answer);
      PendingFacts(before);
      CoreIsTidy(before);
      CoreQueue(before);
      commits := 0;
      var processed := 0;
      while processed < |items|
        invariant processed <= |items| && broker.Valid()
        invariant Reached(start, answer, commits, repository.Snapshot()) && Tidy(repository.Snapshot())
        invariant Pending(Stripped(repository.outbox)) == Stripped(items[processed..])
        invariant Agree(before.outbox, broker.Replies(), answer)
        invariant forall i :: processed <= i < |items| ==> items[i] in Pending(before.outbox)
      {
        var item := items[processed];
        ghost var here := repository.Snapshot();
        FirstIsPending(Stripped(repository.outbox));
        CoreIsStripped(here);
        assert Stripped(items[processed..])[0] == item.(attempts := 0);
        ghost var asked := broker.Replies();
        AgreeOnItem(before, item, asked, answer);
        var delivered, k := DeliverRow(broker, item, start, answer, commits);
        commits := k;
        AgreeAsked(before, item, asked, broker.Replies(), answer);
        if delivered.Err? {
          Halfway(before, answer, commits, repository.Snapshot());
          AgreeInQueue(before.outbox, repository.outbox, broker.Replies(), answer);
          if delivered.error != Crashed {
            SettledNow(before, answer, commits, repository.Snapshot());
          }
          return Err(delivered.error), commits;
        }
        PopsStripped(here, items[processed..], answer(item.order).acknowledgedAt, repository.outbox);
        processed := processed + 1;
      }
      FirstIsPending(Stripped(repository.outbox));
      Drained(repository.Snapshot(), answer);
      Halfway(before, answer, commits, repository.Snapshot());
      AgreeInQueue(before.outbox, repository.outbox, broker.Replies(), answer);
      SettledNow(before, answer, commits, repository.Snapshot());
      r := Ok(processed);
    }

    /**
     Rerunning a delivery that died: each attempt may talk to the same broker or to another one, such as a broker
     started again, as long as they answer the orders of the outbox alike. However many attempts die at whatever
     commits, the first one that does not leaves the database of one uninterrupted delivery.
     */
    method Redeliver(brokers: seq<DeterministicPaperBroker>, ghost answer: OrderId -> BrokerResult)
        returns (r: Result<nat, OmsError>)
      requires Tidy(repository.Snapshot())
      requires forall k :: 0 <= k < |brokers| ==>
                 brokers[k].Valid() && Agree(repository.outbox, brokers[k].Replies(), answer)
      modifies repository, brokers
      ensures Tidy(repository.Snapshot()) && Tidy(Core(repository.Snapshot())) && Tidy(Core(old(repository.Snapshot())))
      ensures var start, now := Core(old(repository.Snapshot())), Core(repository.Snapshot());
              && FullDelivery(now, answer) == FullDelivery(start, answer)
              && (r != Err(Crashed) ==> now == FullDelivery(start, answer))
              && (r.Ok? ==> NextCommit(now, answer) == Ok(None))
              && (r.Err? && r.error != Crashed ==> NextCommit(now, answer) == Err(r.error))
    {
      hide NextCommit, Advance, Tidy, FullDelivery, Core, SameQueue, Agree, Inv, DeterministicPaperBroker.Replies,
           DeterministicPaperBroker.Valid;
      ghost var first := repository.Snapshot();
      CoreIsTidy(first);
      r := Err(Crashed);
      for n := 0 to |brokers|
        invariant Tidy(repository.Snapshot()) && Tidy(Core(repository.Snapshot()))
        invariant FullDelivery(Core(repository.Snapshot()), answer) == FullDelivery(Core(first), answer)
        invariant forall k :: 0 <= k < |brokers| ==>
                    brokers[k].Valid() && Agree(repository.outbox, brokers[k].Replies(), answer)
        invariant r == Err(Crashed)
      {
        ghost var here, own := repository.Snapshot(), brokers[n].Replies();
        var delivered, commits := ProcessOutbox(brokers[n]);
        r := delivered;
        SameEnd(here, repository.Snapshot(), own, answer);
        AgreeThrough(repository.outbox, brokers[n].Replies(), own, answer);
        if r != Err(Crashed) {
          return;
        }
        forall k | 0 <= k < |brokers|
          ensures Agree(repository.outbox, brokers[k].Replies(), answer)
        {
          if brokers[k] != brokers[n] {
            AgreeInQueue(here.outbox, repository.outbox, brokers[k].Replies(), answer);
          }
        }
      }
    }

    // ---- Cancel, replace and recovery ----

    /** The single transaction shared by the remaining commands. */
    method Command(id: OrderId, state: OrderState, business: Business, reason: string, at: int, release: bool)
      returns (r: Result<Order, OmsError>)
      modifies repository
      ensures RanOrDied(old(repository.Snapshot()),
                        Single(old(repository.Snapshot()), id, state, business, reason, at, release),
                        repository.Snapshot(), r)
    {
      hide OmsModel.Transition;
      var got := repository.Get(id);
      if got.Err? {
        return got;
      }
      var o := got.value;
      var event := Event(o.sequence + 1, Some(o.state), state, business, NoPayload, at, reason);
      r := repository.Transition(id, event, o.version, None, release);
    }

    method RequestCancel(id: OrderId, at: int) returns (r: Result<Order, OmsError>)
      modifies repository
      ensures RanOrDied(old(repository.Snapshot()), CancelRequested(old(repository.Snapshot()), id, at),
                        repository.Snapshot(), r)
    {
      r := Command(id, CancelPending, CancelTag, "cancel_requested", at, false);
    }

    method ApplyCancelResult(id: OrderId, status: string, at: int) returns (r: Result<Order, OmsError>)
      modifies repository
      ensures RanOrDied(old(repository.Snapshot()), CancelApplied(old(repository.Snapshot()), id, status, at),
                        repository.Snapshot(), r)
    {
      var following := if status == "cancelled" then Cancelled else Unknown;
      r := Command(id, following, CancelResultTag(status), status, at, following == Cancelled);
    }

    method RequestReplace(id: OrderId, at: int) returns (r: Result<Order, OmsError>)
      modifies repository
      ensures RanOrDied(old(repository.Snapshot()), ReplaceRequested(old(repository.Snapshot()), id, at),
                        repository.Snapshot(), r)
    {
      r := Command(id, ReplacePending, ReplaceTag, "replace_requested", at, false);
    }

    method ApplyReplaceResult(id: OrderId, status: string, at: int) returns (r: Result<Order, OmsError>)
      modifies repository
      ensures RanOrDied(old(repository.Snapshot()), ReplaceApplied(old(repository.Snapshot()), id, status, at),
                        repository.Snapshot(), r)
    {
      var following := if status == "replaced" then Replaced else Unknown;
      r := Command(id, following, ReplaceResultTag(status), status, at, false);
    }

    method RecoverUnknown(id: OrderId, state: OrderState, reason: string, at: int) returns (r: Result<Order, OmsError>)
      modifies repository
      ensures RanOrDied(old(repository.Snapshot()), Recovered(old(repository.Snapshot()), id, state, reason, at),
                        repository.Snapshot(), r)
    {
      hide Single;
      var got := repository.Get(id);
      if got.Err? {
        return got;
      }
      if got.value.state != Unknown {
        return Err(NotUnknown);
      }
      r := Command(id, state, RecoveryTag(got.value.sequence + 1), reason, at, false);
    }
  }

  /** However far a `queue` call gets, the invariant holds. */
  lemma QueuedInv(db: Db, fees: FeeTaxPolicy, c: Command)
    requires Inv(db) && fees.Valid()
    ensures forall commits: nat :: Inv(Queued(db, fees, c, commits).db)
  {
    hide Inv, Queued;
    forall commits: nat
      ensures Inv(Queued(db, fees, c, commits).db)
    {
      var inventory := (i: string) => if ReservedSell(db, i).Floor + 1 < c.availablePosition then c.availablePosition
                                      else ReservedSell(db, i).Floor + 1;
      QueuedKeeps(db, fees, c, commits, MaxReal(ReservedCash(db), c.availableCash), inventory);
    }
  }

  // ---- How far a delivery got ----

  /** A row to deliver is a row of the outbox, and no other row has its order's key. */
  lemma ItemIsOwn(db: Db, item: OutboxRow)
    requires Tidy(db) && item in Pending(db.outbox)
    ensures item in db.outbox
    ensures forall i :: 0 <= i < |db.outbox| ==> db.outbox[i].order.key == item.order.key ==>
              db.outbox[i].order == item.order
  {
    PendingAreRows(db.outbox, item);
    var k :| 0 <= k < |db.outbox| && db.outbox[k] == item;
    forall i | 0 <= i < |db.outbox| && db.outbox[i].order.key == item.order.key
      ensures db.outbox[i].order == item.order
    {
      assert db.outbox[i].key == db.outbox[k].key;
    }
  }

  lemma AgreeOnItem(db: Db, item: OutboxRow, a: OrderId -> BrokerResult, b: OrderId -> BrokerResult)
    requires Tidy(db) && item in Pending(db.outbox) && Agree(db.outbox, a, b)
    ensures a(item.order) == b(item.order)
  {
    hide Tidy;
    ItemIsOwn(db, item);
  }

  /** Asking about one row leaves the answers to all of them. */
  lemma AgreeAsked(db: Db, item: OutboxRow, before: OrderId -> BrokerResult, after: OrderId -> BrokerResult,
                   answer: OrderId -> BrokerResult)
    requires Tidy(db) && item in Pending(db.outbox) && Agree(db.outbox, before, answer)
    requires after(item.order) == before(item.order)
    requires forall other: OrderId :: other.key != item.order.key ==> after(other) == before(other)
    ensures Agree(db.outbox, after, answer)
  {
    hide Tidy;
    ItemIsOwn(db, item);
  }

  lemma AgreeItself(outbox: seq<OutboxRow>, a: OrderId -> BrokerResult)
    ensures Agree(outbox, a, a)
  {
  }

  lemma AgreeThrough(outbox: seq<OutboxRow>, a: OrderId -> BrokerResult, b: OrderId -> BrokerResult,
                     c: OrderId -> BrokerResult)
    requires Agree(outbox, a, b) && Agree(outbox, b, c)
    ensures Agree(outbox, a, c)
  {
  }

  /**
   A paper broker that was only asked for the orders of the outbox answers them by its market and policy alone, so one
   that lost its memory in a crash answers as before.
   */
  lemma PaperBrokersAgree(broker: DeterministicPaperBroker, outbox: seq<OutboxRow>)
    requires broker.Valid()
    requires forall i, k ::
               0 <= i < |outbox| && 0 <= k < |broker.submitted| && broker.submitted[k].key == outbox[i].order.key ==>
               broker.submitted[k] == outbox[i].order
    ensures Agree(outbox, broker.Replies(), PaperAnswers(broker.market, broker.policy))
  {
    hide Respond;
    forall i | 0 <= i < |outbox|
      ensures broker.Replies()(outbox[i].order) == Respond(broker.market, broker.policy, outbox[i].order)
    {
      var id := outbox[i].order;
      if id.key in broker.responses {
        var k :| 0 <= k < |broker.submitted| && IsFirst(broker.submitted, k) && broker.submitted[k].key == id.key;
        assert broker.submitted[k] == id;
      }
    }
  }

  /** Brokers that agree leave the same to deliver, and stop at the same commit. */
  lemma SameEnd(here: Db, now: Db, own: OrderId -> BrokerResult, answer: OrderId -> BrokerResult)
    requires Tidy(here) && Tidy(now) && SameQueue(here.outbox, now.outbox) && Agree(here.outbox, own, answer)
    ensures Tidy(Core(here)) && Tidy(Core(now)) && Agree(now.outbox, own, answer)
    ensures FullDelivery(Core(here), own) == FullDelivery(Core(here), answer)
    ensures FullDelivery(Core(now), own) == FullDelivery(Core(now), answer)
    ensures NextCommit(Core(now), own) == NextCommit(Core(now), answer)
  {
    hide Tidy, FullDelivery, NextCommit, Agree, SameQueue;
    CoreIsTidy(here);
    CoreIsTidy(now);
    CoreQueue(here);
    CoreQueue(now);
    AgreeInQueue(here.outbox, Core(here).outbox, own, answer);
    AgreeInQueue(here.outbox, now.outbox, own, answer);
    AgreeInQueue(now.outbox, Core(now).outbox, own, answer);
    AgreeOnFull(Core(here), own, answer);
    AgreeOnFull(Core(now), own, answer);
    AgreeOnNext(Core(now), own, answer);
  }

  lemma CoreIsTidy(db: Db)
    requires Tidy(db)
    ensures Tidy(Core(db))
  {
    TidyOutbox(db, Core(db).outbox);
  }

  lemma CoreQueue(db: Db)
    ensures SameQueue(db.outbox, Core(db).outbox)
  {
  }

  /** What is left to deliver leads to the same end. */
  lemma Halfway(before: Db, answer: OrderId -> BrokerResult, commits: nat, now: Db)
    requires Tidy(before) && Core(now) == Advance(Core(before), answer, commits)
    ensures Tidy(Core(before)) && Tidy(Core(now)) && SameQueue(before.outbox, now.outbox)
    ensures FullDelivery(Core(now), answer) == FullDelivery(Core(before), answer)
    ensures Inv(before) && NonNegativeFills(answer) ==> Inv(now)
  {
    hide Tidy, Inv, Advance, FullDelivery, NonNegativeFills;
    CoreIsTidy(before);
    AdvanceIsTidy(Core(before), answer, commits);
    FullAfter(Core(before), answer, commits);
    CoreQueue(before);
    CoreQueue(now);
    if Inv(before) {
      AdvanceInv(before, answer, commits, now);
    }
  }

  /** A delivery that did not die is at its end. */
  lemma SettledNow(before: Db, answer: OrderId -> BrokerResult, commits: nat, now: Db)
    requires Tidy(before) && Core(now) == Advance(Core(before), answer, commits)
    requires NextCommit(Core(now), answer) == Ok(None) || NextCommit(Core(now), answer).Err?
    ensures Tidy(Core(before)) && Core(now) == FullDelivery(Core(before), answer)
  {
    hide Tidy, Advance, NextCommit, FullDelivery;
    CoreIsTidy(before);
    SettledIsFull(Core(before), answer, commits);
  }

  /** A delivery of non-negative fills keeps the invariant. */
  lemma AdvanceInv(before: Db, answer: OrderId -> BrokerResult, commits: nat, now: Db)
    requires Inv(before) && Core(now) == Advance(Core(before), answer, commits)
    ensures NonNegativeFills(answer) ==> Inv(now)
  {
    hide Inv, Advance;
    if NonNegativeFills(answer) {
      var core := Core(before);
      CoreKeeps(before);
      var inventory := (i: string) => ReservedSell(core, i).Floor + 1;
      AdvanceKeeps(core, answer, commits, ReservedCash(core), inventory);
      CoreReflects(now);
    }
  }
}
