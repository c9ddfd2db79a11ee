/** Executing a target snapshot twice, with any service calls on the first execution's orders in between. */
module TargetRepeats {
  import opened FeeTax
  import opened OmsInvariant
  import opened OmsModel
  import opened OmsOutbox
  import opened OmsReachable
  import opened OmsRuns
  import opened OmsService
  import opened OmsSettling
  import opened TargetExecutor
  import opened TargetModel
  import opened Wrappers

  // ---- What a call touches ----

  predicate SameOrder(db: Db, after: Db, id: OrderId) {
    (id in after.orders <==> id in db.orders) && (id in db.orders ==> after.orders[id] == db.orders[id])
  }

  ghost predicate OnlyOrder(db: Db, after: Db, touched: OrderId) {
    (forall id :: id != touched ==> SameOrder(db, after, id)) && db.orders.Keys <= after.orders.Keys
  }

  lemma OnlyTwice(a: Db, b: Db, c: Db, touched: OrderId)
    requires OnlyOrder(a, b, touched) && OnlyOrder(b, c, touched)
    ensures OnlyOrder(a, c, touched)
  {
    forall id: OrderId | id != touched
      ensures SameOrder(a, c, id)
    {
      assert SameOrder(a, b, id) && SameOrder(b, c, id);
    }
  }

  lemma TransitionTouches(db: Db, id: OrderId, e: Event, version: int, submission: Option<Submission>, release: bool)
    requires Transition(db, id, e, version, submission, release).Ok?
    ensures var (after, o) := Transition(db, id, e, version, submission, release).value;
            OnlyOrder(db, after, id) && o.id == db.orders[id].id
  {
    hide CheckEvent, HasIdentity, EventConflicts;
  }

  lemma NamedTouches(db: Db, o: Order, state: OrderState, reason: string, release: bool)
    requires o.id in db.orders && db.orders[o.id].id == o.id && Named(db, o, state, reason, release).Ok?
    ensures var (after, o') := Named(db, o, state, reason, release).value;
      OnlyOrder(db, after, o.id) && o'.id == o.id && o'.id in after.orders && after.orders[o'.id].id == o'.id
  {
    hide CheckEvent, HasIdentity, EventConflicts, NamedEvent;
  }

  /** Queueing touches the command's own order only. */
  lemma QueuedTouches(db: Db, fees: FeeTaxPolicy, c: Command, commits: nat)
    requires Inv(db)
    ensures OnlyOrder(db, Queued(db, fees, c, commits).db, c.Id())
  {
    hide Inv, Named, Decided, OnlyOrder;
    NothingTouched(db, c.Id());
    if ByKey(db, c.key).None? && c.quantity >= 1 && commits > 0 && Create(db, c.Id(), c.createdAt).Ok? {
      CreateKeeps(db, c.Id(), c.createdAt);
      var (created, o) := Create(db, c.Id(), c.createdAt).value;
      CreatedTouches(db, created, c.Id(), c.createdAt);
      if commits > 1 && Named(created, o, RiskPending, "risk_evaluation_started", false).Ok? {
        NamedTouches(created, o, RiskPending, "risk_evaluation_started", false);
        var (pending, o') := Named(created, o, RiskPending, "risk_evaluation_started", false).value;
        OnlyTwice(db, created, pending, c.Id());
        DecidedTouches(pending, o', fees, c, commits - 2);
        OnlyTwice(db, pending, Decided(pending, o', fees, c, commits - 2).db, c.Id());
      }
    }
  }

  lemma NothingTouched(db: Db, id: OrderId)
    ensures OnlyOrder(db, db, id)
  {
  }

  lemma CreatedTouches(db: Db, created: Db, id: OrderId, at: int)
    requires created.orders == db.orders[id := NewOrder(id, at)]
    ensures OnlyOrder(db, created, id)
  {
  }

  lemma DecidedTouches(db: Db, o: Order, fees: FeeTaxPolicy, c: Command, commits: nat)
    requires o.id in db.orders && db.orders[o.id].id == o.id
    ensures OnlyOrder(db, Decided(db, o, fees, c, commits).db, o.id)
  {
    hide Named, OnlyOrder, Transition;
    NothingTouched(db, o.id);
    if Required(fees, c).Ok? && commits > 0 {
      var required := Required(fees, c).value;
      var reason := RiskReason(db, c, required);
      if reason.Some? {
        if Named(db, o, RiskRejected, reason.value, false).Ok? {
          NamedTouches(db, o, RiskRejected, reason.value, false);
        }
      } else if Named(db, o, RiskApproved, "paper_risk_approved", false).Ok? {
        NamedTouches(db, o, RiskApproved, "paper_risk_approved", false);
        var (approved, o') := Named(db, o, RiskApproved, "paper_risk_approved", false).value;
        if commits > 1 && Submit(approved, o', c, required).Ok? {
          var e := NextEvent(o', SubmitPending, SubmitTag, NoPayload, "paper_submit_queued", o'.updatedAt);
          TransitionTouches(approved, o'.id, e, o'.version,
                            Some(Submission(if c.side == Buy then required else 0.0, c.quantity)), false);
          OnlyTwice(db, approved, Submit(approved, o', c, required).value.0, o.id);
        }
      }
    }
  }

  lemma SingleTouches(db: Db, id: OrderId, state: OrderState, business: Business, reason: string, at: int,
                      release: bool)
    ensures OnlyOrder(db, Single(db, id, state, business, reason, at, release).db, id)
  {
    hide Transition, OnlyOrder;
    NothingTouched(db, id);
    if id in db.orders {
      var o := db.orders[id];
      var e := NextEvent(o, state, business, NoPayload, reason, at);
      if Transition(db, id, e, o.version, None, release).Ok? {
        TransitionTouches(db, id, e, o.version, None, release);
      }
    }
  }

  // ---- Delivery touches the orders in the queue ----

  /** The orders waiting to be delivered. */
  ghost function Waiting(db: Db): iset<OrderId> {
    iset row <- OmsModel.Pending(db.outbox) :: row.order
  }

  lemma FilledTouches(db: Db, id: OrderId, e: Event, version: int, fill: PaperFill)
    requires TransitionFill(db, id, e, version, fill).Ok?
    ensures OnlyOrder(db, TransitionFill(db, id, e, version, fill).value.0, id)
  {
    hide CheckEvent, HasIdentity, EventConflicts, FindFill, HasFillId;
  }

  lemma {:induction false} FirstIsWaiting(outbox: seq<OutboxRow>)
    ensures FirstPending(outbox).Some? ==> FirstPending(outbox).value in OmsModel.Pending(outbox)
  {
    FirstIsPending(outbox);
  }

  /** One commit touches the order at the head of the queue, and the queue only gets shorter. */
  lemma NextTouches(db: Db, answer: OrderId -> BrokerResult)
    requires Tidy(db) && NextCommit(db, answer).Ok? && NextCommit(db, answer).value.Some?
    ensures var after := NextCommit(db, answer).value.value;
      && Tidy(after) && Waiting(after) <= Waiting(db)
      && exists id :: id in Waiting(db) && OnlyOrder(db, after, id)
  {
    hide Tidy, Named, TransitionFill, FirstOpenFill, Delivered, FillEvent;
    var row := FirstPending(db.outbox).value;
    var o, result, after := db.orders[row.order], answer(row.order), NextCommit(db, answer).value.value;
    FirstIsWaiting(db.outbox);
    TidyIds(db, row.order);
    CommitDescends(db, answer);
    if o.state == SubmitPending {
      NamedTouches(db, o, Submitted, "paper_request_delivered", false);
      NamedCommit(db, row, Submitted, "paper_request_delivered", false);
    } else if result.rejected && o.state == Submitted {
      NamedTouches(db, o, Rejected, result.reason, true);
      NamedCommit(db, row, Rejected, result.reason, true);
    } else if !result.rejected && o.state == Submitted {
      NamedTouches(db, o, Acknowledged, result.reason, false);
      NamedCommit(db, row, Acknowledged, result.reason, false);
    } else if !result.rejected && FirstOpenFill(db.fills, result.fills).value.Some? {
      var fill := FirstOpenFill(db.fills, result.fills).value.value;
      OpenFillIsOpen(db.fills, result.fills);
      FilledTouches(db, o.id, FillEvent(o, fill), o.version, fill);
      FillCommits(db, row, o, fill);
    } else {
      MarkCommit(db, row, result.acknowledgedAt);
      ShorterQueue(db, after);
    }
    assert row.order in Waiting(db) && OnlyOrder(db, after, row.order);
  }

  lemma ShorterQueue(db: Db, after: Db)
    requires OmsModel.Pending(db.outbox) != [] && Stripped(OmsModel.Pending(after.outbox)) ==
             Stripped(OmsModel.Pending(db.outbox)[1..])
    ensures Waiting(after) <= Waiting(db)
  {
    var queue, left := OmsModel.Pending(db.outbox), OmsModel.Pending(after.outbox);
    forall id | id in Waiting(after)
      ensures id in Waiting(db)
    {
      var i :| 0 <= i < |left| && left[i].order == id;
      assert Stripped(left)[i] == Stripped(queue[1..])[i];
      assert queue[i + 1] in queue && queue[i + 1].order == id;
    }
  }

  /** The two databases differ in these orders only. */
  ghost predicate OnlyOrders(db: Db, after: Db, mine: iset<OrderId>) {
    (forall id :: id !in mine ==> SameOrder(db, after, id)) && db.orders.Keys <= after.orders.Keys
  }

  lemma OnlyMore(a: Db, b: Db, c: Db, mine: iset<OrderId>)
    requires OnlyOrders(a, b, mine) && OnlyOrders(b, c, mine)
    ensures OnlyOrders(a, c, mine)
  {
    forall id: OrderId | id !in mine
      ensures SameOrder(a, c, id)
    {
      assert SameOrder(a, b, id) && SameOrder(b, c, id);
    }
  }

  lemma {:induction false} AdvanceTouches(db: Db, answer: OrderId -> BrokerResult, commits: nat, mine: iset<OrderId>)
    requires Tidy(db) && Waiting(db) <= mine
    ensures OnlyOrders(db, Advance(db, answer, commits), mine)
    decreases commits
  {
    hide NextCommit, Tidy, Waiting;
    if commits > 0 && NextCommit(db, answer).Ok? && NextCommit(db, answer).value.Some? {
      NextTouches(db, answer);
      var after := NextCommit(db, answer).value.value;
      AdvanceTouches(after, answer, commits - 1, mine);
      OnlyMore(db, after, Advance(after, answer, commits - 1), mine);
    }
  }

  // ---- Calls on some orders only ----

  /** The call is about these orders; a delivery finds no others waiting. */
  ghost predicate OwnCall(db: Db, call: Call, mine: iset<OrderId>) {
    match call
    case Queue(command, _) => command.Id() in mine
    case Deliver(_, _) => Waiting(db) <= mine
    case RequestCancel(id, _) => id in mine
    case ApplyCancel(id, _, _) => id in mine
    case RequestReplace(id, _) => id in mine
    case ApplyReplace(id, _, _) => id in mine
    case Recover(id, _, _, _) => id in mine
  }

  ghost function AfterAll(db: Db, fees: FeeTaxPolicy, calls: seq<Call>): Db {
    if calls == [] then db else After(AfterAll(db, fees, calls[..|calls| - 1]), fees, calls[|calls| - 1])
  }

  ghost predicate OwnCalls(db: Db, fees: FeeTaxPolicy, calls: seq<Call>, mine: iset<OrderId>) {
    forall k :: 0 <= k < |calls| ==> PaperCall(calls[k]) && OwnCall(AfterAll(db, fees, calls[..k]), calls[k], mine)
  }

  lemma CallTouches(db: Db, fees: FeeTaxPolicy, call: Call, mine: iset<OrderId>)
    requires Inv(db) && OwnCall(db, call, mine)
    ensures OnlyOrders(db, After(db, fees, call), mine)
  {
    hide Inv, Queued, Single, Waiting, Tidy;
    match call
    case Queue(command, commits) => QueuedTouches(db, fees, command, commits);
    case Deliver(answer, commits) =>
      InvIsTidy(db);
      AdvanceTouches(db, answer, commits, mine);
    case RequestCancel(id, at) => SingleTouches(db, id, CancelPending, CancelTag, "cancel_requested", at, false);
    case ApplyCancel(id, status, at) =>
      var state := if status == "cancelled" then Cancelled else Unknown;
      SingleTouches(db, id, state, CancelResultTag(status), status, at, state == Cancelled);
    case RequestReplace(id, at) => SingleTouches(db, id, ReplacePending, ReplaceTag, "replace_requested", at, false);
    case ApplyReplace(id, status, at) =>
      SingleTouches(db, id, if status == "replaced" then Replaced
                    else Unknown, ReplaceResultTag(status), status, at, false);
    case Recover(id, state, reason, at) =>
      if id in db.orders && db.orders[id].state == Unknown {
        SingleTouches(db, id, state, RecoveryTag(db.orders[id].sequence + 1), reason, at, false);
      }
  }

  /** Any call keeps the invariant. */
  lemma CallKeeps(db: Db, fees: FeeTaxPolicy, call: Call)
    requires Inv(db) && fees.Valid() && PaperCall(call)
    ensures Inv(After(db, fees, call))
  {
    hide Inv, Queued, Advance, Single, PaperCall;
    if call.Queue? {
      QueuedInv(db, fees, call.command);
    } else {
      var inventory := (i: string) => ReservedSell(db, i).Floor + 1;
      AfterKeeps(db, fees, call, ReservedCash(db), inventory);
    }
  }

  lemma {:induction false} CallsTouch(db: Db, fees: FeeTaxPolicy, calls: seq<Call>, mine: iset<OrderId>)
    requires Inv(db) && fees.Valid() && OwnCalls(db, fees, calls, mine)
    ensures OnlyOrders(db, AfterAll(db, fees, calls), mine) && Inv(AfterAll(db, fees, calls))
  {
    hide Inv, After, OwnCall, PaperCall;
    if calls != [] {
      var n := |calls| - 1;
      var earlier := calls[..n];
      forall k | 0 <= k < n
        ensures PaperCall(earlier[k]) && OwnCall(AfterAll(db, fees, earlier[..k]), earlier[k], mine)
      {
        assert earlier[..k] == calls[..k] && earlier[k] == calls[k];
      }
      CallsTouch(db, fees, earlier, mine);
      var middle := AfterAll(db, fees, earlier);
      assert PaperCall(calls[n]) && OwnCall(middle, calls[n], mine);
      CallTouches(middle, fees, calls[n], mine);
      CallKeeps(middle, fees, calls[n]);
      OnlyMore(db, middle, After(middle, fees, calls[n]), mine);
    }
  }

  /** Queueing commands touches their own orders only. */
  lemma {:induction false} QueuedAllTouches(db: Db, fees: FeeTaxPolicy, commands: seq<Ranked>, commits: seq<nat>,
                                            mine: iset<OrderId>)
    requires Inv(db) && fees.Valid() && |commits| == |commands| && forall x <- commands :: x.command.Id() in mine
    ensures OnlyOrders(db, QueuedAll(db, fees, commands, commits).0, mine)
            && Inv(QueuedAll(db, fees, commands, commits).0)
  {
    hide Inv, Queued;
    if commands != [] {
      var n := |commands| - 1;
      QueuedAllTouches(db, fees, commands[..n], commits[..n], mine);
      var before := QueuedAll(db, fees, commands[..n], commits[..n]).0;
      QueuedTouches(before, fees, commands[n].command, commits[n]);
      QueuedInv(before, fees, commands[n].command);
      assert commands[n] in commands;
      OnlyMore(db, before, Queued(before, fees, commands[n].command, commits[n]).db, mine);
    }
  }

  // ---- Twice ----

  /** The orders an execution asks for. */
  ghost function OrdersOf(orders: map<OrderId, Order>, snapshot: TargetSnapshot, policy: Policy, digests: Digests,
                          p: Portfolio): iset<OrderId>
    requires snapshot.Valid()
  {
    iset w: Identity | Wanted(orders, snapshot, policy, p, w) :: digests.OrderOf(w)
  }

  /** No order of the snapshot is recorded yet. */
  ghost predicate NewSnapshot(orders: map<OrderId, Order>, snapshot: TargetSnapshot, digests: Digests) {
    forall w: Identity :: w.artifact == snapshot.artifact ==> !HasKey(orders, digests.key(w))
  }

  /**
    * After a first execution, however far it got, and any calls on its orders, nothing else has changed: what the
    * second execution finds is what the first one left.
    */
  lemma FirstLeavesUndisturbed(db: Db, fees: FeeTaxPolicy, snapshot: TargetSnapshot, policy: Policy, digests: Digests,
                               p: Portfolio,
                               createdAt: int, commands: seq<Ranked>, commits: seq<nat>, calls: seq<Call>)
    requires Inv(db) && fees.Valid() && snapshot.Valid() && NewSnapshot(db.orders, snapshot, digests)
             && |commits| <= |commands|
    requires AreCommands(db.orders, snapshot, policy, digests, p, createdAt, commands)
    requires OwnCalls(QueuedAll(db, fees, commands[..|commits|], commits).0, fees, calls,
                      OrdersOf(db.orders, snapshot, policy, digests, p))
    ensures var after := AfterAll(QueuedAll(db, fees, commands[..|commits|], commits).0, fees, calls);
      && Inv(after) && OnlyOrders(db, after, OrdersOf(db.orders, snapshot, policy, digests, p))
      && Undisturbed(db.orders, after.orders, snapshot, policy, p, digests)
  {
    hide Inv, OwnCalls, AreCommands, Wanted, NewSnapshot, QueuedAll;
    var mine := OrdersOf(db.orders, snapshot, policy, digests, p);
    CommandsAreWanted(db.orders, snapshot, policy, digests, p, createdAt, commands);
    forall x | x in commands[..|commits|]
      ensures x.command.Id() in mine
    {
      assert x in commands;
    }
    QueuedAllTouches(db, fees, commands[..|commits|], commits, mine);
    var first := QueuedAll(db, fees, commands[..|commits|], commits).0;
    CallsTouch(first, fees, calls, mine);
    OnlyMore(db, first, AfterAll(first, fees, calls), mine);
    OnlyMineIsUndisturbed(db, AfterAll(first, fees, calls), snapshot, policy, digests, p);
  }

  lemma OnlyMineIsUndisturbed(db: Db, after: Db, snapshot: TargetSnapshot, policy: Policy, digests: Digests,
                              p: Portfolio)
    requires snapshot.Valid() && NewSnapshot(db.orders, snapshot, digests)
    requires OnlyOrders(db, after, OrdersOf(db.orders, snapshot, policy, digests, p))
    ensures Undisturbed(db.orders, after.orders, snapshot, policy, p, digests)
  {
    hide Delta;
    forall id: OrderId
      ensures SamePending(db.orders, after.orders, id) || IsNew(db.orders, snapshot, policy, p, digests, id)
    {
      if id in OrdersOf(db.orders, snapshot, policy, digests, p) {
        NotRecorded(db.orders, snapshot, policy, digests, p, id);
      } else {
        assert SameOrder(db, after, id);
      }
    }
  }

  lemma NotRecorded(orders: map<OrderId, Order>, snapshot: TargetSnapshot, policy: Policy, digests: Digests,
                    p: Portfolio, id: OrderId)
    requires snapshot.Valid() && NewSnapshot(orders, snapshot, digests)
             && id in OrdersOf(orders, snapshot, policy, digests, p)
    ensures id !in orders
  {
    hide Delta;
    var w :| Wanted(orders, snapshot, policy, p, w) && id == digests.OrderOf(w);
    assert w.artifact == snapshot.artifact;
    assert id.key == digests.key(w);
  }

  ghost predicate NonePartlyFilled(before: map<OrderId, Order>, after: map<OrderId, Order>, snapshot: TargetSnapshot,
                                   policy: Policy,
                                   p: Portfolio, digests: Digests)
    requires snapshot.Valid()
  {
    forall id :: !PartlyFilled(before, after, snapshot, policy, p, digests, id)
  }

  /** A new identity of the snapshot is recorded neither before the first execution nor by it. */
  lemma NewIdentityIsFree(before: Db, after: Db, snapshot: TargetSnapshot, policy: Policy, digests: Digests,
                          p: Portfolio, w: Identity)
    requires snapshot.Valid() && digests.Injective() && NewSnapshot(before.orders, snapshot, digests)
    requires OnlyOrders(before, after, OrdersOf(before.orders, snapshot, policy, digests, p))
    requires w.artifact == snapshot.artifact && !Wanted(before.orders, snapshot, policy, p, w)
    ensures !HasKey(after.orders, digests.key(w))
  {
    hide Wanted;
    forall id: OrderId | id in after.orders
      ensures id.key != digests.key(w)
    {
      assert id !in OrdersOf(before.orders, snapshot, policy, digests, p) ==> SameOrder(before, after, id);
    }
  }

  lemma WantedIsOfSnapshot(orders: map<OrderId, Order>, snapshot: TargetSnapshot, policy: Policy, p: Portfolio,
                           w: Identity)
    requires snapshot.Valid() && Wanted(orders, snapshot, policy, p, w)
    ensures w.artifact == snapshot.artifact
  {
    hide Delta;
  }

  /** The second execution adds nothing but orders of the first. */
  ghost predicate AddsOnly(after: Db, last: Db, mine: iset<OrderId>) {
    forall id :: id in last.orders && id !in after.orders ==> id in mine
  }

  /**
    * Executing a snapshot twice. The first execution may stop anywhere, and any service calls on its orders may
    * follow. A second execution that queues all its commands then adds only orders of the first one, and with all of
    * these recorded it changes nothing at all, if and only if none of them is open and partly filled.
    */
  lemma SecondExecution(db: Db, fees: FeeTaxPolicy, snapshot: TargetSnapshot, policy: Policy, digests: Digests,
                        p: Portfolio,
                        createdAt: int, commands: seq<Ranked>, commits: seq<nat>, calls: seq<Call>,
                        again: int, more: seq<Ranked>, cuts: seq<nat>)
    requires Inv(db) && fees.Valid() && snapshot.Valid() && DistinctInstruments(snapshot) && digests.Injective()
    requires NewSnapshot(db.orders, snapshot, digests) && |commits| <= |commands| && |cuts| == |more|
    requires AreCommands(db.orders, snapshot, policy, digests, p, createdAt, commands)
    requires OwnCalls(QueuedAll(db, fees, commands[..|commits|], commits).0, fees, calls,
                      OrdersOf(db.orders, snapshot, policy, digests, p))
    requires var after := AfterAll(QueuedAll(db, fees, commands[..|commits|], commits).0, fees, calls);
             AreCommands(after.orders, snapshot, policy, digests, p, again, more)
                 && QueuedAll(after, fees, more, cuts).1.Ok?
    ensures var mine := OrdersOf(db.orders, snapshot, policy, digests, p);
            var after := AfterAll(QueuedAll(db, fees, commands[..|commits|], commits).0, fees, calls);
            var last := QueuedAll(after, fees, more, cuts).0;
      && (AddsOnly(after, last, mine) <==> NonePartlyFilled(db.orders, after.orders, snapshot, policy, p, digests))
      && (AllRecorded(after.orders, db.orders, snapshot, policy, digests, p) ==>
            (last == after <==> NonePartlyFilled(db.orders, after.orders, snapshot, policy, p, digests)))
  {
    hide Inv, OwnCalls, AreCommands, AreWanted, AllRecorded, OnlyWanted, OnlyFrom, KeysTaken, QueuedAll, AfterAll,
         OnlyOrders, Undisturbed,
         NonePartlyFilled, OrdersOf;
    var after := AfterAll(QueuedAll(db, fees, commands[..|commits|], commits).0, fees, calls);
    var last := QueuedAll(after, fees, more, cuts).0;
    FirstLeavesUndisturbed(db, fees, snapshot, policy, digests, p, createdAt, commands, commits, calls);
    ReachableRowsFit(after);
    CommandsAreWanted(after.orders, snapshot, policy, digests, p, again, more);
    QueuedAllCreates(after, fees, more, cuts);
    assert more[..|cuts|] == more;
    QueuedWanted(after.orders, after.orders, snapshot, policy, digests, p, more);
    QueuedWanted(after.orders, last.orders, snapshot, policy, digests, p, more);
    if NonePartlyFilled(db.orders, after.orders, snapshot, policy, p, digests) {
      HarmlessAgain(db, after, last, snapshot, policy, digests, p);
    } else {
      ReordersAgain(db, after, last, snapshot, policy, digests, p);
    }
  }

  lemma HarmlessAgain(db: Db, after: Db, last: Db, snapshot: TargetSnapshot, policy: Policy, digests: Digests,
                      p: Portfolio)
    requires snapshot.Valid() && DistinctInstruments(snapshot) && digests.Injective() && RowsFit(after.orders)
    requires Undisturbed(db.orders, after.orders, snapshot, policy, p, digests)
    requires NonePartlyFilled(db.orders, after.orders, snapshot, policy, p, digests)
    requires OnlyWanted(last.orders, after.orders, snapshot, policy, digests, p)
    ensures AddsOnly(after, last, OrdersOf(db.orders, snapshot, policy, digests, p))
    ensures AllRecorded(after.orders, db.orders, snapshot, policy, digests, p) ==>
              AllRecorded(after.orders, after.orders, snapshot, policy, digests, p)
  {
    hide Wanted, Undisturbed, PartlyFilled, RowsFit, HasKey;
    ReexecutionIsHarmless(db.orders, after.orders, snapshot, policy, p, digests);
  }

  /** With a partly filled order, the second execution records an order that is not of the first one. */
  lemma ReordersAgain(db: Db, after: Db, last: Db, snapshot: TargetSnapshot, policy: Policy, digests: Digests,
                      p: Portfolio)
    requires snapshot.Valid() && DistinctInstruments(snapshot) && digests.Injective() && RowsFit(after.orders)
    requires NewSnapshot(db.orders, snapshot, digests)
    requires OnlyOrders(db, after, OrdersOf(db.orders, snapshot, policy, digests, p))
    requires Undisturbed(db.orders, after.orders, snapshot, policy, p, digests)
    requires !NonePartlyFilled(db.orders, after.orders, snapshot, policy, p, digests)
    requires AllRecorded(last.orders, after.orders, snapshot, policy, digests, p)
    ensures !AddsOnly(after, last, OrdersOf(db.orders, snapshot, policy, digests, p)) && last != after
  {
    hide Wanted, Undisturbed, PartlyFilled, RowsFit, NewSnapshot, OnlyOrders;
    ReexecutionIsHarmless(db.orders, after.orders, snapshot, policy, p, digests);
    var w :| Wanted(after.orders, snapshot, policy, p, w) && !Wanted(db.orders, snapshot, policy, p, w);
    WantedIsOfSnapshot(after.orders, snapshot, policy, p, w);
    NewIdentityIsFree(db, after, snapshot, policy, digests, p, w);
    assert HasKey(last.orders, digests.key(w));
    var id :| id in last.orders && id.key == digests.key(w);
    assert id !in after.orders;
    assert id !in OrdersOf(db.orders, snapshot, policy, digests, p);
  }
}
