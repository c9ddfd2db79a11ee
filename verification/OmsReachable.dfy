/** The invariant over every sequence of service calls and crashes, and the cash and inventory bounds. */
module OmsReachable {
  import opened FeeTax
  import opened OmsInvariant
  import opened OmsModel
  import opened OmsRuns
  import opened Wrappers

  /** A broker never reports a negative quantity for an order. */
  ghost predicate NonNegativeFills(answer: OrderId -> BrokerResult) {
    forall id: OrderId, i :: id.quantity >= 1 && 0 <= i < |answer(id).fills| ==> answer(id).fills[i].quantity >= 0
  }

  /** If the next commit records a fill, it fills at least so much. */
  ghost predicate NextFillsAtLeast(db: Db, answer: OrderId -> BrokerResult, least: int) {
    match NextCommit(db, answer)
    case Ok(Some(after)) => |after.fills| > |db.fills| ==> after.fills[|after.fills| - 1].fill.quantity >= least
    case _ => true
  }

  ghost predicate PaperCall(call: Call) {
    call.Deliver? ==> NonNegativeFills(call.answer)
  }

  // ---- How transactions move the reserved totals ----

  /** No buy cash and no sell quantity is reserved beyond what `db` reserves. */
  ghost predicate ReservesNoMore(db: Db, after: Db) {
    && ReservedCash(after) <= ReservedCash(db)
    && forall instrument :: ReservedSell(after, instrument) <= ReservedSell(db, instrument)
  }

  lemma RowShrinks(db: Db, after: Db, id: OrderId, r: Reservation)
    requires id in db.reservations && after.reservations == db.reservations[id := r]
    requires CashOf(id, r) <= CashOf(id, db.reservations[id])
    requires r.active ==> db.reservations[id].active && r.quantity <= db.reservations[id].quantity
    requires db.reservations[id].active ==> db.reservations[id].quantity >= 0
    ensures ReservesNoMore(db, after)
  {
    TotalUpdated(db.reservations, CashOf, id, r);
    forall instrument
      ensures ReservedSell(after, instrument) <= ReservedSell(db, instrument)
    {
      TotalUpdated(db.reservations, SellOf(instrument), id, r);
    }
  }

  lemma ReservationFacts(db: Db, id: OrderId)
    requires Inv(db) && id in db.reservations
    ensures CashOf(id, db.reservations[id]) >= 0.0
    ensures db.reservations[id].active ==> db.reservations[id].quantity >= 0
    ensures db.reservations[id].original == id.quantity >= 1
  {
    hide Inv, GoodJournal, FoldOrder, FillsIn, FilledSum, RowsOf, WasSubmitted;
    assert id in db.orders by { ReservedOrders(db); }
    RowParts(db, id);
  }

  lemma ReservedOrders(db: Db)
    requires Inv(db)
    ensures db.reservations.Keys <= db.orders.Keys
  {
  }

  lemma OrderFacts(db: Db, id: OrderId)
    requires Inv(db) && id in db.orders
    ensures db.orders[id].id == id && id in db.journal
    ensures id.quantity >= 1 && 0 <= db.orders[id].filled <= id.quantity
  {
    hide Inv, GoodJournal, FoldOrder, FillsIn, FilledSum, RowsOf, WasSubmitted, ReservationOk;
    RowParts(db, id);
  }

  lemma PlainReserves(db: Db, id: OrderId, e: Event, version: int, release: bool)
    requires Inv(db) && Transition(db, id, e, version, None, release).Ok?
    ensures ReservesNoMore(db, Transition(db, id, e, version, None, release).value.0)
  {
    hide Inv, CheckEvent, HasIdentity, EventConflicts, CashOf, SellOf;
    var after := Transition(db, id, e, version, None, release).value.0;
    if after.reservations != db.reservations {
      ReservationFacts(db, id);
      ReleasedCash(id, db.reservations[id]);
      RowShrinks(db, after, id, Released(db.reservations[id]));
    }
  }

  lemma ReleasedCash(id: OrderId, r: Reservation)
    requires CashOf(id, r) >= 0.0
    ensures CashOf(id, Released(r)) <= CashOf(id, r)
  {
  }

  lemma ScaledReservation(id: OrderId, r: Reservation, remaining: int)
    requires CashOf(id, r) >= 0.0 && r.original >= 1 && 0 <= remaining <= r.original
    ensures CashOf(id, Scaled(r, remaining)) <= CashOf(id, r)
    ensures Scaled(r, remaining).active ==> r.active && Scaled(r, remaining).quantity <= r.quantity
  {
    if id.side == Buy && r.active {
      ShrinkingCash(r.cash, remaining, r.original);
    }
  }

  lemma FillReserves(db: Db, id: OrderId, e: Event, version: int, fill: PaperFill)
    requires Inv(db) && fill.quantity >= 0 && TransitionFill(db, id, e, version, fill).Ok?
    ensures ReservesNoMore(db, TransitionFill(db, id, e, version, fill).value.0)
  {
    hide Inv, CheckEvent, HasIdentity, EventConflicts, CashOf, SellOf, Scaled, FindFill, HasFillId;
    var after := TransitionFill(db, id, e, version, fill).value.0;
    if after.reservations != db.reservations {
      ReservationFacts(db, id);
      OrderFacts(db, id);
      var r, remaining := db.reservations[id], id.quantity - (db.orders[id].filled + fill.quantity);
      ScaledReservation(id, r, remaining);
      RowShrinks(db, after, id, Scaled(r, remaining));
    }
  }

  lemma ShrinkingCash(cash: real, remaining: int, original: int)
    requires 0 <= remaining <= original && original > 0
    ensures cash >= 0.0 ==> cash * (remaining as real) / (original as real) <= cash
  {
    if cash >= 0.0 {
      var q := cash * (remaining as real) / (original as real);
      assert q * (original as real) == cash * (remaining as real);
    }
  }

  lemma SubmitReserves(db: Db, id: OrderId, e: Event, version: int, s: Submission)
    requires Inv(db) && Transition(db, id, e, version, Some(s), false).Ok?
    ensures var after := Transition(db, id, e, version, Some(s), false).value.0;
            || ReservesNoMore(db, after)
            || (&& ReservedCash(after) == ReservedCash(db) + (if id.side == Buy then s.cash else 0.0)
                && forall i :: ReservedSell(after, i) == ReservedSell(db, i)
                     + if id.side == Sell && id.instrument == i then s.quantity as real else 0.0)
  {
    hide Inv;
    var after := Transition(db, id, e, version, Some(s), false).value.0;
    if after != db {
      var r := Reservation(s.cash, s.quantity, id.quantity, true, s.cash);
      assert after.reservations == db.reservations[id := r];
      TotalUpdated(db.reservations, CashOf, id, r);
      forall i
        ensures ReservedSell(after, i) == ReservedSell(db, i) + if id.side == Sell && id.instrument == i
                then s.quantity as real else 0.0
      {
        TotalUpdated(db.reservations, SellOf(i), id, r);
      }
    }
  }

  // ---- Each call ----

  /** Reserved cash and inventory within a limit. */
  ghost predicate Within(db: Db, cash: real, inventory: string -> int) {
    && ReservedCash(db) <= cash
    && forall i :: ReservedSell(db, i) <= inventory(i) as real
  }

  /** The command presents no more than the limit. */
  predicate Presents(c: Command, cash: real, inventory: string -> int) {
    c.availableCash <= cash && c.availablePosition <= inventory(c.instrument)
  }

  lemma NamedKeeps(db: Db, o: Order, state: OrderState, reason: string, release: bool)
    requires Inv(db) && o.id in db.orders && o == db.orders[o.id]
    requires state in {RiskPending, RiskApproved, RiskRejected, Submitted, Acknowledged, Rejected}
    requires release <==> state == Rejected
    requires Named(db, o, state, reason, release).Ok?
    ensures var (after, o') := Named(db, o, state, reason, release).value;
            Inv(after) && o'.id == o.id && o.id in after.orders && o' == after.orders[o.id] && ReservesNoMore(db, after)
  {
    hide Inv, Transition, ReservesNoMore;
    TransitionKeeps(db, o.id, NamedEvent(o, state, reason), o.version, None, release);
    PlainReserves(db, o.id, NamedEvent(o, state, reason), o.version, release);
    OrderFacts(Named(db, o, state, reason, release).value.0, o.id);
  }

  lemma RequiredIsPositive(fees: FeeTaxPolicy, c: Command)
    requires fees.Valid() && Required(fees, c).Ok?
    ensures Required(fees, c).value > 0.0
  {
    var gross := c.estimatedPrice * (c.quantity as real);
    assert fees.Fee(gross) >= 0;
    NonNegativeTax(fees, c.side, gross);
  }

  lemma NonNegativeTax(fees: FeeTaxPolicy, side: Side, gross: real)
    requires fees.Valid() && gross > 0.0
    ensures fees.Tax(side, gross) >= 0
  {
    assert gross * fees.sellTaxRate >= 0.0;
  }

  lemma DecidedKeeps(db: Db, o: Order, fees: FeeTaxPolicy, c: Command, commits: nat, cash: real,
                     inventory: string -> int)
    requires Inv(db) && fees.Valid() && c.Id() in db.orders && o == db.orders[c.Id()] && o.id == c.Id()
    requires Within(db, cash, inventory) && Presents(c, cash, inventory)
    ensures Inv(Decided(db, o, fees, c, commits).db)
    ensures Within(Decided(db, o, fees, c, commits).db, cash, inventory)
  {
    hide Inv, NamedEvent, Transition;
    if Required(fees, c).Ok? && commits > 0 {
      var required := Required(fees, c).value;
      RequiredIsPositive(fees, c);
      var reason := RiskReason(db, c, required);
      if reason.Some? {
        if Named(db, o, RiskRejected, reason.value, false).Ok? {
          NamedKeeps(db, o, RiskRejected, reason.value, false);
        }
      } else if Named(db, o, RiskApproved, "paper_risk_approved", false).Ok? {
        NamedKeeps(db, o, RiskApproved, "paper_risk_approved", false);
        var (approved, o') := Named(db, o, RiskApproved, "paper_risk_approved", false).value;
        if commits > 1 && Submit(approved, o', c, required).Ok? {
          SubmitWithin(db, approved, o', c, required, cash, inventory);
        }
      }
    }
  }

  lemma SubmitWithin(db: Db, approved: Db, o: Order, c: Command, required: real, cash: real, inventory: string -> int)
    requires Inv(approved) && c.Id() in approved.orders && o == approved.orders[c.Id()] && o.id == c.Id()
    requires required > 0.0 && RiskReason(db, c, required).None? && ReservesNoMore(db, approved)
    requires Within(db, cash, inventory) && Presents(c, cash, inventory)
    requires Submit(approved, o, c, required).Ok?
    ensures Inv(Submit(approved, o, c, required).value.0)
    ensures Within(Submit(approved, o, c, required).value.0, cash, inventory)
  {
    hide Inv, Transition;
    var e := NextEvent(o, SubmitPending, SubmitTag, NoPayload, "paper_submit_queued", o.updatedAt);
    var s := Submission(if c.side == Buy then required else 0.0, c.quantity);
    TransitionKeeps(approved, o.id, e, o.version, Some(s), false);
    SubmitReserves(approved, o.id, e, o.version, s);
  }

  lemma QueuedKeeps(db: Db, fees: FeeTaxPolicy, c: Command, commits: nat, cash: real, inventory: string -> int)
    requires Inv(db) && fees.Valid() && Within(db, cash, inventory) && Presents(c, cash, inventory)
    ensures Inv(Queued(db, fees, c, commits).db)
    ensures Within(Queued(db, fees, c, commits).db, cash, inventory)
  {
    hide Inv, Decided, NamedEvent, Transition;
    if ByKey(db, c.key).None? && c.quantity >= 1 && commits > 0 && Create(db, c.Id(), c.createdAt).Ok? {
      CreateKeeps(db, c.Id(), c.createdAt);
      var (created, o) := Create(db, c.Id(), c.createdAt).value;
      assert created.reservations == db.reservations;
      if commits > 1 && Named(created, o, RiskPending, "risk_evaluation_started", false).Ok? {
        NamedKeeps(created, o, RiskPending, "risk_evaluation_started", false);
        var (pending, o') := Named(created, o, RiskPending, "risk_evaluation_started", false).value;
        DecidedKeeps(pending, o', fees, c, commits - 2, cash, inventory);
      }
    }
  }

  lemma FirstOpenFillIsOne(recorded: seq<FillRow>, fills: seq<PaperFill>)
    requires FirstOpenFill(recorded, fills).Ok? && FirstOpenFill(recorded, fills).value.Some?
    ensures FirstOpenFill(recorded, fills).value.value in fills
    ensures FindFill(recorded, FirstOpenFill(recorded, fills).value.value.identity).None?
  {
  }

  lemma NextCommitKeeps(db: Db, answer: OrderId -> BrokerResult)
    requires Inv(db) && NextFillsAtLeast(db, answer, 0)
    requires NextCommit(db, answer).Ok? && NextCommit(db, answer).value.Some?
    ensures Inv(NextCommit(db, answer).value.value)
    ensures ReservesNoMore(db, NextCommit(db, answer).value.value)
  {
    hide Inv, Transition, TransitionFill, NamedEvent, FillEvent, Delivered, FirstOpenFill, Named, ReservesNoMore;
    var row := FirstPending(db.outbox).value;
    var o, result := db.orders[row.order], answer(row.order);
    OrderFacts(db, row.order);
    if o.state == SubmitPending {
      NamedKeeps(db, o, Submitted, "paper_request_delivered", false);
    } else if result.rejected && o.state == Submitted {
      NamedKeeps(db, o, Rejected, result.reason, true);
    } else if !result.rejected && o.state == Submitted {
      NamedKeeps(db, o, Acknowledged, result.reason, false);
    } else if result.rejected || FirstOpenFill(db.fills, result.fills).value.None? {
      DeliveredKeeps(db, row, result.acknowledgedAt);
      DeliveredReserves(db, row, result.acknowledgedAt);
    } else {
      var fill := FirstOpenFill(db.fills, result.fills).value.value;
      FirstOpenFillIsOne(db.fills, result.fills);
      FillIsAppended(db, o.id, FillEvent(o, fill), o.version, fill);
      TransitionFillKeeps(db, o.id, o.version, fill);
      FillReserves(db, o.id, FillEvent(o, fill), o.version, fill);
    }
  }

  /** A new fill is the last row of the fills table. */
  lemma FillIsAppended(db: Db, id: OrderId, e: Event, version: int, fill: PaperFill)
    requires TransitionFill(db, id, e, version, fill).Ok? && FindFill(db.fills, fill.identity).None?
    ensures TransitionFill(db, id, e, version, fill).value.0.fills == db.fills + [FillRow(id, fill)]
    ensures 0 < db.orders[id].filled + fill.quantity <= id.quantity
  {
    hide CheckEvent, HasIdentity, EventConflicts, FindFill, HasFillId;
  }

  /** A broker without negative fills never lets one be recorded. */
  lemma NonNegativeNext(db: Db, answer: OrderId -> BrokerResult)
    requires Inv(db) && NonNegativeFills(answer)
    ensures NextFillsAtLeast(db, answer, 0)
  {
    hide Inv, Transition, NamedEvent, FillEvent, FirstOpenFill, TransitionFill;
    if NextCommit(db, answer).Ok? && NextCommit(db, answer).value.Some? {
      var row := FirstPending(db.outbox).value;
      var o, result, after := db.orders[row.order], answer(row.order), NextCommit(db, answer).value.value;
      OrderFacts(db, row.order);
      PlainFills(db);
      if |after.fills| > |db.fills| {
        var fill := FirstOpenFill(db.fills, result.fills).value.value;
        FirstOpenFillIsOne(db.fills, result.fills);
        FillIsAppended(db, o.id, FillEvent(o, fill), o.version, fill);
        var i :| 0 <= i < |result.fills| && result.fills[i] == fill;
        assert answer(row.order).fills[i].quantity >= 0;
      }
    }
  }

  lemma PlainFills(db: Db)
    ensures forall id, e, version, submission, release :: Transition(db, id, e, version, submission, release).Ok? ==>
              Transition(db, id, e, version, submission, release).value.0.fills == db.fills
  {
    hide CheckEvent, EventConflicts, HasIdentity;
  }

  lemma DeliveredReserves(db: Db, row: OutboxRow, at: int)
    ensures ReservesNoMore(db, Delivered(db, row, at))
  {
  }

  lemma {:induction false} AdvanceKeeps(db: Db, answer: OrderId -> BrokerResult, commits: nat, cash: real,
                                        inventory: string -> int)
    requires Inv(db) && NonNegativeFills(answer) && Within(db, cash, inventory)
    ensures Inv(Advance(db, answer, commits)) && Within(Advance(db, answer, commits), cash, inventory)
    decreases commits
  {
    hide Inv, NextCommit;
    if commits > 0 && NextCommit(db, answer).Ok? && NextCommit(db, answer).value.Some? {
      NonNegativeNext(db, answer);
      NextCommitKeeps(db, answer);
      AdvanceKeeps(NextCommit(db, answer).value.value, answer, commits - 1, cash, inventory);
    }
  }

  lemma SingleKeeps(db: Db, id: OrderId, state: OrderState, business: Business, reason: string, at: int, release: bool)
    requires Inv(db)
    requires id in db.orders ==>
               ServiceEvent(NextEvent(db.orders[id], state, business, NoPayload, reason, at), None, release)
    ensures Inv(Single(db, id, state, business, reason, at, release).db)
    ensures ReservesNoMore(db, Single(db, id, state, business, reason, at, release).db)
  {
    if id in db.orders {
      var o := db.orders[id];
      var e := NextEvent(o, state, business, NoPayload, reason, at);
      if Transition(db, id, e, o.version, None, release).Ok? {
        TransitionKeeps(db, id, e, o.version, None, release);
        PlainReserves(db, id, e, o.version, release);
      }
    }
  }

  /** Every call, and every part of a call cut short by a crash, keeps the invariant and the limits. */
  lemma AfterKeeps(db: Db, fees: FeeTaxPolicy, call: Call, cash: real, inventory: string -> int)
    requires Inv(db) && fees.Valid() && PaperCall(call) && Within(db, cash, inventory)
    requires call.Queue? ==> Presents(call.command, cash, inventory)
    ensures Inv(After(db, fees, call)) && Within(After(db, fees, call), cash, inventory)
  {
    hide Inv, Queued, Advance, Single;
    match call
    case Queue(command, commits) => QueuedKeeps(db, fees, command, commits, cash, inventory);
    case Deliver(answer, commits) => AdvanceKeeps(db, answer, commits, cash, inventory);
    case RequestCancel(id, at) => SingleKeeps(db, id, CancelPending, CancelTag, "cancel_requested", at, false);
    case ApplyCancel(id, status, at) =>
      var state := if status == "cancelled" then Cancelled else Unknown;
      SingleKeeps(db, id, state, CancelResultTag(status), status, at, state == Cancelled);
    case RequestReplace(id, at) => SingleKeeps(db, id, ReplacePending, ReplaceTag, "replace_requested", at, false);
    case ApplyReplace(id, status, at) =>
      SingleKeeps(db, id, if status == "replaced" then Replaced
                  else Unknown, ReplaceResultTag(status), status, at, false);
    case Recover(id, state, reason, at) =>
      if id in db.orders && db.orders[id].state == Unknown {
        SingleKeeps(db, id, state, RecoveryTag(db.orders[id].sequence + 1), reason, at, false);
      }
  }

  lemma DeliverIsAdvance(db: Db, fees: FeeTaxPolicy, call: Call)
    requires call.Deliver?
    ensures After(db, fees, call) == Advance(db, call.answer, call.commits)
  {
  }

  // ---- Every run ----

  /** The largest cash any command of the run presented. */
  function MaxCash(calls: seq<Call>): real {
    if calls == [] then 0.0
    else
      var last, before := calls[|calls| - 1], MaxCash(calls[..|calls| - 1]);
      if last.Queue? then MaxReal(before, last.command.availableCash) else before
  }

  /** The largest position of an instrument that any command of the run presented. */
  function MaxPosition(calls: seq<Call>, instrument: string): int {
    if calls == [] then 0
    else
      var last, before := calls[|calls| - 1], MaxPosition(calls[..|calls| - 1], instrument);
      if last.Queue? && last.command.instrument == instrument && before < last.command.availablePosition
      then last.command.availablePosition else before
  }

  /**
   Over every run: the invariant holds, active buy reservations total at most the largest cash presented,
   and active sell reservations of an instrument at most the largest position presented.
   */
  lemma {:induction false} RunIsSafe(fees: FeeTaxPolicy, calls: seq<Call>)
    requires fees.Valid() && forall call :: call in calls ==> PaperCall(call)
    ensures Inv(Run(fees, calls))
    ensures ReservedCash(Run(fees, calls)) <= MaxCash(calls)
    ensures forall instrument :: ReservedSell(Run(fees, calls), instrument) <= MaxPosition(calls, instrument) as real
  {
    hide Inv, After;
    if calls == [] {
      EmptyIsSafe();
    } else {
      var earlier, last := calls[..|calls| - 1], calls[|calls| - 1];
      RunIsSafe(fees, earlier);
      AfterKeeps(Run(fees, earlier), fees, last, MaxCash(calls), instrument => MaxPosition(calls, instrument));
    }
  }

  lemma EmptyIsSafe()
    ensures Inv(EMPTY_DB) && ReservedCash(EMPTY_DB) == 0.0 && forall i :: ReservedSell(EMPTY_DB, i) == 0.0
  {
  }
}
