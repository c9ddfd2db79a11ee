/**
 Every delivery comes to a halt, in one database that depends on the broker only through its answers to the outbox rows.
 */
module OmsSettling {
  import opened OmsModel
  import opened OmsOutbox
  import opened OmsRecovery
  import opened OmsRuns
  import opened Wrappers

  /** Both outboxes list the same orders under the same keys. */
  predicate SameQueue(outbox: seq<OutboxRow>, after: seq<OutboxRow>) {
    |outbox| == |after| && forall i :: 0 <= i < |outbox| ==>
      after[i].order == outbox[i].order && after[i].key == outbox[i].key
  }

  // ---- One commit ----

  /** How many of the fills are not recorded. */
  function OpenCount(recorded: seq<FillRow>, fills: seq<PaperFill>): (n: nat)
    ensures n <= |fills|
  {
    if fills == [] then 0
    else (if FindFill(recorded, fills[0].identity).None? then 1 else 0) + OpenCount(recorded, fills[1..])
  }

  /** Recording one open fill leaves fewer of them. */
  lemma {:induction false} OpenCountFalls(recorded: seq<FillRow>, row: FillRow, fills: seq<PaperFill>)
    ensures OpenCount(recorded + [row], fills) <= OpenCount(recorded, fills)
    ensures row.fill in fills && FindFill(recorded, row.fill.identity).None? ==>
              OpenCount(recorded + [row], fills) < OpenCount(recorded, fills)
  {
    if fills != [] {
      FindAppended(recorded, row, fills[0].identity);
      OpenCountFalls(recorded, row, fills[1..]);
    }
  }

  /** How far the order of the first pending row still has to go. */
  ghost function Stage(db: Db, answer: OrderId -> BrokerResult): nat {
    match FirstPending(db.outbox)
    case None => 0
    case Some(row) =>
      var fills := answer(row.order).fills;
      if row.order !in db.orders then 0
      else if db.orders[row.order].state == SubmitPending then |fills| + 2
      else if db.orders[row.order].state == Submitted then |fills| + 1
      else OpenCount(db.fills, fills)
  }

  /** A commit without a fill moves the order of the head row on. */
  lemma NamedCommit(db: Db, row: OutboxRow, state: OrderState, reason: string, release: bool)
    requires Tidy(db) && row.order in db.orders && Named(db, db.orders[row.order], state, reason, release).Ok?
    ensures var after := Named(db, db.orders[row.order], state, reason, release).value.0;
      Tidy(after) && after.outbox == db.outbox && after.fills == db.fills && row.order in after.orders
      && after.orders[row.order].state == state
  {
    hide Tidy, Transition;
    TidyIds(db, row.order);
    var o := db.orders[row.order];
    TransitionTouches(db, row.order, NamedEvent(o, state, reason), o.version, release);
  }

  lemma MarkCommit(db: Db, row: OutboxRow, at: int)
    requires Tidy(db) && FirstPending(db.outbox) == Some(row)
    ensures var after := Delivered(db, row, at);
      && Tidy(after) && SameQueue(db.outbox, after.outbox)
      && Pending(db.outbox) != [] && Stripped(Pending(after.outbox)) == Stripped(Pending(db.outbox)[1..])
      && after.orders == db.orders && after.journal == db.journal && after.fills == db.fills
  {
    var marked := MarkDelivered(db.outbox, row.key, at);
    FirstIsPending(db.outbox);
    assert KeysDistinct(db.outbox);
    MarkingPops(db.outbox, at);
    PendingStripped(marked);
    assert Delivered(db, row, at).outbox == Stripped(marked);
    assert Stripped(Stripped(Pending(marked))) == Stripped(Pending(marked));
    TidyOutbox(db, Stripped(marked));
  }

  lemma FillCommits(db: Db, row: OutboxRow, o: Order, fill: PaperFill)
    requires Tidy(db) && row.order in db.orders && o == db.orders[row.order] && FindFill(db.fills, fill.identity).None?
    requires TransitionFill(db, o.id, FillEvent(o, fill), o.version, fill).Ok?
    ensures var after := TransitionFill(db, o.id, FillEvent(o, fill), o.version, fill).value.0;
      && Tidy(after) && after.outbox == db.outbox && after.fills == db.fills + [FillRow(row.order, fill)]
      && row.order in after.orders && after.orders[row.order].state in {PartiallyFilled, Filled}
  {
    hide Tidy, TransitionFill, FindFill;
    TidyIds(db, row.order);
    TransitionFillTouches(db, o.id, FillEvent(o, fill), o.version, fill);
  }

  lemma OpenFillIsOpen(recorded: seq<FillRow>, fills: seq<PaperFill>)
    requires FirstOpenFill(recorded, fills).Ok? && FirstOpenFill(recorded, fills).value.Some?
    ensures FirstOpenFill(recorded, fills).value.value in fills
    ensures FindFill(recorded, FirstOpenFill(recorded, fills).value.value.identity).None?
  {
  }

  /** Each commit keeps the queue and brings delivery closer to its end. */
  lemma CommitDescends(db: Db, answer: OrderId -> BrokerResult)
    requires Tidy(db) && NextCommit(db, answer).Ok? && NextCommit(db, answer).value.Some?
    ensures var after := NextCommit(db, answer).value.value;
      && Tidy(after) && SameQueue(db.outbox, after.outbox)
      && (|Pending(after.outbox)| < |Pending(db.outbox)|
          || (|Pending(after.outbox)| == |Pending(db.outbox)| && Stage(after, answer) < Stage(db, answer)))
  {
    hide Tidy, Named, TransitionFill, FirstOpenFill, Delivered, FindFill;
    var row := FirstPending(db.outbox).value;
    var o, result := db.orders[row.order], answer(row.order);
    var after := NextCommit(db, answer).value.value;
    MarkCommit(db, row, result.acknowledgedAt);
    if o.state == SubmitPending {
      NamedCommit(db, row, Submitted, "paper_request_delivered", false);
    } else if result.rejected && o.state == Submitted {
      NamedCommit(db, row, Rejected, result.reason, true);
    } else if !result.rejected && o.state == Submitted {
      NamedCommit(db, row, Acknowledged, result.reason, false);
    } else if !result.rejected && FirstOpenFill(db.fills, result.fills).value.Some? {
      var fill := FirstOpenFill(db.fills, result.fills).value.value;
      OpenFillIsOpen(db.fills, result.fills);
      FillCommits(db, row, o, fill);
      OpenCountFalls(db.fills, FillRow(row.order, fill), result.fills);
    } else {
      assert |Stripped(Pending(after.outbox))| == |Stripped(Pending(db.outbox)[1..])|;
    }
  }

  // ---- Delivery halts ----

  /** Some number of commits exhausts every delivery. */
  lemma {:induction false} DeliveryHalts(db: Db, answer: OrderId -> BrokerResult) returns (k: nat)
    requires Tidy(db)
    ensures Settled(Advance(db, answer, k), answer)
    decreases |Pending(db.outbox)|, Stage(db, answer)
  {
    hide NextCommit, Tidy, Stage;
    if NextCommit(db, answer).Ok? && NextCommit(db, answer).value.Some? {
      var next := NextCommit(db, answer).value.value;
      CommitDescends(db, answer);
      var rest := DeliveryHalts(next, answer);
      k := rest + 1;
    } else {
      k := 0;
    }
  }

  /** The database in which delivery halts. */
  ghost function FullDelivery(db: Db, answer: OrderId -> BrokerResult): Db
    requires Tidy(db)
  {
    HaltingPoint(db, answer);
    var k: nat :| Settled(Advance(db, answer, k), answer);
    Advance(db, answer, k)
  }

  lemma HaltingPoint(db: Db, answer: OrderId -> BrokerResult)
    requires Tidy(db)
    ensures exists k: nat :: Settled(Advance(db, answer, k), answer)
  {
    var k := DeliveryHalts(db, answer);
    assert Settled(Advance(db, answer, k), answer);
  }

  lemma FullIsSettled(db: Db, answer: OrderId -> BrokerResult) returns (k: nat)
    requires Tidy(db)
    ensures FullDelivery(db, answer) == Advance(db, answer, k) && Settled(FullDelivery(db, answer), answer)
  {
    hide Settled, Advance, Tidy;
    HaltingPoint(db, answer);
    k :| Settled(Advance(db, answer, k), answer) && FullDelivery(db, answer) == Advance(db, answer, k);
  }

  /** A delivery that can go no further has reached it. */
  lemma SettledIsFull(db: Db, answer: OrderId -> BrokerResult, k: nat)
    requires Tidy(db) && Settled(Advance(db, answer, k), answer)
    ensures Advance(db, answer, k) == FullDelivery(db, answer)
  {
    hide Settled, Advance, Tidy;
    var j := FullIsSettled(db, answer);
    SettledIsUnique(db, answer, j, k);
  }

  lemma {:induction false} AdvanceIsTidy(db: Db, answer: OrderId -> BrokerResult, k: nat)
    requires Tidy(db)
    ensures Tidy(Advance(db, answer, k)) && SameQueue(db.outbox, Advance(db, answer, k).outbox)
    decreases k
  {
    hide NextCommit, Tidy, Stage;
    if k > 0 && NextCommit(db, answer).Ok? && NextCommit(db, answer).value.Some? {
      CommitDescends(db, answer);
      AdvanceIsTidy(NextCommit(db, answer).value.value, answer, k - 1);
    }
  }

  /** However many commits were made, the rest leads to the same end. */
  lemma FullAfter(db: Db, answer: OrderId -> BrokerResult, k: nat)
    requires Tidy(db)
    ensures Tidy(Advance(db, answer, k)) && FullDelivery(Advance(db, answer, k), answer) == FullDelivery(db, answer)
  {
    hide Settled, Advance, Tidy;
    AdvanceIsTidy(db, answer, k);
    var middle := Advance(db, answer, k);
    var j := FullIsSettled(middle, answer);
    AdvanceSplit(db, answer, k, j);
    SettledIsFull(db, answer, k + j);
  }

  // ---- Only the answers to the outbox rows matter ----

  /** The brokers give the same answers to the orders in the outbox. */
  ghost predicate Agree(outbox: seq<OutboxRow>, a: OrderId -> BrokerResult, b: OrderId -> BrokerResult) {
    forall i :: 0 <= i < |outbox| ==> a(outbox[i].order) == b(outbox[i].order)
  }

  lemma AgreeOnNext(db: Db, a: OrderId -> BrokerResult, b: OrderId -> BrokerResult)
    requires Agree(db.outbox, a, b)
    ensures NextCommit(db, a) == NextCommit(db, b)
  {
    hide Named, TransitionFill, FirstOpenFill, Delivered, FillEvent;
    FirstIsRow(db.outbox);
  }

  lemma {:induction false} FirstIsRow(outbox: seq<OutboxRow>)
    ensures FirstPending(outbox).Some? ==> exists i :: 0 <= i < |outbox| && outbox[i] == FirstPending(outbox).value
  {
    if outbox != [] && outbox[0].delivered.Some? {
      FirstIsRow(outbox[1..]);
      if FirstPending(outbox).Some? {
        var i :| 0 <= i < |outbox[1..]| && outbox[1..][i] == FirstPending(outbox[1..]).value;
        assert outbox[i + 1] == FirstPending(outbox).value;
      }
    }
  }

  lemma {:induction false} AgreeOnAdvance(db: Db, a: OrderId -> BrokerResult, b: OrderId -> BrokerResult, k: nat)
    requires Tidy(db) && Agree(db.outbox, a, b)
    ensures Advance(db, a, k) == Advance(db, b, k)
    decreases k
  {
    hide NextCommit, Tidy, Stage;
    AgreeOnNext(db, a, b);
    if k > 0 && NextCommit(db, a).Ok? && NextCommit(db, a).value.Some? {
      CommitDescends(db, a);
      AgreeOnAdvance(NextCommit(db, a).value.value, a, b, k - 1);
    }
  }

  /** Brokers that agree on the outbox lead to the same end. */
  lemma AgreeOnFull(db: Db, a: OrderId -> BrokerResult, b: OrderId -> BrokerResult)
    requires Tidy(db) && Agree(db.outbox, a, b)
    ensures FullDelivery(db, a) == FullDelivery(db, b)
  {
    hide NextCommit, Advance, Tidy;
    var k := FullIsSettled(db, a);
    AgreeOnAdvance(db, a, b, k);
    AdvanceIsTidy(db, a, k);
    AgreeOnNext(Advance(db, a, k), a, b);
    SettledIsFull(db, b, k);
  }

  // ---- Crash recovery ----

  /** A delivery that dies: the broker it talked to, and its number of effective commits. */
  datatype Attempt = Attempt(answer: OrderId -> BrokerResult, commits: nat)

  ghost function AdvanceAll(db: Db, attempts: seq<Attempt>): Db
    decreases |attempts|
  {
    if attempts == [] then db else AdvanceAll(Advance(db, attempts[0].answer, attempts[0].commits), attempts[1..])
  }

  /**
   Exactly-once delivery: however many deliveries die, after whatever commits and against whatever brokers that answer
   the orders of the outbox alike, what is left leads to the database of one uninterrupted delivery.
   */
  lemma {:induction false} CrashRecovery(db: Db, answer: OrderId -> BrokerResult, attempts: seq<Attempt>)
    requires Tidy(db) && forall k :: 0 <= k < |attempts| ==> Agree(db.outbox, attempts[k].answer, answer)
    ensures Tidy(AdvanceAll(db, attempts))
    ensures FullDelivery(AdvanceAll(db, attempts), answer) == FullDelivery(db, answer)
    ensures Settled(AdvanceAll(db, attempts), answer) ==> AdvanceAll(db, attempts) == FullDelivery(db, answer)
    decreases |attempts|
  {
    hide Tidy, Advance, FullDelivery, Settled, Agree;
    if attempts != [] {
      var own, k := attempts[0].answer, attempts[0].commits;
      var next := Advance(db, own, k);
      AdvanceIsTidy(db, own, k);
      AgreeOnAdvance(db, own, answer, k);
      FullAfter(db, answer, k);
      forall i | 0 <= i < |attempts[1..]|
        ensures Agree(next.outbox, attempts[1..][i].answer, answer)
      {
        assert attempts[1..][i] == attempts[i + 1];
        AgreeInQueue(db.outbox, next.outbox, attempts[i + 1].answer, answer);
      }
      CrashRecovery(next, answer, attempts[1..]);
    } else {
      SettledAlready(db, answer);
    }
  }

  lemma AgreeInQueue(outbox: seq<OutboxRow>, after: seq<OutboxRow>, a: OrderId -> BrokerResult,
                     b: OrderId -> BrokerResult)
    requires SameQueue(outbox, after)
    ensures Agree(outbox, a, b) <==> Agree(after, a, b)
  {
  }

  lemma SettledAlready(db: Db, answer: OrderId -> BrokerResult)
    requires Tidy(db)
    ensures Settled(db, answer) ==> db == FullDelivery(db, answer)
  {
    hide Tidy, Settled, FullDelivery;
    assert Advance(db, answer, 0) == db;
    if Settled(db, answer) {
      SettledIsFull(db, answer, 0);
    }
  }
}
