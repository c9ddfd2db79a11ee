/** Runs against one paper broker, whatever its participation cap: safety, and a bound on every order's life. */
module PaperRuns {
  import opened FeeTax
  import opened OmsInvariant
  import opened OmsLifetime
  import opened OmsModel
  import opened OmsReachable
  import opened OmsRecovery
  import opened OmsRuns
  import opened PaperBroker
  import opened PaperDelivery

  /** A broker that fills an order at most once. */
  ghost predicate SingleFills(answer: OrderId -> BrokerResult) {
    forall id: OrderId :: |answer(id).fills| <= 1
  }

  /** Every recorded fill is one the broker reported for its order. */
  ghost predicate FromBroker(db: Db, answer: OrderId -> BrokerResult) {
    forall i :: 0 <= i < |db.fills| ==> db.fills[i].fill in answer(db.fills[i].order).fills
  }

  /** Deliveries of the run go to the one paper broker, and so do its cancels and replaces. */
  ghost predicate AgainstPaper(calls: seq<Call>, market: map<string, MarketEvent>, p: BrokerPolicy) {
    forall call :: call in calls ==> PaperStatus(call) && (call.Deliver? ==> call.answer == PaperAnswers(market, p))
  }

  lemma PaperFillsOnce(market: map<string, MarketEvent>, p: BrokerPolicy)
    ensures SingleFills(PaperAnswers(market, p))
  {
    forall id: OrderId
      ensures |PaperAnswers(market, p)(id).fills| <= 1
    {
      RespondFacts(market, p, id);
    }
  }

  /** A paper broker with a participation cap of zero or more reports no negative fill. */
  lemma PaperFillsForward(market: map<string, MarketEvent>, p: BrokerPolicy)
    requires p.participationCap >= 0.0
    ensures NonNegativeFills(PaperAnswers(market, p))
  {
    forall id: OrderId, i | id.quantity >= 1 && 0 <= i < |PaperAnswers(market, p)(id).fills|
      ensures PaperAnswers(market, p)(id).fills[i].quantity >= 0
    {
      var m := market[id.instrument];
      assert m.volume as real * p.participationCap >= 0.0;
    }
  }

  lemma {:induction false} RowsAreOwn(fills: seq<FillRow>, id: OrderId, r: FillRow)
    requires r in RowsOf(fills, id)
    ensures r.order == id
  {
    if fills != [] && r in RowsOf(fills[..|fills| - 1], id) {
      RowsAreOwn(fills[..|fills| - 1], id, r);
    }
  }

  /** What is recorded of an order is the broker's one fill of it. */
  lemma RowIsTheFill(db: Db, answer: OrderId -> BrokerResult, id: OrderId, r: FillRow)
    requires FromBroker(db, answer) && SingleFills(answer) && r in RowsOf(db.fills, id)
    ensures answer(id).fills == [r.fill] && r in db.fills
  {
    RowsAreOwn(db.fills, id, r);
    RowOfIsRow(db.fills, id, r);
    var k :| 0 <= k < |db.fills| && db.fills[k] == r;
    assert db.fills[k].fill in answer(db.fills[k].order).fills;
    assert |answer(id).fills| <= 1;
  }

  lemma FilledHasRow(db: Db, id: OrderId)
    requires Inv(db) && id in db.orders && db.orders[id].filled > 0
    ensures RowsOf(db.fills, id) != []
  {
    hide Inv, ReservationOk, WasSubmitted, FoldOrder, GoodJournal, FillsIn, RowsOf;
    RowParts(db, id);
  }

  /** An order filled by such a broker has nothing left to record, so only a positive fill is ever accepted. */
  lemma SingleNext(db: Db, answer: OrderId -> BrokerResult)
    requires Inv(db) && FromBroker(db, answer) && SingleFills(answer)
    ensures NextFillsAtLeast(db, answer, 1)
  {
    hide Inv, Transition, NamedEvent, FillEvent, FirstOpenFill, TransitionFill, FromBroker, RowsOf;
    if NextCommit(db, answer).Ok? && NextCommit(db, answer).value.Some? {
      var row := FirstPending(db.outbox).value;
      var o, result, after := db.orders[row.order], answer(row.order), NextCommit(db, answer).value.value;
      OrderFacts(db, row.order);
      PlainFills(db);
      if |after.fills| > |db.fills| {
        var fill := FirstOpenFill(db.fills, result.fills).value.value;
        FirstOpenFillIsOne(db.fills, result.fills);
        FillIsAppended(db, o.id, FillEvent(o, fill), o.version, fill);
        if o.filled > 0 {
          FilledHasRow(db, o.id);
          var r := RowsOf(db.fills, o.id)[0];
          RowIsTheFill(db, answer, o.id, r);
          var k :| 0 <= k < |db.fills| && db.fills[k] == r;
          RowsAreFound(db.fills, k);
          assert false;
        }
      }
    }
  }

  lemma NextCommitFrom(db: Db, answer: OrderId -> BrokerResult)
    requires Inv(db) && FromBroker(db, answer)
    requires NextCommit(db, answer).Ok? && NextCommit(db, answer).value.Some?
    ensures FromBroker(NextCommit(db, answer).value.value, answer)
  {
    hide Inv, Transition, NamedEvent, FillEvent, FirstOpenFill, TransitionFill;
    var row := FirstPending(db.outbox).value;
    var o, result, after := db.orders[row.order], answer(row.order), NextCommit(db, answer).value.value;
    OrderFacts(db, row.order);
    PlainFills(db);
    if after.fills != db.fills {
      var fill := FirstOpenFill(db.fills, result.fills).value.value;
      FirstOpenFillIsOne(db.fills, result.fills);
      FillIsAppended(db, o.id, FillEvent(o, fill), o.version, fill);
    }
  }

  /** Delivery to one such broker keeps everything, whatever it fills. */
  lemma {:induction false} AdvanceSingle(db: Db, answer: OrderId -> BrokerResult, commits: nat, cash: real,
                                         inventory: string -> int)
    requires Inv(db) && FromBroker(db, answer) && SingleFills(answer) && Within(db, cash, inventory)
    ensures var after := Advance(db, answer, commits);
            Inv(after) && FromBroker(after, answer) && Within(after, cash, inventory)
    ensures forall id :: BrokerEvents(db, id) ==> BrokerEvents(Advance(db, answer, commits), id)
    decreases commits
  {
    hide Inv, NextCommit, FromBroker, SingleFills, BrokerEvents;
    if commits > 0 && NextCommit(db, answer).Ok? && NextCommit(db, answer).value.Some? {
      SingleNext(db, answer);
      NextCommitFrom(db, answer);
      AtLeastOneIsForward(db, answer);
      NextCommitKeeps(db, answer);
      var after := NextCommit(db, answer).value.value;
      forall id | BrokerEvents(db, id)
        ensures BrokerEvents(after, id)
      {
        NextCommitWrites(db, id, answer);
      }
      AdvanceSingle(after, answer, commits - 1, cash, inventory);
    }
  }

  lemma AtLeastOneIsForward(db: Db, answer: OrderId -> BrokerResult)
    requires NextFillsAtLeast(db, answer, 1)
    ensures NextFillsAtLeast(db, answer, 0)
  {
    hide NextCommit;
  }

  /**
    * Over every run against one paper broker, with any participation cap: the invariant, the bounds on reserved cash
    * and inventory, and every recorded fill is the one the broker reports.
    */
  lemma {:induction false} PaperRunIsSafe(fees: FeeTaxPolicy, calls: seq<Call>, market: map<string, MarketEvent>,
                                          p: BrokerPolicy)
    requires fees.Valid() && AgainstPaper(calls, market, p)
    ensures Inv(Run(fees, calls)) && FromBroker(Run(fees, calls), PaperAnswers(market, p))
    ensures ReservedCash(Run(fees, calls)) <= MaxCash(calls)
    ensures forall instrument :: ReservedSell(Run(fees, calls), instrument) <= MaxPosition(calls, instrument) as real
    ensures forall id :: BrokerEvents(Run(fees, calls), id)
  {
    hide Inv, After, FromBroker, SingleFills, BrokerEvents, PaperStatus;
    PaperFillsOnce(market, p);
    if calls == [] {
      EmptyIsSafe();
      NothingFromBroker(PaperAnswers(market, p));
    } else {
      var earlier, last := calls[..|calls| - 1], calls[|calls| - 1];
      PaperRunIsSafe(fees, earlier, market, p);
      var db := Run(fees, earlier);
      var inventory := instrument => MaxPosition(calls, instrument);
      if last.Deliver? {
        DeliverIsAdvance(db, fees, last);
        AdvanceSingle(db, PaperAnswers(market, p), last.commits, MaxCash(calls), inventory);
      } else {
        AfterKeeps(db, fees, last, MaxCash(calls), inventory);
        OnlyDeliveryFills(db, fees, last);
        SameFillsFrom(db, After(db, fees, last), PaperAnswers(market, p));
        forall id
          ensures BrokerEvents(After(db, fees, last), id)
        {
          CallWrites(db, id, fees, last);
        }
      }
    }
  }

  lemma NothingFromBroker(answer: OrderId -> BrokerResult)
    ensures FromBroker(EMPTY_DB, answer) && forall id :: BrokerEvents(EMPTY_DB, id)
  {
  }

  lemma SameFillsFrom(db: Db, after: Db, answer: OrderId -> BrokerResult)
    requires FromBroker(db, answer) && after.fills == db.fills
    ensures FromBroker(after, answer)
  {
  }

  // ---- The bound ----

  lemma {:induction false} HasFillTag(journal: seq<Event>)
    requires FillCount(journal) >= 1
    ensures exists i :: 0 <= i < |journal| && journal[i].business.FillTag?
  {
    var n := |journal| - 1;
    if !journal[n].business.FillTag? {
      HasFillTag(journal[..n]);
      var i :| 0 <= i < n && journal[..n][i].business.FillTag?;
      assert journal[i].business.FillTag?;
    }
  }

  lemma {:induction false} HasTwoFillTags(journal: seq<Event>)
    requires FillCount(journal) >= 2
    ensures exists i, k :: 0 <= i < k < |journal| && journal[i].business.FillTag? && journal[k].business.FillTag?
  {
    var n := |journal| - 1;
    if journal[n].business.FillTag? {
      HasFillTag(journal[..n]);
      var i :| 0 <= i < n && journal[..n][i].business.FillTag?;
      assert journal[i].business.FillTag? && journal[n].business.FillTag?;
    } else {
      HasTwoFillTags(journal[..n]);
      var i, k :| 0 <= i < k < n && journal[..n][i].business.FillTag? && journal[..n][k].business.FillTag?;
      assert journal[i].business.FillTag? && journal[k].business.FillTag?;
    }
  }

  /** Such a broker's order has at most one fill event. */
  lemma OneFillEvent(db: Db, answer: OrderId -> BrokerResult, id: OrderId)
    requires Inv(db) && FromBroker(db, answer) && SingleFills(answer) && id in db.orders
    ensures FillCount(JournalOf(db, id)) <= 1
  {
    hide Inv, ReservationOk, WasSubmitted, FoldOrder, FillsIn, RowsOf, FilledSum, FillCount, FromBroker, SingleFills;
    RowParts(db, id);
    var journal := db.journal[id];
    if FillCount(journal) >= 2 {
      HasTwoFillTags(journal);
      var i, k :| 0 <= i < k < |journal| && journal[i].business.FillTag? && journal[k].business.FillTag?;
      TaggedIsFiled(id, journal, i);
      TaggedIsFiled(id, journal, k);
      var r :| r in FillsIn(id, journal) && r.fill.identity == journal[i].business.identity;
      var q :| q in FillsIn(id, journal) && q.fill.identity == journal[k].business.identity;
      RowIsTheFill(db, answer, id, r);
      RowIsTheFill(db, answer, id, q);
      assert false;
    }
  }

  /**
    * Over every run against one paper broker, with any participation cap, an order's journal has at most 13 events plus
    * its quantity, and never more than fifteen.
    */
  lemma PaperJournalIsBounded(fees: FeeTaxPolicy, calls: seq<Call>, market: map<string, MarketEvent>, p: BrokerPolicy,
                              id: OrderId)
    requires fees.Valid() && AgainstPaper(calls, market, p) && id in Run(fees, calls).orders
    ensures |JournalOf(Run(fees, calls), id)| <= 13 + id.quantity
    ensures |JournalOf(Run(fees, calls), id)| <= 15
  {
    hide Inv, Run, BrokerEvents, FromBroker, SingleFills, AgainstPaper, FillCount;
    PaperRunIsSafe(fees, calls, market, p);
    PaperFillsOnce(market, p);
    OneFillEvent(Run(fees, calls), PaperAnswers(market, p), id);
    BrokerJournalIsBounded(Run(fees, calls), id);
  }
}
