/** Two runs with a session that has no quotes: one holds a position at its close, the other nothing. */
module UnquotedRuns {
  import opened Backtest
  import opened BacktestJournal
  import opened EngineJournal
  import opened EngineModel
  import opened EnginePlans
  import opened EngineReports
  import opened FeeTax
  import opened LedgerCalls
  import PendingOrders
  import opened Replay
  import opened SessionTrades
  import opened Simulation
  import opened Sorting
  import opened TickRounding
  import opened Wrappers

  // ---- A ledger that ages what it holds ----

  predicate Bought(history: seq<LedgerOp>) {
    exists i :: 0 <= i < |history| && history[i].Applied?
  }

  /** How often positions were aged without marks since the first fill. */
  function Staleness(history: seq<LedgerOp>): nat {
    if history == [] then 0
    else
      var before := history[..|history| - 1];
      Staleness(before) + if Bought(before) && history[|history| - 1] == Aged({}) then 1 else 0
  }

  const COUNTING_LEDGER := Ledger(h => true, h => [], h => 0, h => 0, (h, t) => Some(Staleness(h)), h => 0,
                                  h => Bought(h))

  lemma {:induction false} IdleAgeing(h: seq<LedgerOp>, more: seq<LedgerOp>)
    requires !Bought(h)
    ensures Staleness(h + [Aged({})] + more) == Staleness(h + more)
    ensures Bought(h + [Aged({})] + more) <==> Bought(h + more)
  {
    var one, other := h + [Aged({})] + more, h + more;
    if more == [] {
      assert one[..|one| - 1] == h && other == h;
      BoughtNext(one);
    } else {
      var n := |more| - 1;
      IdleAgeing(h, more[..n]);
      assert one[..|one| - 1] == h + [Aged({})] + more[..n] && other[..|other| - 1] == h + more[..n];
      BoughtNext(one);
      BoughtNext(other);
    }
  }

  lemma BoughtNext(h: seq<LedgerOp>)
    requires h != []
    ensures Bought(h) <==> Bought(h[..|h| - 1]) || h[|h| - 1].Applied?
  {
    var before := h[..|h| - 1];
    if i :| 0 <= i < |h| && h[i].Applied? {
      assert i < |h| - 1 ==> before[i].Applied?;
    }
    if i :| 0 <= i < |before| && before[i].Applied? {
      assert h[i].Applied?;
    }
  }

  /** Such ledgers exist, with and without positions. */
  lemma CountingLedgerAges()
    ensures AgesHoldings(COUNTING_LEDGER)
    ensures !COUNTING_LEDGER.holds([]) && forall fill, date :: COUNTING_LEDGER.holds([Applied(fill, date)])
  {
    forall h: seq<LedgerOp>
      ensures if COUNTING_LEDGER.holds(h) then AgeingShows(COUNTING_LEDGER, h)
              else Same(COUNTING_LEDGER, h, h + [Aged({})])
    {
      var aged := h + [Aged({})];
      assert aged[..|h|] == h;
      if !Bought(h) {
        forall more: seq<LedgerOp>
          ensures SameAnswers(COUNTING_LEDGER, h + more, aged + more)
        {
          IdleAgeing(h, more);
        }
      }
    }
    forall fill, date
      ensures COUNTING_LEDGER.holds([Applied(fill, date)])
    {
      assert [Applied(fill, date)][0].Applied?;
    }
  }

  // ---- A fill in the journal is a position ----

  /** Once a journal tells of a fill, the calls behind any longer part of it contain one. */
  lemma {:induction false} FillIsBought(keys: int -> set<int>, events: seq<Event>, i: nat, n: nat)
    requires i < n <= |events| && IsFill(events[i])
    ensures Bought(Calls(keys, events[..n]))
    decreases n
  {
    hide Calls, CallsFor;
    var before, e := events[..n - 1], events[n - 1];
    assert events[..n] == before + [e];
    CallsNext(keys, before, e);
    var calls, more := Calls(keys, before), CallsFor(keys, before, e);
    if i < n - 1 {
      FillIsBought(keys, events, i, n - 1);
      var k :| 0 <= k < |calls| && calls[k].Applied?;
      assert (calls + more)[k].Applied?;
    } else {
      FillIsCalled(keys, before, e);
      assert (calls + more)[|calls|].Applied?;
    }
  }

  lemma FillIsCalled(keys: int -> set<int>, events: seq<Event>, e: Event)
    requires IsFill(e)
    ensures |CallsFor(keys, events, e)| == 1 && CallsFor(keys, events, e)[0].Applied?
  {
  }

  /** An approved order that fills leaves its fill in the journal. */
  lemma OrderLeavesFill(events: seq<Event>, time: int, x: Executed, cancel: bool)
    requires x.approved && x.outcome.fill.Some?
    ensures var after := EmitOrder(events, time, x, cancel);
            |after| > |events| + 2 && IsFill(after[|events| + 2]) && after[|events| + 2].time == time
  {
    var id := x.planned.id;
    var decided := AddAll(events, time, Some(x.planned.event), [RiskDecided(id, Approve)]);
    var report := [OrderReserved(id, id.quantity, Active)] + Settlement(id, x.outcome, x.due, cancel);
    assert |decided| == |events| + 1 && report[1].FillReceived?;
    assert EmitOrder(events, time, x, cancel)[|decided| + 1].payload == report[1];
  }

  lemma {:induction false} OrdersLeaveFill(events: seq<Event>, time: int, xs: seq<Executed>, cancel: bool, k: nat)
      returns (i: nat)
    requires k < |xs| && xs[k].approved && xs[k].outcome.fill.Some?
    ensures var after := EmitOrders(events, time, xs, cancel);
            i < |after| && IsFill(after[i]) && after[i].time == time
    decreases |xs|
  {
    hide EmitOrder, IsFill;
    var most := xs[..|xs| - 1];
    var before := EmitOrders(events, time, most, cancel);
    if k == |xs| - 1 {
      OrderLeavesFill(before, time, xs[k], cancel);
      i := |before| + 2;
    } else {
      i := OrdersLeaveFill(events, time, most, cancel, k);
      OrderKeepsPrefix(before, time, xs[|xs| - 1], cancel);
    }
  }

  lemma OrderKeepsPrefix(events: seq<Event>, time: int, x: Executed, cancel: bool)
    ensures events <= EmitOrder(events, time, x, cancel)
  {
  }

  /** A fill before a session's close is behind its closing report. */
  lemma FillBeforeClose(keys: int -> set<int>, events: seq<Event>, i: nat, s: Session, targets: seq<Target>)
    requires WellFormed(events) && Reported(events, targets, s)
    requires i < |events| && IsFill(events[i]) && events[i].time < s.close
    ensures Bought(Closing(keys, events, s.close))
  {
    hide HasReport, Targets, Opens, Closes, Calls, ReportAt, WellFormed, IsFill;
    var k := ReportIs(events, s.close);
    IsReported(events, k, s.close);
    var n := ReportAt(events, s.close);
    if n <= i {
      InOrder(events, n, i);
    }
    FillIsBought(keys, events, i, n);
  }

  // ---- The runs ----

  const FEES := FeeTaxPolicy(0.0, 1.0, 0.0, 0.0)
  const FILLS := FillPolicy(0.0, 1.0, true, true)
  const CONFIG := Config([1, 2], 0, FILLS, FEES)
  const SHARE := Quote(7, 1980, 1.0, 1.0, 100, false, false)

  /** A day on which one share class trades, and a day without quotes. */
  const TRADING_DAY := Session(1, 1000, 1980, 2250, [SHARE], map[7 := 1.0])
  const QUIET_DAY := Session(2, 2440, 3420, 3690, [], map[])

  /** A strategy that buys whatever is quoted, with ten to spend. */
  const BUYER := World(
    (s: Session) => if s.quotes == [] then [] else [Target(7, s.decision, 1.0, true, true)],
    (h: seq<LedgerOp>, instrument: int) => 0,
    (h: seq<LedgerOp>, time: int) => 10.0,
    (h: seq<LedgerOp>, book: map<IntentId, PendingOrders.OrderReservation>, id: IntentId, price: real) => true)

  /** Ten buys at least one share at a price of one. */
  lemma TenBuys(order: Option<(Side, int)>)
    requires IsSized(Some(FEES), Budget(10.0, 1.0), 1.0, 0, order)
    ensures order.Some? && order.value.0 == Buy && order.value.1 > 0
  {
    assert Gross(1.0, 1) == 1.0 && FEES.Fee(1.0) == 0;
    assert Fits(FEES, 10.0, 1.0, 0, 1);
  }

  lemma ShareFills(id: IntentId, outcome: FillOutcome)
    requires id.quantity > 0 && IsOutcome(FILLS, FEES, id, SHARE, outcome)
    ensures outcome.fill.Some?
  {
    assert Capacity(FILLS, 100) == 100;
  }

  lemma BuyerPlans(h: seq<LedgerOp>, planned: seq<Planned>) returns (p: Planned)
    requires PlansExactly(CONFIG, BUYER, TRADING_DAY, h, planned)
    ensures p in planned && p.id.instrument == 7 && p.id.quantity > 0
  {
    hide IsSized, Budget;
    var t := Target(7, 1000, 1.0, true, true);
    assert BUYER.targets(TRADING_DAY) == [t] && t in BUYER.targets(TRADING_DAY);
    assert FollowsTarget(FEES, BUYER, TRADING_DAY, h, t, planned);
    var order: Option<(Side, int)> :|
      && IsSized(Some(FEES), Budget(10.0, 1.0), 1.0, 0, order) && PlansOrder(planned, 1000, 7, order);
    TenBuys(order);
    p :| p in planned && p.id == IntentId(7, 1000, Buy, order.value.1);
  }

  /** The buyer's order of the trading day is in the journal, filled. */
  lemma BuyerFills(ledger: Ledger, keys: int -> set<int>, events: seq<Event>) returns (i: nat)
    requires Traded(CONFIG, BUYER, ledger, keys, events, TRADING_DAY)
    ensures i < |events| && IsFill(events[i]) && events[i].time == 1980
  {
    hide PlansExactly, IsOutcome, IsBestPrice, RawPrice, DayStart, EmitOrders, IsFill, Announced, Calls, BookOf;
    var planned: seq<Planned>, from: nat, xs: seq<Executed> :|
      TradesAs(CONFIG, BUYER, ledger, keys, events, TRADING_DAY, planned, from, xs);
    var p := BuyerPlans(Calls(keys, events[..DayStart(events, 1)]), planned);
    SortedMembers(planned, TradesBefore);
    var k :| 0 <= k < |PlansOf(xs)| && PlansOf(xs)[k] == p;
    ShareFills(xs[k].planned.id, xs[k].outcome);
    i := OrdersLeaveFill(events[..from], 1980, xs, true, k);
    assert events[i] == EmitOrders(events[..from], 1980, xs, true)[i];
  }

  // ---- The same days with nothing bought ----

  /** A strategy without targets. */
  const IDLER := BUYER.(targets := (s: Session) => [])

  lemma SomeMember<T(!new)>(s: seq<T>)
    ensures s == [] || exists x :: x in s
  {
    if s != [] {
      assert s[0] in s;
    }
  }

  /** Without targets a session plans nothing, and its day has no trades. */
  lemma IdlerTradesNothing(ledger: Ledger, keys: int -> set<int>, events: seq<Event>, s: Session)
    requires Traded(CONFIG, IDLER, ledger, keys, events, s)
    ensures forall i :: 0 <= i < |events| && IsTrade(events[i].payload) ==> DateOf(events[i].time) != s.tradeDate
  {
    hide AreHonest, Announced, Calls, BookOf, DayStart, IsTrade;
    var planned: seq<Planned>, from: nat, xs: seq<Executed> :|
      TradesAs(CONFIG, IDLER, ledger, keys, events, s, planned, from, xs);
    SortedMembers(planned, TradesBefore);
    assert Instrumented(IDLER.targets(s)) == {};
    SomeMember(planned);
    SomeMember(PlansOf(xs));
  }

  lemma {:induction false} NothingBought(keys: int -> set<int>, events: seq<Event>)
    requires forall i :: 0 <= i < |events| ==> !IsTrade(events[i].payload)
    ensures !Bought(Calls(keys, events))
  {
    if events != [] {
      NothingBought(keys, events[..|events| - 1]);
    }
  }

  // ---- Nothing hinders the runs ----

  const DAYS := [TRADING_DAY, QUIET_DAY]

  lemma DaysAreValid()
    ensures CONFIG.Valid() && (forall s <- DAYS :: s.Valid()) && ValidInputs(CONFIG, DAYS, [])
    ensures FinalDue(CONFIG, DAYS) == 2 && SessionOn(DAYS, 1) == Some(TRADING_DAY)
    ensures SessionOn(DAYS, 2) == Some(QUIET_DAY)
  {
    assert IndexOf([2], 2) == Some(0);
    assert DAYS[1..] == [QUIET_DAY] && SessionOn([QUIET_DAY], 2) == Some(QUIET_DAY);
  }

  lemma DaysAreSizeable(world: World)
    requires world == BUYER || world == IDLER
    ensures AllSizeable(world, DAYS) && Unhindered(CONFIG, world, COUNTING_LEDGER, DAYS)
  {
    assert RawPrice(0.0, Sell, 1.0) == 1.0 && TRADING_DAY.quotes[0].instrument == 7;
    assert MeetsContract(TRADING_DAY, Target(7, 1000, 1.0, true, true));
    forall s | s in DAYS
      ensures Sizeable(world, s) && Sellable(FILLS, s.quotes)
    {
      assert s == TRADING_DAY || s == QUIET_DAY;
    }
  }

  lemma DaysArePunctual(world: World)
    requires world == BUYER || world == IDLER
    requires FinalDue(CONFIG, DAYS) == 2 && SessionOn(DAYS, 1) == Some(TRADING_DAY)
    requires SessionOn(DAYS, 2) == Some(QUIET_DAY)
    ensures Punctual(CONFIG, world, DAYS)
  {
    hide SessionOn, FinalDue;
    assert EndBefore(CONFIG, DAYS, 0) == 999 && EndBefore(CONFIG, DAYS, 1) == 2250;
  }

  /** What is bought on the trading day is held when the quiet day closes: its journal is complete, and rejected. */
  method RunHolding() returns (events: seq<Event>)
    ensures Truthful(COUNTING_LEDGER, ClosesOf(events), events)
    ensures Backtest.Complete(events, CONFIG, BUYER, DAYS, [])
    ensures EverythingTraded(CONFIG, BUYER, COUNTING_LEDGER, events, DAYS)
    ensures COUNTING_LEDGER.holds(Closing(ClosesOf(events), events, QUIET_DAY.close))
    ensures !Accepted(COUNTING_LEDGER, events)
  {
    hide Truthful, Accepted, Closing, Traded, IsTrade, WellFormed, Punctual, AllSizeable, Unhindered, SessionOn,
         FinalDue, ValidInputs, Reported, Accounted, AgesHoldings;
    DaysAreValid();
    DaysAreSizeable(BUYER);
    DaysArePunctual(BUYER);
    CountingLedgerAges();
    var r := Run(CONFIG, BUYER, COUNTING_LEDGER, DAYS, []);
    events := r.value;
    assert TRADING_DAY in DAYS && QUIET_DAY in DAYS;
    ghost var i := BuyerFills(COUNTING_LEDGER, ClosesOf(events), events);
    FillBeforeClose(ClosesOf(events), events, i, QUIET_DAY, BUYER.targets(QUIET_DAY));
  }

  /** With nothing bought, the same days leave a journal that is accepted. */
  method RunIdle() returns (events: seq<Event>)
    ensures Truthful(COUNTING_LEDGER, ClosesOf(events), events)
    ensures Backtest.Complete(events, CONFIG, IDLER, DAYS, [])
    ensures EverythingTraded(CONFIG, IDLER, COUNTING_LEDGER, events, DAYS)
    ensures Accepted(COUNTING_LEDGER, events)
  {
    hide Truthful, Accepted, Traded, IsTrade, WellFormed, Punctual, AllSizeable, Unhindered, SessionOn,
         FinalDue, ValidInputs, Reported, Accounted, AgesHoldings;
    DaysAreValid();
    DaysAreSizeable(IDLER);
    DaysArePunctual(IDLER);
    CountingLedgerAges();
    var r := Run(CONFIG, IDLER, COUNTING_LEDGER, DAYS, []);
    events := r.value;
    assert TRADING_DAY in DAYS && QUIET_DAY in DAYS;
    IdlerTradesNothing(COUNTING_LEDGER, ClosesOf(events), events, TRADING_DAY);
    IdlerTradesNothing(COUNTING_LEDGER, ClosesOf(events), events, QUIET_DAY);
    forall s | s in DAYS && s.quotes == []
      ensures !COUNTING_LEDGER.holds(Closing(ClosesOf(events), events, s.close))
    {
      NothingBought(ClosesOf(events), events[..ReportAt(events, s.close)]);
    }
  }
}
