/** What a journal tells of the orders of a session, from the decisions to the last fill. */
module SessionTrades {
  import opened BacktestJournal
  import opened EngineJournal
  import opened EngineModel
  import opened EnginePlans
  import opened EngineReports
  import opened LedgerCalls
  import opened Replay
  import opened Sorting

  /** Every event but the opening of the run and the decisions, which come before the day they are for. */
  predicate BelongsToDay(payload: Payload) {
    !payload.RunStarted? && !payload.TargetSet? && !payload.IntentCreated?
  }

  /** All days of the journal lie before the date. */
  ghost predicate BelongsBefore(events: seq<Event>, date: int) {
    forall e <- events :: BelongsToDay(e.payload) ==> DateOf(e.time) < date
  }

  /** A close or a day without orders keeps to its day. */
  lemma BelongsAfter(before: seq<Event>, after: seq<Event>, date: int, time: int)
    requires BelongsBefore(before, date) && before <= after && DateOf(time) < date
    requires forall i :: |before| <= i < |after| ==> after[i].time == time
    ensures BelongsBefore(after, date)
  {
    hide BelongsToDay;
    forall e | e in after && BelongsToDay(e.payload)
      ensures DateOf(e.time) < date
    {
      var i :| 0 <= i < |after| && after[i] == e;
      if i < |before| {
        assert after[i] == before[i];
      }
    }
  }

  lemma BelongsLater(events: seq<Event>, date: int, later: int)
    requires BelongsBefore(events, date) && date <= later
    ensures BelongsBefore(events, later)
  {
  }

  lemma ClosesBelong(events: seq<Event>, date: int)
    requires BelongsBefore(events, date)
    ensures forall e <- events :: EndsSession(e.payload) ==> DateOf(e.time) < date
  {
  }

  predicate StartsDay(e: Event, date: int) {
    BelongsToDay(e.payload) && DateOf(e.time) >= date
  }

  /** Where a day starts in the journal. */
  function DayStart(events: seq<Event>, date: int): (i: nat)
    ensures i <= |events| && (i < |events| ==> StartsDay(events[i], date))
    ensures forall j :: 0 <= j < i ==> !StartsDay(events[j], date)
  {
    if events == [] || StartsDay(events[0], date) then 0 else 1 + DayStart(events[1..], date)
  }

  lemma DayStartIs(events: seq<Event>, date: int, n: nat)
    requires n < |events| && StartsDay(events[n], date) && forall j :: 0 <= j < n ==> !StartsDay(events[j], date)
    ensures DayStart(events, date) == n
  {
    hide StartsDay;
  }

  /**
    * The session's orders: planned by its targets on the ledger of the evening before, executed in trading order, each
    * over the ledger and the book its predecessors left. Their events stand together, and are the day's only ones.
    */
  ghost predicate TradesAs(config: Config, world: World, ledger: Ledger, keys: int -> set<int>, events: seq<Event>,
                           s: Session, planned: seq<Planned>, from: nat, xs: seq<Executed>) {
    && from <= |events| && DayStart(events, s.tradeDate) < |events|
    && PlansExactly(config, world, s, Calls(keys, events[..DayStart(events, s.tradeDate)]), planned)
    && PlansOf(xs) == Sorted(planned, TradesBefore) && SalesFirst(xs)
    && (forall p <- planned :: Announced(events[..from], p))
    && AreHonest(config, world, ledger, s.quotes, Calls(keys, events[..from]), BookOf(events[..from]), xs)
    && var traded := EmitOrders(events[..from], s.execution, xs, config.fills.cancelUnfilled);
    && traded <= events
    && forall i :: 0 <= i < |events| && IsTrade(events[i].payload) && DateOf(events[i].time) == s.tradeDate ==>
         from <= i < |traded|
  }

  ghost predicate Traded(config: Config, world: World, ledger: Ledger, keys: int -> set<int>, events: seq<Event>,
                         s: Session) {
    exists planned, from: nat, xs :: TradesAs(config, world, ledger, keys, events, s, planned, from, xs)
  }

  /** What is new of a journal trades on one day only. */
  ghost predicate TradesOnly(before: seq<Event>, after: seq<Event>, date: int) {
    forall i :: |before| <= i < |after| && IsTrade(after[i].payload) ==> DateOf(after[i].time) == date
  }

  ghost predicate NoTrades(before: seq<Event>, after: seq<Event>) {
    forall i :: |before| <= i < |after| ==> !IsTrade(after[i].payload)
  }

  /** The stages of a session make its trades. */
  lemma TradesNow(config: Config, world: World, ledger: Ledger, keys: int -> set<int>, s: Session, start: seq<Event>,
                  decided: seq<Event>, settled: seq<Event>, marked: seq<Event>, traded: seq<Event>,
                  planned: seq<Planned>, xs: seq<Executed>)
    requires s.Valid() && BelongsBefore(start, s.tradeDate)
    requires Extends(start, decided, s.decision, false)
    requires Extends(decided, settled, AccountingTime(s.tradeDate), false)
    requires Extends(settled, marked, s.execution, false) && Extends(marked, traded, s.execution, true)
    requires |decided| < |settled| && settled[|decided|].payload.SettlementProcessed?
    requires PlansExactly(config, world, s, Calls(keys, decided), planned)
    requires forall p <- planned :: Announced(decided, p)
    requires PlansOf(xs) == Sorted(planned, TradesBefore) && SalesFirst(xs)
    requires AreHonest(config, world, ledger, s.quotes, Calls(keys, marked), BookOf(marked), xs)
    requires traded == EmitOrders(marked, s.execution, xs, config.fills.cancelUnfilled)
    ensures Traded(config, world, ledger, keys, traded, s)
    ensures BelongsBefore(traded, s.tradeDate + 1) && TradesOnly(start, traded, s.tradeDate)
  {
    hide PlansExactly, SalesFirst, AreHonest, Announced, Calls, BookOf, EmitOrders, PlansOf, DayStart;
    var n := |decided|;
    assert traded[n] == settled[n] && DateOf(traded[n].time) == s.tradeDate;
    forall e | e in traded && BelongsToDay(e.payload)
      ensures DateOf(e.time) <= s.tradeDate
    {
      var i :| 0 <= i < |traded| && traded[i] == e;
      if i < |start| {
        assert traded[i] == start[i];
      }
    }
    forall j | 0 <= j < n
      ensures !StartsDay(traded[j], s.tradeDate)
    {
      assert traded[j] == decided[j];
      if j < |start| {
        assert decided[j] == start[j] && start[j] in start;
      }
    }
    DayStartIs(traded, s.tradeDate, n);
    assert traded[..n] == decided && traded[..|marked|] == marked;
    forall i | 0 <= i < |marked|
      ensures IsTrade(traded[i].payload) ==> DateOf(traded[i].time) != s.tradeDate
    {
      assert traded[i] == marked[i];
      if i < |start| {
        assert traded[i] == start[i] && start[i] in start;
      } else if i < |decided| {
        assert traded[i] == decided[i];
      } else if i < |settled| {
        assert traded[i] == settled[i];
      }
    }
    forall p | p in planned
      ensures Announced(marked, p)
    {
      AnnouncedStays(decided, marked, p);
    }
    assert TradesAs(config, world, ledger, keys, traded, s, planned, |marked|, xs);
  }

  /** A session up to its opening marks: what its stages add to the journal, and the orders they plan. */
  ghost predicate OpenedAs(config: Config, world: World, keys: int -> set<int>, s: Session, today: seq<Action>,
                           start: seq<Event>, decided: seq<Event>, settled: seq<Event>, marked: seq<Event>,
                           planned: seq<Planned>) {
    && Extends(start, decided, s.decision, false)
    && Extends(decided, settled, AccountingTime(s.tradeDate), false)
    && Extends(settled, marked, s.execution, false)
    && |decided| < |settled| && settled[|decided|].payload.SettlementProcessed?
    && Targets(decided, s.decision, world.targets(s)) && Accounted(settled, s.tradeDate, today)
    && Opens(marked, s.execution, s.quotes)
    && PlansExactly(config, world, s, Calls(keys, decided), planned) && forall p <- planned :: Announced(decided, p)
  }

  /** What the orders then add completes the session's trades, and takes nothing away. */
  lemma TradesFollow(config: Config, world: World, ledger: Ledger, keys: int -> set<int>, s: Session,
                     today: seq<Action>, start: seq<Event>, decided: seq<Event>, settled: seq<Event>,
                     marked: seq<Event>, traded: seq<Event>, planned: seq<Planned>, xs: seq<Executed>)
    requires s.Valid() && BelongsBefore(start, s.tradeDate) && ClosesMatch(start, keys)
    requires OpenedAs(config, world, keys, s, today, start, decided, settled, marked, planned)
    requires Extends(marked, traded, s.execution, true) && PlansOf(xs) == Sorted(planned, TradesBefore)
    requires SalesFirst(xs) && AreHonest(config, world, ledger, s.quotes, Calls(keys, marked), BookOf(marked), xs)
    requires traded == EmitOrders(marked, s.execution, xs, config.fills.cancelUnfilled)
    ensures Traded(config, world, ledger, keys, traded, s) && BelongsBefore(traded, s.tradeDate + 1)
    ensures TradesOnly(start, traded, s.tradeDate) && ClosesMatch(traded, keys) && start <= traded
    ensures forall e <- traded :: EndsSession(e.payload) ==> e in start
    ensures Targets(traded, s.decision, world.targets(s)) && Opens(traded, s.execution, s.quotes)
    ensures Accounted(traded, s.tradeDate, today)
  {
    hide Extends, Traded, BelongsBefore, TradesOnly, ClosesMatch, Targets, Opens, Accounted, PlansExactly, Announced,
         AreHonest, EmitOrders, PlansOf, Calls, BookOf, EndsSession, IsTrade, Session.Valid;
    TradesNow(config, world, ledger, keys, s, start, decided, settled, marked, traded, planned, xs);
    NoCloses(start, decided, settled, marked, traded, s.decision, AccountingTime(s.tradeDate), s.execution, keys);
    ReportsUpToTrading(decided, settled, marked, traded, s, world.targets(s), today);
  }

  /** A session's trades stay as they are while other days follow. */
  lemma TradedStays(config: Config, world: World, ledger: Ledger, keys: int -> set<int>, before: seq<Event>,
                    after: seq<Event>, s: Session)
    requires Traded(config, world, ledger, keys, before, s) && before <= after
    requires NoTrades(before, after) || exists date :: TradesOnly(before, after, date) && date != s.tradeDate
    ensures Traded(config, world, ledger, keys, after, s)
  {
    hide PlansExactly, SalesFirst, AreHonest, Announced, Calls, BookOf, EmitOrders, PlansOf, DayStart, StartsDay,
         IsTrade;
    var planned, from: nat, xs :| TradesAs(config, world, ledger, keys, before, s, planned, from, xs);
    var n := DayStart(before, s.tradeDate);
    assert after[n] == before[n];
    DayStartIs(after, s.tradeDate, n);
    assert after[..n] == before[..n] && after[..from] == before[..from];
    forall i | 0 <= i < |after| && IsTrade(after[i].payload) && DateOf(after[i].time) == s.tradeDate
      ensures i < |before| && after[i] == before[i]
    {
    }
    assert TradesAs(config, world, ledger, keys, after, s, planned, from, xs);
  }

  /** It does not matter which keys name the closes. */
  lemma TradedUnder(config: Config, world: World, ledger: Ledger, one: int -> set<int>, other: int -> set<int>,
                    events: seq<Event>, s: Session)
    requires Traded(config, world, ledger, one, events, s)
    requires forall n: nat :: n <= |events| ==> Calls(one, events[..n]) == Calls(other, events[..n])
    ensures Traded(config, world, ledger, other, events, s)
  {
    hide PlansExactly, SalesFirst, AreHonest, Announced, Calls, BookOf, EmitOrders, PlansOf, DayStart;
    var planned, from: nat, xs :| TradesAs(config, world, ledger, one, events, s, planned, from, xs);
    assert TradesAs(config, world, ledger, other, events, s, planned, from, xs);
  }
}
