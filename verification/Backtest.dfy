/** A whole backtest: the journal it emits, and exactly when replay accepts that journal. */
module Backtest {
  import opened BacktestJournal
  import opened Engine
  import opened EngineJournal
  import opened EngineModel
  import opened EngineReports
  import opened LedgerCalls
  import opened Replay
  import ReplaySafety
  import opened SessionTrades
  import opened Sorting
  import opened Wrappers

  function IndexOf(s: seq<int>, x: int): (r: Option<nat>)
    ensures r.Some? <==> x in s
    ensures r.Some? ==> r.value < |s| && s[r.value] == x
  {
    if s == [] then None
    else if s[0] == x then Some(0)
    else match IndexOf(s[1..], x) case None => None case Some(i) => Some(i + 1)
  }

  function DueIndex(config: Config, date: int): Option<nat> {
    match IndexOf(config.calendar, date)
    case None => None
    case Some(i) => if i + config.lag < |config.calendar| then Some(i + config.lag) else None
  }

  /** When the last session settles. */
  function FinalDue(config: Config, sessions: seq<Session>): int
    requires sessions != [] && DueIndex(config, sessions[|sessions| - 1].tradeDate).Some?
  {
    config.calendar[DueIndex(config, sessions[|sessions| - 1].tradeDate).value]
  }

  function SessionOn(sessions: seq<Session>, date: int): (r: Option<Session>)
    ensures r.Some? ==> r.value in sessions && r.value.tradeDate == date
    ensures r.None? ==> forall s <- sessions :: s.tradeDate != date
  {
    if sessions == [] then None
    else if sessions[0].tradeDate == date then Some(sessions[0])
    else SessionOn(sessions[1..], date)
  }

  function ActionsOn(actions: seq<Action>, date: int): (r: seq<Action>)
    ensures forall a :: a in r <==> a in actions && a.date == date
  {
    if actions == [] then []
    else (if actions[0].date == date then [actions[0]] else []) + ActionsOn(actions[1..], date)
  }

  lemma {:induction false} ActionsOnAreDistinct(actions: seq<Action>, date: int)
    requires Distinct(actions, ActionId)
    ensures Distinct(ActionsOn(actions, date), ActionId)
  {
    if actions != [] {
      assert actions == [actions[0]] + actions[1..];
      DistinctCons(actions[0], actions[1..], ActionId);
      ActionsOnAreDistinct(actions[1..], date);
      if actions[0].date == date {
        DistinctCons(actions[0], ActionsOn(actions[1..], date), ActionId);
      }
    }
  }

  predicate SessionsInOrder(sessions: seq<Session>) {
    forall i, j :: 0 <= i < j < |sessions| ==> sessions[i].tradeDate < sessions[j].tradeDate
  }

  /** `_validate_inputs`, with the checks the session and action types make themselves. */
  predicate ValidInputs(config: Config, sessions: seq<Session>, actions: seq<Action>) {
    && sessions != [] && SessionsInOrder(sessions)
    && (forall s <- sessions :: s.tradeDate in config.calendar)
    && DueIndex(config, sessions[|sessions| - 1].tradeDate).Some?
    && Distinct(actions, ActionId)
    && (forall a <- actions :: a.date in config.calendar && sessions[0].tradeDate <= a.date
                               <= FinalDue(config, sessions))
  }

  predicate AllQuoted(sessions: seq<Session>) {
    forall s <- sessions :: s.quotes != []
  }

  /** Sessions on different dates close at different times, so a closing time names one session's instruments. */
  lemma SessionKeysAreItsOwn(sessions: seq<Session>, s: Session)
    requires SessionsInOrder(sessions) && (forall x <- sessions :: x.Valid()) && s in sessions
    ensures SessionKeys(sessions, s.close) == Instruments(s.quotes)
  {
    var k :| 0 <= k < |sessions| && sessions[k] == s;
    forall x | x in sessions && x.close == s.close
      ensures x == s
    {
      var j :| 0 <= j < |sessions| && sessions[j] == x;
      assert x.tradeDate == s.tradeDate;
      assert j == k;
    }
  }

  /** The first date the loop has not processed after `n` steps. */
  function NextDate(calendar: seq<int>, n: nat): int
    requires calendar != [] && n <= |calendar|
  {
    if n < |calendar| then calendar[n] else calendar[|calendar| - 1] + 1
  }

  lemma EverySessionIsReached(config: Config, sessions: seq<Session>, actions: seq<Action>, n: nat, due: int)
    requires config.Valid() && ValidInputs(config, sessions, actions)
    requires due == FinalDue(config, sessions)
    requires n <= |config.calendar| && (n < |config.calendar| ==> config.calendar[n] > due)
    ensures forall s <- sessions :: s.tradeDate < NextDate(config.calendar, n)
  {
    var last := sessions[|sessions| - 1].tradeDate;
    var f := IndexOf(config.calendar, last).value;
    assert config.calendar[f] <= config.calendar[f + config.lag];
    forall s | s in sessions
      ensures s.tradeDate < NextDate(config.calendar, n)
    {
      var k :| 0 <= k < |sessions| && sessions[k] == s;
      assert s.tradeDate <= last <= due;
      if n == |config.calendar| {
        var j :| 0 <= j < n && config.calendar[j] == s.tradeDate;
      }
    }
  }

  // ---- When a run goes through ----

  /** When the journal of a date ends. */
  function DayEnd(sessions: seq<Session>, date: int): int {
    match SessionOn(sessions, date) case None => AccountingTime(date) case Some(s) => s.close
  }

  /** When the journal of all dates before the `n`-th ends. */
  function EndBefore(config: Config, sessions: seq<Session>, n: nat): int
    requires sessions != [] && n <= |config.calendar|
  {
    if n == 0 then sessions[0].decision - 1 else DayEnd(sessions, config.calendar[n - 1])
  }

  /** The `n`-th date comes in time after the dates before it. */
  predicate DateInTime(config: Config, world: World, sessions: seq<Session>, n: nat)
    requires sessions != [] && n < |config.calendar|
  {
    var end := EndBefore(config, sessions, n);
    match SessionOn(sessions, config.calendar[n])
    case None => end <= AccountingTime(config.calendar[n])
    case Some(s) => InTime(world, s, end)
  }

  /** Every date up to the last due one comes in time, and that one ends by five in the afternoon. */
  predicate Punctual(config: Config, world: World, sessions: seq<Session>)
    requires sessions != [] && DueIndex(config, sessions[|sessions| - 1].tradeDate).Some?
  {
    var due := FinalDue(config, sessions);
    && DayEnd(sessions, due) <= CompletionTime(due)
    && forall n :: 0 <= n < |config.calendar| && config.calendar[n] <= due ==> DateInTime(config, world, sessions, n)
  }

  predicate AllSizeable(world: World, sessions: seq<Session>) {
    forall s <- sessions :: Sizeable(world, s)
  }

  /** Nothing else stands in the way of a run. */
  ghost predicate Unhindered(config: Config, world: World, ledger: Ledger, sessions: seq<Session>) {
    Lenient(ledger) && Solvent(world) && forall s <- sessions :: Sellable(config.fills, s.quotes)
  }

  /** What a session needs. */
  ghost predicate PassesSession(config: Config, world: World, ledger: Ledger, s: Session) {
    Lenient(ledger) && Solvent(world) && Sizeable(world, s) && Sellable(config.fills, s.quotes)
  }

  /** The last date processed is the last due one. */
  lemma LastIsDue(config: Config, n: nat, due: int)
    requires config.Valid() && due in config.calendar && n <= |config.calendar|
    requires forall k :: 0 <= k < n ==> config.calendar[k] <= due
    requires n < |config.calendar| ==> config.calendar[n] > due
    ensures n > 0 && config.calendar[n - 1] == due
  {
    var j :| 0 <= j < |config.calendar| && config.calendar[j] == due;
    assert j < n;
  }

  /** The actions replay knows are all dated before the day. */
  ghost predicate ActionsBefore(known: set<int>, actions: seq<Action>, date: int) {
    forall id :: id in known ==> exists a :: a in actions && a.id == id && a.date < date
  }

  lemma SameId(actions: seq<Action>, a: Action, b: Action)
    requires Distinct(actions, ActionId) && a in actions && b in actions && a.id == b.id
    ensures a == b
  {
    var i :| 0 <= i < |actions| && actions[i] == a;
    var j :| 0 <= j < |actions| && actions[j] == b;
    assert ActionId(actions[i]) == ActionId(actions[j]);
  }

  lemma TodayIsNew(known: set<int>, actions: seq<Action>, date: int)
    requires ActionsBefore(known, actions, date) && Distinct(actions, ActionId)
    ensures forall a <- ActionsOn(actions, date) :: a.id !in known
  {
    forall a, b | a in actions && b in actions && a.id == b.id
      ensures a == b
    {
      SameId(actions, a, b);
    }
  }

  lemma ActionsStayBefore(known: set<int>, actions: seq<Action>, date: int, later: int)
    requires ActionsBefore(known, actions, date) && date < later
    ensures ActionsBefore(known + ActionIds(ActionsOn(actions, date)), actions, later)
  {
    forall id | id in known + ActionIds(ActionsOn(actions, date))
      ensures exists a :: a in actions && a.id == id && a.date < later
    {
      if id in known {
        var a :| a in actions && a.id == id && a.date < date;
      } else {
        var a :| a in ActionsOn(actions, date) && a.id == id;
      }
    }
  }

  /** Replay keeps up with every session dated before the day, as far as the journal tells. */
  ghost predicate KeptUp(ledger: Ledger, keys: int -> set<int>, sessions: seq<Session>, events: seq<Event>, date: int) {
    forall s <- sessions :: s.tradeDate < date ==> KeepsUp(ledger, s.quotes, Closing(keys, events, s.close))
  }

  lemma NextIsLater(config: Config, n: nat)
    requires config.Valid() && n < |config.calendar|
    ensures config.calendar[n] + 1 <= NextDate(config.calendar, n + 1)
  {
  }

  lemma OnlyToday(config: Config, sessions: seq<Session>, n: nat, s: Session)
    requires config.Valid() && n < |config.calendar| && SessionsInOrder(sessions)
    requires forall s <- sessions :: s.tradeDate in config.calendar
    requires s in sessions && s.tradeDate < NextDate(config.calendar, n + 1)
    ensures s.tradeDate < config.calendar[n] || SessionOn(sessions, config.calendar[n]) == Some(s)
  {
    var date := config.calendar[n];
    var j :| 0 <= j < |config.calendar| && config.calendar[j] == s.tradeDate;
    if s.tradeDate == date {
      var today := SessionOn(sessions, date);
      var i :| 0 <= i < |sessions| && sessions[i] == s;
      var k :| 0 <= k < |sessions| && sessions[k] == today.value;
      assert i == k;
    }
  }

  /** A session already reported keeps its closing calls while the journal grows. */
  lemma ReportedClosing(keys: int -> set<int>, before: seq<Event>, after: seq<Event>, targets: seq<Target>, s: Session)
    requires before <= after && Reported(before, targets, s)
    ensures Closing(keys, after, s.close) == Closing(keys, before, s.close)
  {
    hide HasReport, Targets, Opens, Closes, Closing, ReportAt;
    var i := ReportIs(before, s.close);
    IsReported(before, i, s.close);
    ClosingStays(keys, before, after, s.close);
  }

  /** One more date: the sessions before it are as they were. */
  lemma KeptUpNext(run: EngineRun, sessions: seq<Session>, actions: seq<Action>, n: nat, before: seq<Event>)
    requires run.config.Valid() && n < |run.config.calendar| && SessionsInOrder(sessions)
    requires forall s <- sessions :: s.tradeDate in run.config.calendar
    requires before <= run.journal.events
    requires Told(before, run.world, run.config.calendar, sessions, actions, NextDate(run.config.calendar, n), n)
    ensures var date, today := run.config.calendar[n], SessionOn(sessions, run.config.calendar[n]);
            KeptUp(run.ledger, run.keys, sessions, run.journal.events, NextDate(run.config.calendar, n + 1)) <==>
              KeptUp(run.ledger, run.keys, sessions, before, date)
                  && (today.Some? ==> KeepsUp(run.ledger, today.value.quotes,
                                              Closing(run.keys, run.journal.events, today.value.close)))
  {
    hide KeepsUp, Closing, Reported, Accounted;
    var date, today, next := run.config.calendar[n], SessionOn(sessions, run.config.calendar[n]),
        NextDate(run.config.calendar, n + 1);
    NextIsLater(run.config, n);
    forall s | s in sessions && s.tradeDate < next
      ensures s.tradeDate < date || today == Some(s)
    {
      OnlyToday(run.config, sessions, n, s);
    }
    forall s | s in sessions && s.tradeDate < date
      ensures Closing(run.keys, run.journal.events, s.close) == Closing(run.keys, before, s.close)
    {
      ReportedClosing(run.keys, before, run.journal.events, run.world.targets(s), s);
    }
    hide SessionsInOrder;
  }

  lemma NothingBefore(run: EngineRun, sessions: seq<Session>, actions: seq<Action>)
    requires run.Core() && run.InStep() && run.Aligned() && |run.journal.events| == 1
    requires run.journal.events[0].payload.RunStarted? && run.replay == FRESH_STATE && run.book.reservations == map[]
    requires forall s <- sessions :: s.tradeDate in run.config.calendar
    requires sessions != [] && run.journal.events[0].time == sessions[0].decision - 1
    ensures run.Before(run.config.calendar[0], true)
    ensures LastTime(run.journal.events) == EndBefore(run.config, sessions, 0)
    ensures KeptUp(run.ledger, run.keys, sessions, run.journal.events, run.config.calendar[0])
    ensures ActionsBefore({}, actions, run.config.calendar[0])
    ensures Told(run.journal.events, run.world, run.config.calendar, sessions, actions, run.config.calendar[0], 0)
    ensures AllTraded(run.config, run.world, run.ledger, run.keys, run.journal.events, sessions,
                      run.config.calendar[0])
  {
    forall s | s in sessions
      ensures run.config.calendar[0] <= s.tradeDate
    {
      var j :| 0 <= j < |run.config.calendar| && run.config.calendar[j] == s.tradeDate;
    }
  }

  /** The journal reports every session dated before the day, and the accounting of the first `n` calendar dates. */
  ghost predicate Told(events: seq<Event>, world: World, calendar: seq<int>, sessions: seq<Session>,
                       actions: seq<Action>, date: int, n: nat)
    requires n <= |calendar|
  {
    && (forall s <- sessions :: s.tradeDate < date ==> Reported(events, world.targets(s), s))
    && (forall k :: 0 <= k < n ==> Accounted(events, calendar[k], ActionsOn(actions, calendar[k])))
  }

  lemma ToldNext(before: seq<Event>, after: seq<Event>, world: World, config: Config, sessions: seq<Session>,
                 actions: seq<Action>, n: nat)
    requires config.Valid() && n < |config.calendar| && SessionsInOrder(sessions)
    requires forall s <- sessions :: s.tradeDate in config.calendar
    requires before <= after && Told(before, world, config.calendar, sessions, actions, NextDate(config.calendar, n), n)
    requires Accounted(after, config.calendar[n], ActionsOn(actions, config.calendar[n]))
    requires SessionOn(sessions, config.calendar[n]).Some? ==>
               var s := SessionOn(sessions, config.calendar[n]).value;
               Reported(after, world.targets(s), s)
    ensures Told(after, world, config.calendar, sessions, actions, NextDate(config.calendar, n + 1), n + 1)
  {
    hide Reported, Accounted;
    var date, next := config.calendar[n], NextDate(config.calendar, n + 1);
    forall s | s in sessions && s.tradeDate < next
      ensures Reported(after, world.targets(s), s)
    {
      var j :| 0 <= j < |config.calendar| && config.calendar[j] == s.tradeDate;
      if s.tradeDate < date {
        ReportedStays(before, after, world.targets(s), s);
      } else {
        var today := SessionOn(sessions, date).value;
        var i :| 0 <= i < |sessions| && sessions[i] == s;
        var k :| 0 <= k < |sessions| && sessions[k] == today;
        assert i == k;
      }
    }
    forall k | 0 <= k < n
      ensures Accounted(after, config.calendar[k], ActionsOn(actions, config.calendar[k]))
    {
      AccountedStays(before, after, config.calendar[k], ActionsOn(actions, config.calendar[k]));
    }
  }

  /**
    * The journal of a whole run reports every session, and the accounting of every calendar date up to the last due
    * one.
    */
  ghost predicate Complete(events: seq<Event>, config: Config, world: World, sessions: seq<Session>,
                           actions: seq<Action>)
    requires ValidInputs(config, sessions, actions)
  {
    && (forall s <- sessions :: Reported(events, world.targets(s), s))
    && (forall date <- config.calendar ::
          date <= FinalDue(config, sessions) ==>
          Accounted(events, date, ActionsOn(actions, date)))
  }

  lemma ToldIsComplete(before: seq<Event>, after: seq<Event>, config: Config, world: World, sessions: seq<Session>,
                       actions: seq<Action>,
                       n: nat, due: int)
    requires config.Valid() && ValidInputs(config, sessions, actions)
    requires due == FinalDue(config, sessions)
    requires n <= |config.calendar| && (n < |config.calendar| ==> config.calendar[n] > due)
    requires before <= after && Told(before, world, config.calendar, sessions, actions, NextDate(config.calendar, n), n)
    ensures Complete(after, config, world, sessions, actions)
  {
    hide Reported, Accounted, ValidInputs;
    ValidParts(config, sessions, actions);
    EverySessionIsReached(config, sessions, actions, n, due);
    forall s | s in sessions
      ensures Reported(after, world.targets(s), s)
    {
      ReportedStays(before, after, world.targets(s), s);
    }
    forall date | date in config.calendar && date <= due
      ensures Accounted(after, date, ActionsOn(actions, date))
    {
      var k :| 0 <= k < |config.calendar| && config.calendar[k] == date;
      assert k < n;
      AccountedStays(before, after, date, ActionsOn(actions, date));
    }
  }

  /** Every session dated before the day has traded, and nothing else has. */
  ghost predicate AllTraded(config: Config, world: World, ledger: Ledger, keys: int -> set<int>, events: seq<Event>,
                            sessions: seq<Session>, date: int) {
    && (forall s <- sessions :: s.tradeDate < date ==> Traded(config, world, ledger, keys, events, s))
    && forall i :: 0 <= i < |events| && IsTrade(events[i].payload) ==>
         exists s <- sessions :: s.tradeDate == DateOf(events[i].time) < date
  }

  lemma TradedNext(run: EngineRun, sessions: seq<Session>, n: nat, before: seq<Event>)
    requires run.config.Valid() && n < |run.config.calendar| && SessionsInOrder(sessions)
    requires forall s <- sessions :: s.tradeDate in run.config.calendar
    requires before <= run.journal.events
    requires AllTraded(run.config, run.world, run.ledger, run.keys, before, sessions, NextDate(run.config.calendar, n))
    requires var today := SessionOn(sessions, run.config.calendar[n]);
             if today.None? then NoTrades(before, run.journal.events)
             else TradesOnly(before, run.journal.events, run.config.calendar[n])
                  && Traded(run.config, run.world, run.ledger, run.keys, run.journal.events, today.value)
    ensures AllTraded(run.config, run.world, run.ledger, run.keys, run.journal.events, sessions,
                      NextDate(run.config.calendar, n + 1))
  {
    hide Traded, IsTrade;
    var date, today, events := run.config.calendar[n], SessionOn(sessions, run.config.calendar[n]), run.journal.events;
    NextIsLater(run.config, n);
    forall s | s in sessions && s.tradeDate < NextDate(run.config.calendar, n + 1)
      ensures Traded(run.config, run.world, run.ledger, run.keys, events, s)
    {
      OnlyToday(run.config, sessions, n, s);
      if s.tradeDate < date {
        TradedStays(run.config, run.world, run.ledger, run.keys, before, events, s);
      }
    }
    forall i | 0 <= i < |events| && IsTrade(events[i].payload)
      ensures exists s <- sessions :: s.tradeDate == DateOf(events[i].time) < NextDate(run.config.calendar, n + 1)
    {
      if i < |before| {
        assert events[i] == before[i];
        var s :| s in sessions && s.tradeDate == DateOf(before[i].time) < date;
      } else {
        assert today.value.tradeDate == DateOf(events[i].time);
      }
    }
  }

  /**
    * What holds before the `n`-th calendar date: replay has followed exactly as long as it kept up with every
    * session.
    */
  ghost predicate Progress(run: EngineRun, sessions: seq<Session>, actions: seq<Action>, n: nat, tracked: bool)
    reads run, run.journal, run.book
  {
    && run.config.calendar != [] && n <= |run.config.calendar|
    && run.Before(NextDate(run.config.calendar, n), tracked)
    && (tracked <==>
          KeptUp(run.ledger, run.keys, sessions, run.journal.events, NextDate(run.config.calendar, n)))
    && (tracked ==> ActionsBefore(run.replay.actionIds, actions, NextDate(run.config.calendar, n)))
    && Told(run.journal.events, run.world, run.config.calendar, sessions, actions, NextDate(run.config.calendar, n), n)
    && AllTraded(run.config, run.world, run.ledger, run.keys, run.journal.events, sessions,
                 NextDate(run.config.calendar, n))
    && sessions != [] && LastTime(run.journal.events) == EndBefore(run.config, sessions, n)
    && (forall k :: 0 <= k < n ==> DateInTime(run.config, run.world, sessions, k))
    && forall s <- sessions :: s.tradeDate < NextDate(run.config.calendar, n) ==> Sizeable(run.world, s)
  }

  /** One calendar date, with or without a session. */
  method RunDay(run: EngineRun, session: Option<Session>, date: int, today: seq<Action>, ghost tracked: bool)
      returns (r: Result<bool, EngineError>, ghost still: bool)
    requires run.Before(date, tracked) && Distinct(today, ActionId) && forall a <- today :: a.version != ""
    requires tracked ==> forall a <- today :: a.id !in run.replay.actionIds
    requires session.Some? ==>
               var s := session.value;
               s.Valid() && s.tradeDate == date && run.keys(s.close) == Instruments(s.quotes)
    modifies run, run.journal, run.book
    ensures Lenient(run.ledger) && session.None? && LastTime(old(run.journal.events)) <= AccountingTime(date) ==> r.Ok?
    ensures session.Some? && InTime(run.world, session.value, LastTime(old(run.journal.events))) ==>
              PassesSession(run.config, run.world, run.ledger, session.value) ==> r.Ok?
    ensures r.Ok? ==>
              && LastTime(run.journal.events) == (if session.None? then AccountingTime(date) else session.value.close)
              && (if session.None? then LastTime(old(run.journal.events)) <= AccountingTime(date)
                  else InTime(run.world, session.value, LastTime(old(run.journal.events)))
                       && Sizeable(run.world, session.value))
              && (still <==> tracked && (session.Some? ==>
                    KeepsUp(run.ledger, session.value.quotes,
                            Closing(run.keys, run.journal.events, session.value.close))))
              && run.Before(date + 1, still) && old(run.journal.events) <= run.journal.events
              && Accounted(run.journal.events, date, today)
              && (session.Some? ==> Reported(run.journal.events, run.world.targets(session.value), session.value))
              && (if session.None? then NoTrades(old(run.journal.events), run.journal.events)
                  else TradesOnly(old(run.journal.events), run.journal.events, date)
                       && Traded(run.config, run.world, run.ledger, run.keys, run.journal.events, session.value))
              && (still ==> run.replay.actionIds == old(run.replay.actionIds) + ActionIds(today))
  {
    hide EngineRun.Before, AgesHoldings, KeepsUp, Instruments, ActionIds, Reported, Accounted, Distinct, Closing,
         Traded, TradesOnly, NoTrades, EngineRun.Core, EngineRun.Aligned;
    still := tracked;
    if session.None? {
      r := run.RunHoliday(date, today, tracked);
    } else {
      r := run.RunSession(session.value, today, tracked);
      still := tracked && KeepsUp(run.ledger, session.value.quotes,
                                  Closing(run.keys, run.journal.events, session.value.close));
    }
  }

  /** The next calendar date. */
  method RunDate(run: EngineRun, sessions: seq<Session>, actions: seq<Action>, i: nat, ghost tracked: bool)
      returns (r: Result<bool, EngineError>, ghost still: bool)
    requires run.config.Valid() && ValidInputs(run.config, sessions, actions) && i < |run.config.calendar|
    requires (forall s <- sessions :: s.Valid()) && (forall a <- actions :: a.version != "")
    requires run.keys == (t => SessionKeys(sessions, t))
    requires Progress(run, sessions, actions, i, tracked)
    modifies run, run.journal, run.book
    ensures (Unhindered(run.config, run.world, run.ledger, sessions) && AllSizeable(run.world, sessions)
            && DateInTime(run.config, run.world, sessions, i)) ==> r.Ok?
    ensures r.Ok? ==> Progress(run, sessions, actions, i + 1, still)
  {
    hide DateInTime, InTime, EndBefore, Unhindered, AllSizeable, PassesSession, Lenient, Sizeable, LastTime,
         EngineRun.Before, HasPartialFill, AgesHoldings, KeptUp, KeepsUp, ActionsBefore, ValidInputs, Instruments,
         SessionKeys, Closing, ActionIds, Replayed, Told, Reported, Accounted, SessionsInOrder, Distinct, ActionsOn,
         AllTraded, Traded, TradesOnly, NoTrades, EngineRun.Core, EngineRun.Aligned;
    var date := run.config.calendar[i];
    var today := ActionsOn(actions, date);
    ValidParts(run.config, sessions, actions);
    ActionsOnAreDistinct(actions, date);
    NextIsLater(run.config, i);
    DateNeeds(run, sessions, i);
    ghost var before, known, next := run.journal.events, run.replay.actionIds, NextDate(run.config.calendar, i + 1);
    assert NextDate(run.config.calendar, i) == date;
    if tracked {
      TodayIsNew(known, actions, date);
      ActionsStayBefore(known, actions, date, next);
    }
    var session := SessionOn(sessions, date);
    if session.Some? {
      SessionKeysAreItsOwn(sessions, session.value);
    }
    r, still := RunDay(run, session, date, today, tracked);
    if r.Ok? {
      KeptUpNext(run, sessions, actions, i, before);
      TradedNext(run, sessions, i, before);
      SizeableNext(run, sessions, i);
      StillBefore(run, date + 1, next, still);
      ToldNext(before, run.journal.events, run.world, run.config, sessions, actions, i);
    }
  }

  /** What a date needs, by whether it has a session. */
  lemma DateNeeds(run: EngineRun, sessions: seq<Session>, n: nat)
    requires sessions != [] && n < |run.config.calendar|
    ensures var today, end := SessionOn(sessions, run.config.calendar[n]), EndBefore(run.config, sessions, n);
      && (DateInTime(run.config, run.world, sessions, n) <==>
            if today.None? then end <= AccountingTime(run.config.calendar[n]) else InTime(run.world, today.value, end))
      && (Unhindered(run.config, run.world, run.ledger, sessions) && AllSizeable(run.world, sessions) ==>
            Lenient(run.ledger)
            && (today.Some? ==> PassesSession(run.config, run.world, run.ledger, today.value)))
      && EndBefore(run.config, sessions, n + 1)
         == (if today.None? then AccountingTime(run.config.calendar[n]) else today.value.close)
  {
    hide InTime, Lenient, Solvent, Sizeable, Sellable;
  }

  lemma SizeableNext(run: EngineRun, sessions: seq<Session>, n: nat)
    requires run.config.Valid() && n < |run.config.calendar| && SessionsInOrder(sessions)
    requires forall s <- sessions :: s.tradeDate in run.config.calendar
    requires forall s <- sessions :: s.tradeDate < NextDate(run.config.calendar, n) ==> Sizeable(run.world, s)
    requires var today := SessionOn(sessions, run.config.calendar[n]);
             today.Some? ==> Sizeable(run.world, today.value)
    ensures forall s <- sessions :: s.tradeDate < NextDate(run.config.calendar, n + 1) ==> Sizeable(run.world, s)
  {
    hide Sizeable;
    forall s | s in sessions && s.tradeDate < NextDate(run.config.calendar, n + 1)
      ensures Sizeable(run.world, s)
    {
      OnlyToday(run.config, sessions, n, s);
    }
  }

  /** Up to completion a run is in time exactly when it is punctual. */
  lemma CompletesInTime(run: EngineRun, sessions: seq<Session>, actions: seq<Action>, n: nat)
    requires run.config.Valid() && ValidInputs(run.config, sessions, actions) && n <= |run.config.calendar|
    requires forall k :: 0 <= k < n ==> run.config.calendar[k] <= FinalDue(run.config, sessions)
    requires n < |run.config.calendar| ==> run.config.calendar[n] > FinalDue(run.config, sessions)
    requires LastTime(run.journal.events) == EndBefore(run.config, sessions, n)
    requires forall k :: 0 <= k < n ==> DateInTime(run.config, run.world, sessions, k)
    ensures Punctual(run.config, run.world, sessions) <==>
              LastTime(run.journal.events) <= CompletionTime(FinalDue(run.config, sessions))
  {
    hide LastTime, DayEnd, DateInTime, CompletionTime;
    LastIsDue(run.config, n, FinalDue(run.config, sessions));
  }

  lemma ValidParts(config: Config, sessions: seq<Session>, actions: seq<Action>)
    requires ValidInputs(config, sessions, actions)
    ensures SessionsInOrder(sessions) && Distinct(actions, ActionId) && sessions != []
    ensures forall s <- sessions :: s.tradeDate in config.calendar
    ensures DueIndex(config, sessions[|sessions| - 1].tradeDate).Some?
  {
  }

  /** No session without quotes closes while a position is held, by the ledger calls the journal tells of. */
  ghost predicate NothingHeldUnquoted(ledger: Ledger, sessions: seq<Session>, events: seq<Event>) {
    forall s <- sessions :: s.quotes == [] ==> !ledger.holds(Closing(ClosesOf(events), events, s.close))
  }

  /** Replay keeps up with every session. */
  ghost predicate AllKeptUp(ledger: Ledger, sessions: seq<Session>, events: seq<Event>) {
    forall s <- sessions :: KeepsUp(ledger, s.quotes, Closing(ClosesOf(events), events, s.close))
  }

  /** What the journal tells does not depend on whether the sessions or the journal itself name the closing keys. */
  lemma OwnCallsAgree(ledger: Ledger, keys: int -> set<int>, events: seq<Event>)
    requires ClosesMatch(events, keys)
    ensures forall n: nat :: n <= |events| ==> Calls(ClosesOf(events), events[..n]) == Calls(keys, events[..n])
    ensures Truthful(ledger, keys, events) ==> Truthful(ledger, ClosesOf(events), events)
  {
    hide IsTrue, Calls;
    var own := ClosesOf(events);
    forall n: nat | n <= |events|
      ensures Calls(own, events[..n]) == Calls(keys, events[..n])
    {
      forall i | 0 <= i < n && events[..n][i].payload.MarketClosed?
        ensures own(events[i].time) == keys(events[i].time)
      {
        assert events[..n][i] == events[i];
      }
      CallsMatter(own, keys, events[..n]);
    }
  }

  lemma AllDatesPassed(ledger: Ledger, keys: int -> set<int>, world: World, calendar: seq<int>, sessions: seq<Session>,
                       actions: seq<Action>, date: int, n: nat, told: seq<Event>, events: seq<Event>)
    requires n <= |calendar| && Told(told, world, calendar, sessions, actions, date, n)
    requires (forall s <- sessions :: s.tradeDate < date) && told <= events && ClosesMatch(events, keys)
    ensures KeptUp(ledger, keys, sessions, told, date) <==> AllKeptUp(ledger, sessions, events)
  {
    hide KeepsUp, Reported, Accounted, ClosesMatch, Calls;
    OwnCallsAgree(ledger, keys, events);
    forall s | s in sessions
      ensures Closing(keys, told, s.close) == Closing(ClosesOf(events), events, s.close)
    {
      ReportedClosing(keys, told, events, world.targets(s), s);
    }
  }

  lemma QuotedKeepUp(ledger: Ledger, sessions: seq<Session>, events: seq<Event>)
    requires AllQuoted(sessions)
    ensures AllKeptUp(ledger, sessions, events)
  {
    hide Closing;
  }

  /** Replay keeps up with every session exactly when nothing is held at the closes without quotes. */
  lemma KeptUpIsIdle(ledger: Ledger, sessions: seq<Session>, events: seq<Event>)
    requires AgesHoldings(ledger)
    ensures AllKeptUp(ledger, sessions, events) <==> NothingHeldUnquoted(ledger, sessions, events)
  {
    hide AgesHoldings, Closing;
    if AllKeptUp(ledger, sessions, events) {
      forall s | s in sessions && s.quotes == []
        ensures !ledger.holds(Closing(ClosesOf(events), events, s.close))
      {
        assert KeepsUp(ledger, s.quotes, Closing(ClosesOf(events), events, s.close));
      }
    }
  }

  /** What has closed by then is named by the keys. */
  lemma ClosesAreKeys(events: seq<Event>, keys: int -> set<int>, i: nat, time: int)
    requires ClosesMatch(events, keys) && i <= |events|
    ensures CloseKeys(events[..i], time) <= keys(time)
  {
    forall k | k in CloseKeys(events[..i], time)
      ensures k in keys(time)
    {
      var e :| e in events[..i] && e.payload.MarketClosed? && e.time == time && e.payload.instrument == k;
      var j :| 0 <= j < i && events[j] == e;
      assert k in CloseKeys(events, events[j].time);
    }
  }

  /** A session without quotes that closes while a position is held: replay refuses its report. */
  lemma HeldIsRejected(ledger: Ledger, keys: int -> set<int>, events: seq<Event>, s: Session, targets: seq<Target>)
    requires AgesHoldings(ledger) && Truthful(ledger, ClosesOf(events), events) && ClosesMatch(events, keys)
    requires events != [] && events[0].payload.RunStarted? && Reported(events, targets, s)
    requires keys(s.close) == {} && ledger.holds(Closing(ClosesOf(events), events, s.close))
    ensures !Accepted(ledger, events)
  {
    hide HasReport, AgesHoldings, Truthful, Targets, Opens, Closes, ReportAt, Calls, Replayed;
    var k := ReportIs(events, s.close);
    IsReported(events, k, s.close);
    var i := ReportAt(events, s.close);
    ClosesAreKeys(events, keys, i, s.close);
    HeldUnmarkedIsRejected(ledger, ClosesOf(events), events, i);
  }

  /** Something held at a close without quotes: the journal is rejected. */
  lemma HeldSomewhere(ledger: Ledger, config: Config, world: World, sessions: seq<Session>, actions: seq<Action>,
                      events: seq<Event>)
    requires AgesHoldings(ledger) && Truthful(ledger, ClosesOf(events), events)
    requires events != [] && events[0].payload.RunStarted? && ClosesMatch(events, t => SessionKeys(sessions, t))
    requires ValidInputs(config, sessions, actions) && Complete(events, config, world, sessions, actions)
    requires forall s <- sessions :: s.Valid()
    requires !NothingHeldUnquoted(ledger, sessions, events)
    ensures !Accepted(ledger, events)
  {
    hide AgesHoldings, Truthful, Closing, Reported, Accounted, Accepted, ClosesMatch, SessionKeys, Instruments;
    var s :| s in sessions && s.quotes == [] && ledger.holds(Closing(ClosesOf(events), events, s.close));
    SessionKeysAreItsOwn(sessions, s);
    SameInstruments(s.quotes, s.quotes);
    HeldIsRejected(ledger, t => SessionKeys(sessions, t), events, s, world.targets(s));
  }

  /** Every session traded as its targets, quotes and risk decisions ask for, and no other order is in the journal. */
  ghost predicate EverythingTraded(config: Config, world: World, ledger: Ledger, events: seq<Event>,
                                   sessions: seq<Session>) {
    && (forall s <- sessions :: Traded(config, world, ledger, ClosesOf(events), events, s))
    && forall i :: 0 <= i < |events| && IsTrade(events[i].payload) ==>
         exists s <- sessions :: s.tradeDate == DateOf(events[i].time)
  }

  lemma TradesAreTold(config: Config, world: World, ledger: Ledger, keys: int -> set<int>, told: seq<Event>,
                      events: seq<Event>, sessions: seq<Session>, date: int)
    requires AllTraded(config, world, ledger, keys, told, sessions, date) && forall s <- sessions :: s.tradeDate < date
    requires told <= events && NoTrades(told, events) && ClosesMatch(events, keys)
    ensures EverythingTraded(config, world, ledger, events, sessions)
  {
    hide Traded, IsTrade, ClosesMatch, Calls;
    OwnCallsAgree(ledger, keys, events);
    forall s | s in sessions
      ensures Traded(config, world, ledger, ClosesOf(events), events, s)
    {
      TradedStays(config, world, ledger, keys, told, events, s);
      TradedUnder(config, world, ledger, keys, ClosesOf(events), events, s);
    }
    forall i | 0 <= i < |events| && IsTrade(events[i].payload)
      ensures exists s <- sessions :: s.tradeDate == DateOf(events[i].time)
    {
      assert events[i] == told[i];
    }
  }

  lemma DueIs(config: Config, date: int, i: nat)
    requires config.Valid() && i < |config.calendar| && config.calendar[i] == date
    ensures DueIndex(config, date) == if i + config.lag < |config.calendar| then Some(i + config.lag) else None
  {
    hide IndexOf;
    var found := IndexOf(config.calendar, date).value;
    assert found == i;
  }

  /** `_validate_inputs`, and the settlement date of the last session. */
  method CheckInputs(config: Config, sessions: seq<Session>, actions: seq<Action>) returns (due: Option<int>)
    requires config.Valid()
    ensures due.Some? <==> ValidInputs(config, sessions, actions)
    ensures due.Some? ==> due.value == FinalDue(config, sessions)
  {
    hide IndexOf, DueIndex;
    if sessions == [] || exists i, j :: 0 <= i < j < |sessions| && sessions[j].tradeDate <= sessions[i].tradeDate {
      return None;
    }
    if exists s <- sessions :: s.tradeDate !in config.calendar {
      return None;
    }
    var last := sessions[|sessions| - 1];
    var finalIndex :| 0 <= finalIndex < |config.calendar| && config.calendar[finalIndex] == last.tradeDate;
    DueIs(config, last.tradeDate, finalIndex);
    if finalIndex + config.lag >= |config.calendar| {
      return None;
    }
    if exists i, j :: 0 <= i < j < |actions| && actions[i].id == actions[j].id {
      return None;
    }
    var finalDue := config.calendar[finalIndex + config.lag];
    if exists a <- actions :: a.date !in config.calendar || a.date < sessions[0].tradeDate || finalDue < a.date {
      return None;
    }
    due := Some(finalDue);
  }

  /**
    * `run`. Unhindered, it completes exactly when dates come in time and targets can be sized. The journal reports
    * what the ledger answered to the calls it tells of, and exactly the sessions' trades. Replay accepts it exactly
    * when unfilled remainders are cancelled or no fill is partial, and no session without quotes closed while a
    * position was held: such a close ages the positions in the engine only.
    */
  method Run(config: Config, world: World, ledger: Ledger, sessions: seq<Session>, actions: seq<Action>)
      returns (r: Result<seq<Event>, EngineError>)
    requires config.Valid() && (forall s <- sessions :: s.Valid()) && (forall a <- actions :: a.version != "")
    ensures r.Ok? ==> WellFormed(r.value) && CompletedOnlyLast(r.value) && r.value[0].payload.RunStarted?
    ensures !ValidInputs(config, sessions, actions) ==> r == Err(InvalidInput)
    ensures r.Ok? ==> ValidInputs(config, sessions, actions) && Complete(r.value, config, world, sessions, actions)
    ensures r.Ok? ==> Truthful(ledger, ClosesOf(r.value), r.value)
    ensures r.Ok? ==> EverythingTraded(config, world, ledger, r.value, sessions)
    ensures r.Ok? ==> Punctual(config, world, sessions) && AllSizeable(world, sessions)
    ensures ValidInputs(config, sessions, actions) && Unhindered(config, world, ledger, sessions) ==>
              (r.Ok? <==> Punctual(config, world, sessions) && AllSizeable(world, sessions))
    ensures r.Ok? && AllQuoted(sessions) ==> ReplaySafety.EveryOrderDecided(r.value)
    ensures r.Ok? && AllQuoted(sessions) ==>
              (Accepted(ledger, r.value) <==> config.fills.cancelUnfilled || !HasPartialFill(r.value))
    ensures r.Ok? && AllQuoted(sessions) && (config.fills.cancelUnfilled || !config.fills.allowPartial) ==>
              Accepted(ledger, r.value)
    ensures r.Ok? && AgesHoldings(ledger) ==>
              (Accepted(ledger, r.value) <==>
                 NothingHeldUnquoted(ledger, sessions, r.value)
                     && (config.fills.cancelUnfilled || !HasPartialFill(r.value)))
    ensures r.Ok? && !config.fills.allowPartial ==> !HasPartialFill(r.value)
  {
    hide EngineRun.Before, HasPartialFill, AgesHoldings, WellFormed, ClosesMatch, Replayed, KeptUp, AllKeptUp,
         NothingHeldUnquoted, Truthful, Closing, AllTraded, EverythingTraded, NoTrades, EndBefore, Lenient, LastTime,
         Reported, Accounted, DateInTime, DayEnd, Solvent, Sizeable, Sellable, ActionsBefore, ValidInputs, AllQuoted,
         Told, Complete, ReplaySafety.EveryOrderDecided, SessionKeys, SessionsInOrder, Distinct, EngineRun.Core,
         EngineRun.InStep, EngineRun.Aligned;
    var checked := CheckInputs(config, sessions, actions);
    if checked.None? {
      return Err(InvalidInput);
    }
    ValidParts(config, sessions, actions);
    var due := checked.value;
    var run := new EngineRun(config, world, ledger, sessions[0].decision - 1, t => SessionKeys(sessions, t));
    ghost var tracked := true;
    NothingBefore(run, sessions, actions);
    var i := 0;
    while i < |config.calendar| && config.calendar[i] <= due
      invariant i <= |config.calendar| && fresh(run) && fresh(run.journal) && fresh(run.book)
      invariant Progress(run, sessions, actions, i, tracked)
      invariant forall k :: 0 <= k < i ==> config.calendar[k] <= due
    {
      var done, still := RunDate(run, sessions, actions, i, tracked);
      if done.Err? {
        return Err(done.error);
      }
      tracked := still;
      i := i + 1;
    }
    EverySessionIsReached(config, sessions, actions, i, due);
    CompletesInTime(run, sessions, actions, i);
    ghost var told := run.journal.events;
    r := run.CompleteRun(due, NextDate(config.calendar, i), tracked);
    if r.Ok? {
      OwnKeysAgree(ledger, run.keys, r.value);
      OwnCallsAgree(ledger, run.keys, r.value);
      TradesAreTold(config, world, ledger, run.keys, told, r.value, sessions, NextDate(config.calendar, i));
      AllDatesPassed(ledger, run.keys, world, config.calendar, sessions, actions, NextDate(config.calendar, i), i,
                     told, r.value);
      if AllQuoted(sessions) {
        QuotedKeepUp(ledger, sessions, r.value);
      }
      if AgesHoldings(ledger) {
        KeptUpIsIdle(ledger, sessions, r.value);
      }
      ToldIsComplete(told, r.value, config, world, sessions, actions, i, due);
      if AgesHoldings(ledger) && !NothingHeldUnquoted(ledger, sessions, r.value) {
        HeldSomewhere(ledger, config, world, sessions, actions, r.value);
      }
    }
  }
}
