/** What stands behind a journal: the engine's ledger calls and its order book, read off the events it emits. */
module LedgerCalls {
  import opened BacktestJournal
  import opened EngineFollows
  import opened EngineJournal
  import opened EngineModel
  import opened PendingOrders
  import opened Replay
  import opened Wrappers

  /**
    * The calls an engine makes for the event that follows a journal. Positions age before the first mark of a close,
    * and before the closing report of a session that has no marks.
    */
  function CallsFor(keys: int -> set<int>, events: seq<Event>, e: Event): seq<LedgerOp> {
    match e.payload
    case SettlementProcessed(date, _) => [Settled(date, e.time)]
    case ActionApplied(action, _) => [Acted(action, e.time)]
    case MarketOpened(instrument, price) => [Marked(instrument, price, e.time, true)]
    case MarketClosed(instrument, price) =>
      Ageing(events, e.time, keys(e.time)) + [Marked(instrument, price, e.time, false)]
    case FillReceived(_, _, fill, _) => if IsFill(e) then [Applied(fill.value, DateOf(e.time))] else []
    case Snapshotted(_, _) => Ageing(events, e.time, {})
    case _ => []
  }

  /** Positions age once at a close: before its first mark, or before its report when there is none. */
  function Ageing(events: seq<Event>, time: int, keys: set<int>): seq<LedgerOp> {
    if CloseKeys(events, time) == {} then [Aged(keys)] else []
  }

  /** All calls a journal tells of. */
  function Calls(keys: int -> set<int>, events: seq<Event>): seq<LedgerOp> {
    if events == [] then []
    else
      var before := events[..|events| - 1];
      Calls(keys, before) + CallsFor(keys, before, events[|events| - 1])
  }

  lemma CallsNext(keys: int -> set<int>, events: seq<Event>, e: Event)
    ensures Calls(keys, events + [e]) == Calls(keys, events) + CallsFor(keys, events, e)
  {
    hide CallsFor;
    assert (events + [e])[..|events|] == events;
  }

  /** The event reports what the ledger answers after the calls. */
  ghost predicate IsTrue(ledger: Ledger, calls: seq<LedgerOp>, e: Event) {
    match e.payload
    case SettlementProcessed(_, processed) => processed == ledger.settlements(calls)
    case ActionApplied(_, effect) => effect == ledger.actionResult(calls)
    case FillReceived(_, _, _, due) => IsFill(e) ==> due == ledger.dueDate(calls)
    case Snapshotted(checksum, journal) => Shows(ledger, calls, e.time, checksum, journal)
    case Reconciled(checksum, journal) => Shows(ledger, calls, e.time, checksum, journal)
    case RunCompleted(checksum, journal, _, _, _) => Shows(ledger, calls, e.time, checksum, journal)
    case _ => true
  }

  ghost predicate Shows(ledger: Ledger, calls: seq<LedgerOp>, time: int, checksum: int, journal: int) {
    ledger.snapshot(calls, time) == Some(checksum) && ledger.checksum(calls) == journal
  }

  /** Every event reports what the ledger answers after the calls made so far. */
  ghost predicate Truthful(ledger: Ledger, keys: int -> set<int>, events: seq<Event>) {
    forall i :: 0 <= i < |events| ==> IsTrue(ledger, Calls(keys, events[..i + 1]), events[i])
  }

  lemma TruthfulNext(ledger: Ledger, keys: int -> set<int>, events: seq<Event>, e: Event)
    requires Truthful(ledger, keys, events) && IsTrue(ledger, Calls(keys, events + [e]), e)
    ensures Truthful(ledger, keys, events + [e])
  {
    hide IsTrue, Calls;
    var all := events + [e];
    forall i | 0 <= i < |all|
      ensures IsTrue(ledger, Calls(keys, all[..i + 1]), all[i])
    {
      if i < |events| {
        assert all[..i + 1] == events[..i + 1];
      } else {
        assert all[..i + 1] == all;
      }
    }
  }

  /** The ledger has been called exactly as the journal tells, and the journal tells what it answered. */
  ghost predicate Tells(ledger: Ledger, keys: int -> set<int>, events: seq<Event>, history: seq<LedgerOp>) {
    history == Calls(keys, events) && Truthful(ledger, keys, events)
  }

  lemma TellsTruth(ledger: Ledger, keys: int -> set<int>, events: seq<Event>, history: seq<LedgerOp>)
    requires Tells(ledger, keys, events, history)
    ensures Truthful(ledger, keys, events) && history == Calls(keys, events)
  {
  }

  /** The ledger has been called for an event that the journal is to tell of next. */
  ghost predicate TellsNext(ledger: Ledger, keys: int -> set<int>, events: seq<Event>, history: seq<LedgerOp>, e: Event)
  {
    && Truthful(ledger, keys, events) && IsTrue(ledger, history, e)
    && history == Calls(keys, events) + CallsFor(keys, events, e)
  }

  lemma NowTells(ledger: Ledger, keys: int -> set<int>, events: seq<Event>, history: seq<LedgerOp>, e: Event)
    requires TellsNext(ledger, keys, events, history, e)
    ensures Tells(ledger, keys, events + [e], history)
  {
    hide IsTrue, Truthful, Calls, CallsFor;
    CallsNext(keys, events, e);
    TruthfulNext(ledger, keys, events, e);
  }

  lemma SilentTells(ledger: Ledger, keys: int -> set<int>, events: seq<Event>, history: seq<LedgerOp>, e: Event)
    requires Tells(ledger, keys, events, history) && IsSilent(e.payload)
    ensures Tells(ledger, keys, events + [e], history)
  {
    hide Truthful, Calls;
    assert history + [] == history;
    NowTells(ledger, keys, events, history, e);
  }

  lemma TellsAppended(ledger: Ledger, keys: int -> set<int>, events: seq<Event>, history: seq<LedgerOp>, e: Event)
    ensures Tells(ledger, keys, events, history) && IsSilent(e.payload) ==> Tells(ledger, keys, events + [e], history)
    ensures TellsNext(ledger, keys, events, history, e) ==> Tells(ledger, keys, events + [e], history)
  {
    hide Tells, TellsNext, IsSilent;
    if Tells(ledger, keys, events, history) && IsSilent(e.payload) {
      SilentTells(ledger, keys, events, history, e);
    }
    if TellsNext(ledger, keys, events, history, e) {
      NowTells(ledger, keys, events, history, e);
    }
  }

  /** An event behind which there is one ledger call. */
  lemma OneCallTells(ledger: Ledger, keys: int -> set<int>, events: seq<Event>, history: seq<LedgerOp>, op: LedgerOp,
                     e: Event)
    requires Tells(ledger, keys, events, history)
    requires CallsFor(keys, events, e) == [op] && IsTrue(ledger, history + [op], e)
    ensures TellsNext(ledger, keys, events, history + [op], e)
  {
  }

  lemma FillTells(ledger: Ledger, keys: int -> set<int>, events: seq<Event>, history: seq<LedgerOp>, fill: SimFill,
                  date: int, e: Event)
    requires Tells(ledger, keys, events, history) && date == DateOf(e.time)
    requires e.payload.FillReceived? && e.payload.fill == Some(fill)
    requires e.payload.result == Complete || e.payload.result == Partial
    requires e.payload.due == ledger.dueDate(history + [Applied(fill, date)])
    ensures TellsNext(ledger, keys, events, history + [Applied(fill, date)], e)
  {
    hide Tells, TellsNext;
    OneCallTells(ledger, keys, events, history, Applied(fill, date), e);
  }

  /**
    * Positions have aged for a close that the journal does not tell of yet, or have done so before an earlier mark of
    * it.
    */
  ghost predicate AtClose(ledger: Ledger, keys: int -> set<int>, events: seq<Event>, history: seq<LedgerOp>, time: int)
  {
    Truthful(ledger, keys, events) && history == Calls(keys, events) + Ageing(events, time, keys(time))
  }

  lemma CloseTells(ledger: Ledger, keys: int -> set<int>, events: seq<Event>, history: seq<LedgerOp>, e: Event)
    requires AtClose(ledger, keys, events, history, e.time) && e.payload.MarketClosed?
    ensures var after := history + [Marked(e.payload.instrument, e.payload.price, e.time, false)];
            TellsNext(ledger, keys, events, after, e)
  {
  }

  /** After a first mark there is nothing left to age. */
  lemma StillAtClose(ledger: Ledger, keys: int -> set<int>, events: seq<Event>, history: seq<LedgerOp>, e: Event)
    requires Tells(ledger, keys, events + [e], history) && e.payload.MarketClosed?
    ensures AtClose(ledger, keys, events + [e], history, e.time)
  {
    hide Calls, Truthful;
    assert e in events + [e];
    assert e.payload.instrument in CloseKeys(events + [e], e.time);
    assert history + [] == history;
  }

  lemma ReportTells(ledger: Ledger, keys: int -> set<int>, events: seq<Event>, history: seq<LedgerOp>, e: Event)
    requires AtClose(ledger, keys, events, history, e.time) && e.payload.Snapshotted? && IsTrue(ledger, history, e)
    requires CloseKeys(events, e.time) == {} ==> keys(e.time) == {}
    ensures TellsNext(ledger, keys, events, history, e)
  {
  }

  lemma RestatementTells(ledger: Ledger, keys: int -> set<int>, events: seq<Event>, history: seq<LedgerOp>, e: Event)
    requires Tells(ledger, keys, events, history) && IsTrue(ledger, history, e)
    requires e.payload.Reconciled? || e.payload.RunCompleted?
    ensures TellsNext(ledger, keys, events, history, e)
  {
    assert history + [] == history;
  }

  // ---- The order book ----

  /** What an event says of the reservations. */
  function Booked(book: map<IntentId, OrderReservation>, e: Event): map<IntentId, OrderReservation> {
    match e.payload
    case OrderReserved(id, remaining, status) =>
      book[id := OrderReservation(IntentKey(id), id.instrument, id.side, id.quantity, remaining, status)]
    case ReservationUpdated(id, remaining, status) =>
      if id in book then book[id := book[id].(remaining := remaining, status := status)] else book
    case ReservationReleased(id, remaining, status) =>
      if id in book then book[id := book[id].(remaining := remaining, status := status)] else book
    case _ => book
  }

  /** The reservations a journal tells of. */
  function BookOf(events: seq<Event>): map<IntentId, OrderReservation> {
    if events == [] then map[] else Booked(BookOf(events[..|events| - 1]), events[|events| - 1])
  }

  lemma BookNext(events: seq<Event>, e: Event)
    ensures BookOf(events + [e]) == Booked(BookOf(events), e)
  {
    hide Booked;
    assert (events + [e])[..|events|] == events;
  }

  lemma BookedChange(book: map<IntentId, OrderReservation>, e: Event, id: IntentId)
    requires id in book
    ensures e.payload.ReservationUpdated? && e.payload.intent == id ==>
              Booked(book, e) == book[id := book[id].(remaining := e.payload.remaining, status := e.payload.status)]
    ensures e.payload.ReservationReleased? && e.payload.intent == id ==>
              Booked(book, e) == book[id := book[id].(remaining := e.payload.remaining, status := e.payload.status)]
    ensures e.payload.FillReceived? ==> Booked(book, e) == book
  {
  }

  // ---- Closing reports ----

  /** Where the first closing report at a time stands, or the end. */
  function ReportAt(events: seq<Event>, time: int): (i: nat)
    ensures i <= |events| && (i < |events| ==> IsReport(events[i], time))
    ensures forall j :: 0 <= j < i ==> !IsReport(events[j], time)
  {
    if events == [] || IsReport(events[0], time) then 0 else 1 + ReportAt(events[1..], time)
  }

  /** The ledger calls made up to the closing report at a time. */
  function Closing(keys: int -> set<int>, events: seq<Event>, time: int): seq<LedgerOp> {
    Calls(keys, events[..ReportAt(events, time)])
  }

  lemma ClosingStays(keys: int -> set<int>, before: seq<Event>, after: seq<Event>, time: int)
    requires before <= after && ReportAt(before, time) < |before|
    ensures Closing(keys, after, time) == Closing(keys, before, time) && ReportAt(after, time) == ReportAt(before, time)
  {
    hide ReportAt, IsReport, Calls;
    var i, j := ReportAt(before, time), ReportAt(after, time);
    assert after[i] == before[i];
    assert after[..i] == before[..i];
  }

  /** The report of a close without marks comes right after the calls of what went before. */
  lemma ClosingIs(ledger: Ledger, keys: int -> set<int>, start: seq<Event>, after: seq<Event>, time: int,
                  history: seq<LedgerOp>)
    requires Tells(ledger, keys, start, history) && start < after && IsReport(after[|start|], time)
    requires forall e <- start :: EndsSession(e.payload) ==> e.time < time
    ensures ReportAt(after, time) == |start| && Closing(keys, after, time) == history
  {
    hide Calls, Truthful, ReportAt;
    assert after[..|start|] == start;
  }

  /** A report after closing marks is found, too. */
  lemma IsReported(events: seq<Event>, i: nat, time: int)
    requires i < |events| && IsReport(events[i], time)
    ensures ReportAt(events, time) <= i
  {
    hide IsReport;
  }

  // ---- Replay makes the same calls, except that it ages nothing at a report without marks ----

  /** Calls depend on the instruments of a closing time only at closes. */
  lemma {:induction false} CallsMatter(one: int -> set<int>, other: int -> set<int>, events: seq<Event>)
    requires forall i :: 0 <= i < |events| && events[i].payload.MarketClosed? ==>
               one(events[i].time) == other(events[i].time)
    ensures Calls(one, events) == Calls(other, events)
  {
    if events != [] {
      CallsMatter(one, other, events[..|events| - 1]);
    }
  }

  /** A closing report at a time without closing marks. */
  predicate IsUnmarked(events: seq<Event>, i: nat) {
    i < |events| && events[i].payload.Snapshotted? && CloseKeys(events[..i], events[i].time) == {}
  }

  /** Replay has aged positions at exactly the closing times so far. */
  ghost predicate AgedAtCloses(s: ReplayState, events: seq<Event>) {
    forall t :: t in s.agedTimes <==> CloseKeys(events, t) != {}
  }

  lemma StepCalls(ledger: Ledger, keys: int -> set<int>, events: seq<Event>, s: ReplayState, e: Event)
    requires AgedAtCloses(s, events) && Step(ledger, keys, s, e).Ok?
    ensures var t := Step(ledger, keys, s, e).value;
      && AgedAtCloses(t, events + [e])
      && t.ledger == s.ledger + if e.payload.Snapshotted? then [] else CallsFor(keys, events, e)
  {
    hide CloseKeys, StepIntent, StepRisk, StepReserve, StepUpdate, StepRelease;
    forall t
      ensures CloseKeys(events + [e], t) ==
              CloseKeys(events, t) + if e.payload.MarketClosed? && e.time == t then {e.payload.instrument} else {}
    {
      CloseKeysNext(events, e, t);
    }
  }

  /** Without unmarked reports, replay makes exactly the calls the journal tells of. */
  lemma {:induction false} CallsAreReplayed(ledger: Ledger, keys: int -> set<int>, events: seq<Event>)
    requires events != [] && events[0].payload.RunStarted? && Replayed(ledger, keys, events).Ok?
    requires forall i :: 0 <= i < |events| ==> !IsUnmarked(events, i)
    ensures Replayed(ledger, keys, events).value.ledger == Calls(keys, events)
    ensures AgedAtCloses(Replayed(ledger, keys, events).value, events)
  {
    hide Step, CallsFor;
    var n := |events| - 1;
    var prefix, last := events[..n], events[n];
    if n == 0 {
      FirstIsSilent(keys, events);
    } else {
      forall i | 0 <= i < n
        ensures !IsUnmarked(prefix, i)
      {
        assert prefix[..i] == events[..i] && prefix[i] == events[i] && !IsUnmarked(events, i);
      }
      CallsAreReplayed(ledger, keys, prefix);
      StepCalls(ledger, keys, prefix, Replayed(ledger, keys, prefix).value, last);
      assert prefix + [last] == events && !IsUnmarked(events, n);
      MarkedReportIsSilent(keys, prefix, last);
    }
  }

  lemma FirstIsSilent(keys: int -> set<int>, events: seq<Event>)
    requires |events| == 1 && events[0].payload.RunStarted?
    ensures Calls(keys, events) == [] && forall t :: CloseKeys(events, t) == {}
  {
  }

  lemma MarkedReportIsSilent(keys: int -> set<int>, events: seq<Event>, e: Event)
    requires e.payload.Snapshotted? ==> CloseKeys(events, e.time) != {}
    ensures e.payload.Snapshotted? ==> CallsFor(keys, events, e) == []
  {
  }

  /** No session without marks is reported while a position is held. */
  ghost predicate IdleWhenUnmarked(ledger: Ledger, keys: int -> set<int>, events: seq<Event>) {
    forall i: nat :: IsUnmarked(events, i) ==> !ledger.holds(Calls(keys, events[..i]))
  }

  /** Then replay's calls cannot be told from those the journal tells of. */
  lemma {:induction false} IdleIsReplayed(ledger: Ledger, keys: int -> set<int>, events: seq<Event>)
    requires events != [] && events[0].payload.RunStarted? && Replayed(ledger, keys, events).Ok?
    requires AgesHoldings(ledger) && IdleWhenUnmarked(ledger, keys, events)
    ensures Same(ledger, Replayed(ledger, keys, events).value.ledger, Calls(keys, events))
    ensures AgedAtCloses(Replayed(ledger, keys, events).value, events)
  {
    hide Step, CallsFor, AgesHoldings, Same;
    var n := |events| - 1;
    var prefix, last := events[..n], events[n];
    if n == 0 {
      FirstIsSilent(keys, events);
      SameItself(ledger, []);
    } else {
      forall i: nat | IsUnmarked(prefix, i)
        ensures !ledger.holds(Calls(keys, prefix[..i]))
      {
        assert prefix[..i] == events[..i] && prefix[i] == events[i] && IsUnmarked(events, i);
      }
      IdleIsReplayed(ledger, keys, prefix);
      var s := Replayed(ledger, keys, prefix).value;
      StepCalls(ledger, keys, prefix, s, last);
      assert prefix + [last] == events;
      SameNext(ledger, keys, prefix, s.ledger, last, IsUnmarked(events, n));
    }
  }

  lemma SameNext(ledger: Ledger, keys: int -> set<int>, events: seq<Event>, replayed: seq<LedgerOp>, e: Event,
                 unmarked: bool)
    requires AgesHoldings(ledger) && Same(ledger, replayed, Calls(keys, events))
    requires unmarked <==> e.payload.Snapshotted? && CloseKeys(events, e.time) == {}
    requires unmarked ==> !ledger.holds(Calls(keys, events))
    ensures Same(ledger, replayed + if e.payload.Snapshotted? then [] else CallsFor(keys, events, e),
                 Calls(keys, events) + CallsFor(keys, events, e))
  {
    hide Calls, Same;
    var calls, more := Calls(keys, events), CallsFor(keys, events, e);
    if unmarked {
      assert more == [Aged({})] && replayed + [] == replayed;
      SameThrough(ledger, replayed, calls, calls + more);
    } else {
      MarkedReportIsSilent(keys, events, e);
      SameAfterAll(ledger, replayed, calls, more);
    }
  }

  lemma {:induction false} SameAfterAll(ledger: Ledger, a: seq<LedgerOp>, b: seq<LedgerOp>, more: seq<LedgerOp>)
    requires Same(ledger, a, b)
    ensures Same(ledger, a + more, b + more)
    decreases |more|
  {
    hide Same;
    if more == [] {
      assert a + more == a && b + more == b;
    } else {
      SameAfter(ledger, a, b, more[0]);
      SameAfterAll(ledger, a + [more[0]], b + [more[0]], more[1..]);
      assert a + [more[0]] + more[1..] == a + more && b + [more[0]] + more[1..] == b + more;
    }
  }

  /** A truthful journal with a report that is unmarked while a position is held is refused: the report shows it. */
  lemma {:induction false} HeldUnmarkedIsRejected(ledger: Ledger, keys: int -> set<int>, events: seq<Event>, i: nat)
    requires events != [] && events[0].payload.RunStarted? && Truthful(ledger, keys, events)
    requires AgesHoldings(ledger) && IsUnmarked(events, i) && ledger.holds(Calls(keys, events[..i]))
    ensures Replayed(ledger, keys, events).Err?
    decreases i
  {
    hide AgesHoldings, Calls;
    var prefix := events[..i];
    if IdleWhenUnmarked(ledger, keys, prefix) {
      ReportRefused(ledger, keys, events, i);
      FailureSticks(ledger, keys, events, i + 1);
    } else {
      var j: nat :| IsUnmarked(prefix, j) && ledger.holds(Calls(keys, prefix[..j]));
      assert prefix[..j] == events[..j] && prefix[j] == events[j];
      HeldUnmarkedIsRejected(ledger, keys, events, j);
    }
  }

  /** The first such report is where replay stops, if not before. */
  lemma ReportRefused(ledger: Ledger, keys: int -> set<int>, events: seq<Event>, i: nat)
    requires events != [] && events[0].payload.RunStarted? && Truthful(ledger, keys, events)
    requires AgesHoldings(ledger) && IsUnmarked(events, i) && ledger.holds(Calls(keys, events[..i]))
    requires IdleWhenUnmarked(ledger, keys, events[..i])
    ensures Replayed(ledger, keys, events[..i + 1]).Err?
  {
    hide Step, Calls, IdleWhenUnmarked, Same;
    var prefix, e := events[..i], events[i];
    assert prefix[0] == events[0] && prefix + [e] == events[..i + 1];
    ReplayedNext(ledger, keys, prefix, e);
    if Replayed(ledger, keys, prefix).Ok? {
      var s := Replayed(ledger, keys, prefix).value;
      IdleIsReplayed(ledger, keys, prefix);
      var calls := Calls(keys, prefix);
      CallsNext(keys, prefix, e);
      assert IsTrue(ledger, Calls(keys, events[..i + 1]), e);
      assert AgeingShows(ledger, calls);
      SameNow(ledger, s.ledger, calls, e.time);
      SnapshotRefused(ledger, keys, s, e);
    }
  }
}
