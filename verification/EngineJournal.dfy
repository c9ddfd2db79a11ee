/** Facts about a growing journal: its order, its closes and the replay of one more event. */
module EngineJournal {
  import opened BacktestJournal
  import opened EngineModel
  import opened Replay
  import opened Simulation

  predicate Underway(events: seq<Event>) {
    && events != [] && events[0].payload.RunStarted? && WellFormed(events)
    && forall i :: 0 <= i < |events| ==> !events[i].payload.RunCompleted?
  }

  function LastTime(events: seq<Event>): int {
    if events == [] then 0 else events[|events| - 1].time
  }

  /** The events of a session's close. */
  predicate EndsSession(payload: Payload) {
    payload.MarketClosed? || payload.Snapshotted?
  }

  predicate IsReport(e: Event, time: int) {
    e.payload.Snapshotted? && e.time == time
  }

  /** The events of an order, from its risk decision on. */
  predicate IsTrade(payload: Payload) {
    || payload.RiskDecided? || payload.OrderReserved? || payload.FillReceived?
    || payload.ReservationUpdated? || payload.ReservationReleased?
  }

  /** Events behind which there is no ledger call. */
  predicate IsSilent(payload: Payload) {
    || payload.RunStarted? || payload.TargetSet? || payload.IntentCreated?
    || (IsTrade(payload) && (payload.FillReceived? ==> payload.fill.None?))
  }

  /**
    * Nothing before is changed; what is new carries the given time, belongs to no close, and to no order unless
    * trading.
    */
  predicate Extends(before: seq<Event>, after: seq<Event>, time: int, trading: bool) {
    && before <= after
    && forall i :: |before| <= i < |after| ==>
         after[i].time == time && !EndsSession(after[i].payload) && (IsTrade(after[i].payload) ==> trading)
  }

  lemma ExtendsItself(a: seq<Event>, time: int, trading: bool)
    ensures Extends(a, a, time, trading)
  {
  }

  lemma ExtendsPrefix(a: seq<Event>, b: seq<Event>, time: int, trading: bool)
    requires Extends(a, b, time, trading)
    ensures a <= b
  {
  }

  lemma ExtendsTwice(a: seq<Event>, b: seq<Event>, c: seq<Event>, time: int, trading: bool)
    requires Extends(a, b, time, trading) && Extends(b, c, time, trading)
    ensures Extends(a, c, time, trading)
  {
  }

  lemma ExtendsThrice(a: seq<Event>, b: seq<Event>, c: seq<Event>, d: seq<Event>, time: int, trading: bool)
    requires Extends(a, b, time, trading) && Extends(b, c, time, trading) && Extends(c, d, time, trading)
    ensures Extends(a, d, time, trading)
  {
  }

  lemma PartialNext(events: seq<Event>, e: Event)
    ensures HasPartialFill(events + [e]) <==> HasPartialFill(events) || IsPartial(e.payload)
  {
    var all := events + [e];
    if HasPartialFill(events) {
      var i :| 0 <= i < |events| && IsPartial(events[i].payload);
      assert IsPartial(all[i].payload);
    }
    if IsPartial(e.payload) {
      assert IsPartial(all[|events|].payload);
    }
  }

  lemma ReplayedNext(ledger: Ledger, keys: int -> set<int>, events: seq<Event>, e: Event)
    requires events != []
    ensures Replayed(ledger, keys, events + [e]) ==
            if Replayed(ledger, keys, events).Err? then Replayed(ledger, keys, events)
            else Step(ledger, keys, Replayed(ledger, keys, events).value, e)
  {
    var all := events + [e];
    assert all[..|all| - 1] == events;
  }

  lemma {:induction false} InOrder(events: seq<Event>, i: nat, j: nat)
    requires WellFormed(events) && i <= j < |events|
    ensures events[i].time <= events[j].time
    decreases j
  {
    if i < j {
      InOrder(events, i, j - 1);
    }
  }

  ghost predicate ClosesMatch(events: seq<Event>, keys: int -> set<int>) {
    forall i :: 0 <= i < |events| && events[i].payload.MarketClosed? ==>
      CloseKeys(events, events[i].time) == keys(events[i].time)
  }

  lemma CloseKeysNext(events: seq<Event>, e: Event, time: int)
    ensures CloseKeys(events + [e], time) ==
            CloseKeys(events, time) + if e.payload.MarketClosed? && e.time == time then {e.payload.instrument} else {}
  {
    var all := events + [e];
    forall k
      ensures k in CloseKeys(all, time) <==>
                k in CloseKeys(events, time) + if e.payload.MarketClosed? && e.time == time then {e.payload.instrument}
                else {}
    {
      if k in CloseKeys(all, time) {
        var c :| c in all && c.payload.MarketClosed? && c.time == time && c.payload.instrument == k;
        assert c in events || c == e;
      }
      if k in CloseKeys(events, time) {
        var c :| c in events && c.payload.MarketClosed? && c.time == time && c.payload.instrument == k;
        assert c in all;
      }
      assert e in all;
    }
  }

  lemma {:induction false} CloseKeysExtend(before: seq<Event>, after: seq<Event>, time: int, trading: bool, t: int)
    requires Extends(before, after, time, trading)
    ensures CloseKeys(after, t) == CloseKeys(before, t)
    decreases |after|
  {
    if |before| < |after| {
      var prefix, last := after[..|after| - 1], after[|after| - 1];
      CloseKeysExtend(before, prefix, time, trading, t);
      CloseKeysNext(prefix, last, t);
      assert prefix + [last] == after;
    } else {
      assert before == after;
    }
  }

  lemma ClosesStillMatch(before: seq<Event>, after: seq<Event>, time: int, trading: bool, keys: int -> set<int>)
    requires Extends(before, after, time, trading) && ClosesMatch(before, keys)
    ensures ClosesMatch(after, keys)
  {
    forall i | 0 <= i < |after| && after[i].payload.MarketClosed?
      ensures CloseKeys(after, after[i].time) == keys(after[i].time)
    {
      assert after[i] == before[i];
      CloseKeysExtend(before, after, time, trading, after[i].time);
    }
  }

  lemma OldCloses(before: seq<Event>, after: seq<Event>, time: int, trading: bool)
    requires Extends(before, after, time, trading)
    ensures forall e <- after :: EndsSession(e.payload) ==> e in before
  {
    forall e | e in after && EndsSession(e.payload)
      ensures e in before
    {
      var i :| 0 <= i < |after| && after[i] == e;
      assert after[i] == before[i];
    }
  }

  /** A session up to its last order adds no close; orders trade at its end only. */
  lemma NoCloses(a: seq<Event>, b: seq<Event>, c: seq<Event>, d: seq<Event>, e: seq<Event>, t: int, u: int, v: int,
                 keys: int -> set<int>)
    requires Extends(a, b, t, false) && Extends(b, c, u, false) && Extends(c, d, v, false) && Extends(d, e, v, true)
    requires ClosesMatch(a, keys)
    ensures ClosesMatch(e, keys) && a <= b <= c <= d <= e && a <= e
    ensures forall x <- e :: EndsSession(x.payload) ==> x in a
    ensures forall i :: |a| <= i < |e| && IsTrade(e[i].payload) ==> |d| <= i && e[i].time == v
  {
    hide ClosesMatch, EndsSession, IsTrade;
    ClosesStillMatch(a, b, t, false, keys);
    ClosesStillMatch(b, c, u, false, keys);
    ClosesStillMatch(c, d, v, false, keys);
    ClosesStillMatch(d, e, v, true, keys);
    OldCloses(a, b, t, false);
    OldCloses(b, c, u, false);
    OldCloses(c, d, v, false);
    OldCloses(d, e, v, true);
  }

  lemma ClosesAreBefore(events: seq<Event>, session: Session)
    requires session.Valid() && forall e <- events :: EndsSession(e.payload) ==> DateOf(e.time) < session.tradeDate
    ensures forall e <- events :: EndsSession(e.payload) ==> e.time < session.close
  {
  }

  /** The events since the start all close an instrument at one time, and close exactly these. */
  ghost predicate ClosesSince(start: seq<Event>, events: seq<Event>, close: int, done: set<int>) {
    && start <= events
    && (forall i :: |start| <= i < |events| ==> events[i].payload.MarketClosed? && events[i].time == close)
    && CloseKeys(events, close) == done
    && (forall t :: t != close ==> CloseKeys(events, t) == CloseKeys(start, t))
  }

  lemma NoCloseYet(events: seq<Event>, time: int)
    requires forall e <- events :: EndsSession(e.payload) ==> e.time < time
    ensures CloseKeys(events, time) == {}
    ensures forall quotes: seq<Quote> {:trigger Instruments(quotes)} :: quotes == [] ==>
              ClosesSince(events, events, time, Instruments(quotes))
  {
    assert CloseKeys(events, time) == {};
  }

  lemma ClosesSinceNext(start: seq<Event>, events: seq<Event>, e: Event, close: int, quotes: seq<Quote>, i: nat)
    requires i < |quotes| && ClosesSince(start, events, close, Instruments(quotes[..i]))
    requires e.payload.MarketClosed? && e.payload.instrument == quotes[i].instrument && e.time == close
    ensures ClosesSince(start, events + [e], close, Instruments(quotes[..i + 1]))
  {
    hide CloseKeys;
    forall t
      ensures CloseKeys(events + [e], t) == CloseKeys(events, t) + if t == close then {quotes[i].instrument} else {}
    {
      CloseKeysNext(events, e, t);
    }
    assert quotes[..i + 1] == quotes[..i] + [quotes[i]];
    assert Instruments(quotes[..i + 1]) == Instruments(quotes[..i]) + {quotes[i].instrument};
  }

  lemma SessionCloses(start: seq<Event>, closed: seq<Event>, close: int, keys: int -> set<int>)
    requires ClosesMatch(start, keys) && ClosesSince(start, closed, close, keys(close))
    requires forall e <- start :: EndsSession(e.payload) ==> e.time < close
    ensures ClosesMatch(closed, keys) && start <= closed && CloseKeys(closed, close) == keys(close)
    ensures forall e <- closed :: EndsSession(e.payload) ==> e in start || e.time == close
    ensures forall i :: |start| <= i < |closed| ==> closed[i].time == close && !IsTrade(closed[i].payload)
  {
    hide CloseKeys;
    forall i | 0 <= i < |closed| && closed[i].payload.MarketClosed?
      ensures CloseKeys(closed, closed[i].time) == keys(closed[i].time)
    {
      if i < |start| {
        assert closed[i] == start[i];
        assert start[i] in start;
      }
    }
  }

  /** A closing report and its reconciliation are added. */
  predicate Reports(before: seq<Event>, after: seq<Event>, time: int) {
    && before <= after && |after| == |before| + 2 && IsReport(after[|before|], time)
    && after[|before| + 1].payload.Reconciled? && after[|before| + 1].time == time
  }

  lemma ReportEnds(before: seq<Event>, after: seq<Event>, time: int, keys: int -> set<int>)
    requires Reports(before, after, time) && ClosesMatch(before, keys)
    ensures ClosesMatch(after, keys) && before <= after
    ensures forall e <- after :: EndsSession(e.payload) ==> e in before || e.time == time
    ensures forall i :: |before| <= i < |after| ==> after[i].time == time && !IsTrade(after[i].payload)
  {
    hide CloseKeys;
    var n := |before|;
    assert after == before + [after[n]] + [after[n + 1]];
    forall i | 0 <= i < |after| && after[i].payload.MarketClosed?
      ensures CloseKeys(after, after[i].time) == keys(after[i].time)
    {
      assert after[i] == before[i];
      CloseKeysNext(before, after[n], after[i].time);
      CloseKeysNext(before + [after[n]], after[n + 1], after[i].time);
    }
    forall e | e in after && EndsSession(e.payload)
      ensures e in before || e.time == time
    {
      var i :| 0 <= i < |after| && after[i] == e;
    }
  }

  /** Replay reads its close keys only at the closes of the journal. */
  lemma {:induction false} KeysMatter(ledger: Ledger, one: int -> set<int>, other: int -> set<int>, events: seq<Event>)
    requires events != []
    requires forall i :: 0 <= i < |events| && events[i].payload.MarketClosed? ==>
               one(events[i].time) == other(events[i].time)
    ensures Replayed(ledger, one, events) == Replayed(ledger, other, events)
  {
    hide StepIntent, StepAction, StepRisk, StepReserve, StepFill, StepUpdate, StepRelease, StepSnapshot, StepCompleted,
         Do, Check;
    if |events| > 1 {
      var prefix := events[..|events| - 1];
      forall i | 0 <= i < |prefix| && prefix[i].payload.MarketClosed?
        ensures one(prefix[i].time) == other(prefix[i].time)
      {
        assert prefix[i] == events[i];
      }
      KeysMatter(ledger, one, other, prefix);
    }
  }

  lemma OwnKeysAgree(ledger: Ledger, keys: int -> set<int>, events: seq<Event>)
    requires events != [] && ClosesMatch(events, keys)
    ensures Replayed(ledger, ClosesOf(events), events) == Replayed(ledger, keys, events)
  {
    KeysMatter(ledger, ClosesOf(events), keys, events);
  }
}
