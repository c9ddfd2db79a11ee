/** What the journal of a backtest must report of every session and date, and in which order. */
module EngineReports {
  import opened BacktestJournal
  import opened EngineModel
  import opened Simulation
  import opened Sorting

  ghost predicate Has(events: seq<Event>, time: int, payload: Payload) {
    exists i :: 0 <= i < |events| && events[i].time == time && events[i].payload == payload
  }

  /** An event after the first `n` reports this. */
  ghost predicate HasSince(n: nat, events: seq<Event>, time: int, payload: Payload) {
    exists i :: n <= i < |events| && events[i].time == time && events[i].payload == payload
  }

  /** Both are reported at this time, one before the other. */
  ghost predicate Precedes(events: seq<Event>, time: int, first: Payload, second: Payload) {
    exists i, k ::
      && 0 <= i < k < |events| && events[i].time == events[k].time == time
      && events[i].payload == first && events[k].payload == second
  }

  lemma HasAppended(events: seq<Event>, e: Event)
    ensures HasSince(|events|, events + [e], e.time, e.payload) && Has(events + [e], e.time, e.payload)
  {
    assert (events + [e])[|events|] == e;
  }

  lemma HasStays(before: seq<Event>, after: seq<Event>, time: int, payload: Payload)
    requires before <= after && Has(before, time, payload)
    ensures Has(after, time, payload)
  {
    var i :| 0 <= i < |before| && before[i].time == time && before[i].payload == payload;
    assert after[i] == before[i];
  }

  lemma HasSinceStays(n: nat, before: seq<Event>, after: seq<Event>, time: int, payload: Payload)
    requires before <= after && HasSince(n, before, time, payload)
    ensures HasSince(n, after, time, payload) && Has(after, time, payload)
  {
    var i :| n <= i < |before| && before[i].time == time && before[i].payload == payload;
    assert after[i] == before[i];
  }

  lemma PrecedesStays(before: seq<Event>, after: seq<Event>, time: int, first: Payload, second: Payload)
    requires before <= after && Precedes(before, time, first, second)
    ensures Precedes(after, time, first, second)
  {
    var i, k :| 0 <= i < k < |before| && before[i].time == before[k].time == time && before[i].payload == first
                && before[k].payload == second;
    assert after[i] == before[i] && after[k] == before[k];
  }

  lemma PrecedesNext(before: seq<Event>, after: seq<Event>, time: int, first: Payload, second: Payload)
    requires before <= after && Has(before, time, first) && HasSince(|before|, after, time, second)
    ensures Precedes(after, time, first, second)
  {
    var i :| 0 <= i < |before| && before[i].time == time && before[i].payload == first;
    var k :| |before| <= k < |after| && after[k].time == time && after[k].payload == second;
    assert after[i] == before[i];
  }

  lemma PrecedesHas(events: seq<Event>, time: int, first: Payload, second: Payload)
    requires Precedes(events, time, first, second)
    ensures Has(events, time, first) && Has(events, time, second)
  {
  }

  // ---- Targets and marks, by instrument ----

  ghost predicate Targets(events: seq<Event>, time: int, targets: seq<Target>) {
    && (forall t <- targets :: Has(events, time, TargetSet(t.instrument)))
    && forall t, u :: t in targets && u in targets && t.instrument < u.instrument ==>
         Precedes(events, time, TargetSet(t.instrument), TargetSet(u.instrument))
  }

  ghost predicate Opens(events: seq<Event>, time: int, quotes: seq<Quote>) {
    && (forall q <- quotes :: Has(events, time, MarketOpened(q.instrument, q.open)))
    && forall q, r :: q in quotes && r in quotes && q.instrument < r.instrument ==>
         Precedes(events, time, MarketOpened(q.instrument, q.open), MarketOpened(r.instrument, r.open))
  }

  ghost predicate Closes(events: seq<Event>, time: int, quotes: seq<Quote>) {
    && (forall q <- quotes :: Has(events, time, MarketClosed(q.instrument, q.close)))
    && forall q, r :: q in quotes && r in quotes && q.instrument < r.instrument ==>
         Precedes(events, time, MarketClosed(q.instrument, q.close), MarketClosed(r.instrument, r.close))
  }

  /** Every target, opening mark and closing mark of a session, and its closing report. */
  ghost predicate Reported(events: seq<Event>, targets: seq<Target>, s: Session) {
    Targets(events, s.decision, targets) && Opens(events, s.execution, s.quotes) && Closes(events, s.close, s.quotes)
    && HasReport(events, s.close)
  }

  /** The closing snapshot, then its reconciliation. */
  ghost predicate HasReport(events: seq<Event>, time: int) {
    exists checksum, journal ::
      Precedes(events, time, Snapshotted(checksum, journal), Reconciled(checksum, journal))
  }

  lemma ReportIs(events: seq<Event>, time: int) returns (k: nat)
    requires HasReport(events, time)
    ensures k < |events| && events[k].time == time && events[k].payload.Snapshotted?
  {
    var checksum, journal :| Precedes(events, time, Snapshotted(checksum, journal), Reconciled(checksum, journal));
    k :| 0 <= k < |events| && events[k].time == time && events[k].payload == Snapshotted(checksum, journal);
  }

  // ---- The accounting of a date ----

  ghost predicate SettledBefore(events: seq<Event>, date: int, a: Action) {
    exists processed, effect ::
      Precedes(events, AccountingTime(date), SettlementProcessed(date, processed), ActionApplied(a, effect))
  }

  ghost predicate AppliedBefore(events: seq<Event>, time: int, a: Action, b: Action) {
    exists x, y :: Precedes(events, time, ActionApplied(a, x), ActionApplied(b, y))
  }

  /** The settlements of a date, and then every corporate action, by identity. */
  ghost predicate Accounted(events: seq<Event>, date: int, today: seq<Action>) {
    && (exists processed :: Has(events, AccountingTime(date), SettlementProcessed(date, processed)))
    && (forall a <- today :: SettledBefore(events, date, a))
    && (forall a, b :: a in today && b in today && a.id < b.id ==> AppliedBefore(events, AccountingTime(date), a, b))
  }

  // ---- Reports stay ----

  lemma AllStay(before: seq<Event>, after: seq<Event>, time: int)
    requires before <= after
    ensures forall payload :: Has(before, time, payload) ==> Has(after, time, payload)
    ensures forall first, second :: Precedes(before, time, first, second) ==> Precedes(after, time, first, second)
  {
    hide Has, Precedes;
    forall payload | Has(before, time, payload)
      ensures Has(after, time, payload)
    {
      HasStays(before, after, time, payload);
    }
    forall first, second | Precedes(before, time, first, second)
      ensures Precedes(after, time, first, second)
    {
      PrecedesStays(before, after, time, first, second);
    }
  }

  lemma ReportsStay(before: seq<Event>, after: seq<Event>, time: int, targets: seq<Target>, quotes: seq<Quote>)
    requires before <= after
    ensures Targets(before, time, targets) ==> Targets(after, time, targets)
    ensures Opens(before, time, quotes) ==> Opens(after, time, quotes)
    ensures Closes(before, time, quotes) ==> Closes(after, time, quotes)
  {
    hide Has, Precedes;
    AllStay(before, after, time);
  }

  lemma AccountedStays(before: seq<Event>, after: seq<Event>, date: int, today: seq<Action>)
    requires before <= after && Accounted(before, date, today)
    ensures Accounted(after, date, today)
  {
    hide Has, Precedes, AccountingTime;
    AllStay(before, after, AccountingTime(date));
    forall a | a in today
      ensures SettledBefore(after, date, a)
    {
      assert SettledBefore(before, date, a);
    }
    forall a, b | a in today && b in today && a.id < b.id
      ensures AppliedBefore(after, AccountingTime(date), a, b)
    {
      assert AppliedBefore(before, AccountingTime(date), a, b);
    }
  }

  lemma ReportStays(before: seq<Event>, after: seq<Event>, time: int)
    requires before <= after && HasReport(before, time)
    ensures HasReport(after, time)
  {
    hide Precedes;
    var checksum, journal :| Precedes(before, time, Snapshotted(checksum, journal), Reconciled(checksum, journal));
    PrecedesStays(before, after, time, Snapshotted(checksum, journal), Reconciled(checksum, journal));
  }

  /** What a session reports stays in the journal while it trades. */
  lemma ReportsUpToTrading(decided: seq<Event>, settled: seq<Event>, marked: seq<Event>, traded: seq<Event>,
                           s: Session, targets: seq<Target>, today: seq<Action>)
    requires decided <= settled <= marked <= traded
    requires Targets(decided, s.decision, targets) && Accounted(settled, s.tradeDate, today)
             && Opens(marked, s.execution, s.quotes)
    ensures Targets(traded, s.decision, targets) && Accounted(traded, s.tradeDate, today)
            && Opens(traded, s.execution, s.quotes)
  {
    hide Targets, Accounted, Opens;
    ReportsStay(decided, traded, s.decision, targets, []);
    AccountedStays(settled, traded, s.tradeDate, today);
    ReportsStay(marked, traded, s.execution, [], s.quotes);
  }

  lemma ReportedStays(before: seq<Event>, after: seq<Event>, targets: seq<Target>, s: Session)
    requires before <= after && Reported(before, targets, s)
    ensures Reported(after, targets, s)
  {
    hide Has, Targets, Opens, Closes, HasReport;
    ReportsStay(before, after, s.decision, targets, s.quotes);
    ReportsStay(before, after, s.execution, targets, s.quotes);
    ReportsStay(before, after, s.close, targets, s.quotes);
    ReportStays(before, after, s.close);
  }

  // ---- The lists are reported in the order of their keys ----

  predicate TargetsAscend(targets: seq<Target>) {
    forall i, j :: 0 <= i < j < |targets| ==> targets[i].instrument <= targets[j].instrument
  }

  predicate QuotesAscend(quotes: seq<Quote>) {
    forall i, j :: 0 <= i < j < |quotes| ==> quotes[i].instrument <= quotes[j].instrument
  }

  predicate ActionsAscend(actions: seq<Action>) {
    forall i, j :: 0 <= i < j < |actions| ==> actions[i].id <= actions[j].id
  }

  lemma SortedTargetsAscend(targets: seq<Target>)
    ensures TargetsAscend(Sorted(targets, TargetBefore))
  {
    hide Sorted;
    SortedIsOrdered(targets, TargetBefore);
    var sorted := Sorted(targets, TargetBefore);
    assert forall i, j :: 0 <= i < j < |sorted| ==> !TargetBefore(sorted[j], sorted[i]);
  }

  lemma SortedQuotesAscend(quotes: seq<Quote>)
    ensures QuotesAscend(Sorted(quotes, QuoteBefore))
  {
    hide Sorted;
    SortedIsOrdered(quotes, QuoteBefore);
    var sorted := Sorted(quotes, QuoteBefore);
    assert forall i, j :: 0 <= i < j < |sorted| ==> !QuoteBefore(sorted[j], sorted[i]);
  }

  lemma SortedActionsAscend(actions: seq<Action>)
    ensures ActionsAscend(Sorted(actions, ActionBefore))
  {
    hide Sorted;
    SortedIsOrdered(actions, ActionBefore);
    var sorted := Sorted(actions, ActionBefore);
    assert forall i, j :: 0 <= i < j < |sorted| ==> !ActionBefore(sorted[j], sorted[i]);
  }

  // ---- Reporting a list, item by item ----

  lemma TargetsOneMore(before: seq<Event>, after: seq<Event>, time: int, targets: seq<Target>, i: nat)
    requires before <= after && i < |targets| && Targets(before, time, targets[..i])
    requires TargetsAscend(targets)
    requires HasSince(|before|, after, time, TargetSet(targets[i].instrument))
    ensures Targets(after, time, targets[..i + 1])
  {
    hide Has, HasSince, Precedes;
    AllStay(before, after, time);
    HasSinceStays(|before|, after, after, time, TargetSet(targets[i].instrument));
    var more := targets[..i + 1];
    assert more == targets[..i] + [targets[i]];
    forall t, u | t in more && u in more && t.instrument < u.instrument
      ensures Precedes(after, time, TargetSet(t.instrument), TargetSet(u.instrument))
    {
      if u !in targets[..i] {
        PrecedesNext(before, after, time, TargetSet(t.instrument), TargetSet(u.instrument));
      }
    }
  }

  lemma OpensOneMore(before: seq<Event>, after: seq<Event>, time: int, quotes: seq<Quote>, i: nat)
    requires before <= after && i < |quotes| && Opens(before, time, quotes[..i])
    requires QuotesAscend(quotes)
    requires HasSince(|before|, after, time, MarketOpened(quotes[i].instrument, quotes[i].open))
    ensures Opens(after, time, quotes[..i + 1])
  {
    hide Has, HasSince, Precedes;
    AllStay(before, after, time);
    HasSinceStays(|before|, after, after, time, MarketOpened(quotes[i].instrument, quotes[i].open));
    var more := quotes[..i + 1];
    assert more == quotes[..i] + [quotes[i]];
    forall q, r | q in more && r in more && q.instrument < r.instrument
      ensures Precedes(after, time, MarketOpened(q.instrument, q.open), MarketOpened(r.instrument, r.open))
    {
      if r !in quotes[..i] {
        PrecedesNext(before, after, time, MarketOpened(q.instrument, q.open), MarketOpened(r.instrument, r.open));
      }
    }
  }

  lemma ClosesOneMore(before: seq<Event>, after: seq<Event>, time: int, quotes: seq<Quote>, i: nat)
    requires before <= after && i < |quotes| && Closes(before, time, quotes[..i])
    requires QuotesAscend(quotes)
    requires HasSince(|before|, after, time, MarketClosed(quotes[i].instrument, quotes[i].close))
    ensures Closes(after, time, quotes[..i + 1])
  {
    hide Has, HasSince, Precedes;
    AllStay(before, after, time);
    HasSinceStays(|before|, after, after, time, MarketClosed(quotes[i].instrument, quotes[i].close));
    var more := quotes[..i + 1];
    assert more == quotes[..i] + [quotes[i]];
    forall q, r | q in more && r in more && q.instrument < r.instrument
      ensures Precedes(after, time, MarketClosed(q.instrument, q.close), MarketClosed(r.instrument, r.close))
    {
      if r !in quotes[..i] {
        PrecedesNext(before, after, time, MarketClosed(q.instrument, q.close), MarketClosed(r.instrument, r.close));
      }
    }
  }

  lemma ReportsNothing(events: seq<Event>, time: int, targets: seq<Target>, quotes: seq<Quote>)
    ensures Targets(events, time, targets[..0]) && Opens(events, time, quotes[..0]) && Closes(events, time, quotes[..0])
  {
  }

  /** The order of the list does not matter. */
  lemma ReportsSame(events: seq<Event>, time: int, targets: seq<Target>, sortedTargets: seq<Target>,
                    quotes: seq<Quote>, sortedQuotes: seq<Quote>)
    requires (forall t :: t in sortedTargets <==> t in targets) && forall q :: q in sortedQuotes <==> q in quotes
    ensures Targets(events, time, sortedTargets) ==> Targets(events, time, targets)
    ensures Opens(events, time, sortedQuotes) ==> Opens(events, time, quotes)
    ensures Closes(events, time, sortedQuotes) ==> Closes(events, time, quotes)
  {
    hide Has, Precedes;
  }

  lemma AccountedOneMore(before: seq<Event>, after: seq<Event>, date: int, actions: seq<Action>, i: nat, effect: int)
    requires before <= after && i < |actions| && Accounted(before, date, actions[..i])
    requires ActionsAscend(actions)
    requires HasSince(|before|, after, AccountingTime(date), ActionApplied(actions[i], effect))
    ensures Accounted(after, date, actions[..i + 1])
  {
    hide Has, HasSince, Precedes, AccountingTime;
    var time, a := AccountingTime(date), actions[i];
    AccountedStays(before, after, date, actions[..i]);
    var more := actions[..i + 1];
    assert more == actions[..i] + [a];
    var processed :| Has(before, time, SettlementProcessed(date, processed));
    PrecedesNext(before, after, time, SettlementProcessed(date, processed), ActionApplied(a, effect));
    assert SettledBefore(after, date, a);
    forall b, c | b in more && c in more && b.id < c.id
      ensures AppliedBefore(after, time, b, c)
    {
      if c !in actions[..i] {
        AppliedNext(before, after, date, b, c, effect);
      }
    }
  }

  lemma AppliedNext(before: seq<Event>, after: seq<Event>, date: int, a: Action, b: Action, effect: int)
    requires before <= after && SettledBefore(before, date, a)
    requires HasSince(|before|, after, AccountingTime(date), ActionApplied(b, effect))
    ensures AppliedBefore(after, AccountingTime(date), a, b)
  {
    hide Has, HasSince, Precedes, AccountingTime;
    var time := AccountingTime(date);
    var processed, x :| Precedes(before, time, SettlementProcessed(date, processed), ActionApplied(a, x));
    PrecedesHas(before, time, SettlementProcessed(date, processed), ActionApplied(a, x));
    PrecedesNext(before, after, time, ActionApplied(a, x), ActionApplied(b, effect));
  }

  lemma NothingApplied(events: seq<Event>, date: int, processed: seq<string>, actions: seq<Action>)
    requires Has(events, AccountingTime(date), SettlementProcessed(date, processed))
    ensures Accounted(events, date, actions[..0])
  {
    hide Has;
  }

  lemma AccountedSame(events: seq<Event>, date: int, today: seq<Action>, sorted: seq<Action>)
    requires (forall a :: a in sorted <==> a in today) && Accounted(events, date, sorted)
    ensures Accounted(events, date, today)
  {
    hide Has, Precedes;
  }
}
