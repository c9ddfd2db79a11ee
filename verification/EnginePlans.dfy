/** The orders planned by one session's decisions. */
module EnginePlans {
  import opened BacktestJournal
  import opened EngineFollows
  import opened EngineModel
  import opened FeeTax
  import opened Replay
  import opened Simulation
  import opened Sorting
  import opened Wrappers

  function Instrumented(targets: seq<Target>): set<int> {
    set t <- targets :: t.instrument
  }

  lemma InstrumentedNext(targets: seq<Target>, i: nat)
    requires i < |targets| && Distinct(targets, TargetInstrument)
    ensures Instrumented(targets[..i + 1]) == Instrumented(targets[..i]) + {targets[i].instrument}
    ensures targets[i].instrument !in Instrumented(targets[..i])
  {
    assert targets[..i + 1] == targets[..i] + [targets[i]];
    forall t | t in targets[..i]
      ensures t.instrument != targets[i].instrument
    {
      var j :| 0 <= j < i && targets[j] == t;
      assert TargetInstrument(targets[j]) != TargetInstrument(targets[i]);
    }
  }

  lemma SameInstrumented(one: seq<Target>, other: seq<Target>)
    requires forall t :: t in one <==> t in other
    ensures Instrumented(one) == Instrumented(other)
  {
  }

  function Added(planned: seq<Planned>, plan: Option<Planned>): seq<Planned> {
    if plan.Some? then planned + [plan.value] else planned
  }

  /** The plan follows every target seen so far. */
  ghost predicate FollowsAll(fees: FeeTaxPolicy, world: World, session: Session, history: seq<LedgerOp>,
                             targets: seq<Target>, planned: seq<Planned>) {
    forall t <- targets :: FollowsTarget(fees, world, session, history, t, planned)
  }

  function PlannedInstrument(p: Planned): int {
    p.id.instrument
  }

  /** The plan follows every target of the session, and holds at most one order for each and no other. */
  ghost predicate PlansExactly(config: Config, world: World, session: Session, history: seq<LedgerOp>,
                               planned: seq<Planned>) {
    && FollowsAll(config.fees, world, session, history, world.targets(session), planned)
    && Distinct(planned, PlannedInstrument)
    && forall p <- planned ::
         p.id.instrument in Instrumented(world.targets(session)) && p.id.decidedAt == session.decision
  }

  /** The order's intent is in the journal, under the identity its trades refer to. */
  ghost predicate Announced(events: seq<Event>, p: Planned) {
    exists i ::
      0 <= i < |events| && events[i].id == p.event && events[i].payload == IntentCreated(p.id, IntentKey(p.id))
  }

  lemma AnnouncedStays(before: seq<Event>, after: seq<Event>, p: Planned)
    requires before <= after && Announced(before, p)
    ensures Announced(after, p)
  {
    var i :| 0 <= i < |before| && before[i].id == p.event && before[i].payload == IntentCreated(p.id, IntentKey(p.id));
    assert after[i] == before[i];
  }

  lemma AnnouncedOneMore(before: seq<Event>, after: seq<Event>, planned: seq<Planned>, plan: Option<Planned>)
    requires before <= after && forall p <- planned :: Announced(before, p)
    requires plan.Some? ==> Announced(after, plan.value)
    ensures forall p <- Added(planned, plan) :: Announced(after, p)
  {
    hide Announced;
    forall p | p in planned
      ensures Announced(after, p)
    {
      AnnouncedStays(before, after, p);
    }
  }

  lemma FollowsOneMore(fees: FeeTaxPolicy, world: World, session: Session, history: seq<LedgerOp>,
                       targets: seq<Target>, i: nat,
                       planned: seq<Planned>, plan: Option<Planned>)
    requires i < |targets| && Distinct(targets, TargetInstrument)
             && FollowsAll(fees, world, session, history, targets[..i], planned)
    requires FollowsTarget(fees, world, session, history, targets[i], Added(planned, plan))
    requires plan.Some? ==> plan.value.id.instrument == targets[i].instrument
    ensures FollowsAll(fees, world, session, history, targets[..i + 1], Added(planned, plan))
  {
    hide FollowsTarget;
    assert targets[..i + 1] == targets[..i] + [targets[i]];
    forall t | t in targets[..i]
      ensures FollowsTarget(fees, world, session, history, t, Added(planned, plan))
    {
      if plan.Some? {
        var j :| 0 <= j < i && targets[j] == t;
        assert TargetInstrument(targets[j]) != TargetInstrument(targets[i]);
        FollowsStill(fees, world, session, history, t, planned, plan.value);
      }
    }
  }

  lemma FollowsSame(fees: FeeTaxPolicy, world: World, session: Session, history: seq<LedgerOp>, targets: seq<Target>,
                    sorted: seq<Target>,
                    planned: seq<Planned>)
    requires (forall t :: t in sorted <==> t in targets) && FollowsAll(fees, world, session, history, sorted, planned)
    ensures FollowsAll(fees, world, session, history, targets, planned)
  {
    hide FollowsTarget;
  }

  /** Orders for distinct quoted instruments among those seen. */
  ghost predicate Orderable(planned: seq<Planned>, quotes: seq<Quote>, decision: int, seen: set<int>) {
    && Distinct(planned, PlannedInstrument)
    && forall p <- planned ::
         p.id.quantity > 0 && Quoted(quotes, p.id.instrument) && p.id.instrument in seen && p.id.decidedAt == decision
  }

  lemma PlansNeedQuotes(planned: seq<Planned>, quotes: seq<Quote>)
    requires forall p <- planned :: Quoted(quotes, p.id.instrument)
    ensures planned != [] ==> quotes != []
  {
    if planned != [] {
      assert planned[0] in planned;
    }
  }

  /** Replay knows the planned orders, and of the others only those that were there at the start. */
  ghost predicate Known(start: Orders, o: Orders, planned: seq<Planned>, last: int, decision: int, seen: set<int>) {
    && (forall p <- planned :: Plans(o, p))
    && forall id :: id in o.intents ==>
         || (id in start.intents && id.decidedAt < last)
         || (id.decidedAt == decision && id.instrument in seen && exists p <- planned :: p.id == id)
  }

  lemma NothingPlanned(quotes: seq<Quote>, targets: seq<Target>, o: Orders, last: int, decision: int)
    ensures Orderable([], quotes, decision, Instrumented(targets[..0]))
    ensures (forall id :: id in o.intents ==> id.decidedAt < last) ==>
              Known(o, o, [], last, decision, Instrumented(targets[..0]))
  {
  }

  lemma NothingFollowed(fees: FeeTaxPolicy, world: World, session: Session, history: seq<LedgerOp>,
                        targets: seq<Target>)
    ensures FollowsAll(fees, world, session, history, targets[..0], [])
  {
  }

  lemma NotYetPlanned(planned: seq<Planned>, quotes: seq<Quote>, decision: int, seen: set<int>, instrument: int)
    requires Orderable(planned, quotes, decision, seen) && instrument !in seen
    ensures forall p <- planned :: p.id.instrument != instrument
  {
  }

  lemma OrderableNext(planned: seq<Planned>, plan: Option<Planned>, quotes: seq<Quote>, decision: int, seen: set<int>,
                      instrument: int)
    requires Orderable(planned, quotes, decision, seen) && instrument !in seen && Quoted(quotes, instrument)
    requires plan.Some? ==>
               plan.value.id.quantity > 0 && plan.value.id.instrument == instrument
               && plan.value.id.decidedAt == decision
    ensures Orderable(Added(planned, plan), quotes, decision, seen + {instrument})
  {
    hide Quoted;
  }

  lemma KnownIsEarlier(start: Orders, o: Orders, planned: seq<Planned>, last: int, decision: int, seen: set<int>,
                       instrument: int)
    requires Known(start, o, planned, last, decision, seen) && instrument !in seen
    ensures forall id :: id in o.intents ==> IsEarlier(id, last, decision, instrument)
  {
  }

  lemma KnownNext(start: Orders, o: Orders, after: Orders, planned: seq<Planned>, plan: Option<Planned>,
                  last: int, decision: int, seen: set<int>, instrument: int)
    requires Known(start, o, planned, last, decision, seen) && Plan(o, after, plan) && last <= decision
    requires plan.Some? ==> plan.value.id.instrument == instrument && plan.value.id.decidedAt == decision
    ensures Known(start, after, Added(planned, plan), decision, decision, seen + {instrument})
  {
    var more := Added(planned, plan);
    assert forall p <- planned :: p in more;
    assert plan.Some? ==> more[|planned|] == plan.value && plan.value in more;
  }

  lemma PlannedIsSafe(planned: seq<Planned>, quotes: seq<Quote>, decision: int, seen: set<int>)
    requires Orderable(planned, quotes, decision, seen)
    ensures Distinct(planned, PlannedId) && Distinct(planned, PlannedInstrument)
    ensures forall p <- planned ::
              p.id.quantity > 0 && Quoted(quotes, p.id.instrument) && p.id.instrument in seen
              && p.id.decidedAt == decision
  {
    hide Quoted;
    forall i, j | 0 <= i < j < |planned|
      ensures PlannedId(planned[i]) != PlannedId(planned[j])
    {
      assert PlannedInstrument(planned[i]) != PlannedInstrument(planned[j]);
    }
  }

  lemma PlannedIsKnown(start: Orders, o: Orders, planned: seq<Planned>, last: int, decision: int, seen: set<int>)
    requires Known(start, o, planned, last, decision, seen)
    ensures forall p <- planned :: Plans(o, p)
    ensures forall id :: id in o.intents ==>
              id in start.intents || (id.decidedAt == decision && exists p <- planned :: p.id == id)
  {
  }

  /** Every planned order got its risk decision. */
  ghost predicate AllDecided(o: Orders) {
    forall id :: id in o.intents ==> id in o.risks
  }

  lemma AllAreDecided(before: Orders, planning: Orders, after: Orders, planned: seq<Planned>)
    requires AllDecided(before) && planning.risks == before.risks && after.intents == planning.intents
    requires forall id :: id in planning.intents ==> id in before.intents || exists p <- planned :: p.id == id
    requires forall id :: id in planning.risks ==> id in after.risks
    requires forall p <- planned :: p.id in after.risks
    ensures AllDecided(after)
  {
  }

  lemma StillPlanned(o: Orders, after: Orders, id: IntentId, other: Planned)
    requires Plans(o, other) && other.id != id
    requires after.intents == o.intents && after.risks.Keys == o.risks.Keys + {id}
    ensures Plans(after, other)
  {
  }
}
