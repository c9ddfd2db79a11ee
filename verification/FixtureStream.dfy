/** What an unreliable event stream can and cannot do to the fixture's orders. */
module FixtureStream {
  import opened FixtureModel

  /** The true broker: one request and one event stream per client order. */
  datatype Broker = Broker(requests: int -> Request, stream: int -> seq<BrokerEvent>)

  function FilledBy(events: seq<BrokerEvent>): int {
    if events == [] then 0
    else
      var last := events[|events| - 1];
      FilledBy(events[..|events| - 1]) + if last.FillEvent? then last.quantity else 0
  }

  predicate SameFill(e: BrokerEvent, f: BrokerEvent) {
    e.FillEvent? && f.FillEvent? && e.fillId == f.fillId
  }

  /**
    * An order's streams count on from the acknowledgement, with identities of their own, and fill no more than the
    * order.
    */
  ghost predicate Truthful(b: Broker) {
    && (forall o {:trigger b.requests(o)} ::
          b.requests(o).order == o && b.requests(o).quantity > 0 && FilledBy(b.stream(o)) <= b.requests(o).quantity)
    && (forall o, i :: 0 <= i < |b.stream(o)| ==>
          b.stream(o)[i].Valid() && b.stream(o)[i].order == o && b.stream(o)[i].sequence == i + 2)
    && (forall o, i, p, j ::
          0 <= i < |b.stream(o)| && 0 <= j < |b.stream(p)| && b.stream(o)[i].identity == b.stream(p)[j].identity ==>
            o == p && i == j)
    && (forall o, i, p, j ::
          0 <= i < |b.stream(o)| && 0 <= j < |b.stream(p)| && SameFill(b.stream(o)[i], b.stream(p)[j]) ==>
            o == p && i == j)
  }

  /**
    * The broker's own requests and events, delivered in any order and any number of times; anything may fail its
    * checksum.
    */
  predicate Genuine(b: Broker, call: Call) {
    match call
    case SubmitOrder(request) => request == b.requests(request.order)
    case CancelOrder(_) => false
    case ReplaceOrder(_, _, _) => false
    case IngestEvent(event, checksumValid) => checksumValid ==> event in b.stream(event.order)
    case _ => true
  }

  function Folded(request: Request, events: seq<BrokerEvent>): Snapshot {
    if events == [] then Acknowledge(request).snapshot
    else Effect(Folded(request, events[..|events| - 1]), events[|events| - 1])
  }

  lemma {:induction false} FoldFills(request: Request, events: seq<BrokerEvent>)
    ensures Folded(request, events).filled == FilledBy(events)
    ensures Folded(request, events).quantity == request.quantity
  {
    if events != [] {
      FoldFills(request, events[..|events| - 1]);
    }
  }

  lemma {:induction false} FillsGrow(events: seq<BrokerEvent>, n: nat)
    requires n <= |events| && forall e <- events :: e.Valid()
    ensures 0 <= FilledBy(events[..n]) <= FilledBy(events)
    decreases |events|
  {
    if n == |events| {
      assert events[..n] == events;
      if events != [] {
        var prefix := events[..|events| - 1];
        assert prefix[..|prefix|] == prefix && events[|events| - 1] in events;
        FillsGrow(prefix, |prefix|);
      }
    } else {
      assert events[..|events| - 1][..n] == events[..n];
      FillsGrow(events[..|events| - 1], n);
      assert events[|events| - 1] in events;
    }
  }

  /** How many events of its stream an order has taken. */
  function Taken(s: State, o: int): int {
    LastSequence(s, o) - 1
  }

  /** One order: exactly the first events of its stream, each remembered. */
  ghost predicate OrderInv(b: Broker, s: State, o: int) {
    if o in s.orders then
      && o in s.last && 0 <= Taken(s, o) <= |b.stream(o)|
      && s.orders[o].request == b.requests(o) && b.requests(o).key in s.keys
      && s.orders[o].snapshot == Folded(b.requests(o), b.stream(o)[..Taken(s, o)])
      && forall i :: 0 <= i < Taken(s, o) ==> b.stream(o)[i].identity in s.events
    else o !in s.last
  }

  /** A remembered event is one of the events its order has taken. */
  ghost predicate EventInv(b: Broker, s: State, e: BrokerEvent) {
    && e.order in s.orders && 2 <= e.sequence <= LastSequence(s, e.order)
    && e.sequence - 2 < |b.stream(e.order)| && b.stream(e.order)[e.sequence - 2] == e
  }

  ghost predicate Inv(b: Broker, s: State) {
    && (forall o :: OrderInv(b, s, o))
    && (forall id :: id in s.events ==> s.events[id].identity == id && EventInv(b, s, s.events[id]))
    && (forall f :: f in s.fills ==> s.fills[f].FillEvent? && s.fills[f].fillId == f && EventInv(b, s, s.fills[f]))
    && (forall k :: k in s.keys ==> s.keys[k] in s.orders)
  }

  lemma SubmitKeeps(b: Broker, s: State, request: Request)
    requires Truthful(b) && Inv(b, s) && request == b.requests(request.order)
    ensures Inv(b, Submit(s, request).0)
  {
    var t := Submit(s, request).0;
    if Refusal(s, request).None? {
      assert OrderInv(b, s, request.order);
      assert request.order !in s.orders;
      forall o
        ensures OrderInv(b, t, o)
      {
        assert OrderInv(b, s, o);
        if o == request.order {
          assert b.stream(o)[..0] == [];
        }
      }
    }
  }

  /** An event past what its order has taken is none of those remembered. */
  lemma NotRemembered(b: Broker, s: State, f: BrokerEvent, e: BrokerEvent)
    requires Truthful(b) && EventInv(b, s, f) && e in b.stream(e.order) && e.sequence > LastSequence(s, e.order)
    ensures f.identity != e.identity
    ensures f.FillEvent? && e.FillEvent? ==> f.fillId != e.fillId
  {
    var i :| 0 <= i < |b.stream(e.order)| && b.stream(e.order)[i] == e;
    var j := f.sequence - 2;
    assert b.stream(f.order)[j] == f;
    assert f.order != e.order || i != j;
  }

  /** The event the fixture takes next from an order's stream. */
  lemma NextEvent(b: Broker, s: State, e: BrokerEvent)
    requires Truthful(b) && Inv(b, s) && e in b.stream(e.order) && e.order in s.orders
    requires e.sequence == LastSequence(s, e.order) + 1
    ensures Taken(s, e.order) < |b.stream(e.order)| && b.stream(e.order)[Taken(s, e.order)] == e
    ensures !OverFills(s.orders[e.order].snapshot, e)
    ensures e.FillEvent? ==> e.fillId !in s.fills
    ensures e.identity !in s.events
  {
    hide EventInv, Truthful;
    var o := e.order;
    var stream := b.stream(o);
    assert OrderInv(b, s, o);
    StreamPosition(b, e);
    var i := e.sequence - 2;
    FoldFills(b.requests(o), stream[..i]);
    assert stream[..i + 1][..i] == stream[..i];
    StreamFits(b, o, i + 1);
    forall id | id in s.events
      ensures id != e.identity
    {
      NotRemembered(b, s, s.events[id], e);
    }
    if e.FillEvent? {
      forall f | f in s.fills
        ensures f != e.fillId
      {
        NotRemembered(b, s, s.fills[f], e);
      }
    }
  }

  lemma StreamPosition(b: Broker, e: BrokerEvent)
    requires Truthful(b) && e in b.stream(e.order)
    ensures 2 <= e.sequence < |b.stream(e.order)| + 2 && b.stream(e.order)[e.sequence - 2] == e
  {
    var i :| 0 <= i < |b.stream(e.order)| && b.stream(e.order)[i] == e;
  }

  lemma StreamCounts(b: Broker, o: int)
    requires Truthful(b)
    ensures forall i :: 0 <= i < |b.stream(o)| ==> b.stream(o)[i].sequence == i + 2
  {
  }

  lemma StreamFits(b: Broker, o: int, n: nat)
    requires Truthful(b) && n <= |b.stream(o)|
    ensures 0 <= FilledBy(b.stream(o)[..n]) <= b.requests(o).quantity
  {
    assert b.requests(o).quantity > 0;
    FillsGrow(b.stream(o), n);
  }

  lemma AppliedOrders(b: Broker, s: State, e: BrokerEvent, p: int)
    requires Truthful(b) && Inv(b, s) && e in b.stream(e.order) && Ingest(s, e, true).1 == Applied
    ensures OrderInv(b, Ingest(s, e, true).0, p)
  {
    hide EventInv, Truthful;
    var o := e.order;
    var stream, n := b.stream(o), Taken(s, o);
    NextEvent(b, s, e);
    assert OrderInv(b, s, o) && OrderInv(b, s, p);
    assert stream[..n + 1] == stream[..n] + [e];
  }

  lemma AppliedEvents(b: Broker, s: State, e: BrokerEvent, f: BrokerEvent)
    requires Truthful(b) && Inv(b, s) && e in b.stream(e.order) && Ingest(s, e, true).1 == Applied
    requires EventInv(b, s, f) || f == e
    ensures EventInv(b, Ingest(s, e, true).0, f)
  {
    hide Truthful, OrderInv;
    StreamPosition(b, e);
  }

  lemma IngestKeeps(b: Broker, s: State, e: BrokerEvent)
    requires Truthful(b) && Inv(b, s) && e in b.stream(e.order)
    ensures Inv(b, Ingest(s, e, true).0)
  {
    hide Truthful, OrderInv, EventInv, Effect, OverFills;
    var t := Ingest(s, e, true).0;
    if Ingest(s, e, true).1 == Applied {
      forall p
        ensures OrderInv(b, t, p)
      {
        AppliedOrders(b, s, e, p);
      }
      forall f | EventInv(b, s, f) || f == e
        ensures EventInv(b, t, f)
      {
        AppliedEvents(b, s, e, f);
      }
    } else {
      SameRecords(b, s, t);
    }
  }

  /** The fixture's records do not depend on its session. */
  lemma SameRecords(b: Broker, s: State, t: State)
    requires Inv(b, s)
    requires t.orders == s.orders && t.keys == s.keys && t.events == s.events && t.last == s.last && t.fills == s.fills
    ensures Inv(b, t)
  {
    hide Folded, Truthful;
    forall p
      ensures OrderInv(b, t, p)
    {
      assert OrderInv(b, s, p);
    }
    forall f | EventInv(b, s, f)
      ensures EventInv(b, t, f)
    {
    }
  }

  lemma CallKeeps(b: Broker, s: State, call: Call)
    requires Truthful(b) && Inv(b, s) && Genuine(b, call)
    ensures Inv(b, After(s, call))
  {
    hide Inv, Truthful;
    match call
    case SubmitOrder(request) => SubmitKeeps(b, s, request);
    case IngestEvent(event, checksumValid) =>
      if checksumValid {
        IngestKeeps(b, s, event);
      } else {
        SameRecords(b, s, After(s, call));
      }
    case CancelOrder(_) =>
    case ReplaceOrder(_, _, _) =>
    case _ => SameRecords(b, s, After(s, call));
  }

  lemma {:induction false} RunKeeps(b: Broker, s: State, calls: seq<Call>)
    requires Truthful(b) && Inv(b, s) && forall c <- calls :: Genuine(b, c)
    ensures Inv(b, Run(s, calls))
  {
    hide Inv, Truthful, After, Genuine;
    if calls != [] {
      var prefix := calls[..|calls| - 1];
      assert forall c <- prefix :: c in calls;
      RunKeeps(b, s, prefix);
      CallKeeps(b, Run(s, prefix), calls[|calls| - 1]);
    }
  }

  /**
    * However its events are duplicated, dropped and reordered, an order is always the fold of the first events of
    * its own stream, and never over-filled.
    */
  lemma OrdersArePrefixes(b: Broker, faults: set<Fault>, supported: set<Capability>, calls: seq<Call>, o: int)
    requires Truthful(b) && (forall c <- calls :: Genuine(b, c))
    requires o in Run(Initial(faults, supported), calls).orders
    ensures var s := Run(Initial(faults, supported), calls);
      && 0 <= Taken(s, o) <= |b.stream(o)|
      && s.orders[o] == FixtureOrder(b.requests(o), Folded(b.requests(o), b.stream(o)[..Taken(s, o)]))
      && 0 <= s.orders[o].snapshot.filled <= s.orders[o].snapshot.quantity == b.requests(o).quantity
  {
    hide Truthful, Genuine, Run, EventInv;
    RunKeeps(b, Initial(faults, supported), calls);
    var s := Run(Initial(faults, supported), calls);
    assert OrderInv(b, s, o);
    FoldFills(b.requests(o), b.stream(o)[..Taken(s, o)]);
    StreamFits(b, o, Taken(s, o));
  }

  // ---- Full delivery ----

  /** The intact events of one order, as they arrive. */
  function Delivered(calls: seq<Call>, o: int): seq<BrokerEvent> {
    if calls == [] then []
    else
      (if calls[0].IngestEvent? && calls[0].checksumValid && calls[0].event.order == o then [calls[0].event] else [])
      + Delivered(calls[1..], o)
  }

  /** The places of one list in another, in order. */
  predicate Embeds(part: seq<BrokerEvent>, whole: seq<BrokerEvent>, at: seq<nat>) {
    && |at| == |part|
    && (forall i :: 0 <= i < |at| ==> at[i] < |whole| && whole[at[i]] == part[i])
    && (forall i, j :: 0 <= i < j < |at| ==> at[i] < at[j])
  }

  predicate IsSubsequence(part: seq<BrokerEvent>, whole: seq<BrokerEvent>) {
    if part == [] then true
    else if whole == [] then false
    else if part[0] == whole[0] then IsSubsequence(part[1..], whole[1..])
    else IsSubsequence(part, whole[1..])
  }

  lemma {:induction false} EmbeddedIsSubsequence(part: seq<BrokerEvent>, whole: seq<BrokerEvent>, at: seq<nat>)
    requires Embeds(part, whole, at)
    ensures IsSubsequence(part, whole)
    decreases |whole|
  {
    if part != [] {
      assert at[0] < |whole|;
      if part[0] == whole[0] {
        var rest := seq(|at| - 1, i requires 0 <= i < |at| - 1 => at[i + 1] - 1);
        assert Embeds(part[1..], whole[1..], rest);
        EmbeddedIsSubsequence(part[1..], whole[1..], rest);
      } else {
        var rest := seq(|at|, i requires 0 <= i < |at| => if at[i] > 0 then at[i] - 1 else 0);
        assert at[0] > 0;
        assert Embeds(part, whole[1..], rest);
        EmbeddedIsSubsequence(part, whole[1..], rest);
      }
    }
  }

  lemma {:induction false} TailIsSubsequence(part: seq<BrokerEvent>, whole: seq<BrokerEvent>, n: nat)
    requires IsSubsequence(part, whole) && n <= |part|
    ensures IsSubsequence(part[n..], whole)
    decreases |whole|
  {
    if n > 0 {
      if part[0] == whole[0] {
        TailIsSubsequence(part[1..], whole[1..], n - 1);
        assert part[1..][n - 1..] == part[n..];
        Longer(part[n..], whole[1..], whole[0]);
        assert [whole[0]] + whole[1..] == whole;
      } else {
        TailIsSubsequence(part, whole[1..], n);
        Longer(part[n..], whole[1..], whole[0]);
        assert [whole[0]] + whole[1..] == whole;
      }
    } else {
      assert part[0..] == part;
    }
  }

  lemma {:induction false} Longer(part: seq<BrokerEvent>, whole: seq<BrokerEvent>, e: BrokerEvent)
    requires IsSubsequence(part, whole)
    ensures IsSubsequence(part, [e] + whole)
    decreases |whole|, 1
  {
    assert ([e] + whole)[1..] == whole;
    if part != [] && part[0] == e {
      Shorter(part, whole);
    }
  }

  lemma {:induction false} Shorter(part: seq<BrokerEvent>, whole: seq<BrokerEvent>)
    requires part != [] && IsSubsequence(part, whole)
    ensures IsSubsequence(part[1..], whole)
    decreases |whole|, 0
  {
    if part[0] == whole[0] {
      assert [whole[0]] + whole[1..] == whole;
      Longer(part[1..], whole[1..], whole[0]);
    } else {
      Shorter(part, whole[1..]);
      assert [whole[0]] + whole[1..] == whole;
      Longer(part[1..], whole[1..], whole[0]);
    }
  }

  lemma {:induction false} RunFirst(s: State, calls: seq<Call>)
    requires calls != []
    ensures Run(s, calls) == Run(After(s, calls[0]), calls[1..])
  {
    hide After;
    if |calls| > 1 {
      var prefix := calls[..|calls| - 1];
      RunFirst(s, prefix);
      assert calls[1..][..|calls| - 2] == prefix[1..];
    }
  }

  /** One call moves an order on by exactly its next event, if it delivers it. */
  lemma OneDelivery(b: Broker, s: State, call: Call, o: int)
    requires Truthful(b) && Inv(b, s) && Genuine(b, call) && o in s.orders
    ensures o in After(s, call).orders
    ensures var n := Taken(s, o);
      Taken(After(s, call), o) ==
        if call.IngestEvent? && call.checksumValid && call.event.order == o && 0 <= n < |b.stream(o)|
            && call.event == b.stream(o)[n] then n + 1 else n
  {
    hide Effect, OverFills, EventInv, Truthful, Folded;
    assert OrderInv(b, s, o);
    match call
    case IngestEvent(e, checksumValid) =>
      if checksumValid && e.order == o {
        if e.sequence == LastSequence(s, o) + 1 {
          NextEvent(b, s, e);
        } else {
          StreamCounts(b, o);
        }
      }
    case SubmitOrder(request) =>
      if request.order == o {
        assert b.requests(o).key in s.keys;
      }
    case _ =>
  }

  lemma {:induction false} DeliveryCatchesUp(b: Broker, s: State, calls: seq<Call>, o: int)
    requires Truthful(b) && Inv(b, s) && (forall c <- calls :: Genuine(b, c)) && o in s.orders
    requires 0 <= Taken(s, o) <= |b.stream(o)| && IsSubsequence(b.stream(o)[Taken(s, o)..], Delivered(calls, o))
    ensures o in Run(s, calls).orders && Taken(Run(s, calls), o) == |b.stream(o)|
    decreases |calls|
  {
    hide Truthful, Inv, Genuine, After;
    if calls != [] {
      var call, rest, t := calls[0], calls[1..], After(s, calls[0]);
      var todo := b.stream(o)[Taken(s, o)..];
      OneDelivery(b, s, call, o);
      CallKeeps(b, s, call);
      RunFirst(s, calls);
      assert call in calls && forall c <- rest :: c in calls;
      var event := if call.IngestEvent? && call.checksumValid && call.event.order == o then [call.event] else [];
      assert Delivered(calls, o) == event + Delivered(rest, o);
      if event != [] {
        assert Delivered(calls, o)[1..] == Delivered(rest, o);
        if todo != [] && todo[0] == call.event {
          assert b.stream(o)[Taken(t, o)..] == todo[1..];
        }
      } else {
        assert Delivered(calls, o) == Delivered(rest, o);
      }
      DeliveryCatchesUp(b, t, rest, o);
    }
  }

  /** Any schedule that contains an order's stream, in order, after its submission brings it to the full fold. */
  lemma FullDelivery(b: Broker, faults: set<Fault>, supported: set<Capability>, before: seq<Call>, after: seq<Call>,
                     o: int, at: seq<nat>)
    requires Truthful(b) && (forall c <- before :: Genuine(b, c)) && (forall c <- after :: Genuine(b, c))
    requires o in Run(Initial(faults, supported), before).orders
    requires Embeds(b.stream(o), Delivered(after, o), at)
    ensures var s := Run(Run(Initial(faults, supported), before), after);
      o in s.orders && s.orders[o].snapshot == Folded(b.requests(o), b.stream(o))
  {
    hide Truthful, Genuine, Run, EventInv;
    var middle := Run(Initial(faults, supported), before);
    var end := Run(middle, after);
    RunKeeps(b, Initial(faults, supported), before);
    RunKeeps(b, middle, after);
    assert OrderInv(b, middle, o);
    EmbeddedIsSubsequence(b.stream(o), Delivered(after, o), at);
    TailIsSubsequence(b.stream(o), Delivered(after, o), Taken(middle, o));
    DeliveryCatchesUp(b, middle, after, o);
    assert OrderInv(b, end, o);
    assert b.stream(o)[..|b.stream(o)|] == b.stream(o);
  }

  // ---- The kill switch ----

  /** Without the kill switch the session is healthy, so reporting health never fails. */
  predicate SwitchInv(s: State) {
    !s.kill ==> s.health == Healthy && SessionExpired !in s.faults
  }

  lemma SwitchStep(s: State, call: Call)
    requires SwitchInv(s)
    ensures SwitchInv(After(s, call))
  {
  }

  lemma {:induction false} SwitchIsConsistent(faults: set<Fault>, supported: set<Capability>, calls: seq<Call>)
    ensures SwitchInv(Run(Initial(faults, supported), calls))
  {
    hide After, SwitchInv;
    if calls == [] {
      NotOpen(faults, supported);
    } else {
      SwitchIsConsistent(faults, supported, calls[..|calls| - 1]);
      SwitchStep(Run(Initial(faults, supported), calls[..|calls| - 1]), calls[|calls| - 1]);
    }
  }

  lemma NotOpen(faults: set<Fault>, supported: set<Capability>)
    ensures SwitchInv(Initial(faults, supported))
  {
  }

  /** A gap stops new risk: every later submission is refused until the session is opened or reconnected. */
  lemma GapBlocksSubmits(s: State, e: BrokerEvent, calls: seq<Call>, request: Request)
    requires e.identity !in s.events && e.sequence != LastSequence(s, e.order) + 1
    requires forall c <- calls :: !c.OpenSession? && !c.ReconnectSession?
    ensures var t := Run(After(s, IngestEvent(e, true)), calls);
      t.kill && t.orders.Keys == s.orders.Keys && Submit(t, request) == (t, Rejected(KillNewRisk))
  {
    hide Run;
    StaysKilled(After(s, IngestEvent(e, true)), calls);
  }

  lemma KilledStep(s: State, call: Call)
    requires s.kill && !call.OpenSession? && !call.ReconnectSession?
    ensures After(s, call).kill && After(s, call).orders.Keys == s.orders.Keys
  {
  }

  lemma {:induction false} StaysKilled(s: State, calls: seq<Call>)
    requires s.kill && forall c <- calls :: !c.OpenSession? && !c.ReconnectSession?
    ensures Run(s, calls).kill && Run(s, calls).orders.Keys == s.orders.Keys
  {
    hide After;
    if calls != [] {
      var prefix := calls[..|calls| - 1];
      assert calls[|calls| - 1] in calls && forall c <- prefix :: c in calls;
      StaysKilled(s, prefix);
      KilledStep(Run(s, prefix), calls[|calls| - 1]);
    }
  }

  // ---- Any calls at all ----

  predicate WithinQuantity(s: State) {
    forall o <- s.orders :: 0 <= s.orders[o].snapshot.filled <= s.orders[o].snapshot.quantity
  }

  lemma WithinStep(s: State, call: Call)
    requires WithinQuantity(s) && call.Valid()
    ensures WithinQuantity(After(s, call))
  {
  }

  /** Filled quantities stay within the order whatever arrives: forged events, cancels and replacements included. */
  lemma {:induction false} NeverOverFilled(faults: set<Fault>, supported: set<Capability>, calls: seq<Call>)
    requires forall c <- calls :: c.Valid()
    ensures WithinQuantity(Run(Initial(faults, supported), calls))
  {
    hide After;
    if calls != [] {
      var prefix := calls[..|calls| - 1];
      assert calls[|calls| - 1] in calls && forall c <- prefix :: c in calls;
      NeverOverFilled(faults, supported, prefix);
      WithinStep(Run(Initial(faults, supported), prefix), calls[|calls| - 1]);
    }
  }

  /** A local cancel takes a sequence number of its own, so the broker's next event then reads as a gap. */
  lemma CancelOpensAGap(s: State, o: int, e: BrokerEvent)
    requires Cancel(s, o).1 == Accepted && SwitchInv(s)
    requires e.order == o && e.identity !in s.events && s.orders[o].snapshot.sequence == LastSequence(s, o)
             && e.sequence == LastSequence(s, o) + 1
    ensures var t := Cancel(s, o).0;
      Ingest(t, e, true) == (t.(kill := true, health := Degraded), Ignored)
  {
  }
}
