/** What every accepted journal guarantees about its orders. */
module ReplaySafety {
  import opened BacktestJournal
  import opened Replay
  import opened Wrappers

  predicate IsDecision(e: Event, id: IntentId) {
    e.payload.RiskDecided? && e.payload.intent == id
  }

  predicate IsApproval(e: Event) {
    e.payload.RiskDecided? && e.payload.outcome == Approve
  }

  predicate IsFillOf(e: Event, id: IntentId) {
    IsFill(e) && e.payload.intent == id
  }

  predicate IsUpdateOf(e: Event, id: IntentId) {
    e.payload.ReservationUpdated? && e.payload.intent == id
  }

  predicate IsReserveOf(e: Event, id: IntentId) {
    e.payload.OrderReserved? && e.payload.intent == id
  }

  predicate IsReleaseOf(e: Event, id: IntentId) {
    e.payload.ReservationReleased? && e.payload.intent == id
  }

  /** How many of the first events satisfy a condition. */
  function Count(events: seq<Event>, condition: Event -> bool): nat {
    if events == [] then 0
    else Count(events[..|events| - 1], condition) + if condition(events[|events| - 1]) then 1 else 0
  }

  /** The quantity filled for one order. */
  function FilledFor(events: seq<Event>, id: IntentId): int {
    if events == [] then 0
    else
      var last := events[|events| - 1];
      FilledFor(events[..|events| - 1], id) + if IsFillOf(last, id) then last.payload.fill.value.quantity else 0
  }

  /** The quantity still open after the last fill of an order was taken into account. */
  function RemainingFor(events: seq<Event>, id: IntentId): int {
    if events == [] then 0
    else
      var last := events[|events| - 1];
      if IsReserveOf(last, id) || IsUpdateOf(last, id) then last.payload.remaining
          else RemainingFor(events[..|events| - 1], id)
  }

  /** The status an order's reservation was last given; a fill leaves it waiting for an update. */
  function StatusFor(events: seq<Event>, id: IntentId): Option<OrderStatus> {
    if events == [] then None
    else
      var last := events[|events| - 1];
      if IsReserveOf(last, id) || IsUpdateOf(last, id) || IsReleaseOf(last, id) then Some(last.payload.status)
      else if IsFillOf(last, id) then Some(AwaitingUpdate)
      else StatusFor(events[..|events| - 1], id)
  }

  function ReservedFor(events: seq<Event>, id: IntentId): int {
    if events == [] then 0
    else
      var last := events[|events| - 1];
      if IsReserveOf(last, id) then last.payload.remaining else ReservedFor(events[..|events| - 1], id)
  }

  /** A fill of the order that no later event has updated the reservation for. */
  predicate Unacknowledged(events: seq<Event>, id: IntentId, i: nat)
    requires i < |events|
  {
    IsFillOf(events[i], id) && forall k :: i < k < |events| ==> !IsUpdateOf(events[k], id)
  }

  predicate IsRejection(e: Event) {
    e.payload.RiskDecided? && e.payload.outcome == Reject
  }

  /** What an accepted step does to decisions and fills. */
  ghost predicate Changes(s: Orders, e: Event, t: Orders) {
    && t.approved == s.approved + (if IsApproval(e) then 1 else 0)
    && t.rejected == s.rejected + (if IsRejection(e) then 1 else 0)
    && t.fills == s.fills + (if IsFill(e) then 1 else 0)
    && t.risks == (if e.payload.RiskDecided? then s.risks[e.payload.intent := (e.payload.outcome, e.id)] else s.risks)
    && (e.payload.RiskDecided? ==> e.payload.intent !in s.risks)
    && t.fillIds == s.fillIds + (if IsFill(e) then {e.payload.fill.value.fillId} else {})
    && (IsFill(e) ==> e.payload.fill.value.fillId !in s.fillIds)
    && t.intents.Keys == s.intents.Keys + (if e.payload.IntentCreated? then {e.payload.intent} else {})
  }

  /** What an accepted step does to the reservation of one order. */
  ghost predicate Moves(s: Orders, e: Event, t: Orders, id: IntentId) {
    && (IsReserveOf(e, id) ==>
          && id !in s.reservations && Approved(s, id, e)
          && id in t.reservations && t.reservations[id] == (e.payload.remaining, e.payload.status))
    && (IsFillOf(e, id) ==>
          var quantity := e.payload.fill.value.quantity;
          && Approved(s, id, e) && id in s.reservations && s.reservations[id].1 == Active
          && 0 < quantity <= s.reservations[id].0
          && id in t.reservations && t.reservations[id] == (s.reservations[id].0 - quantity, AwaitingUpdate))
    && (IsUpdateOf(e, id) ==>
          && id in s.reservations && s.reservations[id].1 == AwaitingUpdate
          && id in t.reservations && t.reservations[id].0 == s.reservations[id].0 == e.payload.remaining
          && t.reservations[id].1 != AwaitingUpdate)
    && (IsUpdateOf(e, id) ==> t.reservations[id].1 == e.payload.status)
    && (IsReleaseOf(e, id) ==>
          && id in s.reservations && s.reservations[id].1 == Active
             && e.payload.status in {Cancelled, Expired, Rejected}
          && id in t.reservations && t.reservations[id] == (s.reservations[id].0, e.payload.status))
    && (!IsReserveOf(e, id) && !IsFillOf(e, id) && !IsUpdateOf(e, id) && !IsReleaseOf(e, id) ==>
          && (id in t.reservations <==> id in s.reservations)
          && (id in s.reservations ==> t.reservations[id] == s.reservations[id]))
  }

  lemma OrderStep(s: Orders, e: Event, t: Orders, id: IntentId)
    requires IsOrderEvent(e) && StepOrders(s, e) == Ok(t)
    ensures Changes(s, e, t) && Moves(s, e, t, id)
  {
  }

  lemma FillStep(s: Orders, e: Event, t: Orders, id: IntentId)
    requires e.payload.FillReceived? && TakeFill(s, e) == Ok(t)
    ensures Changes(s, e, t) && Moves(s, e, t, id)
    ensures !IsFill(e) ==> s == t
  {
  }

  lemma LedgerStep(ledger: Ledger, keys: int -> set<int>, s: ReplayState, e: Event, t: ReplayState)
    requires !IsOrderEvent(e) && !e.payload.FillReceived? && StepLedger(ledger, keys, s, e) == Ok(t)
    ensures t.orders == s.orders
  {
  }

  lemma StepChanges(ledger: Ledger, keys: int -> set<int>, s: ReplayState, e: Event, t: ReplayState, id: IntentId)
    requires Step(ledger, keys, s, e) == Ok(t)
    ensures Changes(s.orders, e, t.orders) && Moves(s.orders, e, t.orders, id)
  {
    hide StepOrders, TakeFill, StepLedger;
    if IsOrderEvent(e) {
      OrderStep(s.orders, e, t.orders, id);
    } else if e.payload.FillReceived? {
      var orders := TakeFill(s.orders, e).value;
      FillStep(s.orders, e, orders, id);
    } else {
      LedgerStep(ledger, keys, s, e, t);
    }
  }

  /** The rebuilt counters are the true counts. */
  lemma {:induction false} CountsAreTrue(ledger: Ledger, keys: int -> set<int>, events: seq<Event>, s: ReplayState)
    requires events != [] && events[0].payload.RunStarted? && Replayed(ledger, keys, events) == Ok(s)
    ensures s.orders.approved == Count(events, IsApproval)
    ensures s.orders.rejected == Count(events, IsRejection)
    ensures s.orders.fills == Count(events, IsFill)
  {
    hide Step;
    var prefix := events[..|events| - 1];
    if |events| == 1 {
      assert Count(prefix, IsApproval) == Count(prefix, IsRejection) == Count(prefix, IsFill) == 0;
    } else {
      var before := Replayed(ledger, keys, prefix).value;
      CountsAreTrue(ledger, keys, prefix, before);
      var any: IntentId := *;
      StepChanges(ledger, keys, before, events[|events| - 1], s, any);
    }
  }

  /** Reserved shares are filled or still open, whatever the order went through. */
  lemma {:induction false} SharesAreConserved(ledger: Ledger, keys: int -> set<int>, events: seq<Event>,
                                              s: ReplayState, id: IntentId)
    requires events != [] && events[0].payload.RunStarted? && Replayed(ledger, keys, events) == Ok(s)
    ensures id in s.orders.reservations ==>
              FilledFor(events, id) + s.orders.reservations[id].0 == ReservedFor(events, id)
    ensures id in s.orders.reservations && s.orders.reservations[id].1 != AwaitingUpdate ==>
              RemainingFor(events, id) == s.orders.reservations[id].0
    ensures id !in s.orders.reservations ==>
              FilledFor(events, id) == RemainingFor(events, id) == ReservedFor(events, id) == 0
    ensures id in s.orders.reservations ==>
              ReservedFor(events, id) >= FilledFor(events, id) || FilledFor(events, id) == 0
  {
    hide Step;
    var prefix, last := events[..|events| - 1], events[|events| - 1];
    if |events| == 1 {
      assert FilledFor(prefix, id) == RemainingFor(prefix, id) == ReservedFor(prefix, id) == 0;
    } else {
      var before := Replayed(ledger, keys, prefix).value;
      SharesAreConserved(ledger, keys, prefix, before, id);
      StepChanges(ledger, keys, before, last, s, id);
    }
  }

  /** No order is decided twice, and the state remembers its one decision. */
  lemma {:induction false} DecisionsAreUnique(ledger: Ledger, keys: int -> set<int>, events: seq<Event>, s: ReplayState)
    requires events != [] && events[0].payload.RunStarted? && Replayed(ledger, keys, events) == Ok(s)
    ensures forall i :: 0 <= i < |events| && events[i].payload.RiskDecided? ==>
              && events[i].payload.intent in s.orders.risks
              && s.orders.risks[events[i].payload.intent] == (events[i].payload.outcome, events[i].id)
    ensures forall id :: id in s.orders.risks ==> exists i :: 0 <= i < |events| && IsDecision(events[i], id)
    ensures forall i, j :: 0 <= i < j < |events| && events[i].payload.RiskDecided? && events[j].payload.RiskDecided? ==>
              events[i].payload.intent != events[j].payload.intent
  {
    hide Step;
    var n := |events| - 1;
    var prefix := events[..n];
    if n > 0 {
      var before := Replayed(ledger, keys, prefix).value;
      DecisionsAreUnique(ledger, keys, prefix, before);
      var any: IntentId := *;
      StepChanges(ledger, keys, before, events[n], s, any);
      forall i | 0 <= i < n && events[i].payload.RiskDecided?
        ensures events[i].payload.intent in before.orders.risks
        ensures before.orders.risks[events[i].payload.intent] == (events[i].payload.outcome, events[i].id)
      {
        assert prefix[i] == events[i];
      }
      forall id | id in s.orders.risks
        ensures exists i :: 0 <= i < |events| && IsDecision(events[i], id)
      {
        if id in before.orders.risks {
          var i :| 0 <= i < n && IsDecision(prefix[i], id);
          assert IsDecision(events[i], id);
        } else {
          assert IsDecision(events[n], id);
        }
      }
      forall i, j | 0 <= i < j <= n && events[i].payload.RiskDecided? && events[j].payload.RiskDecided?
        ensures events[i].payload.intent != events[j].payload.intent
      {
        assert prefix[i] == events[i];
        if j < n { assert prefix[j] == events[j]; }
      }
    }
  }

  /** No fill identity is used twice. */
  lemma {:induction false} FillsAreDistinct(ledger: Ledger, keys: int -> set<int>, events: seq<Event>, s: ReplayState)
    requires events != [] && events[0].payload.RunStarted? && Replayed(ledger, keys, events) == Ok(s)
    ensures forall i :: 0 <= i < |events| && IsFill(events[i]) ==>
              events[i].payload.fill.value.fillId in s.orders.fillIds
    ensures forall i, j :: 0 <= i < j < |events| && IsFill(events[i]) && IsFill(events[j]) ==>
              events[i].payload.fill.value.fillId != events[j].payload.fill.value.fillId
  {
    hide Step;
    var n := |events| - 1;
    var prefix := events[..n];
    if n > 0 {
      var before := Replayed(ledger, keys, prefix).value;
      FillsAreDistinct(ledger, keys, prefix, before);
      var any: IntentId := *;
      StepChanges(ledger, keys, before, events[n], s, any);
      forall i | 0 <= i < n && IsFill(events[i])
        ensures events[i].payload.fill.value.fillId in before.orders.fillIds
      {
        assert prefix[i] == events[i];
      }
      forall i, j | 0 <= i < j <= n && IsFill(events[i]) && IsFill(events[j])
        ensures events[i].payload.fill.value.fillId != events[j].payload.fill.value.fillId
      {
        assert prefix[i] == events[i];
        if j < n { assert prefix[j] == events[j]; }
      }
    }
  }

  /** A fill leaves its order waiting until the reservation update that answers it. */
  lemma {:induction false} FillsAwaitUpdates(ledger: Ledger, keys: int -> set<int>, events: seq<Event>, s: ReplayState,
                                             id: IntentId, i: nat)
    requires events != [] && events[0].payload.RunStarted? && Replayed(ledger, keys, events) == Ok(s)
    requires i < |events| && Unacknowledged(events, id, i)
    ensures id in s.orders.reservations && s.orders.reservations[id].1 == AwaitingUpdate
    ensures forall j :: i < j < |events| ==> !IsFillOf(events[j], id)
  {
    hide Step;
    var n := |events| - 1;
    var prefix := events[..n];
    if n > 0 {
      var before := Replayed(ledger, keys, prefix).value;
      StepChanges(ledger, keys, before, events[n], s, id);
      if i < n {
        forall k | i < k < n
          ensures !IsUpdateOf(prefix[k], id)
        {
          assert prefix[k] == events[k];
        }
        FillsAwaitUpdates(ledger, keys, prefix, before, id, i);
        forall j | i < j < |events|
          ensures !IsFillOf(events[j], id)
        {
          if j < n { assert prefix[j] == events[j]; }
        }
      }
    }
  }

  /** A fill refers to the one approval of its order, and follows a reservation of it. */
  lemma {:induction false} FillsAreApproved(ledger: Ledger, keys: int -> set<int>, events: seq<Event>, s: ReplayState,
                                            id: IntentId, i: nat)
    requires events != [] && events[0].payload.RunStarted? && Replayed(ledger, keys, events) == Ok(s)
    requires i < |events| && (IsFillOf(events[i], id) || IsReserveOf(events[i], id))
    ensures exists j ::
              0 <= j < i && IsDecision(events[j], id) && IsApproval(events[j])
              && events[i].causation == Some(events[j].id)
    decreases |events|
  {
    hide Step;
    var n := |events| - 1;
    var prefix := events[..n];
    var before := Replayed(ledger, keys, prefix).value;
    if i < n {
      assert prefix[i] == events[i];
      FillsAreApproved(ledger, keys, prefix, before, id, i);
      var j :| 0 <= j < i && IsDecision(prefix[j], id) && IsApproval(prefix[j])
          && prefix[i].causation == Some(prefix[j].id);
      assert events[j] == prefix[j];
    } else {
      StepChanges(ledger, keys, before, events[n], s, id);
      DecisionsAreUnique(ledger, keys, prefix, before);
      var j :| 0 <= j < n && IsDecision(prefix[j], id);
      assert events[j] == prefix[j];
    }
  }

  /** Replay knows every intent of the journal. */
  lemma {:induction false} IntentsAreRead(ledger: Ledger, keys: int -> set<int>, events: seq<Event>, s: ReplayState,
                                          i: nat)
    requires events != [] && events[0].payload.RunStarted? && Replayed(ledger, keys, events) == Ok(s)
    requires i < |events| && events[i].payload.IntentCreated?
    ensures events[i].payload.intent in s.orders.intents
    decreases |events|
  {
    hide Step;
    var n := |events| - 1;
    var prefix := events[..n];
    var before := Replayed(ledger, keys, prefix).value;
    StepChanges(ledger, keys, before, events[n], s, events[i].payload.intent);
    if i < n {
      assert prefix[i] == events[i];
      IntentsAreRead(ledger, keys, prefix, before, i);
    }
  }

  /** Every order created in the journal gets a risk decision in it. */
  ghost predicate EveryOrderDecided(events: seq<Event>) {
    forall i :: 0 <= i < |events| && events[i].payload.IntentCreated? ==>
      exists j :: 0 <= j < |events| && IsDecision(events[j], events[i].payload.intent)
  }

  lemma OrdersAreDecided(ledger: Ledger, keys: int -> set<int>, events: seq<Event>, s: ReplayState, more: Event)
    requires events != [] && events[0].payload.RunStarted? && Replayed(ledger, keys, events) == Ok(s)
    requires !more.payload.IntentCreated? && forall id :: id in s.orders.intents ==> id in s.orders.risks
    ensures EveryOrderDecided(events + [more])
  {
    hide Step;
    var all := events + [more];
    DecisionsAreUnique(ledger, keys, events, s);
    forall i | 0 <= i < |all| && all[i].payload.IntentCreated?
      ensures exists j :: 0 <= j < |all| && IsDecision(all[j], all[i].payload.intent)
    {
      IntentsAreRead(ledger, keys, events, s, i);
      var j :| 0 <= j < |events| && IsDecision(events[j], events[i].payload.intent);
      assert IsDecision(all[j], all[i].payload.intent);
    }
  }

  /** An order with a reservation was reserved by an earlier event. */
  lemma {:induction false} ReservationsAreMade(ledger: Ledger, keys: int -> set<int>, events: seq<Event>,
                                               s: ReplayState, id: IntentId)
    requires events != [] && events[0].payload.RunStarted? && Replayed(ledger, keys, events) == Ok(s)
    ensures id in s.orders.reservations <==> exists i :: 0 <= i < |events| && IsReserveOf(events[i], id)
  {
    hide Step;
    var n := |events| - 1;
    var prefix := events[..n];
    if n > 0 {
      var before := Replayed(ledger, keys, prefix).value;
      ReservationsAreMade(ledger, keys, prefix, before, id);
      StepChanges(ledger, keys, before, events[n], s, id);
      if id in before.orders.reservations {
        var i :| 0 <= i < n && IsReserveOf(prefix[i], id);
        assert IsReserveOf(events[i], id);
      }
      forall i | 0 <= i < |events| && IsReserveOf(events[i], id)
        ensures id in s.orders.reservations
      {
        if i < n { assert IsReserveOf(prefix[i], id); }
      }
      if id in s.orders.reservations && id !in before.orders.reservations {
        assert IsReserveOf(events[n], id);
      }
    }
  }

  /** An accepted journal decides each order at most once, and its decisions are approvals or rejections. */
  lemma OneDecisionPerOrder(ledger: Ledger, events: seq<Event>, i: nat, j: nat, id: IntentId)
    requires Accepted(ledger, events)
    requires i < |events| && j < |events| && IsDecision(events[i], id) && IsDecision(events[j], id)
    ensures i == j
  {
    var keys := ClosesOf(events);
    DecisionsAreUnique(ledger, keys, events, Replayed(ledger, keys, events).value);
  }

  /** The rebuilt status is the one the events gave last; once released it is final. */
  lemma {:induction false} StatusIsTrue(ledger: Ledger, keys: int -> set<int>, events: seq<Event>, s: ReplayState,
                                        id: IntentId)
    requires events != [] && events[0].payload.RunStarted? && Replayed(ledger, keys, events) == Ok(s)
    ensures StatusFor(events, id) == if id in s.orders.reservations then Some(s.orders.reservations[id].1) else None
    ensures (exists j :: 0 <= j < |events| && IsReleaseOf(events[j], id)) ==>
              id in s.orders.reservations && s.orders.reservations[id].1 in {Cancelled, Expired, Rejected}
  {
    hide Step;
    var n := |events| - 1;
    var prefix := events[..n];
    if n > 0 {
      var before := Replayed(ledger, keys, prefix).value;
      StatusIsTrue(ledger, keys, prefix, before, id);
      StepChanges(ledger, keys, before, events[n], s, id);
      if j :| 0 <= j < |events| && IsReleaseOf(events[j], id) {
        if j < n { assert IsReleaseOf(prefix[j], id); }
      }
    } else {
      assert StatusFor(prefix, id) == None;
    }
  }

  /** No order is reserved twice. */
  lemma OneReservationPerOrder(ledger: Ledger, events: seq<Event>, i: nat, j: nat, id: IntentId)
    requires Accepted(ledger, events)
    requires i < j < |events| && IsReserveOf(events[i], id)
    ensures !IsReserveOf(events[j], id)
  {
    hide Step;
    var keys := ClosesOf(events);
    var upTo, prefix := events[..j + 1], events[..j];
    ReplayedPrefix(ledger, keys, events, j + 1);
    assert upTo[..j] == prefix && prefix[i] == events[i];
    var before, after := Replayed(ledger, keys, prefix).value, Replayed(ledger, keys, upTo).value;
    StepChanges(ledger, keys, before, events[j], after, id);
    ReservationsAreMade(ledger, keys, prefix, before, id);
  }

  /**
    * A fill happens under the one reservation of its order, while that is active: it comes after the reservation,
    * before any release, with a remainder that covers it.
    */
  lemma FillsUnderActiveReservation(ledger: Ledger, events: seq<Event>, id: IntentId, i: nat)
    requires Accepted(ledger, events) && i < |events| && IsFillOf(events[i], id)
    ensures exists k :: 0 <= k < i && IsReserveOf(events[k], id)
                        && forall m :: 0 <= m < |events| && IsReserveOf(events[m], id) ==> m == k
    ensures forall j :: 0 <= j < i ==> !IsReleaseOf(events[j], id)
    ensures StatusFor(events[..i], id) == Some(Active)
    ensures 0 < events[i].payload.fill.value.quantity <= RemainingFor(events[..i], id)
  {
    hide Step;
    var keys := ClosesOf(events);
    var upTo, prefix := events[..i + 1], events[..i];
    ReplayedPrefix(ledger, keys, events, i + 1);
    assert upTo[..i] == prefix;
    var before, after := Replayed(ledger, keys, prefix).value, Replayed(ledger, keys, upTo).value;
    StepChanges(ledger, keys, before, events[i], after, id);
    ReservationsAreMade(ledger, keys, prefix, before, id);
    StatusIsTrue(ledger, keys, prefix, before, id);
    SharesAreConserved(ledger, keys, prefix, before, id);
    var k :| 0 <= k < i && IsReserveOf(prefix[k], id);
    assert IsReserveOf(events[k], id);
    forall m | 0 <= m < |events| && IsReserveOf(events[m], id)
      ensures m == k
    {
      if m < k {
        OneReservationPerOrder(ledger, events, m, k, id);
      } else if k < m {
        OneReservationPerOrder(ledger, events, k, m, id);
      }
    }
    forall j | 0 <= j < i
      ensures !IsReleaseOf(events[j], id)
    {
      assert prefix[j] == events[j];
    }
  }

  /** A released order is never filled again. */
  lemma NoFillAfterRelease(ledger: Ledger, events: seq<Event>, id: IntentId, i: nat, k: nat)
    requires Accepted(ledger, events) && i < k < |events| && IsReleaseOf(events[i], id)
    ensures !IsFillOf(events[k], id) && !IsReleaseOf(events[k], id)
  {
    hide Step;
    var keys := ClosesOf(events);
    var upTo, prefix := events[..k + 1], events[..k];
    ReplayedPrefix(ledger, keys, events, k + 1);
    assert upTo[..k] == prefix && prefix[i] == events[i];
    var before, after := Replayed(ledger, keys, prefix).value, Replayed(ledger, keys, upTo).value;
    StepChanges(ledger, keys, before, events[k], after, id);
    StatusIsTrue(ledger, keys, prefix, before, id);
  }

  /**
    * A fill refers to an earlier approval of its order, and the next fill of the order waits for an update in
    * between.
    */
  lemma FillsAlternateWithUpdates(ledger: Ledger, events: seq<Event>, id: IntentId, i: nat)
    requires Accepted(ledger, events) && i < |events| && IsFillOf(events[i], id)
    ensures exists j ::
              0 <= j < i && IsDecision(events[j], id) && IsApproval(events[j])
              && events[i].causation == Some(events[j].id)
    ensures exists k :: i < k < |events| && IsUpdateOf(events[k], id) && forall j :: i < j < k ==>
              !IsFillOf(events[j], id)
  {
    var keys := ClosesOf(events);
    var s := Replayed(ledger, keys, events).value;
    FillsAreApproved(ledger, keys, events, s, id, i);
    if Unacknowledged(events, id, i) {
      FillsAwaitUpdates(ledger, keys, events, s, id, i);
      LastStep(ledger, keys, events, s);
      assert Open(s.orders.reservations[id]);
      assert false;
    }
    var k := FirstUpdate(events, id, i);
    var prefix := events[..k];
    assert forall m :: 0 <= m < k ==> prefix[m] == events[m];
    ReplayedPrefix(ledger, keys, events, k);
    FillsAwaitUpdates(ledger, keys, prefix, Replayed(ledger, keys, prefix).value, id, i);
    forall j | i < j < k
      ensures !IsFillOf(events[j], id)
    {
      assert !IsFillOf(prefix[j], id);
    }
  }

  /** The first update of an order after a fill of it. */
  ghost function FirstUpdate(events: seq<Event>, id: IntentId, i: nat): (k: nat)
    requires i < |events| && IsFillOf(events[i], id) && !Unacknowledged(events, id, i)
    ensures i < k < |events| && IsUpdateOf(events[k], id)
    ensures forall j :: i < j < k ==> !IsUpdateOf(events[j], id)
  {
    var later :| i < later < |events| && IsUpdateOf(events[later], id);
    FirstUpdateUpTo(events, id, i, later)
  }

  ghost function FirstUpdateUpTo(events: seq<Event>, id: IntentId, i: nat, later: nat): (k: nat)
    requires i < later < |events| && IsUpdateOf(events[later], id)
    ensures i < k < |events| && IsUpdateOf(events[k], id)
    ensures forall j :: i < j < k ==> !IsUpdateOf(events[j], id)
    decreases later
  {
    if sooner :| i < sooner < later && IsUpdateOf(events[sooner], id) then FirstUpdateUpTo(events, id, i, sooner)
        else later
  }

  lemma {:induction false} ReplayedPrefix(ledger: Ledger, keys: int -> set<int>, events: seq<Event>, n: nat)
    requires 1 <= n <= |events| && Replayed(ledger, keys, events).Ok?
    ensures Replayed(ledger, keys, events[..n]).Ok?
  {
    if Replayed(ledger, keys, events[..n]).Err? {
      FailureSticks(ledger, keys, events, n);
    }
  }

  /**
    * Of the shares an order reserved, each one was filled or is still open at the end, and an order never fills more.
    */
  lemma ReservedSharesAreConserved(ledger: Ledger, events: seq<Event>, id: IntentId)
    requires Accepted(ledger, events)
    ensures FilledFor(events, id) + RemainingFor(events, id) == ReservedFor(events, id)
    ensures FilledFor(events, id) > 0 ==> 0 <= RemainingFor(events, id) < ReservedFor(events, id)
  {
    var keys := ClosesOf(events);
    var s := Replayed(ledger, keys, events).value;
    SharesAreConserved(ledger, keys, events, s, id);
    FilledIsPositive(ledger, keys, events, s, id);
    LastStep(ledger, keys, events, s);
    if id in s.orders.reservations {
      assert !Open(s.orders.reservations[id]);
    }
  }

  /** A filled order has a non-negative remainder. */
  lemma {:induction false} FilledIsPositive(ledger: Ledger, keys: int -> set<int>, events: seq<Event>, s: ReplayState,
                                            id: IntentId)
    requires events != [] && events[0].payload.RunStarted? && Replayed(ledger, keys, events) == Ok(s)
    ensures FilledFor(events, id) >= 0
    ensures FilledFor(events, id) > 0 ==> id in s.orders.reservations && s.orders.reservations[id].0 >= 0
  {
    hide Step;
    var n := |events| - 1;
    var prefix := events[..n];
    if n == 0 {
      assert FilledFor(prefix, id) == 0;
    } else {
      var before := Replayed(ledger, keys, prefix).value;
      FilledIsPositive(ledger, keys, prefix, before, id);
      StepChanges(ledger, keys, before, events[n], s, id);
    }
  }

  /** Fill identities are distinct, and the completion event reports the true numbers of decisions and fills. */
  lemma CompletionCountsAreTrue(ledger: Ledger, events: seq<Event>)
    requires Accepted(ledger, events)
    ensures forall i, j :: 0 <= i < j < |events| && IsFill(events[i]) && IsFill(events[j]) ==>
              events[i].payload.fill.value.fillId != events[j].payload.fill.value.fillId
    ensures var done := events[|events| - 1].payload;
      && done.approved == Count(events, IsApproval)
      && done.rejected == Count(events, IsRejection)
      && done.fills == Count(events, IsFill)
  {
    var keys := ClosesOf(events);
    var s := Replayed(ledger, keys, events).value;
    FillsAreDistinct(ledger, keys, events, s);
    CountsAreTrue(ledger, keys, events, s);
    LastStep(ledger, keys, events, s);
  }
}
