/** The offline broker fixture, with the state it keeps in its fields. */
module BrokerFixture {
  import opened FixtureModel
  import opened Wrappers

  class OfflineBrokerFixture {
    var faults: set<Fault>
    const supported: set<Capability>
    var health: Health
    var orders: map<int, FixtureOrder>
    var keys: map<int, int>
    var events: map<int, BrokerEvent>
    var lastSequence: map<int, nat>
    var fills: map<int, BrokerEvent>
    var killNewRisk: bool

    ghost function Now(): State
      reads this
    {
      State(faults, supported, health, killNewRisk, orders, keys, events, lastSequence, fills)
    }

    /** Every idempotency key names a recorded order. */
    ghost predicate Valid()
      reads this
    {
      forall key <- keys :: keys[key] in orders
    }

    constructor (faults: set<Fault>, supported: set<Capability>)
      ensures Valid() && Now() == Initial(faults, supported)
    {
      this.faults, this.supported := faults, supported;
      health, killNewRisk := Disconnected, true;
      orders, keys, events, lastSequence, fills := map[], map[], map[], map[], map[];
    }

    method OpenSession()
      requires Valid()
      modifies this
      ensures Valid()
      ensures Now() == Open(old(Now()))
    {
      if SessionExpired in faults {
        health := Expired;
      } else {
        killNewRisk := false;
        health := Healthy;
      }
    }

    method CloseSession()
      requires Valid()
      modifies this
      ensures Valid()
      ensures Now() == Close(old(Now()))
    {
      killNewRisk := true;
      health := Disconnected;
    }

    method ForceKillNewRisk()
      requires Valid()
      modifies this
      ensures Valid()
      ensures Now() == ForceKill(old(Now()))
    {
      killNewRisk := true;
      health := Degraded;
    }

    method ClearFaultsAndReconnect()
      requires Valid()
      modifies this
      ensures Valid()
      ensures Now() == Reconnect(old(Now()))
    {
      faults := {};
      killNewRisk := false;
      health := Healthy;
    }

    method SubmitOrder(request: Request) returns (answer: Answer)
      requires Valid()
      modifies this
      ensures Valid()
      ensures (Now(), answer) == Submit(old(Now()), request)
    {
      if killNewRisk || health != Healthy {
        return Rejected(KillNewRisk);
      }
      if CanSubmit !in supported {
        return Rejected(UnsupportedCapability);
      }
      if request.key in keys {
        var existing := orders[keys[request.key]];
        if existing.request != request {
          return Rejected(IdempotencyConflict);
        }
        return Accepted;
      }
      if RateLimited in faults {
        return Rejected(RateLimit);
      }
      if !request.commonLot && OddLotRefused in faults {
        return Rejected(OddLotRejected);
      }
      if Suspended in faults {
        return Rejected(InstrumentSuspended);
      }
      if LimitLocked in faults {
        return Rejected(PriceLimitLocked);
      }
      orders := orders[request.order := FixtureOrder(request, Snapshot(Acknowledged, request.quantity, 0, 1))];
      keys := keys[request.key := request.order];
      lastSequence := lastSequence[request.order := 1];
      answer := if LostResponse in faults then OutcomeUnknown else Accepted;
    }

    method CancelOrder(order: int) returns (answer: Answer)
      requires Valid()
      modifies this
      ensures Valid()
      ensures (Now(), answer) == Cancel(old(Now()), order)
    {
      if CanCancel !in supported {
        return Rejected(UnsupportedCapability);
      }
      if order !in orders {
        return Rejected(OrderNotFound);
      }
      var snapshot := orders[order].snapshot;
      if snapshot.state == Filled {
        return Rejected(AlreadyFilled);
      }
      var cancelled := snapshot.(state := Cancelled, sequence := snapshot.sequence + 1);
      orders := orders[order := orders[order].(snapshot := cancelled)];
      lastSequence := lastSequence[order := cancelled.sequence];
      answer := Accepted;
    }

    method ReplaceOrder(order: int, quantity: int, limitPrice: Option<real>) returns (answer: Answer)
      requires Valid()
      modifies this
      ensures Valid()
      ensures (Now(), answer) == Replace(old(Now()), order, quantity, limitPrice)
    {
      if CanReplace !in supported {
        return Rejected(UnsupportedCapability);
      }
      if order !in orders {
        return Rejected(OrderNotFound);
      }
      var snapshot := orders[order].snapshot;
      if snapshot.state == Filled {
        return Rejected(AlreadyFilled);
      }
      if quantity < snapshot.filled {
        return Rejected(QuantityBelowFilled);
      }
      var replaced := snapshot.(state := Replaced, quantity := quantity, sequence := snapshot.sequence + 1);
      var request := orders[order].request.(quantity := quantity, limitPrice := limitPrice);
      orders := orders[order := FixtureOrder(request, replaced)];
      lastSequence := lastSequence[order := replaced.sequence];
      answer := Accepted;
    }

    method IngestEvent(event: BrokerEvent, checksumValid: bool) returns (result: Ingestion)
      requires Valid()
      modifies this
      ensures Valid()
      ensures (Now(), result) == Ingest(old(Now()), event, checksumValid)
    {
      if !checksumValid {
        killNewRisk := true;
        return Corrupted;
      }
      if event.identity in events {
        return Ignored;
      }
      var expected := (if event.order in lastSequence then lastSequence[event.order] else 0) + 1;
      if event.sequence != expected {
        killNewRisk := true;
        health := Degraded;
        return Ignored;
      }
      if event.order !in orders {
        killNewRisk := true;
        return Ignored;
      }
      var snapshot := orders[event.order].snapshot;
      if event.FillEvent? {
        if event.fillId in fills {
          return Ignored;
        }
        var filled := snapshot.filled + event.quantity;
        if filled > snapshot.quantity {
          killNewRisk := true;
          return Corrupted;
        }
        var state := if filled == snapshot.quantity then Filled else PartiallyFilled;
        snapshot := snapshot.(filled := filled, state := state, sequence := event.sequence);
        fills := fills[event.fillId := event];
      } else {
        snapshot := snapshot.(state := event.state, sequence := event.sequence);
      }
      orders := orders[event.order := orders[event.order].(snapshot := snapshot)];
      events := events[event.identity := event];
      lastSequence := lastSequence[event.order := event.sequence];
      result := Applied;
    }
  }
}
