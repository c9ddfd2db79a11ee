/** Pending-order reservations of a backtest, without the cash they hold back. */
module PendingOrders {
  import opened BacktestJournal
  import opened FeeTax
  import opened Wrappers

  datatype OrderReservation = OrderReservation(key: IntentKey, instrument: int, side: Side, original: int,
                                               remaining: int, status: OrderStatus)

  datatype BookError = KeyTaken | NotReserved | NotActive | WrongOrder | WrongInstrument | TooMuch | BadRelease

  class PendingOrderBook {
    var reservations: map<IntentId, OrderReservation>
    var index: map<IntentKey, IntentId>

    /** Every reservation is indexed under its idempotency key. */
    ghost predicate Valid()
      reads this
    {
      && (forall id :: id in reservations ==> reservations[id].key == IntentKey(id) && reservations[id].key in index)
      && (forall key :: key in index ==> index[key] in reservations && key == IntentKey(index[key]))
    }

    constructor ()
      ensures Valid() && reservations == map[]
    {
      reservations := map[];
      index := map[];
    }

    /** `reserve`: a repeated intent gets the reservation it already has. */
    method Reserve(intent: IntentId) returns (r: Result<OrderReservation, BookError>)
      requires Valid()
      modifies this
      ensures Valid() && r.Ok?
      ensures intent in old(reservations) ==> reservations == old(reservations) && r.value == reservations[intent]
      ensures intent !in old(reservations) ==>
                && r.value == OrderReservation(IntentKey(intent), intent.instrument, intent.side, intent.quantity,
                                               intent.quantity, Active)
                && reservations == old(reservations)[intent := r.value]
    {
      var key := IntentKey(intent);
      if key in index {
        var existing := index[key];
        if existing != intent {
          return Err(KeyTaken);
        }
        return Ok(reservations[existing]);
      }
      var item := OrderReservation(key, intent.instrument, intent.side, intent.quantity, intent.quantity, Active);
      reservations := reservations[intent := item];
      index := index[key := intent];
      r := Ok(item);
    }

    /** `apply_fill`: takes the filled quantity off an active reservation. */
    method ApplyFill(intent: IntentId, fill: SimFill) returns (r: Result<OrderReservation, BookError>)
      requires Valid()
      modifies this`reservations
      ensures Valid()
      ensures r.Ok? <==>
                && intent in old(reservations) && old(reservations)[intent].status == Active
                && fill.clientOrder == old(reservations)[intent].key
                   && fill.instrument == old(reservations)[intent].instrument
                && fill.side == old(reservations)[intent].side && fill.quantity <= old(reservations)[intent].remaining
      ensures r.Ok? ==>
                var remaining := old(reservations)[intent].remaining - fill.quantity;
                && r.value == old(reservations)[intent].(remaining := remaining, status := if remaining != 0
                                                         then Active else Filled)
                && reservations == old(reservations)[intent := r.value]
      ensures r.Err? ==> reservations == old(reservations)
    {
      if intent !in reservations {
        return Err(NotReserved);
      }
      var item := reservations[intent];
      if item.status != Active {
        return Err(NotActive);
      }
      if fill.clientOrder != item.key {
        return Err(WrongOrder);
      }
      if fill.instrument != item.instrument || fill.side != item.side {
        return Err(WrongInstrument);
      }
      if fill.quantity > item.remaining {
        return Err(TooMuch);
      }
      var remaining := item.remaining - fill.quantity;
      var updated := item.(remaining := remaining, status := if remaining != 0 then Active else Filled);
      reservations := reservations[intent := updated];
      r := Ok(updated);
    }

    /** `release`: closes an active reservation without a fill. */
    method Release(intent: IntentId, status: OrderStatus) returns (r: Result<OrderReservation, BookError>)
      requires Valid()
      modifies this`reservations
      ensures Valid()
      ensures r.Ok? <==>
                && (status == Cancelled || status == Rejected || status == Expired)
                && intent in old(reservations) && old(reservations)[intent].status == Active
      ensures r.Ok? ==>
                && r.value == old(reservations)[intent].(status := status)
                && reservations == old(reservations)[intent := r.value]
      ensures r.Err? ==> reservations == old(reservations)
    {
      if status != Cancelled && status != Rejected && status != Expired {
        return Err(BadRelease);
      }
      if intent !in reservations {
        return Err(NotReserved);
      }
      var item := reservations[intent];
      if item.status != Active {
        return Err(NotActive);
      }
      var updated := item.(status := status);
      reservations := reservations[intent := updated];
      r := Ok(updated);
    }
  }
}
