/** Sums over rows of the reservations table, listed one by one. */
module RowSums {
  import opened FeeTax
  import opened OmsModel

  predicate OnceEach(ids: seq<OrderId>) {
    forall i, j :: 0 <= i < j < |ids| ==> ids[i] != ids[j]
  }

  /** Some of the active buy reservations. */
  predicate ActiveBuys(m: map<OrderId, Reservation>, ids: seq<OrderId>) {
    OnceEach(ids) && forall id <- ids :: id in m && id.side == Buy && m[id].active
  }

  /** Some of the active sell reservations of an instrument. */
  predicate ActiveSells(m: map<OrderId, Reservation>, instrument: string, ids: seq<OrderId>) {
    OnceEach(ids) && forall id <- ids :: id in m && id.side == Sell && id.instrument == instrument && m[id].active
  }

  ghost predicate AllActiveBuys(m: map<OrderId, Reservation>, ids: seq<OrderId>) {
    ActiveBuys(m, ids) && forall id <- m :: id.side == Buy && m[id].active ==> id in ids
  }

  ghost predicate AllActiveSells(m: map<OrderId, Reservation>, instrument: string, ids: seq<OrderId>) {
    && ActiveSells(m, instrument, ids)
    && forall id <- m :: id.side == Sell && id.instrument == instrument && m[id].active ==> id in ids
  }

  function CashSum(m: map<OrderId, Reservation>, ids: seq<OrderId>): real
    requires forall id <- ids :: id in m
  {
    if ids == [] then 0.0 else m[ids[0]].cash + CashSum(m, ids[1..])
  }

  function QuantitySum(m: map<OrderId, Reservation>, ids: seq<OrderId>): int
    requires forall id <- ids :: id in m
  {
    if ids == [] then 0 else m[ids[0]].quantity + QuantitySum(m, ids[1..])
  }

  /** What the listed rows weigh. */
  function Weigh(m: map<OrderId, Reservation>, f: (OrderId, Reservation) -> real, ids: seq<OrderId>): real
    requires forall id <- ids :: id in m
  {
    if ids == [] then 0.0 else f(ids[0], m[ids[0]]) + Weigh(m, f, ids[1..])
  }

  lemma {:induction false} WeighRest(m: map<OrderId, Reservation>, f: (OrderId, Reservation) -> real, ids: seq<OrderId>,
                                     gone: OrderId)
    requires gone !in ids && forall id <- ids :: id in m
    ensures Weigh(m - {gone}, f, ids) == Weigh(m, f, ids)
  {
    if ids != [] {
      WeighRest(m, f, ids[1..], gone);
    }
  }

  lemma {:induction false} NonNegativeTotal(m: map<OrderId, Reservation>, f: (OrderId, Reservation) -> real)
    requires forall id <- m :: f(id, m[id]) >= 0.0
    ensures Total(m, f) >= 0.0
    ensures (forall id <- m :: f(id, m[id]) == 0.0) ==> Total(m, f) == 0.0
    decreases |m|
  {
    if m != map[] {
      var id :| id in m && Total(m, f) == f(id, m[id]) + Total(m - {id}, f);
      NonNegativeTotal(m - {id}, f);
    }
  }

  /** Some rows weigh at most the total, and all rows that weigh anything weigh exactly the total. */
  lemma {:induction false} WeighTotal(m: map<OrderId, Reservation>, f: (OrderId, Reservation) -> real,
                                      ids: seq<OrderId>)
    requires OnceEach(ids) && (forall id <- ids :: id in m)
    ensures (forall id <- m :: f(id, m[id]) >= 0.0) ==> Weigh(m, f, ids) <= Total(m, f)
    ensures (forall id <- m :: id !in ids ==> f(id, m[id]) == 0.0) ==> Weigh(m, f, ids) == Total(m, f)
  {
    if ids == [] {
      if forall id <- m :: f(id, m[id]) >= 0.0 {
        NonNegativeTotal(m, f);
      }
    } else {
      var rest := m - {ids[0]};
      assert ids == [ids[0]] + ids[1..];
      WeighRest(m, f, ids[1..], ids[0]);
      TotalWithout(m, f, ids[0]);
      WeighTotal(rest, f, ids[1..]);
    }
  }

  lemma {:induction false} CashWeighs(m: map<OrderId, Reservation>, ids: seq<OrderId>)
    requires ActiveBuys(m, ids)
    ensures CashSum(m, ids) == Weigh(m, CashOf, ids)
  {
    if ids != [] {
      CashWeighs(m, ids[1..]);
    }
  }

  lemma {:induction false} QuantityWeighs(m: map<OrderId, Reservation>, instrument: string, ids: seq<OrderId>)
    requires ActiveSells(m, instrument, ids)
    ensures QuantitySum(m, ids) as real == Weigh(m, SellOf(instrument), ids)
  {
    if ids != [] {
      QuantityWeighs(m, instrument, ids[1..]);
    }
  }

  /** The reserved cash is the sum over all active buy reservations, however they are listed. */
  lemma CashIsReserved(m: map<OrderId, Reservation>, ids: seq<OrderId>)
    requires ActiveBuys(m, ids)
    ensures AllActiveBuys(m, ids) ==> Total(m, CashOf) == CashSum(m, ids)
    ensures (forall id <- m :: CashOf(id, m[id]) >= 0.0) ==> CashSum(m, ids) <= Total(m, CashOf)
  {
    CashWeighs(m, ids);
    WeighTotal(m, CashOf, ids);
  }

  lemma QuantityIsReserved(m: map<OrderId, Reservation>, instrument: string, ids: seq<OrderId>)
    requires ActiveSells(m, instrument, ids)
    ensures AllActiveSells(m, instrument, ids) ==> Total(m, SellOf(instrument)) == QuantitySum(m, ids) as real
    ensures (forall id <- m :: SellOf(instrument)(id, m[id]) >= 0.0) ==>
              QuantitySum(m, ids) as real <= Total(m, SellOf(instrument))
  {
    QuantityWeighs(m, instrument, ids);
    WeighTotal(m, SellOf(instrument), ids);
  }

  /** There is always a listing. */
  lemma {:induction false} Listing(orders: set<OrderId>) returns (ids: seq<OrderId>)
    ensures OnceEach(ids) && forall id :: id in ids <==> id in orders
  {
    if orders == {} {
      ids := [];
    } else {
      var id :| id in orders;
      var rest := Listing(orders - {id});
      ids := [id] + rest;
    }
  }

  lemma ActiveListings(m: map<OrderId, Reservation>, instrument: string)
      returns (buys: seq<OrderId>, sells: seq<OrderId>)
    ensures AllActiveBuys(m, buys) && AllActiveSells(m, instrument, sells)
  {
    buys := Listing(set id <- m | id.side == Buy && m[id].active);
    sells := Listing(set id <- m | id.side == Sell && id.instrument == instrument && m[id].active);
  }
}
