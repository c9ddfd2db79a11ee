/** What is on order, order by order, and the whole-share position a target weight stands for. */
module TargetOrders {
  import opened FeeTax
  import opened OmsModel
  import opened RowSums
  import Simulation
  import opened TargetModel

  // ---- What is on order ----

  /** States in which an order can no longer, or not yet, change a position. */
  predicate IsIdle(s: OrderState) {
    s in {Created, RiskPending, RiskRejected, Filled, Cancelled, Replaced, Rejected, Expired}
  }

  /** All orders of a side that can still change the position in an instrument. */
  ghost predicate AllOnOrder(orders: map<OrderId, Order>, instrument: string, side: Side, ids: seq<OrderId>) {
    && OnceEach(ids)
    && forall id :: id in ids <==>
         id in orders && orders[id].id.instrument == instrument && orders[id].id.side == side
         && !IsIdle(orders[id].state)
  }

  /** The shares still to come: none when every order is filled. */
  function Remainder(orders: map<OrderId, Order>, ids: seq<OrderId>): (r: int)
    requires forall id <- ids :: id in orders
    ensures (forall id <- ids :: orders[id].filled == id.quantity && orders[id].id == id) ==> r == 0
  {
    if ids == [] then 0 else orders[ids[0]].id.quantity - orders[ids[0]].filled + Remainder(orders, ids[1..])
  }

  /** What an order on order counts, and that no other counts. */
  lemma CountsAs(orders: map<OrderId, Order>, instrument: string, id: OrderId)
    requires id in orders
    ensures var o := orders[id];
            PendingAt(orders, instrument)(id) ==
            if o.id.instrument != instrument || IsIdle(o.state) then 0
            else if o.id.side == Buy then o.id.quantity - o.filled else o.filled - o.id.quantity
  {
    IdleOrOpen(orders[id].state);
  }

  lemma IdleOrOpen(s: OrderState)
    ensures IsOpen(s) <==> !IsIdle(s)
  {
    assert s.Created? || s.RiskPending? || s.RiskApproved? || s.RiskRejected? || s.SubmitPending? || s.Submitted?
        || s.Acknowledged? || s.PartiallyFilled? || s.Filled? || s.CancelPending? || s.Cancelled? || s.ReplacePending?
        || s.Replaced? || s.Rejected? || s.Expired? || s.Unknown?;
  }

  /** Orders listed once each, with those of the set counted and the rest not counting. */
  lemma {:induction false} SumListed(orders: map<OrderId, Order>, instrument: string, s: set<OrderId>,
                                     buys: seq<OrderId>, sells: seq<OrderId>)
    requires s <= orders.Keys && OnceEach(buys) && OnceEach(sells)
    requires forall id <- buys :: id in s && orders[id].id.side == Buy && orders[id].id.instrument == instrument
                                  && !IsIdle(orders[id].state)
    requires forall id <- sells :: id in s && orders[id].id.side == Sell && orders[id].id.instrument == instrument
                                   && !IsIdle(orders[id].state)
    requires forall id <- s :: id in buys || id in sells || PendingAt(orders, instrument)(id) == 0
    ensures SumOver(s, PendingAt(orders, instrument)) == Remainder(orders, buys) - Remainder(orders, sells)
    decreases |buys| + |sells|
  {
    hide PendingAt, IsIdle;
    var g := PendingAt(orders, instrument);
    if buys != [] {
      CountsAs(orders, instrument, buys[0]);
      SumWithout(s, g, buys[0]);
      assert buys == [buys[0]] + buys[1..];
      SumListed(orders, instrument, s - {buys[0]}, buys[1..], sells);
    } else if sells != [] {
      CountsAs(orders, instrument, sells[0]);
      SumWithout(s, g, sells[0]);
      assert sells == [sells[0]] + sells[1..];
      SumListed(orders, instrument, s - {sells[0]}, buys, sells[1..]);
    } else {
      SumsAgree(s, {}, g, g);
    }
  }

  lemma OpenDeltaIs(orders: map<OrderId, Order>, instrument: string, buys: seq<OrderId>, sells: seq<OrderId>)
    requires AllOnOrder(orders, instrument, Buy, buys) && AllOnOrder(orders, instrument, Sell, sells)
    ensures OpenDelta(orders, instrument) == Remainder(orders, buys) - Remainder(orders, sells)
  {
    forall id | id in orders
      ensures id in buys || id in sells || PendingAt(orders, instrument)(id) == 0
    {
      CountsAs(orders, instrument, id);
    }
    SumListed(orders, instrument, orders.Keys, buys, sells);
  }

  // ---- What a weight is worth in whole shares ----

  /** So many shares are worth at most the target's weight of the portfolio, and one more is worth more. */
  predicate IsLargestPosition(shares: int, nav: real, t: Target) {
    shares as real * t.price <= nav * t.weight && nav * t.weight < (shares + 1) as real * t.price
  }

  lemma DesiredIsLargest(nav: real, t: Target, shares: int)
    requires t.price > 0.0
    ensures IsLargestPosition(shares, nav, t) <==> shares == Desired(nav, t)
  {
    hide IsLargestPosition, Simulation.Budget, Simulation.Shares;
    Simulation.SharesAre(Simulation.Budget(nav, t.weight), t.price, shares);
    LargestIs(shares, nav, t);
  }

  lemma LargestIs(shares: int, nav: real, t: Target)
    ensures IsLargestPosition(shares, nav, t) <==>
              shares as real * t.price <= Simulation.Budget(nav, t.weight) < (shares + 1) as real * t.price
  {
  }
}
