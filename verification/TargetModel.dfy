/** Paper targets, and the orders that would reach them from what is held and already on order. */
module TargetModel {
  import opened FeeTax
  import opened OmsInvariant
  import opened OmsModel
  import Simulation

  datatype InstrumentKey = InstrumentKey(market: int, instrument: string)

  /** `rank` stands for the text order of instrument ids. */
  datatype Target = Target(instrument: string, rank: int, market: int, session: int, weight: real, price: real) {
    function Key(): InstrumentKey {
      InstrumentKey(market, instrument)
    }

    /** What validating a target record checks. */
    predicate Valid() {
      0.0 <= weight <= 1.0 && price > 0.0
    }
  }

  datatype TargetSnapshot = TargetSnapshot(artifact: string, targets: seq<Target>) {
    predicate Valid() {
      && targets != [] && (forall t <- targets :: t.Valid())
      && forall i, j :: 0 <= i < j < |targets| ==> targets[i].Key() != targets[j].Key()
    }
  }

  datatype Portfolio = Portfolio(complete: bool, nav: real, cash: real, positions: map<InstrumentKey, int>)

  datatype Policy = Policy(
    version: string, initialCash: real, maxGross: real, maxSingle: real, minCashBuffer: real, slippageBps: real,
    maxTurnover: real, maxParticipation: real, maxPositions: nat, maxOrders: nat)

  /** What the idempotency key of a target order covers. */
  datatype Identity = Identity(artifact: string, session: int, key: InstrumentKey, side: Side, quantity: int,
                               policy: string)

  /** The digests of an order identity; different identities have different ones. */
  datatype Digests = Digests(key: Identity -> int, client: Identity -> string) {
    ghost predicate Injective() {
      && (forall a, b :: key(a) == key(b) ==> a == b)
      && (forall a, b :: client(a) == client(b) ==> a == b)
    }

    function OrderOf(w: Identity): OrderId {
      OrderId(client(w), key(w), w.key.instrument, w.side, w.quantity)
    }
  }

  /** `_OPEN_ORDER_STATES`. */
  predicate IsOpen(s: OrderState) {
    s in {RiskApproved, SubmitPending, Submitted, Acknowledged, PartiallyFilled, CancelPending, ReplacePending, Unknown}
  }

  function Get(m: map<InstrumentKey, int>, key: InstrumentKey): int {
    if key in m then m[key] else 0
  }

  function Signed(side: Side, quantity: int): int {
    if side == Buy then quantity else -quantity
  }

  /** What an order still changes about the position in an instrument. */
  function Pending(o: Order, instrument: string): int {
    if IsOpen(o.state) && o.id.instrument == instrument then Signed(o.id.side, o.id.quantity - o.filled) else 0
  }

  function PendingAt(orders: map<OrderId, Order>, instrument: string): OrderId -> int {
    (id: OrderId) => if id in orders then Pending(orders[id], instrument) else 0
  }

  ghost function SumOver(s: set<OrderId>, g: OrderId -> int): int
    decreases |s|
  {
    if s == {} then 0
    else
      var id :| id in s;
      g(id) + SumOver(s - {id}, g)
  }

  lemma {:induction false} SumWithout(s: set<OrderId>, g: OrderId -> int, id: OrderId)
    requires id in s
    ensures SumOver(s, g) == g(id) + SumOver(s - {id}, g)
    decreases |s|
  {
    var first :| first in s && SumOver(s, g) == g(first) + SumOver(s - {first}, g);
    if first != id {
      SumWithout(s - {first}, g, id);
      SumWithout(s - {id}, g, first);
      assert s - {first} - {id} == s - {id} - {first};
    }
  }

  /** Sums over two sets agree when the weights do, and vanish outside either set. */
  lemma {:induction false} SumsAgree(s: set<OrderId>, t: set<OrderId>, g: OrderId -> int, h: OrderId -> int)
    requires forall id :: id in s && id in t ==> g(id) == h(id)
    requires forall id :: id in s && id !in t ==> g(id) == 0
    requires forall id :: id in t && id !in s ==> h(id) == 0
    ensures SumOver(s, g) == SumOver(t, h)
    decreases |s| + |t|
  {
    if s != {} {
      var id :| id in s;
      SumWithout(s, g, id);
      if id in t {
        SumWithout(t, h, id);
      }
      assert id !in t ==> t - {id} == t;
      SumsAgree(s - {id}, t - {id}, g, h);
    } else if t != {} {
      var id :| id in t;
      SumWithout(t, h, id);
      SumsAgree(s, t - {id}, g, h);
    }
  }

  ghost function OpenDelta(orders: map<OrderId, Order>, instrument: string): int {
    SumOver(orders.Keys, PendingAt(orders, instrument))
  }

  function Desired(nav: real, t: Target): int
    requires t.price > 0.0
  {
    Simulation.Shares(Simulation.Budget(nav, t.weight), t.price)
  }

  /** How far a target is from what is held and on order. */
  ghost function Delta(orders: map<OrderId, Order>, p: Portfolio, t: Target): int
    requires t.price > 0.0
  {
    Desired(p.nav, t) - (Get(p.positions, t.Key()) + OpenDelta(orders, t.instrument))
  }

  function IdentityFor(snapshot: TargetSnapshot, policy: Policy, t: Target, delta: int): Identity {
    Identity(snapshot.artifact, t.session, t.Key(), if delta > 0 then Buy else Sell, if delta > 0 then delta
             else -delta, policy.version)
  }

  /** The identities of the orders one execution asks for. */
  ghost predicate Wanted(orders: map<OrderId, Order>, snapshot: TargetSnapshot, policy: Policy, p: Portfolio,
                         w: Identity)
    requires snapshot.Valid()
  {
    exists t <- snapshot.targets ::
      Delta(orders, p, t) != 0 && w == IdentityFor(snapshot, policy, t, Delta(orders, p, t))
  }

  // ---- Executing twice ----

  predicate IsPending(orders: map<OrderId, Order>, id: OrderId) {
    id in orders && IsOpen(orders[id].state)
  }

  /** What the database keeps about every order row. */
  ghost predicate RowsFit(orders: map<OrderId, Order>) {
    forall id :: id in orders ==>
      && orders[id].id == id && 0 <= orders[id].filled <= id.quantity
         && (IsOpen(orders[id].state) ==> orders[id].filled < id.quantity)
  }

  lemma ReachableRowsFit(db: Db)
    requires Inv(db)
    ensures RowsFit(db.orders)
  {
    hide Inv, OrderOk;
    forall id | id in db.orders
      ensures db.orders[id].id == id && 0 <= db.orders[id].filled <= id.quantity
      ensures IsOpen(db.orders[id].state) ==> db.orders[id].filled < id.quantity
    {
      RowParts(db, id);
      OrderFacts(db, id);
    }
  }

  lemma OrderFacts(db: Db, id: OrderId)
    requires id in db.orders && id in db.journal && OrderOk(id, db.orders[id], db.journal[id], RowsOf(db.fills, id))
    ensures db.orders[id].id == id && 0 <= db.orders[id].filled <= id.quantity
    ensures db.orders[id].state == Filled <==> db.orders[id].filled == id.quantity
  {
  }

  /** The order counts the same towards every position before and after. */
  ghost predicate SamePending(before: map<OrderId, Order>, after: map<OrderId, Order>, id: OrderId) {
    forall instrument: string :: PendingAt(after, instrument)(id) == PendingAt(before, instrument)(id)
  }

  /** Only orders of the first execution that were not pending before it may count differently. */
  ghost predicate Undisturbed(before: map<OrderId, Order>, after: map<OrderId, Order>,
                              snapshot: TargetSnapshot, policy: Policy, p: Portfolio, digests: Digests)
    requires snapshot.Valid()
  {
    forall id :: SamePending(before, after, id) || IsNew(before, snapshot, policy, p, digests, id)
  }

  ghost predicate IsNew(before: map<OrderId, Order>, snapshot: TargetSnapshot, policy: Policy, p: Portfolio,
                        digests: Digests, id: OrderId)
    requires snapshot.Valid()
  {
    !IsPending(before, id) && exists w :: Wanted(before, snapshot, policy, p, w) && id == digests.OrderOf(w)
  }

  /** An order of the first execution is open with some but not all of its shares filled. */
  ghost predicate PartlyFilled(before: map<OrderId, Order>, after: map<OrderId, Order>,
                               snapshot: TargetSnapshot, policy: Policy, p: Portfolio, digests: Digests, id: OrderId)
    requires snapshot.Valid()
  {
    IsNew(before, snapshot, policy, p, digests, id) && IsPending(after, id) && after[id].filled > 0
  }

  predicate DistinctInstruments(snapshot: TargetSnapshot) {
    forall i, j :: 0 <= i < j < |snapshot.targets| ==> snapshot.targets[i].instrument != snapshot.targets[j].instrument
  }

  lemma SameTarget(snapshot: TargetSnapshot, t: Target, u: Target)
    requires DistinctInstruments(snapshot) && t in snapshot.targets && u in snapshot.targets
             && t.instrument == u.instrument
    ensures t == u
  {
    var i :| 0 <= i < |snapshot.targets| && snapshot.targets[i] == t;
    var j :| 0 <= j < |snapshot.targets| && snapshot.targets[j] == u;
    assert i == j;
  }

  /** When one order at most counts differently, the open total moves by its difference. */
  lemma OneOrderMoves(before: map<OrderId, Order>, after: map<OrderId, Order>, instrument: string, star: OrderId)
    requires forall id :: id != star ==> PendingAt(after, instrument)(id) == PendingAt(before, instrument)(id)
    ensures OpenDelta(after, instrument) ==
            OpenDelta(before, instrument) + PendingAt(after, instrument)(star) - PendingAt(before, instrument)(star)
  {
    var g, h := PendingAt(before, instrument), PendingAt(after, instrument);
    SumsAgree(before.Keys - {star}, after.Keys - {star}, g, h);
    if star in before { SumWithout(before.Keys, g, star); } else { assert before.Keys - {star} == before.Keys; }
    if star in after { SumWithout(after.Keys, h, star); } else { assert after.Keys - {star} == after.Keys; }
  }

  /** What the second execution sees of one target. */
  lemma SecondLook(before: map<OrderId, Order>, after: map<OrderId, Order>, snapshot: TargetSnapshot, policy: Policy,
                   p: Portfolio, digests: Digests, t: Target)
    requires snapshot.Valid() && DistinctInstruments(snapshot) && digests.Injective() && RowsFit(after)
    requires Undisturbed(before, after, snapshot, policy, p, digests) && t in snapshot.targets
    ensures var first, second := Delta(before, p, t), Delta(after, p, t);
      var id := digests.OrderOf(IdentityFor(snapshot, policy, t, first));
      && (first == 0 ==> second == 0)
      && (first != 0 ==>
            if !IsNew(before, snapshot, policy, p, digests, id) || !IsPending(after, id) then second == first
            else second == Signed(id.side, after[id].filled))
  {
    hide SumOver, Desired;
    var w := IdentityFor(snapshot, policy, t, Delta(before, p, t));
    var star := digests.OrderOf(w);
    forall id | id != star
      ensures PendingAt(after, t.instrument)(id) == PendingAt(before, t.instrument)(id)
    {
      OtherOrders(before, after, snapshot, policy, p, digests, t, id);
    }
    OneOrderMoves(before, after, t.instrument, star);
    if Delta(before, p, t) == 0 {
      OtherOrders(before, after, snapshot, policy, p, digests, t, star);
    } else {
      assert Wanted(before, snapshot, policy, p, w);
      assert SamePending(before, after, star) || IsNew(before, snapshot, policy, p, digests, star);
    }
  }

  /** An order other than the target's own counts towards its position as before. */
  lemma OtherOrders(before: map<OrderId, Order>, after: map<OrderId, Order>, snapshot: TargetSnapshot, policy: Policy,
                    p: Portfolio, digests: Digests, t: Target, id: OrderId)
    requires snapshot.Valid() && DistinctInstruments(snapshot) && RowsFit(after)
    requires Undisturbed(before, after, snapshot, policy, p, digests) && t in snapshot.targets
    requires Delta(before, p, t) == 0 || id != digests.OrderOf(IdentityFor(snapshot, policy, t, Delta(before, p, t)))
    ensures PendingAt(after, t.instrument)(id) == PendingAt(before, t.instrument)(id)
  {
    hide SumOver, Desired, OpenDelta;
    if !SamePending(before, after, id) {
      var w :| Wanted(before, snapshot, policy, p, w) && id == digests.OrderOf(w);
      var u :| u in snapshot.targets && Delta(before, p, u) != 0
          && w == IdentityFor(snapshot, policy, u, Delta(before, p, u));
      if u.instrument == t.instrument {
        SameTarget(snapshot, t, u);
      }
    }
  }

  /**
    * Executing the same snapshot again asks only for orders the first execution asked for, exactly when none of
    * the first execution's orders is open and partly filled.
    */
  lemma ReexecutionIsHarmless(before: map<OrderId, Order>, after: map<OrderId, Order>, snapshot: TargetSnapshot,
                              policy: Policy,
                              p: Portfolio, digests: Digests)
    requires snapshot.Valid() && DistinctInstruments(snapshot) && digests.Injective() && RowsFit(after)
    requires Undisturbed(before, after, snapshot, policy, p, digests)
    ensures (forall w :: Wanted(after, snapshot, policy, p, w) ==> Wanted(before, snapshot, policy, p, w))
            <==> (forall id :: !PartlyFilled(before, after, snapshot, policy, p, digests, id))
  {
    hide SumOver, Desired, OpenDelta, Undisturbed;
    forall w | Wanted(after, snapshot, policy, p, w) && forall id ::
      !PartlyFilled(before, after, snapshot, policy, p, digests, id)
      ensures Wanted(before, snapshot, policy, p, w)
    {
      var t :| t in snapshot.targets && Delta(after, p, t) != 0
          && w == IdentityFor(snapshot, policy, t, Delta(after, p, t));
      SecondLook(before, after, snapshot, policy, p, digests, t);
      var id := digests.OrderOf(IdentityFor(snapshot, policy, t, Delta(before, p, t)));
      assert !PartlyFilled(before, after, snapshot, policy, p, digests, id);
    }
    forall id | PartlyFilled(before, after, snapshot, policy, p, digests, id)
      ensures exists w :: Wanted(after, snapshot, policy, p, w) && !Wanted(before, snapshot, policy, p, w)
    {
      PartialFillReorders(before, after, snapshot, policy, p, digests, id);
    }
  }

  /** A partly filled order makes the next execution ask for its filled part again, as a new order. */
  lemma PartialFillReorders(before: map<OrderId, Order>, after: map<OrderId, Order>, snapshot: TargetSnapshot,
                            policy: Policy,
                            p: Portfolio, digests: Digests, id: OrderId)
    requires snapshot.Valid() && DistinctInstruments(snapshot) && digests.Injective() && RowsFit(after)
    requires Undisturbed(before, after, snapshot, policy, p, digests)
    requires PartlyFilled(before, after, snapshot, policy, p, digests, id)
    ensures exists w :: Wanted(after, snapshot, policy, p, w) && !Wanted(before, snapshot, policy, p, w)
                        && w.key.instrument == id.instrument && w.side == id.side && w.quantity == after[id].filled
  {
    hide SumOver, Desired, OpenDelta, Undisturbed;
    var w0 :| Wanted(before, snapshot, policy, p, w0) && id == digests.OrderOf(w0);
    var t :| t in snapshot.targets && Delta(before, p, t) != 0
        && w0 == IdentityFor(snapshot, policy, t, Delta(before, p, t));
    SecondLook(before, after, snapshot, policy, p, digests, t);
    var w := IdentityFor(snapshot, policy, t, Delta(after, p, t));
    assert Wanted(after, snapshot, policy, p, w);
    if Wanted(before, snapshot, policy, p, w) {
      var u :| u in snapshot.targets && Delta(before, p, u) != 0
          && w == IdentityFor(snapshot, policy, u, Delta(before, p, u));
      SameTarget(snapshot, t, u);
      assert false;
    }
  }
}
