/** The executor that turns a target snapshot into paper orders. */
module TargetExecutor {
  import opened FeeTax
  import Linear
  import opened OmsInvariant
  import opened OmsModel
  import opened OmsRepository
  import opened OmsRuns
  import opened OmsService
  import Simulation
  import Sorting
  import opened TargetModel
  import opened TargetOrders
  import opened Wrappers

  datatype ExecuteError =
    | GrossExceeded | SingleExceeded | BufferViolated | IncompleteValuation | OmitsPosition | UnresolvedOrder
    | WrongMarket | WrongPrice | NoVolume | ParticipationExceeded | DivisionByZero | ProjectedGrossExceeded
    | ProjectedSingleExceeded | TooManyPositions | TurnoverExceeded | TooManyOrders | QueueFailed(problem: OmsError)

  // ---- What queueing a command creates ----

  lemma TransitionKeepsKeys(db: Db, id: OrderId, e: Event, version: int, submission: Option<Submission>, release: bool)
    ensures match Transition(db, id, e, version, submission, release)
            case Ok((after, o)) => after.orders.Keys == db.orders.Keys
            case Err(_) => true
  {
  }

  lemma DecidedKeepsKeys(db: Db, o: Order, fees: FeeTaxPolicy, c: Command, commits: nat)
    ensures Decided(db, o, fees, c, commits).db.orders.Keys == db.orders.Keys
  {
    hide Transition, NamedEvent, RiskReason, Required;
    match Required(fees, c)
    case Err(_) =>
    case Ok(required) =>
      if RiskReason(db, c, required).Some? {
        TransitionKeepsKeys(db, o.id, NamedEvent(o, RiskRejected, RiskReason(db, c, required).value), o.version, None,
                            false);
      } else {
        TransitionKeepsKeys(db, o.id, NamedEvent(o, RiskApproved, "paper_risk_approved"), o.version, None, false);
        match Named(db, o, RiskApproved, "paper_risk_approved", false)
        case Err(_) =>
        case Ok((approved, o')) =>
          TransitionKeepsKeys(approved, o'.id, NextEvent(o', SubmitPending, SubmitTag, NoPayload,
                                                         "paper_submit_queued", o'.updatedAt),
                              o'.version, Some(Submission(if c.side == Buy then required else 0.0, c.quantity)), false);
      }
  }

  predicate HasKey(orders: map<OrderId, Order>, key: int) {
    exists id <- orders :: id.key == key
  }

  /** Queueing creates at most the command's own order, and nothing when its key is taken. */
  lemma QueuedCreates(db: Db, fees: FeeTaxPolicy, c: Command, commits: nat)
    ensures var after := Queued(db, fees, c, commits);
      && db.orders.Keys <= after.db.orders.Keys <= db.orders.Keys + {c.Id()}
      && (HasKey(db.orders, c.key) ==> after.db == db)
      && (after.outcome.Ok? ==> HasKey(after.db.orders, c.key))
  {
    hide Transition, NamedEvent, Decided;
    if ByKey(db, c.key).None? && c.quantity >= 1 && commits > 0 && Create(db, c.Id(), c.createdAt).Ok? {
      var (created, o) := Create(db, c.Id(), c.createdAt).value;
      if commits > 1 {
        TransitionKeepsKeys(created, o.id, NamedEvent(o, RiskPending, "risk_evaluation_started"), o.version, None,
                            false);
        match Named(created, o, RiskPending, "risk_evaluation_started", false)
        case Err(_) =>
        case Ok((pending, o')) => DecidedKeepsKeys(pending, o', fees, c, commits - 2);
      }
      assert c.Id() in created.orders;
    }
  }

  // ---- The later exposure checks ----

  /** The share of the portfolio that a position is worth. */
  function Share(quantity: int, price: real, nav: real): real
    requires nav != 0.0
  {
    quantity as real * price / nav
  }

  /** Rounding down never lets a position exceed its target weight. */
  lemma DesiredFitsWeight(nav: real, t: Target)
    requires nav > 0.0 && t.Valid()
    ensures Share(Desired(nav, t), t.price, nav) <= t.weight
  {
    var exact, d := nav * t.weight / t.price, Desired(nav, t) as real;
    assert exact * t.price == nav * t.weight;
    Simulation.Scaled(d, exact, t.price, d * t.price, exact * t.price);
    Linear.Divide(d * t.price, nav, t.weight);
  }

  function TotalWeight(targets: seq<Target>): real {
    if targets == [] then 0.0 else TotalWeight(targets[..|targets| - 1]) + targets[|targets| - 1].weight
  }

  datatype Ranked = Ranked(rank: int, command: Command)

  /** Sells reserve inventory first; then by instrument id. */
  predicate SellsFirst(a: Ranked, b: Ranked) {
    if a.command.side == b.command.side then a.rank < b.rank else a.command.side == Sell
  }

  /** How far a target is from its projected position. */
  function Gap(p: Portfolio, projected: map<InstrumentKey, int>, t: Target): int
    requires t.price > 0.0
  {
    Desired(p.nav, t) - Get(projected, t.Key())
  }

  function Gaps(p: Portfolio, projected: map<InstrumentKey, int>, targets: seq<Target>): (gaps: seq<int>)
    requires forall t <- targets :: t.Valid()
    ensures |gaps| == |targets|
  {
    seq(|targets|, i requires 0 <= i < |targets| => assert targets[i] in targets
        && targets[i].Valid(); Gap(p, projected, targets[i]))
  }

  /** The command of a target that is not met yet. */
  function CommandFor(snapshot: TargetSnapshot, policy: Policy, digests: Digests, p: Portfolio, t: Target, gap: int,
                      createdAt: int): Command {
    var w := IdentityFor(snapshot, policy, t, gap);
    Command(digests.client(w), digests.key(w), t.instrument, w.side, w.quantity,
            t.price * (if w.side == Buy then 1.0 + policy.slippageBps / 10000.0 else 1.0),
            p.cash, createdAt, Get(p.positions, t.Key()))
  }

  // ---- What an execution must pass ----

  /** Exactly one target is for the instrument. */
  predicate HasOneTarget(instrument: string, targets: seq<Target>) {
    exists i :: 0 <= i < |targets| && IsOnlyTarget(instrument, targets, i)
  }

  predicate IsOnlyTarget(instrument: string, targets: seq<Target>, i: nat)
    requires i < |targets|
  {
    targets[i].instrument == instrument && forall j :: 0 <= j < |targets| && targets[j].instrument == instrument ==>
      j == i
  }

  /** Every open order can be attributed to one target. */
  predicate Resolvable(orders: map<OrderId, Order>, targets: seq<Target>) {
    forall id <- orders :: IsOpen(orders[id].state) ==> HasOneTarget(id.instrument, targets)
  }

  /** Market and price agree with the pinned references, and a gap fits the pinned volume. */
  predicate Tradable(markets: map<string, int>, prices: map<string, real>, volumes: map<string, int>, policy: Policy,
                     t: Target, gap: int) {
    && t.instrument in markets && markets[t.instrument] == t.market
    && t.instrument in prices && prices[t.instrument] == t.price
    && (gap != 0 ==>
          && t.instrument in volumes && volumes[t.instrument] > 0
          && (if gap > 0 then gap else -gap) as real / volumes[t.instrument] as real <= policy.maxParticipation)
  }

  function NonZero(gaps: seq<int>): nat {
    if gaps == [] then 0 else NonZero(gaps[..|gaps| - 1]) + if gaps[|gaps| - 1] != 0 then 1 else 0
  }

  function TotalShare(targets: seq<Target>, nav: real): real
    requires nav != 0.0 && forall t <- targets :: t.Valid()
  {
    if targets == [] then 0.0
    else
      var last := targets[|targets| - 1];
      assert last in targets && last.Valid();
      TotalShare(targets[..|targets| - 1], nav) + Share(Desired(nav, last), last.price, nav)
  }

  function Held(targets: seq<Target>, nav: real): nat
    requires forall t <- targets :: t.Valid()
  {
    if targets == [] then 0
    else
      var last := targets[|targets| - 1];
      assert last in targets && last.Valid();
      Held(targets[..|targets| - 1], nav) + if Desired(nav, last) > 0 then 1 else 0
  }

  function Turnover(targets: seq<Target>, gaps: seq<int>, nav: real): real
    requires nav != 0.0 && |targets| == |gaps|
  {
    if targets == [] then 0.0
    else
      var n := |targets| - 1;
      Turnover(targets[..n], gaps[..n], nav) + Share(if gaps[n] > 0 then gaps[n] else -gaps[n], targets[n].price, nav)
  }

  /** The limits on the positions that the targets lead to. */
  predicate WithinExposure(targets: seq<Target>, gaps: seq<int>, nav: real, policy: Policy)
    requires |targets| == |gaps| && forall t <- targets :: t.Valid()
  {
    && nav != 0.0
    && TotalShare(targets, nav) <= policy.maxGross
    && (forall t <- targets :: Share(Desired(nav, t), t.price, nav) <= policy.maxSingle)
    && Held(targets, nav) <= policy.maxPositions
    && Turnover(targets, gaps, nav) <= policy.maxTurnover
  }

  /** The limits on the targets themselves, and the portfolio they apply to. */
  predicate WithinTargets(snapshot: TargetSnapshot, policy: Policy, p: Portfolio) {
    && TotalWeight(snapshot.targets) <= policy.maxGross
    && (forall t <- snapshot.targets :: t.weight <= policy.maxSingle)
    && TotalWeight(snapshot.targets) <= 1.0 - policy.minCashBuffer
    && p.complete
    && (forall key <- p.positions :: exists t <- snapshot.targets :: t.Key() == key)
  }

  ghost function Deltas(orders: map<OrderId, Order>, p: Portfolio, targets: seq<Target>): (gaps: seq<int>)
    requires forall t <- targets :: t.Valid()
    ensures |gaps| == |targets|
  {
    seq(|targets|, i requires 0 <= i < |targets| => assert targets[i] in targets
        && targets[i].Valid(); Delta(orders, p, targets[i]))
  }

  /** The orders recorded in a session. */
  function InSession(orders: map<OrderId, Order>, session: int, sessionOf: int -> int): set<OrderId> {
    set id <- orders | sessionOf(orders[id].createdAt) == session
  }

  /** Everything an execution checks before it queues. */
  ghost predicate Permitted(orders: map<OrderId, Order>, snapshot: TargetSnapshot, policy: Policy, p: Portfolio,
                            sessionOf: int -> int,
                            markets: map<string, int>, prices: map<string, real>, volumes: map<string, int>)
    requires snapshot.Valid()
  {
    && WithinTargets(snapshot, policy, p) && Resolvable(orders, snapshot.targets)
    && (forall t <- snapshot.targets :: Tradable(markets, prices, volumes, policy, t, Delta(orders, p, t)))
    && WithinExposure(snapshot.targets, Deltas(orders, p, snapshot.targets), p.nav, policy)
    && |InSession(orders, snapshot.targets[0].session,
                  sessionOf)| + NonZero(Deltas(orders, p, snapshot.targets)) <= policy.maxOrders
  }

  /** For a positive net asset value, flooring makes the projected exposure checks follow from the target limits. */
  lemma ProjectedChecksFollow(targets: seq<Target>, gaps: seq<int>, nav: real, policy: Policy)
    requires |targets| == |gaps| && (forall t <- targets :: t.Valid()) && nav > 0.0
    requires TotalWeight(targets) <= policy.maxGross && forall t <- targets :: t.weight <= policy.maxSingle
    ensures TotalShare(targets, nav) <= policy.maxGross
    ensures forall t <- targets :: Share(Desired(nav, t), t.price, nav) <= policy.maxSingle
  {
    hide Share, Desired, TotalShare, TotalWeight;
    SharesFitWeights(targets, nav);
    forall t | t in targets
      ensures Share(Desired(nav, t), t.price, nav) <= t.weight
    {
      DesiredFitsWeight(nav, t);
    }
  }

  // ---- The exposure limits in money ----

  /** What so many shares of each target are worth together. */
  function Value(targets: seq<Target>, shares: seq<int>): real
    requires |targets| == |shares|
  {
    if targets == [] then 0.0
    else
      var n := |targets| - 1;
      Value(targets[..n], shares[..n]) + shares[n] as real * targets[n].price
  }

  function Positive(shares: seq<int>): nat {
    if shares == [] then 0
    else Positive(shares[..|shares| - 1]) + if shares[|shares| - 1] > 0 then 1 else 0
  }

  function Absolute(shares: seq<int>): seq<int> {
    seq(|shares|, i requires 0 <= i < |shares| => if shares[i] < 0 then -shares[i] else shares[i])
  }

  /**
    * For a positive net asset value: the positions the targets stand for are worth together at most the gross limit and
    * each at most the single limit, so many of them are held at most, and what changes is worth at most the turnover
    * limit.
    */
  lemma ExposureInMoney(targets: seq<Target>, gaps: seq<int>, nav: real, policy: Policy, shares: seq<int>)
    requires |targets| == |gaps| == |shares| && nav > 0.0 && forall t <- targets :: t.Valid()
    requires forall i :: 0 <= i < |targets| ==> IsLargestPosition(shares[i], nav, targets[i])
    ensures WithinExposure(targets, gaps, nav, policy) <==>
              && Value(targets, shares) <= policy.maxGross * nav
              && (forall i :: 0 <= i < |targets| ==> shares[i] as real * targets[i].price <= policy.maxSingle * nav)
              && Positive(shares) <= policy.maxPositions
              && Value(targets, Absolute(gaps)) <= policy.maxTurnover * nav
  {
    hide Share, Desired, Value, Positive, Absolute, TotalShare, Held, Turnover, IsLargestPosition;
    SharesInMoney(targets, nav, shares);
    TurnoverInMoney(targets, gaps, nav);
    Limit(TotalShare(targets, nav), policy.maxGross, nav);
    Limit(Turnover(targets, gaps, nav), policy.maxTurnover, nav);
    forall i | 0 <= i < |targets|
      ensures targets[i].Valid()
      ensures Share(Desired(nav, targets[i]), targets[i].price, nav) <= policy.maxSingle <==>
                shares[i] as real * targets[i].price <= policy.maxSingle * nav
    {
      assert targets[i] in targets;
      DesiredIsLargest(nav, targets[i], shares[i]);
      ShareInMoney(shares[i], targets[i].price, nav);
      Limit(Share(shares[i], targets[i].price, nav), policy.maxSingle, nav);
    }
  }

  lemma ShareInMoney(quantity: int, price: real, nav: real)
    requires nav > 0.0
    ensures Share(quantity, price, nav) * nav == quantity as real * price
  {
    var worth := quantity as real * price;
    var share := worth / nav;
    assert share * nav == worth;
  }

  lemma Limit(share: real, limit: real, nav: real)
    requires nav > 0.0
    ensures share <= limit <==> share * nav <= limit * nav
  {
    Simulation.Compared(share, limit, nav, share * nav, limit * nav);
  }

  /** One position more adds its worth to the money a total of shares stands for. */
  lemma OneMore(total: real, quantity: int, price: real, nav: real, money: real)
    requires nav > 0.0 && total * nav == money
    ensures (total + Share(quantity, price, nav)) * nav == money + quantity as real * price
  {
    hide Share;
    ShareInMoney(quantity, price, nav);
    Distributed(total, Share(quantity, price, nav), nav);
  }

  lemma {:induction false} SharesInMoney(targets: seq<Target>, nav: real, shares: seq<int>)
    requires |targets| == |shares| && nav > 0.0 && forall t <- targets :: t.Valid()
    requires forall i :: 0 <= i < |targets| ==> IsLargestPosition(shares[i], nav, targets[i])
    ensures TotalShare(targets, nav) * nav == Value(targets, shares) && Held(targets, nav) == Positive(shares)
  {
    hide Share, Desired, IsLargestPosition;
    if targets != [] {
      var n := |targets| - 1;
      assert targets[n] in targets;
      SharesInMoney(targets[..n], nav, shares[..n]);
      DesiredIsLargest(nav, targets[n], shares[n]);
      OneMore(TotalShare(targets[..n], nav), shares[n], targets[n].price, nav, Value(targets[..n], shares[..n]));
    }
  }

  lemma {:induction false} TurnoverInMoney(targets: seq<Target>, gaps: seq<int>, nav: real)
    requires |targets| == |gaps| && nav > 0.0
    ensures Turnover(targets, gaps, nav) * nav == Value(targets, Absolute(gaps))
  {
    hide Share;
    if targets != [] {
      var n := |targets| - 1;
      TurnoverInMoney(targets[..n], gaps[..n], nav);
      assert Absolute(gaps)[..n] == Absolute(gaps[..n]);
      OneMore(Turnover(targets[..n], gaps[..n], nav), Absolute(gaps)[n], targets[n].price, nav,
              Value(targets[..n], Absolute(gaps[..n])));
    }
  }

  lemma Distributed(a: real, b: real, c: real)
    ensures (a + b) * c == a * c + b * c
  {
  }

  lemma {:induction false} SharesFitWeights(targets: seq<Target>, nav: real)
    requires nav > 0.0 && forall t <- targets :: t.Valid()
    ensures TotalShare(targets, nav) <= TotalWeight(targets)
  {
    hide Share, Desired;
    if targets != [] {
      var last := targets[|targets| - 1];
      assert last in targets;
      SharesFitWeights(targets[..|targets| - 1], nav);
      DesiredFitsWeight(nav, last);
    }
  }

  /** A planned order is the command of some target that is not met. */
  predicate ForTarget(snapshot: TargetSnapshot, policy: Policy, digests: Digests, p: Portfolio,
                      projected: map<InstrumentKey, int>,
                      createdAt: int, x: Ranked)
    requires snapshot.Valid()
  {
    exists t <- snapshot.targets ::
      Gap(p, projected, t) != 0 && x == Ranked(t.rank,
                                               CommandFor(snapshot, policy, digests, p, t, Gap(p, projected, t),
                                                          createdAt))
  }

  /** A target that is not met has its command among the planned ones. */
  predicate Covered(snapshot: TargetSnapshot, policy: Policy, digests: Digests, p: Portfolio,
                    projected: map<InstrumentKey, int>,
                    createdAt: int, commands: seq<Ranked>, t: Target)
    requires snapshot.Valid() && t in snapshot.targets
  {
    Gap(p, projected, t) != 0 ==>
      Ranked(t.rank, CommandFor(snapshot, policy, digests, p, t, Gap(p, projected, t), createdAt)) in commands
  }

  /** The commands are exactly the wanted orders. */
  ghost predicate AreWanted(orders: map<OrderId, Order>, snapshot: TargetSnapshot, policy: Policy, digests: Digests,
                            p: Portfolio,
                            commands: seq<Ranked>)
    requires snapshot.Valid()
  {
    && (forall x <- commands :: exists w ::
          Wanted(orders, snapshot, policy, p, w) && x.command.Id() == digests.OrderOf(w))
    && (forall w :: Wanted(orders, snapshot, policy, p, w) ==>
          exists x <- commands :: x.command.Id() == digests.OrderOf(w))
  }

  /** The command that closes the distance of a target, once open orders count as done. */
  ghost function CommandAt(orders: map<OrderId, Order>, snapshot: TargetSnapshot, policy: Policy, digests: Digests,
                           p: Portfolio,
                           createdAt: int, t: Target): Ranked
    requires t.price > 0.0
  {
    Ranked(t.rank, CommandFor(snapshot, policy, digests, p, t, Delta(orders, p, t), createdAt))
  }

  /** The commands of exactly the targets that are not met, sells first. */
  ghost predicate AreCommands(orders: map<OrderId, Order>, snapshot: TargetSnapshot, policy: Policy, digests: Digests,
                              p: Portfolio,
                              createdAt: int, commands: seq<Ranked>)
    requires snapshot.Valid()
  {
    && Sorting.IsOrdered(commands, SellsFirst) && |commands| == NonZero(Deltas(orders, p, snapshot.targets))
    && (forall x :: x in commands <==>
          exists t <- snapshot.targets ::
            Delta(orders, p, t) != 0 && x == CommandAt(orders, snapshot, policy, digests, p, createdAt, t))
  }

  // ---- What the commands come to ----

  /** A command for a change of the target's position, priced, limited and named as the execution asks. */
  ghost predicate AsksFor(x: Ranked, snapshot: TargetSnapshot, policy: Policy, digests: Digests, t: Target,
                          change: int, cash: real, held: int, createdAt: int) {
    var c, side, quantity := x.command, if change > 0 then Buy else Sell, if change > 0 then change else -change;
    var identity := Identity(snapshot.artifact, t.session, InstrumentKey(t.market, t.instrument), side, quantity,
                             policy.version);
    && x.rank == t.rank && c.instrument == t.instrument && c.side == side && c.quantity == quantity
    && c.key == digests.key(identity) && c.client == digests.client(identity)
    && c.estimatedPrice * 10000.0 == t.price * (if change > 0 then 10000.0 + policy.slippageBps else 10000.0)
    && c.availableCash == cash && c.availablePosition == held && c.createdAt == createdAt
  }

  /** The one command for a target's change, or none when there is nothing to change. */
  ghost predicate AsksExactly(commands: seq<Ranked>, snapshot: TargetSnapshot, policy: Policy, digests: Digests,
                              t: Target, change: int, cash: real, held: int, createdAt: int) {
    if change == 0 then forall x <- commands :: x.command.instrument != t.instrument
    else
      && (exists x <- commands :: AsksFor(x, snapshot, policy, digests, t, change, cash, held, createdAt))
      && forall x <- commands :: x.command.instrument == t.instrument ==>
           AsksFor(x, snapshot, policy, digests, t, change, cash, held, createdAt)
  }

  /**
    * What is held and on order, with the commands, comes for every target to as many shares as its weight of the
    * portfolio buys; there are no commands besides, and sells come first.
    */
  ghost predicate ReachTargets(orders: map<OrderId, Order>, snapshot: TargetSnapshot, policy: Policy, digests: Digests,
                               nav: real, cash: real, positions: map<InstrumentKey, int>, createdAt: int,
                               commands: seq<Ranked>) {
    && (forall t, buys, sells ::
          t in snapshot.targets && AllOnOrder(orders, t.instrument, Buy, buys)
          && AllOnOrder(orders, t.instrument, Sell, sells) ==>
            ReachesTarget(orders, snapshot, policy, digests, nav, cash, positions, createdAt, commands, t, buys, sells))
    && (forall x <- commands :: exists t <- snapshot.targets :: t.instrument == x.command.instrument)
    && forall i, k :: 0 <= i < k < |commands| ==>
         && !(commands[i].command.side == Buy && commands[k].command.side == Sell)
         && (commands[i].command.side == commands[k].command.side ==> commands[i].rank <= commands[k].rank)
  }

  ghost predicate ReachesTarget(orders: map<OrderId, Order>, snapshot: TargetSnapshot, policy: Policy,
                                digests: Digests, nav: real, cash: real, positions: map<InstrumentKey, int>,
                                createdAt: int, commands: seq<Ranked>, t: Target, buys: seq<OrderId>,
                                sells: seq<OrderId>)
    requires AllOnOrder(orders, t.instrument, Buy, buys) && AllOnOrder(orders, t.instrument, Sell, sells)
  {
    var key := InstrumentKey(t.market, t.instrument);
    var held := if key in positions then positions[key] else 0;
    exists shares: int ::
      && IsLargestPosition(shares, nav, t)
      && AsksExactly(commands, snapshot, policy, digests, t,
                     shares - (held + Remainder(orders, buys) - Remainder(orders, sells)), cash, held, createdAt)
  }

  lemma CommandAsks(snapshot: TargetSnapshot, policy: Policy, digests: Digests, p: Portfolio, t: Target, change: int,
                    createdAt: int)
    requires change != 0
    ensures AsksFor(Ranked(t.rank, CommandFor(snapshot, policy, digests, p, t, change, createdAt)), snapshot, policy,
                    digests, t, change, p.cash, if t.Key() in p.positions then p.positions[t.Key()] else 0, createdAt)
  {
    Slipped(t.price, policy.slippageBps);
  }

  lemma Slipped(price: real, bps: real)
    ensures price * (1.0 + bps / 10000.0) * 10000.0 == price * (10000.0 + bps)
    ensures price * 1.0 * 10000.0 == price * 10000.0
  {
    var slip := bps / 10000.0;
    assert bps == slip * 10000.0;
    assert price * bps == price * slip * 10000.0;
  }

  lemma CommandsReach(orders: map<OrderId, Order>, snapshot: TargetSnapshot, policy: Policy, digests: Digests,
                      p: Portfolio, createdAt: int, commands: seq<Ranked>)
    requires snapshot.Valid() && DistinctInstruments(snapshot)
    requires AreCommands(orders, snapshot, policy, digests, p, createdAt, commands)
    ensures ReachTargets(orders, snapshot, policy, digests, p.nav, p.cash, p.positions, createdAt, commands)
  {
    hide AsksFor, CommandFor, IsLargestPosition, OpenDelta, Desired, Remainder, DistinctInstruments, NonZero;
    forall t, buys, sells |
      t in snapshot.targets && AllOnOrder(orders, t.instrument, Buy, buys)
      && AllOnOrder(orders, t.instrument, Sell, sells)
      ensures ReachesTarget(orders, snapshot, policy, digests, p.nav, p.cash, p.positions, createdAt, commands, t,
                            buys, sells)
    {
      OpenDeltaIs(orders, t.instrument, buys, sells);
      DesiredIsLargest(p.nav, t, Desired(p.nav, t));
      CommandsAskExactly(orders, snapshot, policy, digests, p, createdAt, commands, t);
    }
    forall x | x in commands
      ensures exists t <- snapshot.targets :: t.instrument == x.command.instrument
    {
      var t :| t in snapshot.targets && Delta(orders, p, t) != 0
          && x == CommandAt(orders, snapshot, policy, digests, p, createdAt, t);
      CommandIsFor(snapshot, policy, digests, p, t, Delta(orders, p, t), createdAt);
    }
  }

  lemma CommandIsFor(snapshot: TargetSnapshot, policy: Policy, digests: Digests, p: Portfolio, t: Target, change: int,
                     createdAt: int)
    ensures CommandFor(snapshot, policy, digests, p, t, change, createdAt).instrument == t.instrument
  {
  }

  lemma CommandsAskExactly(orders: map<OrderId, Order>, snapshot: TargetSnapshot, policy: Policy, digests: Digests,
                           p: Portfolio, createdAt: int, commands: seq<Ranked>, t: Target)
    requires snapshot.Valid() && DistinctInstruments(snapshot) && t in snapshot.targets
    requires AreCommands(orders, snapshot, policy, digests, p, createdAt, commands)
    ensures AsksExactly(commands, snapshot, policy, digests, t, Delta(orders, p, t), p.cash,
                        if t.Key() in p.positions then p.positions[t.Key()] else 0, createdAt)
  {
    hide AsksFor, CommandFor, Delta, Deltas, NonZero, Sorting.IsOrdered, DistinctInstruments;
    forall x | x in commands && x.command.instrument == t.instrument
      ensures Delta(orders, p, t) != 0 && x == CommandAt(orders, snapshot, policy, digests, p, createdAt, t)
    {
      var u :| u in snapshot.targets && Delta(orders, p, u) != 0
          && x == CommandAt(orders, snapshot, policy, digests, p, createdAt, u);
      CommandIsFor(snapshot, policy, digests, p, u, Delta(orders, p, u), createdAt);
      SameTarget(snapshot, t, u);
    }
    if Delta(orders, p, t) != 0 {
      CommandAsks(snapshot, policy, digests, p, t, Delta(orders, p, t), createdAt);
      var x := CommandAt(orders, snapshot, policy, digests, p, createdAt, t);
      assert x in commands;
    }
  }

  /** Queueing one command after the other, up to the first failure; each call dies after its own number of commits. */
  ghost function QueuedAll(db: Db, fees: FeeTaxPolicy, commands: seq<Ranked>, commits: seq<nat>): (Db,
      Result<seq<OrderId>, OmsError>)
    requires |commands| == |commits|
  {
    if commands == [] then (db, Ok([]))
    else
      var n := |commands| - 1;
      var (before, ids) := QueuedAll(db, fees, commands[..n], commits[..n]);
      if ids.Err? then (before, ids)
      else
        var ran := Queued(before, fees, commands[n].command, commits[n]);
        (ran.db, if ran.outcome.Ok? then Ok(ids.value + [ran.outcome.value.id]) else Err(ran.outcome.error))
  }

  lemma QueuedNext(db: Db, fees: FeeTaxPolicy, commands: seq<Ranked>, commits: seq<nat>, i: nat, n: nat)
    requires i == |commits| < |commands|
    ensures var (before, ids) := QueuedAll(db, fees, commands[..i], commits);
            QueuedAll(db, fees, commands[..i + 1], commits + [n]) ==
            if ids.Err? then (before, ids)
            else
              var ran := Queued(before, fees, commands[i].command, n);
              (ran.db, if ran.outcome.Ok? then Ok(ids.value + [ran.outcome.value.id]) else Err(ran.outcome.error))
  {
    hide Queued;
    assert commands[..i + 1][..i] == commands[..i] && (commits + [n])[..i] == commits;
  }

  /** Queueing a prefix of the commands only adds their orders, and changes nothing where their keys are taken. */
  lemma {:induction false} QueuedAllCreates(db: Db, fees: FeeTaxPolicy, commands: seq<Ranked>, commits: seq<nat>)
    requires |commits| <= |commands|
    ensures var (after, ids) := QueuedAll(db, fees, commands[..|commits|], commits);
      && OnlyFrom(after.orders, db.orders, commands) && db.orders.Keys <= after.orders.Keys
      && (KeysTaken(db.orders, commands) ==> after == db)
      && (ids.Ok? ==> KeysTaken(after.orders, commands[..|commits|]))
  {
    hide Queued, HasKey;
    var n := |commits| - 1;
    if n >= 0 {
      var (before, ids) := QueuedAll(db, fees, commands[..n], commits[..n]);
      QueuedAllCreates(db, fees, commands, commits[..n]);
      QueuedNext(db, fees, commands, commits[..n], n, commits[n]);
      assert commits[..n] + [commits[n]] == commits;
      if ids.Ok? {
        var x := commands[n];
        assert x in commands;
        QueuedCreates(before, fees, x.command, commits[n]);
        var after := Queued(before, fees, x.command, commits[n]).db;
        KeysStayTaken(before.orders, after.orders, commands[..n]);
        assert commands[..|commits|] == commands[..n] + [x];
      }
    }
  }

  lemma KeysStayTaken(before: map<OrderId, Order>, after: map<OrderId, Order>, commands: seq<Ranked>)
    requires before.Keys <= after.Keys && KeysTaken(before, commands)
    ensures KeysTaken(after, commands)
  {
    forall x | x in commands
      ensures HasKey(after, x.command.key)
    {
      var id :| id in before && id.key == x.command.key;
      assert id in after;
    }
  }

  /** Every wanted order is recorded. */
  ghost predicate AllRecorded(orders: map<OrderId, Order>, before: map<OrderId, Order>, snapshot: TargetSnapshot,
                              policy: Policy,
                              digests: Digests, p: Portfolio)
    requires snapshot.Valid()
  {
    forall w :: Wanted(before, snapshot, policy, p, w) ==> HasKey(orders, digests.key(w))
  }

  /** Only wanted orders were added. */
  ghost predicate OnlyWanted(after: map<OrderId, Order>, before: map<OrderId, Order>, snapshot: TargetSnapshot,
                             policy: Policy,
                             digests: Digests, p: Portfolio)
    requires snapshot.Valid()
  {
    forall id :: id in after && id !in before ==>
      exists w :: Wanted(before, snapshot, policy, p, w) && id == digests.OrderOf(w)
  }

  predicate KeysTaken(orders: map<OrderId, Order>, commands: seq<Ranked>) {
    forall x <- commands :: HasKey(orders, x.command.key)
  }

  predicate OnlyFrom(after: map<OrderId, Order>, before: map<OrderId, Order>, commands: seq<Ranked>) {
    forall id :: id in after && id !in before ==> exists x <- commands :: x.command.Id() == id
  }

  lemma QueuedWanted(before: map<OrderId, Order>, orders: map<OrderId, Order>, snapshot: TargetSnapshot, policy: Policy,
                     digests: Digests, p: Portfolio, commands: seq<Ranked>)
    requires snapshot.Valid() && AreWanted(before, snapshot, policy, digests, p, commands)
    ensures KeysTaken(orders, commands) <==> AllRecorded(orders, before, snapshot, policy, digests, p)
    ensures OnlyFrom(orders, before, commands) ==> OnlyWanted(orders, before, snapshot, policy, digests, p)
  {
    hide Wanted, HasKey;
    if KeysTaken(orders, commands) {
      forall w | Wanted(before, snapshot, policy, p, w)
        ensures HasKey(orders, digests.key(w))
      {
        var x :| x in commands && x.command.Id() == digests.OrderOf(w);
      }
    }
    if AllRecorded(orders, before, snapshot, policy, digests, p) {
      forall x | x in commands
        ensures HasKey(orders, x.command.key)
      {
        var w :| Wanted(before, snapshot, policy, p, w) && x.command.Id() == digests.OrderOf(w);
      }
    }
  }

  /** The portfolio an execution without one starts from. */
  ghost function PortfolioOf(policy: Policy, portfolio: Option<Portfolio>): Portfolio {
    if portfolio.Some? then portfolio.value else Portfolio(true, policy.initialCash, policy.initialCash, map[])
  }

  class PaperTargetExecutor {
    const repository: Repository
    const service: PaperOmsService
    const markets: map<string, int>
    const prices: map<string, real>
    const volumes: map<string, int>
    const policy: Policy
    const digests: Digests

    constructor (repository: Repository, service: PaperOmsService, markets: map<string, int>, prices: map<string, real>,
                 volumes: map<string, int>, policy: Policy, digests: Digests)
      requires service.repository == repository
      ensures this.repository == repository && this.service == service && this.markets == markets
              && this.prices == prices
      ensures this.volumes == volumes && this.policy == policy && this.digests == digests
    {
      this.repository, this.service, this.markets, this.prices := repository, service, markets, prices;
      this.volumes, this.policy, this.digests := volumes, policy, digests;
    }

    /** The only target for an instrument. */
    method PositionKey(instrument: string, targets: seq<Target>) returns (r: Result<InstrumentKey, ExecuteError>)
      ensures r.Ok? <==> HasOneTarget(instrument, targets)
      ensures r.Ok? ==> forall t <- targets :: t.instrument == instrument <==> t.Key() == r.value
      ensures r.Err? ==> r.error == UnresolvedOrder
    {
      var matches: seq<InstrumentKey> := [];
      ghost var first, second := 0, 0;
      for i := 0 to |targets|
        invariant |matches| == 0 ==> forall k :: 0 <= k < i ==> targets[k].instrument != instrument
        invariant |matches| == 1 ==>
                    0 <= first < i && targets[first].instrument == instrument && matches[0] == targets[first].Key()
                                     && forall k :: 0 <= k < i && targets[k].instrument == instrument ==> k == first
        invariant |matches| >= 2 ==>
                    0 <= first < second < i && targets[first].instrument == targets[second].instrument == instrument
      {
        if targets[i].instrument == instrument {
          if |matches| == 0 { first := i; } else if |matches| == 1 { second := i; }
          matches := matches + [targets[i].Key()];
        }
      }
      if |matches| != 1 {
        return Err(UnresolvedOrder);
      }
      assert IsOnlyTarget(instrument, targets, first);
      r := Ok(matches[0]);
    }

    /** Positions with every open order counted as done. */
    method Project(snapshot: TargetSnapshot, positions: map<InstrumentKey, int>)
        returns (r: Result<map<InstrumentKey, int>, ExecuteError>)
      requires RowsFit(repository.orders)
      ensures r.Ok? ==> forall t <- snapshot.targets ::
                Get(r.value, t.Key()) == Get(positions, t.Key()) + OpenDelta(repository.orders, t.instrument)
      ensures r.Ok? <==> Resolvable(repository.orders, snapshot.targets)
      ensures r.Err? ==> r.error == UnresolvedOrder
    {
      hide HasOneTarget;
      var projected := positions;
      var rows := repository.ListOrders();
      ghost var done: set<OrderId> := {};
      for i := 0 to |rows|
        invariant done == set k | 0 <= k < i :: rows[k].id
        invariant forall k :: 0 <= k < i && IsOpen(rows[k].state) ==>
                    HasOneTarget(rows[k].id.instrument, snapshot.targets)
        invariant forall t <- snapshot.targets ::
                    Get(projected, t.Key()) == Get(positions, t.Key()) + SumOver(done,
                        PendingAt(repository.orders, t.instrument))
      {
        var o := rows[i];
        ghost var before := projected;
        if IsOpen(o.state) {
          var key :- PositionKey(o.id.instrument, snapshot.targets);
          projected := projected[key := Get(projected, key) + Signed(o.id.side, o.id.quantity - o.filled)];
        }
        done := done + {o.id};
        forall t | t in snapshot.targets
          ensures Get(projected, t.Key()) == Get(positions, t.Key()) + SumOver(done,
                                                                               PendingAt(repository.orders,
                                                                               t.instrument))
        {
          SumWithout(done, PendingAt(repository.orders, t.instrument), o.id);
          assert done - {o.id} == set k | 0 <= k < i :: rows[k].id;
        }
      }
      assert done == repository.orders.Keys;
      r := Ok(projected);
    }

    /** A target passes the checks made while planning. */
    predicate Passes(snapshot: TargetSnapshot, p: Portfolio, projected: map<InstrumentKey, int>, k: nat)
      requires snapshot.Valid() && k < |snapshot.targets|
    {
      var t := snapshot.targets[k];
      assert t in snapshot.targets;
      Tradable(markets, prices, volumes, policy, t, Gap(p, projected, t))
    }

    /** The command of every target that is not met, in target order. */
    method Plan(snapshot: TargetSnapshot, p: Portfolio, projected: map<InstrumentKey, int>, createdAt: int)
        returns (r: Result<seq<Ranked>, ExecuteError>)
      requires snapshot.Valid()
      ensures r.Ok? <==>
                forall t <- snapshot.targets :: Tradable(markets, prices, volumes, policy, t, Gap(p, projected, t))
      ensures r.Ok? ==>
                && |r.value| == NonZero(Gaps(p, projected, snapshot.targets))
                && (forall x <- r.value :: ForTarget(snapshot, policy, digests, p, projected, createdAt, x))
                && (forall t <- snapshot.targets ::
                      Covered(snapshot, policy, digests, p, projected, createdAt, r.value, t))
      ensures r.Err? ==> r.error in {WrongMarket, WrongPrice, NoVolume, ParticipationExceeded}
    {
      hide CommandFor, Gap, Gaps, NonZero, Covered, ForTarget;
      var commands: seq<Ranked> := [];
      ghost var gaps := Gaps(p, projected, snapshot.targets);
      NoGaps(gaps);
      for i := 0 to |snapshot.targets|
        invariant forall k :: 0 <= k < i ==> Passes(snapshot, p, projected, k)
        invariant |commands| == NonZero(gaps[..i])
        invariant forall x <- commands :: ForTarget(snapshot, policy, digests, p, projected, createdAt, x)
        invariant forall k :: 0 <= k < i ==>
                    Covered(snapshot, policy, digests, p, projected, createdAt, commands, snapshot.targets[k])
      {
        var t := snapshot.targets[i];
        assert t in snapshot.targets;
        var gap := Gap(p, projected, t);
        GapAt(p, projected, snapshot.targets, i);
        NonZeroNext(gaps, i);
        if t.instrument !in markets || markets[t.instrument] != t.market {
          return Err(WrongMarket);
        }
        if t.instrument !in prices || prices[t.instrument] != t.price {
          return Err(WrongPrice);
        }
        if gap != 0 {
          var quantity := if gap > 0 then gap else -gap;
          if t.instrument !in volumes || volumes[t.instrument] <= 0 {
            return Err(NoVolume);
          }
          if quantity as real / volumes[t.instrument] as real > policy.maxParticipation {
            return Err(ParticipationExceeded);
          }
          var x := Ranked(t.rank, CommandFor(snapshot, policy, digests, p, t, gap, createdAt));
          StillCovered(snapshot, policy, digests, p, projected, createdAt, commands, i, x);
          commands := commands + [x];
        } else {
          NowCovered(snapshot, policy, digests, p, projected, createdAt, commands, t);
        }
      }
      assert gaps[..|snapshot.targets|] == gaps;
      forall t | t in snapshot.targets
        ensures Tradable(markets, prices, volumes, policy, t, Gap(p, projected, t))
      {
        var k :| 0 <= k < |snapshot.targets| && snapshot.targets[k] == t;
        assert Passes(snapshot, p, projected, k);
      }
      r := Ok(commands);
    }

    /** The checks on the positions the targets lead to. Flooring makes the first two unreachable. */
    method CheckExposure(snapshot: TargetSnapshot, p: Portfolio, projected: map<InstrumentKey, int>)
        returns (r: Option<ExecuteError>)
      requires snapshot.Valid() && TotalWeight(snapshot.targets) <= policy.maxGross
      requires forall t <- snapshot.targets :: t.weight <= policy.maxSingle
      ensures r.None? <==> WithinExposure(snapshot.targets, Gaps(p, projected, snapshot.targets), p.nav, policy)
      ensures p.nav > 0.0 ==> r.None? || r.value == TooManyPositions || r.value == TurnoverExceeded
      ensures r.Some? ==> !r.value.QueueFailed?
    {
      hide Share, Desired, TotalWeight, TotalShare, Held, Turnover, Gap;
      if p.nav == 0.0 {
        return Some(DivisionByZero);
      }
      var targets := snapshot.targets;
      ghost var gaps := Gaps(p, projected, targets);
      var gross, turnover, held := 0.0, 0.0, 0;
      var single := false;
      NothingHeld(targets, gaps, p.nav);
      for i := 0 to |targets|
        invariant forall t <- targets[..i] :: t.Valid()
        invariant gross == TotalShare(targets[..i], p.nav) && held == Held(targets[..i], p.nav)
        invariant turnover == Turnover(targets[..i], gaps[..i], p.nav)
        invariant single <==>
                    exists k ::
                      0 <= k < i && targets[k].Valid()
                      && Share(Desired(p.nav, targets[k]), targets[k].price, p.nav) > policy.maxSingle
      {
        var t := targets[i];
        assert t in targets;
        var desired := Desired(p.nav, t);
        var share := Share(desired, t.price, p.nav);
        MoreHeld(targets, gaps, p.nav, i);
        gross := gross + share;
        single := single || share > policy.maxSingle;
        held := held + if desired > 0 then 1 else 0;
        var gap := Gap(p, projected, t);
        turnover := turnover + Share(if gap > 0 then gap else -gap, t.price, p.nav);
      }
      assert targets[..|targets|] == targets && gaps[..|targets|] == gaps;
      if p.nav > 0.0 {
        ProjectedChecksFollow(targets, gaps, p.nav, policy);
      }
      if gross > policy.maxGross {
        return Some(ProjectedGrossExceeded);
      }
      if single {
        return Some(ProjectedSingleExceeded);
      }
      forall t | t in targets
        ensures Share(Desired(p.nav, t), t.price, p.nav) <= policy.maxSingle
      {
        var k :| 0 <= k < |targets| && targets[k] == t;
      }
      if held > policy.maxPositions {
        return Some(TooManyPositions);
      }
      if turnover > policy.maxTurnover {
        return Some(TurnoverExceeded);
      }
      r := None;
    }

    /** Queues the commands in order, stopping at the first failure. */
    method QueueAll(commands: seq<Ranked>) returns (r: Result<seq<OrderId>, ExecuteError>, ghost commits: seq<nat>)
      requires service.repository == repository && Inv(repository.Snapshot()) && service.fees.Valid()
      modifies repository
      ensures Inv(repository.Snapshot())
      ensures r.Err? ==> r.error.QueueFailed?
      ensures |commits| <= |commands| && (r.Ok? ==> |commits| == |commands|)
      ensures QueuedAll(old(repository.Snapshot()), service.fees, commands[..|commits|], commits) ==
              (repository.Snapshot(), if r.Ok? then Ok(r.value) else Err(r.error.problem))
      ensures forall k :: 0 <= k < |commits| && r != Err(QueueFailed(Crashed)) ==> commits[k] >= 4
    {
      hide Inv, Queued;
      var ids: seq<OrderId> := [];
      commits := [];
      for i := 0 to |commands|
        invariant Inv(repository.Snapshot())
        invariant |commits| == i && forall k :: 0 <= k < i ==> commits[k] >= 4
        invariant QueuedAll(old(repository.Snapshot()), service.fees, commands[..i], commits) ==
                  (repository.Snapshot(), Ok(ids))
      {
        var queued, n := service.Queue(commands[i].command);
        QueuedNext(old(repository.Snapshot()), service.fees, commands, commits, i, n);
        commits := commits + [n];
        if queued.Err? {
          return Err(QueueFailed(queued.error)), commits;
        }
        ids := ids + [queued.value.id];
      }
      assert commands[..|commands|] == commands;
      r := Ok(ids);
    }

    /** The limits on the targets themselves, and the portfolio they apply to. */
    method CheckTargets(snapshot: TargetSnapshot, p: Portfolio) returns (r: Option<ExecuteError>)
      ensures r.None? <==> WithinTargets(snapshot, policy, p)
      ensures r.Some? ==> r.value in {GrossExceeded, SingleExceeded, BufferViolated, IncompleteValuation, OmitsPosition}
    {
      hide TotalWeight;
      var gross := SumWeights(snapshot.targets);
      if gross > policy.maxGross {
        return Some(GrossExceeded);
      }
      if exists t <- snapshot.targets :: t.weight > policy.maxSingle {
        return Some(SingleExceeded);
      }
      if gross > 1.0 - policy.minCashBuffer {
        return Some(BufferViolated);
      }
      if !p.complete {
        return Some(IncompleteValuation);
      }
      if exists key <- p.positions :: forall t <- snapshot.targets :: t.Key() != key {
        return Some(OmitsPosition);
      }
      r := None;
    }

    /** Everything `execute` does before it queues: the commands, sells first. */
    method Prepare(snapshot: TargetSnapshot, portfolio: Option<Portfolio>, sessionOf: int -> int, createdAt: int)
        returns (r: Result<seq<Ranked>, ExecuteError>)
      requires RowsFit(repository.orders) && snapshot.Valid()
      ensures r.Ok? <==>
                Permitted(repository.orders, snapshot, policy, PortfolioOf(policy, portfolio), sessionOf, markets,
                          prices, volumes)
      ensures r.Err? ==> !r.error.QueueFailed?
      ensures PortfolioOf(policy, portfolio).nav > 0.0 ==>
                r != Err(ProjectedGrossExceeded) && r != Err(ProjectedSingleExceeded)
      ensures r.Ok? ==> DistinctInstruments(snapshot)
      ensures r.Ok? ==>
                AreCommands(repository.orders, snapshot, policy, digests, PortfolioOf(policy, portfolio), createdAt,
                            r.value)
    {
      hide Deltas, Gaps, Sorting.IsOrdered, TotalWeight, ForTarget, Covered, AreCommands, RowsFit, DistinctInstruments,
           OpenDelta, Get, Resolvable, WithinExposure, Tradable, Gap, Delta, InSession, NonZero;
      var p := match portfolio
        case None => Portfolio(true, policy.initialCash, policy.initialCash, map[])
        case Some(known) => known;
      var refused := CheckTargets(snapshot, p);
      if refused.Some? {
        return Err(refused.value);
      }
      var projected :- Project(snapshot, p.positions);
      GapsAreDeltas(repository.orders, snapshot, p, projected);
      var planned :- Plan(snapshot, p, projected, createdAt);
      OneMarketEach(snapshot, markets, prices, volumes, policy, p, projected);
      var exposure := CheckExposure(snapshot, p, projected);
      if exposure.Some? {
        return Err(exposure.value);
      }
      var count := CountSession(snapshot.targets[0].session, sessionOf);
      if count + |planned| > policy.maxOrders {
        return Err(TooManyOrders);
      }
      var commands := Sorting.Sorted(planned, SellsFirst);
      Sorting.SortedMembers(planned, SellsFirst);
      Sorting.SortedIsOrdered(planned, SellsFirst);
      Sorting.SortedLength(planned, SellsFirst);
      PlannedAreCommands(repository.orders, snapshot, policy, digests, p, projected, createdAt, planned, commands);
      r := Ok(commands);
    }

    method CountSession(session: int, sessionOf: int -> int) returns (count: nat)
      requires RowsFit(repository.orders)
      ensures count == |InSession(repository.orders, session, sessionOf)|
    {
      var rows := repository.ListOrders();
      count := 0;
      ghost var counted: set<OrderId> := {};
      for i := 0 to |rows|
        invariant counted == Seen(rows[..i], session, sessionOf) && count == |counted|
      {
        SeenNext(rows, i, session, sessionOf);
        if sessionOf(rows[i].createdAt) == session {
          count := count + 1;
          counted := counted + {rows[i].id};
        }
      }
      assert rows[..|rows|] == rows;
      SeenAll(repository.orders, rows, session, sessionOf);
    }

    /**
      * `execute`. It can only create orders that the targets ask for over the current order table; when all of those
      * were queued before, it changes nothing at all.
      */
    method Execute(snapshot: TargetSnapshot, portfolio: Option<Portfolio>, sessionOf: int -> int, createdAt: int)
        returns (r: Result<seq<OrderId>, ExecuteError>, ghost queued: seq<Ranked>, ghost commits: seq<nat>)
      requires service.repository == repository && Inv(repository.Snapshot()) && service.fees.Valid()
               && snapshot.Valid()
      modifies repository
      ensures Inv(repository.Snapshot())
      ensures r.Err? && !r.error.QueueFailed? <==>
                !Permitted(old(repository.orders), snapshot, policy, PortfolioOf(policy, portfolio), sessionOf,
                           markets, prices, volumes)
      ensures r.Err? && !r.error.QueueFailed? ==> repository.Snapshot() == old(repository.Snapshot())
      ensures r.Ok? || r.error.QueueFailed? ==>
                && AreCommands(old(repository.orders), snapshot, policy, digests, PortfolioOf(policy, portfolio),
                               createdAt, queued)
                && |commits| <= |queued| && (r.Ok? ==> |commits| == |queued|)
                && QueuedAll(old(repository.Snapshot()), service.fees, queued[..|commits|], commits) ==
                   (repository.Snapshot(), if r.Ok? then Ok(r.value) else Err(r.error.problem))
      ensures r.Ok? || r.error.QueueFailed? ==>
                match portfolio
                case None =>
                  ReachTargets(old(repository.orders), snapshot, policy, digests, policy.initialCash,
                               policy.initialCash, map[], createdAt, queued)
                case Some(p) =>
                  ReachTargets(old(repository.orders), snapshot, policy, digests, p.nav, p.cash, p.positions,
                               createdAt, queued)
      ensures PortfolioOf(policy, portfolio).nav > 0.0 ==>
                r != Err(ProjectedGrossExceeded) && r != Err(ProjectedSingleExceeded)
      ensures OnlyWanted(repository.orders, old(repository.orders), snapshot, policy, digests,
                         PortfolioOf(policy, portfolio))
      ensures AllRecorded(old(repository.orders), old(repository.orders), snapshot, policy, digests,
                          PortfolioOf(policy, portfolio)) ==>
                repository.Snapshot() == old(repository.Snapshot())
      ensures r.Ok? ==> DistinctInstruments(snapshot)
                        && AllRecorded(repository.orders, old(repository.orders), snapshot, policy, digests,
                                       PortfolioOf(policy, portfolio))
    {
      hide Inv, RowsFit, DistinctInstruments, Permitted, AreCommands, AreWanted, QueuedAll, AllRecorded, OnlyFrom,
           KeysTaken, ReachTargets;
      ghost var before := repository.Snapshot();
      ghost var p := PortfolioOf(policy, portfolio);
      ReachableRowsFit(repository.Snapshot());
      queued, commits := [], [];
      var prepared := Prepare(snapshot, portfolio, sessionOf, createdAt);
      if prepared.Err? {
        return Err(prepared.error), queued, commits;
      }
      queued := prepared.value;
      CommandsAreWanted(before.orders, snapshot, policy, digests, p, createdAt, queued);
      CommandsReach(before.orders, snapshot, policy, digests, p, createdAt, queued);
      QueuedWanted(before.orders, before.orders, snapshot, policy, digests, p, queued);
      r, commits := QueueAll(prepared.value);
      QueuedAllCreates(before, service.fees, queued, commits);
      assert r.Ok? ==> queued[..|commits|] == queued;
      QueuedWanted(before.orders, repository.orders, snapshot, policy, digests, p, queued);
    }

    method SumWeights(targets: seq<Target>) returns (total: real)
      ensures total == TotalWeight(targets)
    {
      total := 0.0;
      for i := 0 to |targets|
        invariant total == TotalWeight(targets[..i])
      {
        assert targets[..i + 1][..i] == targets[..i];
        total := total + targets[i].weight;
      }
      assert targets[..|targets|] == targets;
    }
  }

  /** A pinned instrument reference has one market, so no instrument is targeted twice. */
  lemma OneMarketEach(snapshot: TargetSnapshot, markets: map<string, int>, prices: map<string, real>,
                      volumes: map<string, int>,
                      policy: Policy, p: Portfolio, projected: map<InstrumentKey, int>)
    requires snapshot.Valid()
    requires forall t <- snapshot.targets :: Tradable(markets, prices, volumes, policy, t, Gap(p, projected, t))
    ensures DistinctInstruments(snapshot)
  {
    hide Gap;
    forall i, j | 0 <= i < j < |snapshot.targets|
      ensures snapshot.targets[i].instrument != snapshot.targets[j].instrument
    {
      assert snapshot.targets[i] in snapshot.targets && snapshot.targets[j] in snapshot.targets;
    }
  }

  function Seen(rows: seq<Order>, session: int, sessionOf: int -> int): set<OrderId> {
    set o <- rows | sessionOf(o.createdAt) == session :: o.id
  }

  lemma SeenNext(rows: seq<Order>, i: nat, session: int, sessionOf: int -> int)
    requires i < |rows| && forall j, k :: 0 <= j < k < |rows| ==> rows[j].id != rows[k].id
    ensures Seen(rows[..i + 1], session, sessionOf) ==
            Seen(rows[..i], session, sessionOf) + if sessionOf(rows[i].createdAt) == session then {rows[i].id} else {}
    ensures rows[i].id !in Seen(rows[..i], session, sessionOf)
  {
    assert rows[..i + 1] == rows[..i] + [rows[i]];
  }

  lemma SeenAll(orders: map<OrderId, Order>, rows: seq<Order>, session: int, sessionOf: int -> int)
    requires forall i :: 0 <= i < |rows| ==> rows[i].id in orders && orders[rows[i].id] == rows[i]
    requires forall id :: id in orders ==> exists i :: 0 <= i < |rows| && rows[i].id == id
    ensures Seen(rows, session, sessionOf) == InSession(orders, session, sessionOf)
  {
    forall id | id in InSession(orders, session, sessionOf)
      ensures id in Seen(rows, session, sessionOf)
    {
      var i :| 0 <= i < |rows| && rows[i].id == id;
      assert rows[i] in rows;
    }
  }

  lemma GapAt(p: Portfolio, projected: map<InstrumentKey, int>, targets: seq<Target>, i: nat)
    requires (forall t <- targets :: t.Valid()) && i < |targets|
    ensures targets[i].Valid() && Gaps(p, projected, targets)[i] == Gap(p, projected, targets[i])
  {
    assert targets[i] in targets;
  }

  lemma StillCovered(snapshot: TargetSnapshot, policy: Policy, digests: Digests, p: Portfolio,
                     projected: map<InstrumentKey, int>,
                     createdAt: int, commands: seq<Ranked>, i: nat, x: Ranked)
    requires snapshot.Valid() && i < |snapshot.targets| && snapshot.targets[i].Valid()
    requires forall k :: 0 <= k < i ==>
               Covered(snapshot, policy, digests, p, projected, createdAt, commands, snapshot.targets[k])
    requires Gap(p, projected, snapshot.targets[i]) != 0
    requires x == Ranked(snapshot.targets[i].rank,
                         CommandFor(snapshot, policy, digests, p, snapshot.targets[i],
                                    Gap(p, projected, snapshot.targets[i]), createdAt))
    ensures forall k :: 0 <= k <= i ==>
              Covered(snapshot, policy, digests, p, projected, createdAt, commands + [x], snapshot.targets[k])
    ensures ForTarget(snapshot, policy, digests, p, projected, createdAt, x)
  {
    hide Gap, CommandFor;
    assert snapshot.targets[i] in snapshot.targets;
  }

  lemma NowCovered(snapshot: TargetSnapshot, policy: Policy, digests: Digests, p: Portfolio,
                   projected: map<InstrumentKey, int>,
                   createdAt: int, commands: seq<Ranked>, t: Target)
    requires snapshot.Valid() && t in snapshot.targets && Gap(p, projected, t) == 0
    ensures Covered(snapshot, policy, digests, p, projected, createdAt, commands, t)
  {
  }

  lemma NoGaps(gaps: seq<int>)
    ensures NonZero(gaps[..0]) == 0
  {
  }

  lemma NonZeroNext(gaps: seq<int>, i: nat)
    requires i < |gaps|
    ensures NonZero(gaps[..i + 1]) == NonZero(gaps[..i]) + if gaps[i] != 0 then 1 else 0
  {
    assert gaps[..i + 1][..i] == gaps[..i];
  }

  lemma NothingHeld(targets: seq<Target>, gaps: seq<int>, nav: real)
    requires |targets| == |gaps| && nav != 0.0
    ensures TotalShare(targets[..0], nav) == 0.0 && Held(targets[..0], nav) == 0
            && Turnover(targets[..0], gaps[..0], nav) == 0.0
  {
  }

  lemma MoreHeld(targets: seq<Target>, gaps: seq<int>, nav: real, i: nat)
    requires |targets| == |gaps| && nav != 0.0 && i < |targets| && forall t <- targets :: t.Valid()
    ensures (forall t <- targets[..i] :: t.Valid()) && (forall t <- targets[..i + 1] :: t.Valid()) && targets[i].Valid()
    ensures TotalShare(targets[..i + 1], nav) == TotalShare(targets[..i], nav) + Share(Desired(nav, targets[i]),
            targets[i].price, nav)
    ensures Held(targets[..i + 1], nav) == Held(targets[..i], nav) + if Desired(nav, targets[i]) > 0 then 1 else 0
    ensures Turnover(targets[..i + 1], gaps[..i + 1], nav) ==
            Turnover(targets[..i], gaps[..i], nav) + Share(if gaps[i] > 0 then gaps[i]
                                                           else -gaps[i], targets[i].price, nav)
  {
    hide Share, Desired;
    assert targets[..i + 1][..i] == targets[..i] && gaps[..i + 1][..i] == gaps[..i];
    assert targets[i] in targets;
  }

  /** Counting open orders as done, the gaps are those of the current order table. */
  lemma GapsAreDeltas(orders: map<OrderId, Order>, snapshot: TargetSnapshot, p: Portfolio,
                      projected: map<InstrumentKey, int>)
    requires snapshot.Valid()
    requires forall t <- snapshot.targets ::
               Get(projected, t.Key()) == Get(p.positions, t.Key()) + OpenDelta(orders, t.instrument)
    ensures Gaps(p, projected, snapshot.targets) == Deltas(orders, p, snapshot.targets)
    ensures forall t <- snapshot.targets :: Gap(p, projected, t) == Delta(orders, p, t)
  {
    hide Desired, OpenDelta, Get;
    forall t | t in snapshot.targets
      ensures Gap(p, projected, t) == Delta(orders, p, t)
    {
    }
    forall i | 0 <= i < |snapshot.targets|
      ensures Gaps(p, projected, snapshot.targets)[i] == Deltas(orders, p, snapshot.targets)[i]
    {
      assert snapshot.targets[i] in snapshot.targets;
    }
  }

  lemma PlannedAreCommands(orders: map<OrderId, Order>, snapshot: TargetSnapshot, policy: Policy, digests: Digests,
                           p: Portfolio,
                           projected: map<InstrumentKey, int>, createdAt: int, planned: seq<Ranked>,
                               commands: seq<Ranked>)
    requires snapshot.Valid() && Sorting.IsOrdered(commands, SellsFirst) && forall x :: x in commands <==> x in planned
    requires forall t <- snapshot.targets :: Gap(p, projected, t) == Delta(orders, p, t)
    requires forall x <- planned :: ForTarget(snapshot, policy, digests, p, projected, createdAt, x)
    requires forall t <- snapshot.targets :: Covered(snapshot, policy, digests, p, projected, createdAt, planned, t)
    requires |commands| == NonZero(Deltas(orders, p, snapshot.targets))
    ensures AreCommands(orders, snapshot, policy, digests, p, createdAt, commands)
  {
    hide Gap, CommandFor, Delta, Deltas, NonZero, Sorting.IsOrdered;
    forall x | x in commands
      ensures exists t <- snapshot.targets ::
                Delta(orders, p, t) != 0 && x == CommandAt(orders, snapshot, policy, digests, p, createdAt, t)
    {
      assert ForTarget(snapshot, policy, digests, p, projected, createdAt, x);
      var t :| t in snapshot.targets && Gap(p, projected, t) != 0
               && x == Ranked(t.rank, CommandFor(snapshot, policy, digests, p, t, Gap(p, projected, t), createdAt));
      assert x == CommandAt(orders, snapshot, policy, digests, p, createdAt, t);
    }
    forall t | t in snapshot.targets && Delta(orders, p, t) != 0
      ensures CommandAt(orders, snapshot, policy, digests, p, createdAt, t) in commands
    {
      assert Covered(snapshot, policy, digests, p, projected, createdAt, planned, t);
    }
  }

  /** The commands create exactly the wanted orders. */
  lemma CommandsAreWanted(orders: map<OrderId, Order>, snapshot: TargetSnapshot, policy: Policy, digests: Digests,
                          p: Portfolio,
                          createdAt: int, commands: seq<Ranked>)
    requires snapshot.Valid() && AreCommands(orders, snapshot, policy, digests, p, createdAt, commands)
    ensures AreWanted(orders, snapshot, policy, digests, p, commands)
  {
    hide Delta, Deltas, NonZero, Sorting.IsOrdered;
    forall x | x in commands
      ensures exists w :: Wanted(orders, snapshot, policy, p, w) && x.command.Id() == digests.OrderOf(w)
    {
      var t :| t in snapshot.targets && Delta(orders, p, t) != 0
          && x == CommandAt(orders, snapshot, policy, digests, p, createdAt, t);
      var w := IdentityFor(snapshot, policy, t, Delta(orders, p, t));
      assert Wanted(orders, snapshot, policy, p, w);
    }
    forall w | Wanted(orders, snapshot, policy, p, w)
      ensures exists x <- commands :: x.command.Id() == digests.OrderOf(w)
    {
      var t :| t in snapshot.targets && Delta(orders, p, t) != 0
          && w == IdentityFor(snapshot, policy, t, Delta(orders, p, t));
      var x := CommandAt(orders, snapshot, policy, digests, p, createdAt, t);
      assert x in commands;
    }
  }

  /**
    * The second execution of a snapshot, once the first one's orders are all recorded and none of them is open and
    * partly filled, finds every order it asks for already there: by the contract of `Execute` it changes nothing.
    */
  lemma RepeatedExecutionQueuesNothing(before: map<OrderId, Order>, after: map<OrderId, Order>,
                                       snapshot: TargetSnapshot, policy: Policy,
                                       p: Portfolio, digests: Digests)
    requires snapshot.Valid() && DistinctInstruments(snapshot) && digests.Injective() && RowsFit(after)
    requires Undisturbed(before, after, snapshot, policy, p, digests)
    requires AllRecorded(after, before, snapshot, policy, digests, p)
    requires forall id :: !PartlyFilled(before, after, snapshot, policy, p, digests, id)
    ensures AllRecorded(after, after, snapshot, policy, digests, p)
  {
    hide Wanted, HasKey, Undisturbed, PartlyFilled, RowsFit;
    ReexecutionIsHarmless(before, after, snapshot, policy, p, digests);
  }
}
