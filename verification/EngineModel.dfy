/** What the event-driven backtest engine runs on: sessions, strategy, risk gate and configuration. */
module EngineModel {
  import opened BacktestJournal
  import opened FeeTax
  import opened PendingOrders
  import opened Replay
  import opened Simulation
  import opened Sorting
  import opened TickRounding
  import opened Wrappers

  datatype Session = Session(tradeDate: int, decision: int, execution: int, close: int, quotes: seq<Quote>,
                             decisionPrices: map<int, real>) {
    /** `BacktestSession.__post_init__`. */
    predicate Valid() {
      && decision < execution < close && DateOf(decision) < tradeDate
      && DateOf(execution) == tradeDate && DateOf(close) == tradeDate
      && (forall q <- quotes :: q.time == execution && q.Valid())
      && Distinct(quotes, InstrumentOf)
    }
  }

  datatype Target = Target(instrument: int, generatedAt: int, weight: real, ours: bool, equity: bool)

  datatype Config = Config(calendar: seq<int>, lag: nat, fills: FillPolicy, fees: FeeTaxPolicy) {
    predicate Valid() {
      && fills.Valid() && fees.Valid() && calendar != []
      && forall i, j :: 0 <= i < j < |calendar| ==> calendar[i] < calendar[j]
    }
  }

  /** The strategy, the pre-trade risk gate and what they read off the ledger: any functions whatever. */
  datatype World = World(
    targets: Session -> seq<Target>,
    quantity: (seq<LedgerOp>, int) -> int,
    netAssetValue: (seq<LedgerOp>, int) -> real,
    approves: (seq<LedgerOp>, map<IntentId, OrderReservation>, IntentId, real) -> bool)

  datatype EngineError =
    | InvalidInput | DuplicateTargets | BadTarget | MissingPrice
    | NotSized(sizing: SizingError) | NotSimulated(simulation: SimulationError)
    | LedgerFailed | JournalRefused(journal: JournalError) | BookRefused(book: BookError)

  datatype Planned = Planned(id: IntentId, event: EventId)

  function InstrumentOf(q: Quote): int {
    q.instrument
  }

  function TargetInstrument(t: Target): int {
    t.instrument
  }

  function PlannedId(p: Planned): IntentId {
    p.id
  }

  function ActionId(a: Action): int {
    a.id
  }

  /** Sells first, then by instrument. */
  predicate TradesBefore(a: Planned, b: Planned) {
    if a.id.side == b.id.side then a.id.instrument < b.id.instrument else a.id.side == Sell
  }

  predicate TargetBefore(a: Target, b: Target) {
    a.instrument < b.instrument
  }

  predicate ActionBefore(a: Action, b: Action) {
    a.id < b.id
  }

  predicate QuoteBefore(a: Quote, b: Quote) {
    a.instrument < b.instrument
  }

  /** Half past eight on the day. */
  function AccountingTime(date: int): int {
    date * MINUTES_A_DAY + 510
  }

  /** Five in the afternoon of the day. */
  function CompletionTime(date: int): int {
    date * MINUTES_A_DAY + 1020
  }

  function Instruments(quotes: seq<Quote>): set<int> {
    set q <- quotes :: q.instrument
  }

  function ActionIds(actions: seq<Action>): set<int> {
    set a <- actions :: a.id
  }

  predicate Quoted(quotes: seq<Quote>, instrument: int) {
    exists i :: 0 <= i < |quotes| && quotes[i].instrument == instrument
  }

  function QuoteOf(quotes: seq<Quote>, instrument: int): (q: Quote)
    requires Quoted(quotes, instrument)
    ensures q in quotes && q.instrument == instrument
  {
    if quotes[0].instrument == instrument then quotes[0] else QuoteOf(quotes[1..], instrument)
  }

  /** The instruments a session's close marks, by closing time. */
  function SessionKeys(sessions: seq<Session>, time: int): set<int> {
    set s <- sessions, q <- s.quotes | s.close == time :: q.instrument
  }

  predicate IsPartial(payload: Payload) {
    payload.FillReceived? && payload.result == Partial
  }

  predicate HasPartialFill(events: seq<Event>) {
    exists i :: 0 <= i < |events| && IsPartial(events[i].payload)
  }

  // ---- Ledger histories that cannot be told apart ----

  ghost predicate SameAnswers(ledger: Ledger, a: seq<LedgerOp>, b: seq<LedgerOp>) {
    && ledger.accepts(a) == ledger.accepts(b) && ledger.settlements(a) == ledger.settlements(b)
    && ledger.actionResult(a) == ledger.actionResult(b) && ledger.dueDate(a) == ledger.dueDate(b)
    && ledger.checksum(a) == ledger.checksum(b) && forall t :: ledger.snapshot(a, t) == ledger.snapshot(b, t)
  }

  /** No further calls tell the two histories apart. */
  ghost predicate Same(ledger: Ledger, a: seq<LedgerOp>, b: seq<LedgerOp>) {
    forall more: seq<LedgerOp> :: SameAnswers(ledger, a + more, b + more)
  }

  lemma SameItself(ledger: Ledger, a: seq<LedgerOp>)
    ensures Same(ledger, a, a)
  {
  }

  lemma SameThrough(ledger: Ledger, a: seq<LedgerOp>, b: seq<LedgerOp>, c: seq<LedgerOp>)
    requires Same(ledger, a, b) && Same(ledger, b, c)
    ensures Same(ledger, a, c)
  {
    forall more: seq<LedgerOp>
      ensures SameAnswers(ledger, a + more, c + more)
    {
      assert SameAnswers(ledger, a + more, b + more) && SameAnswers(ledger, b + more, c + more);
    }
  }

  lemma SameNow(ledger: Ledger, a: seq<LedgerOp>, b: seq<LedgerOp>, time: int)
    requires Same(ledger, a, b)
    ensures ledger.accepts(a) == ledger.accepts(b) && ledger.checksum(a) == ledger.checksum(b)
    ensures ledger.snapshot(a, time) == ledger.snapshot(b, time)
  {
    assert a + [] == a && b + [] == b;
    assert SameAnswers(ledger, a + [], b + []);
  }

  /** The same after the same call. */
  lemma SameAfter(ledger: Ledger, a: seq<LedgerOp>, b: seq<LedgerOp>, op: LedgerOp)
    requires Same(ledger, a, b)
    ensures var a', b' := a + [op], b + [op];
      && Same(ledger, a', b') && ledger.accepts(a') == ledger.accepts(b')
         && ledger.settlements(a') == ledger.settlements(b')
      && ledger.actionResult(a') == ledger.actionResult(b') && ledger.dueDate(a') == ledger.dueDate(b')
  {
    assert SameAnswers(ledger, a + [op], b + [op]);
    forall more: seq<LedgerOp>
      ensures SameAnswers(ledger, a + [op] + more, b + [op] + more)
    {
      assert a + [op] + more == a + ([op] + more) && b + [op] + more == b + ([op] + more);
    }
  }

  /**
    * Ageing positions without marking any: it shows in the next snapshot when a position is held, and has no effect
    * at all when none is.
    */
  ghost predicate AgesHoldings(ledger: Ledger) {
    forall h: seq<LedgerOp> :: if ledger.holds(h) then AgeingShows(ledger, h) else Same(ledger, h, h + [Aged({})])
  }

  ghost predicate AgeingShows(ledger: Ledger, h: seq<LedgerOp>) {
    forall t :: ledger.snapshot(h + [Aged({})], t).Some? ==> ledger.snapshot(h + [Aged({})], t) != ledger.snapshot(h, t)
  }

  /** Replay keeps up with a session's close: it has quotes, or ageing has nothing to age. */
  ghost predicate KeepsUp(ledger: Ledger, quotes: seq<Quote>, closing: seq<LedgerOp>) {
    quotes != [] || (AgesHoldings(ledger) && !ledger.holds(closing))
  }

  predicate NoneActive(book: map<IntentId, OrderReservation>) {
    forall id :: id in book ==> book[id].status != Active
  }

  /** Only a partial fill whose rest is not cancelled leaves an active reservation. */
  predicate Tidy(cancel: bool, book: map<IntentId, OrderReservation>, events: seq<Event>) {
    NoneActive(book) <==> cancel || !HasPartialFill(events)
  }

  lemma TidyStill(cancel: bool, book: map<IntentId, OrderReservation>, before: seq<Event>, after: seq<Event>)
    requires HasPartialFill(before) <==> HasPartialFill(after)
    ensures Tidy(cancel, book, before) <==> Tidy(cancel, book, after)
  {
    hide HasPartialFill;
  }

  /** A new reservation of the whole order. */
  function Fresh(id: IntentId): OrderReservation {
    OrderReservation(IntentKey(id), id.instrument, id.side, id.quantity, id.quantity, Active)
  }

  function AfterFill(item: OrderReservation, quantity: int): OrderReservation {
    var remaining := item.remaining - quantity;
    item.(remaining := remaining, status := if remaining != 0 then Active else Filled)
  }

  // ---- When a run goes through ----

  /** The ledger refuses no call and can always be shown. */
  ghost predicate Lenient(ledger: Ledger) {
    && (forall h: seq<LedgerOp> :: ledger.accepts(h))
    && forall h: seq<LedgerOp>, t :: ledger.snapshot(h, t).Some?
  }

  /** There is always something to size by, and nothing is held short. */
  ghost predicate Solvent(world: World) {
    && (forall h, t :: world.netAssetValue(h, t) > 0.0)
    && forall h, instrument :: world.quantity(h, instrument) >= 0
  }

  /** The strategy's targets of a session keep the decision contract and can be sized. */
  predicate Sizeable(world: World, s: Session) {
    && Distinct(world.targets(s), TargetInstrument)
    && forall t <- world.targets(s) :: MeetsContract(s, t) && CanSize(s, t)
  }

  predicate MeetsContract(s: Session, t: Target) {
    t.generatedAt == s.decision && Quoted(s.quotes, t.instrument) && t.ours
  }

  predicate CanSize(s: Session, t: Target) {
    && t.instrument in s.decisionPrices && s.decisionPrices[t.instrument] > 0.0
    && t.weight >= 0.0 && t.equity
  }

  /** The session comes in time after what the journal already holds, and its own stages follow each other. */
  predicate InTime(world: World, s: Session, end: int) {
    && (world.targets(s) != [] ==> end <= s.decision) && end <= AccountingTime(s.tradeDate)
    && AccountingTime(s.tradeDate) <= if s.quotes == [] then s.close else s.execution
  }

  /** As far as its opening is concerned. */
  predicate StartsInTime(world: World, s: Session, end: int) {
    && (world.targets(s) != [] ==> end <= s.decision) && end <= AccountingTime(s.tradeDate)
    && (s.quotes != [] ==> AccountingTime(s.tradeDate) <= s.execution)
  }

  /** When the last event before the session's orders is. */
  function TradingStart(s: Session): int {
    if s.quotes == [] then AccountingTime(s.tradeDate) else s.execution
  }

  lemma NoneOrBoth<T(!new)>(one: seq<T>, other: seq<T>)
    requires forall x :: x in one <==> x in other
    ensures one == [] <==> other == []
  {
    assert one != [] ==> one[0] in other;
    assert other != [] ==> other[0] in one;
  }

  lemma AllCanSize(world: World, s: Session, sorted: seq<Target>)
    requires Distinct(world.targets(s), TargetInstrument) && forall t <- world.targets(s) :: MeetsContract(s, t)
    requires forall t :: t in sorted <==> t in world.targets(s)
    requires forall j :: 0 <= j < |sorted| ==> CanSize(s, sorted[j])
    ensures Sizeable(world, s)
  {
    hide MeetsContract, CanSize;
  }

  /** No sale would be priced below the smallest tick. */
  predicate Sellable(fills: FillPolicy, quotes: seq<Quote>) {
    forall q <- quotes :: RawPrice(fills.slippageBps, Sell, q.open) >= 0.01
  }

  lemma SellableOne(fills: FillPolicy, quotes: seq<Quote>, q: Quote)
    requires q in quotes
    ensures Sellable(fills, quotes) ==> Sellable(fills, [q])
  {
  }

  // ---- Orders ----

  /** A simulated fill is a valid fill of part of the order, at the quote's time. */
  predicate OutcomeFits(outcome: FillOutcome, id: IntentId, time: int) {
    outcome.fill.Some? ==>
      var fill := outcome.fill.value;
      && fill.Valid() && fill.clientOrder == IntentKey(id) && fill.fillId.intent == id && fill.time == time
      && fill.instrument == id.instrument && fill.side == id.side
      && fill.quantity + outcome.unfilled == id.quantity && outcome.unfilled >= 0
  }

  /** The fill is of the order, and not too large. */
  predicate FillsOrder(fill: SimFill, id: IntentId) {
    && fill.clientOrder == IntentKey(id) && fill.instrument == id.instrument && fill.side == id.side
    && fill.quantity <= id.quantity
  }

  lemma SameInstruments(quotes: seq<Quote>, others: seq<Quote>)
    requires forall q :: q in quotes <==> q in others
    ensures Instruments(quotes) == Instruments(others)
    ensures quotes == [] <==> others == []
    ensures quotes == [] ==> Instruments(others) == {}
  {
    assert quotes != [] ==> quotes[0] in others;
    assert others != [] ==> others[0] in quotes;
  }

  lemma ActionIdsNext(actions: seq<Action>, i: nat)
    requires i < |actions| && Distinct(actions, ActionId)
    ensures ActionIds(actions[..i + 1]) == ActionIds(actions[..i]) + {actions[i].id}
    ensures actions[i].id !in ActionIds(actions[..i])
  {
    assert actions[..i + 1] == actions[..i] + [actions[i]];
    forall a | a in actions[..i]
      ensures a.id != actions[i].id
    {
      var j :| 0 <= j < i && actions[j] == a;
      assert ActionId(actions[j]) != ActionId(actions[i]);
    }
  }

  lemma NoActionIds(actions: seq<Action>)
    ensures ActionIds(actions[..0]) == {}
  {
  }

  lemma SameActionIds(actions: seq<Action>, others: seq<Action>)
    requires forall a :: a in actions <==> a in others
    ensures ActionIds(actions) == ActionIds(others)
  {
  }

  lemma NewOrderActive(book: map<IntentId, OrderReservation>, id: IntentId, item: OrderReservation)
    requires id !in book
    ensures NoneActive(book[id := item]) <==> NoneActive(book) && item.status != Active
  {
    var after := book[id := item];
    if NoneActive(after) {
      forall other | other in book
        ensures book[other].status != Active
      {
        assert after[other] == book[other];
      }
      assert after[id] == item;
    }
  }

  // ---- The journal of one session's orders ----

  /**
    * What became of one planned order: its estimated price, the risk decision, the simulated outcome and the
    * settlement date.
    */
  datatype Executed = Executed(planned: Planned, price: real, approved: bool, outcome: FillOutcome, due: int)

  /** A list of events appended in order, at one time and with one cause. */
  function AddAll(events: seq<Event>, time: int, causation: Option<EventId>, payloads: seq<Payload>): seq<Event> {
    events + seq(|payloads|, i requires 0 <= i < |payloads| => MakeEvent(|events| + i + 1, time, causation,
                                                                         payloads[i]))
  }

  lemma AddOne(events: seq<Event>, time: int, causation: Option<EventId>, payload: Payload)
    ensures AddAll(events, time, causation, [payload]) == events + [MakeEvent(|events| + 1, time, causation, payload)]
  {
  }

  lemma AddMore(events: seq<Event>, time: int, causation: Option<EventId>, one: seq<Payload>, other: seq<Payload>)
    ensures AddAll(AddAll(events, time, causation, one), time, causation, other) ==
            AddAll(events, time, causation, one + other)
  {
  }

  /** The events after a reservation: the fill with its update, or the missing fill, and what releases the rest. */
  function Settlement(id: IntentId, outcome: FillOutcome, due: int, cancel: bool): seq<Payload> {
    match outcome.fill
    case None => [FillReceived(id, Unfilled, None, 0), ReservationReleased(id, id.quantity, Expired)]
    case Some(fill) =>
      var item := AfterFill(Fresh(id), fill.quantity);
      FillReport(id, fill, outcome.unfilled, due, item)
      + if outcome.unfilled != 0 && cancel then [ReservationReleased(id, item.remaining, Cancelled)] else []
  }

  /** The two events of a fill. */
  function FillReport(id: IntentId, fill: SimFill, unfilled: int, due: int, item: OrderReservation): seq<Payload> {
    [FillReceived(id, if unfilled == 0 then Complete else Partial, Some(fill), due),
     ReservationUpdated(id, item.remaining, item.status)]
  }

  /** What the session leaves of a reservation. */
  function SettledAs(id: IntentId, outcome: FillOutcome, cancel: bool): OrderReservation {
    if outcome.fill.None? then Fresh(id).(status := Expired)
    else
      var filled := AfterFill(Fresh(id), outcome.fill.value.quantity);
      if outcome.unfilled != 0 && cancel then filled.(status := Cancelled) else filled
  }

  lemma FillTime(outcome: FillOutcome, id: IntentId, time: int)
    requires OutcomeFits(outcome, id, time)
    ensures outcome.fill.Some? ==> outcome.fill.value.time == time
  {
  }

  /** A reservation stays active exactly for a partial fill whose rest is not cancelled. */
  lemma SettledIsActive(id: IntentId, outcome: FillOutcome, cancel: bool, time: int)
    requires OutcomeFits(outcome, id, time)
    ensures SettledAs(id, outcome, cancel).status == Active <==> outcome.fill.Some? && outcome.unfilled != 0 && !cancel
  {
  }

  /**
    * A configuration that allows partial fills and does not cancel remainders can meet a quote whose capacity is short:
    * the order's reservation stays active, and its events hold a partial fill.
    */
  lemma ShortCapacityStaysActive(config: Config, id: IntentId, quote: Quote, outcome: FillOutcome, events: seq<Event>,
                                 time: int,
                                 x: Executed)
    requires config.fills.allowPartial && !config.fills.cancelUnfilled
    requires !quote.suspended && !quote.limitLocked && quote.volume > 0
    requires 0 < Capacity(config.fills, quote.volume) < id.quantity
             && IsOutcome(config.fills, config.fees, id, quote, outcome)
    requires x.planned.id == id && x.approved && x.outcome == outcome
    ensures SettledAs(id, outcome, false).status == Active && HasPartialFill(EmitOrder(events, time, x, false))
  {
    hide Capacity, IsBestPrice, RawPrice, Gross;
    var decided := AddAll(events, time, Some(x.planned.event), [RiskDecided(id, Approve)]);
    var report := [OrderReserved(id, id.quantity, Active)] + Settlement(id, outcome, x.due, false);
    assert IsPartial(report[1]);
    assert EmitOrder(events, time, x, false)[|decided| + 1].payload == report[1];
  }

  /** Such a quote exists for every valid fill policy. */
  lemma ShortCapacityExists(fills: FillPolicy) returns (volume: int, quantity: int)
    requires fills.Valid()
    ensures volume > 0 && 0 < Capacity(fills, volume) < quantity
  {
    var share := 1.0 / fills.participation;
    volume := share.Floor + 1;
    CoversOne(volume as real, share, fills.participation);
    quantity := Capacity(fills, volume) + 1;
  }

  lemma CoversOne(x: real, y: real, z: real)
    requires x >= y && z > 0.0 && y == 1.0 / z
    ensures x * z >= 1.0
  {
    assert y * z == 1.0;
    assert (x - y) * z >= 0.0;
  }

  /** The journal after one order. */
  function EmitOrder(events: seq<Event>, time: int, x: Executed, cancel: bool): seq<Event> {
    var id := x.planned.id;
    var decided := AddAll(events, time, Some(x.planned.event),
                          [RiskDecided(id, if x.approved then Approve else Reject)]);
    if !x.approved then decided
    else AddAll(decided, time, Some(decided[|events|].id),
                [OrderReserved(id, id.quantity, Active)] + Settlement(id, x.outcome, x.due, cancel))
  }

  /** The ledger calls and the pending orders after one order. */
  function LedgerAfter(history: seq<LedgerOp>, x: Executed): seq<LedgerOp> {
    if x.approved && x.outcome.fill.Some? then history
        + [Applied(x.outcome.fill.value, DateOf(x.outcome.fill.value.time))] else history
  }

  function BookAfter(book: map<IntentId, OrderReservation>, x: Executed, cancel: bool): map<IntentId,
      OrderReservation> {
    var id := x.planned.id;
    if x.approved then book[id := SettledAs(id, x.outcome, cancel)] else book
  }

  /** The order was priced, decided, simulated and settled as the engine's parts say. */
  ghost predicate IsHonest(config: Config, world: World, ledger: Ledger, quote: Quote,
                           history: seq<LedgerOp>, book: map<IntentId, OrderReservation>, x: Executed)
  {
    var id := x.planned.id;
    && IsBestPrice(id.side, RawPrice(config.fills.slippageBps, id.side, quote.open), x.price)
    && x.approved == world.approves(history, book, id, x.price)
    && (x.approved ==>
          IsOutcome(config.fills, config.fees, id, quote, x.outcome)
          && x.due == ledger.dueDate(LedgerAfter(history, x)))
  }

  /** All orders of a session, one after the other. */
  function EmitOrders(events: seq<Event>, time: int, xs: seq<Executed>, cancel: bool): seq<Event> {
    if xs == [] then events else EmitOrder(EmitOrders(events, time, xs[..|xs| - 1], cancel), time, xs[|xs| - 1], cancel)
  }

  function LedgerAfterAll(history: seq<LedgerOp>, xs: seq<Executed>): seq<LedgerOp> {
    if xs == [] then history else LedgerAfter(LedgerAfterAll(history, xs[..|xs| - 1]), xs[|xs| - 1])
  }

  function BookAfterAll(book: map<IntentId, OrderReservation>, xs: seq<Executed>, cancel: bool): map<IntentId,
      OrderReservation> {
    if xs == [] then book else BookAfter(BookAfterAll(book, xs[..|xs| - 1], cancel), xs[|xs| - 1], cancel)
  }

  ghost predicate AreHonest(config: Config, world: World, ledger: Ledger, quotes: seq<Quote>,
                            history: seq<LedgerOp>, book: map<IntentId, OrderReservation>, xs: seq<Executed>)
  {
    forall k :: 0 <= k < |xs| ==>
      && Quoted(quotes, xs[k].planned.id.instrument)
      && IsHonest(config, world, ledger, QuoteOf(quotes, xs[k].planned.id.instrument),
                  LedgerAfterAll(history, xs[..k]), BookAfterAll(book, xs[..k], config.fills.cancelUnfilled), xs[k])
  }

  function PlansOf(xs: seq<Executed>): seq<Planned> {
    seq(|xs|, i requires 0 <= i < |xs| => xs[i].planned)
  }

  /** Extending the orders of a session by one. */
  lemma OneMoreOrder(events: seq<Event>, history: seq<LedgerOp>, book: map<IntentId, OrderReservation>, time: int,
                     xs: seq<Executed>, x: Executed, cancel: bool)
    ensures EmitOrders(events, time, xs + [x], cancel) ==
            EmitOrder(EmitOrders(events, time, xs, cancel), time, x, cancel)
    ensures LedgerAfterAll(history, xs + [x]) == LedgerAfter(LedgerAfterAll(history, xs), x)
    ensures BookAfterAll(book, xs + [x], cancel) == BookAfter(BookAfterAll(book, xs, cancel), x, cancel)
    ensures PlansOf(xs + [x]) == PlansOf(xs) + [x.planned]
  {
    assert (xs + [x])[..|xs|] == xs;
  }

  lemma OneMoreHonest(config: Config, world: World, ledger: Ledger, quotes: seq<Quote>,
                      history: seq<LedgerOp>, book: map<IntentId, OrderReservation>, xs: seq<Executed>, x: Executed)
    requires AreHonest(config, world, ledger, quotes, history, book, xs) && Quoted(quotes, x.planned.id.instrument)
    requires IsHonest(config, world, ledger, QuoteOf(quotes, x.planned.id.instrument),
                      LedgerAfterAll(history, xs), BookAfterAll(book, xs, config.fills.cancelUnfilled), x)
    ensures AreHonest(config, world, ledger, quotes, history, book, xs + [x])
  {
    hide IsHonest, Quoted;
    var all := xs + [x];
    forall k | 0 <= k < |all|
      ensures Quoted(quotes, all[k].planned.id.instrument)
      ensures IsHonest(config, world, ledger, QuoteOf(quotes, all[k].planned.id.instrument),
                       LedgerAfterAll(history, all[..k]), BookAfterAll(book, all[..k], config.fills.cancelUnfilled),
                           all[k])
    {
      assert all[..k] == xs[..k];
      if k == |xs| { assert xs[..k] == xs; }
    }
  }

  /** No buy trades before a sale, and within a side instruments ascend. */
  predicate SalesFirst(xs: seq<Executed>) {
    forall i, k :: 0 <= i < k < |xs| ==>
      && !(xs[i].planned.id.side == Buy && xs[k].planned.id.side == Sell)
      && (xs[i].planned.id.side == xs[k].planned.id.side ==>
            xs[i].planned.id.instrument <= xs[k].planned.id.instrument)
  }

  /** Trading order. */
  lemma SellsTradeFirst(planned: seq<Planned>, xs: seq<Executed>)
    requires PlansOf(xs) == Sorted(planned, TradesBefore)
    ensures SalesFirst(xs)
  {
    var plans := PlansOf(xs);
    SortedIsOrdered(planned, TradesBefore);
    forall i, k | 0 <= i < k < |xs|
      ensures !TradesBefore(xs[k].planned, xs[i].planned)
    {
      assert plans[i] == xs[i].planned && plans[k] == xs[k].planned;
    }
  }

  lemma NothingExecuted(config: Config, world: World, ledger: Ledger, quotes: seq<Quote>, history: seq<LedgerOp>,
                        book: map<IntentId, OrderReservation>, events: seq<Event>, time: int)
    ensures AreHonest(config, world, ledger, quotes, history, book, []) && PlansOf([]) == []
    ensures EmitOrders(events, time, [], config.fills.cancelUnfilled) == events
    ensures LedgerAfterAll(history, []) == history && BookAfterAll(book, [], config.fills.cancelUnfilled) == book
  {
  }

  function OrderIn(plan: Option<Planned>): Option<(Side, int)> {
    if plan.Some? then Some((plan.value.id.side, plan.value.id.quantity)) else None
  }

  /** The plan holds the order that sizing asks for on a target, and no other for its instrument. */
  ghost predicate FollowsTarget(fees: FeeTaxPolicy, world: World, session: Session, history: seq<LedgerOp>, t: Target,
                                planned: seq<Planned>) {
    && t.instrument in session.decisionPrices && session.decisionPrices[t.instrument] > 0.0
    && exists order: Option<(Side, int)> ::
         && IsSized(Some(fees), Budget(world.netAssetValue(history, session.decision), t.weight),
                    session.decisionPrices[t.instrument],
                    world.quantity(history, t.instrument), order)
         && PlansOrder(planned, session.decision, t.instrument, order)
  }

  ghost predicate PlansOrder(planned: seq<Planned>, decision: int, instrument: int, order: Option<(Side, int)>) {
    if order.None? then forall p <- planned :: p.id.instrument != instrument
    else exists p <- planned :: p.id == IntentId(instrument, decision, order.value.0, order.value.1)
  }

  /** A target's own decision makes the plan follow it. */
  lemma FollowsNow(fees: FeeTaxPolicy, world: World, session: Session, history: seq<LedgerOp>, t: Target,
                   planned: seq<Planned>, plan: Option<Planned>)
    requires t.instrument in session.decisionPrices && session.decisionPrices[t.instrument] > 0.0
    requires IsSized(Some(fees), Budget(world.netAssetValue(history, session.decision), t.weight),
                     session.decisionPrices[t.instrument],
                     world.quantity(history, t.instrument), OrderIn(plan))
    requires plan.Some? ==> plan.value.id.instrument == t.instrument && plan.value.id.decidedAt == session.decision
    requires forall p <- planned :: p.id.instrument != t.instrument
    ensures FollowsTarget(fees, world, session, history, t, if plan.Some? then planned + [plan.value] else planned)
  {
    hide IsSized, Budget;
    var after := if plan.Some? then planned + [plan.value] else planned;
    assert PlansOrder(after, session.decision, t.instrument, OrderIn(plan)) by {
      if plan.Some? {
        assert after[|planned|] == plan.value;
      }
    }
  }

  lemma FollowsStill(fees: FeeTaxPolicy, world: World, session: Session, history: seq<LedgerOp>, t: Target,
                     planned: seq<Planned>, p: Planned)
    requires FollowsTarget(fees, world, session, history, t, planned) && p.id.instrument != t.instrument
    ensures FollowsTarget(fees, world, session, history, t, planned + [p])
  {
    hide IsSized, Budget;
    var order: Option<(Side, int)> :|
      && IsSized(Some(fees), Budget(world.netAssetValue(history, session.decision), t.weight),
                 session.decisionPrices[t.instrument],
                 world.quantity(history, t.instrument), order)
      && PlansOrder(planned, session.decision, t.instrument, order);
    assert PlansOrder(planned + [p], session.decision, t.instrument, order);
  }
}
