/** Target sizing and open-price fill simulation. */
module Simulation {
  import opened BacktestJournal
  import opened FeeTax
  import opened TickRounding
  import opened Wrappers

  datatype SizingError = ShortTarget | InvalidInputs | NotEquity

  datatype Quote = Quote(instrument: int, time: int, open: real, close: real, volume: int, suspended: bool,
                         limitLocked: bool) {
    /** `ExecutionQuote.__post_init__`. */
    predicate Valid() {
      open > 0.0 && close > 0.0 && volume >= 0
    }
  }

  datatype FillPolicy = FillPolicy(slippageBps: real, participation: real, allowPartial: bool, cancelUnfilled: bool) {
    predicate Valid() {
      slippageBps >= 0.0 && 0.0 < participation <= 1.0
    }
  }

  datatype FillOutcome = FillOutcome(fill: Option<SimFill>, unfilled: int)

  datatype SimulationError = InstrumentsDiffer | FillTooEarly | PriceFailed(price: PriceError)

  // ---- Sizing ----

  function Gross(price: real, quantity: int): real {
    price * quantity as real
  }

  function Budget(netAssetValue: real, weight: real): real {
    netAssetValue * weight
  }

  /** Whole shares the budget buys at the reference price, before costs. */
  function Shares(budget: real, price: real): int
    requires price > 0.0
  {
    (budget / price).Floor
  }

  /** The shares are worth at most the budget, and one more is worth more. */
  lemma SharesAre(budget: real, price: real, shares: int)
    requires price > 0.0
    ensures shares as real * price <= budget < (shares + 1) as real * price <==> shares == Shares(budget, price)
  {
    var exact := budget / price;
    assert budget == exact * price;
    Between(exact, budget, price, shares);
    FloorIs(exact, shares);
  }

  lemma Between(exact: real, worth: real, price: real, shares: int)
    requires price > 0.0 && worth == exact * price
    ensures shares as real * price <= worth < (shares + 1) as real * price <==>
              shares as real <= exact < shares as real + 1.0
  {
    var low, high := shares as real * price, (shares + 1) as real * price;
    Compared(shares as real, exact, price, low, worth);
    Compared((shares + 1) as real, exact, price, high, worth);
  }

  lemma Compared(a: real, b: real, c: real, ac: real, bc: real)
    requires c > 0.0 && ac == a * c && bc == b * c
    ensures a <= b <==> ac <= bc
  {
    if a <= b {
      assert (b - a) * c >= 0.0;
    } else {
      assert (a - b) * c > 0.0;
    }
  }

  /** Holding `target` shares, and paying the fee of getting there from `current`, stays inside the budget. */
  predicate Fits(policy: FeeTaxPolicy, budget: real, price: real, current: int, target: int) {
    Gross(price, target) + policy.Fee(Gross(price, target - current)) as real <= budget
  }

  /** Among the holdings above `current`, exactly those up to `target` fit. */
  ghost predicate IsLargestFit(policy: FeeTaxPolicy, budget: real, price: real, current: int, target: int) {
    forall t :: current < t ==> (Fits(policy, budget, price, current, t) <==> t <= target)
  }

  lemma FeeIsMonotone(policy: FeeTaxPolicy, less: real, more: real)
    requires policy.Valid() && 0.0 <= less <= more
    ensures 0 <= policy.Fee(less) <= policy.Fee(more)
  {
    var rate, discount := policy.commissionRate, policy.commissionDiscount;
    Scaled(less, more, rate, less * rate, more * rate);
    Scaled(less * rate, more * rate, discount, less * rate * discount, more * rate * discount);
  }

  lemma Scaled(a: real, b: real, c: real, ac: real, bc: real)
    requires a <= b && c >= 0.0 && ac == a * c && bc == b * c
    ensures ac <= bc
  {
    assert (b - a) * c >= 0.0;
  }

  lemma GrossIsMonotone(price: real, fewer: int, more: int)
    requires price > 0.0 && fewer <= more
    ensures Gross(price, fewer) <= Gross(price, more)
    ensures fewer < more ==> Gross(price, fewer) < Gross(price, more)
    ensures Gross(price, 0) == 0.0
  {
    if fewer < more {
      StrictProducts(fewer as real, more as real, price);
    }
  }

  /** A holding below one that fits also fits. */
  lemma FitsBelow(policy: FeeTaxPolicy, budget: real, price: real, current: int, lower: int, higher: int)
    requires policy.Valid() && price > 0.0 && 0 <= current < lower <= higher
    requires Fits(policy, budget, price, current, higher)
    ensures Fits(policy, budget, price, current, lower)
  {
    GrossIsMonotone(price, lower, higher);
    GrossIsMonotone(price, lower - current, higher - current);
    GrossIsMonotone(price, 0, lower - current);
    FeeIsMonotone(policy, Gross(price, lower - current), Gross(price, higher - current));
  }

  /** Nothing above the whole shares the budget buys can fit. */
  lemma NothingAboveFits(policy: FeeTaxPolicy, budget: real, price: real, current: int, target: int)
    requires policy.Valid() && price > 0.0 && 0 <= current < target && Shares(budget, price) < target
    ensures !Fits(policy, budget, price, current, target)
  {
    var shares := budget / price;
    assert shares < target as real;
    StrictProducts(shares, target as real, price);
    GrossIsMonotone(price, 0, target - current);
    FeeIsMonotone(policy, 0.0, Gross(price, target - current));
  }

  /** Where the decreasing search stops, it has found the largest holding that fits. */
  lemma SearchIsMaximal(policy: FeeTaxPolicy, budget: real, price: real, current: int, target: int)
    requires policy.Valid() && price > 0.0 && 0 <= current
    requires current < target ==> Fits(policy, budget, price, current, target)
    requires forall t :: current < t && target < t <= Shares(budget, price) ==> !Fits(policy, budget, price, current, t)
    ensures IsLargestFit(policy, budget, price, current, target)
  {
    hide Fits, Shares;
    forall t | current < t
      ensures Fits(policy, budget, price, current, t) <==> t <= target
    {
      if t > target {
        if t > Shares(budget, price) {
          NothingAboveFits(policy, budget, price, current, t);
        }
      } else {
        FitsBelow(policy, budget, price, current, t, target);
      }
    }
  }

  /**
    * The order is the one `convert` must give: to the whole shares the budget buys when that is no increase, else to
    * the largest fit.
    */
  ghost predicate IsSized(policy: Option<FeeTaxPolicy>, budget: real, price: real, current: int,
                          order: Option<(Side, int)>)
    requires price > 0.0
  {
    && (order.Some? ==> order.value.1 > 0)
    && (policy.None? || Shares(budget, price) <= current ==> current + Signed(order) == Shares(budget, price))
    && (policy.Some? ==> IsLargestFit(policy.value, budget, price, current, current + Signed(order)))
  }

  lemma SizedIsPositive(policy: Option<FeeTaxPolicy>, budget: real, price: real, current: int,
                        order: Option<(Side, int)>)
    requires price > 0.0 && IsSized(policy, budget, price, current, order)
    ensures order.Some? ==> order.value.1 > 0
  {
  }

  /**
    * The same in plain numbers: the holding reached is the largest that the weight buys when not one more share would
    * be within it, and of the holdings above the current one, whose commission is that of the shares bought, exactly
    * those up to it are within the weight.
    */
  ghost predicate Reaches(policy: Option<FeeTaxPolicy>, nav: real, weight: real, price: real, current: int,
                          order: Option<(Side, int)>) {
    var reached := current + if order.None? then 0 else if order.value.0 == Buy then order.value.1 else -order.value.1;
    && (order.Some? ==> order.value.1 > 0)
    && (policy.None? || nav * weight < (current + 1) as real * price ==>
          reached as real * price <= nav * weight < (reached + 1) as real * price)
    && (policy.Some? ==>
          forall holding, fee :: IsBoughtFor(policy.value, price, current, holding, fee) ==>
            (price * holding as real + fee as real <= nav * weight <==> holding <= reached))
  }

  ghost predicate IsBoughtFor(policy: FeeTaxPolicy, price: real, current: int, holding: int, fee: int) {
    holding > current && IsCommission(policy, price * (holding - current) as real, fee)
  }

  lemma SizedReaches(policy: Option<FeeTaxPolicy>, nav: real, weight: real, price: real, current: int,
                     order: Option<(Side, int)>)
    requires price > 0.0
    ensures IsSized(policy, Budget(nav, weight), price, current, order) ==>
              Reaches(policy, nav, weight, price, current, order)
  {
    hide IsCommission, FeeTaxPolicy.Fee, Shares, Budget, Fits;
    if IsSized(policy, Budget(nav, weight), price, current, order) {
      var budget, reached := Budget(nav, weight), current + Signed(order);
      BudgetIs(nav, weight);
      SharesAre(budget, price, Shares(budget, price));
      NoMoreShares(budget, price, current);
      if policy.Some? {
        forall holding, fee | IsBoughtFor(policy.value, price, current, holding, fee)
          ensures price * holding as real + fee as real <= budget <==> holding <= reached
        {
          FitsIs(policy.value, budget, price, current, holding, fee);
        }
      }
    }
  }

  lemma BudgetIs(nav: real, weight: real)
    ensures Budget(nav, weight) == nav * weight
  {
  }

  lemma NoMoreShares(budget: real, price: real, current: int)
    requires price > 0.0
    ensures Shares(budget, price) <= current <==> budget < (current + 1) as real * price
  {
    var exact := budget / price;
    Compared((current + 1) as real, exact, price, (current + 1) as real * price, budget);
  }

  lemma FitsIs(policy: FeeTaxPolicy, budget: real, price: real, current: int, holding: int, fee: int)
    requires price > 0.0 && IsBoughtFor(policy, price, current, holding, fee)
    ensures Fits(policy, budget, price, current, holding) <==> price * holding as real + fee as real <= budget
  {
    hide IsCommission, FeeTaxPolicy.Fee;
    CommissionIs(policy, Gross(price, holding - current), fee);
  }

  /**
    * `convert`: the order that moves the holding to its target. With a fee policy the holdings above the
    * current one that fit the budget are exactly those up to the target.
    */
  method Convert(policy: Option<FeeTaxPolicy>, weight: real, netAssetValue: real, price: real, current: int,
                 equity: bool)
      returns (r: Result<Option<(Side, int)>, SizingError>)
    requires policy.Some? ==> policy.value.Valid()
    ensures r.Err? <==> weight < 0.0 || netAssetValue <= 0.0 || price <= 0.0 || current < 0 || !equity
    ensures r.Ok? ==> IsSized(policy, Budget(netAssetValue, weight), price, current, r.value)
    ensures r.Ok? ==> Reaches(policy, netAssetValue, weight, price, current, r.value)
  {
    hide Fits, Shares, IsLargestFit, Gross, FeeTaxPolicy.Fee, Budget, Reaches;
    if weight < 0.0 {
      return Err(ShortTarget);
    }
    if netAssetValue <= 0.0 || price <= 0.0 || current < 0 {
      return Err(InvalidInputs);
    }
    if !equity {
      return Err(NotEquity);
    }
    var budget := Budget(netAssetValue, weight);
    var target := Shares(budget, price);
    ghost var shares := target;
    if policy.Some? && target > current {
      while target > current
        invariant current <= target <= shares
        invariant forall t :: target < t <= shares ==> !Fits(policy.value, budget, price, current, t)
      {
        var gross := Gross(price, target - current);
        GrossIsMonotone(price, 0, target - current);
        var costs := policy.value.Costs(Buy, gross);
        FitsIsTheTest(policy.value, budget, price, current, target, costs.value.0);
        if Gross(price, target) + costs.value.0 as real <= budget {
          break;
        }
        target := target - 1;
      }
    }
    if policy.Some? {
      SearchIsMaximal(policy.value, budget, price, current, target);
    }
    var delta := target - current;
    r := Ok(if delta == 0 then None else if delta > 0 then Some((Buy, delta)) else Some((Sell, -delta)));
    SizedReaches(policy, netAssetValue, weight, price, current, r.value);
  }

  lemma FitsIsTheTest(policy: FeeTaxPolicy, budget: real, price: real, current: int, target: int, fee: int)
    requires fee == policy.Fee(Gross(price, target - current))
    ensures Fits(policy, budget, price, current, target) <==> Gross(price, target) + fee as real <= budget
  {
  }

  function Signed(order: Option<(Side, int)>): int {
    if order.None? then 0 else if order.value.0 == Buy then order.value.1 else -order.value.1
  }

  // ---- Fills ----

  function Capacity(policy: FillPolicy, volume: int): int {
    (volume as real * policy.participation).Floor
  }

  /** The five reasons an order stays unfilled for the session. */
  predicate StaysUnfilled(policy: FillPolicy, quantity: int, quote: Quote) {
    || quote.suspended || quote.limitLocked || quote.volume <= 0
    || Capacity(policy, quote.volume) <= 0
    || (Capacity(policy, quote.volume) < quantity && !policy.allowPartial)
  }

  /**
    * No fill exactly for the five reasons; a fill takes what quantity and capacity allow, at the best adverse price
    * and its own cost.
    */
  ghost predicate IsOutcome(fills: FillPolicy, fees: FeeTaxPolicy, intent: IntentId, quote: Quote,
                            outcome: FillOutcome) {
    if StaysUnfilled(fills, intent.quantity, quote) then outcome == FillOutcome(None, intent.quantity)
    else
      && outcome.fill.Some?
      && var fill := outcome.fill.value;
      && fill.Valid()
      && fill.quantity == (if intent.quantity < Capacity(fills, quote.volume) then intent.quantity
                           else Capacity(fills, quote.volume))
      && outcome.unfilled == intent.quantity - fill.quantity
      && (outcome.unfilled > 0 ==> fills.allowPartial)
      && IsBestPrice(intent.side, RawPrice(fills.slippageBps, intent.side, quote.open), fill.price)
      && fees.Costs(intent.side, Gross(fill.price, fill.quantity)) == Ok((fill.fee, fill.tax))
      && fill.fillId == FillId(intent, quote.time, fill.quantity)
      && fill.clientOrder == IntentKey(intent) && fill.instrument == intent.instrument
      && fill.side == intent.side && fill.time == quote.time
  }

  /**
    * The same in plain numbers: a fill takes the order, or the largest whole number of shares within the participation
    * share of the volume when partial fills are allowed, at the commission and tax of its own gross; nothing is filled
    * exactly without trading, with less than one share, or with too few for a whole order.
    */
  ghost predicate TakesWhatFits(fills: FillPolicy, fees: FeeTaxPolicy, intent: IntentId, quote: Quote,
                                outcome: FillOutcome) {
    && (forall share :: share == quote.volume as real * fills.participation ==>
          WithinShare(fills, intent.quantity, quote, outcome, share))
    && (outcome.fill.Some? ==>
          var fill := outcome.fill.value;
          && IsClosestAdverse(intent.side, fills.slippageBps, quote.open, fill.price)
          && forall gross :: gross == fill.price * fill.quantity as real ==>
               CostsItsGross(fees, intent.side, gross, fill))
  }

  predicate WithinShare(fills: FillPolicy, quantity: int, quote: Quote, outcome: FillOutcome, share: real) {
    match outcome.fill
    case None =>
      && outcome.unfilled == quantity
      && (quote.suspended || quote.limitLocked || quote.volume <= 0 || share < 1.0
          || (!fills.allowPartial && share < quantity as real))
    case Some(fill) =>
      && !quote.suspended && !quote.limitLocked && quote.volume > 0
      && 1 <= fill.quantity <= quantity && fill.quantity as real <= share
      && outcome.unfilled == quantity - fill.quantity
      && (fill.quantity == quantity || (fills.allowPartial && share < fill.quantity as real + 1.0))
  }

  predicate CostsItsGross(fees: FeeTaxPolicy, side: Side, gross: real, fill: SimFill) {
    IsCommission(fees, gross, fill.fee) && IsTax(fees, side, gross, fill.tax)
  }

  lemma OutcomeTakesWhatFits(fills: FillPolicy, fees: FeeTaxPolicy, intent: IntentId, quote: Quote,
                             outcome: FillOutcome)
    requires intent.quantity > 0 && IsOutcome(fills, fees, intent, quote, outcome)
    ensures TakesWhatFits(fills, fees, intent, quote, outcome)
  {
    hide IsBestPrice, IsClosestAdverse, RawPrice, WithinShare, CostsItsGross, FeeTaxPolicy.Costs, Capacity, Gross;
    forall share | share == quote.volume as real * fills.participation
      ensures WithinShare(fills, intent.quantity, quote, outcome, share)
    {
      OutcomeIsWithinShare(fills, fees, intent, quote, outcome, share);
    }
    if outcome.fill.Some? {
      var fill := outcome.fill.value;
      BestIsClosest(intent.side, fills.slippageBps, quote.open, fill.price);
      forall gross | gross == fill.price * fill.quantity as real
        ensures CostsItsGross(fees, intent.side, gross, fill)
      {
        CostsAreItsGross(fees, intent.side, gross, fill);
      }
    }
  }

  lemma OutcomeIsWithinShare(fills: FillPolicy, fees: FeeTaxPolicy, intent: IntentId, quote: Quote,
                             outcome: FillOutcome, share: real)
    requires intent.quantity > 0 && IsOutcome(fills, fees, intent, quote, outcome)
    requires share == quote.volume as real * fills.participation
    ensures WithinShare(fills, intent.quantity, quote, outcome, share)
  {
    hide IsBestPrice, RawPrice, FeeTaxPolicy.Costs, Capacity, Gross;
    CapacityIs(fills, quote.volume, share);
    FloorIs(share, Capacity(fills, quote.volume));
  }

  lemma CapacityIs(fills: FillPolicy, volume: int, share: real)
    requires share == volume as real * fills.participation
    ensures Capacity(fills, volume) == share.Floor
  {
  }

  lemma CostsAreItsGross(fees: FeeTaxPolicy, side: Side, gross: real, fill: SimFill)
    requires gross == fill.price * fill.quantity as real
    requires fees.Costs(side, Gross(fill.price, fill.quantity)) == Ok((fill.fee, fill.tax))
    ensures CostsItsGross(fees, side, gross, fill)
  {
    hide FeeTaxPolicy.Costs, IsCommission, IsTax, Gross;
    GrossIs(fill.price, fill.quantity, gross);
    CostsAre(fees, side, gross, fill.fee, fill.tax);
  }

  lemma GrossIs(price: real, quantity: int, gross: real)
    requires gross == price * quantity as real
    ensures Gross(price, quantity) == gross
  {
  }

  /** `simulate`, for the first fill of an order. */
  method Simulate(fills: FillPolicy, fees: FeeTaxPolicy, intent: IntentId, quote: Quote)
      returns (r: Result<FillOutcome, SimulationError>)
    requires fills.Valid() && fees.Valid() && quote.Valid() && intent.quantity > 0
    ensures r.Err? <==>
              || intent.instrument != quote.instrument || quote.time <= intent.decidedAt
              || (!StaysUnfilled(fills, intent.quantity, quote) && intent.side == Sell
                  && RawPrice(fills.slippageBps, intent.side, quote.open) < 0.01)
    ensures r.Err? ==> r.error in {InstrumentsDiffer, FillTooEarly, PriceFailed(LookupNotPositive)}
    ensures r.Ok? ==> IsOutcome(fills, fees, intent, quote, r.value)
    ensures r.Ok? ==> TakesWhatFits(fills, fees, intent, quote, r.value)
  {
    hide TakesWhatFits, IsBestPrice, IsClosestAdverse, OnGrid, Gross, Capacity, RawPrice, FeeTaxPolicy.Costs,
         FeeTaxPolicy.IncrementalCosts;
    if intent.instrument != quote.instrument {
      return Err(InstrumentsDiffer);
    }
    if quote.time <= intent.decidedAt {
      return Err(FillTooEarly);
    }
    if quote.suspended || quote.limitLocked || quote.volume <= 0 {
      OutcomeTakesWhatFits(fills, fees, intent, quote, FillOutcome(None, intent.quantity));
      return Ok(FillOutcome(None, intent.quantity));
    }
    var capacity := Capacity(fills, quote.volume);
    var filled := if intent.quantity < capacity then intent.quantity else capacity;
    if filled <= 0 {
      OutcomeTakesWhatFits(fills, fees, intent, quote, FillOutcome(None, intent.quantity));
      return Ok(FillOutcome(None, intent.quantity));
    }
    if filled < intent.quantity && !fills.allowPartial {
      OutcomeTakesWhatFits(fills, fees, intent, quote, FillOutcome(None, intent.quantity));
      return Ok(FillOutcome(None, intent.quantity));
    }
    var price, _ := EstimatedPrice(fills.slippageBps, intent.side, quote.open);
    if price.Err? {
      return Err(PriceFailed(price.error));
    }
    var gross := Gross(price.value, filled);
    GrossIsMonotone(price.value, 0, filled);
    var costs := fees.IncrementalCosts(intent.side, 0.0, gross, 0);
    CostsOfOneFill(fees, intent.side, gross);
    var (fee, tax) := costs.value;
    var fill := SimFill(FillId(intent, quote.time, filled), IntentKey(intent), intent.instrument, intent.side, filled,
                        price.value, fee, tax, quote.time);
    r := Ok(FillOutcome(Some(fill), intent.quantity - filled));
    OutcomeTakesWhatFits(fills, fees, intent, quote, r.value);
  }

  /** A simulated fill stays within the participation limit of the quoted volume. */
  lemma OutcomeStaysInVolume(fills: FillPolicy, fees: FeeTaxPolicy, intent: IntentId, quote: Quote,
                             outcome: FillOutcome)
    requires IsOutcome(fills, fees, intent, quote, outcome) && outcome.fill.Some?
    ensures outcome.fill.value.quantity as real <= quote.volume as real * fills.participation
    ensures outcome.unfilled >= 0
  {
    hide IsBestPrice, RawPrice, Gross;
  }

  /** The first fill of an order costs what a whole order of its size would. */
  lemma CostsOfOneFill(fees: FeeTaxPolicy, side: Side, gross: real)
    requires fees.Valid() && gross > 0.0
    ensures fees.IncrementalCosts(side, 0.0, gross, 0) == fees.Costs(side, gross)
    ensures fees.Costs(side, gross).Ok?
    ensures fees.Costs(side, gross).value.0 >= 0 && fees.Costs(side, gross).value.1 >= 0
  {
    FeeIsMonotone(fees, 0.0, gross);
    assert gross * fees.sellTaxRate >= 0.0;
  }
}
