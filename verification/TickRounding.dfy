/** Adverse, tick-rounded execution prices over the shipped price bands. */
module TickRounding {
  import opened FeeTax
  import opened Wrappers

  datatype PriceError = LookupNotPositive | RoundedNotPositive | BuyImproves | SellImproves | NotConverged

  /** `TickSizePolicy.bands`, in hundredths of the currency unit. */
  function BandCents(price: real): (cents: int)
    ensures cents > 0
  {
    if price < 10.0 then 1
    else if price < 50.0 then 5
    else if price < 100.0 then 10
    else if price < 500.0 then 50
    else if price < 1000.0 then 100
    else 500
  }

  function Band(price: real): (tick: real)
    ensures tick > 0.0
  {
    BandCents(price) as real / 100.0
  }

  function Tick(price: real): Result<real, PriceError> {
    if price <= 0.0 then Err(LookupNotPositive) else Ok(Band(price))
  }

  /** A number of ticks, as a price. */
  function InTicks(k: int, tick: real): real {
    k as real * tick
  }

  /** `to_integral_value` of a price in ticks: up for a buyer, down for a seller. */
  function Units(side: Side, price: real, tick: real): int
    requires tick > 0.0
  {
    if side == Buy then Ceiling(price / tick) else (price / tick).Floor
  }

  function RoundTo(side: Side, price: real, tick: real): real
    requires tick > 0.0
  {
    InTicks(Units(side, price, tick), tick)
  }

  /** A price the exchange would accept: a whole number of the ticks of its own band. */
  predicate OnGrid(price: real) {
    price > 0.0 && InTicks(Units(Sell, price, Band(price)), Band(price)) == price
  }

  /** The cheapest acceptable price that is no better than `raw` for a buyer; the dearest for a seller. */
  ghost predicate IsBestPrice(side: Side, raw: real, price: real) {
    && OnGrid(price)
    && (side == Buy ==> raw <= price && forall other :: OnGrid(other) && raw <= other ==> price <= other)
    && (side == Sell ==> price <= raw && forall other :: OnGrid(other) && other <= raw ==> other <= price)
  }

  function RawPrice(slippageBps: real, side: Side, open: real): real {
    var slip := slippageBps / 10000.0;
    open * (if side == Buy then 1.0 + slip else 1.0 - slip)
  }

  // ---- The schedule and the slippage in plain numbers ----

  predicate IsWhole(x: real) {
    x == x.Floor as real
  }

  /** Whole hundredths below ten, then steps of 0.05 to fifty, 0.1 to a hundred, 0.5, 1 and, from a thousand, 5. */
  function StepsPerUnit(price: real): real {
    if price < 10.0 then 100.0
    else if price < 50.0 then 20.0
    else if price < 100.0 then 10.0
    else if price < 500.0 then 2.0
    else if price < 1000.0 then 1.0
    else 0.2
  }

  predicate IsScheduled(price: real) {
    price > 0.0 && forall steps :: steps == price * StepsPerUnit(price) ==> IsWhole(steps)
  }

  /** At least the slippage worse than the open: higher for a buyer, lower for a seller. */
  predicate IsAdverse(side: Side, slippageBps: real, open: real, price: real) {
    if side == Buy then price * 10000.0 >= open * (10000.0 + slippageBps)
    else price * 10000.0 <= open * (10000.0 - slippageBps)
  }

  /** The scheduled price closest to the open among those adverse by the slippage. */
  ghost predicate IsClosestAdverse(side: Side, slippageBps: real, open: real, price: real) {
    && IsScheduled(price) && IsAdverse(side, slippageBps, open, price)
    && forall other :: IsScheduled(other) && IsAdverse(side, slippageBps, open, other) ==>
         if side == Buy then price <= other else other <= price
  }

  lemma OwnStep(price: real)
    ensures StepsPerUnit(price) * Band(price) == 1.0
  {
  }

  lemma GridIsSchedule(price: real)
    ensures OnGrid(price) <==> IsScheduled(price)
  {
    hide OnGrid, IsScheduled, IsWhole, Band, StepsPerUnit, Units;
    var tick, steps := Band(price), price * StepsPerUnit(price);
    OwnStep(price);
    Inverse(price, StepsPerUnit(price), tick, steps);
    OnGridIs(price, tick, steps);
    ScheduledIs(price, steps);
  }

  lemma ScheduledIs(price: real, steps: real)
    requires steps == price * StepsPerUnit(price)
    ensures IsScheduled(price) <==> price > 0.0 && IsWhole(steps)
  {
    hide StepsPerUnit, IsWhole;
  }

  lemma OnGridIs(price: real, tick: real, steps: real)
    requires tick == Band(price) && steps * tick == price
    ensures OnGrid(price) <==> price > 0.0 && IsWhole(steps)
  {
    hide Units, Band;
    UnitsIs(price, tick, steps);
    Compare(steps, steps.Floor, price, tick);
  }

  lemma Inverse(price: real, perUnit: real, tick: real, steps: real)
    requires perUnit * tick == 1.0 && steps == price * perUnit
    ensures steps * tick == price
  {
    assert price * perUnit * tick == price * (perUnit * tick);
  }

  lemma UnitsIs(price: real, tick: real, steps: real)
    requires tick > 0.0 && steps * tick == price
    ensures Units(Sell, price, tick) == steps.Floor
  {
    assert price / tick == steps;
  }

  lemma RawIsSlippage(side: Side, slippageBps: real, open: real, price: real)
    ensures IsAdverse(side, slippageBps, open, price) <==>
              if side == Buy then RawPrice(slippageBps, side, open) <= price
              else price <= RawPrice(slippageBps, side, open)
  {
    var slip := slippageBps / 10000.0;
    assert slippageBps == slip * 10000.0;
    var moved := open * slip;
    assert open * slippageBps == moved * 10000.0;
    assert RawPrice(slippageBps, side, open) == if side == Buy then open + moved else open - moved;
    assert open * (10000.0 + slippageBps) == (open + moved) * 10000.0;
    assert open * (10000.0 - slippageBps) == (open - moved) * 10000.0;
  }

  /** The best adverse price on the grid is the closest one of the schedule. */
  lemma BestIsClosest(side: Side, slippageBps: real, open: real, price: real)
    ensures IsBestPrice(side, RawPrice(slippageBps, side, open), price) <==>
              IsClosestAdverse(side, slippageBps, open, price)
  {
    hide OnGrid, IsScheduled, RawPrice, IsAdverse;
    forall other
      ensures OnGrid(other) <==> IsScheduled(other)
      ensures IsAdverse(side, slippageBps, open, other) <==>
                if side == Buy then RawPrice(slippageBps, side, open) <= other
                else other <= RawPrice(slippageBps, side, open)
    {
      GridIsSchedule(other);
      RawIsSlippage(side, slippageBps, open, other);
    }
  }

  // ---- Whole ticks ----

  lemma StrictProducts(a: real, b: real, tick: real)
    requires a < b && tick > 0.0
    ensures a * tick < b * tick
  {
    assert (b - a) * tick > 0.0;
  }

  /** Comparing a price with a whole number of ticks is comparing the number of ticks. */
  lemma Compare(q: real, k: int, price: real, tick: real)
    requires tick > 0.0 && price == q * tick
    ensures q < k as real ==> price < InTicks(k, tick)
    ensures q > k as real ==> price > InTicks(k, tick)
    ensures q == k as real ==> price == InTicks(k, tick)
  {
    if q < k as real {
      StrictProducts(q, k as real, tick);
    } else if q > k as real {
      StrictProducts(k as real, q, tick);
    }
  }

  lemma OrderedTicks(a: int, b: int, tick: real)
    requires tick > 0.0
    ensures a <= b <==> InTicks(a, tick) <= InTicks(b, tick)
    ensures InTicks(0, tick) == 0.0 && InTicks(1, tick) == tick
  {
    var first := InTicks(a, tick);
    assert first == a as real * tick;
    Compare(a as real, b, first, tick);
  }

  lemma PreviousTick(k: int, tick: real)
    ensures InTicks(k - 1, tick) == InTicks(k, tick) - tick
  {
  }

  /** A price lies between the whole ticks it rounds down and up to, which are a tick apart. */
  lemma Rounding(price: real, tick: real)
    requires tick > 0.0
    ensures InTicks(Units(Sell, price, tick), tick) <= price < InTicks(Units(Sell, price, tick) + 1, tick)
    ensures InTicks(Units(Buy, price, tick) - 1, tick) < price <= InTicks(Units(Buy, price, tick), tick)
  {
    hide InTicks;
    var q := price / tick;
    assert q * tick == price;
    Compare(q, q.Floor, price, tick);
    Compare(q, q.Floor + 1, price, tick);
    Compare(q, Ceiling(q), price, tick);
    Compare(q, Ceiling(q) - 1, price, tick);
  }

  /** Rounding is the only whole number of ticks in its place. */
  lemma UnitsAre(price: real, tick: real, k: int)
    requires tick > 0.0
    ensures InTicks(k, tick) <= price < InTicks(k + 1, tick) ==> Units(Sell, price, tick) == k
    ensures InTicks(k - 1, tick) < price <= InTicks(k, tick) ==> Units(Buy, price, tick) == k
  {
    hide Units, InTicks;
    Rounding(price, tick);
    var down, up := Units(Sell, price, tick), Units(Buy, price, tick);
    OrderedTicks(k, down, tick);
    OrderedTicks(down + 1, k, tick);
    OrderedTicks(k + 1, down, tick);
    OrderedTicks(k, up - 1, tick);
    OrderedTicks(up, k - 1, tick);
  }

  lemma WholeIsOnGrid(price: real, k: int)
    requires price > 0.0 && price == InTicks(k, Band(price))
    ensures OnGrid(price)
  {
    hide Units, InTicks, Band;
    OrderedTicks(k + 1, k, Band(price));
    UnitsAre(price, Band(price), k);
  }

  // ---- Bands ----

  /** Each band's tick divides every dearer band's tick. */
  lemma TicksAreNested(raw: real, other: real, k: int)
    requires raw <= other
    ensures BandCents(other) % BandCents(raw) == 0
    ensures InTicks(k, Band(other)) == InTicks(k * (BandCents(other) / BandCents(raw)), Band(raw))
  {
    var ratio := BandCents(other) / BandCents(raw);
    Multiples(BandCents(other), ratio, BandCents(raw), k);
  }

  lemma Multiples(a: int, ratio: int, b: int, k: int)
    requires a == ratio * b
    ensures k as real * (a as real / 100.0) == (k * ratio) as real * (b as real / 100.0)
  {
    assert k * a == k * ratio * b;
    assert (k * a) as real == k as real * a as real;
    assert (k * ratio * b) as real == (k * ratio) as real * b as real;
  }

  /** The price at which a band starts, and the one at which the next starts. */
  function BandStart(price: real): int {
    if price < 10.0 then 0 else if price < 50.0 then 10 else if price < 100.0 then 50
    else if price < 500.0 then 100 else if price < 1000.0 then 500 else 1000
  }

  function BandEnd(price: real): Option<int> {
    if price < 10.0 then Some(10) else if price < 50.0 then Some(50) else if price < 100.0 then Some(100)
    else if price < 500.0 then Some(500) else if price < 1000.0 then Some(1000) else None
  }

  lemma BandIs(raw: real, price: real)
    requires raw > 0.0
    ensures BandStart(raw) as real <= raw && (BandEnd(raw).Some? ==> raw < BandEnd(raw).value as real)
    ensures BandStart(raw) as real <= price && (BandEnd(raw).Some? ==> price < BandEnd(raw).value as real) ==>
              Band(price) == Band(raw)
  {
  }

  /** Both ends of a band are whole in its ticks, and its end is whole in the next band's ticks. */
  lemma StartIsWhole(raw: real)
    requires raw > 0.0
    ensures InTicks(BandStart(raw) * 100 / BandCents(raw), Band(raw)) == BandStart(raw) as real
  {
  }

  lemma EndIsWhole(raw: real)
    requires raw > 0.0 && BandEnd(raw).Some?
    ensures var end := BandEnd(raw).value;
      end > 0 && InTicks(end * 100 / BandCents(raw), Band(raw)) == end as real && Band(raw) < Band(end as real)
  {
  }

  lemma EndIsWholeAbove(raw: real)
    requires raw > 0.0 && BandEnd(raw).Some?
    ensures var end := BandEnd(raw).value;
      InTicks(end * 100 / BandCents(end as real), Band(end as real)) == end as real
  {
  }

  /** A buyer's price rounds up inside its band, or exactly onto the start of the next band. */
  lemma BuyRounding(raw: real)
    requires raw > 0.0
    ensures var rounded := RoundTo(Buy, raw, Band(raw));
      && raw <= rounded && OnGrid(rounded)
      && (Band(rounded) != Band(raw) ==> RoundTo(Buy, raw, Band(rounded)) == rounded)
  {
    hide Units, InTicks, Band, BandCents, BandStart, BandEnd, OnGrid;
    var tick := Band(raw);
    var n := Units(Buy, raw, tick);
    var rounded := InTicks(n, tick);
    Rounding(raw, tick);
    BandIs(raw, rounded);
    if BandEnd(raw).Some? && rounded >= BandEnd(raw).value as real {
      EndIsWhole(raw);
      EndIsWholeAbove(raw);
      var end := BandEnd(raw).value;
      var whole := end * 100 / BandCents(raw);
      OrderedTicks(whole, n - 1, tick);
      OrderedTicks(n, whole, tick);
      assert rounded == end as real;
      var next := Band(end as real);
      var k := end * 100 / BandCents(end as real);
      WholeIsOnGrid(rounded, k);
      PreviousTick(n, tick);
      PreviousTick(k, next);
      UnitsAre(raw, next, k);
    } else {
      WholeIsOnGrid(rounded, n);
    }
  }

  /** A seller's price of at least one cent rounds down inside its band. */
  lemma SellRounding(raw: real)
    requires raw > 0.0
    ensures var rounded := RoundTo(Sell, raw, Band(raw));
      && rounded <= raw
      && (rounded > 0.0 <==> raw >= 0.01)
      && (raw >= 0.01 ==> Band(rounded) == Band(raw) && OnGrid(rounded) && BandStart(raw) as real <= rounded)
  {
    hide Units, InTicks, Band, BandCents, BandStart, BandEnd, OnGrid;
    var tick := Band(raw);
    var n := Units(Sell, raw, tick);
    var rounded := InTicks(n, tick);
    Rounding(raw, tick);
    StartIsWhole(raw);
    OrderedTicks(n + 1, BandStart(raw) * 100 / BandCents(raw), tick);
    OrderedTicks(BandStart(raw) * 100 / BandCents(raw), n, tick);
    BandIs(raw, rounded);
    SmallestTick(raw);
    OrderedTicks(n + 1, 1, tick);
    OrderedTicks(1, n, tick);
    OrderedTicks(n, 0, tick);
    if raw >= 0.01 {
      WholeIsOnGrid(rounded, n);
    }
  }

  lemma SmallestTick(raw: real)
    requires raw > 0.0
    ensures BandStart(raw) >= 0 && (BandStart(raw) == 0 ==> Band(raw) == 0.01) && (BandStart(raw) > 0 ==> raw >= 0.01)
  {
  }

  lemma BuyIsBest(raw: real, other: real)
    requires raw > 0.0 && OnGrid(other) && raw <= other
    ensures RoundTo(Buy, raw, Band(raw)) <= other
  {
    hide Units, InTicks, Band, BandCents;
    var k := Units(Sell, other, Band(other));
    var j := k * (BandCents(other) / BandCents(raw));
    var n := Units(Buy, raw, Band(raw));
    TicksAreNested(raw, other, k);
    Rounding(raw, Band(raw));
    OrderedTicks(j, n - 1, Band(raw));
    OrderedTicks(n, j, Band(raw));
  }

  lemma SellIsBest(raw: real, other: real)
    requires raw >= 0.01 && OnGrid(other) && other <= raw
    ensures other <= RoundTo(Sell, raw, Band(raw))
  {
    hide Units, InTicks, Band, BandCents, BandStart, BandEnd;
    var tick := Band(raw);
    SellRounding(raw);
    if other >= BandStart(raw) as real {
      BandIs(raw, other);
      var k := Units(Sell, other, tick);
      var n := Units(Sell, raw, tick);
      Rounding(raw, tick);
      OrderedTicks(n + 1, k, tick);
      OrderedTicks(k, n, tick);
    }
  }

  /** The rounded price is the best acceptable one on the adverse side. */
  lemma RoundedIsBest(side: Side, raw: real)
    requires raw > 0.0 && RoundTo(side, raw, Band(raw)) > 0.0
    ensures IsBestPrice(side, raw, RoundTo(side, raw, Band(raw)))
  {
    hide OnGrid, RoundTo;
    if side == Buy {
      BuyRounding(raw);
      forall other | OnGrid(other) && raw <= other
        ensures RoundTo(Buy, raw, Band(raw)) <= other
      {
        BuyIsBest(raw, other);
      }
    } else {
      SellRounding(raw);
      forall other | OnGrid(other) && other <= raw
        ensures other <= RoundTo(Sell, raw, Band(raw))
      {
        SellIsBest(raw, other);
      }
    }
  }

  lemma RawIsAdverse(slippageBps: real, side: Side, open: real)
    requires slippageBps >= 0.0 && open > 0.0
    ensures side == Buy ==> RawPrice(slippageBps, side, open) >= open
    ensures side == Sell ==> RawPrice(slippageBps, side, open) <= open
  {
    assert open * (slippageBps / 10000.0) >= 0.0;
  }

  /** The price after some passes of the loop: rounded in the tick of the price before. */
  function Candidate(side: Side, raw: real, passes: nat): real {
    if passes == 0 then raw else RoundTo(side, raw, Band(Candidate(side, raw, passes - 1)))
  }

  /** A pass keeps the tick it rounds in. */
  predicate Settles(side: Side, raw: real, pass: nat) {
    Band(Candidate(side, raw, pass + 1)) == Band(Candidate(side, raw, pass))
  }

  /** The tick no longer changes after the second pass; a seller's not even after the first. */
  lemma SettlesByTheSecond(side: Side, raw: real)
    requires raw > 0.0 && (side == Sell ==> raw >= 0.01)
    ensures Settles(side, raw, 0) || (side == Buy && Settles(side, raw, 1))
    ensures Candidate(side, raw, 2) == Candidate(side, raw, 1)
  {
    hide RoundTo, OnGrid;
    if side == Buy { BuyRounding(raw); } else { SellRounding(raw); }
  }

  /**
    * `estimated_price`. The only refusal is a sale whose raw price is below the smallest tick; the other errors cannot
    * happen. The price is that of the first pass that keeps its tick, which is the first or the second.
    */
  method EstimatedPrice(slippageBps: real, side: Side, open: real)
      returns (r: Result<real, PriceError>, ghost passes: nat)
    requires slippageBps >= 0.0 && open > 0.0
    ensures r.Ok? <==> side == Buy || RawPrice(slippageBps, side, open) >= 0.01
    ensures r.Ok? <==> side == Buy || IsAdverse(Sell, slippageBps, open, 0.01)
    ensures r.Ok? ==> IsBestPrice(side, RawPrice(slippageBps, side, open), r.value)
    ensures r.Ok? ==> IsClosestAdverse(side, slippageBps, open, r.value)
    ensures r.Ok? ==> r.value > 0.0 && if side == Buy then r.value >= open else r.value <= open
    ensures r.Ok? ==>
              var raw := RawPrice(slippageBps, side, open);
              && 1 <= passes <= 2 && r.value == Candidate(side, raw, passes) && Settles(side, raw, passes - 1)
              && (passes == 2 ==> !Settles(side, raw, 0))
    ensures r.Err? ==> r.error == LookupNotPositive
    ensures passes <= 2
  {
    hide IsBestPrice, OnGrid, RoundTo, Band, RawPrice, IsClosestAdverse, IsAdverse;
    RawIsSlippage(side, slippageBps, open, 0.01);
    var raw := RawPrice(slippageBps, side, open);
    RawIsAdverse(slippageBps, side, open);
    ghost var first := if raw > 0.0 then RoundTo(side, raw, Band(raw)) else 0.0;
    if raw > 0.0 {
      if side == Buy { BuyRounding(raw); } else { SellRounding(raw); }
      if first > 0.0 { RoundedIsBest(side, raw); }
    }
    var candidate := raw;
    passes := 0;
    for pass := 0 to 3
      invariant pass == passes <= 1
      invariant candidate == Candidate(side, raw, pass) && (pass == 1 ==> !Settles(side, raw, 0))
      invariant pass == 0 ==> candidate == raw
      invariant pass == 1 ==> side == Buy && candidate == first && raw > 0.0 && first >= raw && Band(first) != Band(raw)
    {
      passes := passes + 1;
      var lookup := Tick(candidate);
      if lookup.Err? {
        return lookup, passes;
      }
      var tick := lookup.value;
      var rounded := RoundTo(side, raw, tick);
      assert rounded == first && rounded == Candidate(side, raw, pass + 1);
      var again := Tick(rounded);
      if again.Err? {
        return again, passes;
      }
      if again.value == tick {
        if rounded <= 0.0 {
          return Err(RoundedNotPositive), passes;
        }
        if side == Buy && rounded < open {
          return Err(BuyImproves), passes;
        }
        if side == Sell && rounded > open {
          return Err(SellImproves), passes;
        }
        BestIsClosest(side, slippageBps, open, rounded);
        return Ok(rounded), passes;
      }
      candidate := rounded;
    }
    r := Err(NotConverged);
  }
}
