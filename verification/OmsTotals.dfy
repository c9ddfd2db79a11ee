/** What reserved cash and inventory come to, row by row: over every run, and in every decision of `queue`. */
module OmsTotals {
  import opened FeeTax
  import opened OmsInvariant
  import opened OmsModel
  import opened OmsReachable
  import opened OmsRuns
  import opened PaperBroker
  import opened PaperRuns
  import opened QueueRetry
  import opened RowSums
  import opened Wrappers

  // ---- Over every run ----

  /** No command of the run presents more cash than the limit. */
  ghost predicate PresentsCash(calls: seq<Call>, limit: real) {
    forall call <- calls :: call.Queue? ==> call.command.availableCash <= limit
  }

  /** No command of the run presents a larger position of the instrument than the limit. */
  ghost predicate PresentsPosition(calls: seq<Call>, instrument: string, limit: int) {
    forall call <- calls ::
      call.Queue? && call.command.instrument == instrument ==> call.command.availablePosition <= limit
  }

  lemma {:induction false} MaxIsWithin(calls: seq<Call>, instrument: string, cash: real, position: int)
    ensures cash >= 0.0 && PresentsCash(calls, cash) ==> MaxCash(calls) <= cash
    ensures position >= 0 && PresentsPosition(calls, instrument, position) ==>
              MaxPosition(calls, instrument) <= position
  {
    if calls != [] {
      assert forall call <- calls[..|calls| - 1] :: call in calls;
      assert calls[|calls| - 1] in calls;
      MaxIsWithin(calls[..|calls| - 1], instrument, cash, position);
    }
  }

  /** In a sound database, listed active reservations come to at most the reserved totals. */
  lemma ListedFits(db: Db, instrument: string, buys: seq<OrderId>, sells: seq<OrderId>)
    requires Inv(db) && ActiveBuys(db.reservations, buys) && ActiveSells(db.reservations, instrument, sells)
    ensures CashSum(db.reservations, buys) <= ReservedCash(db)
    ensures QuantitySum(db.reservations, sells) as real <= ReservedSell(db, instrument)
  {
    hide Inv;
    forall id | id in db.reservations
      ensures CashOf(id, db.reservations[id]) >= 0.0 && SellOf(instrument)(id, db.reservations[id]) >= 0.0
    {
      ReservationFacts(db, id);
    }
    CashIsReserved(db.reservations, buys);
    QuantityIsReserved(db.reservations, instrument, sells);
  }

  /**
    * Over every run, with crashes: however active buy reservations are listed, their cash comes to at most any limit
    * on the cash the commands presented; and likewise the shares of active sells of an instrument.
    */
  lemma ReservationsFit(fees: FeeTaxPolicy, calls: seq<Call>, instrument: string, buys: seq<OrderId>,
                        sells: seq<OrderId>, cash: real, position: int)
    requires fees.Valid() && forall call :: call in calls ==> PaperCall(call)
    requires ActiveBuys(Run(fees, calls).reservations, buys)
    requires ActiveSells(Run(fees, calls).reservations, instrument, sells)
    ensures cash >= 0.0 && PresentsCash(calls, cash) ==> CashSum(Run(fees, calls).reservations, buys) <= cash
    ensures position >= 0 && PresentsPosition(calls, instrument, position) ==>
              QuantitySum(Run(fees, calls).reservations, sells) <= position
  {
    hide Inv, Run, PaperCall, ReservedCash, ReservedSell, PresentsCash, PresentsPosition;
    RunIsSafe(fees, calls);
    MaxIsWithin(calls, instrument, cash, position);
    ListedFits(Run(fees, calls), instrument, buys, sells);
  }

  /** The same over every run against one paper broker, with any participation cap. */
  lemma PaperReservationsFit(fees: FeeTaxPolicy, calls: seq<Call>, market: map<string, MarketEvent>, p: BrokerPolicy,
                             instrument: string, buys: seq<OrderId>, sells: seq<OrderId>, cash: real, position: int)
    requires fees.Valid() && AgainstPaper(calls, market, p)
    requires ActiveBuys(Run(fees, calls).reservations, buys)
    requires ActiveSells(Run(fees, calls).reservations, instrument, sells)
    ensures cash >= 0.0 && PresentsCash(calls, cash) ==> CashSum(Run(fees, calls).reservations, buys) <= cash
    ensures position >= 0 && PresentsPosition(calls, instrument, position) ==>
              QuantitySum(Run(fees, calls).reservations, sells) <= position
  {
    hide Inv, Run, AgainstPaper, ReservedCash, ReservedSell, PresentsCash, PresentsPosition;
    PaperRunIsSafe(fees, calls, market, p);
    MaxIsWithin(calls, instrument, cash, position);
    ListedFits(Run(fees, calls), instrument, buys, sells);
  }

  // ---- In every decision ----

  /** A buy costs its price, its commission and its tax. */
  lemma RequiredIs(fees: FeeTaxPolicy, c: Command, fee: int, tax: int)
    requires var gross := c.estimatedPrice * c.quantity as real;
             gross > 0.0 && IsCommission(fees, gross, fee) && IsTax(fees, c.side, gross, tax)
    ensures Required(fees, c) == Ok(c.estimatedPrice * c.quantity as real + fee as real + tax as real)
  {
    hide IsCommission, IsTax, FeeTaxPolicy.Costs;
    CostsAre(fees, c.side, c.estimatedPrice * c.quantity as real, fee, tax);
  }

  /** A command is priced exactly when what it would cost before commission and tax is positive. */
  lemma PricedIffPositive(fees: FeeTaxPolicy, c: Command)
    ensures Required(fees, c).Ok? <==> c.estimatedPrice * c.quantity as real > 0.0
  {
    hide FeeTaxPolicy.Fee, FeeTaxPolicy.Tax;
  }

  /** A new command that cannot be priced stays parked before its risk decision, and reserves nothing. */
  lemma UnpricedIsParked(db: Db, fees: FeeTaxPolicy, c: Command)
    requires Inv(db) && Creates(db, c) && c.estimatedPrice * c.quantity as real <= 0.0
    ensures var after := Queued(db, fees, c, 4).db;
      && c.Id() in after.orders && after.orders[c.Id()].state == RiskPending && after.reservations == db.reservations
  {
    hide Inv, Creates, Queued, Required;
    QueueStages(db, fees, c, 4);
    PricedIffPositive(fees, c);
  }

  /**
    * A new buy is approved, and reserves its whole cost, exactly when that cost and the cash of all active buy
    * reservations fit the cash it presents; otherwise it is rejected and reserves nothing.
    */
  lemma BuyIsApprovedIffItFits(db: Db, fees: FeeTaxPolicy, c: Command, buys: seq<OrderId>, fee: int)
    requires Inv(db) && Creates(db, c) && c.side == Buy && AllActiveBuys(db.reservations, buys)
    requires var gross := c.estimatedPrice * c.quantity as real; gross > 0.0 && IsCommission(fees, gross, fee)
    ensures var after := Queued(db, fees, c, 4).db;
      var cost := c.estimatedPrice * c.quantity as real + fee as real;
      && c.Id() in after.orders
      && if cost + CashSum(db.reservations, buys) <= c.availableCash
         then after.orders[c.Id()].state == SubmitPending
              && after.reservations == db.reservations[c.Id() := Reservation(cost, c.quantity, c.quantity, true, cost)]
         else after.orders[c.Id()].state == RiskRejected && after.reservations == db.reservations
  {
    hide Inv, Creates, Queued, IsCommission, OnceEach, Required;
    QueueStages(db, fees, c, 4);
    RequiredIs(fees, c, fee, 0);
    CashIsReserved(db.reservations, buys);
  }

  /**
    * A new sale is approved, and reserves its shares, exactly when these and the shares of all active sell reservations
    * of the instrument fit the position it presents.
    */
  lemma SaleIsApprovedIffItFits(db: Db, fees: FeeTaxPolicy, c: Command, sells: seq<OrderId>)
    requires Inv(db) && Creates(db, c) && c.side == Sell && AllActiveSells(db.reservations, c.instrument, sells)
    requires c.estimatedPrice * c.quantity as real > 0.0
    ensures var after := Queued(db, fees, c, 4).db;
      && c.Id() in after.orders
      && if c.quantity + QuantitySum(db.reservations, sells) <= c.availablePosition
         then after.orders[c.Id()].state == SubmitPending
              && after.reservations == db.reservations[c.Id() := Reservation(0.0, c.quantity, c.quantity, true, 0.0)]
         else after.orders[c.Id()].state == RiskRejected && after.reservations == db.reservations
  {
    hide Inv, Creates, Queued, OnceEach, Required;
    QueueStages(db, fees, c, 4);
    PricedIffPositive(fees, c);
    QuantityIsReserved(db.reservations, c.instrument, sells);
  }
}
