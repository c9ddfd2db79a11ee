/** The costs the paper account charges fill by fill, and what they come to over an order. */
module Accounting {
  import opened FeeTax
  import opened Simulation
  import opened Wrappers

  datatype Order = Order(id: int, side: Side)

  /** One row of `fills_with_orders`. */
  datatype FillRow = FillRow(order: Order, quantity: int, price: real)

  /** Fee and tax charged for one fill. */
  datatype Charge = Charge(fee: int, tax: int)

  predicate AllPositive(rows: seq<FillRow>) {
    forall row <- rows :: row.quantity > 0 && row.price > 0.0
  }

  function RowGross(row: FillRow): real {
    Gross(row.price, row.quantity)
  }

  /** The whole gross of an order, and how many fills it came in. */
  function OrderGross(rows: seq<FillRow>, order: Order): real {
    if rows == [] then 0.0
    else
      var last := rows[|rows| - 1];
      OrderGross(rows[..|rows| - 1], order) + if last.order == order then RowGross(last) else 0.0
  }

  function OrderFills(rows: seq<FillRow>, order: Order): nat {
    if rows == [] then 0
    else OrderFills(rows[..|rows| - 1], order) + if rows[|rows| - 1].order == order then 1 else 0
  }

  function OrderFees(rows: seq<FillRow>, charges: seq<Charge>, order: Order): int
    requires |rows| == |charges|
  {
    if rows == [] then 0
    else
      var n := |rows| - 1;
      OrderFees(rows[..n], charges[..n], order) + if rows[n].order == order then charges[n].fee else 0
  }

  function OrderTaxes(rows: seq<FillRow>, charges: seq<Charge>, order: Order): int
    requires |rows| == |charges|
  {
    if rows == [] then 0
    else
      var n := |rows| - 1;
      OrderTaxes(rows[..n], charges[..n], order) + if rows[n].order == order then charges[n].tax else 0
  }

  /**
    * What the charges of one order come to: exactly the fee of one fill of the whole order, and its tax less
    * a rounding shortfall below the number of fills.
    */
  predicate Telescopes(policy: FeeTaxPolicy, rows: seq<FillRow>, charges: seq<Charge>, order: Order)
    requires |rows| == |charges|
  {
    if OrderFills(rows, order) == 0 then
      OrderGross(rows, order) == 0.0 && OrderFees(rows, charges, order) == 0 && OrderTaxes(rows, charges, order) == 0
    else
      var gross := OrderGross(rows, order);
      && gross > 0.0
      && OrderFees(rows, charges, order) == policy.Fee(gross)
      && OrderTaxes(rows, charges, order) <= policy.Tax(order.side, gross) <= OrderTaxes(rows, charges,
         order) + OrderFills(rows, order) - 1
  }

  /** Rounding down twice loses at most one unit more than rounding the sum down. */
  lemma TaxSplits(policy: FeeTaxPolicy, side: Side, a: real, b: real)
    requires policy.Valid() && a >= 0.0 && b >= 0.0
    ensures 0 <= policy.Tax(side, a)
    ensures policy.Tax(side, a) + policy.Tax(side, b) <= policy.Tax(side, a + b) <= policy.Tax(side,
            a) + policy.Tax(side, b) + 1
  {
    var rate := policy.sellTaxRate;
    var x, y := a * rate, b * rate;
    assert (a + b) * rate == x + y;
    assert x >= 0.0;
  }

  /** The sums of one more row. */
  lemma SumsExtend(rows: seq<FillRow>, charges: seq<Charge>, row: FillRow, charge: Charge, order: Order)
    requires |rows| == |charges|
    ensures var all, allCharges := rows + [row], charges + [charge];
      if row.order == order then
        && OrderGross(all, order) == OrderGross(rows, order) + RowGross(row)
        && OrderFills(all, order) == OrderFills(rows, order) + 1
        && OrderFees(all, allCharges, order) == OrderFees(rows, charges, order) + charge.fee
        && OrderTaxes(all, allCharges, order) == OrderTaxes(rows, charges, order) + charge.tax
      else
        && OrderGross(all, order) == OrderGross(rows, order)
        && OrderFills(all, order) == OrderFills(rows, order)
        && OrderFees(all, allCharges, order) == OrderFees(rows, charges, order)
        && OrderTaxes(all, allCharges, order) == OrderTaxes(rows, charges, order)
  {
    assert (rows + [row])[..|rows|] == rows && (charges + [charge])[..|rows|] == charges;
  }

  /** One more fill of an order that telescopes, charged the increment, telescopes again. */
  lemma OneMoreFill(policy: FeeTaxPolicy, rows: seq<FillRow>, charges: seq<Charge>, row: FillRow, charge: Charge,
                    order: Order)
    requires policy.Valid() && |rows| == |charges| && row.quantity > 0 && row.price > 0.0
    requires Telescopes(policy, rows, charges, order)
    requires row.order == order ==>
               policy.IncrementalCosts(order.side, OrderGross(rows, order), RowGross(row),
                                       OrderFees(rows, charges, order)) == Ok((charge.fee, charge.tax))
    ensures Telescopes(policy, rows + [row], charges + [charge], order)
    ensures row.order == order ==> charge.fee >= 0 && 0 <= charge.tax == policy.Tax(order.side, RowGross(row))
  {
    hide FeeTaxPolicy.Fee, FeeTaxPolicy.Tax, OrderGross, OrderFills, OrderFees, OrderTaxes, Gross;
    SumsExtend(rows, charges, row, charge, order);
    if row.order == order {
      GrossIsMonotone(row.price, 0, row.quantity);
      TaxSplits(policy, order.side, OrderGross(rows, order), RowGross(row));
      TaxSplits(policy, order.side, RowGross(row), 0.0);
    }
  }

  /** The increment can always be charged: the fee of more is never less than what was charged so far. */
  lemma IncrementExists(policy: FeeTaxPolicy, rows: seq<FillRow>, charges: seq<Charge>, row: FillRow)
    requires policy.Valid() && |rows| == |charges| && row.quantity > 0 && row.price > 0.0
    requires Telescopes(policy, rows, charges, row.order)
    ensures policy.IncrementalCosts(row.order.side, OrderGross(rows, row.order), RowGross(row),
                                    OrderFees(rows, charges, row.order)).Ok?
  {
    hide FeeTaxPolicy.Fee, FeeTaxPolicy.Tax;
    var before := OrderGross(rows, row.order);
    GrossIsMonotone(row.price, 0, row.quantity);
    FeeIsMonotone(policy, before, before + RowGross(row));
  }

  /** The two dictionaries hold every order's gross and fee so far. */
  ghost predicate Tracks(grossOf: map<Order, real>, feeOf: map<Order, int>, rows: seq<FillRow>, charges: seq<Charge>)
    requires |rows| == |charges|
  {
    forall order: Order ::
      && Get(grossOf, order, 0.0) == OrderGross(rows, order)
      && Get(feeOf, order, 0) == OrderFees(rows, charges, order)
  }

  function Get<T>(m: map<Order, T>, order: Order, default: T): T {
    if order in m then m[order] else default
  }

  lemma TracksNext(grossOf: map<Order, real>, feeOf: map<Order, int>, rows: seq<FillRow>, charges: seq<Charge>,
                   row: FillRow, charge: Charge)
    requires |rows| == |charges| && Tracks(grossOf, feeOf, rows, charges)
    ensures Tracks(grossOf[row.order := Get(grossOf, row.order, 0.0) + RowGross(row)],
                   feeOf[row.order := Get(feeOf, row.order, 0) + charge.fee], rows + [row], charges + [charge])
  {
    hide OrderGross, OrderFees, OrderTaxes, OrderFills, RowGross;
    var all, allCharges := rows + [row], charges + [charge];
    var grossAfter := grossOf[row.order := Get(grossOf, row.order, 0.0) + RowGross(row)];
    var feeAfter := feeOf[row.order := Get(feeOf, row.order, 0) + charge.fee];
    forall order: Order
      ensures Get(grossAfter, order, 0.0) == OrderGross(all, order)
              && Get(feeAfter, order, 0) == OrderFees(all, allCharges, order)
    {
      SumsExtend(rows, charges, row, charge, order);
      assert Get(grossOf, order, 0.0) == OrderGross(rows, order);
    }
  }

  /** Every charge is non-negative and taxes its own fill, and the charges of every order telescope. */
  ghost predicate Exact(policy: FeeTaxPolicy, rows: seq<FillRow>, charges: seq<Charge>)
    requires |rows| == |charges|
  {
    && (forall i :: 0 <= i < |rows| ==>
          charges[i].fee >= 0 && 0 <= charges[i].tax == policy.Tax(rows[i].order.side, RowGross(rows[i])))
    && forall order: Order :: Telescopes(policy, rows, charges, order)
  }

  lemma ExactNext(policy: FeeTaxPolicy, rows: seq<FillRow>, charges: seq<Charge>, row: FillRow, charge: Charge)
    requires policy.Valid() && |rows| == |charges| && row.quantity > 0 && row.price > 0.0
    requires Exact(policy, rows, charges)
    requires policy.IncrementalCosts(row.order.side, OrderGross(rows, row.order), RowGross(row),
                                     OrderFees(rows, charges, row.order))
             == Ok((charge.fee, charge.tax))
    ensures Exact(policy, rows + [row], charges + [charge])
  {
    hide Telescopes, FeeTaxPolicy.IncrementalCosts, RowGross, OrderGross, OrderFees;
    var allRows, allCharges := rows + [row], charges + [charge];
    forall order: Order
      ensures Telescopes(policy, allRows, allCharges, order)
    {
      OneMoreFill(policy, rows, charges, row, charge, order);
    }
    OneMoreFill(policy, rows, charges, row, charge, row.order);
  }

  /** The cost chain of `project`: cumulative gross and fee per order, one increment per fill. */
  method ChargeFills(policy: FeeTaxPolicy, rows: seq<FillRow>) returns (r: Result<seq<Charge>, CostError>)
    requires policy.Valid()
    ensures AllPositive(rows) ==> r.Ok?
    ensures r.Ok? ==> |r.value| == |rows|
    ensures r.Ok? && AllPositive(rows) ==> forall n :: 0 <= n <= |rows| ==> Exact(policy, rows[..n], r.value[..n])
  {
    hide FeeTaxPolicy.IncrementalCosts, Telescopes, Gross, RowGross, Exact, OrderGross, OrderFees;
    var cumulativeGross: map<Order, real> := map[];
    var cumulativeFee: map<Order, int> := map[];
    var charges: seq<Charge> := [];
    NothingCharged(policy);
    for i := 0 to |rows|
      invariant |charges| == i
      invariant Tracks(cumulativeGross, cumulativeFee, rows[..i], charges)
      invariant AllPositive(rows) ==> Exact(policy, rows[..i], charges)
      invariant AllPositive(rows) ==> forall n :: 0 <= n <= i ==> Exact(policy, rows[..n], charges[..n])
    {
      var row := rows[i];
      var order, gross := row.order, RowGross(row);
      ghost var seen, charged := rows[..i], charges;
      if AllPositive(rows) {
        ExactTelescopes(policy, seen, charged, order);
        IncrementExists(policy, seen, charged, row);
      }
      var costs := policy.IncrementalCosts(order.side, Get(cumulativeGross, order, 0.0), gross,
                                           Get(cumulativeFee, order, 0));
      if costs.Err? {
        return Err(costs.error);
      }
      var charge := Charge(costs.value.0, costs.value.1);
      TracksNext(cumulativeGross, cumulativeFee, seen, charged, row, charge);
      if AllPositive(rows) {
        ExactNext(policy, seen, charged, row, charge);
      }
      cumulativeGross := cumulativeGross[order := Get(cumulativeGross, order, 0.0) + gross];
      cumulativeFee := cumulativeFee[order := Get(cumulativeFee, order, 0) + charge.fee];
      charges := charges + [charge];
      assert rows[..i + 1] == seen + [row];
      assert charges[..i + 1] == charges && forall n :: 0 <= n <= i ==> charges[..n] == charged[..n];
    }
    assert rows[..|rows|] == rows;
    r := Ok(charges);
  }

  lemma NothingCharged(policy: FeeTaxPolicy)
    ensures Exact(policy, [], []) && Tracks(map[], map[], [], [])
  {
  }

  lemma ExactTelescopes(policy: FeeTaxPolicy, rows: seq<FillRow>, charges: seq<Charge>, order: Order)
    requires |rows| == |charges| && Exact(policy, rows, charges)
    ensures Telescopes(policy, rows, charges, order)
  {
  }
}
