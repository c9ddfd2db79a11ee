/** Commission and sell tax of a cash-equity order, in whole currency units. */
module FeeTax {
  import opened Wrappers

  datatype Side = Buy | Sell

  datatype CostError = NotionalNotPositive | NegativeCumulative | CommissionOvercharged

  function Ceiling(x: real): int {
    -((-x).Floor)
  }

  function MaxReal(a: real, b: real): real {
    if a < b then b else a
  }

  datatype FeeTaxPolicy = FeeTaxPolicy(commissionRate: real, commissionDiscount: real, minimumCommission: real,
                                       sellTaxRate: real) {

    /** `__post_init__`: non-negative rates and a discount of at most one. */
    predicate Valid() {
      && commissionRate >= 0.0 && commissionDiscount >= 0.0 && commissionDiscount <= 1.0
      && minimumCommission >= 0.0 && sellTaxRate >= 0.0
    }

    /** The commission on a positive gross notional, rounded up. */
    function Fee(gross: real): int {
      Ceiling(MaxReal(minimumCommission, gross * commissionRate * commissionDiscount))
    }

    /** The transaction tax of one sale, rounded down. */
    function Tax(side: Side, gross: real): int {
      if side == Sell then (gross * sellTaxRate).Floor else 0
    }

    /** `costs`: fee and tax of a whole order. */
    function Costs(side: Side, gross: real): Result<(int, int), CostError> {
      if gross <= 0.0 then Err(NotionalNotPositive) else Ok((Fee(gross), Tax(side, gross)))
    }

    /** `incremental_costs`: what one more fill adds to an order's costs. */
    function IncrementalCosts(side: Side, grossBefore: real, fillGross: real, chargedBefore: int): Result<(int, int),
        CostError> {
      if grossBefore < 0.0 || chargedBefore < 0 then Err(NegativeCumulative)
      else
        var (cumulativeFee, _) :- Costs(side, grossBefore + fillGross);
        if cumulativeFee - chargedBefore < 0 then Err(CommissionOvercharged)
        else Ok((cumulativeFee - chargedBefore, Tax(side, fillGross)))
    }
  }

  // ---- What the amounts mean ----

  /** The commission covers the minimum and the discounted rate, and no smaller whole amount covers both. */
  predicate IsCommission(policy: FeeTaxPolicy, gross: real, fee: int) {
    var rated := gross * policy.commissionRate * policy.commissionDiscount;
    && fee as real >= policy.minimumCommission && fee as real >= rated
    && (fee as real - 1.0 < policy.minimumCommission || fee as real - 1.0 < rated)
  }

  /** A sale pays the whole part of its taxed share, a buy nothing. */
  predicate IsTax(policy: FeeTaxPolicy, side: Side, gross: real, tax: int) {
    if side == Buy then tax == 0
    else tax as real <= gross * policy.sellTaxRate && gross * policy.sellTaxRate < tax as real + 1.0
  }

  lemma CommissionIs(policy: FeeTaxPolicy, gross: real, fee: int)
    ensures IsCommission(policy, gross, fee) <==> fee == policy.Fee(gross)
  {
    var rated := gross * policy.commissionRate * policy.commissionDiscount;
    CeilingIs(MaxReal(policy.minimumCommission, rated), fee);
  }

  lemma TaxIs(policy: FeeTaxPolicy, side: Side, gross: real, tax: int)
    ensures IsTax(policy, side, gross, tax) <==> tax == policy.Tax(side, gross)
  {
    FloorIs(gross * policy.sellTaxRate, tax);
  }

  /** A positive gross costs exactly its commission and its tax; any other has no costs. */
  lemma CostsAre(policy: FeeTaxPolicy, side: Side, gross: real, fee: int, tax: int)
    ensures policy.Costs(side, gross).Err? <==> gross <= 0.0
    ensures gross > 0.0 ==>
              (policy.Costs(side, gross) == Ok((fee, tax)) <==>
                 IsCommission(policy, gross, fee) && IsTax(policy, side, gross, tax))
  {
    var rated := gross * policy.commissionRate * policy.commissionDiscount;
    assert policy.Fee(gross) == Ceiling(MaxReal(policy.minimumCommission, rated));
    CeilingIs(MaxReal(policy.minimumCommission, rated), fee);
    FloorIs(gross * policy.sellTaxRate, tax);
  }

  /**
    * One more fill pays its own tax, and what its order's commission comes to beyond what was charged before. Negative
    * amounts so far are refused first, then an order that is still worth nothing, then a commission charged in excess.
    */
  lemma IncrementIs(policy: FeeTaxPolicy, side: Side, grossBefore: real, fillGross: real, total: real, charged: int,
                    commission: int, tax: int)
    requires total == grossBefore + fillGross
    requires IsCommission(policy, total, commission) && IsTax(policy, side, fillGross, tax)
    ensures policy.IncrementalCosts(side, grossBefore, fillGross, charged) ==
            if grossBefore < 0.0 || charged < 0 then Err(NegativeCumulative)
            else if total <= 0.0 then Err(NotionalNotPositive)
            else if commission < charged then Err(CommissionOvercharged)
            else Ok((commission - charged, tax))
  {
    hide IsCommission, IsTax, FeeTaxPolicy.Fee, FeeTaxPolicy.Tax;
    CommissionIs(policy, total, commission);
    TaxIs(policy, side, fillGross, tax);
  }

  lemma CeilingIs(x: real, n: int)
    ensures Ceiling(x) == n <==> x <= n as real && n as real - 1.0 < x
  {
  }

  lemma FloorIs(x: real, n: int)
    ensures x.Floor == n <==> n as real <= x && x < n as real + 1.0
  {
  }
}
