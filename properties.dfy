/** Properties of calculateMetrics. Lemmas over coerced figures speak of
    `Build(f)`, which is what `CalculateMetrics` returns for the figures
    `Resolve` makes of a record (lemma `Unwrap`). */
module MetricsProperties {
  import opened Coercion
  import opened Receipt
  import opened Calculations

  /** A finite outcome is the record built from the coerced figures. */
  lemma Unwrap(inputs: Inputs, m: Metrics)
    requires CalculateMetrics(inputs) == Finite(m)
    ensures Computable(Resolve(inputs)) && m == Build(Resolve(inputs))
  {
  }

  /** No division is left unguarded: ratios over a non-positive denominator
      are 0, and absent or zero order counts divide as 1. */
  lemma ZeroDivisionSafety(inputs: Inputs, m: Metrics)
    requires CalculateMetrics(inputs) == Finite(m)
    ensures var f := Resolve(inputs);
      (m.netRevenue <= 0.0 ==> m.cmPercent == 0.0 && m.netMarginPercent == 0.0) &&
      (m.adSpendTotal <= 0.0 ==> m.mer == 0.0) &&
      (f.adSpendProspecting <= 0.0 ==> m.ncRoas == 0.0) &&
      (Falsy(inputs.totalOrders) ==> m.safeMaxCpa == m.cmDollars - f.opex - f.targetProfit) &&
      (Falsy(inputs.ordersNewCustomer) ==> m.blendedCac == m.adSpendTotal && m.mpas == m.safeMaxCpa)
  {
    var f := Resolve(inputs);
    Unwrap(inputs, m);
    UnitDenominators(f);
  }

  /** Dividing by an order count of 1 leaves the dividend unchanged. */
  lemma UnitDenominators(f: Figures)
    requires Computable(f)
    ensures f.totalOrders == 1.0 ==> SafeMaxCpa(f) == CmDollars(f) - f.opex - f.targetProfit
    ensures f.newOrders == 1.0 ==> BlendedCac(f) == f.adSpendTotal && Mpas(f) == SafeMaxCpa(f)
  {
  }

  /** Taking GST out and putting it back returns the gross sales figure: the
      first two lines of the net-revenue receipt give sales ex GST, and the
      GST line is captioned with the rate in force. */
  lemma GstRoundTrip(f: Figures)
    requires Computable(f)
    ensures var b := Build(f).breakdowns.netRevenue;
      |b| == 4 && b[0].val == f.grossSales && b[1].caption == LessGst(f.gstRate) &&
      (b[0].val + b[1].val) * (1.0 + f.gstRate / 100.0) == f.grossSales
  {
    var b := NetRevenueReceipt(f);
    assert b[0].val + b[1].val == NetSalesExGst(f);
    GstExtraction(f);
  }

  // --- What each quotient means, on coerced figures ---

  /** GST extraction is undone by applying the rate again, and the GST
      removed is the rate applied to the GST-exclusive amount. */
  lemma GstExtraction(f: Figures)
    requires GstMultiplier(f) != 0.0
    ensures NetSalesExGst(f) * (1.0 + f.gstRate / 100.0) == f.grossSales
    ensures f.grossSales - NetSalesExGst(f) == NetSalesExGst(f) * f.gstRate / 100.0
  {
    var net, m := NetSalesExGst(f), GstMultiplier(f);
    assert net * m == f.grossSales;
    assert net * m == net + net * f.gstRate / 100.0;
  }

  /** With positive net revenue, the two percentages are CM and EBITDA as
      shares of it. */
  lemma PercentsOfRevenue(f: Figures)
    requires GstMultiplier(f) != 0.0 && NetRevenue(f) > 0.0
    ensures CmPercent(f) * NetRevenue(f) == CmDollars(f) * 100.0
    ensures NetMarginPercent(f) * NetRevenue(f) == Ebitda(f) * 100.0
  {
  }

  /** The per-order figures spread their totals over the order count. */
  lemma PerOrderFigures(f: Figures)
    requires Computable(f)
    ensures VariableProfitPerOrder(f) * f.totalOrders == CmDollars(f)
    ensures OpexPerOrder(f) * f.totalOrders == f.opex
    ensures (SafeMaxCpa(f) + f.targetProfit) * f.totalOrders == Ebitda(f) + f.adSpendTotal
    ensures f.totalOrders > 0.0 ==> Aov(f) * f.totalOrders == NetRevenue(f)
  {
    var vp, op := VariableProfitPerOrder(f), OpexPerOrder(f);
    assert vp * f.totalOrders == CmDollars(f);
    assert op * f.totalOrders == f.opex;
    assert (SafeMaxCpa(f) + f.targetProfit) * f.totalOrders == vp * f.totalOrders - op * f.totalOrders;
  }

  /** MER is net revenue per unit of ad spend, CAC is ad spend per new
      customer, and new-customer ROAS is new-customer revenue per unit of
      prospecting spend. */
  lemma EfficiencyRatios(f: Figures)
    requires Computable(f)
    ensures f.adSpendTotal > 0.0 ==> Mer(f) * f.adSpendTotal == NetRevenue(f)
    ensures BlendedCac(f) * f.newOrders == f.adSpendTotal
    ensures f.adSpendProspecting > 0.0 && f.totalOrders > 0.0 ==>
      NcRoas(f) * f.adSpendProspecting * f.totalOrders == f.newOrders * NetRevenue(f)
  {
    if f.adSpendProspecting > 0.0 && f.totalOrders > 0.0 {
      var aov, roas := Aov(f), NcRoas(f);
      assert aov * f.totalOrders == NetRevenue(f);
      assert roas * f.adSpendProspecting == f.newOrders * aov;
    }
  }

  /** The input with its total ad spend replaced. */
  function WithAdSpend(inputs: Inputs, spend: real): (r: Inputs)
    ensures r.adSpendTotal == Num(spend)
    ensures r.(adSpendTotal := inputs.adSpendTotal) == inputs
  {
    inputs.(adSpendTotal := Num(spend))
  }

  /** Changing the ad spend field changes only the coerced ad spend and,
      when it is defaulted, the prospecting spend; in particular it cannot
      change whether the outcome is finite. */
  lemma AdSpendOnlyMovesSpend(inputs: Inputs, spend: real)
    ensures var f, g := Resolve(inputs), Resolve(WithAdSpend(inputs, spend));
      g == f.(adSpendTotal := spend, adSpendProspecting := g.adSpendProspecting)
    ensures CalculateMetrics(WithAdSpend(inputs, spend)).Finite? == CalculateMetrics(inputs).Finite?
  {
  }

  /** With everything else fixed, more ad spend strictly lowers EBITDA and
      strictly raises net burn; with positive spend and net revenue it lowers
      MER; and blended CAC moves with spend when the new-customer count is
      positive and against it when that count is negative. The figures may
      also differ in a defaulted prospecting spend. */
  lemma AdSpendMonotone(lo: Figures, hi: Figures)
    requires Computable(lo) && lo.adSpendTotal < hi.adSpendTotal
    requires hi == lo.(adSpendTotal := hi.adSpendTotal, adSpendProspecting := hi.adSpendProspecting)
    ensures Computable(hi)
    ensures Ebitda(hi) < Ebitda(lo) && NetBurn(hi) > NetBurn(lo)
    ensures 0.0 < lo.adSpendTotal && NetRevenue(lo) > 0.0 ==> Mer(hi) < Mer(lo)
    ensures lo.newOrders > 0.0 ==> BlendedCac(lo) < BlendedCac(hi)
    ensures lo.newOrders < 0.0 ==> BlendedCac(lo) > BlendedCac(hi)
  {
    assert NetRevenue(lo) == NetRevenue(hi);
    assert CmDollars(lo) == CmDollars(hi);
    if 0.0 < lo.adSpendTotal && NetRevenue(lo) > 0.0 {
      QuotientFalls(NetRevenue(lo), lo.adSpendTotal, hi.adSpendTotal);
    }
    SharesFollowSign(lo.adSpendTotal, hi.adSpendTotal, lo.newOrders);
  }

  /** Dividing preserves order by a positive divisor and reverses it by a
      negative one. */
  lemma SharesFollowSign(lower: real, higher: real, n: real)
    requires lower < higher && n != 0.0
    ensures n > 0.0 ==> lower / n < higher / n
    ensures n < 0.0 ==> lower / n > higher / n
  {
    var p, q := lower / n, higher / n;
    assert p * n == lower && q * n == higher;
    assert (q - p) * n == higher - lower;
  }

  /** A positive amount spread over a larger positive base gives less. */
  lemma QuotientFalls(x: real, lower: real, higher: real)
    requires x > 0.0 && 0.0 < lower < higher
    ensures x / higher < x / lower
  {
    var p, q := x / lower, x / higher;
    assert p * lower == x && q * higher == x;
    assert q * lower < q * higher;
  }

  /** Cash burn exceeds the accrual loss by exactly the inventory bought:
      net burn plus EBITDA is the inventory purchase. */
  lemma BurnIsLossPlusInventory(inputs: Inputs, m: Metrics)
    requires CalculateMetrics(inputs) == Finite(m)
    ensures m.netBurn + m.ebitda == AsNumber(inputs.inventoryPurchasedValue)
  {
    Unwrap(inputs, m);
  }
}
