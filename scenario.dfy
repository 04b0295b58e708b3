/** The default record the dashboard starts from, and what the engine makes
    of it. */
module DefaultScenario {
  import opened Coercion
  import opened Calculations

  /** The stored default input record (its `cash_on_hand` key is not read by
      the engine). */
  function DefaultData(): (d: Inputs)
    ensures !Falsy(d.gstRatePercent) && !Falsy(d.totalOrders) && !Falsy(d.ordersNewCustomer)
  {
    Inputs(
      grossSalesInclGst := Num(5000000.0),
      gstRatePercent := Num(18.0),
      discountsTotal := Num(200000.0),
      returnsValueExGst := Num(150000.0),
      unitsSold := Num(3000.0),
      totalOrders := Num(2500.0),
      ordersNewCustomer := Num(1800.0),
      costMfgPerUnit := Num(400.0),
      packagingConsumablesTotal := Num(50000.0),
      inventoryPurchasedValue := Num(1500000.0),
      shippingExpenseForward := Num(250000.0),
      rtoPenaltyTotal := Num(120000.0),
      warehousePickPackTotal := Num(75000.0),
      paymentGatewayFees := Num(100000.0),
      adSpendTotal := Num(1200000.0),
      adSpendProspecting := Num(800000.0),
      totalFixedOpex := Num(800000.0),
      targetProfitPerOrder := Num(200.0))
  }

  /** The metrics of the default record, as exact fractions. */
  lemma DefaultMetrics()
    ensures var f := Resolve(DefaultData());
      NetSalesExGst(f) == 250000000.0 / 59.0 &&
      CogsSold(f) == 1250000.0 &&
      Logistics(f) == 545000.0
    ensures CalculateMetrics(DefaultData()).Finite?
    ensures var m := CalculateMetrics(DefaultData()).metrics;
      m.netRevenue == 229350000.0 / 59.0 &&
      m.cmDollars == 123445000.0 / 59.0 &&
      m.ebitda == 5445000.0 / 59.0 &&
      m.netBurn == 83055000.0 / 59.0 &&
      m.blendedCac == 2000.0 / 3.0 &&
      m.mer == 4587.0 / 1416.0 &&
      m.safeMaxCpa == 18698.0 / 59.0 &&
      m.mpas == 18698.0 * 1800.0 / 59.0
  {
    var f := Resolve(DefaultData());
    assert f == Figures(5000000.0, 18.0, 200000.0, 150000.0, 3000.0, 2500.0, 1800.0, 400.0,
      50000.0, 1500000.0, 250000.0, 120000.0, 75000.0, 100000.0, 1200000.0, 800000.0,
      800000.0, 200.0);
    assert GstMultiplier(f) == 1.18;
  }
}
