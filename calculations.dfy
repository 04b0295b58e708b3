/** The metrics engine `calculateMetrics`: one period's raw figures in, the
    derived metrics and their five receipts out. Arithmetic is over `real`. */
module Calculations {
  import opened Coercion
  import opened Receipt

  /** The input record: every field the engine reads, each possibly absent or
      unparseable. Other keys of the record are ignored. */
  datatype Inputs = Inputs(
    grossSalesInclGst: Value,
    gstRatePercent: Value,
    discountsTotal: Value,
    returnsValueExGst: Value,
    unitsSold: Value,
    totalOrders: Value,
    ordersNewCustomer: Value,
    costMfgPerUnit: Value,
    packagingConsumablesTotal: Value,
    inventoryPurchasedValue: Value,
    shippingExpenseForward: Value,
    rtoPenaltyTotal: Value,
    warehousePickPackTotal: Value,
    paymentGatewayFees: Value,
    adSpendTotal: Value,
    adSpendProspecting: Value,
    totalFixedOpex: Value,
    targetProfitPerOrder: Value)

  /** The coerced figures, after `num` and the `|| default` fallbacks. */
  datatype Figures = Figures(
    grossSales: real,
    gstRate: real,
    discounts: real,
    returned: real,
    unitsSold: real,
    totalOrders: real,
    newOrders: real,
    mfgCost: real,
    packaging: real,
    inventoryBought: real,
    shipping: real,
    rto: real,
    pickPack: real,
    pgFees: real,
    adSpendTotal: real,
    adSpendProspecting: real,
    opex: real,
    targetProfit: real)

  /** Coerces every field and applies the defaults: a GST rate of 18, order
      counts of 1, and prospecting spend of 80% of total ad spend, each
      whenever its field is absent, NaN or zero. */
  function Resolve(inputs: Inputs): (f: Figures)
    ensures f.gstRate != 0.0 && f.totalOrders != 0.0 && f.newOrders != 0.0
    ensures f.adSpendTotal == AsNumber(inputs.adSpendTotal)
    ensures Falsy(inputs.gstRatePercent) ==> f.gstRate == 18.0
    ensures !Falsy(inputs.gstRatePercent) ==> f.gstRate == inputs.gstRatePercent.x
    ensures Falsy(inputs.totalOrders) ==> f.totalOrders == 1.0
    ensures !Falsy(inputs.totalOrders) ==> f.totalOrders == inputs.totalOrders.x
    ensures Falsy(inputs.ordersNewCustomer) ==> f.newOrders == 1.0
    ensures !Falsy(inputs.ordersNewCustomer) ==> f.newOrders == inputs.ordersNewCustomer.x
    ensures Falsy(inputs.adSpendProspecting) ==> f.adSpendProspecting == 0.8 * f.adSpendTotal
    ensures !Falsy(inputs.adSpendProspecting) ==> f.adSpendProspecting == inputs.adSpendProspecting.x
  {
    var adSpendTotal := AsNumber(inputs.adSpendTotal);
    Figures(
      grossSales := AsNumber(inputs.grossSalesInclGst),
      gstRate := Or(AsNumber(inputs.gstRatePercent), 18.0),
      discounts := AsNumber(inputs.discountsTotal),
      returned := AsNumber(inputs.returnsValueExGst),
      unitsSold := AsNumber(inputs.unitsSold),
      totalOrders := Or(AsNumber(inputs.totalOrders), 1.0),
      newOrders := Or(AsNumber(inputs.ordersNewCustomer), 1.0),
      mfgCost := AsNumber(inputs.costMfgPerUnit),
      packaging := AsNumber(inputs.packagingConsumablesTotal),
      inventoryBought := AsNumber(inputs.inventoryPurchasedValue),
      shipping := AsNumber(inputs.shippingExpenseForward),
      rto := AsNumber(inputs.rtoPenaltyTotal),
      pickPack := AsNumber(inputs.warehousePickPackTotal),
      pgFees := AsNumber(inputs.paymentGatewayFees),
      adSpendTotal := adSpendTotal,
      adSpendProspecting := Or(AsNumber(inputs.adSpendProspecting), adSpendTotal * 0.8),
      opex := AsNumber(inputs.totalFixedOpex),
      targetProfit := AsNumber(inputs.targetProfitPerOrder))
  }

  // --- Calculations ---

  /** The factor that turns a GST-exclusive amount into a GST-inclusive one.
      It vanishes only for a rate of exactly -100, which the `|| 18`
      fallback lets through. */
  function GstMultiplier(f: Figures): (m: real)
    ensures m == 0.0 <==> f.gstRate == -100.0
  {
    1.0 + f.gstRate / 100.0
  }

  /** The figures every division of the engine is defined for. */
  predicate Computable(f: Figures) {
    GstMultiplier(f) != 0.0 && f.totalOrders != 0.0 && f.newOrders != 0.0
  }

  /** Sales with GST taken out: adding GST back at the rate restores the
      gross figure, and the GST removed is the rate applied to the result. */
  function NetSalesExGst(f: Figures): real
    requires GstMultiplier(f) != 0.0
  {
    f.grossSales / GstMultiplier(f)
  }

  function NetRevenue(f: Figures): real
    requires GstMultiplier(f) != 0.0
  {
    NetSalesExGst(f) - f.discounts - f.returned
  }

  /** Cost of goods sold; there is no guard for zero units sold. */
  function CogsSold(f: Figures): real {
    f.unitsSold * f.mfgCost + f.packaging
  }

  function Logistics(f: Figures): real {
    f.shipping + f.rto + f.pickPack + f.pgFees
  }

  function VariableCosts(f: Figures): real {
    CogsSold(f) + Logistics(f)
  }

  function CmDollars(f: Figures): real
    requires GstMultiplier(f) != 0.0
  {
    NetRevenue(f) - VariableCosts(f)
  }

  /** Contribution margin as a percentage of net revenue, or 0 when net
      revenue is not positive. */
  function CmPercent(f: Figures): (r: real)
    requires GstMultiplier(f) != 0.0
    ensures NetRevenue(f) <= 0.0 ==> r == 0.0
  {
    if NetRevenue(f) > 0.0 then (CmDollars(f) / NetRevenue(f)) * 100.0 else 0.0
  }

  function Ebitda(f: Figures): real
    requires GstMultiplier(f) != 0.0
  {
    CmDollars(f) - f.adSpendTotal - f.opex
  }

  /** EBITDA as a percentage of net revenue, or 0 when net revenue is not
      positive. */
  function NetMarginPercent(f: Figures): (r: real)
    requires GstMultiplier(f) != 0.0
    ensures NetRevenue(f) <= 0.0 ==> r == 0.0
  {
    if NetRevenue(f) > 0.0 then (Ebitda(f) / NetRevenue(f)) * 100.0 else 0.0
  }

  /** Cash consumed: every outflow, inventory bought included, less the
      contribution margin. */
  function NetBurn(f: Figures): real
    requires GstMultiplier(f) != 0.0
  {
    (f.opex + f.adSpendTotal + f.inventoryBought) - CmDollars(f)
  }

  // --- Unit economics ---

  /** Average order value, or 0 when the order count is not positive (a
      negative count survives the `|| 1` fallback). */
  function Aov(f: Figures): (r: real)
    requires GstMultiplier(f) != 0.0
    ensures f.totalOrders <= 0.0 ==> r == 0.0
  {
    if f.totalOrders > 0.0 then NetRevenue(f) / f.totalOrders else 0.0
  }

  function VariableProfitPerOrder(f: Figures): real
    requires Computable(f)
  {
    CmDollars(f) / f.totalOrders
  }

  function OpexPerOrder(f: Figures): real
    requires Computable(f)
  {
    f.opex / f.totalOrders
  }

  /** The bid ceiling per order that still covers fixed costs and the target
      profit: per order, it is EBITDA before ad spend less the target. */
  function SafeMaxCpa(f: Figures): real
    requires Computable(f)
  {
    VariableProfitPerOrder(f) - OpexPerOrder(f) - f.targetProfit
  }

  // --- Efficiency ---

  /** Marketing efficiency ratio, or 0 when ad spend is not positive. */
  function Mer(f: Figures): (r: real)
    requires GstMultiplier(f) != 0.0
    ensures f.adSpendTotal <= 0.0 ==> r == 0.0
  {
    if f.adSpendTotal > 0.0 then NetRevenue(f) / f.adSpendTotal else 0.0
  }

  function NewCustRevenue(f: Figures): real
    requires GstMultiplier(f) != 0.0
  {
    f.newOrders * Aov(f)
  }

  /** New-customer return on prospecting spend, or 0 when that spend is not
      positive. */
  function NcRoas(f: Figures): (r: real)
    requires GstMultiplier(f) != 0.0
    ensures f.adSpendProspecting <= 0.0 ==> r == 0.0
  {
    if f.adSpendProspecting > 0.0 then NewCustRevenue(f) / f.adSpendProspecting else 0.0
  }

  /** Total ad spend per new customer. */
  function BlendedCac(f: Figures): real
    requires Computable(f)
  {
    f.adSpendTotal / f.newOrders
  }

  /** The spend on new customers that the safe CPA allows. */
  function Mpas(f: Figures): real
    requires Computable(f)
  {
    SafeMaxCpa(f) * f.newOrders
  }

  // --- Breakdowns ---

  function NetRevenueReceipt(f: Figures): (r: seq<Line>)
    requires GstMultiplier(f) != 0.0
    ensures WellFormed(r) && Total(r) == NetRevenue(f)
    ensures |r| == 4 && r[1] == Line(LessGst(f.gstRate), -(f.grossSales - NetSalesExGst(f)), Sub)
    ensures forall i :: 0 < i < |r| ==> r[i].kind == Sub
  {
    var grossSales := f.grossSales;
    var r := [
      Line(Text("Gross Sales (Inc GST)"), grossSales, Base),
      Line(LessGst(f.gstRate), -(grossSales - NetSalesExGst(f)), Sub),
      Line(Text("Less Discounts"), -f.discounts, Sub),
      Line(Text("Less Returns"), -f.returned, Sub)];
    TotalFour(r);
    r
  }

  function CmReceipt(f: Figures): (r: seq<Line>)
    requires GstMultiplier(f) != 0.0
    ensures WellFormed(r) && Total(r) == CmDollars(f)
    ensures forall i :: 0 < i < |r| ==> r[i].kind == Sub
  {
    var r := [
      Line(Text("Net Revenue"), NetRevenue(f), Base),
      Line(Text("COGS & Packaging"), -CogsSold(f), Sub),
      Line(Text("Logistics, RTO & Fees"), -Logistics(f), Sub)];
    TotalThree(r);
    r
  }

  function EbitdaReceipt(f: Figures): (r: seq<Line>)
    requires GstMultiplier(f) != 0.0
    ensures WellFormed(r) && Total(r) == Ebitda(f)
    ensures forall i :: 0 < i < |r| ==> r[i].kind == Sub
  {
    var r := [
      Line(Text("Contribution Margin"), CmDollars(f), Base),
      Line(Text("Marketing Spend"), -f.adSpendTotal, Sub),
      Line(Text("Fixed OpEx"), -f.opex, Sub)];
    TotalThree(r);
    r
  }

  function SafeCpaReceipt(f: Figures): (r: seq<Line>)
    requires Computable(f)
    ensures WellFormed(r) && Total(r) == SafeMaxCpa(f)
    ensures forall i :: 0 < i < |r| ==> r[i].kind == Sub
  {
    var r := [
      Line(Text("Contribution / Order"), VariableProfitPerOrder(f), Base),
      Line(Text("Fixed OpEx / Order"), -OpexPerOrder(f), Sub),
      Line(Text("Target Profit / Order"), -f.targetProfit, Sub)];
    TotalThree(r);
    r
  }

  /** The burn receipt adds the three outflows and subtracts the margin. */
  function BurnReceipt(f: Figures): (r: seq<Line>)
    requires GstMultiplier(f) != 0.0
    ensures WellFormed(r) && Total(r) == NetBurn(f)
    ensures |r| == 4 && r[1].kind == Add && r[2].kind == Add && r[3].kind == Sub
  {
    var r := [
      Line(Text("Fixed OpEx"), f.opex, Base),
      Line(Text("Ad Spend"), f.adSpendTotal, Add),
      Line(Text("Inventory Purchase"), f.inventoryBought, Add),
      Line(Text("Less: Contrib. Margin"), -CmDollars(f), Sub)];
    TotalFour(r);
    r
  }

  lemma TotalThree(r: seq<Line>)
    requires |r| == 3
    ensures Total(r) == r[0].val + r[1].val + r[2].val
  {
    assert r == [r[0]] + [r[1]] + [r[2]];
    TotalAppend([r[0]] + [r[1]], [r[2]]);
    TotalAppend([r[0]], [r[1]]);
    TotalSingle(r[0]);
    TotalSingle(r[1]);
    TotalSingle(r[2]);
  }

  lemma TotalFour(r: seq<Line>)
    requires |r| == 4
    ensures Total(r) == r[0].val + r[1].val + r[2].val + r[3].val
  {
    assert r == r[..3] + [r[3]];
    TotalAppend(r[..3], [r[3]]);
    TotalThree(r[..3]);
    TotalSingle(r[3]);
  }

  // --- Result ---

  datatype Breakdowns = Breakdowns(
    netRevenue: seq<Line>,
    cm: seq<Line>,
    ebitda: seq<Line>,
    safeCpa: seq<Line>,
    burn: seq<Line>)

  datatype Metrics = Metrics(
    netRevenue: real,
    cmDollars: real,
    cmPercent: real,
    ebitda: real,
    netMarginPercent: real,
    netBurn: real,
    blendedCac: real,
    mer: real,
    ncRoas: real,
    adSpendTotal: real,
    safeMaxCpa: real,
    mpas: real,
    breakdowns: Breakdowns)

  /** The engine's result. With a GST rate of exactly -100 the source divides
      by zero at the net-sales step and its figures are non-finite; the
      model reports that case instead of computing them. */
  datatype Outcome = Finite(metrics: Metrics) | NonFinite

  /** Every receipt opens with its base line and adds up to its metric. */
  predicate ReceiptsAddUp(m: Metrics) {
    WellFormed(m.breakdowns.netRevenue) && Total(m.breakdowns.netRevenue) == m.netRevenue &&
    WellFormed(m.breakdowns.cm) && Total(m.breakdowns.cm) == m.cmDollars &&
    WellFormed(m.breakdowns.ebitda) && Total(m.breakdowns.ebitda) == m.ebitda &&
    WellFormed(m.breakdowns.safeCpa) && Total(m.breakdowns.safeCpa) == m.safeMaxCpa &&
    WellFormed(m.breakdowns.burn) && Total(m.breakdowns.burn) == m.netBurn
  }

  function Build(f: Figures): (m: Metrics)
    requires Computable(f)
    ensures ReceiptsAddUp(m)
  {
    Metrics(
      netRevenue := NetRevenue(f),
      cmDollars := CmDollars(f),
      cmPercent := CmPercent(f),
      ebitda := Ebitda(f),
      netMarginPercent := NetMarginPercent(f),
      netBurn := NetBurn(f),
      blendedCac := BlendedCac(f),
      mer := Mer(f),
      ncRoas := NcRoas(f),
      adSpendTotal := f.adSpendTotal,
      safeMaxCpa := SafeMaxCpa(f),
      mpas := Mpas(f),
      breakdowns := Breakdowns(
        netRevenue := NetRevenueReceipt(f),
        cm := CmReceipt(f),
        ebitda := EbitdaReceipt(f),
        safeCpa := SafeCpaReceipt(f),
        burn := BurnReceipt(f)))
  }

  /** `calculateMetrics`: total over every input record; non-finite only for
      a GST rate of exactly -100, and otherwise every receipt adds up. */
  function CalculateMetrics(inputs: Inputs): (r: Outcome)
    ensures r.NonFinite? <==> AsNumber(inputs.gstRatePercent) == -100.0
    ensures r.Finite? ==> ReceiptsAddUp(r.metrics)
  {
    var f := Resolve(inputs);
    if GstMultiplier(f) == 0.0 then NonFinite else Finite(Build(f))
  }
}
