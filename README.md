# d2c-calc metrics engine, modelled in Dafny

This project models `calculateMetrics` from `utils/calculations.js`. That is the engine of a
direct-to-consumer business dashboard. It takes one month's loosely typed business figures:
gross sales including GST, discounts, returns, order and unit counts, COGS inputs, logistics
costs, ad spend, fixed opex and a target profit per order. From them it derives:

- net revenue, contribution margin in money and as a percent, EBITDA, net margin percent and net burn;
- the safe maximum CPA;
- the efficiency ratios MER, new-customer ROAS, blended CAC and MPAS;
- five ordered "receipts" (`netRevenue`, `cm`, `ebitda`, `safeCpa`, `burn`). Each is a base line
  followed by signed lines, and the lines add up to their metric.

The engine is a pure, total function, so the model is made of functions and lemmas over `real`.
Over `real`, the receipt identities hold exactly.

- `coercion.dfy` (module `Coercion`): a raw field is `Missing | NotANumber | Num(x)`.
  - `AsNumber` is the inner `num` helper, `parseFloat(v) || 0`.
  - `Or` is the `x || default` fallback. Since a coerced number is never NaN, it replaces zero only.
- `receipt.dfy` (module `Receipt`): receipt lines `{label, val, type}` and their total.
- `calculations.dfy` (module `Calculations`):
  - `Resolve` coerces the input record into figures and applies the defaults.
  - One function per derived quantity, in the source's order.
  - The five receipt builders, and `CalculateMetrics`.
- `properties.dfy` (module `MetricsProperties`): properties of engine results and of the record
  built from coerced figures. These cover division guards, the meaning of each quotient, the GST
  round trip, monotonicity in ad spend, and burn against EBITDA.
- `scenario.dfy` (module `DefaultScenario`): the dashboard's stored default record
  (`utils/storage.js`) and its exact metrics.

A GST rate of exactly -100 passes the `|| 18` fallback. At that rate the net-sales division
divides by zero, and JavaScript produces Infinity or NaN. `CalculateMetrics` therefore returns
`Finite(metrics)`, or `NonFinite` exactly when the coerced rate is -100.

Three things the rest of the application expects are not in this formula set, and the model
follows the code:

- The page edits a `fees_commissions` field (`app/page.js:143`), but `calculateMetrics` never reads
  it, so commissions are not deducted from net revenue.
- The page and both advisory routes read `metrics.costPerOrder` (`app/page.js:102-103`,
  `app/api/ai/chat/route.js:52`, `app/api/ai/insights/route.js:82`). `calculateMetrics` never
  returns that field, so those readers get `undefined`.
- COGS and logistics (`utils/calculations.js:36-37`) have no zero-units guard. Packaging and
  logistics are charged even when no units were sold.

## Model

`CalculateMetrics` returns `Finite(Build(Resolve(inputs)))` whenever the GST rate is not -100, as
the helper lemma `MetricsProperties.Unwrap` spells out (it only unfolds that definition). So the lemmas stated over coerced figures `f` are about
`Build(f)` and the per-quantity functions it is made of, and they hold of every engine result.

| member | source | states |
|---|---|---|
| `Coercion.AsNumber` | utils/calculations.js:4 | A field coerces to 0 exactly when it is absent, NaN or the number 0, and to its own number otherwise |
| `Coercion.Or` | utils/calculations.js:8 | The default-on-falsy fallback keeps a non-zero number, replaces only zero, and never yields 0 when the default is non-zero |
| `Calculations.Resolve` | utils/calculations.js:7-29 | The GST rate and both order counts are never 0, and total ad spend is its coerced field. The GST rate is 18, the order counts 1 and prospecting spend 0.8 × total ad spend whenever their field is absent, NaN or 0, and each is the given number otherwise |
| `Calculations.GstMultiplier` | utils/calculations.js:32 | The GST multiplier is zero exactly when the rate is -100 |
| `Calculations.CmPercent` | utils/calculations.js:41 | CM% is 0 when net revenue ≤ 0 |
| `Calculations.NetMarginPercent` | utils/calculations.js:44 | Net margin % is 0 when net revenue ≤ 0 |
| `Calculations.Aov` | utils/calculations.js:50 | AOV is 0 when the order count is ≤ 0, which a negative count can reach |
| `Calculations.Mer` | utils/calculations.js:56 | MER is 0 when ad spend ≤ 0 |
| `Calculations.NcRoas` | utils/calculations.js:57-58 | New-customer ROAS is 0 when prospecting spend ≤ 0 |
| `Calculations.NetRevenueReceipt` | utils/calculations.js:69-74 | Four lines, base first, then deductions, that total net revenue (sales ex GST − discounts − returns). The second line is the GST deduction captioned with the rate |
| `Calculations.CmReceipt` | utils/calculations.js:75-79 | A base line then deductions, totalling the contribution margin (net revenue − COGS − logistics) |
| `Calculations.EbitdaReceipt` | utils/calculations.js:80-84 | A base line then deductions, totalling EBITDA (CM − ad spend − opex) |
| `Calculations.SafeCpaReceipt` | utils/calculations.js:85-89 | A base line then deductions, totalling the safe max CPA (CM per order − opex per order − target profit) |
| `Calculations.BurnReceipt` | utils/calculations.js:90-95 | Base, add, add, then one subtraction, totalling net burn (opex + ad spend + inventory − CM) |
| `Calculations.Build` | utils/calculations.js:62-97 | The returned record's five receipts are well formed and each totals its own metric |
| `Calculations.CalculateMetrics` | utils/calculations.js:3-98 | Total on every record. Non-finite exactly when the coerced GST rate is -100. Otherwise every receipt adds up to its metric |
| `MetricsProperties.ZeroDivisionSafety` | utils/calculations.js:41-59 | In a result, every guarded ratio is 0 when its denominator is ≤ 0. Absent or zero order counts divide as 1, so safe CPA = CM − opex − target and CAC = ad spend, with MPAS = safe CPA |
| `MetricsProperties.GstRoundTrip` | utils/calculations.js:32-33 | Gross line + GST line = sales ex GST, and that × (1 + rate/100) restores gross sales. The GST line carries the rate in force |
| `MetricsProperties.GstExtraction` | utils/calculations.js:32-33 | Sales ex GST × (1 + rate/100) = gross sales, and the GST removed is rate/100 × sales ex GST |
| `MetricsProperties.PercentsOfRevenue` | utils/calculations.js:40-44 | With positive net revenue, CM% × net revenue = 100 × CM and margin% × net revenue = 100 × EBITDA |
| `MetricsProperties.PerOrderFigures` | utils/calculations.js:50-53 | Contribution per order × orders = CM, opex per order × orders = opex, (safe CPA + target) × orders = EBITDA + ad spend, and with positive orders AOV × orders = net revenue |
| `MetricsProperties.EfficiencyRatios` | utils/calculations.js:56-59 | With positive spend, MER × ad spend = net revenue. CAC × new orders = ad spend. With positive prospecting spend and orders, ROAS × prospecting × orders = new orders × net revenue |
| `MetricsProperties.AdSpendOnlyMovesSpend` | utils/calculations.js:25-26 | Replacing the ad spend field changes only the coerced ad spend and the defaulted prospecting spend, and never whether the result is finite |
| `MetricsProperties.AdSpendMonotone` | utils/calculations.js:43-59 | With other figures fixed, more ad spend strictly lowers EBITDA and strictly raises net burn. It lowers MER when spend and net revenue are positive. It raises blended CAC when new orders > 0 and lowers it when new orders < 0 |
| `MetricsProperties.BurnIsLossPlusInventory` | utils/calculations.js:43-47 | In a result, net burn + EBITDA = inventory purchased |
| `DefaultScenario.DefaultData` | utils/storage.js:6-31 | The stored default record has a non-falsy GST rate and non-falsy order counts |
| `DefaultScenario.DefaultMetrics` | utils/storage.js:6-31 | Exact metrics of the default record: net sales ex GST 250000000/59, net revenue 229350000/59, COGS 1,250,000, logistics 545,000, CM 123445000/59, EBITDA 5445000/59, burn 83055000/59, CAC 2000/3, MER 4587/1416, safe CPA 18698/59 |

The quantities computed by plain arithmetic carry no contract of their own. These are net sales ex
GST, net revenue, COGS, logistics, variable costs, CM, EBITDA, net burn, the per-order figures,
blended CAC, new-customer revenue and MPAS. Each is defined once, and the receipt or lemma that
mentions it above states what it means. MPAS is the safe CPA times the new-customer order count by
definition (`utils/calculations.js:60`), which `ZeroDivisionSafety` and `PerOrderFigures` build on.

## Left out

- `Calculations.CalculateMetrics`: at a GST rate of exactly -100, the source still returns a record of
  non-finite numbers, although several of its fields and receipt lines stay finite. The model returns `NonFinite` instead of those values, because
  IEEE-754 Infinity/NaN propagation is not modelled.
- IEEE-754 arithmetic (rounding, NaN/Infinity, signed zero): the model computes over exact reals.
- `parseFloat` number syntax, such as "12abc" parsing as 12: the `Value` type starts from the
  already-parsed outcome.
- The numeric text inside the "Less GST (…%)" caption: the caption keeps the rate as a number
  (`Label.LessGst`) rather than its string rendering.
- `formatCurrency` (`utils/calculations.js:100-106`): a wrapper over `Intl.NumberFormat` with the
  en-IN/INR locale, a foreign library.
- The local `cashOutflow` (`utils/calculations.js:46`): computed but never returned.
- The React page, the AI chat and insight routes, the mailing-list route and local-storage I/O:
  these are UI, network and storage glue around the engine. `utils/storage.js` contributes only its
  default record.
- Determinism and purity need no lemma: `CalculateMetrics` is a Dafny function, so equal inputs
  give equal outputs by construction.
