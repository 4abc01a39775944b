/** The contribution floor and its rounding. (apps/api/src/quotes/quote-profitability.ts) */
module QuoteProfitability {
  import opened Prelude

  /** One booking's internal costs, in cents. */
  datatype Costs = Costs(
    labourMinor: int, deploymentMinor: int, consumablesMinor: int, equipmentVehicleReserveMinor: int,
    overheadMinor: int, minimumContributionMinor: int)

  datatype Floor = Floor(
    costTotalMinor: int, requiredMinimumMinor: int, catalogueSubtotalMinor: int, profitabilityAdjustmentMinor: int,
    preRoundingTotalMinor: int, roundingAdjustmentMinor: int, finalTotalMinor: int)

  datatype PricingError = NotAnAmount

  const TEN_RAND_MINOR := 1_000

  function CostTotal(costs: Costs): int {
    costs.labourMinor + costs.deploymentMinor + costs.consumablesMinor + costs.equipmentVehicleReserveMinor
    + costs.overheadMinor
  }

  predicate AreAmounts(costs: Costs) {
    costs.labourMinor >= 0 && costs.deploymentMinor >= 0 && costs.consumablesMinor >= 0
    && costs.equipmentVehicleReserveMinor >= 0 && costs.overheadMinor >= 0 && costs.minimumContributionMinor >= 0
  }

  /** `Math.ceil(value / 1000) * 1000` */
  function RoundUpToTenRand(value: nat): (r: nat)
    ensures r % TEN_RAND_MINOR == 0 && value <= r < value + TEN_RAND_MINOR
  {
    var tens := (value + 999) / 1_000;
    assert 1_000 * tens <= value + 999 < 1_000 * tens + 1_000;
    1_000 * tens
  }

  /** The source throws on a negative amount. */
  function ApplyFloor(catalogueSubtotal: int, costs: Costs): Result<Floor, PricingError> {
    if catalogueSubtotal < 0 || !AreAmounts(costs) then Err(NotAnAmount)
    else
      var costTotal := CostTotal(costs);
      var required := costTotal + costs.minimumContributionMinor;
      var adjustment := Max(0, required - catalogueSubtotal);
      var preRounding := catalogueSubtotal + adjustment;
      var final := RoundUpToTenRand(preRounding);
      Ok(Floor(costTotal, required, catalogueSubtotal, adjustment, preRounding, final - preRounding, final))
  }

  predicate IsTenRandPrice(price: int) {
    price % TEN_RAND_MINOR == 0
  }

  /** A price that covers the catalogue, the costs and the contribution. */
  predicate Covers(price: int, catalogueSubtotal: int, costs: Costs) {
    price >= catalogueSubtotal && price - CostTotal(costs) >= costs.minimumContributionMinor
  }

  /** The final total is the least whole ten-rand price that covers everything. */
  lemma FloorIsLeast(catalogueSubtotal: int, costs: Costs, price: int)
    requires ApplyFloor(catalogueSubtotal, costs).Ok?
    ensures var total := ApplyFloor(catalogueSubtotal, costs).value.finalTotalMinor;
            IsTenRandPrice(total) && Covers(total, catalogueSubtotal, costs) &&
            (IsTenRandPrice(price) && Covers(price, catalogueSubtotal, costs) ==> total <= price)
  {
    var f := ApplyFloor(catalogueSubtotal, costs).value;
    if IsTenRandPrice(price) && Covers(price, catalogueSubtotal, costs) && price < f.finalTotalMinor {
      assert f.preRoundingTotalMinor <= price;
      MultiplesAreApart(price, f.finalTotalMinor);
      assert false;
    }
  }

  lemma MultiplesAreApart(a: int, b: int)
    requires a % TEN_RAND_MINOR == 0 && b % TEN_RAND_MINOR == 0 && a < b
    ensures a + TEN_RAND_MINOR <= b
  {
    assert a == a / TEN_RAND_MINOR * TEN_RAND_MINOR && b == b / TEN_RAND_MINOR * TEN_RAND_MINOR;
  }

  /** The two adjustments account for the whole difference to the catalogue; neither is negative. */
  lemma AdjustmentsAccountForTheTotal(catalogueSubtotal: int, costs: Costs)
    requires ApplyFloor(catalogueSubtotal, costs).Ok?
    ensures var f := ApplyFloor(catalogueSubtotal, costs).value;
            f.catalogueSubtotalMinor + f.profitabilityAdjustmentMinor + f.roundingAdjustmentMinor == f.finalTotalMinor
            && f.profitabilityAdjustmentMinor >= 0 && 0 <= f.roundingAdjustmentMinor < TEN_RAND_MINOR
            && (f.profitabilityAdjustmentMinor == 0 <==> Covers(catalogueSubtotal, catalogueSubtotal, costs))
  {
  }

  predicate NoDearer(costs: Costs, costs': Costs) {
    costs.labourMinor <= costs'.labourMinor && costs.deploymentMinor <= costs'.deploymentMinor
    && costs.consumablesMinor <= costs'.consumablesMinor
    && costs.equipmentVehicleReserveMinor <= costs'.equipmentVehicleReserveMinor
    && costs.overheadMinor <= costs'.overheadMinor
    && costs.minimumContributionMinor <= costs'.minimumContributionMinor
  }

  /** Dearer work or a dearer catalogue never lowers the price. */
  lemma FloorIsMonotone(subtotal: int, costs: Costs, subtotal': int, costs': Costs)
    requires subtotal <= subtotal' && NoDearer(costs, costs')
    requires ApplyFloor(subtotal, costs).Ok? && ApplyFloor(subtotal', costs').Ok?
    ensures ApplyFloor(subtotal, costs).value.finalTotalMinor <= ApplyFloor(subtotal', costs').value.finalTotalMinor
  {
    var total' := ApplyFloor(subtotal', costs').value.finalTotalMinor;
    FloorIsLeast(subtotal', costs', 0);
    FloorIsLeast(subtotal, costs, total');
  }
}
