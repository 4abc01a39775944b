/**
 The approved cost model: cleaner-hours, six cost buckets, and the provider
 that fails closed when a fact is missing.
 (apps/api/src/quotes/approved-quote-cost-model.ts, approved-quote-operational-cost-provider.ts,
 quote-operational-cost-source.ts)
 */
module QuoteCosts {
  import opened Prelude
  import opened QuoteFacts
  import opened QuoteProfitability
  import PostEventCleaning

  type FloorSize = PostEventCleaning.FloorSize

  // ---- cleaner-hours, in half-hours ----------------------------------------------------------

  function FloorHalfHours(service: Service, size: FloorSize): Option<nat> {
    match size
    case UnknownSize => None
    case From300Up => None
    case Under40 => Some(PerService(service, 8, 24, 29))
    case From40To59 => Some(PerService(service, 10, 25, 30))
    case From60To79 => Some(PerService(service, 12, 28, 32))
    case From80To99 => Some(PerService(service, 16, 30, 35))
    case From100To129 => Some(PerService(service, 20, 32, 37))
    case From130To169 => Some(PerService(service, 22, 37, 42))
    case From170To219 => Some(PerService(service, 24, 41, 46))
    case From220To299 => Some(PerService(service, 27, 46, 51))
  }

  /** The three approved labour matrices; move-in and move-out share one. */
  function PerService(service: Service, regular: nat, deep: nat, move: nat): nat {
    if service.RegularHome? then regular else if service.DeepCleaning? then deep else move
  }

  /** Half-hours for a first room and each further one, when the exact count is known. */
  function RoomHalfHours(count: Count, openEnded: Count, first: nat, further: nat): Option<nat> {
    var n := CountValue(count);
    if n.None? || count == openEnded then None else Some(first + (n.value - 1) * further)
  }

  /** `resolveApprovedCleanerHours`; None is NEEDS_ATTENTION. */
  function CleanerHalfHours(s: Submission): (r: Option<nat>)
    ensures r.Some? ==> s.service.Some? && r.value >= 8
  {
    if s.service.None? then None
    else
      match s.service.value
      case PostEventService =>
        if s.postEvent.None? then None
        else
          var resolved := PostEventCleaning.Resolve(s.floorSize, s.postEvent.value);
          if resolved.automaticPricingAllowed then resolved.totalHalfHours else None
      case BathroomSanitisation => RoomHalfHours(s.bathrooms, FivePlus, 13, 5)
      case BedroomCleaning => RoomHalfHours(s.bedrooms, FivePlus, 11, 4)
      case LivingAreaCleaning => RoomHalfHours(s.livingAreas, FourPlus, 11, 4)
      case RegularHome => FloorHalfHours(RegularHome, s.floorSize)
      case DeepCleaning => FloorHalfHours(DeepCleaning, s.floorSize)
      case MoveIn => FloorHalfHours(MoveIn, s.floorSize)
      case MoveOut => FloorHalfHours(MoveOut, s.floorSize)
      case _ => None
  }

  // ---- cost buckets --------------------------------------------------------------------------

  function Ceil(x: real): (n: int)
    ensures x <= n as real < x + 1.0
  {
    -((-x).Floor)
  }

  function Hours(halfHours: nat): real {
    halfHours as real / 2.0
  }

  /** Wages with 1% employer UIF and the assessed COIDA rate. */
  function LabourMinor(halfHours: nat, coidaRate: real): (r: nat)
    requires coidaRate >= 0.0
  {
    var wages := 3327.0 * Hours(halfHours);
    LabourIsNonNegative(wages, coidaRate);
    Ceil(wages + wages * 0.01 + wages * coidaRate)
  }

  lemma LabourIsNonNegative(wages: real, coidaRate: real)
    requires wages >= 0.0 && coidaRate >= 0.0
    ensures wages * coidaRate >= 0.0
  {
  }

  function ConsumablesMinor(service: Service, halfHours: nat): nat {
    match service
    case RegularHome => Ceil(1000.0 + Hours(halfHours) * 250.0)
    case DeepCleaning => Ceil(1500.0 + Hours(halfHours) * 400.0)
    case MoveIn => Ceil(2000.0 + Hours(halfHours) * 450.0)
    case MoveOut => Ceil(2000.0 + Hours(halfHours) * 450.0)
    case KitchenCleaning => Ceil(1000.0 + Hours(halfHours) * 500.0)
    case BathroomSanitisation => Ceil(1000.0 + Hours(halfHours) * 500.0)
    case _ => Ceil(1000.0 + Hours(halfHours) * 400.0)
  }

  function EquipmentReserveMinor(halfHours: nat): nat {
    Ceil(Hours(halfHours) * 200.0)
  }

  function OverheadMinor(halfHours: nat): nat {
    Ceil(Hours(halfHours) * 2000.0)
  }

  function DeploymentMinor(routeKm: real): nat
    requires routeKm >= 0.0
  {
    Ceil(routeKm * 182.0)
  }

  const ABSOLUTE_MINIMUM_CONTRIBUTION_MINOR := 10_000

  /** R100, or a quarter of the cost if that is more. */
  function MinimumContributionMinor(costTotal: nat): nat {
    Max(ABSOLUTE_MINIMUM_CONTRIBUTION_MINOR, (costTotal + 3) / 4)
  }

  /** What the contribution guarantees: R100 over cost, and a fifth of the selling price. */
  lemma ContributionGivesTheMargin(costTotal: nat, price: int)
    requires price - costTotal >= MinimumContributionMinor(costTotal)
    ensures price - costTotal >= ABSOLUTE_MINIMUM_CONTRIBUTION_MINOR
    ensures 4 * price >= 5 * costTotal && 5 * (price - costTotal) >= price
  {
  }

  // ---- dearer facts, dearer costs ------------------------------------------------------------

  lemma CeilIsMonotone(x: real, y: real)
    requires x <= y
    ensures Ceil(x) <= Ceil(y)
  {
  }

  lemma ProductIsMonotone(x: real, y: real, x': real, y': real)
    requires 0.0 <= x <= x' && 0.0 <= y <= y'
    ensures x * y <= x' * y'
  {
    assert x * y <= x' * y;
    assert x' * y <= x' * y';
  }

  lemma LabourIsMonotone(halfHours: nat, coidaRate: real, halfHours': nat, coidaRate': real)
    requires halfHours <= halfHours' && 0.0 <= coidaRate <= coidaRate'
    ensures LabourMinor(halfHours, coidaRate) <= LabourMinor(halfHours', coidaRate')
  {
    hide Ceil;
    var wages, wages' := 3327.0 * Hours(halfHours), 3327.0 * Hours(halfHours');
    var cover, cover' := wages * coidaRate, wages' * coidaRate';
    assert cover <= cover' by { ProductIsMonotone(wages, coidaRate, wages', coidaRate'); }
    CeilIsMonotone(wages + wages * 0.01 + cover, wages' + wages' * 0.01 + cover');
  }

  /** More hours, a higher rate or a longer route lower no bucket. */
  lemma BucketsAreMonotone(service: Service, halfHours: nat, coidaRate: real, routeKm: real,
                           halfHours': nat, coidaRate': real, routeKm': real)
    requires halfHours <= halfHours' && 0.0 <= coidaRate <= coidaRate' && 0.0 <= routeKm <= routeKm'
    ensures LabourMinor(halfHours, coidaRate) <= LabourMinor(halfHours', coidaRate')
    ensures DeploymentMinor(routeKm) <= DeploymentMinor(routeKm')
    ensures ConsumablesMinor(service, halfHours) <= ConsumablesMinor(service, halfHours')
    ensures EquipmentReserveMinor(halfHours) <= EquipmentReserveMinor(halfHours')
    ensures OverheadMinor(halfHours) <= OverheadMinor(halfHours')
  {
    LabourIsMonotone(halfHours, coidaRate, halfHours', coidaRate');
    hide LabourMinor;
  }

  lemma ContributionIsMonotone(costTotal: nat, costTotal': nat)
    requires costTotal <= costTotal'
    ensures MinimumContributionMinor(costTotal) <= MinimumContributionMinor(costTotal')
  {
  }

  // ---- candidates and their validation -------------------------------------------------------

  datatype Component =
    | Labour | Deployment | Consumables | EquipmentVehicleReserve | Overhead | MinimumContribution

  const COMPONENTS: seq<Component> :=
    [Labour, Deployment, Consumables, EquipmentVehicleReserve, Overhead, MinimumContribution]

  /** A provider's answer: any of the six amounts may be absent, negative or not whole. */
  type Candidate = map<Component, real>

  datatype Resolution =
    | Ready(costs: Costs)
    | NeedsAttention(missing: seq<Component>, invalid: seq<Component>)

  predicate IsAmount(value: real) {
    PostEventCleaning.IsWhole(value) && value >= 0.0
  }

  datatype Finding = IsMissing | IsInvalid | IsUsable

  function Judge(candidate: Candidate, c: Component): Finding {
    if c !in candidate then IsMissing else if IsAmount(candidate[c]) then IsUsable else IsInvalid
  }

  /** The components of one finding, in the order they are listed. */
  function Those(candidate: Candidate, components: seq<Component>, finding: Finding): seq<Component> {
    if components == [] then []
    else
      var last := components[|components| - 1];
      Those(candidate, components[..|components| - 1], finding) +
      (if Judge(candidate, last) == finding then [last] else [])
  }

  function CostsOf(candidate: Candidate): Costs
    requires forall c :: c in candidate
  {
    Costs(candidate[Labour].Floor, candidate[Deployment].Floor, candidate[Consumables].Floor,
          candidate[EquipmentVehicleReserve].Floor, candidate[Overhead].Floor, candidate[MinimumContribution].Floor)
  }

  lemma {:induction false} ThoseAreThose(candidate: Candidate, components: seq<Component>, finding: Finding)
    ensures forall c :: c in Those(candidate, components, finding) <==>
                        c in components && Judge(candidate, c) == finding
    decreases |components|
  {
    if components != [] {
      var front, last := components[..|components| - 1], components[|components| - 1];
      assert components == front + [last];
      ThoseAreThose(candidate, front, finding);
    }
  }

  predicate AllAmounts(candidate: Candidate) {
    forall c: Component :: c in candidate && IsAmount(candidate[c])
  }

  lemma EveryComponentIsListed(c: Component)
    ensures c in COMPONENTS
  {
    match c
    case Labour => assert COMPONENTS[0] == c;
    case Deployment => assert COMPONENTS[1] == c;
    case Consumables => assert COMPONENTS[2] == c;
    case EquipmentVehicleReserve => assert COMPONENTS[3] == c;
    case Overhead => assert COMPONENTS[4] == c;
    case MinimumContribution => assert COMPONENTS[5] == c;
  }

  lemma NothingToReportExactlyWhen(candidate: Candidate)
    ensures Those(candidate, COMPONENTS, IsMissing) == [] && Those(candidate, COMPONENTS, IsInvalid) == []
       <==> AllAmounts(candidate)
  {
    var missing, invalid := Those(candidate, COMPONENTS, IsMissing), Those(candidate, COMPONENTS, IsInvalid);
    ThoseAreThose(candidate, COMPONENTS, IsMissing);
    ThoseAreThose(candidate, COMPONENTS, IsInvalid);
    hide Those, IsAmount;
    if missing == [] && invalid == [] {
      forall c: Component
        ensures c in candidate && IsAmount(candidate[c])
      {
        EveryComponentIsListed(c);
        assert c !in missing && c !in invalid;
      }
    } else if missing != [] {
      assert missing[0] in missing;
    } else {
      assert invalid[0] in invalid;
    }
  }

  /** `validateOperationalCostCandidate` */
  function Validate(candidate: Candidate): Resolution {
    if AllAmounts(candidate) then Ready(CostsOf(candidate)) else
      NeedsAttention(Those(candidate, COMPONENTS, IsMissing), Those(candidate, COMPONENTS, IsInvalid))
  }

  /** The source's loop over the six components. */
  method ValidateCandidate(candidate: Candidate) returns (r: Resolution)
    ensures r == Validate(candidate)
  {
    var missing: seq<Component>, invalid: seq<Component> := [], [];
    for i := 0 to |COMPONENTS|
      invariant missing == Those(candidate, COMPONENTS[..i], IsMissing)
      invariant invalid == Those(candidate, COMPONENTS[..i], IsInvalid)
    {
      var component := COMPONENTS[i];
      assert COMPONENTS[..i + 1] == COMPONENTS[..i] + [component];
      if component !in candidate {
        missing := missing + [component];
      } else if !IsAmount(candidate[component]) {
        invalid := invalid + [component];
      }
    }
    assert COMPONENTS[..|COMPONENTS|] == COMPONENTS;
    NothingToReportExactlyWhen(candidate);
    if missing != [] || invalid != [] {
      return NeedsAttention(missing, invalid);
    }
    return Ready(CostsOf(candidate));
  }

  // ---- the approved provider -----------------------------------------------------------------

  datatype ProviderError = InvalidCoidaRate | InvalidRouteDistance

  /** The facts a provider call depends on: the assessed rate and the allocated route. */
  datatype CostFacts = CostFacts(coidaRate: Option<real>, routeKm: Option<real>)

  /** The call throws on a negative rate it uses, or on a negative distance. */
  function ProviderFailure(s: Submission, facts: CostFacts): Option<ProviderError> {
    if CleanerHalfHours(s).Some? && facts.coidaRate.Some? && facts.coidaRate.value < 0.0 then Some(InvalidCoidaRate)
    else if facts.routeKm.Some? && facts.routeKm.value < 0.0 then Some(InvalidRouteDistance)
    else None
  }

  /** The first five buckets, each on the facts it needs and no others. */
  function Bucket(s: Submission, facts: CostFacts, c: Component): Option<nat>
    requires ProviderFailure(s, facts).None? && c != MinimumContribution
  {
    var halfHours := CleanerHalfHours(s);
    if c == Deployment then (if facts.routeKm.Some? then Some(DeploymentMinor(facts.routeKm.value)) else None)
    else if halfHours.None? then None
    else if c == Labour then
      (if facts.coidaRate.Some? then Some(LabourMinor(halfHours.value, facts.coidaRate.value)) else None)
    else if c == Consumables then Some(ConsumablesMinor(s.service.value, halfHours.value))
    else if c == EquipmentVehicleReserve then Some(EquipmentReserveMinor(halfHours.value))
    else Some(OverheadMinor(halfHours.value))
  }

  /** The facts a complete cost answer rests on. */
  predicate FactsKnown(s: Submission, facts: CostFacts) {
    CleanerHalfHours(s).Some? && facts.coidaRate.Some? && facts.routeKm.Some?
  }

  function FiveBuckets(s: Submission, facts: CostFacts): nat
    requires ProviderFailure(s, facts).None? && FactsKnown(s, facts)
  {
    Bucket(s, facts, Labour).value + Bucket(s, facts, Deployment).value + Bucket(s, facts, Consumables).value
    + Bucket(s, facts, EquipmentVehicleReserve).value + Bucket(s, facts, Overhead).value
  }

  function Amount(s: Submission, facts: CostFacts, c: Component): Option<nat>
    requires ProviderFailure(s, facts).None?
  {
    if c != MinimumContribution then Bucket(s, facts, c)
    else if FactsKnown(s, facts) then Some(MinimumContributionMinor(FiveBuckets(s, facts)))
    else None
  }

  predicate Holds(candidate: Candidate, c: Component, amount: Option<nat>) {
    if amount.Some? then c in candidate && candidate[c] == amount.value as real else c !in candidate
  }

  /** `resolve` of the approved provider: fills what it can and leaves the rest out. */
  method ResolveCandidate(s: Submission, facts: CostFacts) returns (r: Result<Candidate, ProviderError>)
    ensures match ProviderFailure(s, facts)
            case Some(error) => r == Err(error)
            case None => r.Ok? && forall c :: Holds(r.value, c, Amount(s, facts, c))
  {
    hide CleanerHalfHours, ConsumablesMinor, LabourMinor, DeploymentMinor, EquipmentReserveMinor, OverheadMinor;
    hide MinimumContributionMinor;
    var halfHours := CleanerHalfHours(s);
    var candidate: Candidate := map[];
    if halfHours.Some? {
      candidate := candidate[Consumables := ConsumablesMinor(s.service.value, halfHours.value) as real];
      candidate := candidate[EquipmentVehicleReserve := EquipmentReserveMinor(halfHours.value) as real];
      candidate := candidate[Overhead := OverheadMinor(halfHours.value) as real];
      if facts.coidaRate.Some? {
        if facts.coidaRate.value < 0.0 {
          return Err(InvalidCoidaRate);
        }
        candidate := candidate[Labour := LabourMinor(halfHours.value, facts.coidaRate.value) as real];
      }
    }
    if facts.routeKm.Some? {
      if facts.routeKm.value < 0.0 {
        return Err(InvalidRouteDistance);
      }
      candidate := candidate[Deployment := DeploymentMinor(facts.routeKm.value) as real];
    }
    assert forall c | c != MinimumContribution :: Holds(candidate, c, Bucket(s, facts, c));
    if Labour in candidate && Deployment in candidate && Consumables in candidate &&
       EquipmentVehicleReserve in candidate && Overhead in candidate
    {
      var total := candidate[Labour] + candidate[Deployment] + candidate[Consumables]
                   + candidate[EquipmentVehicleReserve] + candidate[Overhead];
      assert total == FiveBuckets(s, facts) as real;
      candidate := candidate[MinimumContribution := MinimumContributionMinor(total.Floor) as real];
    }
    return Ok(candidate);
  }

  /** The costs a complete answer stands for. */
  function ApprovedCosts(s: Submission, facts: CostFacts): (costs: Costs)
    requires ProviderFailure(s, facts).None? && FactsKnown(s, facts)
    ensures AreAmounts(costs)
  {
    Costs(Bucket(s, facts, Labour).value, Bucket(s, facts, Deployment).value, Bucket(s, facts, Consumables).value,
          Bucket(s, facts, EquipmentVehicleReserve).value, Bucket(s, facts, Overhead).value,
          MinimumContributionMinor(FiveBuckets(s, facts)))
  }

  /** Fails closed: the costs are ready exactly when hours, rate and route are all known. */
  lemma ReadyExactlyWhenFactsAreKnown(s: Submission, facts: CostFacts, candidate: Candidate)
    requires ProviderFailure(s, facts).None? && forall c :: Holds(candidate, c, Amount(s, facts, c))
    ensures Validate(candidate).Ready? <==> FactsKnown(s, facts)
    ensures FactsKnown(s, facts) ==> Validate(candidate) == Ready(ApprovedCosts(s, facts))
  {
    hide CleanerHalfHours, ConsumablesMinor, LabourMinor, DeploymentMinor, EquipmentReserveMinor, OverheadMinor;
    hide MinimumContributionMinor, Those;
    assert Holds(candidate, Labour, Amount(s, facts, Labour));
    assert Holds(candidate, Deployment, Amount(s, facts, Deployment));
    assert Holds(candidate, Consumables, Amount(s, facts, Consumables));
    assert Holds(candidate, EquipmentVehicleReserve, Amount(s, facts, EquipmentVehicleReserve));
    assert Holds(candidate, Overhead, Amount(s, facts, Overhead));
    assert Holds(candidate, MinimumContribution, Amount(s, facts, MinimumContribution));
    if FactsKnown(s, facts) {
      forall c: Component
        ensures c in candidate && IsAmount(candidate[c])
      {
        assert Holds(candidate, c, Amount(s, facts, c));
      }
    }
  }

  /** From the provider to the price: a floored total keeps R100 and a fifth of itself over the costs. */
  lemma ApprovedCostsCarryTheMargin(s: Submission, facts: CostFacts, subtotal: int)
    requires ProviderFailure(s, facts).None? && FactsKnown(s, facts) && subtotal >= 0
    ensures var costs := ApprovedCosts(s, facts);
            var floor := ApplyFloor(subtotal, costs);
            floor.Ok? && KeepsTheMargin(floor.value.finalTotalMinor, subtotal, costs)
  {
    hide Bucket, CleanerHalfHours, FactsKnown;
    var costs := ApprovedCosts(s, facts);
    assert CostTotal(costs) == FiveBuckets(s, facts);
    FloorIsLeast(subtotal, costs, 0);
    ContributionGivesTheMargin(FiveBuckets(s, facts), ApplyFloor(subtotal, costs).value.finalTotalMinor);
    hide ApplyFloor, FiveBuckets, MinimumContributionMinor, ApprovedCosts;
  }

  lemma DearerFactsMeanDearerCosts(s: Submission, facts: CostFacts, s': Submission, facts': CostFacts)
    requires ProviderFailure(s, facts).None? && FactsKnown(s, facts)
    requires ProviderFailure(s', facts').None? && FactsKnown(s', facts')
    requires s.service == s'.service && CleanerHalfHours(s).value <= CleanerHalfHours(s').value
    requires facts.coidaRate.value <= facts'.coidaRate.value && facts.routeKm.value <= facts'.routeKm.value
    ensures QuoteProfitability.NoDearer(ApprovedCosts(s, facts), ApprovedCosts(s', facts'))
  {
    hide CleanerHalfHours, ConsumablesMinor, LabourMinor, DeploymentMinor, EquipmentReserveMinor, OverheadMinor;
    hide MinimumContributionMinor;
    BucketsAreMonotone(s.service.value, CleanerHalfHours(s).value, facts.coidaRate.value, facts.routeKm.value,
                       CleanerHalfHours(s').value, facts'.coidaRate.value, facts'.routeKm.value);
    ContributionIsMonotone(FiveBuckets(s, facts), FiveBuckets(s', facts'));
  }

  /** From the facts to the price: for one service, more hours, a higher rate or a longer route never cost less. */
  lemma DearerFactsNeverLowerThePrice(s: Submission, facts: CostFacts, subtotal: int,
                                      s': Submission, facts': CostFacts, subtotal': int)
    requires ProviderFailure(s, facts).None? && FactsKnown(s, facts)
    requires ProviderFailure(s', facts').None? && FactsKnown(s', facts')
    requires s.service == s'.service && CleanerHalfHours(s).value <= CleanerHalfHours(s').value
    requires facts.coidaRate.value <= facts'.coidaRate.value && facts.routeKm.value <= facts'.routeKm.value
    requires 0 <= subtotal <= subtotal'
    ensures var floor := ApplyFloor(subtotal, ApprovedCosts(s, facts));
            var floor' := ApplyFloor(subtotal', ApprovedCosts(s', facts'));
            floor.Ok? && floor'.Ok? && floor.value.finalTotalMinor <= floor'.value.finalTotalMinor
  {
    ApprovedCostsCarryTheMargin(s, facts, subtotal);
    ApprovedCostsCarryTheMargin(s', facts', subtotal');
    DearerFactsMeanDearerCosts(s, facts, s', facts');
    hide *;
    QuoteProfitability.FloorIsMonotone(subtotal, ApprovedCosts(s, facts), subtotal', ApprovedCosts(s', facts'));
  }

  /** What no offered price may fall short of. */
  predicate KeepsTheMargin(total: int, subtotal: int, costs: Costs) {
    total >= subtotal && total % TEN_RAND_MINOR == 0
    && total - CostTotal(costs) >= ABSOLUTE_MINIMUM_CONTRIBUTION_MINOR
    && 4 * total >= 5 * CostTotal(costs)
  }
}
