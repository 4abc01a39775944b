/**
 What a price charges for, read line by line: rooms, sizes, laundry loads and reviewed add-ons, and which review each
 open fact calls for.
 (apps/api/src/quotes/website-quote-pricing.ts, quote-admin-repricing.ts, laundry-operating-model.ts,
 approved-quote-cost-model.ts)
 */
module QuotePricingEffects {
  import opened Prelude
  import opened QuoteFacts
  import opened QuoteProfitability
  import opened QuotePricing
  import Costing = QuoteCosts
  import PostEventCleaning

  // ---- rooms ---------------------------------------------------------------------------------

  function QuantitySum(lines: seq<Line>): int {
    if lines == [] then 0 else lines[0].quantity + QuantitySum(lines[1..])
  }

  /** The rooms charged for: all of them, and one when the count is not known. */
  function RoomsOf(count: Count): nat {
    if CountValue(count).Some? then CountValue(count).value else 1
  }

  /** The room lines add up to the room count, the first room at its own price and each further one at another. */
  lemma RoomsAddUp(count: Count, openEnded: Count, first: string, further: string, firstMinor: nat, furtherMinor: nat)
    ensures var lines := RoomSheet(count, openEnded, first, further, firstMinor, furtherMinor).lines;
            1 <= RoomsOf(count) <= 5 && QuantitySum(lines) == RoomsOf(count) &&
            Subtotal(lines) == firstMinor + (RoomsOf(count) - 1) * furtherMinor &&
            lines[0].code == first && (forall i | 0 < i < |lines| :: lines[i].code == further)
  {
    var one := MakeLine(first, 1, firstMinor);
    var rest := MakeLine(further, RoomsOf(count) - 1, furtherMinor);
    OneLine(one);
    TwoLines(one, rest);
    assert RoomSheet(count, openEnded, first, further, firstMinor, furtherMinor).lines
        == if RoomsOf(count) > 1 then [one, rest] else [one];
    assert rest.lineAmountMinor == (RoomsOf(count) - 1) * furtherMinor;
    hide Subtotal, QuantitySum;
  }

  lemma OneLine(a: Line)
    ensures QuantitySum([a]) == a.quantity && Subtotal([a]) == a.lineAmountMinor
  {
    assert [a][..0] == [] && [a][1..] == [];
  }

  lemma TwoLines(a: Line, b: Line)
    ensures QuantitySum([a, b]) == a.quantity + b.quantity && Subtotal([a, b]) == a.lineAmountMinor + b.lineAmountMinor
  {
    assert [a, b][..1] == [a] && [a, b][1..] == [b];
    OneLine(a);
    OneLine(b);
  }

  /** More rooms are dearer, and take longer, by the same step for every further room. */
  lemma EveryFurtherRoomCountsTheSame(count: Count, more: Count, openEnded: Count, first: nat, further: nat)
    requires CountValue(count).Some? && CountValue(more).Some? && count != openEnded && more != openEnded
    requires CountValue(more).value == CountValue(count).value + 1
    ensures var hours, longer := Costing.RoomHalfHours(count, openEnded, first, further),
                                 Costing.RoomHalfHours(more, openEnded, first, further);
            hours.Some? && longer.Some? && longer.value == hours.value + further
    ensures Costing.RoomHalfHours(CountOne, FivePlus, first, further) == Some(first)
  {
    var n := CountValue(count).value;
    assert (n + 1 - 1) * further == (n - 1) * further + further;
  }

  // ---- sizes ---------------------------------------------------------------------------------

  const REGULAR_PRICES: seq<nat> := [65_000, 70_000, 75_000, 80_000, 87_500, 97_500, 105_000, 120_000, 135_000]
  const DEEP_PRICES: seq<nat> := [100_000, 105_000, 115_000, 125_000, 135_000, 155_000, 170_000, 190_000, 220_000]
  const MOVE_PRICES: seq<nat> := [120_000, 125_000, 135_000, 145_000, 155_000, 175_000, 190_000, 210_000, 245_000]

  /** The price lists by size, smallest first; a larger home is dearer, a deep clean dearer, a move dearest. */
  lemma PriceListsGrow(service: Service, size: FloorSize, larger: FloorSize)
    requires IsFloorPriced(service) && !size.UnknownSize? && !larger.UnknownSize?
    ensures FloorPrice(service, size)
         == (if service == RegularHome then REGULAR_PRICES else if service == DeepCleaning then DEEP_PRICES
             else MOVE_PRICES)[PostEventCleaning.SizeRank(size)]
    ensures PostEventCleaning.SizeRank(size) < PostEventCleaning.SizeRank(larger) ==> FloorPrice(service, size) < FloorPrice(service, larger)
    ensures FloorPrice(RegularHome, size) < FloorPrice(DeepCleaning, size) < FloorPrice(MoveIn, size)
    ensures FloorPrice(MoveIn, size) == FloorPrice(MoveOut, size)
  {
  }

  const REGULAR_HALF_HOURS: seq<nat> := [8, 10, 12, 16, 20, 22, 24, 27]
  const DEEP_HALF_HOURS: seq<nat> := [24, 25, 28, 30, 32, 37, 41, 46]
  const MOVE_HALF_HOURS: seq<nat> := [29, 30, 32, 35, 37, 42, 46, 51]

  /** The labour matrices likewise; the open-ended and the unknown size have no hours. */
  lemma HoursGrowWithSize(service: Service, size: FloorSize, larger: FloorSize)
    requires IsFloorPriced(service)
    ensures Costing.FloorHalfHours(service, size)
         == if PostEventCleaning.SizeRank(size) >= 8 then None
            else Some((if service == RegularHome then REGULAR_HALF_HOURS else if service == DeepCleaning then DEEP_HALF_HOURS
                       else MOVE_HALF_HOURS)[PostEventCleaning.SizeRank(size)])
    ensures PostEventCleaning.SizeRank(size) < PostEventCleaning.SizeRank(larger) < 8 ==>
              Costing.FloorHalfHours(service, size).value < Costing.FloorHalfHours(service, larger).value
    ensures PostEventCleaning.SizeRank(size) < 8 ==>
              Costing.FloorHalfHours(RegularHome, size).value < Costing.FloorHalfHours(DeepCleaning, size).value
                < Costing.FloorHalfHours(MoveIn, size).value
  {
  }

  /** Rooms counted exactly, by service: none for an open-ended or unusable count. */
  function ExactRooms(s: Submission): Option<nat> {
    if s.service == Some(BathroomSanitisation) && s.bathrooms != FivePlus then CountValue(s.bathrooms)
    else if s.service == Some(BedroomCleaning) && s.bedrooms != FivePlus then CountValue(s.bedrooms)
    else if s.service == Some(LivingAreaCleaning) && s.livingAreas != FourPlus then CountValue(s.livingAreas)
    else None
  }

  /** When cleaner-hours are known: sizes below 300 m2, exact room counts, and events priced automatically. */
  lemma HoursAreKnownExactlyWhen(s: Submission)
    ensures Costing.CleanerHalfHours(s).Some? <==>
              (IsPricedByFloor(s) && PostEventCleaning.SizeRank(s.floorSize) < 8) || ExactRooms(s).Some? ||
              (s.service == Some(PostEventService) && s.postEvent.Some? &&
               PostEventCleaning.Resolve(s.floorSize, s.postEvent.value).automaticPricingAllowed)
    ensures IsPricedByFloor(s) ==> Costing.CleanerHalfHours(s) == Costing.FloorHalfHours(s.service.value, s.floorSize)
    ensures ExactRooms(s).Some? ==>
              Costing.CleanerHalfHours(s)
                == Some(if s.service == Some(BathroomSanitisation) then 13 + 5 * (ExactRooms(s).value - 1)
                        else 11 + 4 * (ExactRooms(s).value - 1))
  {
    if s.service == Some(PostEventService) && s.postEvent.Some? {
      PostEventCleaning.RefusalsAreExplained(s.floorSize, s.postEvent.value);
    }
    hide PostEventCleaning.Resolve, CountValue;
  }

  /** Which hours, rate and distance make which amount, with the contribution over their sum. */
  lemma CostsAreMadeOfTheirFacts(s: Submission, facts: Costing.CostFacts)
    requires Costing.ProviderFailure(s, facts).None? && Costing.FactsKnown(s, facts)
    ensures var costs, hours := Costing.ApprovedCosts(s, facts), Costing.CleanerHalfHours(s).value;
            costs.labourMinor == Costing.LabourMinor(hours, facts.coidaRate.value) &&
            costs.deploymentMinor == Costing.DeploymentMinor(facts.routeKm.value) &&
            costs.consumablesMinor == Costing.ConsumablesMinor(s.service.value, hours) &&
            costs.equipmentVehicleReserveMinor == Costing.EquipmentReserveMinor(hours) &&
            costs.overheadMinor == Costing.OverheadMinor(hours) &&
            costs.minimumContributionMinor
              == Costing.MinimumContributionMinor(costs.labourMinor + costs.deploymentMinor + costs.consumablesMinor +
                                                  costs.equipmentVehicleReserveMinor + costs.overheadMinor)
  {
    hide Costing.CleanerHalfHours, Costing.LabourMinor, Costing.DeploymentMinor, Costing.ConsumablesMinor;
    hide Costing.EquipmentReserveMinor, Costing.OverheadMinor, Costing.MinimumContributionMinor;
  }

  // ---- cost rates ----------------------------------------------------------------------------

  /** What starting a job and one cleaner-hour of it use up. */
  function ConsumableRates(service: Service): (nat, nat) {
    match service
    case RegularHome => (1_000, 250)
    case DeepCleaning => (1_500, 400)
    case MoveIn => (2_000, 450)
    case MoveOut => (2_000, 450)
    case KitchenCleaning => (1_000, 500)
    case BathroomSanitisation => (1_000, 500)
    case _ => (1_000, 400)
  }

  /** Whole hours and kilometres cost exactly their rates: nothing is rounded. */
  lemma WholeHoursCostTheirRates(service: Service, hours: nat, km: nat)
    ensures Costing.ConsumablesMinor(service, 2 * hours)
         == ConsumableRates(service).0 + hours * ConsumableRates(service).1
    ensures Costing.EquipmentReserveMinor(2 * hours) == 200 * hours
    ensures Costing.OverheadMinor(2 * hours) == 2_000 * hours
    ensures Costing.DeploymentMinor(km as real) == 182 * km
    ensures Costing.LabourMinor(200 * hours, 0.0) == 336_027 * hours
  {
    assert Costing.Hours(2 * hours) == hours as real;
    assert Costing.Hours(200 * hours) == 100.0 * hours as real;
    assert 3327.0 * (100.0 * hours as real) + 3327.0 * (100.0 * hours as real) * 0.01 == (336_027 * hours) as real;
  }

  /** The assessed rate is a share of the wages: at a rate of one, labour costs the wages once more. */
  lemma TheRateIsAShareOfWages(hours: nat, rate: nat)
    ensures Costing.LabourMinor(200 * hours, rate as real) == 336_027 * hours + 332_700 * hours * rate
  {
    var wages := 3327.0 * Costing.Hours(200 * hours);
    assert wages == (332_700 * hours) as real;
    assert wages * (rate as real) == ((332_700 * hours) * rate) as real;
    assert wages + wages * 0.01 == (336_027 * hours) as real;
  }

  /** Half an hour costs half the hourly rate, rounded up to the cent. */
  lemma HalfHoursRoundUp(service: Service, halfHours: nat)
    ensures 2 * ConsumableRates(service).0 + halfHours * ConsumableRates(service).1
              <= 2 * Costing.ConsumablesMinor(service, halfHours)
              <= 2 * ConsumableRates(service).0 + halfHours * ConsumableRates(service).1 + 1
    ensures Costing.EquipmentReserveMinor(halfHours) == 100 * halfHours
    ensures Costing.OverheadMinor(halfHours) == 1_000 * halfHours
  {
    var h := Costing.Hours(halfHours);
    assert h * 200.0 == (100 * halfHours) as real && h * 2000.0 == (1_000 * halfHours) as real;
    assert 2.0 * (h * 250.0) == (halfHours * 250) as real && 2.0 * (h * 400.0) == (halfHours * 400) as real;
    assert 2.0 * (h * 450.0) == (halfHours * 450) as real && 2.0 * (h * 500.0) == (halfHours * 500) as real;
  }

  /** The contribution is R100, or a quarter of the costs, rounded up, once they pass R400. */
  lemma ContributionIsTheGreater(costTotal: nat)
    ensures var m := Costing.MinimumContributionMinor(costTotal);
            if costTotal <= 40_000 then m == 10_000 else 4 * m - 3 <= costTotal <= 4 * m
  {
  }

  // ---- which review a fact calls for ---------------------------------------------------------

  predicate Asks(reasons: seq<Reason>, code: ReasonCode) {
    Reason(code, None) in reasons
  }

  predicate IsRoomService(s: Submission) {
    s.service == Some(BathroomSanitisation) || s.service == Some(LivingAreaCleaning) ||
    (s.service == Some(BedroomCleaning) && s.bedrooms != OtherCount)
  }

  predicate IsOpenEnded(s: Submission) {
    (s.service == Some(BathroomSanitisation) && s.bathrooms == FivePlus) ||
    (s.service == Some(BedroomCleaning) && s.bedrooms == FivePlus) ||
    (s.service == Some(LivingAreaCleaning) && s.livingAreas == FourPlus)
  }

  predicate IsPricedByFloor(s: Submission) {
    s.service.Some? && IsFloorPriced(s.service.value)
  }

  /** Why an Admin is asked to look at the primary service, reason by reason. */
  predicate IsCause(s: Submission, code: ReasonCode) {
    match code
    case PrimaryServiceReview => s.service.None?
    case PostEventFactsRequired => s.service == Some(PostEventService) && s.postEvent.None?
    case FloorSizeRequired => IsPricedByFloor(s) && s.floorSize.UnknownSize?
    case FromPriceRequiresReview => IsPricedByFloor(s) && s.floorSize.From300Up?
    case RoomConfigurationReview => s.service == Some(RegularHome) && !s.floorSize.UnknownSize?
    case OpenEndedCount => IsOpenEnded(s)
    case RoomTypeReview => IsRoomService(s)
    case RoomCountReview => s.service == Some(BedroomCleaning) && s.bedrooms == OtherCount
    case AssessmentRequired => s.service == Some(PostRenovation)
    case KitchenScopeRequired => s.service == Some(KitchenCleaning)
    case WindowCountReview => s.service == Some(InteriorWindows)
    case UnsupportedPrimaryPricing => s.service.Some? && s.service.value.OtherService?
    case _ => false
  }

  lemma EventReasonsAreEventReviews(s: Submission, code: ReasonCode)
    requires s.postEvent.Some? && Asks(PostEventSheet(s).reasons, code)
    ensures code.PostEventReview?
  {
    hide PostEventCleaning.Resolve, MakeLine;
  }

  lemma ReviewsNameTheirCause(s: Submission, code: ReasonCode)
    requires !code.PostEventReview?
    ensures Asks(PrimarySheet(s).reasons, code) <==> IsCause(s, code)
  {
    if s.service.None? {
      OneReason(PrimaryServiceReview, code);
    } else if s.service.value.PostEventService? {
      EventCauses(s, code);
    } else if IsFloorPriced(s.service.value) {
      FloorCauses(s, code);
    } else if IsRoomService(s) {
      RoomCauses(s, code);
    } else {
      SimpleCauses(s, code);
    }
    hide PrimarySheet, IsCause;
  }

  lemma EventCauses(s: Submission, code: ReasonCode)
    requires s.service == Some(PostEventService) && !code.PostEventReview?
    ensures Asks(PrimarySheet(s).reasons, code) <==> IsCause(s, code)
  {
    hide PostEventSheet, Asks;
    EventReasons(s, code);
  }

  lemma FloorCauses(s: Submission, code: ReasonCode)
    requires IsPricedByFloor(s) && !code.PostEventReview?
    ensures Asks(PrimarySheet(s).reasons, code) <==> IsCause(s, code)
  {
    hide FloorPricedSheet, Asks;
    FloorReasons(s.service.value, s.floorSize, code);
  }

  lemma RoomCauses(s: Submission, code: ReasonCode)
    requires IsRoomService(s) && !code.PostEventReview?
    ensures Asks(PrimarySheet(s).reasons, code) <==> IsCause(s, code)
  {
    hide RoomSheet, Asks;
    RoomReasons(s.bathrooms, FivePlus, "PRIMARY_BATHROOM_FIRST", "PRIMARY_BATHROOM_ADDITIONAL", 55_000, 20_000, code);
    RoomReasons(s.bedrooms, FivePlus, "PRIMARY_BEDROOM_FIRST", "PRIMARY_BEDROOM_ADDITIONAL", 45_000, 15_000, code);
    RoomReasons(s.livingAreas, FourPlus, "PRIMARY_LIVING_AREA_FIRST", "PRIMARY_LIVING_AREA_ADDITIONAL", 45_000, 15_000, code);
  }

  lemma SimpleCauses(s: Submission, code: ReasonCode)
    requires s.service.Some? && s.service != Some(PostEventService) && !IsPricedByFloor(s) && !IsRoomService(s)
    requires !code.PostEventReview?
    ensures Asks(PrimarySheet(s).reasons, code) <==> IsCause(s, code)
  {
    hide Asks, MakeLine;
    OneReason(RoomCountReview, code);
    OneReason(AssessmentRequired, code);
    OneReason(KitchenScopeRequired, code);
    OneReason(WindowCountReview, code);
    OneReason(UnsupportedPrimaryPricing, code);
  }

  lemma OneReason(given: ReasonCode, code: ReasonCode)
    ensures Asks(Because(given), code) <==> code == given
  {
  }

  lemma EventReasons(s: Submission, code: ReasonCode)
    requires !code.PostEventReview?
    ensures Asks(PostEventSheet(s).reasons, code) <==> code == PostEventFactsRequired && s.postEvent.None?
  {
    if s.postEvent.None? {
      EventlessSheet(s);
      OneReason(PostEventFactsRequired, code);
    } else if Asks(PostEventSheet(s).reasons, code) {
      EventReasonsAreEventReviews(s, code);
    }
    hide PostEventSheet;
  }

  lemma EventlessSheet(s: Submission)
    requires s.postEvent.None?
    ensures PostEventSheet(s).reasons == Because(PostEventFactsRequired)
  {
  }

  lemma RoomReasons(count: Count, openEnded: Count, first: string, further: string, firstMinor: nat, furtherMinor: nat,
                    code: ReasonCode)
    ensures Asks(RoomSheet(count, openEnded, first, further, firstMinor, furtherMinor).reasons, code) <==>
              code == RoomTypeReview || (code == OpenEndedCount && count == openEnded)
  {
    hide MakeLine, CountValue;
  }

  lemma FloorReasons(service: Service, size: FloorSize, code: ReasonCode)
    requires IsFloorPriced(service)
    ensures Asks(FloorPricedSheet(service, size).reasons, code) <==>
              (code == FloorSizeRequired && size.UnknownSize?) || (code == FromPriceRequiresReview && size.From300Up?) ||
              (code == RoomConfigurationReview && service == RegularHome && !size.UnknownSize?)
  {
    hide MakeLine, FloorPrice;
  }

  /** On the website every add-on is asked about once, in order. */
  lemma {:induction false} EveryAddOnIsAskedAbout(from: nat, count: nat)
    requires from <= count
    ensures |AddOnReasons(from, count)| == count - from
    ensures forall i | 0 <= i < count - from ::
              AddOnReasons(from, count)[i] == Reason(AddOnDetailRequired, Some(from + i))
    decreases count - from
  {
    if from < count {
      EveryAddOnIsAskedAbout(from + 1, count);
    }
  }

  // ---- laundry -------------------------------------------------------------------------------

  /** What stands in the way of pricing laundry. */
  predicate IsObstacle(service: Option<Service>, l: LaundryFacts, error: LaundryError) {
    match error
    case IneligiblePrimaryService =>
      (l.laundryLoads.Some? || l.ironingLoads.Some?) && service != Some(RegularHome) && service != Some(DeepCleaning)
    case FacilitiesRequired => l.laundryLoads.Some? && l.facilities.None?
    case WasherMissing => l.laundryLoads.Some? && l.facilities == Some(NoWasher)
    case InvalidLaundryLoads => l.laundryLoads.Some? && l.laundryLoads.value < 1
    case InvalidIroningLoads => l.ironingLoads.Some? && l.ironingLoads.value < 1
  }

  lemma ErrorsAreTheObstacles(service: Option<Service>, l: LaundryFacts, error: LaundryError)
    ensures error in LaundryErrors(service, l) <==> IsObstacle(service, l, error)
  {
  }

  /** A load costs R175 with a dryer and R125 on the line, and an ironing load R150; anything in the way stops both. */
  lemma LaundryIsChargedByTheLoad(s: Submission)
    requires s.websiteContractV2 && s.laundry.Some?
    ensures var l := s.laundry.value;
            if exists error :: IsObstacle(s.service, l, error) then LaundrySheet(s).lines == []
            else Subtotal(LaundrySheet(s).lines)
                   == (if l.laundryLoads.None? then 0
                       else l.laundryLoads.value * (if l.facilities == Some(WasherDryer) then 17_500 else 12_500))
                      + (if l.ironingLoads.None? then 0 else l.ironingLoads.value * 15_000)
  {
    var l := s.laundry.value;
    var errors := LaundryErrors(s.service, l);
    if exists error :: IsObstacle(s.service, l, error) {
      var error :| IsObstacle(s.service, l, error);
      ErrorsAreTheObstacles(s.service, l, error);
      assert errors != [];
    } else {
      assert errors == [] by {
        if errors != [] {
          ErrorsAreTheObstacles(s.service, l, errors[0]);
        }
      }
      LoadsAddUp(l);
      hide LaundryErrors, Subtotal;
    }
  }

  lemma LoadsAddUp(l: LaundryFacts)
    ensures Subtotal(Joined(WashSheet(l), IroningSheet(l)).lines)
         == (if l.laundryLoads.None? then 0
             else l.laundryLoads.value * (if l.facilities == Some(WasherDryer) then 17_500 else 12_500))
            + (if l.ironingLoads.None? then 0 else l.ironingLoads.value * 15_000)
  {
    var wash, ironing := WashSheet(l).lines, IroningSheet(l).lines;
    if wash == [] {
      assert wash + ironing == ironing;
      if ironing != [] { OneLine(ironing[0]); assert ironing == [ironing[0]]; }
    } else if ironing == [] {
      OneLine(wash[0]);
      assert wash + ironing == [wash[0]];
    } else {
      TwoLines(wash[0], ironing[0]);
      assert wash + ironing == [wash[0], ironing[0]];
    }
    hide Subtotal;
  }

  /** The eco-friendly preference is a line of its own that costs nothing. */
  lemma EcoFriendlyCostsNothing(s: Submission)
    ensures Subtotal(EcoSheet(s).lines) == 0 && EcoSheet(s).reasons == []
    ensures EcoSheet(s).lines != [] <==> s.ecoFriendlyProducts
  {
    OneLine(MakeLine("PREFERENCE_ECO_FRIENDLY", 1, 0));
    hide Subtotal;
    assert EcoSheet(s).lines == [] || EcoSheet(s).lines == [MakeLine("PREFERENCE_ECO_FRIENDLY", 1, 0)];
    EmptySubtotal();
  }

  lemma EmptySubtotal()
    ensures Subtotal([]) == 0
  {
  }

  // ---- reviewed add-ons ----------------------------------------------------------------------

  function UnitAmount(service: AddOnService, detail: ReviewDetail): Option<nat> {
    match service
    case PetHair => Some(15_000)
    case InsideOven =>
      (match detail.ovenSize
       case None => None
       case Some(size) =>
         Some((if size == StandardSingle then 35_000 else 50_000)
              + (if detail.severeBakedOnGrease == Some(true) then 15_000 else 0)))
    case GarageSweeping =>
      (match detail.garageSize
       case Some(SingleGarage) => Some(25_000)
       case Some(DoubleGarage) => Some(40_000)
       case _ => None)
    case ExtraBathroom =>
      (match detail.bathroomType
       case None => None
       case Some(kind) => Some(if kind == StandardBathroom then 20_000 else 30_000))
    case OtherAddOn(_) => None
  }

  /** A reviewed add-on is charged its amount for the detail the Admin gave, as many times as the customer asked. */
  lemma AddOnsAreChargedByTheirDetail(s: Submission, index: nat)
    requires index < |s.addOns|
    ensures var detail := if index in s.adminReview then s.adminReview[index] else ReviewDetail(None, None, None, None);
            var unit := UnitAmount(s.addOns[index].service, detail);
            var asked := if s.addOns[index].quantity.None? then 1 else s.addOns[index].quantity.value;
            if unit.Some?
            then |AddOnSheet(s, index).lines| == 1 && AddOnSheet(s, index).reasons == [] &&
                 AddOnSheet(s, index).lines[0].quantity == asked &&
                 AddOnSheet(s, index).lines[0].lineAmountMinor == unit.value * asked
            else AddOnSheet(s, index).lines == [] &&
                 AddOnSheet(s, index).reasons
                   == [Reason(if s.addOns[index].service == GarageSweeping && detail.garageSize == Some(LargerMultiCar)
                              then AddOnAssessmentRequired else AddOnDetailRequired, Some(index))]
  {
  }

  // ---- line types ----------------------------------------------------------------------------

  predicate AllOfType(lines: seq<Line>, kind: LineType) {
    forall i | 0 <= i < |lines| :: TypeOf(lines[i].code) == kind
  }

  lemma PrimaryPrefix(code: string)
    requires |code| >= 8 && code[..8] == "PRIMARY_"
    ensures TypeOf(code) == PrimaryServiceLine
  {
  }

  lemma AddOnPrefix(code: string)
    requires |code| >= 6 && code[..6] == "ADDON_"
    ensures TypeOf(code) == AddOnLine
  {
    assert code[0] == code[..6][0] == 'A';
    assert "PRIMARY_"[0] == 'P';
  }

  /** Stored lines are typed by where they come from. */
  lemma LinesAreTypedByOrigin(s: Submission, index: nat)
    requires index < |s.addOns|
    ensures AllOfType(PrimarySheet(s).lines, PrimaryServiceLine)
    ensures AllOfType(LaundrySheet(s).lines, AddOnLine) && AllOfType(EcoSheet(s).lines, AddOnLine)
    ensures AllOfType(AddOnSheet(s, index).lines, AddOnLine)
    ensures TypeOf(FLOOR_ADJUSTMENT) == AdjustmentLine
  {
    PrimaryLinesAreTyped(s);
    LaundryLinesAreTyped(s);
    AddOnLinesAreTyped(s, index);
    OtherLinesAreTyped();
    hide PrimarySheet, LaundrySheet, AddOnSheet, TypeOf;
  }

  lemma OtherLinesAreTyped()
    ensures TypeOf("PREFERENCE_ECO_FRIENDLY") == AddOnLine
    ensures TypeOf(FLOOR_ADJUSTMENT) == AdjustmentLine
  {
    var eco := "PREFERENCE_ECO_FRIENDLY";
    assert eco[..11] == "PREFERENCE_";
    assert eco[2] == 'E' && "PRIMARY_"[2] == 'I';
    assert FLOOR_ADJUSTMENT[2] == 'O' && "PREFERENCE_"[2] == 'E' && "ADDON_"[0] == 'A';
    assert FLOOR_ADJUSTMENT[0] == 'P';
    assert |FLOOR_ADJUSTMENT| >= 11;
  }

  lemma RoomLinesAreTyped(count: Count, openEnded: Count, first: string, further: string, firstMinor: nat, furtherMinor: nat)
    requires TypeOf(first) == PrimaryServiceLine && TypeOf(further) == PrimaryServiceLine
    ensures AllOfType(RoomSheet(count, openEnded, first, further, firstMinor, furtherMinor).lines, PrimaryServiceLine)
  {
    hide TypeOf, CountValue;
  }

  lemma PrimaryCodesAreTyped()
    ensures TypeOf("PRIMARY_REGULAR_HOME_CLEANING") == PrimaryServiceLine
    ensures TypeOf("PRIMARY_DEEP_CLEANING") == PrimaryServiceLine
    ensures TypeOf("PRIMARY_MOVE_IN_CLEANING") == PrimaryServiceLine
    ensures TypeOf("PRIMARY_MOVE_OUT_CLEANING") == PrimaryServiceLine
    ensures TypeOf("PRIMARY_POST_EVENT_CLEANING") == PrimaryServiceLine
    ensures TypeOf("PRIMARY_INTERIOR_WINDOWS_MINIMUM") == PrimaryServiceLine
    ensures TypeOf("PRIMARY_BATHROOM_FIRST") == PrimaryServiceLine
    ensures TypeOf("PRIMARY_BATHROOM_ADDITIONAL") == PrimaryServiceLine
    ensures TypeOf("PRIMARY_BEDROOM_FIRST") == PrimaryServiceLine
    ensures TypeOf("PRIMARY_BEDROOM_ADDITIONAL") == PrimaryServiceLine
    ensures TypeOf("PRIMARY_LIVING_AREA_FIRST") == PrimaryServiceLine
    ensures TypeOf("PRIMARY_LIVING_AREA_ADDITIONAL") == PrimaryServiceLine
  {
    hide TypeOf;
    PrimaryPrefix("PRIMARY_REGULAR_HOME_CLEANING");
    PrimaryPrefix("PRIMARY_DEEP_CLEANING");
    PrimaryPrefix("PRIMARY_MOVE_IN_CLEANING");
    PrimaryPrefix("PRIMARY_MOVE_OUT_CLEANING");
    PrimaryPrefix("PRIMARY_POST_EVENT_CLEANING");
    PrimaryPrefix("PRIMARY_INTERIOR_WINDOWS_MINIMUM");
    PrimaryPrefix("PRIMARY_BATHROOM_FIRST");
    PrimaryPrefix("PRIMARY_BATHROOM_ADDITIONAL");
    PrimaryPrefix("PRIMARY_BEDROOM_FIRST");
    PrimaryPrefix("PRIMARY_BEDROOM_ADDITIONAL");
    PrimaryPrefix("PRIMARY_LIVING_AREA_FIRST");
    PrimaryPrefix("PRIMARY_LIVING_AREA_ADDITIONAL");
  }

  lemma PrimaryLinesAreTyped(s: Submission)
    ensures AllOfType(PrimarySheet(s).lines, PrimaryServiceLine)
  {
    hide TypeOf, RoomSheet, PostEventCleaning.Resolve, FloorPrice;
    PrimaryCodesAreTyped();
    RoomLinesAreTyped(s.bathrooms, FivePlus, "PRIMARY_BATHROOM_FIRST", "PRIMARY_BATHROOM_ADDITIONAL", 55_000, 20_000);
    RoomLinesAreTyped(s.bedrooms, FivePlus, "PRIMARY_BEDROOM_FIRST", "PRIMARY_BEDROOM_ADDITIONAL", 45_000, 15_000);
    RoomLinesAreTyped(
      s.livingAreas, FourPlus, "PRIMARY_LIVING_AREA_FIRST", "PRIMARY_LIVING_AREA_ADDITIONAL", 45_000, 15_000);
  }

  lemma LaundryLinesAreTyped(s: Submission)
    ensures AllOfType(LaundrySheet(s).lines, AddOnLine)
  {
    hide TypeOf, LaundryErrors;
    AddOnPrefix("ADDON_LAUNDRY_WASH_DRY_FOLD");
    AddOnPrefix("ADDON_LAUNDRY_WASH_HANG");
    AddOnPrefix("ADDON_IRONING");
  }

  lemma AddOnLinesAreTyped(s: Submission, index: nat)
    requires index < |s.addOns|
    ensures AllOfType(AddOnSheet(s, index).lines, AddOnLine)
  {
    hide TypeOf;
    AddOnPrefix("ADDON_PET_HAIR_TREATMENT");
    AddOnPrefix("ADDON_INSIDE_OVEN");
    AddOnPrefix("ADDON_GARAGE_CLEANING");
    AddOnPrefix("ADDON_EXTRA_BATHROOM");
  }

  /** Without costs a price is the catalogue's and asks for a break-even review; with costs it asks for none. */
  lemma FinishAsksForBreakEven(sheet: Sheet, costs: Option<Costs>)
    requires Finish(sheet, costs).Ok?
    ensures var p := Finish(sheet, costs).value;
            (p.requiresBreakEvenReview <==> costs.None?) &&
            p.reasons == sheet.reasons + (if costs.None? then [Reason(BreakEvenReviewRequired, None)] else []) &&
            (costs.None? ==> p.totalMinor == Subtotal(sheet.lines) && p.adjustmentsMinor == 0)
  {
    hide ApplyFloor, Subtotal;
  }
}
