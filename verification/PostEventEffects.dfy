/**
 What each fact of an event adds to its hours and its price, and which review each open fact calls for.
 (apps/api/src/quotes/post-event-cleaning-operating-model.ts)
 */
module PostEventEffects {
  import opened Prelude
  import opened PostEventCleaning

  /** Two hours for up to 50 guests, four for up to 100, seven for up to 150; a larger crowd has no hours of its own. */
  lemma GuestsAddTheirHours(facts: Facts)
    ensures var none := AdditionalHalfHours(facts.(guestBand := OneTo20));
            AdditionalHalfHours(facts.(guestBand := From21To50)) == none + 4 &&
            AdditionalHalfHours(facts.(guestBand := From51To100)) == none + 8 &&
            AdditionalHalfHours(facts.(guestBand := From101To150)) == none + 14 &&
            AdditionalHalfHours(facts.(guestBand := From150Up)) == none
  {
    hide BathroomHalfHours, OutdoorHalfHours;
  }

  /** Every bathroom after the first adds an hour and a half; a count that is not whole adds nothing. */
  lemma BathroomsAddTheirHours(facts: Facts, n: nat)
    requires n >= 1
    ensures var one := AdditionalHalfHours(facts.(bathrooms := 1.0));
            AdditionalHalfHours(facts.(bathrooms := n as real)) == one + 3 * (n - 1) &&
            (!IsWhole(facts.bathrooms) ==> AdditionalHalfHours(facts) == one)
  {
    assert (n as real).Floor == n && (1.0).Floor == 1;
    hide OutdoorHalfHours;
  }

  /** Kitchen and soiling add two hours each. */
  lemma ConditionsAddTheirHours(facts: Facts)
    ensures AdditionalHalfHours(facts.(kitchenSubstantiallyUsed := true))
         == AdditionalHalfHours(facts.(kitchenSubstantiallyUsed := false)) + 4
    ensures AdditionalHalfHours(facts.(significantOrdinarySoiling := true))
         == AdditionalHalfHours(facts.(significantOrdinarySoiling := false)) + 4
  {
    hide BathroomHalfHours, OutdoorHalfHours, GuestHalfHours, AreaSet, DishwashingHalfHours, WasteHalfHours;
  }

  /** Dishes add two hours, or four when heavy. */
  lemma DishesAddTheirHours(facts: Facts)
    ensures var none := AdditionalHalfHours(facts.(dishwashing := NoDishwashing));
            AdditionalHalfHours(facts.(dishwashing := ModerateDishwashing)) == none + 4 &&
            AdditionalHalfHours(facts.(dishwashing := HeavyDishwashing)) == none + 8
  {
    hide BathroomHalfHours, OutdoorHalfHours, GuestHalfHours, AreaSet, WasteHalfHours, When;
  }

  /** Waste adds an hour and a half, or three when heavy. */
  lemma WasteAddsItsHours(facts: Facts)
    ensures var light := AdditionalHalfHours(facts.(wasteLevel := LightWaste));
            AdditionalHalfHours(facts.(wasteLevel := ModerateWaste)) == light + 3 &&
            AdditionalHalfHours(facts.(wasteLevel := HeavyWaste)) == light + 6
  {
    hide BathroomHalfHours, OutdoorHalfHours, GuestHalfHours, AreaSet, DishwashingHalfHours, When;
  }

  /** An outdoor area named for the first time adds an hour and a half, a garden two and a half; naming it again, nothing. */
  lemma AreasAddTheirHours(facts: Facts, area: OutdoorArea)
    ensures AdditionalHalfHours(facts.(outdoorAreas := facts.outdoorAreas + [area]))
         == AdditionalHalfHours(facts) + if area in facts.outdoorAreas then 0
                                         else if area == GardenEntertainmentArea then 5 else 3
  {
    assert AreaSet(facts.outdoorAreas + [area]) == AreaSet(facts.outdoorAreas) + {area};
    if area in facts.outdoorAreas {
      assert AreaSet(facts.outdoorAreas) + {area} == AreaSet(facts.outdoorAreas);
    }
    hide BathroomHalfHours, GuestHalfHours, AreaSet;
  }

  /** The smallest event: nothing is added to the base hours. */
  lemma NothingIsAddedToTheSmallest(facts: Facts)
    requires facts.guestBand == OneTo20 && facts.bathrooms == 1.0 && !facts.kitchenSubstantiallyUsed
    requires facts.dishwashing == NoDishwashing && facts.outdoorAreas == [] && facts.wasteLevel == LightWaste
    requires !facts.significantOrdinarySoiling
    ensures AdditionalHalfHours(facts) == 0
  {
    assert AreaSet([]) == {};
  }

  const BASE_HALF_HOURS: seq<nat> := [11, 13, 15, 17, 20, 24, 28, 33]
  const BASE_PRICES: seq<nat> := [85_000, 95_000, 110_000, 125_000, 145_000, 165_000, 190_000, 220_000]

  /** The price is the base price of the size and R100 for every added hour; sizes without a base have no price. */
  lemma PriceIsBaseAndHours(size: FloorSize, facts: Facts)
    ensures var r := Resolve(size, facts);
            if SizeRank(size) < 8 then
              r.baseHalfHours == Some(BASE_HALF_HOURS[SizeRank(size)]) &&
              r.totalHalfHours == Some(BASE_HALF_HOURS[SizeRank(size)] + AdditionalHalfHours(facts)) &&
              r.preliminaryPriceMinor == Some(BASE_PRICES[SizeRank(size)] + 5_000 * AdditionalHalfHours(facts))
            else r.baseHalfHours.None? && r.totalHalfHours.None? && r.preliminaryPriceMinor.None?
    ensures Resolve(size, facts).additionalHalfHours == AdditionalHalfHours(facts)
    ensures Resolve(size, facts).workloadAdjustmentMinor == 5_000 * AdditionalHalfHours(facts)
  {
    hide AdditionalHalfHours, ReviewReasons;
  }

  /** Why an event is looked at by a person, reason by reason. */
  predicate IsReason(size: FloorSize, facts: Facts, code: ReviewCode) {
    match code
    case FloorSizeRequired => size == UnknownSize
    case FloorSizeReview => size == From300Up
    case GuestCountReview => facts.guestBand == From150Up
    case InvalidBathroomCount => !IsWhole(facts.bathrooms) || facts.bathrooms < 1.0
    case WorkloadCeilingExceeded =>
      SizeRank(size) < 8 && BASE_HALF_HOURS[SizeRank(size)] + AdditionalHalfHours(facts) > 48
    case OvernightReview => facts.lateNightOrOvernight
    case BulkWasteReview => facts.bulkWasteRemovalRequested
    case SpecialistContaminationReview => facts.specialistContamination
    case SpecialistCarpetUpholsteryReview => facts.specialistCarpetOrUpholstery
    case ComplexVenueReview => facts.complexVenue
  }

  lemma PushedHas(reasons: seq<ReviewCode>, condition: bool, pushed: ReviewCode, code: ReviewCode)
    ensures code in Pushed(reasons, condition, pushed) <==> code in reasons || (condition && code == pushed)
  {
  }

  lemma ScopeHas(size: FloorSize, facts: Facts, code: ReviewCode)
    ensures code in ScopeReasons(size, facts) <==>
              (code == FloorSizeRequired && size == UnknownSize) || (code == FloorSizeReview && size == From300Up) ||
              (code == GuestCountReview && facts.guestBand == From150Up) ||
              (code == InvalidBathroomCount && !BathroomsValid(facts.bathrooms))
  {
    var first := Pushed([], size == UnknownSize, FloorSizeRequired);
    PushedHas([], size == UnknownSize, FloorSizeRequired, code);
    PushedHas(first, size == From300Up, FloorSizeReview, code);
    var sized := Pushed(first, size == From300Up, FloorSizeReview);
    PushedHas(sized, GuestHalfHours(facts.guestBand).None?, GuestCountReview, code);
    var guests := Pushed(sized, GuestHalfHours(facts.guestBand).None?, GuestCountReview);
    PushedHas(guests, !BathroomsValid(facts.bathrooms), InvalidBathroomCount, code);
    hide Pushed;
  }

  lemma ConditionsHave(reasons: seq<ReviewCode>, facts: Facts, code: ReviewCode)
    ensures code in ConditionReasons(reasons, facts) <==>
              code in reasons || (code == OvernightReview && facts.lateNightOrOvernight) ||
              (code == BulkWasteReview && facts.bulkWasteRemovalRequested) ||
              (code == SpecialistContaminationReview && facts.specialistContamination) ||
              (code == SpecialistCarpetUpholsteryReview && facts.specialistCarpetOrUpholstery) ||
              (code == ComplexVenueReview && facts.complexVenue)
  {
    PushedHas(reasons, facts.lateNightOrOvernight, OvernightReview, code);
    var overnight := Pushed(reasons, facts.lateNightOrOvernight, OvernightReview);
    PushedHas(overnight, facts.bulkWasteRemovalRequested, BulkWasteReview, code);
    var bulk := Pushed(overnight, facts.bulkWasteRemovalRequested, BulkWasteReview);
    PushedHas(bulk, facts.specialistContamination, SpecialistContaminationReview, code);
    var contamination := Pushed(bulk, facts.specialistContamination, SpecialistContaminationReview);
    PushedHas(contamination, facts.specialistCarpetOrUpholstery, SpecialistCarpetUpholsteryReview, code);
    var carpet := Pushed(contamination, facts.specialistCarpetOrUpholstery, SpecialistCarpetUpholsteryReview);
    PushedHas(carpet, facts.complexVenue, ComplexVenueReview, code);
    hide Pushed;
  }

  /** Each reason is given exactly when its fact holds. */
  lemma ReasonsAreGivenExactlyWhen(size: FloorSize, facts: Facts, code: ReviewCode)
    ensures code in Resolve(size, facts).reviewReasons <==> IsReason(size, facts, code)
  {
    var base := BaseByFloorSize(size);
    var tooMuch := base.Some? && base.value.halfHours + AdditionalHalfHours(facts) > HALF_HOUR_CEILING;
    var scope := ScopeReasons(size, facts);
    assert Resolve(size, facts).reviewReasons
        == ConditionReasons(Pushed(scope, tooMuch, WorkloadCeilingExceeded), facts) by {
      hide ScopeReasons, ConditionReasons, AdditionalHalfHours, BaseByFloorSize;
    }
    TooMuchIsRead(size, facts);
    hide Resolve, ReviewReasons, ScopeReasons, ConditionReasons, Pushed, AdditionalHalfHours, BaseByFloorSize, SizeRank;
    ScopeHas(size, facts, code);
    PushedHas(scope, tooMuch, WorkloadCeilingExceeded, code);
    ConditionsHave(Pushed(scope, tooMuch, WorkloadCeilingExceeded), facts, code);
  }

  lemma TooMuchIsRead(size: FloorSize, facts: Facts)
    ensures BaseByFloorSize(size).Some? <==> SizeRank(size) < 8
    ensures SizeRank(size) < 8 ==> BaseByFloorSize(size).value.halfHours == BASE_HALF_HOURS[SizeRank(size)]
  {
  }
}
