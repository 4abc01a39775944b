/**
 The workload and price model of Post-Event Cleaning, in whole half-hours.
 (apps/api/src/quotes/post-event-cleaning-operating-model.ts)
 */
module PostEventCleaning {
  import opened Prelude

  datatype FloorSize =
    | Under40 | From40To59 | From60To79 | From80To99 | From100To129 | From130To169 | From170To219 | From220To299
    | From300Up | UnknownSize

  datatype GuestBand = OneTo20 | From21To50 | From51To100 | From101To150 | From150Up
  datatype Dishwashing = NoDishwashing | ModerateDishwashing | HeavyDishwashing
  datatype WasteLevel = LightWaste | ModerateWaste | HeavyWaste
  datatype OutdoorArea = Patio | Balcony | BraaiArea | GardenEntertainmentArea

  datatype Facts = Facts(
    guestBand: GuestBand, bathrooms: real, kitchenSubstantiallyUsed: bool, dishwashing: Dishwashing,
    outdoorAreas: seq<OutdoorArea>, wasteLevel: WasteLevel, significantOrdinarySoiling: bool,
    lateNightOrOvernight: bool, bulkWasteRemovalRequested: bool, specialistContamination: bool,
    specialistCarpetOrUpholstery: bool, complexVenue: bool)

  datatype ReviewCode =
    | FloorSizeRequired | FloorSizeReview | GuestCountReview | InvalidBathroomCount | WorkloadCeilingExceeded
    | OvernightReview | BulkWasteReview | SpecialistContaminationReview | SpecialistCarpetUpholsteryReview
    | ComplexVenueReview

  /** Hours are counted in half-hours and money in cents. */
  datatype Resolved = Resolved(
    baseHalfHours: Option<nat>, additionalHalfHours: nat, totalHalfHours: Option<nat>, basePriceMinor: Option<nat>,
    workloadAdjustmentMinor: nat, preliminaryPriceMinor: Option<nat>, reviewReasons: seq<ReviewCode>,
    automaticPricingAllowed: bool)

  datatype BaseRate = BaseRate(halfHours: nat, priceMinor: nat)

  function BaseByFloorSize(size: FloorSize): Option<BaseRate> {
    match size
    case Under40 => Some(BaseRate(11, 85_000))
    case From40To59 => Some(BaseRate(13, 95_000))
    case From60To79 => Some(BaseRate(15, 110_000))
    case From80To99 => Some(BaseRate(17, 125_000))
    case From100To129 => Some(BaseRate(20, 145_000))
    case From130To169 => Some(BaseRate(24, 165_000))
    case From170To219 => Some(BaseRate(28, 190_000))
    case From220To299 => Some(BaseRate(33, 220_000))
    case From300Up => None
    case UnknownSize => None
  }

  function GuestHalfHours(band: GuestBand): Option<nat> {
    match band
    case OneTo20 => Some(0)
    case From21To50 => Some(4)
    case From51To100 => Some(8)
    case From101To150 => Some(14)
    case From150Up => None
  }

  function AreaHalfHours(area: OutdoorArea): nat {
    if area == GardenEntertainmentArea then 5 else 3
  }

  const HALF_HOUR_PRICE_MINOR := 5_000
  const HALF_HOUR_CEILING := 48

  predicate IsWhole(x: real) {
    x == x.Floor as real
  }

  predicate BathroomsValid(bathrooms: real) {
    IsWhole(bathrooms) && bathrooms >= 1.0
  }

  // ---- the specification ---------------------------------------------------------------------

  function When(condition: bool, halfHours: nat): nat {
    if condition then halfHours else 0
  }

  /** Each outdoor area that is present at all counts once. */
  function OutdoorHalfHours(areas: set<OutdoorArea>): nat {
    When(Patio in areas, 3) + When(Balcony in areas, 3) + When(BraaiArea in areas, 3)
    + When(GardenEntertainmentArea in areas, 5)
  }

  function AreaSet(areas: seq<OutdoorArea>): set<OutdoorArea> {
    set area | area in areas
  }

  function BathroomHalfHours(bathrooms: real): nat {
    if IsWhole(bathrooms) && bathrooms > 1.0 then (bathrooms.Floor - 1) * 3 else 0
  }

  function DishwashingHalfHours(level: Dishwashing): nat {
    match level case NoDishwashing => 0 case ModerateDishwashing => 4 case HeavyDishwashing => 8
  }

  function WasteHalfHours(level: WasteLevel): nat {
    match level case LightWaste => 0 case ModerateWaste => 3 case HeavyWaste => 6
  }

  function AdditionalHalfHours(facts: Facts): nat {
    var guests := GuestHalfHours(facts.guestBand);
    (if guests.Some? then guests.value else 0) + BathroomHalfHours(facts.bathrooms)
    + When(facts.kitchenSubstantiallyUsed, 4) + DishwashingHalfHours(facts.dishwashing)
    + OutdoorHalfHours(AreaSet(facts.outdoorAreas)) + WasteHalfHours(facts.wasteLevel)
    + When(facts.significantOrdinarySoiling, 4)
  }

  function Pushed(reasons: seq<ReviewCode>, condition: bool, code: ReviewCode): seq<ReviewCode> {
    if condition then reasons + [code] else reasons
  }

  function ScopeReasons(size: FloorSize, facts: Facts): seq<ReviewCode> {
    var sized := Pushed(Pushed([], size == UnknownSize, FloorSizeRequired), size == From300Up, FloorSizeReview);
    var guests := Pushed(sized, GuestHalfHours(facts.guestBand).None?, GuestCountReview);
    Pushed(guests, !BathroomsValid(facts.bathrooms), InvalidBathroomCount)
  }

  function ConditionReasons(reasons: seq<ReviewCode>, facts: Facts): seq<ReviewCode> {
    var overnight := Pushed(reasons, facts.lateNightOrOvernight, OvernightReview);
    var bulk := Pushed(overnight, facts.bulkWasteRemovalRequested, BulkWasteReview);
    var contamination := Pushed(bulk, facts.specialistContamination, SpecialistContaminationReview);
    var carpet := Pushed(contamination, facts.specialistCarpetOrUpholstery, SpecialistCarpetUpholsteryReview);
    Pushed(carpet, facts.complexVenue, ComplexVenueReview)
  }

  function ReviewReasons(size: FloorSize, facts: Facts): seq<ReviewCode> {
    var base := BaseByFloorSize(size);
    var tooMuch := base.Some? && base.value.halfHours + AdditionalHalfHours(facts) > HALF_HOUR_CEILING;
    ConditionReasons(Pushed(ScopeReasons(size, facts), tooMuch, WorkloadCeilingExceeded), facts)
  }

  function Resolve(size: FloorSize, facts: Facts): Resolved {
    var base := BaseByFloorSize(size);
    var additional := AdditionalHalfHours(facts);
    var reasons := ReviewReasons(size, facts);
    if base.Some? then
      Resolved(Some(base.value.halfHours), additional, Some(base.value.halfHours + additional),
               Some(base.value.priceMinor), additional * HALF_HOUR_PRICE_MINOR,
               Some(base.value.priceMinor + additional * HALF_HOUR_PRICE_MINOR), reasons, reasons == [])
    else
      Resolved(None, additional, None, None, additional * HALF_HOUR_PRICE_MINOR, None, reasons, false)
  }

  // ---- the computation -----------------------------------------------------------------------

  lemma OutdoorAddsUp(done: set<OutdoorArea>, area: OutdoorArea)
    requires area !in done
    ensures OutdoorHalfHours(done + {area}) == OutdoorHalfHours(done) + AreaHalfHours(area)
  {
  }

  /** The accumulating part of `resolvePostEventCleaning`: each distinct outdoor area is visited once. */
  method AdditionalCleanerHours(facts: Facts) returns (additional: nat)
    ensures additional == AdditionalHalfHours(facts)
  {
    var guests := GuestHalfHours(facts.guestBand);
    additional := if guests.Some? then guests.value else 0;
    if IsWhole(facts.bathrooms) && facts.bathrooms > 1.0 {
      additional := additional + (facts.bathrooms.Floor - 1) * 3;
    }
    if facts.kitchenSubstantiallyUsed { additional := additional + 4; }
    if facts.dishwashing == ModerateDishwashing { additional := additional + 4; }
    if facts.dishwashing == HeavyDishwashing { additional := additional + 8; }

    ghost var indoor := additional;
    var pending := AreaSet(facts.outdoorAreas);
    while pending != {}
      invariant pending <= AreaSet(facts.outdoorAreas)
      invariant additional == indoor + OutdoorHalfHours(AreaSet(facts.outdoorAreas) - pending)
      decreases pending
    {
      var area :| area in pending;
      OutdoorAddsUp(AreaSet(facts.outdoorAreas) - pending, area);
      assert AreaSet(facts.outdoorAreas) - (pending - {area}) == AreaSet(facts.outdoorAreas) - pending + {area};
      additional := additional + AreaHalfHours(area);
      pending := pending - {area};
    }
    assert AreaSet(facts.outdoorAreas) - {} == AreaSet(facts.outdoorAreas);

    if facts.wasteLevel == ModerateWaste { additional := additional + 3; }
    if facts.wasteLevel == HeavyWaste { additional := additional + 6; }
    if facts.significantOrdinarySoiling { additional := additional + 4; }
  }

  method PushConditionReasons(found: seq<ReviewCode>, facts: Facts) returns (reasons: seq<ReviewCode>)
    ensures reasons == ConditionReasons(found, facts)
  {
    reasons := found;
    if facts.lateNightOrOvernight { reasons := reasons + [OvernightReview]; }
    if facts.bulkWasteRemovalRequested { reasons := reasons + [BulkWasteReview]; }
    if facts.specialistContamination { reasons := reasons + [SpecialistContaminationReview]; }
    if facts.specialistCarpetOrUpholstery { reasons := reasons + [SpecialistCarpetUpholsteryReview]; }
    if facts.complexVenue { reasons := reasons + [ComplexVenueReview]; }
  }

  /** `resolvePostEventCleaning`: hours, then the reasons in the order the code finds them, then the price. */
  method ResolvePostEventCleaning(size: FloorSize, facts: Facts) returns (r: Resolved)
    ensures r == Resolve(size, facts)
  {
    hide AdditionalHalfHours;
    var reasons: seq<ReviewCode> := [];
    var base := BaseByFloorSize(size);
    if size == UnknownSize {
      reasons := reasons + [FloorSizeRequired];
    } else if size == From300Up {
      reasons := reasons + [FloorSizeReview];
    }
    if GuestHalfHours(facts.guestBand).None? { reasons := reasons + [GuestCountReview]; }
    if !BathroomsValid(facts.bathrooms) { reasons := reasons + [InvalidBathroomCount]; }
    assert reasons == ScopeReasons(size, facts);
    hide ScopeReasons, ConditionReasons, BaseByFloorSize, GuestHalfHours, BathroomsValid;

    var additional := AdditionalCleanerHours(facts);
    if base.Some? && base.value.halfHours + additional > HALF_HOUR_CEILING {
      reasons := reasons + [WorkloadCeilingExceeded];
    }
    reasons := PushConditionReasons(reasons, facts);
    assert reasons == ReviewReasons(size, facts);
    hide ReviewReasons;

    var adjustment := additional * HALF_HOUR_PRICE_MINOR;
    r := if base.Some?
         then Resolved(Some(base.value.halfHours), additional, Some(base.value.halfHours + additional),
                       Some(base.value.priceMinor), adjustment, Some(base.value.priceMinor + adjustment),
                       reasons, reasons == [])
         else Resolved(None, additional, None, None, adjustment, None, reasons, false);
  }

  // ---- what the model promises ---------------------------------------------------------------

  /** Order and repetition of outdoor areas do not matter. */
  lemma AreasAreASet(size: FloorSize, facts: Facts, areas: seq<OutdoorArea>)
    requires forall area :: area in areas <==> area in facts.outdoorAreas
    ensures Resolve(size, facts.(outdoorAreas := areas)) == Resolve(size, facts)
  {
    var other := facts.(outdoorAreas := areas);
    assert AreaSet(areas) == AreaSet(facts.outdoorAreas);
    hide AreaSet, OutdoorHalfHours;
    assert AdditionalHalfHours(other) == AdditionalHalfHours(facts);
    hide AdditionalHalfHours;
  }

  function SizeRank(size: FloorSize): nat {
    match size
    case Under40 => 0 case From40To59 => 1 case From60To79 => 2 case From80To99 => 3 case From100To129 => 4
    case From130To169 => 5 case From170To219 => 6 case From220To299 => 7 case From300Up => 8 case UnknownSize => 9
  }

  function BandRank(band: GuestBand): nat {
    match band
    case OneTo20 => 0 case From21To50 => 1 case From51To100 => 2 case From101To150 => 3 case From150Up => 4
  }

  /** Every workload fact of `more` is at least that of `less`. */
  predicate NoMoreWork(less: Facts, more: Facts) {
    BandRank(less.guestBand) <= BandRank(more.guestBand) && less.bathrooms <= more.bathrooms
    && (less.kitchenSubstantiallyUsed ==> more.kitchenSubstantiallyUsed)
    && DishwashingHalfHours(less.dishwashing) <= DishwashingHalfHours(more.dishwashing)
    && (forall area | area in less.outdoorAreas :: area in more.outdoorAreas)
    && WasteHalfHours(less.wasteLevel) <= WasteHalfHours(more.wasteLevel)
    && (less.significantOrdinarySoiling ==> more.significantOrdinarySoiling)
    && (less.lateNightOrOvernight ==> more.lateNightOrOvernight)
    && (less.bulkWasteRemovalRequested ==> more.bulkWasteRemovalRequested)
    && (less.specialistContamination ==> more.specialistContamination)
    && (less.specialistCarpetOrUpholstery ==> more.specialistCarpetOrUpholstery)
    && (less.complexVenue ==> more.complexVenue)
  }

  /** The hours of an event count all its work: its guest band has hours, and no bathroom is lost to a fraction. */
  predicate CountsAllWork(facts: Facts) {
    facts.guestBand != From150Up && (IsWhole(facts.bathrooms) || facts.bathrooms < 2.0)
  }

  /** An event whose hours count all its work takes at least as long as any with less work. */
  lemma HoursAreMonotone(less: Facts, more: Facts)
    requires NoMoreWork(less, more) && CountsAllWork(more)
    ensures AdditionalHalfHours(less) <= AdditionalHalfHours(more)
  {
    assert AreaSet(less.outdoorAreas) <= AreaSet(more.outdoorAreas);
    assert BathroomHalfHours(less.bathrooms) <= BathroomHalfHours(more.bathrooms);
    hide AreaSet, BathroomHalfHours;
  }

  /** The open-ended guest band has no hours of its own: the band below it takes seven hours more. */
  lemma OpenEndedBandLosesHours(more: Facts)
    requires more.guestBand == From150Up
    ensures var less := more.(guestBand := From101To150);
            NoMoreWork(less, more) && AdditionalHalfHours(less) == AdditionalHalfHours(more) + 14
  {
    hide BathroomHalfHours, OutdoorHalfHours;
  }

  /** A fractional count of two or more has no bathroom hours: the whole count below it takes longer. */
  lemma FractionLosesHours(more: Facts)
    requires !IsWhole(more.bathrooms) && more.bathrooms >= 2.0
    ensures var less := more.(bathrooms := more.bathrooms.Floor as real);
            NoMoreWork(less, more) && AdditionalHalfHours(less) >= AdditionalHalfHours(more) + 3
  {
    assert BathroomHalfHours(more.bathrooms) == 0;
    assert BathroomHalfHours(more.bathrooms.Floor as real) >= 3;
    hide OutdoorHalfHours, BathroomHalfHours;
  }

  /** No event with less work takes longer, exactly when the hours count all the work. */
  lemma HoursAreMonotoneExactlyWhen(more: Facts)
    ensures (forall less | NoMoreWork(less, more) :: AdditionalHalfHours(less) <= AdditionalHalfHours(more))
       <==> CountsAllWork(more)
  {
    hide NoMoreWork, AdditionalHalfHours, IsWhole;
    if CountsAllWork(more) {
      forall less | NoMoreWork(less, more)
        ensures AdditionalHalfHours(less) <= AdditionalHalfHours(more)
      {
        HoursAreMonotone(less, more);
      }
    } else if more.guestBand == From150Up {
      OpenEndedBandLosesHours(more);
    } else {
      FractionLosesHours(more);
    }
  }

  /** With a valid bathroom count, adding work never turns a review into an automatic price, nor a price down. */
  lemma MoreWorkIsNeverEasier(size: FloorSize, less: Facts, size': FloorSize, more: Facts)
    requires SizeRank(size) <= SizeRank(size') && NoMoreWork(less, more) && BathroomsValid(less.bathrooms)
    requires Resolve(size', more).automaticPricingAllowed
    ensures Resolve(size, less).automaticPricingAllowed
    ensures Resolve(size, less).totalHalfHours.value <= Resolve(size', more).totalHalfHours.value
    ensures Resolve(size, less).preliminaryPriceMinor.value <= Resolve(size', more).preliminaryPriceMinor.value
  {
    HoursAreMonotone(less, more);
    hide AdditionalHalfHours;
  }

  /**
   The bathroom guard is needed: half a bathroom is reviewed, one is priced. Only a direct caller can ask for half
   a bathroom: quote facts with a count that is not whole are refused before pricing
   (post-event-cleaning-quote-facts.ts:126-132).
   */
  lemma FractionalBathroomsAreReviewed(facts: Facts)
    requires facts == Facts(OneTo20, 0.5, false, NoDishwashing, [], LightWaste, false, false, false, false, false, false)
    ensures NoMoreWork(facts, facts.(bathrooms := 1.0))
    ensures !Resolve(Under40, facts).automaticPricingAllowed
    ensures Resolve(Under40, facts.(bathrooms := 1.0)).automaticPricingAllowed
  {
    assert AreaSet([]) == {};
  }

  /** The least valid bathroom count that is not below `bathrooms`. */
  function RoundedUp(bathrooms: real): (r: real)
    ensures BathroomsValid(r) && bathrooms <= r
    ensures BathroomsValid(bathrooms) ==> r == bathrooms
  {
    if bathrooms <= 1.0 then 1.0 else if IsWhole(bathrooms) then bathrooms else (bathrooms.Floor + 1) as real
  }

  lemma RoundedUpIsLeast(bathrooms: real, valid: real)
    requires BathroomsValid(valid) && bathrooms <= valid
    ensures RoundedUp(bathrooms) <= valid
  {
    if bathrooms > 1.0 && !IsWhole(bathrooms) {
      assert bathrooms.Floor < valid.Floor;
    }
  }

  /** No fact excludes the event from automatic pricing. */
  predicate IsOrdinary(facts: Facts) {
    facts.guestBand != From150Up && !facts.lateNightOrOvernight && !facts.bulkWasteRemovalRequested &&
    !facts.specialistContamination && !facts.specialistCarpetOrUpholstery && !facts.complexVenue
  }

  /** A size with a base price, whose hours with those facts stay within the ceiling. */
  predicate FitsTheCeiling(size: FloorSize, facts: Facts) {
    BaseByFloorSize(size).Some? &&
    BaseByFloorSize(size).value.halfHours + AdditionalHalfHours(facts) <= HALF_HOUR_CEILING
  }

  /**
   For all bathroom counts: more work is never easier exactly when the count is valid, or an exclusion or the
   ceiling would stop the event at the next whole count as well.
   */
  lemma NeverEasierExactlyWhen(size: FloorSize, less: Facts)
    ensures (forall size', more | SizeRank(size) <= SizeRank(size') && NoMoreWork(less, more)
                                  && Resolve(size', more).automaticPricingAllowed ::
               Resolve(size, less).automaticPricingAllowed)
       <==> BathroomsValid(less.bathrooms) || !IsOrdinary(less)
            || !FitsTheCeiling(size, less.(bathrooms := RoundedUp(less.bathrooms)))
  {
    var whole := less.(bathrooms := RoundedUp(less.bathrooms));
    AutomaticExactlyWhen(size, less);
    AutomaticExactlyWhen(size, whole);
    assert NoMoreWork(less, whole);
    forall size', more | SizeRank(size) <= SizeRank(size') && NoMoreWork(less, more)
                         && Resolve(size', more).automaticPricingAllowed
      ensures Resolve(size, whole).automaticPricingAllowed
    {
      AutomaticExactlyWhen(size', more);
      RoundedUpIsLeast(less.bathrooms, more.bathrooms);
      hide Resolve, BathroomsValid, RoundedUp, AdditionalHalfHours;
      assert NoMoreWork(whole, more);
      MoreWorkIsNeverEasier(size, whole, size', more);
    }
    hide Resolve, BathroomsValid, RoundedUp, NoMoreWork, AdditionalHalfHours;
  }

  /** Automatic pricing stays inside the approved envelope, whatever the number of bathrooms. */
  lemma AutomaticIsBounded(size: FloorSize, facts: Facts)
    requires Resolve(size, facts).automaticPricingAllowed
    ensures var r := Resolve(size, facts);
            11 <= r.totalHalfHours.value <= HALF_HOUR_CEILING && 85_000 <= r.preliminaryPriceMinor.value <= 295_000
    ensures facts.bathrooms <= 13.0
  {
    hide AreaSet;
  }

  /** A refusal always names a reason, and an automatic price is always a price. */
  lemma RefusalsAreExplained(size: FloorSize, facts: Facts)
    ensures var r := Resolve(size, facts);
            (r.automaticPricingAllowed <==> r.reviewReasons == []) &&
            (r.automaticPricingAllowed ==> r.preliminaryPriceMinor.Some? && r.totalHalfHours.Some?)
  {
    hide AdditionalHalfHours;
    assert BaseByFloorSize(size).None? ==> size == From300Up || size == UnknownSize;
  }

  /** Automatic pricing is refused exactly for the listed reasons. */
  lemma AutomaticExactlyWhen(size: FloorSize, facts: Facts)
    ensures Resolve(size, facts).automaticPricingAllowed <==>
              BaseByFloorSize(size).Some? && facts.guestBand != From150Up && BathroomsValid(facts.bathrooms) &&
              BaseByFloorSize(size).value.halfHours + AdditionalHalfHours(facts) <= HALF_HOUR_CEILING &&
              !facts.lateNightOrOvernight && !facts.bulkWasteRemovalRequested && !facts.specialistContamination &&
              !facts.specialistCarpetOrUpholstery && !facts.complexVenue
  {
    hide AdditionalHalfHours;
  }
}
