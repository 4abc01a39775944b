/**
 Catalogue pricing of a submission, Admin repricing of a revision, and the
 lines a revision stores.
 (apps/api/src/quotes/website-quote-pricing.ts, quote-admin-repricing.ts, laundry-operating-model.ts)
 */
module QuotePricing {
  import opened Prelude
  import opened QuoteFacts
  import opened QuoteProfitability
  import PostEventCleaning

  type FloorSize = PostEventCleaning.FloorSize

  datatype Line = Line(code: string, quantity: int, unitAmountMinor: int, lineAmountMinor: int)

  function MakeLine(code: string, quantity: int, unitAmountMinor: int): Line {
    Line(code, quantity, unitAmountMinor, unitAmountMinor * quantity)
  }

  datatype ReasonCode =
    | PrimaryServiceReview | PostEventFactsRequired | PostEventReview(code: PostEventCleaning.ReviewCode)
    | FloorSizeRequired | FromPriceRequiresReview
    | RoomConfigurationReview | OpenEndedCount | RoomTypeReview | RoomCountReview | AssessmentRequired
    | KitchenScopeRequired | WindowCountReview | UnsupportedPrimaryPricing
    | LaundryProblem(error: LaundryError) | LaundryCapacityReview | IroningCapacityReview
    | AddOnDetailRequired | AddOnAssessmentRequired | BreakEvenReviewRequired

  /** An attention reason, with the add-on it is about if it is about one. */
  datatype Reason = Reason(code: ReasonCode, addOn: Option<nat>)

  function Because(code: ReasonCode): seq<Reason> {
    [Reason(code, None)]
  }

  function BecauseIf(condition: bool, code: ReasonCode): seq<Reason> {
    if condition then Because(code) else []
  }

  /** What the pricing helpers have pushed so far. */
  datatype Sheet = Sheet(lines: seq<Line>, reasons: seq<Reason>)

  const EMPTY := Sheet([], [])

  function Joined(a: Sheet, b: Sheet): Sheet {
    Sheet(a.lines + b.lines, a.reasons + b.reasons)
  }

  // ---- primary services ----------------------------------------------------------------------

  function PriceRow(regular: nat, deep: nat, move: nat, service: Service): nat {
    if service.RegularHome? then regular else if service.DeepCleaning? then deep else move
  }

  /** FLOOR_PRICE_MINOR; move-in and move-out share their prices. */
  function FloorPrice(service: Service, size: FloorSize): nat
    requires IsFloorPriced(service) && !size.UnknownSize?
  {
    match size
    case Under40 => PriceRow(65_000, 100_000, 120_000, service)
    case From40To59 => PriceRow(70_000, 105_000, 125_000, service)
    case From60To79 => PriceRow(75_000, 115_000, 135_000, service)
    case From80To99 => PriceRow(80_000, 125_000, 145_000, service)
    case From100To129 => PriceRow(87_500, 135_000, 155_000, service)
    case From130To169 => PriceRow(97_500, 155_000, 175_000, service)
    case From170To219 => PriceRow(105_000, 170_000, 190_000, service)
    case From220To299 => PriceRow(120_000, 190_000, 210_000, service)
    case From300Up => PriceRow(135_000, 220_000, 245_000, service)
  }

  function PrimaryCode(service: Service): string
    requires IsFloorPriced(service)
  {
    match service
    case RegularHome => "PRIMARY_REGULAR_HOME_CLEANING"
    case DeepCleaning => "PRIMARY_DEEP_CLEANING"
    case MoveIn => "PRIMARY_MOVE_IN_CLEANING"
    case MoveOut => "PRIMARY_MOVE_OUT_CLEANING"
  }

  function FloorPricedSheet(service: Service, size: FloorSize): Sheet
    requires IsFloorPriced(service)
  {
    if size.UnknownSize? then Sheet([], Because(FloorSizeRequired))
    else Sheet([MakeLine(PrimaryCode(service), 1, FloorPrice(service, size))],
               BecauseIf(size.From300Up?, FromPriceRequiresReview)
               + BecauseIf(service.RegularHome?, RoomConfigurationReview))
  }

  function ReviewSheet(codes: seq<PostEventCleaning.ReviewCode>): seq<Reason> {
    seq(|codes|, i requires 0 <= i < |codes| => Reason(PostEventReview(codes[i]), None))
  }

  function PostEventSheet(s: Submission): Sheet {
    if s.postEvent.None? then Sheet([], Because(PostEventFactsRequired))
    else
      var resolved := PostEventCleaning.Resolve(s.floorSize, s.postEvent.value);
      if !resolved.automaticPricingAllowed || resolved.preliminaryPriceMinor.None? then
        Sheet([], ReviewSheet(resolved.reviewReasons))
      else Sheet([MakeLine("PRIMARY_POST_EVENT_CLEANING", 1, resolved.preliminaryPriceMinor.value)], [])
  }

  /** A first room, further rooms if the count says so, and the reviews the count calls for. */
  function RoomSheet(count: Count, openEnded: Count, first: string, further: string, firstMinor: nat, furtherMinor: nat)
    : Sheet
  {
    var n := CountValue(count);
    Sheet([MakeLine(first, 1, firstMinor)]
          + (if n.Some? && n.value > 1 then [MakeLine(further, n.value - 1, furtherMinor)] else []),
          BecauseIf(count == openEnded, OpenEndedCount) + Because(RoomTypeReview))
  }

  function PrimarySheet(s: Submission): Sheet {
    if s.service.None? then Sheet([], Because(PrimaryServiceReview))
    else
      match s.service.value
      case PostEventService => PostEventSheet(s)
      case BathroomSanitisation =>
        RoomSheet(s.bathrooms, FivePlus, "PRIMARY_BATHROOM_FIRST", "PRIMARY_BATHROOM_ADDITIONAL", 55_000, 20_000)
      case BedroomCleaning =>
        if s.bedrooms == OtherCount then Sheet([], Because(RoomCountReview))
        else RoomSheet(s.bedrooms, FivePlus, "PRIMARY_BEDROOM_FIRST", "PRIMARY_BEDROOM_ADDITIONAL", 45_000, 15_000)
      case LivingAreaCleaning =>
        RoomSheet(s.livingAreas, FourPlus, "PRIMARY_LIVING_AREA_FIRST", "PRIMARY_LIVING_AREA_ADDITIONAL", 45_000, 15_000)
      case PostRenovation => Sheet([], Because(AssessmentRequired))
      case KitchenCleaning => Sheet([], Because(KitchenScopeRequired))
      case InteriorWindows =>
        Sheet([MakeLine("PRIMARY_INTERIOR_WINDOWS_MINIMUM", 1, 40_000)], Because(WindowCountReview))
      case OtherService(_) => Sheet([], Because(UnsupportedPrimaryPricing))
      case service => FloorPricedSheet(service, s.floorSize)
  }

  // ---- laundry -------------------------------------------------------------------------------

  datatype LaundryError = IneligiblePrimaryService | FacilitiesRequired | WasherMissing | InvalidLaundryLoads | InvalidIroningLoads

  predicate LaundryEligible(service: Option<Service>) {
    service == Some(RegularHome) || service == Some(DeepCleaning)
  }

  function ErrorIf(condition: bool, error: LaundryError): seq<LaundryError> {
    if condition then [error] else []
  }

  function LaundryErrors(service: Option<Service>, l: LaundryFacts): seq<LaundryError> {
    ErrorIf((l.laundryLoads.Some? || l.ironingLoads.Some?) && !LaundryEligible(service), IneligiblePrimaryService)
    + ErrorIf(l.laundryLoads.Some? && l.facilities.None?, FacilitiesRequired)
    + ErrorIf(l.laundryLoads.Some? && l.facilities == Some(NoWasher), WasherMissing)
    + ErrorIf(l.laundryLoads.Some? && l.laundryLoads.value < 1, InvalidLaundryLoads)
    + ErrorIf(l.ironingLoads.Some? && l.ironingLoads.value < 1, InvalidIroningLoads)
  }

  function LaundryProblems(errors: seq<LaundryError>): seq<Reason> {
    seq(|errors|, i requires 0 <= i < |errors| => Reason(LaundryProblem(errors[i]), None))
  }

  function WashSheet(l: LaundryFacts): Sheet {
    if l.laundryLoads.None? then EMPTY
    else
      Sheet([if l.facilities == Some(WasherDryer) then MakeLine("ADDON_LAUNDRY_WASH_DRY_FOLD", l.laundryLoads.value, 17_500)
             else MakeLine("ADDON_LAUNDRY_WASH_HANG", l.laundryLoads.value, 12_500)],
            Because(LaundryCapacityReview))
  }

  function IroningSheet(l: LaundryFacts): Sheet {
    if l.ironingLoads.None? then EMPTY
    else Sheet([MakeLine("ADDON_IRONING", l.ironingLoads.value, 15_000)], Because(IroningCapacityReview))
  }

  /** `addStructuredLaundry`: laundry is priced for version 2 website submissions only. */
  function LaundrySheet(s: Submission): Sheet {
    if !s.websiteContractV2 || s.laundry.None? then EMPTY
    else
      var l := s.laundry.value;
      var errors := LaundryErrors(s.service, l);
      if errors != [] then Sheet([], LaundryProblems(errors))
      else
        Joined(WashSheet(l), IroningSheet(l))
  }

  // ---- website pricing -----------------------------------------------------------------------

  function AddOnReasons(from: nat, count: nat): seq<Reason>
    requires from <= count
    decreases count - from
  {
    if from == count then [] else [Reason(AddOnDetailRequired, Some(from))] + AddOnReasons(from + 1, count)
  }

  function EcoSheet(s: Submission): Sheet {
    if s.ecoFriendlyProducts then Sheet([MakeLine("PREFERENCE_ECO_FRIENDLY", 1, 0)], []) else EMPTY
  }

  function Subtotal(lines: seq<Line>): int {
    if lines == [] then 0 else Subtotal(lines[..|lines| - 1]) + lines[|lines| - 1].lineAmountMinor
  }

  datatype Price = Price(
    lines: seq<Line>, subtotalMinor: int, adjustmentsMinor: int, totalMinor: int,
    reasons: seq<Reason>, requiresBreakEvenReview: bool)

  /** The shared end of both calculations: floor the catalogue if the costs are known, else ask for review. */
  function Finish(sheet: Sheet, costs: Option<Costs>): Result<Price, PricingError> {
    var subtotal := Subtotal(sheet.lines);
    match costs
    case None => Ok(Price(sheet.lines, subtotal, 0, subtotal, sheet.reasons + Because(BreakEvenReviewRequired), true))
    case Some(c) =>
      match ApplyFloor(subtotal, c)
      case Err(e) => Err(e)
      case Ok(floor) =>
        Ok(Price(sheet.lines, subtotal, floor.finalTotalMinor - subtotal, floor.finalTotalMinor, sheet.reasons, false))
  }

  function WebsiteSheet(s: Submission): Sheet {
    Joined(Joined(Joined(PrimarySheet(s), Sheet([], AddOnReasons(0, |s.addOns|))), LaundrySheet(s)), EcoSheet(s))
  }

  /** `calculateWebsiteQuotePricing` */
  function WebsitePrice(s: Submission, costs: Option<Costs>): Result<Price, PricingError> {
    Finish(WebsiteSheet(s), costs)
  }

  // ---- Admin repricing -----------------------------------------------------------------------

  datatype Reviewed = Priced(line: Line) | Unpriced(code: ReasonCode)

  /** `reviewedAddOn` */
  function ReviewedAddOn(s: Submission, index: nat): Reviewed
    requires index < |s.addOns|
  {
    var quantity := if s.addOns[index].quantity.Some? then s.addOns[index].quantity.value else 1;
    var detail := if index in s.adminReview then s.adminReview[index] else ReviewDetail(None, None, None, None);
    match s.addOns[index].service
    case PetHair => Priced(MakeLine("ADDON_PET_HAIR_TREATMENT", quantity, 15_000))
    case InsideOven =>
      if detail.ovenSize.None? then Unpriced(AddOnDetailRequired)
      else Priced(MakeLine("ADDON_INSIDE_OVEN", quantity,
             (if detail.ovenSize.value.LargeDouble? then 50_000 else 35_000)
             + (if detail.severeBakedOnGrease == Some(true) then 15_000 else 0)))
    case GarageSweeping =>
      if detail.garageSize.None? then Unpriced(AddOnDetailRequired)
      else if detail.garageSize.value.LargerMultiCar? then Unpriced(AddOnAssessmentRequired)
      else Priced(MakeLine("ADDON_GARAGE_CLEANING", quantity, if detail.garageSize.value.DoubleGarage? then 40_000 else 25_000))
    case ExtraBathroom =>
      if detail.bathroomType.None? then Unpriced(AddOnDetailRequired)
      else Priced(MakeLine("ADDON_EXTRA_BATHROOM", quantity, if detail.bathroomType.value.LargeMaster? then 30_000 else 20_000))
    case OtherAddOn(_) => Unpriced(AddOnDetailRequired)
  }

  function AddOnSheet(s: Submission, index: nat): Sheet
    requires index < |s.addOns|
  {
    match ReviewedAddOn(s, index)
    case Priced(line) => Sheet([line], [])
    case Unpriced(code) => Sheet([], [Reason(code, Some(index))])
  }

  function AddOnSheets(s: Submission, count: nat): Sheet
    requires count <= |s.addOns|
  {
    if count == 0 then EMPTY else Joined(AddOnSheets(s, count - 1), AddOnSheet(s, count - 1))
  }

  /** The reasons an Admin review replaces. */
  predicate IsSuperseded(reason: Reason) {
    reason.code.BreakEvenReviewRequired? || reason.code.AddOnDetailRequired?
  }

  function WithoutSuperseded(reasons: seq<Reason>): (kept: seq<Reason>)
    ensures forall r :: r in kept <==> r in reasons && !IsSuperseded(r)
  {
    if reasons == [] then []
    else
      var rest := WithoutSuperseded(reasons[1..]);
      assert reasons == [reasons[0]] + reasons[1..];
      if IsSuperseded(reasons[0]) then rest else [reasons[0]] + rest
  }

  function AdminSheet(s: Submission): Sheet {
    var base := WebsitePrice(s, None).value;
    Joined(Sheet(base.lines, WithoutSuperseded(base.reasons)), AddOnSheets(s, |s.addOns|))
  }

  /** `calculateAdminReviewedQuotePricing` */
  function AdminPrice(s: Submission, costs: Option<Costs>): Result<Price, PricingError> {
    Finish(AdminSheet(s), costs)
  }

  // ---- stored lines --------------------------------------------------------------------------

  datatype LineType = PrimaryServiceLine | AddOnLine | AdjustmentLine

  /** `quoteLineItemType`, by code prefix. */
  function TypeOf(code: string): LineType {
    if "PRIMARY_" <= code then PrimaryServiceLine
    else if "ADDON_" <= code || "PREFERENCE_" <= code then AddOnLine
    else AdjustmentLine
  }

  datatype LineItem = LineItem(kind: LineType, line: Line, sortOrder: nat)

  const FLOOR_ADJUSTMENT := "PROFITABILITY_FLOOR_ADJUSTMENT"

  /** The line items a revision is created with: the priced lines, then the floor adjustment if there is one. */
  function RevisionItems(p: Price): seq<LineItem> {
    seq(|p.lines|, i requires 0 <= i < |p.lines| => LineItem(TypeOf(p.lines[i].code), p.lines[i], i))
    + (if p.adjustmentsMinor > 0
       then [LineItem(AdjustmentLine, MakeLine(FLOOR_ADJUSTMENT, 1, p.adjustmentsMinor), |p.lines|)] else [])
  }

  function ItemTotal(items: seq<LineItem>): int {
    if items == [] then 0 else ItemTotal(items[..|items| - 1]) + items[|items| - 1].line.lineAmountMinor
  }
}
