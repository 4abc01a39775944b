/**
 What pricing guarantees: money is conserved line by line, and which
 submissions can be offered without review, and at what margin.
 */
module QuoteOffers {
  import opened Prelude
  import opened QuoteFacts
  import opened QuoteProfitability
  import opened QuoteCosts
  import opened QuotePricing
  import PostEventCleaning

  // ---- money is conserved --------------------------------------------------------------------

  predicate IsProduct(line: Line) {
    line.lineAmountMinor == line.quantity * line.unitAmountMinor
  }

  predicate AllProducts(lines: seq<Line>) {
    forall i | 0 <= i < |lines| :: IsProduct(lines[i])
  }

  lemma RoomLinesAreProducts(count: Count, openEnded: Count, first: string, further: string, firstMinor: nat, furtherMinor: nat)
    ensures AllProducts(RoomSheet(count, openEnded, first, further, firstMinor, furtherMinor).lines)
  {
    hide CountValue;
  }

  lemma PrimaryLinesAreProducts(s: Submission)
    ensures AllProducts(PrimarySheet(s).lines)
  {
    RoomLinesAreProducts(s.bathrooms, FivePlus, "PRIMARY_BATHROOM_FIRST", "PRIMARY_BATHROOM_ADDITIONAL", 55_000, 20_000);
    RoomLinesAreProducts(s.bedrooms, FivePlus, "PRIMARY_BEDROOM_FIRST", "PRIMARY_BEDROOM_ADDITIONAL", 45_000, 15_000);
    RoomLinesAreProducts(
      s.livingAreas, FourPlus, "PRIMARY_LIVING_AREA_FIRST", "PRIMARY_LIVING_AREA_ADDITIONAL", 45_000, 15_000);
    hide RoomSheet, PostEventCleaning.Resolve, FloorPrice;
  }

  lemma WebsiteLinesAreProducts(s: Submission)
    ensures AllProducts(WebsiteSheet(s).lines)
  {
    PrimaryLinesAreProducts(s);
    assert AllProducts(LaundrySheet(s).lines) by { hide LaundryErrors; }
    hide PrimarySheet, LaundrySheet;
  }

  lemma {:induction false} AddOnLinesAreProducts(s: Submission, count: nat)
    requires count <= |s.addOns|
    ensures AllProducts(AddOnSheets(s, count).lines)
  {
    if count > 0 {
      AddOnLinesAreProducts(s, count - 1);
      assert AllProducts(AddOnSheet(s, count - 1).lines);
      hide AddOnSheet;
    }
  }

  /** Every priced line is quantity times unit amount, whichever calculation made it. */
  lemma PricedLinesAreProducts(s: Submission, costs: Option<Costs>)
    ensures WebsitePrice(s, costs).Ok? ==> AllProducts(WebsitePrice(s, costs).value.lines)
    ensures AdminPrice(s, costs).Ok? ==> AllProducts(AdminPrice(s, costs).value.lines)
  {
    WebsiteLinesAreProducts(s);
    AddOnLinesAreProducts(s, |s.addOns|);
    hide WebsiteSheet, AddOnSheets, ApplyFloor;
  }

  lemma {:induction false} ItemsAddUp(items: seq<LineItem>, lines: seq<Line>)
    requires |items| == |lines| && forall i | 0 <= i < |lines| :: items[i].line == lines[i]
    ensures ItemTotal(items) == Subtotal(lines)
    decreases |lines|
  {
    if lines != [] {
      ItemsAddUp(items[..|items| - 1], lines[..|lines| - 1]);
    }
  }

  /** A finished price: what its lines, subtotal, adjustment and total have to do with one another. */
  lemma FinishedPrice(sheet: Sheet, costs: Option<Costs>)
    requires Finish(sheet, costs).Ok?
    ensures var p := Finish(sheet, costs).value;
            p.lines == sheet.lines && p.subtotalMinor == Subtotal(sheet.lines) &&
            p.totalMinor == p.subtotalMinor + p.adjustmentsMinor && p.adjustmentsMinor >= 0
  {
    if costs.Some? {
      FloorIsLeast(Subtotal(sheet.lines), costs.value, 0);
      hide ApplyFloor;
    }
  }

  /** The stored items of any well-made price sum to its total. */
  lemma StoredItemsAddUp(p: Price)
    requires p.totalMinor == Subtotal(p.lines) + p.adjustmentsMinor && p.adjustmentsMinor >= 0
    ensures ItemTotal(RevisionItems(p)) == p.totalMinor
  {
    hide TypeOf;
    var items := RevisionItems(p);
    ItemsAddUp(items[..|p.lines|], p.lines);
    hide Subtotal;
    if p.adjustmentsMinor > 0 {
      assert items[..|items| - 1] == items[..|p.lines|];
    } else {
      assert items == items[..|p.lines|];
    }
  }

  lemma StoredItemsAreProducts(p: Price)
    requires AllProducts(p.lines)
    ensures forall i | 0 <= i < |RevisionItems(p)| ::
              IsProduct(RevisionItems(p)[i].line) && RevisionItems(p)[i].sortOrder == i
  {
    hide TypeOf;
  }

  function PriceOf(s: Submission, costs: Option<Costs>, admin: bool): Result<Price, PricingError> {
    if admin then AdminPrice(s, costs) else WebsitePrice(s, costs)
  }

  /** The stored items of a revision sum to its total, each item being quantity times unit amount. */
  lemma MoneyIsConserved(s: Submission, costs: Option<Costs>, admin: bool)
    requires PriceOf(s, costs, admin).Ok?
    ensures var p := PriceOf(s, costs, admin).value;
            ItemTotal(RevisionItems(p)) == p.totalMinor &&
            forall i | 0 <= i < |RevisionItems(p)| ::
              IsProduct(RevisionItems(p)[i].line) && RevisionItems(p)[i].sortOrder == i
  {
    PricedLinesAreProducts(s, costs);
    FinishedPrice(if admin then AdminSheet(s) else WebsiteSheet(s), costs);
    var p := PriceOf(s, costs, admin).value;
    hide AdminSheet, WebsiteSheet, Finish, AllProducts, Subtotal;
    StoredItemsAddUp(p);
    StoredItemsAreProducts(p);
    hide RevisionItems;
  }

  // ---- what can be offered without review ----------------------------------------------------

  /** Deep, move-in or move-out cleaning of a known size below 300 m2, or an automatically priced event. */
  predicate HasAutomaticPrimary(s: Submission) {
    s.service.Some? &&
    match s.service.value
    case DeepCleaning => !s.floorSize.UnknownSize? && !s.floorSize.From300Up?
    case MoveIn => !s.floorSize.UnknownSize? && !s.floorSize.From300Up?
    case MoveOut => !s.floorSize.UnknownSize? && !s.floorSize.From300Up?
    case PostEventService =>
      s.postEvent.Some? && PostEventCleaning.Resolve(s.floorSize, s.postEvent.value).automaticPricingAllowed
    case _ => false
  }

  predicate AsksForNoPricedLaundry(s: Submission) {
    s.websiteContractV2 && s.laundry.Some? ==> s.laundry.value.laundryLoads.None? && s.laundry.value.ironingLoads.None?
  }

  /** Pet hair has one price; the others need their size from an Admin, and a garage for many cars is assessed. */
  predicate IsPriced(s: Submission, index: nat)
    requires index < |s.addOns|
  {
    s.addOns[index].service == PetHair ||
    (index in s.adminReview &&
     match s.addOns[index].service
     case InsideOven => s.adminReview[index].ovenSize.Some?
     case GarageSweeping =>
       s.adminReview[index].garageSize == Some(SingleGarage) || s.adminReview[index].garageSize == Some(DoubleGarage)
     case ExtraBathroom => s.adminReview[index].bathroomType.Some?
     case _ => false)
  }

  lemma PrimaryIsUnreviewedExactlyWhen(s: Submission)
    ensures PrimarySheet(s).reasons == [] <==> HasAutomaticPrimary(s)
  {
    if s.service == Some(PostEventService) && s.postEvent.Some? {
      PostEventCleaning.RefusalsAreExplained(s.floorSize, s.postEvent.value);
    }
    hide PostEventCleaning.Resolve, FloorPrice, MakeLine;
  }

  lemma LaundryIsUnreviewedExactlyWhen(s: Submission)
    ensures LaundrySheet(s).reasons == [] <==> AsksForNoPricedLaundry(s)
  {
    if s.websiteContractV2 && s.laundry.Some? && AsksForNoPricedLaundry(s) {
      assert LaundryErrors(s.service, s.laundry.value) == [];
    }
    hide LaundryErrors;
  }

  /** A website price with known costs needs no review exactly for these submissions. */
  lemma WebsitePriceIsFinalExactlyWhen(s: Submission, costs: Costs)
    requires WebsitePrice(s, Some(costs)).Ok?
    ensures WebsitePrice(s, Some(costs)).value.reasons == [] <==>
              HasAutomaticPrimary(s) && s.addOns == [] && AsksForNoPricedLaundry(s)
  {
    PrimaryIsUnreviewedExactlyWhen(s);
    LaundryIsUnreviewedExactlyWhen(s);
    assert AddOnReasons(0, |s.addOns|) == [] <==> s.addOns == [];
    hide PrimarySheet, LaundrySheet, HasAutomaticPrimary, AsksForNoPricedLaundry, ApplyFloor, Subtotal;
  }

  lemma {:induction false} AddOnsArePricedExactlyWhen(s: Submission, count: nat)
    requires count <= |s.addOns|
    ensures AddOnSheets(s, count).reasons == [] <==> forall i | 0 <= i < count :: IsPriced(s, i)
  {
    if count > 0 {
      AddOnsArePricedExactlyWhen(s, count - 1);
      assert AddOnSheet(s, count - 1).reasons == [] <==> IsPriced(s, count - 1);
      hide AddOnSheet, IsPriced;
    }
  }

  predicate Kept(reasons: seq<Reason>) {
    exists r :: r in reasons && !IsSuperseded(r)
  }

  lemma NothingKeptExactlyWhen(reasons: seq<Reason>)
    ensures WithoutSuperseded(reasons) == [] <==> !Kept(reasons)
  {
    var kept := WithoutSuperseded(reasons);
    if kept != [] {
      assert kept[0] in kept;
    }
    hide WithoutSuperseded;
  }

  predicate AllSuperseded(reasons: seq<Reason>) {
    forall i | 0 <= i < |reasons| :: IsSuperseded(reasons[i])
  }

  lemma {:induction false} AddOnReasonsAreSuperseded(from: nat, count: nat)
    requires from <= count
    ensures AllSuperseded(AddOnReasons(from, count))
    decreases count - from
  {
    if from < count {
      AddOnReasonsAreSuperseded(from + 1, count);
    }
  }

  predicate NoneSuperseded(reasons: seq<Reason>) {
    forall r | r in reasons :: !IsSuperseded(r)
  }

  lemma PostEventReasonsAreKept(s: Submission)
    ensures NoneSuperseded(PostEventSheet(s).reasons)
  {
    hide PostEventCleaning.Resolve, MakeLine;
  }

  lemma FloorPricedReasonsAreKept(service: Service, size: FloorSize)
    requires IsFloorPriced(service)
    ensures NoneSuperseded(FloorPricedSheet(service, size).reasons)
  {
    hide FloorPrice, MakeLine;
  }

  lemma RoomReasonsAreKept(count: Count, openEnded: Count, first: string, further: string, firstMinor: nat, furtherMinor: nat)
    ensures NoneSuperseded(RoomSheet(count, openEnded, first, further, firstMinor, furtherMinor).reasons)
  {
    hide MakeLine, CountValue;
  }

  lemma PrimaryReasonsAreKept(s: Submission)
    ensures NoneSuperseded(PrimarySheet(s).reasons)
  {
    PostEventReasonsAreKept(s);
    if s.service.Some? && IsFloorPriced(s.service.value) {
      FloorPricedReasonsAreKept(s.service.value, s.floorSize);
    }
    RoomReasonsAreKept(s.bathrooms, FivePlus, "PRIMARY_BATHROOM_FIRST", "PRIMARY_BATHROOM_ADDITIONAL", 55_000, 20_000);
    RoomReasonsAreKept(s.bedrooms, FivePlus, "PRIMARY_BEDROOM_FIRST", "PRIMARY_BEDROOM_ADDITIONAL", 45_000, 15_000);
    RoomReasonsAreKept(
      s.livingAreas, FourPlus, "PRIMARY_LIVING_AREA_FIRST", "PRIMARY_LIVING_AREA_ADDITIONAL", 45_000, 15_000);
    hide PostEventSheet, FloorPricedSheet, RoomSheet, MakeLine;
  }

  lemma LaundryReasonsAreKept(s: Submission)
    ensures NoneSuperseded(LaundrySheet(s).reasons)
  {
    hide LaundryErrors;
  }

  lemma AnyIsKept(reasons: seq<Reason>)
    requires NoneSuperseded(reasons)
    ensures reasons != [] ==> Kept(reasons)
  {
    if reasons != [] {
      assert reasons[0] in reasons;
    }
  }

  /** After an Admin review with known costs, no review is left exactly when every add-on has a price too. */
  lemma AdminPriceIsFinalExactlyWhen(s: Submission, costs: Costs)
    requires AdminPrice(s, Some(costs)).Ok?
    ensures AdminPrice(s, Some(costs)).value.reasons == [] <==>
              HasAutomaticPrimary(s) && AsksForNoPricedLaundry(s) && forall i | 0 <= i < |s.addOns| :: IsPriced(s, i)
  {
    PrimaryIsUnreviewedExactlyWhen(s);
    LaundryIsUnreviewedExactlyWhen(s);
    AddOnsArePricedExactlyWhen(s, |s.addOns|);
    AddOnReasonsAreSuperseded(0, |s.addOns|);
    PrimaryReasonsAreKept(s);
    LaundryReasonsAreKept(s);
    AnyIsKept(PrimarySheet(s).reasons);
    AnyIsKept(LaundrySheet(s).reasons);
    hide PrimarySheet, LaundrySheet, HasAutomaticPrimary, AsksForNoPricedLaundry, ApplyFloor, Subtotal;
    hide AddOnReasons, AddOnSheets, IsPriced;
    var base := WebsitePrice(s, None).value.reasons;
    NothingKeptExactlyWhen(base);
    var primary, laundry, asked := PrimarySheet(s).reasons, LaundrySheet(s).reasons, AddOnReasons(0, |s.addOns|);
    assert base == primary + asked + laundry + [] + Because(BreakEvenReviewRequired);
    KeptInParts(primary, asked, laundry, Because(BreakEvenReviewRequired));
    hide WebsitePrice;
  }

  lemma KeptInParts(primary: seq<Reason>, asked: seq<Reason>, laundry: seq<Reason>, last: seq<Reason>)
    requires AllSuperseded(asked) && AllSuperseded(last)
    ensures Kept(primary + asked + laundry + [] + last) <==> Kept(primary) || Kept(laundry)
  {
    var all := primary + asked + laundry + [] + last;
    if Kept(primary) {
      var r :| r in primary && !IsSuperseded(r);
      assert r in all;
    }
    if Kept(laundry) {
      var r :| r in laundry && !IsSuperseded(r);
      assert r in all;
    }
    if Kept(all) {
      var r :| r in all && !IsSuperseded(r);
      assert r in primary || r in asked || r in laundry || r in last;
    }
  }

  /** A submission that prices without review always has approved cleaner-hours. */
  lemma AutomaticPrimaryHasHours(s: Submission)
    requires HasAutomaticPrimary(s)
    ensures CleanerHalfHours(s).Some?
  {
    if s.service == Some(PostEventService) {
      PostEventCleaning.RefusalsAreExplained(s.floorSize, s.postEvent.value);
    }
    hide PostEventCleaning.Resolve;
  }

  predicate HasPrimaryLine(sheet: Sheet) {
    exists i :: 0 <= i < |sheet.lines| && TypeOf(sheet.lines[i].code) == PrimaryServiceLine
  }

  lemma StartsWithAPrimaryLine(sheet: Sheet)
    requires sheet.lines != [] && "PRIMARY_" <= sheet.lines[0].code
    ensures HasPrimaryLine(sheet)
  {
    assert TypeOf(sheet.lines[0].code) == PrimaryServiceLine;
  }

  lemma PrimaryCodesArePrimary(service: Service, size: FloorSize)
    requires IsFloorPriced(service) && !size.UnknownSize?
    ensures HasPrimaryLine(FloorPricedSheet(service, size))
  {
    assert "PRIMARY_" <= PrimaryCode(service);
    StartsWithAPrimaryLine(FloorPricedSheet(service, size));
  }

  lemma RoomCodesArePrimary(count: Count, openEnded: Count, first: string, further: string, firstMinor: nat, furtherMinor: nat)
    requires "PRIMARY_" <= first
    ensures HasPrimaryLine(RoomSheet(count, openEnded, first, further, firstMinor, furtherMinor))
  {
    StartsWithAPrimaryLine(RoomSheet(count, openEnded, first, further, firstMinor, furtherMinor));
  }

  /** Whenever the cost model knows the hours, the catalogue has a primary line to charge for them. */
  lemma HoursImplyAPrimaryLine(s: Submission)
    requires CleanerHalfHours(s).Some?
    ensures HasPrimaryLine(PrimarySheet(s))
  {
    hide RoomSheet, FloorPricedSheet, HasPrimaryLine, PostEventCleaning.Resolve;
    var service := s.service.value;
    if service.PostEventService? {
      PostEventCleaning.RefusalsAreExplained(s.floorSize, s.postEvent.value);
      StartsWithAPrimaryLine(PostEventSheet(s));
    } else if service.BathroomSanitisation? {
      RoomCodesArePrimary(s.bathrooms, FivePlus, "PRIMARY_BATHROOM_FIRST", "PRIMARY_BATHROOM_ADDITIONAL", 55_000, 20_000);
    } else if service.BedroomCleaning? {
      RoomCodesArePrimary(s.bedrooms, FivePlus, "PRIMARY_BEDROOM_FIRST", "PRIMARY_BEDROOM_ADDITIONAL", 45_000, 15_000);
    } else if service.LivingAreaCleaning? {
      RoomCodesArePrimary(s.livingAreas, FourPlus, "PRIMARY_LIVING_AREA_FIRST", "PRIMARY_LIVING_AREA_ADDITIONAL", 45_000, 15_000);
    } else {
      PrimaryCodesArePrimary(service, s.floorSize);
    }
  }

  /** For an event the two agree exactly: hours are ready just when the primary line is emitted. */
  lemma EventHoursExactlyWhenPrimaryLine(s: Submission)
    requires s.service == Some(PostEventService)
    ensures CleanerHalfHours(s).Some? <==> HasPrimaryLine(PrimarySheet(s))
  {
    if s.postEvent.Some? {
      PostEventCleaning.RefusalsAreExplained(s.floorSize, s.postEvent.value);
    }
    hide PostEventCleaning.Resolve;
    if CleanerHalfHours(s).Some? {
      HoursImplyAPrimaryLine(s);
    }
  }

  /** Laundry of a submission that is not website contract version 2 is neither priced nor reviewed. */
  lemma OtherChannelsDoNotPriceLaundry(s: Submission)
    requires !s.websiteContractV2
    ensures LaundrySheet(s) == EMPTY
    ensures forall costs, laundry :: WebsitePrice(s.(laundry := laundry), costs) == WebsitePrice(s, costs)
  {
    forall costs: Option<Costs>, laundry: Option<LaundryFacts>
      ensures WebsitePrice(s.(laundry := laundry), costs) == WebsitePrice(s, costs)
    {
      var other := s.(laundry := laundry);
      assert PrimarySheet(other) == PrimarySheet(s) by { hide PostEventCleaning.Resolve, FloorPrice, MakeLine; }
      hide PrimarySheet, ApplyFloor, Finish;
      assert WebsiteSheet(other) == WebsiteSheet(s);
    }
  }
}
