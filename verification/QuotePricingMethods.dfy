/**
 The pricing calculations as the services run them: helpers push lines and
 reasons into a shared sheet.
 (apps/api/src/quotes/website-quote-pricing.ts, quote-admin-repricing.ts)
 */
module QuotePricingMethods {
  import opened Prelude
  import opened QuoteFacts
  import opened QuoteProfitability
  import opened QuotePricing
  import PostEventCleaning

  /** The two arrays the helpers of one calculation share. */
  class Worksheet {
    var lines: seq<Line>
    var reasons: seq<Reason>

    constructor ()
      ensures Contents() == EMPTY
    {
      lines, reasons := [], [];
    }

    function Contents(): Sheet
      reads this
    {
      Sheet(lines, reasons)
    }

    method AddFloorPricedPrimary(service: Service, size: FloorSize)
      requires IsFloorPriced(service)
      modifies this
      ensures Contents() == Joined(old(Contents()), FloorPricedSheet(service, size))
    {
      if size.UnknownSize? {
        reasons := reasons + [Reason(FloorSizeRequired, None)];
        return;
      }
      lines := lines + [MakeLine(PrimaryCode(service), 1, FloorPrice(service, size))];
      if size.From300Up? {
        reasons := reasons + [Reason(FromPriceRequiresReview, None)];
      }
      if service.RegularHome? {
        reasons := reasons + [Reason(RoomConfigurationReview, None)];
      }
    }

    method PushReviews(codes: seq<PostEventCleaning.ReviewCode>)
      modifies this
      ensures Contents() == Joined(old(Contents()), Sheet([], ReviewSheet(codes)))
    {
      for i := 0 to |codes|
        invariant lines == old(lines)
        invariant reasons == old(reasons) + ReviewSheet(codes[..i])
      {
        assert ReviewSheet(codes[..i + 1]) == ReviewSheet(codes[..i]) + [Reason(PostEventReview(codes[i]), None)];
        reasons := reasons + [Reason(PostEventReview(codes[i]), None)];
      }
      assert codes[..|codes|] == codes;
    }

    method AddPostEventPrimary(s: Submission)
      modifies this
      ensures Contents() == Joined(old(Contents()), PostEventSheet(s))
    {
      if s.postEvent.None? {
        reasons := reasons + [Reason(PostEventFactsRequired, None)];
        return;
      }
      var resolved := PostEventCleaning.ResolvePostEventCleaning(s.floorSize, s.postEvent.value);
      PostEventCleaning.RefusalsAreExplained(s.floorSize, s.postEvent.value);
      hide PostEventCleaning.Resolve, ReviewSheet;
      if !resolved.automaticPricingAllowed || resolved.preliminaryPriceMinor.None? {
        PushReviews(resolved.reviewReasons);
        // A refusal always comes with a reason, so the code's own fallback reason is never used.
        return;
      }
      lines := lines + [MakeLine("PRIMARY_POST_EVENT_CLEANING", 1, resolved.preliminaryPriceMinor.value)];
    }

    method AddRooms(count: Count, openEnded: Count, first: string, further: string, firstMinor: nat, furtherMinor: nat)
      modifies this
      ensures Contents() == Joined(old(Contents()), RoomSheet(count, openEnded, first, further, firstMinor, furtherMinor))
    {
      var n := CountValue(count);
      lines := lines + [MakeLine(first, 1, firstMinor)];
      if n.Some? && n.value > 1 {
        lines := lines + [MakeLine(further, n.value - 1, furtherMinor)];
      }
      if count == openEnded {
        reasons := reasons + [Reason(OpenEndedCount, None)];
      }
      reasons := reasons + [Reason(RoomTypeReview, None)];
    }

    /** The dispatch on the primary service. */
    method AddPrimary(s: Submission)
      modifies this
      ensures Contents() == Joined(old(Contents()), PrimarySheet(s))
    {
      hide PostEventSheet, FloorPricedSheet, RoomSheet;
      if s.service.None? {
        reasons := reasons + [Reason(PrimaryServiceReview, None)];
        return;
      }
      var service := s.service.value;
      match service
      case PostEventService => AddPostEventPrimary(s);
      case BathroomSanitisation =>
        AddRooms(s.bathrooms, FivePlus, "PRIMARY_BATHROOM_FIRST", "PRIMARY_BATHROOM_ADDITIONAL", 55_000, 20_000);
      case BedroomCleaning =>
        if s.bedrooms == OtherCount {
          reasons := reasons + [Reason(RoomCountReview, None)];
        } else {
          AddRooms(s.bedrooms, FivePlus, "PRIMARY_BEDROOM_FIRST", "PRIMARY_BEDROOM_ADDITIONAL", 45_000, 15_000);
        }
      case LivingAreaCleaning =>
        AddRooms(s.livingAreas, FourPlus, "PRIMARY_LIVING_AREA_FIRST", "PRIMARY_LIVING_AREA_ADDITIONAL", 45_000, 15_000);
      case PostRenovation => reasons := reasons + [Reason(AssessmentRequired, None)];
      case KitchenCleaning => reasons := reasons + [Reason(KitchenScopeRequired, None)];
      case InteriorWindows =>
        lines := lines + [MakeLine("PRIMARY_INTERIOR_WINDOWS_MINIMUM", 1, 40_000)];
        reasons := reasons + [Reason(WindowCountReview, None)];
      case OtherService(_) => reasons := reasons + [Reason(UnsupportedPrimaryPricing, None)];
      case RegularHome => AddFloorPricedPrimary(RegularHome, s.floorSize);
      case DeepCleaning => AddFloorPricedPrimary(DeepCleaning, s.floorSize);
      case MoveIn => AddFloorPricedPrimary(MoveIn, s.floorSize);
      case MoveOut => AddFloorPricedPrimary(MoveOut, s.floorSize);
    }

    method AddStructuredLaundry(s: Submission)
      modifies this
      ensures Contents() == Joined(old(Contents()), LaundrySheet(s))
    {
      if !s.websiteContractV2 || s.laundry.None? {
        return;
      }
      var l := s.laundry.value;
      var errors := LaundryErrors(s.service, l);
      hide LaundryErrors, WashSheet, IroningSheet;
      if errors != [] {
        for i := 0 to |errors|
          invariant lines == old(lines)
          invariant reasons == old(reasons) + LaundryProblems(errors[..i])
        {
          assert errors[..i + 1] == errors[..i] + [errors[i]];
          reasons := reasons + [Reason(LaundryProblem(errors[i]), None)];
        }
        assert errors[..|errors|] == errors;
        return;
      }
      AddWashing(l);
      AddIroning(l);
    }

    method AddWashing(l: LaundryFacts)
      modifies this
      ensures Contents() == Joined(old(Contents()), WashSheet(l))
    {
      if l.laundryLoads.Some? {
        if l.facilities == Some(WasherDryer) {
          lines := lines + [MakeLine("ADDON_LAUNDRY_WASH_DRY_FOLD", l.laundryLoads.value, 17_500)];
        } else {
          lines := lines + [MakeLine("ADDON_LAUNDRY_WASH_HANG", l.laundryLoads.value, 12_500)];
        }
        reasons := reasons + [Reason(LaundryCapacityReview, None)];
      }
    }

    method AddIroning(l: LaundryFacts)
      modifies this
      ensures Contents() == Joined(old(Contents()), IroningSheet(l))
    {
      if l.ironingLoads.Some? {
        lines := lines + [MakeLine("ADDON_IRONING", l.ironingLoads.value, 15_000)];
        reasons := reasons + [Reason(IroningCapacityReview, None)];
      }
    }

    method AddAddOnReasons(count: nat)
      modifies this
      ensures Contents() == Joined(old(Contents()), Sheet([], AddOnReasons(0, count)))
    {
      for i := 0 to count
        invariant lines == old(lines)
        invariant reasons + AddOnReasons(i, count) == old(reasons) + AddOnReasons(0, count)
      {
        reasons := reasons + [Reason(AddOnDetailRequired, Some(i))];
      }
    }

    method AddReviewedAddOns(s: Submission)
      modifies this
      ensures Contents() == Joined(old(Contents()), AddOnSheets(s, |s.addOns|))
    {
      for i := 0 to |s.addOns|
        invariant Contents() == Joined(old(Contents()), AddOnSheets(s, i))
      {
        match ReviewedAddOn(s, i)
        case Priced(line) => lines := lines + [line];
        case Unpriced(code) => reasons := reasons + [Reason(code, Some(i))];
      }
    }
  }

  /** `lines.reduce((sum, item) => sum + item.lineAmountMinor, 0)` */
  method SumLines(lines: seq<Line>) returns (subtotal: int)
    ensures subtotal == Subtotal(lines)
  {
    subtotal := 0;
    for i := 0 to |lines|
      invariant subtotal == Subtotal(lines[..i])
    {
      assert lines[..i + 1][..i] == lines[..i];
      subtotal := subtotal + lines[i].lineAmountMinor;
    }
    assert lines[..|lines|] == lines;
  }

  method CalculateWebsiteQuotePricing(s: Submission, costs: Option<Costs>) returns (r: Result<Price, PricingError>)
    ensures r == WebsitePrice(s, costs)
  {
    hide PrimarySheet, LaundrySheet, ApplyFloor;
    var sheet := new Worksheet();
    sheet.AddPrimary(s);
    sheet.AddAddOnReasons(|s.addOns|);
    sheet.AddStructuredLaundry(s);
    if s.ecoFriendlyProducts {
      sheet.lines := sheet.lines + [MakeLine("PREFERENCE_ECO_FRIENDLY", 1, 0)];
    }
    assert sheet.Contents() == WebsiteSheet(s);
    var subtotal := SumLines(sheet.lines);
    if costs.None? {
      sheet.reasons := sheet.reasons + [Reason(BreakEvenReviewRequired, None)];
      return Ok(Price(sheet.lines, subtotal, 0, subtotal, sheet.reasons, true));
    }
    var floor := ApplyFloor(subtotal, costs.value);
    if floor.Err? {
      return Err(floor.error);
    }
    return Ok(Price(sheet.lines, subtotal, floor.value.finalTotalMinor - subtotal, floor.value.finalTotalMinor,
                    sheet.reasons, false));
  }

  method CalculateAdminReviewedQuotePricing(s: Submission, costs: Option<Costs>) returns (r: Result<Price, PricingError>)
    ensures r == AdminPrice(s, costs)
  {
    hide WebsiteSheet, AddOnSheets, WithoutSuperseded, ApplyFloor;
    var base := CalculateWebsiteQuotePricing(s, None);
    var sheet := new Worksheet();
    sheet.lines := base.value.lines;
    sheet.reasons := WithoutSuperseded(base.value.reasons);
    sheet.AddReviewedAddOns(s);
    assert sheet.Contents() == AdminSheet(s);
    var subtotal := SumLines(sheet.lines);
    if costs.None? {
      sheet.reasons := sheet.reasons + [Reason(BreakEvenReviewRequired, None)];
      return Ok(Price(sheet.lines, subtotal, 0, subtotal, sheet.reasons, true));
    }
    var floor := ApplyFloor(subtotal, costs.value);
    if floor.Err? {
      return Err(floor.error);
    }
    return Ok(Price(sheet.lines, subtotal, floor.value.finalTotalMinor - subtotal, floor.value.finalTotalMinor,
                    sheet.reasons, false));
  }
}
