/**
 The guided questions as customers read them: for each the printed lines or the format asked for, and the place in
 the draft where its answer belongs.
 (apps/api/src/messaging/messaging-quote-guided-home.ts, messaging-quote-guided-cleaning-requirements.ts,
 messaging-quote-guided-post-event.ts, messaging-quote-guided-personalise.ts,
 messaging-quote-guided-visit-household.ts, messaging-quote-guided-final-details.ts)
 */
module InterviewForms {
  import opened Prelude
  import opened Json
  import opened InterviewBase
  import opened AnswerFormats
  import GuidedVisitHousehold
  import GuidedFinalDetails
  import SubmissionInput
  import Text

  /** A menu line, what choosing it stores, and whether this draft gets to see it. */
  datatype Line = Line(words: string, stored: string, shown: bool)

  datatype Format =
    | Menu(lines: seq<Line>)
    | YesNoMenu
    | Sentence
    | SentenceOrNone
    | WholeNumber(least: nat, most: nat, places: Option<nat>)
    | ExactWord(word: string, stands: Json)
    | YesOrNo
    | Date
    | DateOrNone
    | EmailAddress
    | MobileNumber
    | AreaNumbers

  function L(words: string, stored: string): Line {
    Line(words, stored, true)
  }

  function TextAt(draft: Fields, path: Path): Option<string> {
    match At(Some(Obj(draft)), path)
    case Some(Str(text)) => Some(text)
    case _ => None
  }

  // ---- places --------------------------------------------------------------------------------

  function HomePlace(q: Question): (path: Path)
    ensures path != []
  {
    [Property,
     if q == AskPropertyType then PropertyType else if q == AskAddressLine1 then AddressLine1
     else if q == AskSuburb then Suburb else if q == AskCountryConfirmation then Country
     else if q == AskFloorSize then FloorSize else if q == AskBedrooms then Bedrooms
     else if q == AskBathrooms then Bathrooms else if q == AskLivingAreas then LivingAreas
     else if q == AskApartmentFloor then ExactFloor else if q == AskApartmentAccess then BuildingAccess
     else if q == AskOutdoorArea then OutdoorArea else EstateClassification]
  }

  function RequestPlace(q: Question): (path: Path)
    ensures path != []
  {
    if q == AskFrequency then [Request, Frequency]
    else if q == AskCustomFrequencyNote then [Request, CustomFrequencyNote]
    else if q == AskHomeCondition then [Request, HomeCondition]
    else if q == AskAddOns || q == AskExtraRefrigeratorQuantity || q == AskBalconyPatioQuantity then [Request, AddOns]
    else if q == AskEcoFriendlyProducts then [Request, EcoFriendlyProducts]
    else if q == AskLaundryFacilities then [Request, Laundry, Facilities]
    else if q == AskLaundryLoads then [Request, Laundry, LaundryLoads]
    else if q == AskIroningLoads then [Request, Laundry, IroningLoads]
    else [Request, PrimaryService, WebsiteValue]
  }

  function EventPlace(q: Question): (path: Path)
    ensures path != []
  {
    [Request, PostEvent,
     if q == AskEventType then EventType else if q == AskVenueType then VenueType
     else if q == AskGuestBand then GuestBand else if q == AskExactBathrooms then Bathrooms
     else if q == AskKitchenUsed then KitchenSubstantiallyUsed else if q == AskDishwashing then Dishwashing
     else if q == AskOutdoorAreas then OutdoorAreas else if q == AskWasteLevel then WasteLevel
     else if q == AskSignificantSoiling then SignificantOrdinarySoiling
     else if q == AskOvernight then LateNightOrOvernight else if q == AskBulkWaste then BulkWasteRemovalRequested
     else if q == AskSpecialistContamination then SpecialistContamination
     else if q == AskSpecialistCarpetUpholstery then SpecialistCarpetOrUpholstery else ComplexVenue]
  }

  function VisitPlace(q: Question): (path: Path)
    ensures path != []
  {
    if q == AskPreferredDate then [Visit, PreferredDate]
    else if q == AskAlternativeDate then [Visit, AlternativeDate]
    else if q == AskPreferredTime then [Visit, PreferredTime]
    else if q == AskFlexibility then [Visit, Flexibility]
    else if q == AskUrgency then [Visit, Urgency]
    else if q == AskRecurringNotes then [Visit, RecurringNotes]
    else if q == AskComplexAccess then [Access, ComplexAccess]
    else if q == AskSecurityInstructions then [Access, SecurityInstructions]
    else if q == AskParking then [Access, Parking]
    else if q == AskKeyHandover then [Access, KeyHandover]
    else if q == AskKeyHandoverDetails then [Access, KeyHandoverDetails]
    else if q == AskSomeonePresent then [Access, SomeonePresent]
    else if q == AskHasPets then [Household, HasPets]
    else if q == AskPetType then [Household, PetType]
    else [Household, PetTemperament]
  }

  function FinalPlace(q: Question): (path: Path)
    ensures path != []
  {
    if q == AskOffLimitsAreas then [Safety, OffLimitsAreas]
    else if q == AskFragileItems then [Safety, FragileItems]
    else if q == AskProductRestrictions then [Safety, ProductRestrictions]
    else if q == AskAllergies then [Safety, AllergiesOrSensitivities]
    else if q == AskExistingDamage then [Safety, ExistingDamage]
    else if q == AskAttentionAreas then [Notes, AttentionAreas]
    else if q == AskRenovationDust then [Notes, RenovationDust]
    else if q == AskApplianceNotes then [Notes, ApplianceNotes]
    else if q == AskAdditionalNotes then [Notes, AdditionalNotes]
    else if q == AskPhotos then [Photos]
    else if q == AskFullName then [FieldName.Customer, FullName]
    else if q == AskEmail then [FieldName.Customer, FieldName.Email]
    else if q == AskMobile then [FieldName.Customer, FieldName.Mobile]
    else [FieldName.Customer, PreferredContact]
  }

  /** Where the answer to a question is kept. */
  function Place(q: Question): (path: Path)
    ensures path != []
  {
    if q < CLEANING_START then HomePlace(q)
    else if POST_EVENT_START <= q < PERSONALISE_START then EventPlace(q)
    else if q < VISIT_START then RequestPlace(q)
    else if q < FINAL_START then VisitPlace(q)
    else FinalPlace(q)
  }

  // ---- what is printed -----------------------------------------------------------------------

  function HomeForm(draft: Fields, q: Question): Format {
    if q == AskPropertyType then
      Menu([L("Apartment", "APARTMENT"), L("Townhouse", "TOWNHOUSE"), L("House", "HOUSE"), L("Duplex", "DUPLEX"),
            L("Other", "OTHER")])
    else if q == AskAddressLine1 || q == AskSuburb then Sentence
    else if q == AskCountryConfirmation then ExactWord("YES", Str("South Africa"))
    else if q == AskFloorSize then
      Menu([L("Under 40 m2", "UNDER_40"), L("40-59 m2", "FROM_40_TO_59"), L("60-79 m2", "FROM_60_TO_79"),
            L("80-99 m2", "FROM_80_TO_99"), L("100-129 m2", "FROM_100_TO_129"), L("130-169 m2", "FROM_130_TO_169"),
            L("170-219 m2", "FROM_170_TO_219"), L("220-299 m2", "FROM_220_TO_299"), L("300+ m2", "FROM_300_UP"),
            L("Not sure", "UNKNOWN")])
    else if q == AskBedrooms then
      Menu([Line("Studio", "STUDIO", TextAt(draft, [Property, PropertyType]) == Some("APARTMENT")),
            L("1 bedroom", "ONE"), L("2 bedrooms", "TWO"), L("3 bedrooms", "THREE"), L("4 bedrooms", "FOUR"),
            L("5+ bedrooms", "FIVE_PLUS"), L("Other", "OTHER")])
    else if q == AskBathrooms then
      Menu([L("1 bathroom", "ONE"), L("2 bathrooms", "TWO"), L("3 bathrooms", "THREE"), L("4 bathrooms", "FOUR"),
            L("5+ bathrooms", "FIVE_PLUS")])
    else if q == AskLivingAreas then Menu([L("1", "ONE"), L("2", "TWO"), L("3", "THREE"), L("4+", "FOUR_PLUS")])
    else if q == AskApartmentFloor then WholeNumber(0, 50, Some(2))
    else if q == AskApartmentAccess then
      Menu([L("Elevator", "ELEVATOR"), L("Stairs", "STAIRS"), L("Elevator and stairs", "ELEVATOR_AND_STAIRS")])
    else if q == AskOutdoorArea then
      Menu([L("None", "NONE"), L("Balcony", "BALCONY"), L("Patio", "PATIO"), L("Both balcony and patio", "BOTH")])
    else
      Menu([L("None", "NONE"), L("Estate", "ESTATE"), L("Complex", "COMPLEX"), L("Gated community", "GATED_COMMUNITY")])
  }

  const CANONICAL: Path := [Request, PrimaryService, CanonicalService]

  /** The frequencies offered with a service; those without a rule of their own get every one. */
  function OfferedWith(service: Option<string>): set<string> {
    match service
    case None => {"ONE_TIME", "CUSTOM"}
    case Some(name) =>
      if name == "Move-In Cleaning" || name == "Move-Out Cleaning" || name == "Post-Event Cleaning" then {"ONE_TIME"}
      else if name == "Deep Cleaning" then {"ONE_TIME", "MONTHLY", "CUSTOM"}
      else if name == "Kitchen Cleaning" || name == "Bathroom Sanitisation" || name == "Bedroom Cleaning"
           || name == "Living Area Cleaning" || name == "Interior Window Cleaning" || name == "Laundry Folding"
      then {"ONE_TIME", "CUSTOM"}
      else {"ONE_TIME", "WEEKLY", "EVERY_TWO_WEEKS", "MONTHLY", "CUSTOM"}
  }

  function FrequencyLine(draft: Fields, words: string, stored: string): Line {
    Line(words, stored, stored in OfferedWith(TextAt(draft, CANONICAL)))
  }

  function RequestForm(draft: Fields, q: Question): Format {
    if q == AskFrequency then
      Menu([FrequencyLine(draft, "One time", "ONE_TIME"), FrequencyLine(draft, "Weekly", "WEEKLY"),
            FrequencyLine(draft, "Every two weeks", "EVERY_TWO_WEEKS"), FrequencyLine(draft, "Monthly", "MONTHLY"),
            FrequencyLine(draft, "Custom schedule", "CUSTOM")])
    else if q == AskCustomFrequencyNote then Sentence
    else if q == AskEcoFriendlyProducts then YesNoMenu
    else if q == AskLaundryFacilities then
      Menu([L("Washing machine and dryer", "WASHER_DRYER"),
            L("Washing machine and clothes line / drying rack", "WASHER_LINE")])
    else if q == AskLaundryLoads || q == AskIroningLoads then WholeNumber(1, MAX_SAFE_INTEGER, None)
    else
      Menu([L("Light upkeep", "LIGHT_UPKEEP"), L("Standard cleaning", "STANDARD"),
            L("Needs extra attention", "EXTRA_ATTENTION"), L("Heavy buildup", "HEAVY_BUILDUP"),
            L("Recently renovated", "RECENTLY_RENOVATED"), L("Vacant", "VACANT"),
            L("Move-in or move-out condition", "MOVE_IN_OUT")])
  }

  function EventForm(q: Question): Format {
    if q == AskEventType then
      Menu([L("Party or birthday", "PARTY_BIRTHDAY"), L("Wedding or reception", "WEDDING_RECEPTION"),
            L("Family gathering", "FAMILY_GATHERING"), L("Corporate event", "CORPORATE_EVENT"),
            L("Funeral or memorial", "FUNERAL_MEMORIAL"), L("Other", "OTHER")])
    else if q == AskVenueType then
      Menu([L("House/home", "HOME"), L("Apartment", "APARTMENT"), L("Business premises", "BUSINESS_PREMISES"),
            L("Event venue", "EVENT_VENUE"), L("Other", "OTHER")])
    else if q == AskGuestBand then
      Menu([L("1-20", "ONE_TO_20"), L("21-50", "FROM_21_TO_50"), L("51-100", "FROM_51_TO_100"),
            L("101-150", "FROM_101_TO_150"), L("150+", "FROM_150_UP")])
    else if q == AskExactBathrooms then WholeNumber(1, 20, Some(2))
    else if q == AskDishwashing then Menu([L("None", "NONE"), L("Moderate", "MODERATE"), L("Heavy", "HEAVY")])
    else if q == AskOutdoorAreas then AreaNumbers
    else if q == AskWasteLevel then Menu([L("Light", "LIGHT"), L("Moderate", "MODERATE"), L("Heavy", "HEAVY")])
    else YesOrNo
  }

  function VisitForm(q: Question): Format {
    if q == AskPreferredDate then Date
    else if q == AskAlternativeDate then DateOrNone
    else if q == AskPreferredTime then
      Menu([L("Morning", "MORNING"), L("Midday", "MIDDAY"), L("Afternoon", "AFTERNOON"), L("Flexible", "FLEXIBLE")])
    else if q == AskComplexAccess then
      Menu([L("Access code", "ACCESS_CODE"), L("Not applicable", "NOT_APPLICABLE"),
            L("Visitor sign-in", "VISITOR_SIGN_IN"), L("Resident will arrange access", "RESIDENT_ARRANGED")])
    else if q == AskKeyHandover then
      Menu([L("Someone will open", "SOMEONE_WILL_OPEN"), L("Concierge / reception", "CONCIERGE_RECEPTION"),
            L("To be arranged", "TO_BE_ARRANGED")])
    else if q == AskRecurringNotes || q == AskSecurityInstructions || q == AskParking then SentenceOrNone
    else if q == AskSomeonePresent || q == AskHasPets then YesNoMenu
    else Sentence
  }

  function FinalForm(draft: Fields, q: Question): Format {
    if q == AskPhotos then
      (if |SubmissionInput.MediaAssetIds(draft)| > 0 then ExactWord("DONE", Arr([])) else ExactWord("0", Arr([])))
    else if q == AskFullName then Sentence
    else if q == AskEmail then EmailAddress
    else if q == AskMobile then MobileNumber
    else if q == AskPreferredContact then Menu([L("Phone", "PHONE"), L("Email", "EMAIL"), L("WhatsApp", "WHATSAPP")])
    else SentenceOrNone
  }

  /** The service menu and the add-on questions have a form of their own. */
  predicate HasOrdinaryForm(q: Question) {
    q < NOTHING_LEFT && q != AskPrimaryService && q != AskAddOns && q != AskExtraRefrigeratorQuantity &&
    q != AskBalconyPatioQuantity
  }

  function Printed(draft: Fields, q: Question): Format {
    if q < CLEANING_START then HomeForm(draft, q)
    else if POST_EVENT_START <= q < PERSONALISE_START then EventForm(q)
    else if q < VISIT_START then RequestForm(draft, q)
    else if q < FINAL_START then VisitForm(q)
    else FinalForm(draft, q)
  }

  // ---- what a reply means --------------------------------------------------------------------

  /** The number of a menu line, counted from one. */
  predicate IsNumberOf(text: string, i: nat) {
    text == Text.Written(i + 1)
  }

  /** The reply chooses this line of a menu. */
  predicate Chooses(lines: seq<Line>, text: string, i: nat) {
    i < |lines| && lines[i].shown && IsNumberOf(text, i)
  }

  ghost predicate NamesAreas(text: string, v: Json) {
    exists picks :: ArePicks(picks) && text == WrittenPicks(picks) && v == PickedAreas(picks)
  }

  /** What a reply stands for under a format, if it fits the format. */
  ghost predicate Means(format: Format, text: string, v: Option<Json>) {
    match format
    case Menu(lines) =>
      if v.Some? then exists i: nat :: Chooses(lines, text, i) && v == Some(Str(lines[i].stored))
      else forall i: nat :: !Chooses(lines, text, i)
    case YesNoMenu => v == if text == "1" then Some(Bool(true)) else if text == "2" then Some(Bool(false)) else None
    case Sentence => v == if text == "" then None else Some(Str(text))
    case SentenceOrNone => v == if text == "" then None else if text == "0" then Some(Str("")) else Some(Str(text))
    case WholeNumber(least, most, places) =>
      var fits := text != "" && Text.AllDigits(text) && (places.Some? ==> |text| <= places.value) &&
                  least <= Text.Decimal(text) <= most;
      v == if fits then Some(Num(Text.Decimal(text) as real)) else None
    case ExactWord(word, stands) => v == if text == word then Some(stands) else None
    case YesOrNo => v == if text == "YES" then Some(Bool(true)) else if text == "NO" then Some(Bool(false)) else None
    case Date => v == if GuidedVisitHousehold.IsCalendarDate(text) then Some(Str(text)) else None
    case DateOrNone =>
      v == if text == "0" then Some(Str("")) else if GuidedVisitHousehold.IsCalendarDate(text) then Some(Str(text)) else None
    case EmailAddress => v == if GuidedFinalDetails.IsEmail(text) then Some(Str(text)) else None
    case MobileNumber => v == if GuidedFinalDetails.IsMobile(text) then Some(Str(text)) else None
    case AreaNumbers =>
      if text == "0" then v == Some(Arr([]))
      else if v.Some? then NamesAreas(text, v.value)
      else forall w :: !NamesAreas(text, w)
  }

  // ---- writing one place ---------------------------------------------------------------------

  /** The draft with one value written at a place, objects on the way kept or made. */
  function PutAt(base: Fields, path: Path, v: Json): Fields
    requires path != []
    decreases |path|
  {
    if |path| == 1 then base[path[0] := v]
    else base[path[0] := Obj(PutAt(Base(Get(base, path[0])), path[1..], v))]
  }

  lemma {:induction false} PutReadsBack(base: Fields, path: Path, v: Json)
    requires path != []
    ensures At(Some(Obj(PutAt(base, path, v))), path) == Some(v)
    decreases |path|
  {
    if |path| > 1 {
      PutReadsBack(Base(Get(base, path[0])), path[1..], v);
    } else {
      assert path[1..] == [];
    }
  }

  predicate IsPrefix(a: Path, b: Path)
    decreases |a|
  {
    a == [] || (b != [] && a[0] == b[0] && IsPrefix(a[1..], b[1..]))
  }

  /** Places that are neither above nor below the one written keep what they hold. */
  lemma {:induction false} PutKeepsOthers(base: Fields, path: Path, v: Json, other: Path)
    requires path != [] && !IsPrefix(path, other) && !IsPrefix(other, path)
    ensures At(Some(Obj(PutAt(base, path, v))), other) == At(Some(Obj(base)), other)
    decreases |path|
  {
    if other[0] == path[0] {
      PutKeepsOthers(Base(Get(base, path[0])), path[1..], v, other[1..]);
      BaseReads(Get(base, path[0]), other[1..]);
    }
  }

  /** Below its top, a value that is no object reads like an empty one. */
  lemma BaseReads(value: Option<Json>, path: Path)
    requires path != []
    ensures At(Some(Obj(Base(value))), path) == At(value, path)
  {
    if value.None? || !value.value.Obj? {
      NothingBelowUndefined(path[1..]);
    }
  }

  /** The patch that writes one value at a place. */
  function Chain(path: Path, v: Json): Json
    decreases |path|
  {
    if path == [] then v else Obj(map[path[0] := Chain(path[1..], v)])
  }

  /** Merging a one-value patch writes that value. */
  lemma {:induction false} ChainPuts(base: Fields, path: Path, v: Json)
    requires path != [] && !v.Obj?
    ensures MergeFields(base, Chain(path, v).fields) == PutAt(base, path, v)
    decreases |path|
  {
    if |path| == 1 {
      assert path[1..] == [];
      MergeLeaf(base, path[0], v);
    } else {
      var inner := Chain(path[1..], v);
      ChainPuts(Base(Get(base, path[0])), path[1..], v);
      MergeNested(base, path[0], inner.fields);
    }
  }
}
