/**
 What the six guided-question modules share: the 66 questions in their fixed
 order, draft sections, answers, and how a patch of one group meets the draft.
 */
module InterviewBase {
  import opened Prelude
  import opened Json
  import Text

  /** The questions, numbered in the one order in which the interview asks them. */
  type Question = nat

  // home
  const AskPropertyType: Question := 0
  const AskAddressLine1: Question := 1
  const AskSuburb: Question := 2
  const AskCountryConfirmation: Question := 3
  const AskFloorSize: Question := 4
  const AskBedrooms: Question := 5
  const AskBathrooms: Question := 6
  const AskLivingAreas: Question := 7
  const AskApartmentFloor: Question := 8
  const AskApartmentAccess: Question := 9
  const AskOutdoorArea: Question := 10
  const AskEstateClassification: Question := 11

  // cleaning requirements
  const AskPrimaryService: Question := 12
  const AskFrequency: Question := 13
  const AskCustomFrequencyNote: Question := 14
  const AskHomeCondition: Question := 15

  // post-event
  const AskEventType: Question := 16
  const AskVenueType: Question := 17
  const AskGuestBand: Question := 18
  const AskExactBathrooms: Question := 19
  const AskKitchenUsed: Question := 20
  const AskDishwashing: Question := 21
  const AskOutdoorAreas: Question := 22
  const AskWasteLevel: Question := 23
  const AskSignificantSoiling: Question := 24
  const AskOvernight: Question := 25
  const AskBulkWaste: Question := 26
  const AskSpecialistContamination: Question := 27
  const AskSpecialistCarpetUpholstery: Question := 28
  const AskComplexVenue: Question := 29

  // personalise
  const AskAddOns: Question := 30
  const AskExtraRefrigeratorQuantity: Question := 31
  const AskBalconyPatioQuantity: Question := 32
  const AskEcoFriendlyProducts: Question := 33
  const AskLaundryFacilities: Question := 34
  const AskLaundryLoads: Question := 35
  const AskIroningLoads: Question := 36

  // visit, access and household
  const AskPreferredDate: Question := 37
  const AskAlternativeDate: Question := 38
  const AskPreferredTime: Question := 39
  const AskFlexibility: Question := 40
  const AskUrgency: Question := 41
  const AskRecurringNotes: Question := 42
  const AskComplexAccess: Question := 43
  const AskSecurityInstructions: Question := 44
  const AskParking: Question := 45
  const AskKeyHandover: Question := 46
  const AskKeyHandoverDetails: Question := 47
  const AskSomeonePresent: Question := 48
  const AskHasPets: Question := 49
  const AskPetType: Question := 50
  const AskPetTemperament: Question := 51

  // final details
  const AskOffLimitsAreas: Question := 52
  const AskFragileItems: Question := 53
  const AskProductRestrictions: Question := 54
  const AskAllergies: Question := 55
  const AskExistingDamage: Question := 56
  const AskAttentionAreas: Question := 57
  const AskRenovationDust: Question := 58
  const AskApplianceNotes: Question := 59
  const AskAdditionalNotes: Question := 60
  const AskPhotos: Question := 61
  const AskFullName: Question := 62
  const AskEmail: Question := 63
  const AskMobile: Question := 64
  const AskPreferredContact: Question := 65

  const HOME_START := 0
  const CLEANING_START := 12
  const POST_EVENT_START := 16
  const PERSONALISE_START := 30
  const VISIT_START := 37
  const FINAL_START := 52

  /** One past the last question: there is nothing left to ask. */
  const NOTHING_LEFT := 66

  /** Every module asks the first of its questions that is still open, if any is. */
  function FirstOpen(from: nat, end: nat, open: Question -> bool): (r: nat)
    requires from <= end
    ensures from <= r <= end
    ensures r < end ==> open(r)
    ensures forall q | from <= q < r :: !open(q)
    decreases end - from
  {
    if from == end || open(from) then from else FirstOpen(from + 1, end, open)
  }

  datatype Answer =
    | Accepted(patch: Fields)
    | Invalid(question: Question)
    | Done
    | NotApplicable

  /** The answer text every module works on: `rawText?.trim() ?? ''`. */
  function Given(raw: Option<string>): (text: string)
    ensures Text.Trimmed(text)
  {
    if raw.Some? then Text.Trim(raw.value) else ""
  }

  function Section(draft: Fields, group: FieldName): Fields {
    Base(Get(draft, group))
  }

  predicate IsTruthy(value: Option<Json>) {
    match value
    case None => false
    case Some(Null) => false
    case Some(Bool(b)) => b
    case Some(Num(n)) => n != 0.0
    case Some(Str(s)) => s != ""
    case Some(_) => true
  }

  predicate IsText(value: Option<Json>) {
    value.Some? && value.value.Str? && Text.NonBlank(value.value.text)
  }

  predicate IsFlag(value: Option<Json>) {
    value.Some? && value.value.Bool?
  }

  predicate IsList(value: Option<Json>) {
    value.Some? && value.value.Arr?
  }

  predicate IsInteger(value: Option<Json>) {
    value.Some? && value.value.Num? && value.value.number == value.value.number.Floor as real
  }

  predicate IsPositiveInteger(value: Option<Json>) {
    IsInteger(value) && value.value.number >= 1.0
  }

  function Integer(n: int): (r: Json)
    ensures IsInteger(Some(r))
    ensures n >= 1 ==> IsPositiveInteger(Some(r))
  {
    Num(n as real)
  }

  function IsTextEqual(value: Option<Json>, text: string): bool {
    value == Some(Str(text))
  }

  /** `parse` of a short whole number, as the source's /^\d{1,2}$/ guards it. */
  function ShortNumber(text: string): Option<nat> {
    if 1 <= |text| <= 2 && Text.AllDigits(text) then Some(Text.Decimal(text)) else None
  }

  const MAX_SAFE_INTEGER := 9007199254740991

  function PositiveInteger(text: string): Option<nat> {
    if text != "" && Text.AllDigits(text) && 1 <= Text.Decimal(text) <= MAX_SAFE_INTEGER
    then Some(Text.Decimal(text)) else None
  }

  function YesNo(text: string): Option<Json> {
    if text == "YES" then Some(Bool(true)) else if text == "NO" then Some(Bool(false)) else None
  }

  function OneTwo(text: string): Option<Json> {
    if text == "1" then Some(Bool(true)) else if text == "2" then Some(Bool(false)) else None
  }

  function FreeText(text: string): (r: Option<Json>)
    ensures r.Some? ==> r.value.Str? && (Text.Trimmed(text) ==> IsText(r))
  {
    if text != "" then Some(Str(text)) else None
  }

  /** Optional free text: `0` stands for none and is stored as the empty string. */
  function OptionalText(text: string): Option<Json> {
    if text == "0" then Some(Str("")) else FreeText(text)
  }

  /** A stored menu value: visible text. */
  type Label = s: string | s != "" && Text.Trimmed(s) witness "-"

  /** The entry a menu number selects, numbering from 1 as the questions print it. */
  function Choice(options: seq<Label>, text: string): (r: Option<Json>)
    ensures r.Some? ==> r.value.Str? && IsText(r) && IsTruthy(r)
  {
    if text == "1" && |options| >= 1 then Some(Str(options[0]))
    else if text == "2" && |options| >= 2 then Some(Str(options[1]))
    else if text == "3" && |options| >= 3 then Some(Str(options[2]))
    else if text == "4" && |options| >= 4 then Some(Str(options[3]))
    else if text == "5" && |options| >= 5 then Some(Str(options[4]))
    else if text == "6" && |options| >= 6 then Some(Str(options[5]))
    else if text == "7" && |options| >= 7 then Some(Str(options[6]))
    else if text == "8" && |options| >= 8 then Some(Str(options[7]))
    else if text == "9" && |options| >= 9 then Some(Str(options[8]))
    else if text == "10" && |options| >= 10 then Some(Str(options[9]))
    else if text == "11" && |options| >= 11 then Some(Str(options[10]))
    else if text == "12" && |options| >= 12 then Some(Str(options[11]))
    else if text == "13" && |options| >= 13 then Some(Str(options[12]))
    else if text == "14" && |options| >= 14 then Some(Str(options[13]))
    else None
  }

  // ---- merging one group ---------------------------------------------------------------------

  /** What merging a group's patch does to the group. */
  function MergeFields(base: Fields, patch: Fields): Fields {
    Merge(Some(Obj(base)), Obj(patch)).fields
  }

  function MergeDraft(draft: Fields, patch: Fields): Fields {
    MergeFields(draft, patch)
  }

  /** A patch of one group changes that group only. */
  lemma MergeGroup(draft: Fields, group: FieldName, patch: Fields)
    ensures var merged := MergeDraft(draft, map[group := Obj(patch)]);
            Section(merged, group) == MergeFields(Section(draft, group), patch) &&
            forall g :: g != group ==> Get(merged, g) == Get(draft, g)
  {
    var base := Get(draft, group);
    assert Base(Some(Obj(Base(base)))) == Base(base);
    assert Merge(base, Obj(patch)) == Merge(Some(Obj(Base(base))), Obj(patch));
  }

  /** A leaf replaces its field. */
  lemma MergeLeaf(base: Fields, field: FieldName, value: Json)
    requires !value.Obj?
    ensures MergeFields(base, map[field := value]) == base[field := value]
  {
    assert Merge(Get(base, field), value) == value;
    assert MergeFields(base, map[field := value]) == base[field := value];
  }

  lemma FieldUpdate(base: Fields, field: FieldName, value: Json)
    ensures Get(base[field := value], field) == Some(value)
    ensures forall f :: f != field ==> Get(base[field := value], f) == Get(base, f)
  {
  }

  /** A patch of a nested object merges into that object. */
  lemma MergeNested(base: Fields, field: FieldName, patch: Fields)
    ensures MergeFields(base, map[field := Obj(patch)])
         == base[field := Obj(MergeFields(Base(Get(base, field)), patch))]
  {
    var inner := Get(base, field);
    assert Merge(inner, Obj(patch)) == Merge(Some(Obj(Base(inner))), Obj(patch));
  }

  /** A whole draft entry that is not an object is simply replaced. */
  lemma MergeTopLeaf(draft: Fields, key: FieldName, value: Json)
    requires !value.Obj?
    ensures MergeDraft(draft, map[key := value]) == draft[key := value]
  {
    MergeLeaf(draft, key, value);
  }

  lemma {:induction false} MergeSelf(value: Json)
    ensures Merge(Some(value), value) == value
    decreases value
  {
    if value.Obj? {
      forall k | k in value.fields
        ensures Merge(Some(value.fields[k]), value.fields[k]) == value.fields[k]
      {
        MergeSelf(value.fields[k]);
      }
      assert Merge(Some(value), value).fields == value.fields;
    }
  }

  /** Writing a copy of an object with one leaf changed is changing the leaf. */
  lemma MergeCopy(base: Fields, field: FieldName, value: Json)
    requires !value.Obj?
    ensures MergeFields(base, base[field := value]) == base[field := value]
  {
    forall k | k in base && k != field
      ensures Merge(Some(base[k]), base[k]) == base[k]
    {
      MergeSelf(base[k]);
    }
    assert Merge(Get(base, field), value) == value;
    assert MergeFields(base, base[field := value]) == base[field := value];
  }
}
