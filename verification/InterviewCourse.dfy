/**
 The course of the interview read off the draft alone: which questions apply, when a stored value settles one, and
 which question an answer leads to.
 (apps/api/src/messaging/messaging-quote-guided-home.ts, messaging-quote-guided-cleaning-requirements.ts,
 messaging-quote-guided-post-event.ts, messaging-quote-guided-personalise.ts,
 messaging-quote-guided-visit-household.ts, messaging-quote-guided-final-details.ts)
 */
module InterviewCourse {
  import opened Prelude
  import opened Json
  import opened InterviewBase
  import opened GuidedHome
  import opened GuidedCleaning
  import opened GuidedPostEvent
  import opened GuidedPersonalise
  import opened GuidedVisitHousehold
  import opened GuidedFinalDetails
  import opened Interview
  import opened InterviewForms
  import InterviewAnswers
  import InterviewServices
  import SubmissionInput
  import Text

  function ValueAt(draft: Fields, path: Path): Option<Json> {
    At(Some(Obj(draft)), path)
  }

  ghost predicate HasItem(draft: Fields, service: string) {
    exists item :: item in InterviewServices.ItemsAt(draft) && InterviewServices.IsItemOf(item, service)
  }

  /** Whether a question is for this draft at all. */
  ghost predicate Applies(draft: Fields, q: Question) {
    if q == AskApartmentFloor || q == AskApartmentAccess then TextAt(draft, [Property, PropertyType]) == Some("APARTMENT")
    else if q == AskCustomFrequencyNote then TextAt(draft, [Request, Frequency]) == Some("CUSTOM")
    else if POST_EVENT_START <= q < PERSONALISE_START then TextAt(draft, CANONICAL) == Some("Post-Event Cleaning")
    else if q == AskExtraRefrigeratorQuantity then HasItem(draft, "Extra Refrigerator")
    else if q == AskBalconyPatioQuantity then HasItem(draft, "Balcony / Patio Cleaning")
    else if q == AskLaundryFacilities || q == AskLaundryLoads then ValueAt(draft, [Request, Laundry, LaundryLoads]).Some?
    else if q == AskIroningLoads then ValueAt(draft, [Request, Laundry, IroningLoads]).Some?
    else if q == AskKeyHandoverDetails then TextAt(draft, [Access, KeyHandover]) == Some("TO_BE_ARRANGED")
    else if q == AskPetType || q == AskPetTemperament then ValueAt(draft, [Household, HasPets]) == Some(Bool(true))
    else true
  }

  /** Whether a stored value settles a question of this format. */
  predicate Settles(q: Question, format: Format, value: Option<Json>) {
    match format
    case Menu(_) => if q < VISIT_START then IsTruthy(value) else IsText(value)
    case YesNoMenu => IsFlag(value)
    case YesOrNo => IsFlag(value)
    case WholeNumber(_, _, places) => if places.Some? then IsInteger(value) else IsPositiveInteger(value)
    case SentenceOrNone => value.Some?
    case DateOrNone => value.Some?
    case AreaNumbers => IsList(value)
    case ExactWord(_, stands) => if stands.Arr? then IsList(value) else value == Some(stands)
    case _ => IsText(value)
  }

  ghost predicate IsSettled(draft: Fields, q: Question) {
    Settles(q, Printed(draft, q), ValueAt(draft, Place(q)))
  }

  /** The stored values that count as no answer in the menus, as JavaScript tests them. */
  lemma FalsyValues(value: Option<Json>)
    ensures !IsTruthy(value) <==>
              value in {None, Some(Null), Some(Bool(false)), Some(Num(0.0)), Some(Str(""))}
  {
  }

  /** A text counts when some character of it is visible. */
  lemma VisibleTexts(s: string)
    ensures IsText(Some(Str(s))) <==> exists i :: 0 <= i < |s| && !Text.IsSpace(s[i])
  {
    var before, after := Text.TrimTakesSpace(s);
    var t := Text.Trim(s);
    if t != "" {
      assert s[|before|] == t[0];
    } else {
      assert s == before + after;
    }
    hide Text.IsSpace, Text.Trim;
  }

  /** Numbers count when whole, and loads and quantities from one up. */
  lemma WholeNumbers(value: Option<Json>)
    ensures IsInteger(value) <==> exists n :: value == Some(Integer(n))
    ensures IsPositiveInteger(value) <==> exists n :: n >= 1 && value == Some(Integer(n))
  {
    if IsInteger(value) {
      var n := value.value.number.Floor;
      assert value == Some(Integer(n));
    }
  }

  // ---- reading the draft ---------------------------------------------------------------------

  lemma ReadTwo(draft: Fields, group: FieldName, field: FieldName)
    ensures ValueAt(draft, [group, field]) == Get(Section(draft, group), field)
  {
    assert [group, field][1..] == [field] && [field][1..] == [];
    assert ValueAt(draft, [group, field]) == At(Get(draft, group), [field]);
    assert At(Get(draft, group), [field]) == At(Get(Section(draft, group), field), []);
  }

  lemma ReadThree(draft: Fields, group: FieldName, record: FieldName, field: FieldName)
    ensures ValueAt(draft, [group, record, field]) == Get(Base(Get(Section(draft, group), record)), field)
  {
    assert [group, record, field][1..] == [record, field] && [record, field][1..] == [field] && [field][1..] == [];
    var inner := Get(Section(draft, group), record);
    assert ValueAt(draft, [group, record, field]) == At(Get(draft, group), [record, field]);
    assert At(Get(draft, group), [record, field]) == At(inner, [field]);
    assert At(inner, [field]) == At(Get(Base(inner), field), []);
  }

  lemma HomeOpenExactlyWhen(draft: Fields, q: Question)
    requires q < CLEANING_START
    ensures IsOpen(draft, q) <==> Applies(draft, q) && !IsSettled(draft, q)
  {
    ReadTwo(draft, Property, HomeField(q));
    ReadTwo(draft, Property, PropertyType);
    assert HomePlace(q) == [Property, HomeField(q)];
    hide HomeField, HomePlace, At, Section, Get, IsTruthy, IsText, IsInteger;
  }

  lemma CleaningOpenExactlyWhen(draft: Fields, q: Question)
    requires CLEANING_START < q < POST_EVENT_START
    ensures IsOpen(draft, q) <==> Applies(draft, q) && !IsSettled(draft, q)
  {
    ReadTwo(draft, Request, CleaningField(q));
    ReadTwo(draft, Request, Frequency);
    assert RequestPlace(q) == [Request, CleaningField(q)];
    hide At, Section, Get, IsTruthy, IsText, FrequencyLine;
  }

  lemma EventOpenExactlyWhen(draft: Fields, q: Question)
    requires POST_EVENT_START <= q < PERSONALISE_START
    ensures IsOpen(draft, q) <==> Applies(draft, q) && !IsSettled(draft, q)
  {
    ReadThree(draft, Request, PostEvent, FactField(q));
    InterviewAnswers.CanonicalAt(draft);
    assert EventPlace(q) == [Request, PostEvent, FactField(q)];
    hide At, Section, Get, Base, IsTruthy, IsInteger, IsFlag, IsList, Canonical, TextAt, FactField, EventPlace;
  }

  lemma ProductOpenExactlyWhen(draft: Fields, q: Question)
    requires AskEcoFriendlyProducts <= q <= AskIroningLoads
    ensures IsOpen(draft, q) <==> Applies(draft, q) && !IsSettled(draft, q)
  {
    ReadTwo(draft, Request, EcoFriendlyProducts);
    ReadThree(draft, Request, Laundry, Facilities);
    ReadThree(draft, Request, Laundry, LaundryLoads);
    ReadThree(draft, Request, Laundry, IroningLoads);
    hide At, Section, Base, IsTruthy, IsPositiveInteger, IsFlag;
  }

  lemma VisitOpenExactlyWhen(draft: Fields, q: Question)
    requires VISIT_START <= q < FINAL_START
    ensures IsOpen(draft, q) <==> Applies(draft, q) && !IsSettled(draft, q)
  {
    ReadTwo(draft, VisitGroup(q), VisitField(q));
    ReadTwo(draft, Access, KeyHandover);
    ReadTwo(draft, Household, HasPets);
    assert VisitPlace(q) == [VisitGroup(q), VisitField(q)];
    hide VisitPlace, VisitField, At, Section, Get, IsText, IsFlag;
  }

  lemma FinalOpenExactlyWhen(draft: Fields, q: Question)
    requires FINAL_START <= q < NOTHING_LEFT
    ensures IsOpen(draft, q) <==> Applies(draft, q) && !IsSettled(draft, q)
  {
    if q == AskPhotos { PhotosOpenExactlyWhen(draft); } else { DetailOpenExactlyWhen(draft, q); }
    hide *;
  }

  lemma PhotosOpenExactlyWhen(draft: Fields)
    ensures IsOpen(draft, AskPhotos) <==> Applies(draft, AskPhotos) && !IsSettled(draft, AskPhotos)
  {
    assert [Photos][1..] == [];
    assert ValueAt(draft, [Photos]) == At(Get(draft, Photos), []);
    assert FinalPlace(AskPhotos) == [Photos];
    hide FinalPlace, At, Get, IsList, SubmissionInput.MediaAssetIds;
  }

  lemma DetailOpenExactlyWhen(draft: Fields, q: Question)
    requires FINAL_START <= q < NOTHING_LEFT && q != AskPhotos
    ensures IsOpen(draft, q) <==> Applies(draft, q) && !IsSettled(draft, q)
  {
    hide At, Section, Get, IsText, SubmissionInput.MediaAssetIds;
    ReadTwo(draft, FinalGroup(q), FinalField(q));
    assert FinalPlace(q) == [FinalGroup(q), FinalField(q)];
    hide FinalPlace, FinalField, FinalGroup;
  }

  /** A question is open exactly when it applies and no stored value settles it. */
  lemma OpenExactlyWhen(draft: Fields, q: Question)
    requires HasOrdinaryForm(q)
    ensures IsOpen(draft, q) <==> Applies(draft, q) && !IsSettled(draft, q)
  {
    if q < CLEANING_START { HomeOpenExactlyWhen(draft, q); }
    else if q < POST_EVENT_START { CleaningOpenExactlyWhen(draft, q); }
    else if q < PERSONALISE_START { EventOpenExactlyWhen(draft, q); }
    else if q < VISIT_START { ProductOpenExactlyWhen(draft, q); }
    else if q < FINAL_START { VisitOpenExactlyWhen(draft, q); }
    else { FinalOpenExactlyWhen(draft, q); }
    hide *;
  }

  /** The quantity that counts is that of the first item of the service. */
  lemma {:induction false} FirstItem(items: seq<Json>, service: string) returns (first: nat)
    ensures first <= |items| && forall i | 0 <= i < first :: !InterviewServices.IsItemOf(items[i], service)
    ensures first < |items| ==> InterviewServices.IsItemOf(items[first], service)
    ensures FindAddOn(items, service) == if first < |items| then Some(items[first]) else None
    decreases |items|
  {
    if items == [] || IsAddOn(items[0], service) {
      first := 0;
    } else {
      var later := FirstItem(items[1..], service);
      first := later + 1;
      assert forall i | 0 < i < first :: items[i] == items[1..][i - 1];
    }
  }

  /** The questions with forms of their own: the service, the list, and a count for each item that needs one. */
  lemma OtherQuestionsAreOpenExactlyWhen(draft: Fields)
    ensures IsOpen(draft, AskPrimaryService) <==>
              ValueAt(draft, CANONICAL).None? || !IsText(ValueAt(draft, Place(AskPrimaryService)))
    ensures IsOpen(draft, AskAddOns) <==> ValueAt(draft, Place(AskAddOns)).None?
  {
    ReadThree(draft, Request, PrimaryService, CanonicalService);
    ReadThree(draft, Request, PrimaryService, WebsiteValue);
    ReadTwo(draft, Request, AddOns);
    hide At, Section, Base, IsText;
  }

  lemma CountsAreOpenExactlyWhen(draft: Fields, q: Question) returns (first: nat)
    requires q == AskExtraRefrigeratorQuantity || q == AskBalconyPatioQuantity
    ensures var items := InterviewServices.ItemsAt(draft);
            var service := if q == AskExtraRefrigeratorQuantity then "Extra Refrigerator" else "Balcony / Patio Cleaning";
            first <= |items| && (forall i | 0 <= i < first :: !InterviewServices.IsItemOf(items[i], service)) &&
            (first < |items| <==> Applies(draft, q)) &&
            (first < |items| ==> InterviewServices.IsItemOf(items[first], service)) &&
            (IsOpen(draft, q) <==>
               first < |items| && !IsPositiveInteger(Get(items[first].fields, Quantity)))
  {
    var items := InterviewServices.ItemsAt(draft);
    var service := if q == AskExtraRefrigeratorQuantity then EXTRA_REFRIGERATOR else BALCONY_PATIO;
    InterviewServices.ItemsAtAreThose(draft);
    first := FirstItem(items, service);
    hide InterviewServices.ItemsAt, AddOnsOf, FindAddOn, IsPositiveInteger;
    if HasItem(draft, service) {
      var item :| item in items && InterviewServices.IsItemOf(item, service);
      var k :| 0 <= k < |items| && items[k] == item;
    }
  }

  /** When nothing is left to ask, every question that applies is settled. */
  lemma FinishedInterviewsAreComplete(draft: Fields, q: Question)
    requires Next(draft) == NOTHING_LEFT && HasOrdinaryForm(q) && Applies(draft, q)
    ensures IsSettled(draft, q)
  {
    NextIsTheFirstOpenQuestion(draft);
    OpenExactlyWhen(draft, q);
    hide Applies, IsSettled, IsOpen, Next;
  }

  /** Only questions that apply are asked, and none whose answer is there. */
  lemma OnlyOpenQuestionsAreAsked(draft: Fields)
    requires HasOrdinaryForm(Next(draft))
    ensures Applies(draft, Next(draft)) && !IsSettled(draft, Next(draft))
  {
    NextIsTheFirstOpenQuestion(draft);
    OpenExactlyWhen(draft, Next(draft));
    hide Applies, IsSettled, IsOpen, Next;
  }

  // ---- where an answer leads -----------------------------------------------------------------

  function Answered(draft: Fields, raw: Option<string>): Fields
    requires Respond(draft, raw).Accepted?
  {
    MergeDraft(draft, Respond(draft, raw).patch)
  }

  /** The question after an answer is the very next one exactly when that one applies and is not settled yet. */
  lemma TheNextIsAskedExactlyWhen(draft: Fields, raw: Option<string>)
    requires HasOrdinaryForm(Next(draft)) && HasOrdinaryForm(Next(draft) + 1) && Respond(draft, raw).Accepted?
    ensures Next(Answered(draft, raw)) == Next(draft) + 1 <==>
              Applies(Answered(draft, raw), Next(draft) + 1) && !IsSettled(Answered(draft, raw), Next(draft) + 1)
  {
    hide Applies, IsSettled, IsOpen, Next, Respond, MergeDraft, GroupOf;
    AcceptedAnswersMoveOn(draft, raw);
    var merged := Answered(draft, raw);
    OpenExactlyWhen(merged, Next(draft) + 1);
    NextIsTheFirstOpenQuestion(merged);
  }

  lemma YesNoMenus(draft: Fields, q: Question, text: string, v: Option<Json>)
    requires q == AskEcoFriendlyProducts || q == AskSomeonePresent || q == AskHasPets
    ensures HasOrdinaryForm(q)
    ensures Means(Printed(draft, q), text, v) ==>
              v == if text == "1" then Some(Bool(true)) else if text == "2" then Some(Bool(false)) else None
  {
    assert Printed(draft, q) == YesNoMenu;
    hide Printed;
  }

  lemma PutIsRead(draft: Fields, path: Path, v: Json)
    requires path != []
    ensures ValueAt(PutAt(draft, path, v), path) == Some(v)
  {
    PutReadsBack(draft, path, v);
  }

  /** An accepted answer is read back at its place. */
  lemma AnswerIsRead(draft: Fields, raw: Option<string>) returns (v: Option<Json>)
    requires HasOrdinaryForm(Next(draft))
    ensures Means(Printed(draft, Next(draft)), Given(raw), v) && (Respond(draft, raw).Accepted? <==> v.Some?)
    ensures v.Some? ==> ValueAt(Answered(draft, raw), Place(Next(draft))) == v
  {
    hide Next, Respond, Place, Printed, PutAt, Given, Means, ValueAt, HasOrdinaryForm, MergeDraft;
    v := InterviewAnswers.AnswersAreRecorded(draft, raw);
    if v.Some? {
      PutIsRead(draft, Place(Next(draft)), v.value);
    }
  }

  /** A yes-or-no menu takes 1 and 2, and stores true exactly for the 1 printed before "Yes". */
  lemma YesStoresTrue(draft: Fields, raw: Option<string>)
    requires Next(draft) == AskEcoFriendlyProducts || Next(draft) == AskSomeonePresent || Next(draft) == AskHasPets
    ensures Respond(draft, raw).Accepted? <==> Given(raw) == "1" || Given(raw) == "2"
    ensures Respond(draft, raw).Accepted? ==>
              ValueAt(Answered(draft, raw), Place(Next(draft))) == Some(Bool(Given(raw) == "1"))
  {
    hide *;
    YesNoMenus(draft, Next(draft), Given(raw), None);
    var v := AnswerIsRead(draft, raw);
    YesNoMenus(draft, Next(draft), Given(raw), v);
  }

  /** Recording an answer leaves what is stored at another place as it was. */
  lemma OthersStay(draft: Fields, raw: Option<string>, other: Path)
    requires HasOrdinaryForm(Next(draft)) && Respond(draft, raw).Accepted?
    requires !IsPrefix(Place(Next(draft)), other) && !IsPrefix(other, Place(Next(draft)))
    ensures ValueAt(Answered(draft, raw), other) == ValueAt(draft, other)
  {
    var v := InterviewAnswers.AnswersAreRecorded(draft, raw);
    PutKeepsOthers(draft, Place(Next(draft)), v.value, other);
    hide Next, Respond, Place, Printed, PutAt, Given, Means;
  }

  /** The menu value recorded by the number of a line. */
  lemma LineStoresItsValue(draft: Fields, raw: Option<string>, i: nat)
    requires HasOrdinaryForm(Next(draft)) && Printed(draft, Next(draft)).Menu?
    requires Chooses(Printed(draft, Next(draft)).lines, Given(raw), i)
    ensures Respond(draft, raw).Accepted?
    ensures ValueAt(Answered(draft, raw), Place(Next(draft))) == Some(Str(Printed(draft, Next(draft)).lines[i].stored))
  {
    hide Next, Respond, Place, Printed, PutAt, Given, Answered, ValueAt, HasOrdinaryForm;
    var v := AnswerIsRead(draft, raw);
    InterviewAnswers.MeansOneThing(
      Printed(draft, Next(draft)), Given(raw), v, Some(Str(Printed(draft, Next(draft)).lines[i].stored)));
  }

  /** A reply accepted under a menu is the number of one of its lines. */
  lemma MenuRepliesAreNumbers(draft: Fields, raw: Option<string>) returns (i: nat)
    requires HasOrdinaryForm(Next(draft)) && Printed(draft, Next(draft)).Menu? && Respond(draft, raw).Accepted?
    ensures Chooses(Printed(draft, Next(draft)).lines, Given(raw), i)
  {
    var v := InterviewAnswers.AnswersAreRecorded(draft, raw);
    hide Next, Respond, Place, Printed, PutAt, Given, Chooses;
    i :| Chooses(Printed(draft, Next(draft)).lines, Given(raw), i);
  }

  predicate Apart(a: Path, b: Path) {
    !IsPrefix(a, b) && !IsPrefix(b, a)
  }

  lemma PetTypeIsOpen(draft: Fields)
    requires ValueAt(draft, [Household, PetType]).None?
    ensures Applies(draft, AskPetType) && !IsSettled(draft, AskPetType) <==>
              ValueAt(draft, [Household, HasPets]) == Some(Bool(true))
    ensures HasOrdinaryForm(AskHasPets) && HasOrdinaryForm(AskHasPets + 1) && AskHasPets + 1 == AskPetType
    ensures Place(AskHasPets) == [Household, HasPets] && Apart([Household, HasPets], [Household, PetType])
  {
    hide ValueAt;
  }

  /** The customer is asked about pets exactly after saying that there are some. */
  lemma PetsAreAskedAboutExactlyWhen(draft: Fields, raw: Option<string>)
    requires Next(draft) == AskHasPets && Respond(draft, raw).Accepted? && ValueAt(draft, [Household, PetType]).None?
    ensures Next(Answered(draft, raw)) == AskPetType <==> Given(raw) == "1"
  {
    PetTypeIsOpen(draft);
    assert !IsPrefix(Place(AskHasPets), [Household, PetType]) && !IsPrefix([Household, PetType], Place(AskHasPets));
    hide *;
    OthersStay(draft, raw, [Household, PetType]);
    PetTypeIsOpen(Answered(draft, raw));
    TheNextIsAskedExactlyWhen(draft, raw);
    YesStoresTrue(draft, raw);
  }

  lemma HandoverIsOpen(draft: Fields)
    requires ValueAt(draft, [Access, KeyHandoverDetails]).None?
    ensures Applies(draft, AskKeyHandoverDetails) && !IsSettled(draft, AskKeyHandoverDetails) <==>
              ValueAt(draft, [Access, KeyHandover]) == Some(Str("TO_BE_ARRANGED"))
    ensures HasOrdinaryForm(AskKeyHandover) && HasOrdinaryForm(AskKeyHandover + 1) && AskKeyHandover + 1 == AskKeyHandoverDetails
    ensures Place(AskKeyHandover) == [Access, KeyHandover]
    ensures Apart([Access, KeyHandover], [Access, KeyHandoverDetails])
  {
    hide At;
  }

  lemma HandoverLines(draft: Fields, text: string, i: nat)
    ensures Printed(draft, AskKeyHandover).Menu?
    ensures Chooses(Printed(draft, AskKeyHandover).lines, text, i) ==>
              (Printed(draft, AskKeyHandover).lines[i].stored == "TO_BE_ARRANGED" <==> text == "3")
  {
    InterviewAnswers.NumeralsToFifteen();
    hide Text.Written;
    assert |Printed(draft, AskKeyHandover).lines| == 3;
    assert i < 3 ==> i == 0 || i == 1 || i == 2;
  }

  /** The handover is asked about exactly after "To be arranged". */
  lemma HandoverIsAskedAboutExactlyWhen(draft: Fields, raw: Option<string>)
    requires Next(draft) == AskKeyHandover && Respond(draft, raw).Accepted?
    requires ValueAt(draft, [Access, KeyHandoverDetails]).None?
    ensures Next(Answered(draft, raw)) == AskKeyHandoverDetails <==> Given(raw) == "3"
  {
    HandoverIsOpen(draft);
    assert !IsPrefix(Place(AskKeyHandover), [Access, KeyHandoverDetails]);
    assert !IsPrefix([Access, KeyHandoverDetails], Place(AskKeyHandover));
    hide *;
    HandoverLines(draft, Given(raw), 0);
    var i := MenuRepliesAreNumbers(draft, raw);
    LineStoresItsValue(draft, raw, i);
    HandoverLines(draft, Given(raw), i);
    OthersStay(draft, raw, [Access, KeyHandoverDetails]);
    HandoverIsOpen(Answered(draft, raw));
    TheNextIsAskedExactlyWhen(draft, raw);
  }

  lemma ScheduleIsOpen(draft: Fields)
    requires ValueAt(draft, [Request, CustomFrequencyNote]).None?
    ensures Applies(draft, AskCustomFrequencyNote) && !IsSettled(draft, AskCustomFrequencyNote) <==>
              ValueAt(draft, [Request, Frequency]) == Some(Str("CUSTOM"))
    ensures HasOrdinaryForm(AskFrequency) && HasOrdinaryForm(AskFrequency + 1) && AskFrequency + 1 == AskCustomFrequencyNote
    ensures Place(AskFrequency) == [Request, Frequency] && Apart([Request, Frequency], [Request, CustomFrequencyNote])
  {
    hide At;
  }

  lemma FrequencyLines(draft: Fields, text: string, i: nat)
    ensures Printed(draft, AskFrequency).Menu?
    ensures Chooses(Printed(draft, AskFrequency).lines, text, i) ==>
              (Printed(draft, AskFrequency).lines[i].stored == "CUSTOM" <==> text == "5")
  {
    InterviewAnswers.NumeralsToFifteen();
    hide Text.Written, OfferedWith, TextAt;
    assert |Printed(draft, AskFrequency).lines| == 5;
    assert i < 5 ==> i == 0 || i == 1 || i == 2 || i == 3 || i == 4;
  }

  /** The schedule is asked for exactly after "Custom schedule". */
  lemma ScheduleIsAskedForExactlyWhen(draft: Fields, raw: Option<string>)
    requires Next(draft) == AskFrequency && Respond(draft, raw).Accepted?
    requires ValueAt(draft, [Request, CustomFrequencyNote]).None?
    ensures Next(Answered(draft, raw)) == AskCustomFrequencyNote <==> Given(raw) == "5"
  {
    ScheduleIsOpen(draft);
    assert !IsPrefix(Place(AskFrequency), [Request, CustomFrequencyNote]);
    assert !IsPrefix([Request, CustomFrequencyNote], Place(AskFrequency));
    hide *;
    FrequencyLines(draft, Given(raw), 0);
    var i := MenuRepliesAreNumbers(draft, raw);
    LineStoresItsValue(draft, raw, i);
    FrequencyLines(draft, Given(raw), i);
    OthersStay(draft, raw, [Request, CustomFrequencyNote]);
    ScheduleIsOpen(Answered(draft, raw));
    TheNextIsAskedExactlyWhen(draft, raw);
  }

  lemma FloorIsOpen(draft: Fields)
    requires ValueAt(draft, [Property, ExactFloor]).None?
    ensures Applies(draft, AskApartmentFloor) && !IsSettled(draft, AskApartmentFloor) <==>
              ValueAt(draft, [Property, PropertyType]) == Some(Str("APARTMENT"))
    ensures HasOrdinaryForm(AskLivingAreas) && HasOrdinaryForm(AskLivingAreas + 1) && AskLivingAreas + 1 == AskApartmentFloor
    ensures Place(AskLivingAreas) == [Property, LivingAreas]
    ensures Apart([Property, LivingAreas], [Property, ExactFloor]) && Apart([Property, LivingAreas], [Property, PropertyType])
  {
    hide At;
  }

  /** The floor is asked for exactly when the property is an apartment. */
  lemma FloorIsAskedForExactlyWhen(draft: Fields, raw: Option<string>)
    requires Next(draft) == AskLivingAreas && Respond(draft, raw).Accepted?
    requires ValueAt(draft, [Property, ExactFloor]).None?
    ensures Next(Answered(draft, raw)) == AskApartmentFloor <==>
              ValueAt(draft, [Property, PropertyType]) == Some(Str("APARTMENT"))
  {
    FloorIsOpen(draft);
    assert !IsPrefix(Place(AskLivingAreas), [Property, ExactFloor]);
    assert !IsPrefix([Property, ExactFloor], Place(AskLivingAreas));
    assert !IsPrefix(Place(AskLivingAreas), [Property, PropertyType]);
    assert !IsPrefix([Property, PropertyType], Place(AskLivingAreas));
    hide *;
    OthersStay(draft, raw, [Property, ExactFloor]);
    OthersStay(draft, raw, [Property, PropertyType]);
    FloorIsOpen(Answered(draft, raw));
    TheNextIsAskedExactlyWhen(draft, raw);
  }

  lemma EventIsOpen(draft: Fields)
    requires ValueAt(draft, [Request, PostEvent, EventType]).None?
    ensures Applies(draft, AskEventType) && !IsSettled(draft, AskEventType) <==>
              ValueAt(draft, CANONICAL) == Some(Str("Post-Event Cleaning"))
    ensures HasOrdinaryForm(AskHomeCondition) && HasOrdinaryForm(AskHomeCondition + 1) && AskHomeCondition + 1 == AskEventType
    ensures Place(AskHomeCondition) == [Request, HomeCondition]
    ensures Apart([Request, HomeCondition], [Request, PostEvent, EventType]) && Apart([Request, HomeCondition], CANONICAL)
  {
    hide At;
  }

  /** The event is asked about exactly when post-event cleaning was chosen. */
  lemma EventIsAskedAboutExactlyWhen(draft: Fields, raw: Option<string>)
    requires Next(draft) == AskHomeCondition && Respond(draft, raw).Accepted?
    requires ValueAt(draft, [Request, PostEvent, EventType]).None?
    ensures Next(Answered(draft, raw)) == AskEventType <==> ValueAt(draft, CANONICAL) == Some(Str("Post-Event Cleaning"))
  {
    EventIsOpen(draft);
    assert !IsPrefix(Place(AskHomeCondition), [Request, PostEvent, EventType]);
    assert !IsPrefix([Request, PostEvent, EventType], Place(AskHomeCondition));
    assert !IsPrefix(Place(AskHomeCondition), CANONICAL) && !IsPrefix(CANONICAL, Place(AskHomeCondition));
    hide *;
    OthersStay(draft, raw, [Request, PostEvent, EventType]);
    OthersStay(draft, raw, CANONICAL);
    EventIsOpen(Answered(draft, raw));
    TheNextIsAskedExactlyWhen(draft, raw);
  }
}
