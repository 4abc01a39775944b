/**
 What every reply to the guided interview records: the value its printed question gives it, at the place of that
 question, and nothing else.
 (apps/api/src/messaging/messaging-quote-guided-home.ts, messaging-quote-guided-cleaning-requirements.ts,
 messaging-quote-guided-post-event.ts, messaging-quote-guided-personalise.ts,
 messaging-quote-guided-visit-household.ts, messaging-quote-guided-final-details.ts)
 */
module InterviewAnswers {
  import opened Prelude
  import opened Json
  import opened InterviewBase
  import opened GuidedHome
  import opened GuidedCleaning
  import opened GuidedPostEvent
  import opened GuidedPersonalise
  import opened GuidedVisitHousehold
  import opened GuidedFinalDetails
  import opened Interview
  import opened InterviewForms
  import AnswerFormats
  import SubmissionInput
  import Text

  // ---- menus ---------------------------------------------------------------------------------

  lemma NumeralsToFifteen()
    ensures Text.Written(1) == "1" && Text.Written(2) == "2" && Text.Written(3) == "3" && Text.Written(4) == "4"
    ensures Text.Written(5) == "5" && Text.Written(6) == "6" && Text.Written(7) == "7" && Text.Written(8) == "8"
    ensures Text.Written(9) == "9" && Text.Written(10) == "10" && Text.Written(11) == "11" && Text.Written(12) == "12"
    ensures Text.Written(13) == "13" && Text.Written(14) == "14" && Text.Written(15) == "15"
  {
  }

  /** A menu reply is the number of an entry, and stands for that entry. */
  lemma ChoiceReadsNumbers(options: seq<Label>, text: string)
    requires |options| <= 14
    ensures forall i: nat | i < |options| && IsNumberOf(text, i) :: Choice(options, text) == Some(Str(options[i]))
    ensures Choice(options, text).Some? ==> exists i: nat :: i < |options| && IsNumberOf(text, i)
  {
    forall i: nat | i < |options| && IsNumberOf(text, i)
      ensures Choice(options, text) == Some(Str(options[i]))
    {
      if i < 5 { LowChoice(options, text, i); }
      else if i < 10 { MiddleChoice(options, text, i); }
      else { HighChoice(options, text, i); }
    }
    if Choice(options, text).Some? {
      var i := ChosenIndex(options, text);
      assert IsNumberOf(text, i);
    }
    hide Choice;
  }

  lemma LowChoice(options: seq<Label>, text: string, i: nat)
    requires i < |options| <= 14 && i < 5 && IsNumberOf(text, i)
    ensures Choice(options, text) == Some(Str(options[i]))
  {
    NumeralsToFifteen();
    hide Text.Written;
    assert i == 0 || i == 1 || i == 2 || i == 3 || i == 4;
  }

  lemma MiddleChoice(options: seq<Label>, text: string, i: nat)
    requires i < |options| <= 14 && 5 <= i < 10 && IsNumberOf(text, i)
    ensures Choice(options, text) == Some(Str(options[i]))
  {
    NumeralsToFifteen();
    hide Text.Written;
    assert i == 5 || i == 6 || i == 7 || i == 8 || i == 9;
  }

  lemma HighChoice(options: seq<Label>, text: string, i: nat)
    requires i < |options| <= 14 && 10 <= i && IsNumberOf(text, i)
    ensures Choice(options, text) == Some(Str(options[i]))
  {
    NumeralsToFifteen();
    hide Text.Written;
    assert i == 10 || i == 11 || i == 12 || i == 13;
  }

  lemma ChosenIndex(options: seq<Label>, text: string) returns (i: nat)
    requires |options| <= 14 && Choice(options, text).Some?
    ensures i < |options| && text == Text.Written(i + 1)
  {
    NumeralsToFifteen();
    hide Text.Written;
    i := if text == "1" then 0 else if text == "2" then 1 else if text == "3" then 2 else if text == "4" then 3
         else if text == "5" then 4 else if text == "6" then 5 else if text == "7" then 6 else if text == "8" then 7
         else if text == "9" then 8 else if text == "10" then 9 else if text == "11" then 10
         else if text == "12" then 11 else if text == "13" then 12 else 13;
  }

  /** The stored values of a menu are those its lines stand for. */
  predicate Lists(lines: seq<Line>, options: seq<Label>) {
    |lines| == |options| <= 14 && forall i | 0 <= i < |lines| :: lines[i].stored == options[i]
  }

  predicate AllShown(lines: seq<Line>) {
    forall i | 0 <= i < |lines| :: lines[i].shown
  }

  lemma MenuMeans(lines: seq<Line>, options: seq<Label>, text: string)
    requires Lists(lines, options) && AllShown(lines)
    ensures Means(Menu(lines), text, Choice(options, text))
  {
    MenuMeansShown(lines, options, text, Choice(options, text));
    ChoiceReadsNumbers(options, text);
    hide Choice;
  }

  /** With hidden lines: choosing one of those is refused. */
  lemma MenuMeansShown(lines: seq<Line>, options: seq<Label>, text: string, v: Option<Json>)
    requires Lists(lines, options)
    requires Choice(options, text).None? ==> v.None?
    requires forall i: nat | i < |lines| && IsNumberOf(text, i) && Choice(options, text) == Some(Str(options[i])) ::
               v == if lines[i].shown then Choice(options, text) else None
    ensures Means(Menu(lines), text, v)
  {
    ChoiceReadsNumbers(options, text);
    hide Choice;
    if v.Some? {
      var i: nat :| i < |options| && IsNumberOf(text, i);
      assert v == if lines[i].shown then Choice(options, text) else None;
      assert Chooses(lines, text, i);
    }
  }

  /** A reply has at most one meaning under a format. */
  lemma MeansOneThing(format: Format, text: string, v: Option<Json>, w: Option<Json>)
    requires Means(format, text, v) && Means(format, text, w)
    ensures v == w
  {
    if format.Menu? && (v.Some? || w.Some?) {
      var i: nat :| Chooses(format.lines, text, i);
      if v.Some? && w.Some? {
        var k: nat :| Chooses(format.lines, text, k) && v == Some(Str(format.lines[k].stored));
        var l: nat :| Chooses(format.lines, text, l) && w == Some(Str(format.lines[l].stored));
        Text.WrittenReadsBack(k + 1);
        Text.WrittenReadsBack(l + 1);
      }
    }
    if format.AreaNumbers? && text != "0" && v.Some? && w.Some? {
      AreasOnce(text, v.value);
      AreasOnce(text, w.value);
    }
  }

  lemma AreasOnce(text: string, v: Json)
    requires NamesAreas(text, v)
    ensures text != "0" && ParseOutdoorAreas(text) == Some(v)
  {
    var picks :| AnswerFormats.ArePicks(picks) && text == AnswerFormats.WrittenPicks(picks) &&
                 v == AnswerFormats.PickedAreas(picks);
    AnswerFormats.PicksAreRead(picks);
    hide ParseOutdoorAreas, AnswerFormats.WrittenPicks;
  }

  lemma AreasMean(text: string)
    ensures Means(AreaNumbers, text, ParseOutdoorAreas(text))
  {
    if text != "0" {
      forall w | NamesAreas(text, w)
        ensures ParseOutdoorAreas(text) == Some(w)
      {
        AreasOnce(text, w);
      }
      if ParseOutdoorAreas(text).Some? {
        var picks := AnswerFormats.OnlyPicksAreRead(text);
        AnswerFormats.PicksAreRead(picks);
        assert NamesAreas(text, ParseOutdoorAreas(text).value) by { hide ParseOutdoorAreas; }
      }
    }
    hide NamesAreas;
  }

  // ---- home ----------------------------------------------------------------------------------

  lemma BedroomsMean(draft: Fields, text: string)
    ensures Means(HomeForm(draft, AskBedrooms), text, HomeValue(Section(draft, Property), AskBedrooms, text))
  {
    var lines := HomeForm(draft, AskBedrooms).lines;
    var apartment := IsTextEqual(Get(Section(draft, Property), PropertyType), "APARTMENT");
    assert lines[0].shown <==> apartment;
    hide Choice, TextAt;
    assert Lists(lines, BEDROOMS);
    forall i | 0 < i < |lines|
      ensures lines[i].shown && BEDROOMS[i] != "STUDIO"
    {
    }
    MenuMeansShown(lines, BEDROOMS, text, HomeValue(Section(draft, Property), AskBedrooms, text));
  }

  lemma HomeMeans(draft: Fields, q: Question, text: string)
    requires q < CLEANING_START
    ensures Means(HomeForm(draft, q), text, HomeValue(Section(draft, Property), q, text))
  {
    if q == AskBedrooms { BedroomsMean(draft, text); }
    else if q == AskAddressLine1 || q == AskSuburb || q == AskCountryConfirmation || q == AskApartmentFloor {
      HomeTextMeans(draft, q, text);
    }
    else if q <= AskLivingAreas { HomeSizeMeans(draft, q, text); }
    else { HomeMenuMeans(draft, q, text); }
    hide *;
  }

  lemma HomeSizeMeans(draft: Fields, q: Question, text: string)
    requires q == AskPropertyType || q == AskFloorSize || q == AskBathrooms || q == AskLivingAreas
    ensures Means(HomeForm(draft, q), text, HomeValue(Section(draft, Property), q, text))
  {
    hide Choice, Means, Section, TextAt;
    if q == AskPropertyType { MenuMeans(HomeForm(draft, q).lines, PROPERTY_TYPES, text); }
    else if q == AskFloorSize { MenuMeans(HomeForm(draft, q).lines, FLOOR_SIZES, text); }
    else if q == AskBathrooms { MenuMeans(HomeForm(draft, q).lines, BATHROOMS, text); }
    else { MenuMeans(HomeForm(draft, q).lines, LIVING_AREAS, text); }
  }

  lemma HomeMenuMeans(draft: Fields, q: Question, text: string)
    requires q == AskApartmentAccess || q == AskOutdoorArea || q == AskEstateClassification
    ensures Means(HomeForm(draft, q), text, HomeValue(Section(draft, Property), q, text))
  {
    hide Choice, Means, Section, TextAt;
    if q == AskApartmentAccess { MenuMeans(HomeForm(draft, q).lines, APARTMENT_ACCESS, text); }
    else if q == AskOutdoorArea { MenuMeans(HomeForm(draft, q).lines, GuidedHome.OUTDOOR_AREAS, text); }
    else { MenuMeans(HomeForm(draft, q).lines, ESTATE_CLASSIFICATIONS, text); }
  }

  lemma HomeTextMeans(draft: Fields, q: Question, text: string)
    requires q == AskAddressLine1 || q == AskSuburb || q == AskCountryConfirmation || q == AskApartmentFloor
    ensures Means(HomeForm(draft, q), text, HomeValue(Section(draft, Property), q, text))
  {
    hide Choice, Section, TextAt, Text.Decimal;
  }

  lemma HomeRecords(draft: Fields, raw: Option<string>) returns (v: Option<Json>)
    requires Next(draft) < CLEANING_START
    ensures Means(HomeForm(draft, Next(draft)), Given(raw), v)
    ensures Respond(draft, raw).Accepted? <==> v.Some?
    ensures v.Some? ==> MergeDraft(draft, Respond(draft, raw).patch) == PutAt(draft, HomePlace(Next(draft)), v.value)
  {
    var q := Next(draft);
    assert q == NextHome(Section(draft, Property)) && Respond(draft, raw) == ApplyHome(draft, raw) by {
      hide NextHome, ApplyHome, NextCleaning, NextPostEvent, Section;
    }
    v := HomeValue(Section(draft, Property), q, Given(raw));
    HomeMeans(draft, q, Given(raw));
    hide Next, Respond, NextHome, HomeForm, HomeValue, Given, MergeDraft;
    if v.Some? {
      HomeLeaf(Section(draft, Property), q, Given(raw));
      ChainPuts(draft, HomePlace(q), v.value);
      ChainOfTwo(Property, HomeField(q), v.value);
      assert HomePlace(q) == [Property, HomeField(q)];
    }
    hide HomePlace, PutAt, HomeField;
  }

  lemma HomeLeaf(p: Fields, q: Question, text: string)
    requires Text.Trimmed(text) && HomeValue(p, q, text).Some?
    ensures !HomeValue(p, q, text).value.Obj?
  {
    HomeValueAnswers(p, q, text);
    hide HomeValue, HomeMissing;
  }

  lemma ChainOfTwo(group: FieldName, field: FieldName, v: Json)
    ensures Chain([group, field], v).fields == map[group := Obj(map[field := v])]
    ensures forall draft: Fields :: MergeDraft(draft, Chain([group, field], v).fields)
                                 == MergeFields(draft, Chain([group, field], v).fields)
  {
    assert [group, field][1..] == [field] && [field][1..] == [];
    assert Chain([field], v) == Obj(map[field := Chain([], v)]);
  }

  // ---- cleaning ------------------------------------------------------------------------------

  lemma FrequenciesOffered(service: Option<string>, i: nat)
    requires i < |FREQUENCIES|
    ensures AllowsFrequency(service, FREQUENCIES[i]) <==> FREQUENCIES[i] in OfferedWith(service)
  {
    assert i == 0 || i == 1 || i == 2 || i == 3 || i == 4;
  }

  lemma CanonicalAt(draft: Fields)
    ensures TextAt(draft, CANONICAL) == Canonical(Section(draft, Request))
  {
    assert CANONICAL[1..] == [PrimaryService, CanonicalService] && CANONICAL[1..][1..] == [CanonicalService];
    assert [CanonicalService][1..] == [];
    var primary := Get(Section(draft, Request), PrimaryService);
    assert At(Some(Obj(draft)), CANONICAL) == At(Get(draft, Request), [PrimaryService, CanonicalService]);
    assert At(Get(draft, Request), [PrimaryService, CanonicalService]) == At(primary, [CanonicalService]);
    assert At(primary, [CanonicalService]) == At(Get(Base(primary), CanonicalService), []);
  }

  lemma FrequencyMeans(draft: Fields, text: string)
    ensures Means(RequestForm(draft, AskFrequency), text, CleaningValue(Section(draft, Request), AskFrequency, text))
  {
    var request := Section(draft, Request);
    var lines := RequestForm(draft, AskFrequency).lines;
    CanonicalAt(draft);
    hide Choice, TextAt, AllowsFrequency, OfferedWith, Canonical;
    assert Lists(lines, FREQUENCIES);
    forall i: nat | i < |lines|
      ensures lines[i].shown <==> AllowsFrequency(Canonical(request), FREQUENCIES[i])
    {
      FrequenciesOffered(Canonical(request), i);
    }
    MenuMeansShown(lines, FREQUENCIES, text, CleaningValue(request, AskFrequency, text));
  }

  lemma CleaningMeans(draft: Fields, q: Question, text: string)
    requires CLEANING_START < q < POST_EVENT_START
    ensures Means(RequestForm(draft, q), text, CleaningValue(Section(draft, Request), q, text))
  {
    hide Choice, Section, TextAt, AllowsFrequency, OfferedWith, Canonical;
    if q == AskFrequency { FrequencyMeans(draft, text); }
    else if q == AskHomeCondition { MenuMeans(RequestForm(draft, q).lines, HOME_CONDITIONS, text); }
  }

  lemma CleaningRecords(draft: Fields, raw: Option<string>) returns (v: Option<Json>)
    requires CLEANING_START < Next(draft) < POST_EVENT_START
    ensures Means(RequestForm(draft, Next(draft)), Given(raw), v)
    ensures Respond(draft, raw).Accepted? <==> v.Some?
    ensures v.Some? ==> MergeDraft(draft, Respond(draft, raw).patch) == PutAt(draft, RequestPlace(Next(draft)), v.value)
  {
    var q, request := Next(draft), Section(draft, Request);
    CleaningTurn(draft, raw);
    v := CleaningValue(request, q, Given(raw));
    CleaningMeans(draft, q, Given(raw));
    hide Next, Respond, NextHome, NextOwnCleaning, NextCleaning, RequestForm, CleaningValue, Given, MergeDraft, Section, Means;
    if v.Some? {
      CleaningLeaf(request, q, Given(raw));
      ChainPuts(draft, RequestPlace(q), v.value);
      ChainOfTwo(Request, CleaningField(q), v.value);
      assert RequestPlace(q) == [Request, CleaningField(q)];
    }
    hide RequestPlace, PutAt, CleaningField;
  }

  lemma CleaningLeaf(request: Fields, q: Question, text: string)
    requires CLEANING_START < q < POST_EVENT_START && Text.Trimmed(text) && CleaningValue(request, q, text).Some?
    ensures !CleaningValue(request, q, text).value.Obj?
  {
    CleaningValueAnswers(request, q, text);
    hide CleaningValue;
  }

  // ---- post-event ----------------------------------------------------------------------------

  lemma EventMeans(q: Question, text: string)
    requires POST_EVENT_START <= q < PERSONALISE_START
    ensures Means(EventForm(q), text, FactValue(q, text))
  {
    hide Choice, Means, ParseOutdoorAreas;
    if q == AskEventType { MenuMeans(EventForm(q).lines, EVENT_TYPES, text); }
    else if q == AskVenueType { MenuMeans(EventForm(q).lines, VENUE_TYPES, text); }
    else if q == AskGuestBand { MenuMeans(EventForm(q).lines, GUEST_BANDS, text); }
    else if q == AskDishwashing { MenuMeans(EventForm(q).lines, DISHWASHING, text); }
    else if q == AskWasteLevel { MenuMeans(EventForm(q).lines, WASTE_LEVELS, text); }
    else if q == AskOutdoorAreas { AreasMean(text); }
    else { EventFlagMeans(q, text); }
  }

  lemma EventFlagMeans(q: Question, text: string)
    requires q == AskExactBathrooms || q == AskKitchenUsed || AskSignificantSoiling <= q < PERSONALISE_START
    ensures Means(EventForm(q), text, FactValue(q, text))
  {
    hide Choice, Text.Decimal;
  }

  lemma EventRecords(draft: Fields, raw: Option<string>) returns (v: Option<Json>)
    requires POST_EVENT_START <= Next(draft) < PERSONALISE_START
    ensures Means(EventForm(Next(draft)), Given(raw), v)
    ensures Respond(draft, raw).Accepted? <==> v.Some?
    ensures v.Some? ==> MergeDraft(draft, Respond(draft, raw).patch) == PutAt(draft, EventPlace(Next(draft)), v.value)
  {
    var q := Next(draft);
    PostEventTurn(draft, raw);
    v := FactValue(q, Given(raw));
    EventMeans(q, Given(raw));
    hide Next, Respond, NextHome, NextOwnCleaning, NextFact, EventForm, FactValue, Given, MergeDraft, Section, Means;
    hide Facts, IsPostEvent;
    if v.Some? {
      FactLeaf(q, Given(raw));
      ChainPuts(draft, EventPlace(q), v.value);
      ChainOfThree(Request, PostEvent, FactField(q), v.value);
      assert EventPlace(q) == [Request, PostEvent, FactField(q)];
    }
    hide EventPlace, PutAt, FactField;
  }

  lemma FactLeaf(q: Question, text: string)
    requires FactValue(q, text).Some?
    ensures !FactValue(q, text).value.Obj?
  {
    FactValueAnswers(q, text);
    hide FactValue;
  }

  lemma ChainOfThree(group: FieldName, record: FieldName, field: FieldName, v: Json)
    ensures Chain([group, record, field], v).fields == map[group := Obj(map[record := Obj(map[field := v])])]
  {
    assert [group, record, field][1..] == [record, field];
    ChainOfTwo(record, field, v);
  }

  // ---- products and laundry ------------------------------------------------------------------

  /** The value of the personalise questions that have an ordinary form. */
  function ProductValue(q: Question, text: string): Option<Json> {
    if q == AskEcoFriendlyProducts then OneTwo(text)
    else if q == AskLaundryFacilities then Choice(LAUNDRY_FACILITIES, text)
    else Loads(text)
  }

  lemma ProductMeans(draft: Fields, q: Question, text: string)
    requires AskEcoFriendlyProducts <= q <= AskIroningLoads
    ensures Means(RequestForm(draft, q), text, ProductValue(q, text))
  {
    hide Choice, Text.Decimal;
    if q == AskLaundryFacilities { MenuMeans(RequestForm(draft, q).lines, LAUNDRY_FACILITIES, text); }
  }

  lemma ProductPatch(request: Fields, q: Question, text: string)
    requires AskEcoFriendlyProducts <= q <= AskIroningLoads
    ensures var v, patch := ProductValue(q, text), PersonalisePatch(request, q, text);
            (v.Some? <==> patch.Some?) &&
            (v.Some? ==> !v.value.Obj? &&
                         MergeFields(request, patch.value) == PutAt(request, RequestPlace(q)[1..], v.value))
  {
    var v := ProductValue(q, text);
    if v.Some? {
      if q == AskEcoFriendlyProducts {
        MergeLeaf(request, EcoFriendlyProducts, v.value);
        assert RequestPlace(q)[1..] == [EcoFriendlyProducts];
      } else {
        var field := if q == AskLaundryFacilities then Facilities
                     else if q == AskLaundryLoads then LaundryLoads else IroningLoads;
        LaundryMerge(request, field, v.value);
        assert RequestPlace(q)[1..] == [Laundry, field] && [Laundry, field][1..] == [field];
        assert PutAt(LaundryOf(request), [field], v.value) == LaundryOf(request)[field := v.value];
      }
    }
    hide MergeFields, Choice, PositiveInteger;
  }

  lemma PersonaliseTurn(draft: Fields, raw: Option<string>)
    requires PERSONALISE_START <= Next(draft) < VISIT_START
    ensures Respond(draft, raw) == match PersonalisePatch(Section(draft, Request), Next(draft), Given(raw))
                                   case None => Invalid(Next(draft))
                                   case Some(patch) => Accepted(map[Request := Obj(patch)])
  {
    NextInOrder(draft);
    RespondInOrder(draft, raw);
    hide Next, Respond, NextPersonalise, NextHome, PersonalisePatch, Given, NextPostEvent;
    hide NextOwnCleaning, NextFact, NextOwnPersonalise, NextOwnVisit, NextFinalDetails, ApplyVisitHousehold, Section;
  }

  lemma GroupPut(draft: Fields, group: FieldName, patch: Fields, path: Path, v: Json)
    requires |path| >= 2 && path[0] == group
    requires MergeFields(Section(draft, group), patch) == PutAt(Section(draft, group), path[1..], v)
    ensures MergeDraft(draft, map[group := Obj(patch)]) == PutAt(draft, path, v)
  {
    MergeNested(draft, group, patch);
  }

  lemma ProductRecords(draft: Fields, raw: Option<string>) returns (v: Option<Json>)
    requires AskEcoFriendlyProducts <= Next(draft) <= AskIroningLoads
    ensures Means(RequestForm(draft, Next(draft)), Given(raw), v)
    ensures Respond(draft, raw).Accepted? <==> v.Some?
    ensures v.Some? ==> MergeDraft(draft, Respond(draft, raw).patch) == PutAt(draft, RequestPlace(Next(draft)), v.value)
  {
    assert |RequestPlace(Next(draft))| >= 2 && RequestPlace(Next(draft))[0] == Request by { hide Next; }
    hide *;
    var q, request := Next(draft), Section(draft, Request);
    PersonaliseTurn(draft, raw);
    v := ProductValue(q, Given(raw));
    ProductMeans(draft, q, Given(raw));
    ProductPatch(request, q, Given(raw));
    if v.Some? {
      GroupPut(draft, Request, PersonalisePatch(request, q, Given(raw)).value, RequestPlace(q), v.value);
    }
  }

  // ---- visit, access and household -----------------------------------------------------------

  lemma VisitMeans(q: Question, text: string)
    requires VISIT_START <= q < FINAL_START
    ensures Means(VisitForm(q), text, VisitValue(q, text))
  {
    hide Choice, IsCalendarDate;
    if q == AskPreferredTime { MenuMeans(VisitForm(q).lines, PREFERRED_TIMES, text); }
    else if q == AskComplexAccess { MenuMeans(VisitForm(q).lines, COMPLEX_ACCESS, text); }
    else if q == AskKeyHandover { MenuMeans(VisitForm(q).lines, KEY_HANDOVERS, text); }
    else if q == AskPreferredDate || q == AskAlternativeDate { DatesAreTexts(text); }
  }

  lemma DatesAreTexts(text: string)
    ensures IsCalendarDate(text) ==> text != ""
  {
    hide DaysIn;
  }

  lemma VisitTurn(draft: Fields, raw: Option<string>)
    requires VISIT_START <= Next(draft) < FINAL_START
    ensures Respond(draft, raw) == match VisitValue(Next(draft), Given(raw))
                                   case None => Invalid(Next(draft))
                                   case Some(v) => Accepted(VisitPatch(Next(draft), v))
  {
    EarlierModulesAgree(draft, draft);
    RespondInOrder(draft, raw);
    hide Next, Respond, NextVisitHousehold, NextOwnVisit, VisitValue, VisitPatch, Given;
    hide NextFinalDetails, ApplyFinalDetails;
  }

  lemma VisitRecords(draft: Fields, raw: Option<string>) returns (v: Option<Json>)
    requires VISIT_START <= Next(draft) < FINAL_START
    ensures Means(VisitForm(Next(draft)), Given(raw), v)
    ensures Respond(draft, raw).Accepted? <==> v.Some?
    ensures v.Some? ==> MergeDraft(draft, Respond(draft, raw).patch) == PutAt(draft, VisitPlace(Next(draft)), v.value)
  {
    var q := Next(draft);
    VisitTurn(draft, raw);
    v := VisitValue(q, Given(raw));
    VisitMeans(q, Given(raw));
    hide Next, Respond, VisitForm, VisitValue, VisitPatch, Given, MergeDraft, Means, VisitPlace, PutAt;
    if v.Some? {
      VisitLeaf(q, Given(raw));
      VisitPut(draft, q, v.value);
    }
  }

  lemma VisitPut(draft: Fields, q: Question, v: Json)
    requires VISIT_START <= q < FINAL_START && !v.Obj?
    ensures MergeDraft(draft, VisitPatch(q, v)) == PutAt(draft, VisitPlace(q), v)
  {
    hide MergeFields, PutAt, Chain;
    ChainPuts(draft, VisitPlace(q), v);
    ChainOfTwo(VisitGroup(q), VisitField(q), v);
    assert VisitPlace(q) == [VisitGroup(q), VisitField(q)];
  }

  lemma VisitLeaf(q: Question, text: string)
    requires Text.Trimmed(text) && VisitValue(q, text).Some?
    ensures !VisitValue(q, text).value.Obj?
  {
    VisitValueAnswers(q, text);
    hide VisitValue;
  }

  // ---- final details -------------------------------------------------------------------------

  lemma FinalMeans(draft: Fields, q: Question, text: string)
    requires FINAL_START <= q < NOTHING_LEFT
    ensures Means(FinalForm(draft, q), text, FinalValue(draft, q, text))
  {
    hide Choice, IsEmail, IsMobile, SubmissionInput.MediaAssetIds;
    if q == AskPreferredContact { MenuMeans(FinalForm(draft, q).lines, PREFERRED_CONTACTS, text); }
    else if q == AskEmail || q == AskMobile { AddressesAreTexts(text); }
  }

  lemma AddressesAreTexts(text: string)
    ensures IsEmail(text) || IsMobile(text) ==> text != ""
  {
  }

  lemma FinalTurn(draft: Fields, raw: Option<string>)
    requires FINAL_START <= Next(draft) < NOTHING_LEFT
    ensures Respond(draft, raw) == match FinalValue(draft, Next(draft), Given(raw))
                                   case None => Invalid(Next(draft))
                                   case Some(v) => Accepted(FinalPatch(Next(draft), v))
  {
    EarlierModulesAgree(draft, draft);
    RespondInOrder(draft, raw);
    hide Next, Respond, NextOwnVisit, NextFinalDetails, FinalValue, FinalPatch, Given;
  }

  lemma FinalRecords(draft: Fields, raw: Option<string>) returns (v: Option<Json>)
    requires FINAL_START <= Next(draft) < NOTHING_LEFT
    ensures Means(FinalForm(draft, Next(draft)), Given(raw), v)
    ensures Respond(draft, raw).Accepted? <==> v.Some?
    ensures v.Some? ==> MergeDraft(draft, Respond(draft, raw).patch) == PutAt(draft, FinalPlace(Next(draft)), v.value)
  {
    hide *;
    var q := Next(draft);
    FinalTurn(draft, raw);
    v := FinalValue(draft, q, Given(raw));
    FinalMeans(draft, q, Given(raw));
    if v.Some? {
      FinalLeaf(draft, q, Given(raw));
      FinalPut(draft, q, v.value);
    }
  }

  lemma FinalPut(draft: Fields, q: Question, v: Json)
    requires FINAL_START <= q < NOTHING_LEFT && !v.Obj?
    ensures MergeDraft(draft, FinalPatch(q, v)) == PutAt(draft, FinalPlace(q), v)
  {
    hide MergeFields, PutAt;
    ChainPuts(draft, FinalPlace(q), v);
    if q == AskPhotos {
      assert Chain([Photos], v) == Obj(map[Photos := Chain([Photos][1..], v)]);
      assert [Photos][1..] == [];
    } else {
      ChainOfTwo(FinalGroup(q), FinalField(q), v);
      assert FinalPlace(q) == [FinalGroup(q), FinalField(q)];
    }
    hide Chain;
  }

  lemma FinalLeaf(draft: Fields, q: Question, text: string)
    requires FINAL_START <= q < NOTHING_LEFT && Text.Trimmed(text) && FinalValue(draft, q, text).Some?
    ensures !FinalValue(draft, q, text).value.Obj?
  {
    FinalValueAnswers(draft, q, text);
    hide FinalValue;
  }

  // ---- all of them ---------------------------------------------------------------------------

  /**
   A reply is accepted exactly when it means something under the printed question, and then the draft is the old one
   with that meaning written at the place of the question.
   */
  lemma AnswersAreRecorded(draft: Fields, raw: Option<string>) returns (v: Option<Json>)
    requires HasOrdinaryForm(Next(draft))
    ensures Means(Printed(draft, Next(draft)), Given(raw), v)
    ensures Respond(draft, raw).Accepted? <==> v.Some?
    ensures v.Some? ==> MergeDraft(draft, Respond(draft, raw).patch) == PutAt(draft, Place(Next(draft)), v.value)
  {
    var q := Next(draft);
    if q < CLEANING_START { v := HomeRecords(draft, raw); }
    else if q < POST_EVENT_START { v := CleaningRecords(draft, raw); }
    else if q < PERSONALISE_START { v := EventRecords(draft, raw); }
    else if q < VISIT_START { v := ProductRecords(draft, raw); }
    else if q < FINAL_START { v := VisitRecords(draft, raw); }
    else { v := FinalRecords(draft, raw); }
    hide Next, Respond, MergeDraft, PutAt, Means, Given;
    hide HomeForm, RequestForm, EventForm, VisitForm, FinalForm, HomePlace, RequestPlace, EventPlace, VisitPlace, FinalPlace;
  }
}
