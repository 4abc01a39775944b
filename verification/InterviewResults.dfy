/**
 The interview over whole conversations: it ends, it can always be completed,
 and a correction reopens exactly the chosen section.
 (apps/api/src/messaging/messaging-quote-live-orchestrator.service.ts)
 */
module InterviewResults {
  import opened Prelude
  import opened Json
  import opened InterviewBase
  import opened GuidedHome
  import opened GuidedCleaning
  import opened GuidedPostEvent
  import opened GuidedPersonalise
  import opened GuidedVisitHousehold
  import opened GuidedFinalDetails
  import opened Interview
  import SubmissionInput
  import Text

  /** What an inbound message can be to the interview; a prompt still unsent or another kind changes nothing. */
  datatype Inbound = Reply(text: Option<string>) | Photo(assetIds: seq<string>) | Ignored

  /** Photos received at the photo question join the ones already selected. */
  function Selected(draft: Fields, assetIds: seq<string>): seq<string> {
    SubmissionInput.Distinct(SubmissionInput.MediaAssetIds(draft) + assetIds)
  }

  function Texts(ids: seq<string>): seq<Json> {
    seq(|ids|, i requires 0 <= i < |ids| => Str(ids[i]))
  }

  function Receive(draft: Fields, message: Inbound): Fields {
    match message
    case Reply(text) =>
      var answer := Respond(draft, text);
      if answer.Accepted? then MergeDraft(draft, answer.patch) else draft
    case Photo(ids) =>
      if Next(draft) == AskPhotos && ids != []
      then MergeDraft(draft, map[MessagingMediaAssetIds := Arr(Texts(Selected(draft, ids)))])
      else draft
    case Ignored => draft
  }

  predicate IsAccepted(draft: Fields, message: Inbound) {
    message.Reply? && Respond(draft, message.text).Accepted?
  }

  function After(draft: Fields, messages: seq<Inbound>): Fields
    decreases |messages|
  {
    if messages == [] then draft else After(Receive(draft, messages[0]), messages[1..])
  }

  function AcceptedCount(draft: Fields, messages: seq<Inbound>): nat
    decreases |messages|
  {
    if messages == [] then 0
    else (if IsAccepted(draft, messages[0]) then 1 else 0) + AcceptedCount(Receive(draft, messages[0]), messages[1..])
  }

  // ---- photos --------------------------------------------------------------------------------

  /** Drafts with the same nine fact groups stand at the same question. */
  lemma FactGroupsDecide(draft: Fields, draft': Fields)
    requires forall g | g != MessagingMediaAssetIds :: Get(draft', g) == Get(draft, g)
    requires VISIT_START <= Next(draft)
    ensures Next(draft') == Next(draft)
  {
    hide Next, Get, NextOwnVisit, NextFinalDetails;
    EarlierModulesAgree(draft, draft);
    EarlierModulesAgree(draft, draft');
    VisitAgrees(draft, draft');
    FinalAgrees(draft, draft');
  }

  /** Receiving photos asks the same question again and touches no fact. */
  lemma PhotosKeepTheQuestion(draft: Fields, ids: seq<string>)
    ensures Next(Receive(draft, Photo(ids))) == Next(draft)
    ensures forall g :: g != MessagingMediaAssetIds ==> Get(Receive(draft, Photo(ids)), g) == Get(draft, g)
  {
    hide Next, MergeDraft, Selected, Texts;
    if Next(draft) == AskPhotos && ids != [] {
      var selected := Arr(Texts(Selected(draft, ids)));
      MergeTopLeaf(draft, MessagingMediaAssetIds, selected);
      FieldUpdate(draft, MessagingMediaAssetIds, selected);
      FactGroupsDecide(draft, Receive(draft, Photo(ids)));
    }
  }

  lemma FinalAgrees(draft: Fields, draft': Fields)
    requires Get(draft', Safety) == Get(draft, Safety) && Get(draft', Notes) == Get(draft, Notes)
    requires Get(draft', FieldName.Customer) == Get(draft, FieldName.Customer)
    requires Get(draft', Photos) == Get(draft, Photos)
    ensures NextFinalDetails(draft') == NextFinalDetails(draft)
  {
    forall q
      ensures FinalOpen(draft', q) == FinalOpen(draft, q)
    {
      hide FinalField, FinalMissing;
      assert Get(draft', FinalGroup(q)) == Get(draft, FinalGroup(q));
    }
    hide FinalOpen, NextFinalDetails;
  }

  lemma {:induction false} TrimmedStringsOfTexts(ids: seq<string>, id: string)
    requires id in ids && Text.Trimmed(id) && id != ""
    ensures id in SubmissionInput.TrimmedStrings(Texts(ids))
    decreases |ids|
  {
    assert Texts(ids)[1..] == Texts(ids[1..]);
    if ids[0] != id {
      TrimmedStringsOfTexts(ids[1..], id);
    }
  }

  lemma {:induction false} MediaIdsAreTrimmed(items: seq<Json>, id: string)
    requires id in SubmissionInput.TrimmedStrings(items)
    ensures Text.Trimmed(id) && id != ""
    decreases |items|
  {
    if items != [] && id in SubmissionInput.TrimmedStrings(items[1..]) {
      MediaIdsAreTrimmed(items[1..], id);
    }
  }

  /** No photo is lost: the earlier selection and the new images are selected afterwards. */
  lemma PhotosAccumulate(draft: Fields, ids: seq<string>, id: string)
    requires Next(draft) == AskPhotos && ids != []
    requires id in SubmissionInput.MediaAssetIds(draft) || (id in ids && Text.Trimmed(id) && id != "")
    ensures id in SubmissionInput.MediaAssetIds(Receive(draft, Photo(ids)))
  {
    hide Next;
    var selected := Selected(draft, ids);
    if id in SubmissionInput.MediaAssetIds(draft) {
      MediaIdsAreTrimmed(draft[MessagingMediaAssetIds].items, id);
    }
    TrimmedStringsOfTexts(selected, id);
    MergeTopLeaf(draft, MessagingMediaAssetIds, Arr(Texts(selected)));
    hide SubmissionInput.TrimmedStrings, SubmissionInput.Distinct, MergeDraft;
  }

  /** What a photo message leaves selected at the photo question: what was, and the visible identifiers sent. */
  lemma PhotosAreTheSent(draft: Fields, ids: seq<string>, id: string)
    requires Next(draft) == AskPhotos && ids != []
    ensures id in SubmissionInput.MediaAssetIds(Receive(draft, Photo(ids))) <==>
              id in SubmissionInput.MediaAssetIds(draft) ||
              exists i :: 0 <= i < |ids| && Text.NonBlank(ids[i]) && Text.Trim(ids[i]) == id
  {
    var items := Texts(Selected(draft, ids));
    MergeTopLeaf(draft, MessagingMediaAssetIds, Arr(items));
    var after := Receive(draft, Photo(ids));
    assert after == draft[MessagingMediaAssetIds := Arr(items)];
    SubmissionInput.MediaAssetIdsAreTheListed(after, id);
    hide Next, MergeDraft, Receive, SubmissionInput.Distinct, Text.Trim;
    if id in SubmissionInput.MediaAssetIds(after) {
      var k :| 0 <= k < |items| && SubmissionInput.Shows(items[k], id);
      var text := Selected(draft, ids)[k];
      assert text in Selected(draft, ids);
      if text in SubmissionInput.MediaAssetIds(draft) {
        MediaIdsAreTrimmed(draft[MessagingMediaAssetIds].items, text);
      } else {
        var i :| 0 <= i < |ids| && ids[i] == text;
      }
    }
    if id in SubmissionInput.MediaAssetIds(draft) {
      MediaIdsAreTrimmed(draft[MessagingMediaAssetIds].items, id);
      SelectedIsShown(draft, ids, id, id);
    } else if exists i :: 0 <= i < |ids| && Text.NonBlank(ids[i]) && Text.Trim(ids[i]) == id {
      var i :| 0 <= i < |ids| && Text.NonBlank(ids[i]) && Text.Trim(ids[i]) == id;
      SelectedIsShown(draft, ids, ids[i], id);
    }
  }

  lemma SelectedIsShown(draft: Fields, ids: seq<string>, text: string, id: string)
    requires text in SubmissionInput.MediaAssetIds(draft) || text in ids
    requires Text.NonBlank(text) && Text.Trim(text) == id
    ensures var items := Texts(Selected(draft, ids));
            exists k :: 0 <= k < |items| && SubmissionInput.Shows(items[k], id)
  {
    assert text in Selected(draft, ids);
    var k :| 0 <= k < |Selected(draft, ids)| && Selected(draft, ids)[k] == text;
    assert SubmissionInput.Shows(Texts(Selected(draft, ids))[k], id);
  }

  /** Anything but photos at the photo question leaves the draft alone. */
  lemma OtherPhotosAreIgnored(draft: Fields, ids: seq<string>)
    requires Next(draft) != AskPhotos || ids == []
    ensures Receive(draft, Photo(ids)) == draft && Receive(draft, Ignored) == draft
  {
  }

  // ---- the interview ends --------------------------------------------------------------------

  lemma ReceiveMovesOn(draft: Fields, message: Inbound)
    ensures Next(Receive(draft, message)) >= Next(draft) + if IsAccepted(draft, message) then 1 else 0
  {
    match message
    case Reply(text) =>
      if Respond(draft, text).Accepted? { AcceptedAnswersMoveOn(draft, text); }
      hide Next, Respond, MergeDraft;
    case Photo(ids) => PhotosKeepTheQuestion(draft, ids); hide Next, MergeDraft, Selected;
    case Ignored => hide Next;
  }

  /** Over any conversation, each accepted answer uses up a question: at most 66 are ever accepted. */
  lemma {:induction false} InterviewEnds(draft: Fields, messages: seq<Inbound>)
    ensures Next(draft) + AcceptedCount(draft, messages) <= Next(After(draft, messages)) <= NOTHING_LEFT
    decreases |messages|
  {
    if messages != [] {
      ReceiveMovesOn(draft, messages[0]);
      hide Next, Receive, IsAccepted;
      InterviewEnds(Receive(draft, messages[0]), messages[1..]);
    }
  }

  // ---- the interview can always be completed -------------------------------------------------

  /** A reply every due question accepts. */
  function Sample(draft: Fields, q: Question): string {
    if q == AskCountryConfirmation then "YES"
    else if q == AskBedrooms then "2"
    else if q == AskKitchenUsed || AskSignificantSoiling <= q <= AskComplexVenue then "YES"
    else if q == AskOutdoorAreas || q == AskAddOns || q == AskAlternativeDate then "0"
    else if q == AskPreferredDate then "2026-01-01"
    else if q == AskPhotos then PhotosAnswer(draft)
    else if q == AskEmail then "a@b.c"
    else if q == AskMobile then "+27123456789"
    else "1"
  }

  lemma SampleIsTrimmed(draft: Fields, q: Question)
    ensures Given(Some(Sample(draft, q))) == Sample(draft, q)
  {
    hide PhotosAnswer;
  }

  lemma HomeSample(draft: Fields, p: Fields, q: Question)
    requires q < CLEANING_START
    ensures HomeValue(p, q, Sample(draft, q)).Some?
  {
    hide IsTextEqual;
    assert Choice(BEDROOMS, "2") == Some(Str("ONE"));
    assert ShortNumber("1") == Some(1);
  }

  lemma CleaningSample(draft: Fields, request: Fields, q: Question)
    requires CLEANING_START <= q < POST_EVENT_START
    ensures CleaningPatch(request, q, Sample(draft, q)).Some?
  {
    hide Canonical;
    assert Choice(FREQUENCIES, "1") == Some(Str("ONE_TIME"));
    assert PrimaryMenu("1").Some?;
  }

  lemma FactSample(draft: Fields, q: Question)
    requires POST_EVENT_START <= q < PERSONALISE_START
    ensures FactValue(q, Sample(draft, q)).Some?
  {
    assert ShortNumber("1") == Some(1);
  }

  lemma PersonaliseSample(draft: Fields, request: Fields, q: Question)
    requires PERSONALISE_START <= q < VISIT_START
    ensures PersonalisePatch(request, q, Sample(draft, q)).Some?
  {
    assert PositiveInteger("1") == Some(1);
    hide WithQuantity, AddOnsOf, LaundryOf, Canonical;
  }

  lemma CalendarSample()
    ensures IsCalendarDate("2026-01-01")
  {
    var text := "2026-01-01";
    assert text[..4] == "2026" && text[5..7] == "01" && text[8..] == "01";
    assert Text.Decimal("01") == 1;
    assert "2026"[..3] == "202" && "202"[..2] == "20" && "20"[..1] == "2";
    assert Text.Decimal("2026") == 2026;
  }

  lemma VisitSample(draft: Fields, q: Question)
    requires VISIT_START <= q < FINAL_START
    ensures VisitValue(q, Sample(draft, q)).Some?
  {
    CalendarSample();
    hide IsCalendarDate;
  }

  lemma FinalSample(draft: Fields, q: Question)
    requires FINAL_START <= q < NOTHING_LEFT
    ensures FinalValue(draft, q, Sample(draft, q)).Some?
  {
    hide PhotosAnswer;
    assert IsEmail("a@b.c") by { assert "a@b.c"[1] == '@' && "a@b.c"[3] == '.'; }
    assert IsMobile("+27123456789");
  }

  /** Whatever is stored, the due question has an acceptable answer. */
  lemma EveryQuestionCanBeAnswered(draft: Fields)
    requires Next(draft) < NOTHING_LEFT
    ensures Respond(draft, Some(Sample(draft, Next(draft)))).Accepted?
  {
    var q := Next(draft);
    var text := Some(Sample(draft, q));
    SampleIsTrimmed(draft, q);
    NextInOrder(draft);
    RespondInOrder(draft, text);
    hide Next, Respond, Sample, HomeValue, CleaningPatch, FactValue, PersonalisePatch, VisitValue, FinalValue, Given;
    hide NextHome, NextOwnCleaning, NextFact, NextOwnPersonalise, NextOwnVisit, NextFinalDetails, Section;
    hide IsPostEvent, HomeField, FactPatch, VisitPatch, FinalPatch, NextCleaning, NextPersonalise, NextVisitHousehold;
    if q < CLEANING_START { HomeSample(draft, Section(draft, Property), q); }
    else if q < POST_EVENT_START { CleaningSample(draft, Section(draft, Request), q); }
    else if q < PERSONALISE_START { FactSample(draft, q); }
    else if q < VISIT_START { PersonaliseSample(draft, Section(draft, Request), q); }
    else if q < FINAL_START { VisitSample(draft, q); }
    else { FinalSample(draft, q); }
  }

  /** From any stored draft, at most one answer per remaining question completes the interview. */
  lemma {:induction false} InterviewCanBeCompleted(draft: Fields) returns (messages: seq<Inbound>)
    ensures |messages| <= NOTHING_LEFT - Next(draft)
    ensures Next(After(draft, messages)) == NOTHING_LEFT
    decreases NOTHING_LEFT - Next(draft)
  {
    if Next(draft) == NOTHING_LEFT {
      messages := [];
    } else {
      var reply := Reply(Some(Sample(draft, Next(draft))));
      EveryQuestionCanBeAnswered(draft);
      ReceiveMovesOn(draft, reply);
      hide Next, Receive, Respond, Sample;
      var rest := InterviewCanBeCompleted(Receive(draft, reply));
      messages := [reply] + rest;
      assert messages[1..] == rest;
    }
  }

  // ---- corrections ---------------------------------------------------------------------------

  /** `correctionPatch`: resets are null leaves, so the merge drops the whole section. */
  function CorrectionPatch(selection: string): Option<Fields> {
    if selection == "1" then Some(map[Property := Null])
    else if selection == "2" then Some(map[Request := Null])
    else if selection == "3" then Some(map[Visit := Null])
    else if selection == "4" then Some(map[Access := Null, Household := Null])
    else if selection == "5" then
      Some(map[Safety := Null, Notes := Null, Photos := Null, MessagingMediaAssetIds := Arr([])])
    else if selection == "6" then Some(map[FieldName.Customer := Null])
    else None
  }

  function FirstOfSection(selection: string): Question {
    if selection == "1" then AskPropertyType
    else if selection == "2" then AskPrimaryService
    else if selection == "3" then AskPreferredDate
    else if selection == "4" then AskComplexAccess
    else if selection == "5" then AskOffLimitsAreas
    else AskFullName
  }

  /** A correction patch holds leaves only: it replaces the draft entries it names. */
  lemma CorrectionMerge(draft: Fields, selection: string)
    requires CorrectionPatch(selection).Some?
    ensures MergeDraft(draft, CorrectionPatch(selection).value) == draft + CorrectionPatch(selection).value
  {
    var patch := CorrectionPatch(selection).value;
    forall k | k in patch
      ensures Merge(Get(draft, k), patch[k]) == patch[k]
    {
    }
    assert MergeDraft(draft, patch) == draft + patch;
  }

  /** Everything before the corrected section stays answered. */
  lemma CorrectionKeepsEarlier(draft: Fields, selection: string, q: Question)
    requires CorrectionPatch(selection).Some? && q < FirstOfSection(selection) && !IsOpen(draft, q)
    ensures !IsOpen(draft + CorrectionPatch(selection).value, q)
  {
    var after := draft + CorrectionPatch(selection).value;
    hide HomeOpen, CleaningOpen, FactOpen, PersonaliseOpen, VisitApplies, VisitMissing, FinalMissing, Facts, IsPostEvent;
    hide VisitField, FinalField;
    var group := GroupOf(q);
    assert Get(after, group) == Get(draft, group);
    assert Section(after, group) == Section(draft, group);
  }

  lemma CorrectionOpens(draft: Fields, selection: string)
    requires CorrectionPatch(selection).Some?
    ensures IsOpen(draft + CorrectionPatch(selection).value, FirstOfSection(selection))
  {
  }

  /** The sections a customer may correct, by the number printed before them. */
  function CorrectedGroups(selection: string): set<FieldName> {
    if selection == "1" then {Property}
    else if selection == "2" then {Request}
    else if selection == "3" then {Visit}
    else if selection == "4" then {Access, Household}
    else if selection == "5" then {Safety, Notes, Photos}
    else if selection == "6" then {FieldName.Customer}
    else {}
  }

  /** A correction forgets exactly the chosen section, with the last one but one also the selected photos. */
  lemma CorrectionsForgetTheirSection(draft: Fields, selection: string, g: FieldName)
    ensures CorrectionPatch(selection).Some? <==> CorrectedGroups(selection) != {}
    ensures CorrectionPatch(selection).Some? ==>
              Get(MergeDraft(draft, CorrectionPatch(selection).value), g)
                == if g in CorrectedGroups(selection) then Some(Null)
                   else if g == MessagingMediaAssetIds && selection == "5" then Some(Arr([]))
                   else Get(draft, g)
  {
    if CorrectionPatch(selection).Some? {
      CorrectionMerge(draft, selection);
    }
    assert Property in {Property} && Request in {Request} && Visit in {Visit} && Access in {Access, Household};
    assert Safety in {Safety, Notes, Photos} && FieldName.Customer in {FieldName.Customer};
    hide MergeDraft;
  }

  /** From a complete interview, a correction makes the first question of its section due. */
  lemma CorrectionReopensItsSection(draft: Fields, selection: string)
    requires Next(draft) == NOTHING_LEFT && CorrectionPatch(selection).Some?
    ensures var corrected := MergeDraft(draft, CorrectionPatch(selection).value);
            Next(corrected) == FirstOfSection(selection) &&
            forall g :: g !in CorrectionPatch(selection).value ==> Get(corrected, g) == Get(draft, g)
  {
    CorrectionMerge(draft, selection);
    NextIsTheFirstOpenQuestion(draft);
    CorrectionOpens(draft, selection);
    var corrected := draft + CorrectionPatch(selection).value;
    hide IsOpen, Next, MergeDraft;
    forall q: nat | q < FirstOfSection(selection)
      ensures !IsOpen(corrected, q)
    {
      CorrectionKeepsEarlier(draft, selection, q);
    }
    NextFrom(corrected, FirstOfSection(selection));
  }

  // ---- add-ons -------------------------------------------------------------------------------

  lemma {:induction false} FindInAppended(items: seq<Json>, item: Json, service: string)
    ensures FindAddOn(items + [item], service)
         == if FindAddOn(items, service).Some? then FindAddOn(items, service)
            else if IsAddOn(item, service) then Some(item) else None
    decreases |items|
  {
    if items != [] {
      assert (items + [item])[1..] == items[1..] + [item];
      FindInAppended(items[1..], item, service);
    }
  }

  /** After the add-on answer, a quantity is asked for exactly the services that need one and were chosen. */
  lemma {:induction false} QuantityAskedExactlyWhenChosen(keys: seq<string>, service: string, key: string)
    requires MenuEntries(keys).Some?
    requires (service == EXTRA_REFRIGERATOR && key == "10") || (service == BALCONY_PATIO && key == "7")
    ensures QuantityMissing(MenuEntries(keys).value, service) <==> key in keys
    ensures FindAddOn(MenuEntries(keys).value, service).Some? ==> key in keys
    decreases |keys|
  {
    if keys != [] {
      var front, last := keys[..|keys| - 1], keys[|keys| - 1];
      assert keys == front + [last];
      QuantityAskedExactlyWhenChosen(front, service, key);
      if !IsLaundryKey(last) {
        EntryService(last, service, key);
        FindInAppended(MenuEntries(front).value, AddOnEntry(AddOnMenu(last).value), service);
        hide AddOnMenu, AddOnEntry, FindAddOn, IsPositiveInteger, IsAddOn;
      }
    }
  }

  lemma EntryService(last: string, service: string, key: string)
    requires (service == EXTRA_REFRIGERATOR && key == "10") || (service == BALCONY_PATIO && key == "7")
    requires AddOnMenu(last).Some?
    ensures var entry := AddOnEntry(AddOnMenu(last).value);
            (IsAddOn(entry, service) <==> last == key) &&
            (last == key ==> !IsPositiveInteger(Get(entry.fields, Quantity)))
  {
  }
}
