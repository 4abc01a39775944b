/**
 Service, frequency and condition questions, chained to the event and personalise ones.
 (apps/api/src/messaging/messaging-quote-guided-cleaning-requirements.ts)
 */
module GuidedCleaning {
  import opened Prelude
  import opened Json
  import opened InterviewBase
  import opened GuidedPersonalise
  import opened GuidedPostEvent
  import Text

  function PrimaryOf(request: Fields): Fields {
    Base(Get(request, PrimaryService))
  }

  predicate CleaningOpen(request: Fields, q: Question) {
    if q == AskPrimaryService then
      CanonicalService !in PrimaryOf(request) || !IsText(Get(PrimaryOf(request), WebsiteValue))
    else if q == AskFrequency then !IsTruthy(Get(request, Frequency))
    else if q == AskCustomFrequencyNote then
      IsTextEqual(Get(request, Frequency), "CUSTOM") && !IsText(Get(request, CustomFrequencyNote))
    else !IsTruthy(Get(request, HomeCondition))
  }

  function NextOwnCleaning(request: Fields): (r: nat)
    ensures CLEANING_START <= r <= POST_EVENT_START
    ensures r < POST_EVENT_START ==> CleaningOpen(request, r)
    ensures forall q | CLEANING_START <= q < r :: !CleaningOpen(request, q)
  {
    var open := (q: Question) => CleaningOpen(request, q);
    assert forall q: Question {:trigger CleaningOpen(request, q)} :: open(q) == CleaningOpen(request, q);
    FirstOpen(CLEANING_START, POST_EVENT_START, open)
  }

  /** None while the event questions have the floor. */
  function NextCleaning(draft: Fields): (r: nat)
    ensures CLEANING_START <= r <= NOTHING_LEFT
  {
    var request := Section(draft, Request);
    var q := NextOwnCleaning(request);
    if q < POST_EVENT_START then q
    else if IsPostEvent(request) && NextPostEvent(request) < PERSONALISE_START then NOTHING_LEFT
    else NextPersonalise(draft)
  }

  const WHOLE_HOME_SERVICES: seq<Label> := [
    "Regular Home Cleaning", "Deep Cleaning", "Move-In Cleaning", "Move-Out Cleaning", "Apartment Cleaning"]
  const ROOM_SERVICES: seq<Label> := [
    "Kitchen Cleaning", "Bathroom Sanitisation", "Bedroom Cleaning", "Living Area Cleaning",
    "Interior Window Cleaning"]
  const SPECIAL_SERVICES: seq<Label> := [
    "Laundry Folding", "Eco-Conscious Cleaning", "Post-Renovation Cleaning", "Post-Event Cleaning"]
  const PRIMARY_SERVICES: seq<Label> := WHOLE_HOME_SERVICES + ROOM_SERVICES + SPECIAL_SERVICES
  const ECO_FRIENDLY: Label := "Eco-Friendly Cleaning"
  const NOT_SURE: Label := "Not sure"

  /** Menu number to website value and canonical service; "Not sure" stores a null service. */
  function PrimaryMenu(key: string): (r: Option<(Json, Json)>)
    ensures r.Some? ==> IsText(Some(r.value.0)) && !r.value.0.Obj? && !r.value.1.Obj?
  {
    if key == "15" then Some((Str(NOT_SURE), Null))
    else
      match Choice(PRIMARY_SERVICES, key)
      case None => None
      case Some(service) =>
        Some((if service == Str("Eco-Conscious Cleaning") then Str(ECO_FRIENDLY) else service, service))
  }

  const FREQUENCIES: seq<Label> := ["ONE_TIME", "WEEKLY", "EVERY_TWO_WEEKS", "MONTHLY", "CUSTOM"]

  /** The frequencies a service can be booked at; a service without a rule takes them all. */
  predicate AllowsFrequency(service: Option<string>, frequency: string) {
    if frequency == "ONE_TIME" || service == Some("Regular Home Cleaning") || service == Some("Apartment Cleaning")
       || service == Some("Eco-Conscious Cleaning") then true
    else if service == Some(POST_EVENT_CLEANING) || service == Some("Move-In Cleaning")
       || service == Some("Move-Out Cleaning") then false
    else if service == Some("Deep Cleaning") then frequency == "MONTHLY" || frequency == "CUSTOM"
    else if service == None || service == Some("Kitchen Cleaning") || service == Some("Bathroom Sanitisation")
       || service == Some("Bedroom Cleaning") || service == Some("Living Area Cleaning")
       || service == Some("Interior Window Cleaning") || service == Some("Laundry Folding")
    then frequency == "CUSTOM"
    else true
  }

  const HOME_CONDITIONS: seq<Label> :=
    ["LIGHT_UPKEEP", "STANDARD", "EXTRA_ATTENTION", "HEAVY_BUILDUP", "RECENTLY_RENOVATED", "VACANT", "MOVE_IN_OUT"]

  function PrimaryPatch(website: Json, service: Json): Fields {
    map[WebsiteValue := website, CanonicalService := service]
  }

  function CleaningField(q: Question): FieldName {
    if q == AskFrequency then Frequency else if q == AskCustomFrequencyNote then CustomFrequencyNote else HomeCondition
  }

  function CleaningValue(request: Fields, q: Question, text: string): Option<Json> {
    if q == AskFrequency then
      var value := Choice(FREQUENCIES, text);
      if value.Some? && AllowsFrequency(Canonical(request), value.value.text) then value else None
    else if q == AskCustomFrequencyNote then FreeText(text)
    else Choice(HOME_CONDITIONS, text)
  }

  function CleaningPatch(request: Fields, q: Question, text: string): Option<Fields> {
    if q == AskPrimaryService then
      match PrimaryMenu(text)
      case None => None
      case Some((website, service)) => Some(map[PrimaryService := Obj(PrimaryPatch(website, service))])
    else
      match CleaningValue(request, q, text)
      case None => None
      case Some(v) => Some(map[CleaningField(q) := v])
  }

  function ApplyCleaning(draft: Fields, raw: Option<string>): Answer {
    var q := NextCleaning(draft);
    if q == NOTHING_LEFT then Done
    else if q >= PERSONALISE_START then ApplyPersonalise(draft, raw)
    else
      match CleaningPatch(Section(draft, Request), q, Given(raw))
      case None => Invalid(q)
      case Some(patch) => Accepted(map[Request := Obj(patch)])
  }

  lemma PrimaryMovesOn(request: Fields, website: Json, service: Json)
    requires IsText(Some(website)) && !website.Obj? && !service.Obj?
    ensures !CleaningOpen(
              MergeFields(request, map[PrimaryService := Obj(PrimaryPatch(website, service))]), AskPrimaryService)
  {
    MergeNested(request, PrimaryService, PrimaryPatch(website, service));
    var primary := MergeFields(PrimaryOf(request), PrimaryPatch(website, service));
    assert Merge(Get(PrimaryOf(request), WebsiteValue), website) == website;
    assert Get(primary, WebsiteValue) == Some(website) && CanonicalService in primary;
    hide IsText;
  }

  lemma CleaningValueAnswers(request: Fields, q: Question, text: string)
    requires CLEANING_START < q < POST_EVENT_START && Text.Trimmed(text) && CleaningValue(request, q, text).Some?
    ensures var v := CleaningValue(request, q, text);
            !v.value.Obj? && (if q == AskCustomFrequencyNote then IsText(v) else IsTruthy(v))
  {
    hide Choice, IsText, IsTruthy, AllowsFrequency, Canonical;
  }

  /** A frequency, note or condition keeps the earlier cleaning questions answered. */
  lemma CleaningFieldKeepsClosed(request: Fields, q: Question, v: Json, r: Question)
    requires CLEANING_START < q < POST_EVENT_START && CLEANING_START <= r <= q && !v.Obj?
    requires if q == AskCustomFrequencyNote then IsText(Some(v)) else IsTruthy(Some(v))
    requires r < q ==> !CleaningOpen(request, r)
    ensures !CleaningOpen(MergeFields(request, map[CleaningField(q) := v]), r)
  {
    MergeLeaf(request, CleaningField(q), v);
    FieldUpdate(request, CleaningField(q), v);
    hide MergeFields, IsText, IsTruthy, IsTextEqual, Get;
  }

  lemma CleaningKeepsClosed(request: Fields, text: string, r: Question)
    requires var q := NextOwnCleaning(request);
             q < POST_EVENT_START && Text.Trimmed(text) && CleaningPatch(request, q, text).Some?
             && CLEANING_START <= r <= q
    ensures !CleaningOpen(
              MergeFields(request, CleaningPatch(request, NextOwnCleaning(request), text).value), r)
  {
    var q := NextOwnCleaning(request);
    assert r < q ==> !CleaningOpen(request, r);
    hide NextOwnCleaning, CleaningOpen, MergeFields, IsText, IsTruthy, Choice;
    if q == AskPrimaryService {
      var (website, service) := PrimaryMenu(text).value;
      PrimaryMovesOn(request, website, service);
    } else {
      CleaningValueAnswers(request, q, text);
      CleaningFieldKeepsClosed(request, q, CleaningValue(request, q, text).value, r);
    }
  }

  /** Storing an answer moves the cleaning questions strictly forward. */
  lemma CleaningMovesOn(request: Fields, text: string)
    requires var q := NextOwnCleaning(request);
             q < POST_EVENT_START && Text.Trimmed(text) && CleaningPatch(request, q, text).Some?
    ensures NextOwnCleaning(
              MergeFields(request, CleaningPatch(request, NextOwnCleaning(request), text).value))
          > NextOwnCleaning(request)
  {
    hide CleaningOpen, CleaningPatch, MergeFields;
    var q := NextOwnCleaning(request);
    forall r | CLEANING_START <= r <= q
      ensures !CleaningOpen(MergeFields(request, CleaningPatch(request, q, text).value), r)
    {
      CleaningKeepsClosed(request, text, r);
    }
  }
}
