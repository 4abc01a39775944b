/** Questions about a past event. (apps/api/src/messaging/messaging-quote-guided-post-event.ts) */
module GuidedPostEvent {
  import opened Prelude
  import opened Json
  import opened InterviewBase
  import Text

  const POST_EVENT_CLEANING := "Post-Event Cleaning"

  /** The canonical primary service of a request, null unless it is a string. */
  function Canonical(request: Fields): Option<string> {
    var value := Get(Base(Get(request, PrimaryService)), CanonicalService);
    if value.Some? && value.value.Str? then Some(value.value.text) else None
  }

  predicate IsPostEvent(request: Fields) {
    Canonical(request) == Some(POST_EVENT_CLEANING)
  }

  function Facts(request: Fields): Fields {
    Base(Get(request, PostEvent))
  }

  function FactField(q: Question): FieldName {
    if q == AskEventType then EventType
    else if q == AskVenueType then VenueType
    else if q == AskGuestBand then GuestBand
    else if q == AskExactBathrooms then Bathrooms
    else if q == AskKitchenUsed then KitchenSubstantiallyUsed
    else if q == AskDishwashing then Dishwashing
    else if q == AskOutdoorAreas then OutdoorAreas
    else if q == AskWasteLevel then WasteLevel
    else if q == AskSignificantSoiling then SignificantOrdinarySoiling
    else if q == AskOvernight then LateNightOrOvernight
    else if q == AskBulkWaste then BulkWasteRemovalRequested
    else if q == AskSpecialistContamination then SpecialistContamination
    else if q == AskSpecialistCarpetUpholstery then SpecialistCarpetOrUpholstery
    else ComplexVenue
  }

  predicate FactMissing(value: Option<Json>, q: Question) {
    if q == AskEventType || q == AskVenueType || q == AskGuestBand || q == AskDishwashing || q == AskWasteLevel
    then !IsTruthy(value)
    else if q == AskExactBathrooms then !IsInteger(value)
    else if q == AskOutdoorAreas then !IsList(value)
    else !IsFlag(value)
  }

  predicate FactOpen(facts: Fields, q: Question) {
    FactMissing(Get(facts, FactField(q)), q)
  }

  function NextFact(facts: Fields): (r: nat)
    ensures POST_EVENT_START <= r <= PERSONALISE_START
    ensures r < PERSONALISE_START ==> FactOpen(facts, r)
    ensures forall q | POST_EVENT_START <= q < r :: !FactOpen(facts, q)
  {
    var open := (q: Question) => FactOpen(facts, q);
    assert forall q: Question {:trigger FactOpen(facts, q)} :: open(q) == FactOpen(facts, q);
    FirstOpen(POST_EVENT_START, PERSONALISE_START, open)
  }

  /** The event questions apply to one service only. */
  function NextPostEvent(request: Fields): (r: nat)
    ensures POST_EVENT_START <= r <= PERSONALISE_START
  {
    if !IsPostEvent(request) then PERSONALISE_START else NextFact(Facts(request))
  }

  const EVENT_TYPES: seq<Label> :=
    ["PARTY_BIRTHDAY", "WEDDING_RECEPTION", "FAMILY_GATHERING", "CORPORATE_EVENT", "FUNERAL_MEMORIAL", "OTHER"]
  const VENUE_TYPES: seq<Label> := ["HOME", "APARTMENT", "BUSINESS_PREMISES", "EVENT_VENUE", "OTHER"]
  const GUEST_BANDS: seq<Label> :=
    ["ONE_TO_20", "FROM_21_TO_50", "FROM_51_TO_100", "FROM_101_TO_150", "FROM_150_UP"]
  const DISHWASHING: seq<Label> := ["NONE", "MODERATE", "HEAVY"]
  const WASTE_LEVELS: seq<Label> := ["LIGHT", "MODERATE", "HEAVY"]
  const OUTDOOR_AREAS: seq<Label> := ["PATIO", "BALCONY", "BRAAI_AREA", "GARDEN_ENTERTAINMENT_AREA"]

  predicate Repeats(parts: seq<string>) {
    exists i, j :: 0 <= i < j < |parts| && parts[i] == parts[j]
  }

  predicate IsAreaNumber(part: string) {
    |part| == 1 && Text.AllDigits(part) && Choice(OUTDOOR_AREAS, part).Some?
  }

  function SelectedAreas(parts: seq<string>): seq<Json>
    requires forall i | 0 <= i < |parts| :: IsAreaNumber(parts[i])
  {
    seq(|parts|, i requires 0 <= i < |parts| && IsAreaNumber(parts[i]) => Choice(OUTDOOR_AREAS, parts[i]).value)
  }

  /** `0`, or different single digits separated by commas. */
  function ParseOutdoorAreas(text: string): (r: Option<Json>)
    ensures r.Some? ==> r.value.Arr?
  {
    if text == "0" then Some(Arr([]))
    else
      var parts := Text.Split(text, ',');
      if (forall i | 0 <= i < |parts| :: IsAreaNumber(parts[i])) && !Repeats(parts) then Some(Arr(SelectedAreas(parts))) else None
  }

  function FactValue(q: Question, text: string): Option<Json> {
    if q == AskEventType then Choice(EVENT_TYPES, text)
    else if q == AskVenueType then Choice(VENUE_TYPES, text)
    else if q == AskGuestBand then Choice(GUEST_BANDS, text)
    else if q == AskExactBathrooms then
      var n := ShortNumber(text);
      if n.Some? && 1 <= n.value <= 20 then Some(Integer(n.value)) else None
    else if q == AskDishwashing then Choice(DISHWASHING, text)
    else if q == AskOutdoorAreas then ParseOutdoorAreas(text)
    else if q == AskWasteLevel then Choice(WASTE_LEVELS, text)
    else YesNo(text)
  }

  function FactPatch(q: Question, v: Json): Fields {
    map[Request := Obj(map[PostEvent := Obj(map[FactField(q) := v])])]
  }

  function ApplyPostEvent(draft: Fields, raw: Option<string>): Answer {
    var request := Section(draft, Request);
    if !IsPostEvent(request) then NotApplicable
    else
      var q := NextPostEvent(request);
      if q == PERSONALISE_START then Done
      else
        match FactValue(q, Given(raw))
        case None => Invalid(q)
        case Some(value) => Accepted(FactPatch(q, value))
  }

  lemma FactValueAnswers(q: Question, text: string)
    requires FactValue(q, text).Some?
    ensures !FactValue(q, text).value.Obj? && !FactMissing(FactValue(q, text), q)
  {
    hide Choice, ShortNumber, ParseOutdoorAreas, IsTruthy;
  }

  lemma FactFieldsDiffer(q: Question, r: Question)
    requires POST_EVENT_START <= r < q < PERSONALISE_START
    ensures FactField(r) != FactField(q)
  {
  }

  lemma FactKeepsClosed(facts: Fields, q: Question, r: Question, v: Json)
    requires POST_EVENT_START <= r < q < PERSONALISE_START
    ensures FactOpen(facts[FactField(q) := v], r) == FactOpen(facts, r)
  {
    FactFieldsDiffer(q, r);
    FieldUpdate(facts, FactField(q), v);
    hide Get, FactField, FactMissing;
  }

  /** Storing a fact moves the event questions strictly forward. */
  lemma FactMovesOn(facts: Fields, v: Json)
    requires NextFact(facts) < PERSONALISE_START && !FactMissing(Some(v), NextFact(facts))
    ensures NextFact(facts[FactField(NextFact(facts)) := v]) > NextFact(facts)
  {
    hide FactOpen, FactMissing, FactField;
    var q := NextFact(facts);
    assert !FactOpen(facts[FactField(q) := v], q) by { FactCloses(facts, q, v); }
    forall r | POST_EVENT_START <= r < q
      ensures FactOpen(facts[FactField(q) := v], r) == FactOpen(facts, r)
    {
      FactKeepsClosed(facts, q, r, v);
    }
  }

  lemma FactCloses(facts: Fields, q: Question, v: Json)
    requires !FactMissing(Some(v), q)
    ensures !FactOpen(facts[FactField(q) := v], q)
  {
    hide FactMissing, FactField;
  }

  /** What merging a fact does to the draft. */
  lemma FactMerge(draft: Fields, q: Question, v: Json)
    requires !v.Obj?
    ensures var merged := MergeDraft(draft, FactPatch(q, v));
            var request := Section(draft, Request);
            Section(merged, Request) == request[PostEvent := Obj(Facts(request)[FactField(q) := v])] &&
            forall g :: g != Request ==> Get(merged, g) == Get(draft, g)
  {
    var request := Section(draft, Request);
    MergeGroup(draft, Request, map[PostEvent := Obj(map[FactField(q) := v])]);
    MergeNested(request, PostEvent, map[FactField(q) := v]);
    MergeLeaf(Facts(request), FactField(q), v);
  }
}
