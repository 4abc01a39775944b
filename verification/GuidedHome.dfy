/** Questions about the property. (apps/api/src/messaging/messaging-quote-guided-home.ts) */
module GuidedHome {
  import opened Prelude
  import opened Json
  import opened InterviewBase
  import Text

  function HomeField(q: Question): FieldName {
    if q == AskPropertyType then PropertyType
    else if q == AskAddressLine1 then AddressLine1
    else if q == AskSuburb then Suburb
    else if q == AskCountryConfirmation then Country
    else if q == AskFloorSize then FloorSize
    else if q == AskBedrooms then Bedrooms
    else if q == AskBathrooms then Bathrooms
    else if q == AskLivingAreas then LivingAreas
    else if q == AskApartmentFloor then ExactFloor
    else if q == AskApartmentAccess then BuildingAccess
    else if q == AskOutdoorArea then OutdoorArea
    else EstateClassification
  }

  predicate HomeApplies(p: Fields, q: Question) {
    q == AskApartmentFloor || q == AskApartmentAccess ==> IsTextEqual(Get(p, PropertyType), "APARTMENT")
  }

  /** Whether a stored value leaves its question unanswered. */
  predicate HomeMissing(value: Option<Json>, q: Question) {
    if q == AskAddressLine1 || q == AskSuburb then !IsText(value)
    else if q == AskCountryConfirmation then !IsTextEqual(value, "South Africa")
    else if q == AskApartmentFloor then !IsInteger(value)
    else !IsTruthy(value)
  }

  predicate HomeOpen(p: Fields, q: Question) {
    HomeApplies(p, q) && HomeMissing(Get(p, HomeField(q)), q)
  }

  function NextHome(p: Fields): (r: nat)
    ensures HOME_START <= r <= CLEANING_START
    ensures r < CLEANING_START ==> HomeOpen(p, r)
    ensures forall q | HOME_START <= q < r :: !HomeOpen(p, q)
  {
    var open := (q: Question) => HomeOpen(p, q);
    assert forall q: Question {:trigger HomeOpen(p, q)} :: open(q) == HomeOpen(p, q);
    FirstOpen(HOME_START, CLEANING_START, open)
  }

  const PROPERTY_TYPES: seq<Label> := ["APARTMENT", "TOWNHOUSE", "HOUSE", "DUPLEX", "OTHER"]
  const FLOOR_SIZES: seq<Label> := [
    "UNDER_40", "FROM_40_TO_59", "FROM_60_TO_79", "FROM_80_TO_99", "FROM_100_TO_129",
    "FROM_130_TO_169", "FROM_170_TO_219", "FROM_220_TO_299", "FROM_300_UP", "UNKNOWN"]
  const BEDROOMS: seq<Label> := ["STUDIO", "ONE", "TWO", "THREE", "FOUR", "FIVE_PLUS", "OTHER"]
  const BATHROOMS: seq<Label> := ["ONE", "TWO", "THREE", "FOUR", "FIVE_PLUS"]
  const LIVING_AREAS: seq<Label> := ["ONE", "TWO", "THREE", "FOUR_PLUS"]
  const APARTMENT_ACCESS: seq<Label> := ["ELEVATOR", "STAIRS", "ELEVATOR_AND_STAIRS"]
  const OUTDOOR_AREAS: seq<Label> := ["NONE", "BALCONY", "PATIO", "BOTH"]
  const ESTATE_CLASSIFICATIONS: seq<Label> := ["NONE", "ESTATE", "COMPLEX", "GATED_COMMUNITY"]

  /** The value an answer stands for, if it is in the requested format. */
  function HomeValue(p: Fields, q: Question, text: string): Option<Json> {
    if q == AskPropertyType then Choice(PROPERTY_TYPES, text)
    else if q == AskAddressLine1 || q == AskSuburb then FreeText(text)
    else if q == AskCountryConfirmation then (if text == "YES" then Some(Str("South Africa")) else None)
    else if q == AskFloorSize then Choice(FLOOR_SIZES, text)
    else if q == AskBedrooms then
      var value := Choice(BEDROOMS, text);
      if value == Some(Str("STUDIO")) && !IsTextEqual(Get(p, PropertyType), "APARTMENT") then None else value
    else if q == AskBathrooms then Choice(BATHROOMS, text)
    else if q == AskLivingAreas then Choice(LIVING_AREAS, text)
    else if q == AskApartmentFloor then
      var n := ShortNumber(text);
      if n.Some? && n.value <= 50 then Some(Integer(n.value)) else None
    else if q == AskApartmentAccess then Choice(APARTMENT_ACCESS, text)
    else if q == AskOutdoorArea then Choice(OUTDOOR_AREAS, text)
    else Choice(ESTATE_CLASSIFICATIONS, text)
  }

  function ApplyHome(draft: Fields, raw: Option<string>): Answer {
    var p := Section(draft, Property);
    var q := NextHome(p);
    if q == CLEANING_START then Done
    else
      match HomeValue(p, q, Given(raw))
      case None => Invalid(q)
      case Some(value) => Accepted(map[Property := Obj(map[HomeField(q) := value])])
  }

  /** An accepted answer is a value that answers its question. */
  lemma HomeValueAnswers(p: Fields, q: Question, text: string)
    requires Text.Trimmed(text) && HomeValue(p, q, text).Some?
    ensures !HomeValue(p, q, text).value.Obj? && !HomeMissing(HomeValue(p, q, text), q)
  {
    hide Choice, IsText, IsTruthy, ShortNumber;
  }

  lemma HomeFieldsDiffer(q: Question, r: Question)
    requires HOME_START <= r < q < CLEANING_START
    ensures HomeField(r) != HomeField(q) && HomeField(q) != PropertyType
  {
  }

  /** A later answer writes no field an earlier question looks at. */
  lemma HomeKeepsClosed(p: Fields, q: Question, r: Question, v: Json)
    requires HOME_START <= r < q < CLEANING_START
    ensures HomeOpen(p[HomeField(q) := v], r) == HomeOpen(p, r)
  {
    HomeFieldsDiffer(q, r);
    FieldUpdate(p, HomeField(q), v);
    hide Get, HomeField, HomeMissing, IsTextEqual;
  }

  lemma HomeCloses(p: Fields, q: Question, v: Json)
    requires !HomeMissing(Some(v), q)
    ensures !HomeOpen(p[HomeField(q) := v], q)
  {
    hide HomeMissing, HomeField, HomeApplies;
  }

  /** Storing an answer moves the property questions strictly forward. */
  lemma HomeMovesOn(p: Fields, v: Json)
    requires NextHome(p) < CLEANING_START && !HomeMissing(Some(v), NextHome(p))
    ensures NextHome(p[HomeField(NextHome(p)) := v]) > NextHome(p)
  {
    hide HomeOpen, HomeMissing, HomeField;
    var q := NextHome(p);
    HomeCloses(p, q, v);
    forall r | HOME_START <= r < q
      ensures HomeOpen(p[HomeField(q) := v], r) == HomeOpen(p, r)
    {
      HomeKeepsClosed(p, q, r, v);
    }
  }
}
