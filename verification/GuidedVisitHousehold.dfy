/**
 Visit, access and household questions.
 (apps/api/src/messaging/messaging-quote-guided-visit-household.ts)
 */
module GuidedVisitHousehold {
  import opened Prelude
  import opened Json
  import opened InterviewBase
  import opened GuidedFinalDetails
  import Text

  function VisitGroup(q: Question): FieldName {
    if q < AskComplexAccess then Visit else if q < AskHasPets then Access else Household
  }

  function VisitField(q: Question): FieldName {
    if q == AskPreferredDate then PreferredDate
    else if q == AskAlternativeDate then AlternativeDate
    else if q == AskPreferredTime then PreferredTime
    else if q == AskFlexibility then Flexibility
    else if q == AskUrgency then Urgency
    else if q == AskRecurringNotes then RecurringNotes
    else if q == AskComplexAccess then ComplexAccess
    else if q == AskSecurityInstructions then SecurityInstructions
    else if q == AskParking then Parking
    else if q == AskKeyHandover then KeyHandover
    else if q == AskKeyHandoverDetails then KeyHandoverDetails
    else if q == AskSomeonePresent then SomeonePresent
    else if q == AskHasPets then HasPets
    else if q == AskPetType then PetType
    else PetTemperament
  }

  /** Whether the question applies at all, given the section it belongs to. */
  predicate VisitApplies(section: Fields, q: Question) {
    if q == AskKeyHandoverDetails then IsTextEqual(Get(section, KeyHandover), "TO_BE_ARRANGED")
    else if q == AskPetType || q == AskPetTemperament then Get(section, HasPets) == Some(Bool(true))
    else true
  }

  predicate VisitMissing(value: Option<Json>, q: Question) {
    if q == AskAlternativeDate || q == AskRecurringNotes || q == AskSecurityInstructions || q == AskParking
    then value.None?
    else if q == AskSomeonePresent || q == AskHasPets then !IsFlag(value)
    else !IsText(value)
  }

  predicate VisitOpen(draft: Fields, q: Question) {
    var section := Section(draft, VisitGroup(q));
    VisitApplies(section, q) && VisitMissing(Get(section, VisitField(q)), q)
  }

  function NextOwnVisit(draft: Fields): (r: nat)
    ensures VISIT_START <= r <= FINAL_START
    ensures r < FINAL_START ==> VisitOpen(draft, r)
    ensures forall q | VISIT_START <= q < r :: !VisitOpen(draft, q)
  {
    var open := (q: Question) => VisitOpen(draft, q);
    assert forall q: Question {:trigger VisitOpen(draft, q)} :: open(q) == VisitOpen(draft, q);
    FirstOpen(VISIT_START, FINAL_START, open)
  }

  function NextVisitHousehold(draft: Fields): (r: nat)
    ensures VISIT_START <= r <= NOTHING_LEFT
  {
    var q := NextOwnVisit(draft);
    if q < FINAL_START then q else NextFinalDetails(draft)
  }

  function DaysIn(year: nat, month: nat): nat
    requires 1 <= month <= 12
  {
    if month == 2 then (if year % 4 == 0 && (year % 100 != 0 || year % 400 == 0) then 29 else 28)
    else if month in {4, 6, 9, 11} then 30 else 31
  }

  /** A real date written YYYY-MM-DD; years below 100 fail because `Date.UTC` reads them as 19xx. */
  predicate IsCalendarDate(text: string) {
    |text| == 10 && text[4] == '-' && text[7] == '-' &&
    Text.AllDigits(text[..4]) && Text.AllDigits(text[5..7]) && Text.AllDigits(text[8..]) &&
    var year, month, day := Text.Decimal(text[..4]), Text.Decimal(text[5..7]), Text.Decimal(text[8..]);
    year >= 100 && 1 <= month <= 12 && 1 <= day <= DaysIn(year, month)
  }

  const PREFERRED_TIMES: seq<Label> := ["MORNING", "MIDDAY", "AFTERNOON", "FLEXIBLE"]
  const COMPLEX_ACCESS: seq<Label> := ["ACCESS_CODE", "NOT_APPLICABLE", "VISITOR_SIGN_IN", "RESIDENT_ARRANGED"]
  const KEY_HANDOVERS: seq<Label> := ["SOMEONE_WILL_OPEN", "CONCIERGE_RECEPTION", "TO_BE_ARRANGED"]

  function VisitValue(q: Question, text: string): Option<Json> {
    if q == AskPreferredDate then (if IsCalendarDate(text) then FreeText(text) else None)
    else if q == AskAlternativeDate then
      (if text == "0" then Some(Str("")) else if IsCalendarDate(text) then FreeText(text) else None)
    else if q == AskPreferredTime then Choice(PREFERRED_TIMES, text)
    else if q == AskComplexAccess then Choice(COMPLEX_ACCESS, text)
    else if q == AskKeyHandover then Choice(KEY_HANDOVERS, text)
    else if q == AskRecurringNotes || q == AskSecurityInstructions || q == AskParking then OptionalText(text)
    else if q == AskSomeonePresent || q == AskHasPets then OneTwo(text)
    else FreeText(text)
  }

  function VisitPatch(q: Question, v: Json): Fields {
    map[VisitGroup(q) := Obj(map[VisitField(q) := v])]
  }

  function ApplyVisitHousehold(draft: Fields, raw: Option<string>): Answer {
    var q := NextVisitHousehold(draft);
    if q == NOTHING_LEFT then Done
    else if q >= FINAL_START then ApplyFinalDetails(draft, raw)
    else
      match VisitValue(q, Given(raw))
      case None => Invalid(q)
      case Some(value) => Accepted(VisitPatch(q, value))
  }

  lemma VisitValueAnswers(q: Question, text: string)
    requires Text.Trimmed(text) && VisitValue(q, text).Some?
    ensures !VisitValue(q, text).value.Obj? && !VisitMissing(VisitValue(q, text), q)
  {
    hide Choice, IsText, IsCalendarDate;
  }

  /** What merging a visit answer does to the draft. */
  lemma VisitMerge(draft: Fields, q: Question, v: Json)
    requires !v.Obj?
    ensures var merged := MergeDraft(draft, VisitPatch(q, v));
            Section(merged, VisitGroup(q)) == Section(draft, VisitGroup(q))[VisitField(q) := v] &&
            forall g :: g != VisitGroup(q) ==> Get(merged, g) == Get(draft, g)
  {
    hide VisitGroup, VisitField;
    MergeGroup(draft, VisitGroup(q), map[VisitField(q) := v]);
    MergeLeaf(Section(draft, VisitGroup(q)), VisitField(q), v);
  }

  lemma VisitFieldsDiffer(q: Question, r: Question)
    requires VISIT_START <= r < q < FINAL_START
    ensures VisitField(r) != VisitField(q)
    ensures r == AskKeyHandoverDetails ==> VisitField(q) != KeyHandover
    ensures r == AskPetType || r == AskPetTemperament ==> VisitField(q) != HasPets
  {
  }

  lemma VisitKeepsClosed(draft: Fields, q: Question, r: Question, v: Json)
    requires VISIT_START <= r < q < FINAL_START && !v.Obj?
    ensures VisitOpen(MergeDraft(draft, VisitPatch(q, v)), r) == VisitOpen(draft, r)
  {
    VisitMerge(draft, q, v);
    VisitFieldsDiffer(q, r);
    hide VisitGroup, VisitField, VisitPatch, VisitMissing, IsTextEqual, MergeDraft;
    var merged := MergeDraft(draft, VisitPatch(q, v));
    FieldUpdate(Section(draft, VisitGroup(q)), VisitField(q), v);
    if VisitGroup(r) != VisitGroup(q) {
      assert Section(merged, VisitGroup(r)) == Section(draft, VisitGroup(r));
    }
    hide Get, Section;
  }

  lemma VisitCloses(draft: Fields, q: Question, v: Json)
    requires !v.Obj? && !VisitMissing(Some(v), q)
    ensures !VisitOpen(MergeDraft(draft, VisitPatch(q, v)), q)
  {
    VisitMerge(draft, q, v);
    hide VisitGroup, VisitField, VisitPatch, VisitMissing, VisitApplies, MergeDraft;
  }

  /** Storing an answer moves the visit questions strictly forward. */
  lemma VisitMovesOn(draft: Fields, v: Json)
    requires NextOwnVisit(draft) < FINAL_START && !v.Obj? && !VisitMissing(Some(v), NextOwnVisit(draft))
    ensures NextOwnVisit(MergeDraft(draft, VisitPatch(NextOwnVisit(draft), v))) > NextOwnVisit(draft)
  {
    hide VisitOpen, VisitMissing, VisitPatch, MergeDraft;
    var q := NextOwnVisit(draft);
    VisitCloses(draft, q, v);
    forall r | VISIT_START <= r < q
      ensures VisitOpen(MergeDraft(draft, VisitPatch(q, v)), r) == VisitOpen(draft, r)
    {
      VisitKeepsClosed(draft, q, r, v);
    }
  }
}
