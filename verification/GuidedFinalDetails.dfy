/**
 Safety, notes, photos and customer questions.
 (apps/api/src/messaging/messaging-quote-guided-final-details.ts)
 */
module GuidedFinalDetails {
  import opened Prelude
  import opened Json
  import opened InterviewBase
  import SubmissionInput
  import Text

  function FinalGroup(q: Question): FieldName {
    if q < AskAttentionAreas then Safety else if q < AskPhotos then Notes else FieldName.Customer
  }

  function FinalField(q: Question): FieldName {
    if q == AskOffLimitsAreas then OffLimitsAreas
    else if q == AskFragileItems then FragileItems
    else if q == AskProductRestrictions then ProductRestrictions
    else if q == AskAllergies then AllergiesOrSensitivities
    else if q == AskExistingDamage then ExistingDamage
    else if q == AskAttentionAreas then AttentionAreas
    else if q == AskRenovationDust then RenovationDust
    else if q == AskApplianceNotes then ApplianceNotes
    else if q == AskAdditionalNotes then AdditionalNotes
    else if q == AskFullName then FullName
    else if q == AskEmail then Email
    else if q == AskMobile then Mobile
    else PreferredContact
  }

  predicate FinalMissing(value: Option<Json>, q: Question) {
    if q == AskPhotos then !IsList(value) else if q < AskPhotos then value.None? else !IsText(value)
  }

  /** The stored value a question is about. */
  function FinalStored(draft: Fields, q: Question): Option<Json> {
    if q == AskPhotos then Get(draft, Photos) else Get(Section(draft, FinalGroup(q)), FinalField(q))
  }

  predicate FinalOpen(draft: Fields, q: Question) {
    FinalMissing(FinalStored(draft, q), q)
  }

  function NextFinalDetails(draft: Fields): (r: nat)
    ensures FINAL_START <= r <= NOTHING_LEFT
    ensures r < NOTHING_LEFT ==> FinalOpen(draft, r)
    ensures forall q | FINAL_START <= q < r :: !FinalOpen(draft, q)
  {
    var open := (q: Question) => FinalOpen(draft, q);
    assert forall q: Question {:trigger FinalOpen(draft, q)} :: open(q) == FinalOpen(draft, q);
    FirstOpen(FINAL_START, NOTHING_LEFT, open)
  }

  /** /^\S+@\S+\.\S+$/ */
  predicate IsEmail(text: string) {
    (forall i | 0 <= i < |text| :: !Text.IsSpace(text[i])) &&
    exists at, dot :: 1 <= at < |text| && at + 2 <= dot <= |text| - 2 && text[at] == '@' && text[dot] == '.'
  }

  /** /^\+[1-9]\d{7,14}$/ */
  predicate IsMobile(text: string) {
    9 <= |text| <= 16 && text[0] == '+' && '1' <= text[1] <= '9' && Text.AllDigits(text[2..])
  }

  const PREFERRED_CONTACTS: seq<Label> := ["PHONE", "EMAIL", "WHATSAPP"]

  /** With photos selected the customer says DONE, without any `0`. */
  function PhotosAnswer(draft: Fields): (r: string)
    ensures Text.Trimmed(r)
  {
    if SubmissionInput.MediaAssetIds(draft) != [] then "DONE" else "0"
  }

  function FinalValue(draft: Fields, q: Question, text: string): Option<Json> {
    if q == AskPhotos then (if text == PhotosAnswer(draft) then Some(Arr([])) else None)
    else if q == AskFullName then FreeText(text)
    else if q == AskEmail then (if IsEmail(text) then FreeText(text) else None)
    else if q == AskMobile then (if IsMobile(text) then FreeText(text) else None)
    else if q == AskPreferredContact then Choice(PREFERRED_CONTACTS, text)
    else OptionalText(text)
  }

  function FinalPatch(q: Question, v: Json): Fields {
    if q == AskPhotos then map[Photos := v] else map[FinalGroup(q) := Obj(map[FinalField(q) := v])]
  }

  function ApplyFinalDetails(draft: Fields, raw: Option<string>): Answer {
    var q := NextFinalDetails(draft);
    if q == NOTHING_LEFT then Done
    else
      match FinalValue(draft, q, Given(raw))
      case None => Invalid(q)
      case Some(value) => Accepted(FinalPatch(q, value))
  }

  lemma FinalValueAnswers(draft: Fields, q: Question, text: string)
    requires FINAL_START <= q < NOTHING_LEFT && Text.Trimmed(text) && FinalValue(draft, q, text).Some?
    ensures !FinalValue(draft, q, text).value.Obj? && !FinalMissing(FinalValue(draft, q, text), q)
  {
    hide Choice, IsText, PhotosAnswer, IsEmail, IsMobile;
  }

  /** What merging a final detail does to the draft. */
  lemma FinalMerge(draft: Fields, q: Question, v: Json)
    requires FINAL_START <= q < NOTHING_LEFT && !v.Obj?
    ensures var merged := MergeDraft(draft, FinalPatch(q, v));
            FinalStored(merged, q) == Some(v) &&
            (forall g :: g != (if q == AskPhotos then Photos else FinalGroup(q)) ==> Get(merged, g) == Get(draft, g)) &&
            (q != AskPhotos ==> forall f :: f != FinalField(q) ==>
               Get(Section(merged, FinalGroup(q)), f) == Get(Section(draft, FinalGroup(q)), f))
  {
    hide FinalGroup, FinalField;
    if q == AskPhotos {
      MergeTopLeaf(draft, Photos, v);
    } else {
      MergeGroup(draft, FinalGroup(q), map[FinalField(q) := v]);
      MergeLeaf(Section(draft, FinalGroup(q)), FinalField(q), v);
    }
  }

  lemma FinalFieldsDiffer(q: Question, r: Question)
    requires FINAL_START <= r < q < NOTHING_LEFT
    ensures q != AskPhotos && r != AskPhotos ==> FinalField(r) != FinalField(q)
    ensures FinalGroup(q) != Photos && FinalGroup(r) != Photos
  {
  }

  lemma FinalKeepsClosed(draft: Fields, q: Question, r: Question, v: Json)
    requires FINAL_START <= r < q < NOTHING_LEFT && !v.Obj?
    ensures FinalStored(MergeDraft(draft, FinalPatch(q, v)), r) == FinalStored(draft, r)
  {
    FinalMerge(draft, q, v);
    FinalFieldsDiffer(q, r);
    hide FinalGroup, FinalField, FinalPatch, MergeDraft;
    var merged := MergeDraft(draft, FinalPatch(q, v));
    if r != AskPhotos && (q == AskPhotos || FinalGroup(r) != FinalGroup(q)) {
      assert Get(merged, FinalGroup(r)) == Get(draft, FinalGroup(r));
    }
  }

  /** Storing an answer moves the final questions strictly forward. */
  lemma FinalMovesOn(draft: Fields, v: Json)
    requires NextFinalDetails(draft) < NOTHING_LEFT
    requires !v.Obj? && !FinalMissing(Some(v), NextFinalDetails(draft))
    ensures NextFinalDetails(MergeDraft(draft, FinalPatch(NextFinalDetails(draft), v))) > NextFinalDetails(draft)
  {
    hide FinalStored, FinalMissing, FinalPatch, MergeDraft;
    var q := NextFinalDetails(draft);
    FinalMerge(draft, q, v);
    forall r | FINAL_START <= r < q
      ensures FinalOpen(MergeDraft(draft, FinalPatch(q, v)), r) == FinalOpen(draft, r)
    {
      FinalKeepsClosed(draft, q, r, v);
    }
  }
}
