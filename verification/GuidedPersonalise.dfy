/**
 Add-on, quantity, product and laundry questions.
 (apps/api/src/messaging/messaging-quote-guided-personalise.ts)
 */
module GuidedPersonalise {
  import opened Prelude
  import opened Json
  import opened InterviewBase
  import opened GuidedPostEvent
  import opened GuidedVisitHousehold
  import SubmissionInput
  import Text

  const EXTRA_REFRIGERATOR := "Extra Refrigerator"
  const BALCONY_PATIO := "Balcony / Patio Cleaning"

  predicate IsLaundryEligible(primary: Option<string>) {
    primary == Some("Regular Home Cleaning") || primary == Some("Deep Cleaning")
  }

  // ---- add-on entries ------------------------------------------------------------------------

  function AddOnsOf(request: Fields): seq<Json> {
    var value := Get(request, AddOns);
    if value.Some? && value.value.Arr? then value.value.items else []
  }

  predicate IsAddOn(item: Json, service: string) {
    item.Obj? && IsTextEqual(Get(item.fields, CanonicalService), service)
  }

  /** The first entry of a service. */
  function FindAddOn(items: seq<Json>, service: string): (r: Option<Json>)
    ensures r.Some? ==> IsAddOn(r.value, service)
  {
    if items == [] then None
    else if IsAddOn(items[0], service) then Some(items[0])
    else FindAddOn(items[1..], service)
  }

  predicate QuantityMissing(items: seq<Json>, service: string) {
    var item := FindAddOn(items, service);
    item.Some? && !IsPositiveInteger(Get(item.value.fields, Quantity))
  }

  function SetQuantity(item: Json, service: string, quantity: nat): Json {
    if IsAddOn(item, service) then Obj(item.fields[Quantity := Integer(quantity)]) else item
  }

  function WithQuantity(items: seq<Json>, service: string, quantity: nat): seq<Json> {
    seq(|items|, i requires 0 <= i < |items| => SetQuantity(items[i], service, quantity))
  }

  /** Setting a quantity changes every entry of that service and hides no other service. */
  lemma {:induction false} FindAfterQuantity(items: seq<Json>, service: string, quantity: nat, other: string)
    ensures FindAddOn(WithQuantity(items, service, quantity), other)
         == match FindAddOn(items, other)
            case None => None
            case Some(item) => Some(SetQuantity(item, service, quantity))
    decreases |items|
  {
    if items != [] {
      var after := WithQuantity(items, service, quantity);
      assert after[1..] == WithQuantity(items[1..], service, quantity);
      FindAfterQuantity(items[1..], service, quantity, other);
      assert IsAddOn(after[0], other) == IsAddOn(items[0], other);
    }
  }

  lemma QuantityAfter(items: seq<Json>, service: string, quantity: nat, other: string)
    requires quantity >= 1
    ensures QuantityMissing(WithQuantity(items, service, quantity), other)
        <==> QuantityMissing(items, other) && other != service
  {
    FindAfterQuantity(items, service, quantity, other);
  }

  // ---- questions -----------------------------------------------------------------------------

  function LaundryOf(request: Fields): Fields {
    Base(Get(request, Laundry))
  }

  /** Loads asked for with a placeholder and not yet counted. */
  predicate LoadsMissing(laundry: Fields, loads: FieldName) {
    loads in laundry && !IsPositiveInteger(Get(laundry, loads))
  }

  predicate PersonaliseOpen(request: Fields, q: Question) {
    if q == AskAddOns then AddOns !in request
    else if q == AskExtraRefrigeratorQuantity then QuantityMissing(AddOnsOf(request), EXTRA_REFRIGERATOR)
    else if q == AskBalconyPatioQuantity then QuantityMissing(AddOnsOf(request), BALCONY_PATIO)
    else if q == AskEcoFriendlyProducts then !IsFlag(Get(request, EcoFriendlyProducts))
    else
      var laundry := LaundryOf(request);
      if q == AskLaundryFacilities then LaundryLoads in laundry && !IsTruthy(Get(laundry, Facilities))
      else if q == AskLaundryLoads then LoadsMissing(laundry, LaundryLoads)
      else LoadsMissing(laundry, IroningLoads)
  }

  function NextOwnPersonalise(request: Fields): (r: nat)
    ensures PERSONALISE_START <= r <= VISIT_START
    ensures r < VISIT_START ==> PersonaliseOpen(request, r)
    ensures forall q | PERSONALISE_START <= q < r :: !PersonaliseOpen(request, q)
  {
    var open := (q: Question) => PersonaliseOpen(request, q);
    assert forall q: Question {:trigger PersonaliseOpen(request, q)} :: open(q) == PersonaliseOpen(request, q);
    FirstOpen(PERSONALISE_START, VISIT_START, open)
  }

  function NextPersonalise(draft: Fields): (r: nat)
    ensures PERSONALISE_START <= r <= NOTHING_LEFT
  {
    var q := NextOwnPersonalise(Section(draft, Request));
    if q < VISIT_START then q else NextVisitHousehold(draft)
  }

  // ---- answers -------------------------------------------------------------------------------

  datatype AddOnOption = AddOnOption(website: string, service: string)

  /** The menu entry of a number; 12 and 13 are laundry and ironing, not entries. */
  function AddOnMenu(key: string): Option<AddOnOption> {
    if key == "1" then Some(AddOnOption("Inside oven", "Inside Oven Cleaning"))
    else if key == "2" then Some(AddOnOption("Inside fridge", "Inside Fridge Cleaning"))
    else if key == "3" then Some(AddOnOption("Inside cupboards", "Interior Cupboard Cleaning"))
    else if key == "4" then Some(AddOnOption("Interior windows", "Interior Window Cleaning"))
    else if key == "5" then Some(AddOnOption("Bed making", "Bed Making"))
    else if key == "6" then Some(AddOnOption("Linen change", "Linen Change"))
    else if key == "7" then Some(AddOnOption("Balcony / Patio Cleaning", BALCONY_PATIO))
    else if key == "8" then Some(AddOnOption("Garage sweep", "Garage Sweeping"))
    else if key == "9" then Some(AddOnOption("Extra bathroom", "Extra Bathroom Cleaning"))
    else if key == "10" then Some(AddOnOption("Extra refrigerator", EXTRA_REFRIGERATOR))
    else if key == "11" then Some(AddOnOption("Pet-hair treatment", "Pet-Hair Treatment"))
    else None
  }

  predicate IsLaundryKey(key: string) {
    key == "12" || key == "13"
  }

  /** Every entry starts with one, except the two whose quantity is asked next. */
  function AddOnEntry(option: AddOnOption): Json {
    Obj(map[
      WebsiteValue := Str(option.website),
      CanonicalService := Str(option.service),
      Quantity := Integer(if option.service == EXTRA_REFRIGERATOR || option.service == BALCONY_PATIO then 0 else 1)])
  }

  function TrimAll(parts: seq<string>): seq<string> {
    seq(|parts|, i requires 0 <= i < |parts| => Text.Trim(parts[i]))
  }

  function MenuEntries(keys: seq<string>): Option<seq<Json>> {
    if keys == [] then Some([])
    else
      var before := MenuEntries(keys[..|keys| - 1]);
      var last := keys[|keys| - 1];
      if before.None? then None
      else if IsLaundryKey(last) then before
      else if AddOnMenu(last).None? then None
      else Some(before.value + [AddOnEntry(AddOnMenu(last).value)])
  }

  /** Digits separated by commas, with white space allowed around the commas. */
  predicate IsKeyList(text: string) {
    var parts := Text.Split(text, ',');
    forall i | 0 <= i < |parts| :: Text.Trim(parts[i]) != "" && Text.AllDigits(Text.Trim(parts[i]))
  }

  function LaundryPlaceholders(laundry: bool, ironing: bool): Fields {
    (if laundry then map[LaundryLoads := Integer(0)] else map[])
    + (if ironing then map[IroningLoads := Integer(0)] else map[])
  }

  function AddOnsPatch(primary: Option<string>, text: string): Option<Fields> {
    if text == "0" then Some(map[AddOns := Arr([])])
    else if !IsKeyList(text) then None
    else
      var keys := SubmissionInput.Distinct(TrimAll(Text.Split(text, ',')));
      var entries := MenuEntries(keys);
      var laundry, ironing := "12" in keys, "13" in keys;
      if entries.None? then None
      else if (laundry || ironing) && !IsLaundryEligible(primary) then None
      else if laundry || ironing then
        Some(map[AddOns := Arr(entries.value), Laundry := Obj(LaundryPlaceholders(laundry, ironing))])
      else Some(map[AddOns := Arr(entries.value)])
  }

  function QuantityPatch(request: Fields, service: string, text: string): Option<Fields> {
    match PositiveInteger(text)
    case None => None
    case Some(n) => Some(map[AddOns := Arr(WithQuantity(AddOnsOf(request), service, n))])
  }

  /** The laundry answers rewrite a copy of the stored laundry facts. */
  function LaundryPatch(request: Fields, field: FieldName, value: Option<Json>): Option<Fields> {
    match value
    case None => None
    case Some(v) => Some(map[Laundry := Obj(LaundryOf(request)[field := v])])
  }

  function Loads(text: string): Option<Json> {
    match PositiveInteger(text)
    case None => None
    case Some(n) => Some(Integer(n))
  }

  const LAUNDRY_FACILITIES: seq<Label> := ["WASHER_DRYER", "WASHER_LINE"]

  function PersonalisePatch(request: Fields, q: Question, text: string): Option<Fields> {
    if q == AskAddOns then AddOnsPatch(Canonical(request), text)
    else if q == AskExtraRefrigeratorQuantity then QuantityPatch(request, EXTRA_REFRIGERATOR, text)
    else if q == AskBalconyPatioQuantity then QuantityPatch(request, BALCONY_PATIO, text)
    else if q == AskEcoFriendlyProducts then
      (match OneTwo(text)
       case None => None
       case Some(v) => Some(map[EcoFriendlyProducts := v]))
    else if q == AskLaundryFacilities then LaundryPatch(request, Facilities, Choice(LAUNDRY_FACILITIES, text))
    else if q == AskLaundryLoads then LaundryPatch(request, LaundryLoads, Loads(text))
    else LaundryPatch(request, IroningLoads, Loads(text))
  }

  function ApplyPersonalise(draft: Fields, raw: Option<string>): Answer {
    var q := NextPersonalise(draft);
    if q == NOTHING_LEFT then Done
    else if q >= VISIT_START then ApplyVisitHousehold(draft, raw)
    else
      match PersonalisePatch(Section(draft, Request), q, Given(raw))
      case None => Invalid(q)
      case Some(patch) => Accepted(map[Request := Obj(patch)])
  }

  // ---- what an accepted answer does to the request -------------------------------------------

  /** The personalise answers write the four request fields they own. */
  predicate IsPersonaliseField(f: FieldName) {
    f == AddOns || f == Laundry || f == EcoFriendlyProducts
  }

  lemma PersonaliseTouches(request: Fields, q: Question, text: string)
    requires PersonalisePatch(request, q, text).Some?
    ensures forall f :: !IsPersonaliseField(f) ==>
              Get(MergeFields(request, PersonalisePatch(request, q, text).value), f) == Get(request, f)
  {
    hide SubmissionInput.Distinct, MenuEntries, AddOnMenu, IsKeyList, WithQuantity, Choice, IsLaundryEligible, LaundryOf;
  }

  lemma AddOnsMovesOn(request: Fields, text: string)
    requires AddOnsPatch(Canonical(request), text).Some?
    ensures AddOns in MergeFields(request, AddOnsPatch(Canonical(request), text).value)
  {
    hide SubmissionInput.Distinct, MenuEntries, AddOnMenu, IsKeyList, IsLaundryEligible, Canonical;
  }

  lemma QuantityMovesOn(request: Fields, service: string, text: string)
    requires QuantityPatch(request, service, text).Some?
    ensures var merged := MergeFields(request, QuantityPatch(request, service, text).value);
            AddOns in merged && !QuantityMissing(AddOnsOf(merged), service) &&
            forall other :: !QuantityMissing(AddOnsOf(request), other) ==> !QuantityMissing(AddOnsOf(merged), other)
  {
    var n := PositiveInteger(text).value;
    var after := WithQuantity(AddOnsOf(request), service, n);
    MergeLeaf(request, AddOns, Arr(after));
    forall other
      ensures QuantityMissing(after, other) <==> QuantityMissing(AddOnsOf(request), other) && other != service
    {
      QuantityAfter(AddOnsOf(request), service, n, other);
    }
    hide MergeFields, QuantityMissing, WithQuantity;
  }

  lemma LaundryMerge(request: Fields, field: FieldName, v: Json)
    requires !v.Obj?
    ensures MergeFields(request, map[Laundry := Obj(LaundryOf(request)[field := v])])
         == request[Laundry := Obj(LaundryOf(request)[field := v])]
  {
    MergeNested(request, Laundry, LaundryOf(request)[field := v]);
    MergeCopy(LaundryOf(request), field, v);
  }

  /** The laundry questions keep every answered question answered, and answer their own. */
  lemma LaundryMovesOn(request: Fields, q: Question, field: FieldName, v: Json, r: Question)
    requires (q == AskLaundryFacilities && field == Facilities && IsTruthy(Some(v)))
          || (q == AskLaundryLoads && field == LaundryLoads && IsPositiveInteger(Some(v)))
          || (q == AskIroningLoads && field == IroningLoads && IsPositiveInteger(Some(v)))
    requires !v.Obj? && PERSONALISE_START <= r <= q && (r < q ==> !PersonaliseOpen(request, r))
    requires q != AskIroningLoads ==> LaundryLoads in LaundryOf(request)
    ensures !PersonaliseOpen(MergeFields(request, map[Laundry := Obj(LaundryOf(request)[field := v])]), r)
  {
    LaundryMerge(request, field, v);
    FieldUpdate(request, Laundry, Obj(LaundryOf(request)[field := v]));
    FieldUpdate(LaundryOf(request), field, v);
    hide MergeFields, QuantityMissing, Get, IsTruthy, IsPositiveInteger;
  }

  /** An accepted answer keeps earlier questions answered and answers its own. */
  lemma PersonaliseKeepsClosed(request: Fields, text: string, r: Question)
    requires var q := NextOwnPersonalise(request);
             q < VISIT_START && PersonalisePatch(request, q, text).Some? && PERSONALISE_START <= r <= q
    ensures !PersonaliseOpen(
              MergeFields(request, PersonalisePatch(request, NextOwnPersonalise(request), text).value), r)
  {
    var q := NextOwnPersonalise(request);
    assert PersonaliseOpen(request, q) && (r < q ==> !PersonaliseOpen(request, r));
    hide NextOwnPersonalise;
    if q == AskAddOns {
      AddOnsMovesOn(request, text);
    } else if q == AskExtraRefrigeratorQuantity {
      QuantityMovesOn(request, EXTRA_REFRIGERATOR, text);
    } else if q == AskBalconyPatioQuantity {
      QuantityMovesOn(request, BALCONY_PATIO, text);
    } else if q == AskEcoFriendlyProducts {
      MergeLeaf(request, EcoFriendlyProducts, OneTwo(text).value);
    } else if q == AskLaundryFacilities {
      LaundryMovesOn(request, q, Facilities, Choice(LAUNDRY_FACILITIES, text).value, r);
    } else if q == AskLaundryLoads {
      LaundryMovesOn(request, q, LaundryLoads, Loads(text).value, r);
    } else {
      LaundryMovesOn(request, q, IroningLoads, Loads(text).value, r);
    }
    hide MergeFields, QuantityMissing, AddOnsPatch, PositiveInteger, Choice, WithQuantity;
  }

  /** Storing an answer moves the personalise questions strictly forward. */
  lemma PersonaliseMovesOn(request: Fields, text: string)
    requires var q := NextOwnPersonalise(request);
             q < VISIT_START && PersonalisePatch(request, q, text).Some?
    ensures NextOwnPersonalise(
              MergeFields(request, PersonalisePatch(request, NextOwnPersonalise(request), text).value))
          > NextOwnPersonalise(request)
  {
    hide PersonaliseOpen, PersonalisePatch, MergeFields;
    var q := NextOwnPersonalise(request);
    forall r | PERSONALISE_START <= r <= q
      ensures !PersonaliseOpen(MergeFields(request, PersonalisePatch(request, q, text).value), r)
    {
      PersonaliseKeepsClosed(request, text, r);
    }
  }
}
