/**
 The guided questions with forms of their own: the service menu, the add-on list and the two quantities.
 (apps/api/src/messaging/messaging-quote-guided-cleaning-requirements.ts, messaging-quote-guided-personalise.ts)
 */
module InterviewServices {
  import opened Prelude
  import opened Json
  import opened InterviewBase
  import opened GuidedHome
  import opened GuidedCleaning
  import opened GuidedPostEvent
  import opened GuidedPersonalise
  import opened Interview
  import opened InterviewForms
  import InterviewAnswers
  import SubmissionInput
  import Text

  // ---- service menu --------------------------------------------------------------------------

  /** What the lines of the service menu say, and the service of the catalogue each stands for. */
  const SERVICE_LINES: seq<(string, Json)> := [
    ("Regular Home Cleaning", Str("Regular Home Cleaning")), ("Deep Cleaning", Str("Deep Cleaning")),
    ("Move-In Cleaning", Str("Move-In Cleaning")), ("Move-Out Cleaning", Str("Move-Out Cleaning")),
    ("Apartment Cleaning", Str("Apartment Cleaning")), ("Kitchen Cleaning", Str("Kitchen Cleaning")),
    ("Bathroom Sanitisation", Str("Bathroom Sanitisation")), ("Bedroom Cleaning", Str("Bedroom Cleaning")),
    ("Living Area Cleaning", Str("Living Area Cleaning")), ("Interior Window Cleaning", Str("Interior Window Cleaning")),
    ("Laundry Folding", Str("Laundry Folding")), ("Eco-Friendly Cleaning", Str("Eco-Conscious Cleaning")),
    ("Post-Renovation Cleaning", Str("Post-Renovation Cleaning")), ("Post-Event Cleaning", Str("Post-Event Cleaning")),
    ("Not sure", Null)]

  lemma ServiceLine(text: string, i: nat)
    requires i < 15 && IsNumberOf(text, i)
    ensures PrimaryMenu(text) == Some((Str(SERVICE_LINES[i].0), SERVICE_LINES[i].1))
  {
    InterviewAnswers.NumeralsToFifteen();
    if i == 14 {
    } else {
      InterviewAnswers.ChoiceReadsNumbers(PRIMARY_SERVICES, text);
      assert text != "15" by { hide Choice; }
      hide Choice, Text.Written;
      ServiceNames(i);
    }
  }

  lemma ServiceNames(i: nat)
    requires i < 14
    ensures SERVICE_LINES[i].1 == Str(PRIMARY_SERVICES[i])
    ensures SERVICE_LINES[i].0 == if i == 11 then "Eco-Friendly Cleaning" else PRIMARY_SERVICES[i]
    ensures PRIMARY_SERVICES[i] == "Eco-Conscious Cleaning" <==> i == 11
  {
    if i < 7 {
      assert i == 0 || i == 1 || i == 2 || i == 3 || i == 4 || i == 5 || i == 6;
    } else {
      assert i == 7 || i == 8 || i == 9 || i == 10 || i == 11 || i == 12 || i == 13;
    }
  }

  lemma OnlyServiceLines(text: string)
    requires PrimaryMenu(text).Some?
    ensures exists i: nat :: i < 15 && IsNumberOf(text, i)
  {
    InterviewAnswers.NumeralsToFifteen();
    if text == "15" {
      assert IsNumberOf(text, 14);
    } else {
      InterviewAnswers.ChoiceReadsNumbers(PRIMARY_SERVICES, text);
      hide Choice, Text.Written;
      var i: nat :| i < |PRIMARY_SERVICES| && IsNumberOf(text, i);
    }
  }

  /** What both parts of a service choice make of the draft. */
  function WithService(draft: Fields, website: Json, service: Json): Fields {
    PutAt(PutAt(draft, [Request, PrimaryService, WebsiteValue], website), CANONICAL, service)
  }

  lemma PutLeaf(base: Fields, field: FieldName, v: Json)
    ensures PutAt(base, [field], v) == base[field := v]
  {
  }

  lemma PutStep(base: Fields, group: FieldName, path: Path, v: Json)
    requires path != []
    ensures PutAt(base, [group] + path, v) == base[group := Obj(PutAt(Base(Get(base, group)), path, v))]
  {
    assert ([group] + path)[1..] == path;
  }

  /** A second write goes into what the first one made. */
  lemma PutInside(base: Fields, group: FieldName, inner: Fields, path: Path, v: Json)
    requires path != []
    ensures PutAt(base[group := Obj(inner)], [group] + path, v) == base[group := Obj(PutAt(inner, path, v))]
  {
    PutStep(base[group := Obj(inner)], group, path, v);
    hide PutAt;
    assert Base(Get(base[group := Obj(inner)], group)) == inner;
  }

  lemma ServicePut(draft: Fields, website: Json, service: Json)
    requires !website.Obj? && !service.Obj?
    ensures MergeDraft(draft, map[Request := Obj(map[PrimaryService := Obj(PrimaryPatch(website, service))])])
         == WithService(draft, website, service)
  {
    var request := Section(draft, Request);
    var primary := PrimaryOf(request);
    MergeNested(draft, Request, map[PrimaryService := Obj(PrimaryPatch(website, service))]);
    MergeNested(request, PrimaryService, PrimaryPatch(website, service));
    ServicePartsMerge(primary, website, service);
    hide MergeFields, Merge, PutAt, PrimaryPatch, Base, Get;
    PutStep(draft, Request, [PrimaryService, WebsiteValue], website);
    PutStep(request, PrimaryService, [WebsiteValue], website);
    PutLeaf(primary, WebsiteValue, website);
    var first := primary[WebsiteValue := website];
    PutInside(draft, Request, request[PrimaryService := Obj(first)], [PrimaryService, CanonicalService], service);
    PutInside(request, PrimaryService, first, [CanonicalService], service);
    PutLeaf(first, CanonicalService, service);
    assert [Request] + [PrimaryService, WebsiteValue] == [Request, PrimaryService, WebsiteValue];
    assert [PrimaryService] + [WebsiteValue] == [PrimaryService, WebsiteValue];
    assert [Request] + [PrimaryService, CanonicalService] == CANONICAL;
    assert [PrimaryService] + [CanonicalService] == [PrimaryService, CanonicalService];
  }

  lemma ServicePartsMerge(primary: Fields, website: Json, service: Json)
    requires !website.Obj? && !service.Obj?
    ensures MergeFields(primary, PrimaryPatch(website, service)) == primary[WebsiteValue := website][CanonicalService := service]
  {
    assert Merge(Get(primary, WebsiteValue), website) == website;
    assert Merge(Get(primary, CanonicalService), service) == service;
  }

  /** The service question takes the numbers 1 to 15, and records the line and the service it stands for. */
  lemma ServiceAnswersAreRecorded(draft: Fields, raw: Option<string>)
    requires Next(draft) == AskPrimaryService
    ensures Respond(draft, raw).Accepted? <==> exists i: nat :: i < 15 && IsNumberOf(Given(raw), i)
    ensures forall i: nat | i < 15 && IsNumberOf(Given(raw), i) ::
              Respond(draft, raw).Accepted? &&
              MergeDraft(draft, Respond(draft, raw).patch)
                == WithService(draft, Str(SERVICE_LINES[i].0), SERVICE_LINES[i].1)
  {
    CleaningTurn(draft, raw);
    assert Respond(draft, raw) == match PrimaryMenu(Given(raw))
                                  case None => Invalid(AskPrimaryService)
                                  case Some((website, service)) =>
                                    Accepted(map[Request := Obj(map[PrimaryService := Obj(PrimaryPatch(website, service))])]) by {
      hide Next, Respond, NextHome, NextOwnCleaning, PrimaryMenu, Given, Section, PrimaryPatch;
    }
    hide Next, Respond, MergeDraft, Given, WithService, IsNumberOf, PrimaryPatch;
    if PrimaryMenu(Given(raw)).Some? {
      OnlyServiceLines(Given(raw));
    }
    forall i: nat | i < 15 && IsNumberOf(Given(raw), i)
      ensures Respond(draft, raw).Accepted?
      ensures MergeDraft(draft, Respond(draft, raw).patch) == WithService(draft, Str(SERVICE_LINES[i].0), SERVICE_LINES[i].1)
    {
      ServiceLine(Given(raw), i);
      ServicePut(draft, Str(SERVICE_LINES[i].0), SERVICE_LINES[i].1);
    }
  }

  // ---- add-ons -------------------------------------------------------------------------------

  /** The lines of the add-on list, each with the service it stands for. */
  const ADD_ON_LINES: seq<(string, string)> := [
    ("Inside oven", "Inside Oven Cleaning"), ("Inside fridge", "Inside Fridge Cleaning"),
    ("Inside cupboards", "Interior Cupboard Cleaning"), ("Interior windows", "Interior Window Cleaning"),
    ("Bed making", "Bed Making"), ("Linen change", "Linen Change"),
    ("Balcony / Patio Cleaning", "Balcony / Patio Cleaning"), ("Garage sweep", "Garage Sweeping"),
    ("Extra bathroom", "Extra Bathroom Cleaning"), ("Extra refrigerator", "Extra Refrigerator"),
    ("Pet-hair treatment", "Pet-Hair Treatment")]

  /** One of each, except the patios and refrigerators that are counted next. */
  function AddOnItem(i: nat): Json
    requires i < 11
  {
    Obj(map[WebsiteValue := Str(ADD_ON_LINES[i].0), CanonicalService := Str(ADD_ON_LINES[i].1),
            Quantity := Num(if i == 6 || i == 9 then 0.0 else 1.0)])
  }

  lemma AddOnLine(key: string, i: nat)
    requires i < 11 && IsNumberOf(key, i)
    ensures !IsLaundryKey(key) && AddOnMenu(key).Some? && AddOnEntry(AddOnMenu(key).value) == AddOnItem(i)
  {
    InterviewAnswers.NumeralsToFifteen();
    hide Text.Written;
    if i < 6 {
      assert i == 0 || i == 1 || i == 2 || i == 3 || i == 4 || i == 5;
    } else {
      assert i == 6 || i == 7 || i == 8 || i == 9 || i == 10;
    }
  }

  lemma OnlyAddOnLines(key: string) returns (i: nat)
    requires AddOnMenu(key).Some?
    ensures i < 11 && IsNumberOf(key, i)
  {
    InterviewAnswers.NumeralsToFifteen();
    hide Text.Written;
    i := if key == "1" then 0 else if key == "2" then 1 else if key == "3" then 2 else if key == "4" then 3
         else if key == "5" then 4 else if key == "6" then 5 else if key == "7" then 6 else if key == "8" then 7
         else if key == "9" then 8 else if key == "10" then 9 else 10;
  }

  /** The listed numbers without the two for laundry and ironing. */
  function WithoutLaundry(keys: seq<string>): (kept: seq<string>)
    ensures forall k :: k in kept <==> k in keys && k != "12" && k != "13"
    decreases |keys|
  {
    if keys == [] then []
    else
      var front, last := WithoutLaundry(keys[..|keys| - 1]), keys[|keys| - 1];
      assert keys == keys[..|keys| - 1] + [last];
      if last == "12" || last == "13" then front else front + [last]
  }

  /** The items are those of the numbers, in their order. */
  predicate AreItemsOf(items: seq<Json>, numbers: seq<string>) {
    |items| == |numbers| &&
    forall k | 0 <= k < |items| :: forall i: nat | i < 11 && IsNumberOf(numbers[k], i) :: items[k] == AddOnItem(i)
  }

  predicate IsAddOnNumber(key: string) {
    exists i: nat :: i < 11 && IsNumberOf(key, i)
  }

  /** Entries can be made exactly when every number is on the list, and are those of the add-ons listed. */
  lemma {:induction false} EntriesAreTheListed(keys: seq<string>)
    ensures MenuEntries(keys).Some? <==> forall k | k in keys :: k == "12" || k == "13" || IsAddOnNumber(k)
    ensures MenuEntries(keys).Some? ==> AreItemsOf(MenuEntries(keys).value, WithoutLaundry(keys))
    decreases |keys|
  {
    if keys != [] {
      var front, last := keys[..|keys| - 1], keys[|keys| - 1];
      assert keys == front + [last];
      EntriesAreTheListed(front);
      EntryIsTheListed(last);
      hide AddOnItem, AddOnEntry, AddOnMenu, IsAddOnNumber, IsNumberOf;
    }
  }

  lemma EntryIsTheListed(key: string)
    ensures AddOnMenu(key).Some? <==> IsAddOnNumber(key)
    ensures forall i: nat | i < 11 && IsNumberOf(key, i) :: AddOnMenu(key).Some? && AddOnEntry(AddOnMenu(key).value) == AddOnItem(i)
    ensures IsLaundryKey(key) <==> key == "12" || key == "13"
  {
    forall i: nat | i < 11 && IsNumberOf(key, i)
      ensures AddOnMenu(key).Some? && AddOnEntry(AddOnMenu(key).value) == AddOnItem(i)
    {
      AddOnLine(key, i);
    }
    if AddOnMenu(key).Some? {
      var i := OnlyAddOnLines(key);
      assert IsNumberOf(key, i);
    }
    hide AddOnMenu, AddOnEntry, AddOnItem, IsNumberOf;
  }

  /** The numbers a reply lists: cut at commas, trimmed, each once. */
  function Listed(text: string): seq<string> {
    SubmissionInput.Distinct(TrimAll(Text.Split(text, ',')))
  }

  /** Laundry and ironing can only be asked for with regular or deep cleaning. */
  predicate MayAskForLaundry(draft: Fields) {
    TextAt(draft, CANONICAL) == Some("Regular Home Cleaning") || TextAt(draft, CANONICAL) == Some("Deep Cleaning")
  }

  /** A reply that lists numbers this draft's list shows. */
  predicate FitsTheList(draft: Fields, text: string) {
    forall k | k in Listed(text) :: IsAddOnNumber(k) || ((k == "12" || k == "13") && MayAskForLaundry(draft))
  }

  /** The draft with a place holder where loads will be asked for. */
  function WithLoads(draft: Fields, keys: seq<string>): Fields {
    var washed := if "12" in keys then PutAt(draft, [Request, Laundry, LaundryLoads], Num(0.0)) else draft;
    if "13" in keys then PutAt(washed, [Request, Laundry, IroningLoads], Num(0.0)) else washed
  }

  lemma LoadsPut(draft: Fields, laundry: bool, ironing: bool, items: seq<Json>)
    requires laundry || ironing
    ensures var patch := map[AddOns := Arr(items), Laundry := Obj(LaundryPlaceholders(laundry, ironing))];
            var base := PutAt(draft, [Request, AddOns], Arr(items));
            var washed := if laundry then PutAt(base, [Request, Laundry, LaundryLoads], Num(0.0)) else base;
            MergeDraft(draft, map[Request := Obj(patch)])
              == if ironing then PutAt(washed, [Request, Laundry, IroningLoads], Num(0.0)) else washed
  {
    var request := Section(draft, Request);
    MergeNested(draft, Request, map[AddOns := Arr(items), Laundry := Obj(LaundryPlaceholders(laundry, ironing))]);
    PlaceholdersMerge(request, items, laundry, ironing);
    hide MergeFields, PutAt, LaundryPlaceholders;
    var with, loads := request[AddOns := Arr(items)], LaundryOf(request);
    PutStep(draft, Request, [AddOns], Arr(items));
    PutLeaf(request, AddOns, Arr(items));
    assert [Request] + [AddOns] == [Request, AddOns];
    assert LaundryOf(with) == loads;
    PlaceholdersAre(loads, laundry, ironing);
    if laundry {
      OneLoadPut(draft, with, LaundryLoads);
      if ironing {
        OneLoadPut(draft, with[Laundry := Obj(loads[LaundryLoads := Num(0.0)])], IroningLoads);
        LoadsTwice(with, loads[LaundryLoads := Num(0.0)], loads[LaundryLoads := Num(0.0)][IroningLoads := Num(0.0)]);
      }
    } else {
      OneLoadPut(draft, with, IroningLoads);
    }
  }

  lemma PlaceholdersAre(loads: Fields, laundry: bool, ironing: bool)
    ensures var washed := if laundry then loads[LaundryLoads := Num(0.0)] else loads;
            loads + LaundryPlaceholders(laundry, ironing) == if ironing then washed[IroningLoads := Num(0.0)] else washed
  {
  }

  lemma OneLoadPut(draft: Fields, request: Fields, loads: FieldName)
    ensures PutAt(draft[Request := Obj(request)], [Request, Laundry, loads], Num(0.0))
         == draft[Request := Obj(request[Laundry := Obj(LaundryOf(request)[loads := Num(0.0)])])]
  {
    hide PutAt;
    PutInside(draft, Request, request, [Laundry, loads], Num(0.0));
    PutStep(request, Laundry, [loads], Num(0.0));
    PutLeaf(LaundryOf(request), loads, Num(0.0));
    assert [Request] + [Laundry, loads] == [Request, Laundry, loads] && [Laundry] + [loads] == [Laundry, loads];
  }

  lemma LoadsTwice(request: Fields, loads: Fields, later: Fields)
    ensures LaundryOf(request[Laundry := Obj(loads)]) == loads
    ensures request[Laundry := Obj(loads)][Laundry := Obj(later)] == request[Laundry := Obj(later)]
  {
  }

  lemma PlaceholdersMerge(request: Fields, items: seq<Json>, laundry: bool, ironing: bool)
    ensures var patch := map[AddOns := Arr(items), Laundry := Obj(LaundryPlaceholders(laundry, ironing))];
            MergeFields(request, patch) ==
              request[AddOns := Arr(items)][Laundry := Obj(LaundryOf(request) + LaundryPlaceholders(laundry, ironing))]
  {
    var holders := LaundryPlaceholders(laundry, ironing);
    var inner := Get(request, Laundry);
    forall k | k in holders
      ensures Merge(Get(Base(inner), k), holders[k]) == holders[k]
    {
    }
    assert Merge(inner, Obj(holders)) == Obj(LaundryOf(request) + holders);
    assert Merge(Get(request, AddOns), Arr(items)) == Arr(items);
  }

  /**
   The add-on question takes 0 or a list of the numbers shown, and records the items listed, in the order in which
   they are first mentioned, with place holders for the loads to ask for.
   */
  lemma AddOnAnswersAreRecorded(draft: Fields, raw: Option<string>)
    requires Next(draft) == AskAddOns
    ensures Respond(draft, raw).Accepted? <==> Given(raw) == "0" || FitsTheList(draft, Given(raw))
    ensures Given(raw) == "0" ==>
              MergeDraft(draft, Respond(draft, raw).patch) == PutAt(draft, Place(AskAddOns), Arr([]))
    ensures Given(raw) != "0" && Respond(draft, raw).Accepted? ==>
              exists items ::
                AreItemsOf(items, WithoutLaundry(Listed(Given(raw)))) &&
                MergeDraft(draft, Respond(draft, raw).patch)
                  == WithLoads(PutAt(draft, Place(AskAddOns), Arr(items)), Listed(Given(raw)))
  {
    InterviewAnswers.PersonaliseTurn(draft, raw);
    AddOnsDecide(draft, Given(raw));
    hide *;
    var patch := PersonalisePatch(Section(draft, Request), AskAddOns, Given(raw));
    if patch.Some? {
      AddOnsLand(draft, Given(raw));
    }
  }

  /** Which replies make a patch, and which patch. */
  lemma AddOnsDecide(draft: Fields, text: string)
    ensures var patch := PersonalisePatch(Section(draft, Request), AskAddOns, text);
            (patch.Some? <==> text == "0" || FitsTheList(draft, text)) &&
            (patch.Some? && text == "0" ==> patch.value == map[AddOns := Arr([])]) &&
            (patch.Some? && text != "0" ==>
               MenuEntries(Listed(text)).Some? &&
               var items, washed, ironed := MenuEntries(Listed(text)).value, "12" in Listed(text), "13" in Listed(text);
               patch.value == if washed || ironed
                              then map[AddOns := Arr(items), Laundry := Obj(LaundryPlaceholders(washed, ironed))]
                              else map[AddOns := Arr(items)])
  {
    InterviewAnswers.CanonicalAt(draft);
    EntriesAreTheListed(Listed(text));
    LaundryKeysAreNoAddOns();
    if forall k | k in Listed(text) :: IsAddOnNumber(k) || k == "12" || k == "13" {
      NumbersAreKeys(text);
    }
    hide Section, Canonical, TextAt, MenuEntries, IsAddOnNumber, IsKeyList;
    hide SubmissionInput.Distinct, TrimAll, Text.Split, LaundryPlaceholders, AreItemsOf, WithoutLaundry;
  }

  lemma NumbersAreKeys(text: string)
    requires forall k | k in Listed(text) :: IsAddOnNumber(k) || k == "12" || k == "13"
    ensures IsKeyList(text)
  {
    var parts := Text.Split(text, ',');
    forall i | 0 <= i < |parts|
      ensures Text.Trim(parts[i]) != "" && Text.AllDigits(Text.Trim(parts[i]))
    {
      var key := Text.Trim(parts[i]);
      assert TrimAll(parts)[i] == key;
      assert key in Listed(text);
      if IsAddOnNumber(key) {
        var n: nat :| n < 11 && IsNumberOf(key, n);
        Text.WrittenReadsBack(n + 1);
      }
    }
  }

  lemma AddOnsLand(draft: Fields, text: string)
    requires PersonalisePatch(Section(draft, Request), AskAddOns, text).Some?
    ensures var merged := MergeDraft(draft, map[Request := Obj(PersonalisePatch(Section(draft, Request), AskAddOns, text).value)]);
            if text == "0" then merged == PutAt(draft, Place(AskAddOns), Arr([]))
            else exists items :: AreItemsOf(items, WithoutLaundry(Listed(text))) &&
                                 merged == WithLoads(PutAt(draft, Place(AskAddOns), Arr(items)), Listed(text))
  {
    AddOnsDecide(draft, text);
    EntriesAreTheListed(Listed(text));
    hide PersonalisePatch, MenuEntries, Listed, FitsTheList, AreItemsOf, WithoutLaundry, MergeDraft, PutAt, LaundryPlaceholders;
    if text == "0" {
      AddOnsPut(draft, []);
    } else {
      var items := MenuEntries(Listed(text)).value;
      if "12" in Listed(text) || "13" in Listed(text) {
        LoadsPut(draft, "12" in Listed(text), "13" in Listed(text), items);
      } else {
        AddOnsPut(draft, items);
      }
    }
  }

  lemma LaundryKeysAreNoAddOns()
    ensures !IsAddOnNumber("12") && !IsAddOnNumber("13")
  {
    EntryIsTheListed("12");
    EntryIsTheListed("13");
  }

  lemma AddOnsPut(draft: Fields, items: seq<Json>)
    ensures MergeDraft(draft, map[Request := Obj(map[AddOns := Arr(items)])]) == PutAt(draft, [Request, AddOns], Arr(items))
  {
    ChainPuts(draft, [Request, AddOns], Arr(items));
    InterviewAnswers.ChainOfTwo(Request, AddOns, Arr(items));
  }

  // ---- quantities ----------------------------------------------------------------------------

  predicate IsItemOf(item: Json, service: string) {
    item.Obj? && Get(item.fields, CanonicalService) == Some(Str(service))
  }

  /** Every item of the service has the quantity, the others are what they were. */
  predicate CountsItems(items: seq<Json>, service: string, n: nat, items': seq<Json>) {
    |items'| == |items| &&
    forall i | 0 <= i < |items| ::
      items'[i] == if IsItemOf(items[i], service) then Obj(items[i].fields[Quantity := Num(n as real)]) else items[i]
  }

  function ItemsAt(draft: Fields): seq<Json> {
    match At(Some(Obj(draft)), [Request, AddOns])
    case Some(Arr(items)) => items
    case _ => []
  }

  lemma ItemsAtAreThose(draft: Fields)
    ensures ItemsAt(draft) == AddOnsOf(Section(draft, Request))
  {
    assert [Request, AddOns][1..] == [AddOns] && [AddOns][1..] == [];
    assert At(Some(Obj(draft)), [Request, AddOns]) == At(Get(draft, Request), [AddOns]);
    assert At(Get(draft, Request), [AddOns]) == At(Get(Section(draft, Request), AddOns), []);
  }

  /** A quantity question takes a whole number from one, and records it in the items it asked about. */
  lemma QuantityAnswersAreRecorded(draft: Fields, raw: Option<string>)
    requires Next(draft) == AskExtraRefrigeratorQuantity || Next(draft) == AskBalconyPatioQuantity
    ensures var service := if Next(draft) == AskExtraRefrigeratorQuantity then "Extra Refrigerator" else "Balcony / Patio Cleaning";
            var text := Given(raw);
            (Respond(draft, raw).Accepted? <==>
               text != "" && Text.AllDigits(text) && 1 <= Text.Decimal(text) <= MAX_SAFE_INTEGER) &&
            (Respond(draft, raw).Accepted? ==>
               exists items' ::
                 CountsItems(ItemsAt(draft), service, Text.Decimal(text), items') &&
                 MergeDraft(draft, Respond(draft, raw).patch) == PutAt(draft, Place(Next(draft)), Arr(items')))
  {
    InterviewAnswers.PersonaliseTurn(draft, raw);
    QuantityDecides(draft, Next(draft), Given(raw));
    hide *;
  }

  lemma QuantityDecides(draft: Fields, q: Question, text: string)
    requires q == AskExtraRefrigeratorQuantity || q == AskBalconyPatioQuantity
    ensures var service := if q == AskExtraRefrigeratorQuantity then "Extra Refrigerator" else "Balcony / Patio Cleaning";
            var patch := PersonalisePatch(Section(draft, Request), q, text);
            (patch.Some? <==> text != "" && Text.AllDigits(text) && 1 <= Text.Decimal(text) <= MAX_SAFE_INTEGER) &&
            (patch.Some? ==>
               exists items' ::
                 CountsItems(ItemsAt(draft), service, Text.Decimal(text), items') &&
                 MergeDraft(draft, map[Request := Obj(patch.value)]) == PutAt(draft, Place(q), Arr(items')))
  {
    ItemsAtAreThose(draft);
    var items := ItemsAt(draft);
    var service := if q == AskExtraRefrigeratorQuantity then EXTRA_REFRIGERATOR else BALCONY_PATIO;
    hide MergeDraft, Section, PutAt, ItemsAt, Text.Decimal;
    if PersonalisePatch(Section(draft, Request), q, text).Some? {
      var items' := WithQuantity(items, service, Text.Decimal(text));
      assert CountsItems(items, service, Text.Decimal(text), items');
      AddOnsPut(draft, items');
    }
  }
}
