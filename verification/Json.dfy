/**
 JSON values as the Messaging Quote code stores them, and the recursive merge
 that feeds every guided answer into the stored draft.

 Objects are finite maps with own keys only. A field name the code mentions has
 its own constructor; every other key is `Other`.
 */
module Json {
  import opened Prelude

  datatype FieldName =
    // draft fact groups
    | Property | Request | Visit | Access | Household | Safety | Notes | Customer | Photos
    | MessagingMediaAssetIds
    // property
    | PropertyType | AddressLine1 | Suburb | Country | FloorSize | Bedrooms | Bathrooms | LivingAreas
    | ExactFloor | BuildingAccess | OutdoorArea | EstateClassification
    // request
    | PrimaryService | WebsiteValue | CanonicalService | Frequency | CustomFrequencyNote | HomeCondition
    | PostEvent | AddOns | Quantity | EcoFriendlyProducts | Laundry | Facilities | LaundryLoads | IroningLoads
    // request.postEvent
    | EventType | VenueType | GuestBand | KitchenSubstantiallyUsed | Dishwashing | OutdoorAreas | WasteLevel
    | SignificantOrdinarySoiling | LateNightOrOvernight | BulkWasteRemovalRequested
    | SpecialistContamination | SpecialistCarpetOrUpholstery | ComplexVenue
    // visit, access, household
    | PreferredDate | AlternativeDate | PreferredTime | Flexibility | Urgency | RecurringNotes
    | ComplexAccess | SecurityInstructions | Parking | KeyHandover | KeyHandoverDetails | SomeonePresent
    | HasPets | PetType | PetTemperament
    // safety, notes, customer
    | OffLimitsAreas | FragileItems | ProductRestrictions | AllergiesOrSensitivities | ExistingDamage
    | AttentionAreas | RenovationDust | ApplianceNotes | AdditionalNotes
    | FullName | Email | Mobile | PreferredContact
    // stored snapshot and structured submission
    | Version | Draft | HumanReviewRequired | ReviewSummaryMessageId | ConfirmationMessageId | ConfirmedAt
    | SubmissionKey | SubmittedQuoteId
    | SchemaVersion | Source | SubmittedAt | MessagingProvenance | Channel | Provider | ConversationId
    | QuotePhotoTransferKeys
    | Other(text: string)

  type Fields = map<FieldName, Json>

  datatype Json =
    | Null
    | Bool(flag: bool)
    | Num(number: real)
    | Str(text: string)
    | Arr(items: seq<Json>)
    | Obj(fields: Fields)

  /** The fields of a plain object; anything else (or undefined) counts as `{}`. */
  function Base(value: Option<Json>): Fields {
    if value.Some? && value.value.Obj? then value.value.fields else map[]
  }

  /** `mergeProgressValue`: objects merge key by key, every other patch value replaces. */
  function Merge(current: Option<Json>, patch: Json): Json
    decreases patch
  {
    if patch.Obj? then
      var base := Base(current);
      Obj(map k | k in base.Keys + patch.fields.Keys ::
            if k in patch.fields then Merge(Get(base, k), patch.fields[k]) else base[k])
    else
      patch
  }

  /** The source's loop over the patch entries, filling a copy of the base object. */
  method MergeProgressValue(current: Option<Json>, patch: Json) returns (merged: Json)
    ensures merged == Merge(current, patch)
    decreases patch
  {
    if !patch.Obj? {
      return patch;
    }
    var base := Base(current);
    var fields := base;
    var pending := patch.fields.Keys;
    while pending != {}
      invariant pending <= patch.fields.Keys
      invariant fields.Keys == base.Keys + (patch.fields.Keys - pending)
      invariant forall k | k in fields ::
          fields[k] == if k in patch.fields && k !in pending
                       then Merge(Get(base, k), patch.fields[k]) else base[k]
      decreases pending
    {
      var key :| key in pending;
      var value := MergeProgressValue(Get(base, key), patch.fields[key]);
      fields := fields[key := value];
      pending := pending - {key};
    }
    merged := Obj(fields);
  }

  /** Merging the same patch twice is merging it once. */
  lemma {:induction false} MergeIdempotent(current: Option<Json>, patch: Json)
    ensures Merge(Some(Merge(current, patch)), patch) == Merge(current, patch)
    decreases patch
  {
    if patch.Obj? {
      var base := Base(current);
      forall k | k in patch.fields
        ensures Merge(Some(Merge(Get(base, k), patch.fields[k])), patch.fields[k])
             == Merge(Get(base, k), patch.fields[k])
      {
        MergeIdempotent(Get(base, k), patch.fields[k]);
      }
    }
  }

  type Path = seq<FieldName>

  /** The value reached by a path of object keys; undefined once it leaves the objects. */
  function At(value: Option<Json>, path: Path): Option<Json>
    decreases |path|
  {
    if path == [] then value else At(Get(Base(value), path[0]), path[1..])
  }

  /** The patch has nothing to say about this path: it never replaces a value on the way. */
  predicate Untouched(patch: Json, path: Path)
    decreases |path|
  {
    path != [] && patch.Obj? &&
    (path[0] in patch.fields ==> Untouched(patch.fields[path[0]], path[1..]))
  }

  /** An answer cannot erase a fact collected elsewhere. */
  lemma {:induction false} MergeKeepsUntouchedPaths(current: Option<Json>, patch: Json, path: Path)
    requires Untouched(patch, path)
    ensures At(Some(Merge(current, patch)), path) == At(current, path)
    decreases |path|
  {
    var base, k := Base(current), path[0];
    if k in patch.fields {
      MergeKeepsUntouchedPaths(Get(base, k), patch.fields[k], path[1..]);
    }
  }

  lemma {:induction false} NothingBelowUndefined(path: Path)
    ensures At(None, path) == None
    decreases |path|
  {
    if path != [] {
      NothingBelowUndefined(path[1..]);
    }
  }

  /** Every leaf of the patch is in the result. */
  lemma {:induction false} MergeInstallsLeaves(current: Option<Json>, patch: Json, path: Path)
    requires At(Some(patch), path).Some? && !At(Some(patch), path).value.Obj?
    ensures At(Some(Merge(current, patch)), path) == At(Some(patch), path)
    decreases |path|
  {
    if path != [] {
      NothingBelowUndefined(path[1..]);
      MergeInstallsLeaves(Get(Base(current), path[0]), patch.fields[path[0]], path[1..]);
    }
  }

  /** Nowhere does `first` put a leaf (such as a null reset) where `second` has an object. */
  predicate Composable(first: Json, second: Json)
    decreases second
  {
    second.Obj? ==>
      first.Obj? &&
      forall k | k in second.fields :: k in first.fields ==> Composable(first.fields[k], second.fields[k])
  }

  lemma {:induction false} ComposableCompose(current: Option<Json>, first: Json, second: Json)
    requires Composable(first, second)
    ensures Merge(Some(Merge(current, first)), second) == Merge(current, Merge(Some(first), second))
    decreases second
  {
    if second.Obj? {
      var base := Base(current);
      forall k | k in first.fields && k in second.fields
        ensures Merge(Some(Merge(Get(base, k), first.fields[k])), second.fields[k])
             == Merge(Get(base, k), Merge(Some(first.fields[k]), second.fields[k]))
      {
        ComposableCompose(Get(base, k), first.fields[k], second.fields[k]);
      }
      forall k | k in second.fields && k !in first.fields
        ensures Merge(Get(base, k), second.fields[k]) == Merge(Get(base, k), Merge(None, second.fields[k]))
      {
        MergeIntoNothing(Get(base, k), second.fields[k]);
      }
      var left := Merge(Some(Merge(current, first)), second);
      var right := Merge(current, Merge(Some(first), second));
      assert left.fields.Keys == right.fields.Keys;
      assert left.fields == right.fields;
    }
  }

  /** A patch first merged into nothing acts like the patch itself. */
  lemma {:induction false} MergeIntoNothing(current: Option<Json>, patch: Json)
    ensures Merge(current, Merge(None, patch)) == Merge(current, patch)
    decreases patch
  {
    if patch.Obj? {
      var base := Base(current);
      forall k | k in patch.fields
        ensures Merge(Get(base, k), Merge(None, patch.fields[k])) == Merge(Get(base, k), patch.fields[k])
      {
        MergeIntoNothing(Get(base, k), patch.fields[k]);
      }
      assert Merge(current, Merge(None, patch)).fields == Merge(current, patch).fields;
    }
  }

  /** A key longer than every key of a finite set. */
  lemma {:induction false} LongerName(names: set<FieldName>) returns (text: string)
    ensures forall n | n in names && n.Other? :: |n.text| < |text|
    decreases names
  {
    if names == {} {
      text := "";
    } else {
      var n :| n in names;
      text := LongerName(names - {n});
      if n.Other? {
        text := text + n.text + "x";
      }
    }
  }

  /** Where composability fails, some stored value tells the two orders apart. */
  lemma {:induction false} NotComposableWitness(first: Json, second: Json) returns (current: Json)
    requires !Composable(first, second)
    ensures Merge(Some(Merge(Some(current), first)), second) != Merge(Some(current), Merge(Some(first), second))
    decreases second
  {
    if !first.Obj? {
      var text := LongerName(second.fields.Keys);
      var k := Other(text);
      current := Obj(map[k := Null]);
      assert k !in Merge(Some(Merge(Some(current), first)), second).fields;
      assert k in Merge(Some(current), Merge(Some(first), second)).fields;
    } else {
      var k :| k in second.fields && k in first.fields && !Composable(first.fields[k], second.fields[k]);
      var inner := NotComposableWitness(first.fields[k], second.fields[k]);
      current := Obj(map[k := inner]);
      assert Merge(Some(Merge(Some(current), first)), second).fields[k]
          == Merge(Some(Merge(Some(inner), first.fields[k])), second.fields[k]);
      assert Merge(Some(current), Merge(Some(first), second)).fields[k]
          == Merge(Some(inner), Merge(Some(first.fields[k]), second.fields[k]));
    }
  }

  /** Two patches may be merged into one exactly when no leaf meets an object. */
  lemma PatchesComposeExactlyWhen(first: Json, second: Json)
    ensures (forall current: Option<Json> ::
               Merge(Some(Merge(current, first)), second) == Merge(current, Merge(Some(first), second)))
       <==> Composable(first, second)
  {
    if Composable(first, second) {
      forall current: Option<Json> {
        ComposableCompose(current, first, second);
      }
    } else {
      var current := NotComposableWitness(first, second);
      assert Merge(Some(Merge(Some(current), first)), second) != Merge(Some(current), Merge(Some(first), second));
    }
  }
}
