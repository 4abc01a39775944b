/**
 The Messaging Quote snapshot: phase, transitions, stored form.
 (apps/api/src/messaging/messaging-quote-state.ts, messaging-quote-flow.ts,
 messaging-quote-draft-validation.ts)
 */
module QuoteState {
  import opened Prelude
  import opened Json
  import Text

  /** The parts of the program the model does not look into, as arbitrary functions. */
  datatype Rules = Rules(
    validate: Json -> seq<Path>,        // paths of the errors of the canonical field validator
    digest: string -> string,           // SHA-256, hexadecimal
    iso: int -> string,                 // Date.toISOString
    instant: string -> Option<int>,     // new Date(text).getTime(), None for NaN
    summary: Fields -> string           // the review summary text of a draft
  )

  /** Digests are solid text and do not collide; ISO text reads back as the instant it was written from. */
  ghost predicate Lawful(rules: Rules) {
    (forall a, b :: rules.digest(a) == rules.digest(b) ==> a == b) &&
    (forall a :: rules.digest(a) != "" && Text.Trimmed(rules.digest(a))) &&
    (forall t :: rules.instant(rules.iso(t)) == Some(t)) &&
    rules.instant("") == None
  }

  function SolidText(text: string): string {
    "<" + text + ">"
  }

  function SpelledInstant(t: int): string {
    if t < 0 then "-" + seq(-t, _ => '.') else "+" + seq(t, _ => '.')
  }

  function ReadInstant(text: string): Option<int> {
    if text == "" then None else if text[0] == '-' then Some(1 - |text|) else Some(|text| - 1)
  }

  lemma SolidTextIsSolid(a: string, b: string)
    ensures SolidText(a) == SolidText(b) ==> a == b
    ensures SolidText(a) != "" && Text.Trimmed(SolidText(a))
  {
    assert SolidText(a)[1..|a| + 1] == a && SolidText(b)[1..|b| + 1] == b;
  }

  lemma InstantsReadBack(t: int)
    ensures ReadInstant(SpelledInstant(t)) == Some(t)
  {
  }

  /** Whatever validation and the summary text are, there are lawful rules with them. */
  lemma LawfulRulesExist(validate: Json -> seq<Path>, summary: Fields -> string) returns (rules: Rules)
    ensures Lawful(rules) && rules.validate == validate && rules.summary == summary
  {
    hide SolidText, SpelledInstant, Text.Trimmed;
    rules := Rules(validate, SolidText, SpelledInstant, ReadInstant, summary);
    forall a, b
      ensures rules.digest(a) == rules.digest(b) ==> a == b
      ensures rules.digest(a) != "" && Text.Trimmed(rules.digest(a))
    {
      SolidTextIsSolid(a, b);
    }
    forall t
      ensures rules.instant(rules.iso(t)) == Some(t)
    {
      InstantsReadBack(t);
    }
  }

  datatype Snapshot = Snapshot(
    version: nat,
    draft: Fields,
    humanReviewRequired: bool,
    reviewSummaryMessageId: Option<string>,
    confirmationMessageId: Option<string>,
    confirmedAt: Option<string>,
    submissionKey: Option<string>,
    submittedQuoteId: Option<string>
  )

  datatype Phase = Collecting | Review | ReadyToSubmit | Submitting | HumanReview | Submitted

  datatype Conflict =
    | VersionInvalid | PayloadMissing | PayloadInvalid | PayloadInconsistent
    | ConfirmationInconsistent | TimestampInvalid
    | SubmittedFactsFrozen | SubmissionStarted
    | MessageIdentityRequired | NotInReview | NoReviewSummary
    | SubmissionIdentityRequired | DifferentReservation | NotConfirmed
    | QuoteIdentityRequired | LinkedToDifferentQuote | NotReserved
    | Stale(current: nat) | AuthorityChanged

  const Initial := Snapshot(0, map[], false, None, None, None, None, None)

  const FactGroups: seq<FieldName> :=
    [Property, Request, Visit, Access, Household, Safety, Notes, FieldName.Customer, Photos]

  /** JavaScript truthiness of `string | null`. */
  predicate Truthy(s: Option<string>) {
    s.Some? && s.value != ""
  }

  predicate Present(fields: Fields, key: FieldName) {
    key in fields && fields[key] != Null
  }

  predicate GroupIncomplete(rules: Rules, draft: Fields, key: FieldName) {
    !Present(draft, key) ||
    exists i | 0 <= i < |rules.validate(Obj(draft))| ::
      var path := rules.validate(Obj(draft))[i];
      path != [] && path[0] == key
  }

  function IncompleteAmong(rules: Rules, draft: Fields, groups: seq<FieldName>): (r: seq<FieldName>)
    ensures r == [] <==> forall g | g in groups :: !GroupIncomplete(rules, draft, g)
    ensures forall g :: g in r <==> g in groups && GroupIncomplete(rules, draft, g)
  {
    if groups == [] then []
    else
      (if GroupIncomplete(rules, draft, groups[0]) then [groups[0]] else []) +
      IncompleteAmong(rules, draft, groups[1..])
  }

  predicate Complete(rules: Rules, draft: Fields) {
    IncompleteAmong(rules, draft, FactGroups) == []
  }

  /** `evaluateMessagingQuoteFlow`, phase only. */
  function FlowPhase(rules: Rules, draft: Fields, humanReviewRequired: bool, customerConfirmed: bool,
                     submissionKey: Option<string>, submittedQuoteId: Option<string>): Phase {
    if Truthy(submittedQuoteId) then Submitted
    else if Truthy(submissionKey) then Submitting
    else if humanReviewRequired then HumanReview
    else if !Complete(rules, draft) then Collecting
    else if !customerConfirmed then Review
    else ReadyToSubmit
  }

  predicate CustomerConfirmed(s: Snapshot) {
    Truthy(s.confirmationMessageId) && Truthy(s.confirmedAt)
  }

  function PhaseOf(rules: Rules, s: Snapshot): Phase {
    FlowPhase(rules, s.draft, s.humanReviewRequired, CustomerConfirmed(s), s.submissionKey, s.submittedQuoteId)
  }

  // ---- transitions -------------------------------------------------------------------------

  function UpdateDraft(s: Snapshot, patch: Fields): Result<Snapshot, Conflict> {
    if Truthy(s.submittedQuoteId) then Err(SubmittedFactsFrozen)
    else if Truthy(s.submissionKey) then Err(SubmissionStarted)
    else Ok(s.(version := s.version + 1,
               draft := Merge(Some(Obj(s.draft)), Obj(patch)).fields,
               reviewSummaryMessageId := None, confirmationMessageId := None, confirmedAt := None))
  }

  function SetHumanReview(s: Snapshot, required: bool): Result<Snapshot, Conflict> {
    if Truthy(s.submittedQuoteId) && required then Err(SubmittedFactsFrozen)
    else if Truthy(s.submissionKey) then Err(SubmissionStarted)
    else
      var next := s.(version := s.version + 1, humanReviewRequired := required);
      Ok(if required
         then next.(reviewSummaryMessageId := None, confirmationMessageId := None, confirmedAt := None)
         else next)
  }

  function PresentReview(rules: Rules, s: Snapshot, messageId: string): Result<Snapshot, Conflict> {
    var id := Text.Trim(messageId);
    if id == "" then Err(MessageIdentityRequired)
    else if PhaseOf(rules, s) != Review then Err(NotInReview)
    else Ok(s.(version := s.version + 1, reviewSummaryMessageId := Some(id),
               confirmationMessageId := None, confirmedAt := None))
  }

  function ConfirmReview(rules: Rules, s: Snapshot, messageId: string, at: int): Result<Snapshot, Conflict> {
    var id := Text.Trim(messageId);
    if !Truthy(s.reviewSummaryMessageId) then Err(NoReviewSummary)
    else if PhaseOf(rules, s) != Review then Err(NotInReview)
    else if id == "" then Err(MessageIdentityRequired)
    else Ok(s.(version := s.version + 1, confirmationMessageId := Some(id), confirmedAt := Some(rules.iso(at))))
  }

  function BeginSubmission(rules: Rules, s: Snapshot, submissionKey: string): Result<Snapshot, Conflict> {
    var key := Text.Trim(submissionKey);
    if key == "" then Err(SubmissionIdentityRequired)
    else if PhaseOf(rules, s) == Submitting then
      if s.submissionKey == Some(key) then Ok(s) else Err(DifferentReservation)
    else if PhaseOf(rules, s) != ReadyToSubmit then Err(NotConfirmed)
    else Ok(s.(version := s.version + 1, submissionKey := Some(key)))
  }

  function MarkSubmitted(rules: Rules, s: Snapshot, quoteId: string): Result<Snapshot, Conflict> {
    var id := Text.Trim(quoteId);
    if id == "" then Err(QuoteIdentityRequired)
    else if PhaseOf(rules, s) == Submitted then
      if s.submittedQuoteId == Some(id) then Ok(s) else Err(LinkedToDifferentQuote)
    else if PhaseOf(rules, s) != Submitting || !Truthy(s.submissionKey) then Err(NotReserved)
    else Ok(s.(version := s.version + 1, submittedQuoteId := Some(id)))
  }

  datatype Command =
    | DoUpdateDraft(patch: Fields)
    | DoSetHumanReview(required: bool)
    | DoPresentReview(messageId: string)
    | DoConfirm(messageId: string, at: int)
    | DoBegin(submissionKey: string)
    | DoMarkSubmitted(quoteId: string)

  function Apply(rules: Rules, s: Snapshot, command: Command): Result<Snapshot, Conflict> {
    match command
    case DoUpdateDraft(patch) => UpdateDraft(s, patch)
    case DoSetHumanReview(required) => SetHumanReview(s, required)
    case DoPresentReview(id) => PresentReview(rules, s, id)
    case DoConfirm(id, at) => ConfirmReview(rules, s, id, at)
    case DoBegin(key) => BeginSubmission(rules, s, key)
    case DoMarkSubmitted(id) => MarkSubmitted(rules, s, id)
  }

  // ---- what every transition keeps ---------------------------------------------------------

  /** No marker is the empty string, and the confirmation timestamp is a date. */
  ghost predicate WellFormed(rules: Rules, s: Snapshot) {
    s.reviewSummaryMessageId != Some("") && s.confirmationMessageId != Some("") &&
    s.submissionKey != Some("") && s.submittedQuoteId != Some("") &&
    (s.confirmationMessageId.Some? <==> s.confirmedAt.Some?) &&
    (s.confirmedAt.Some? ==> exists t :: s.confirmedAt == Some(rules.iso(t)))
  }

  /** linked => reserved => confirmed => reviewed => complete and not under human review */
  ghost predicate Backbone(rules: Rules, s: Snapshot) {
    WellFormed(rules, s) &&
    (s.submittedQuoteId.Some? ==> s.submissionKey.Some?) &&
    (s.submissionKey.Some? ==> s.confirmationMessageId.Some?) &&
    (s.confirmationMessageId.Some? ==> s.reviewSummaryMessageId.Some?) &&
    (s.reviewSummaryMessageId.Some? ==> Complete(rules, s.draft) && !s.humanReviewRequired)
  }

  lemma TransitionsKeepBackbone(rules: Rules, s: Snapshot, command: Command)
    requires Lawful(rules) && Backbone(rules, s)
    ensures var r := Apply(rules, s, command);
            r.Ok? ==> Backbone(rules, r.value) && (r.value == s || r.value.version == s.version + 1)
  {
    hide Complete, Merge, Text.Trim;
    if command.DoConfirm? {
      IsoIsTruthy(rules, command.at);
    }
    if s.confirmedAt.Some? {
      var t :| s.confirmedAt == Some(rules.iso(t));
      IsoIsTruthy(rules, t);
    }
    hide Lawful;
  }

  lemma IsoIsTruthy(rules: Rules, t: int)
    requires Lawful(rules)
    ensures rules.iso(t) != ""
  {
    assert rules.instant(rules.iso(t)) == Some(t);
  }

  /** Once reserved, the only change left is the link, and once linked there is none. */
  lemma ReservedIsFrozen(rules: Rules, s: Snapshot, command: Command)
    requires Backbone(rules, s) && s.submissionKey.Some?
    ensures var r := Apply(rules, s, command);
            r.Ok? ==>
              r.value == s ||
              (s.submittedQuoteId.None? && command.DoMarkSubmitted? &&
               r.value == s.(version := s.version + 1, submittedQuoteId := r.value.submittedQuoteId) &&
               r.value.submittedQuoteId == Some(Text.Trim(command.quoteId)))
  {
  }

  /** The phase says exactly which markers a snapshot on the backbone carries. */
  lemma PhaseReadsMarkers(rules: Rules, s: Snapshot)
    requires Lawful(rules) && Backbone(rules, s)
    ensures PhaseOf(rules, s) == Submitted <==> s.submittedQuoteId.Some?
    ensures PhaseOf(rules, s) == Submitting <==> s.submissionKey.Some? && s.submittedQuoteId.None?
    ensures PhaseOf(rules, s) == ReadyToSubmit <==> s.confirmationMessageId.Some? && s.submissionKey.None?
    ensures PhaseOf(rules, s) == Review <==>
              s.confirmationMessageId.None? && Complete(rules, s.draft) && !s.humanReviewRequired
    ensures CustomerConfirmed(s) <==> s.confirmationMessageId.Some?
  {
    if s.confirmedAt.Some? {
      var t :| s.confirmedAt == Some(rules.iso(t));
      IsoIsTruthy(rules, t);
    }
  }

  /** Which phase each accepted command leads to; refused commands change nothing. */
  lemma CommandsFollowThePhases(rules: Rules, s: Snapshot, command: Command)
    requires Lawful(rules) && Backbone(rules, s)
    ensures var r, p := Apply(rules, s, command), PhaseOf(rules, s);
            r.Ok? ==>
              var q := PhaseOf(rules, r.value);
              match command
              case DoUpdateDraft(_) => p !in {Submitting, Submitted} && q in {Collecting, Review, HumanReview}
              case DoSetHumanReview(required) =>
                p !in {Submitting, Submitted} && (required <==> q == HumanReview)
              case DoPresentReview(_) => p == Review && q == Review && r.value.reviewSummaryMessageId.Some?
              case DoConfirm(_, _) => p == Review && s.reviewSummaryMessageId.Some? && q == ReadyToSubmit
              case DoBegin(_) => p in {ReadyToSubmit, Submitting} && q == Submitting
              case DoMarkSubmitted(_) => p in {Submitting, Submitted} && q == Submitted
  {
    TransitionsKeepBackbone(rules, s, command);
    PhaseReadsMarkers(rules, s);
    var r := Apply(rules, s, command);
    if r.Ok? {
      PhaseReadsMarkers(rules, r.value);
    }
  }

  /** A draft is complete exactly when every fact group is there and no validation error lies inside one. */
  lemma CompleteExactlyWhen(rules: Rules, draft: Fields)
    ensures Complete(rules, draft) <==>
              (forall g | g in FactGroups :: g in draft && draft[g] != Null) &&
              (forall path | path in rules.validate(Obj(draft)) && path != [] :: path[0] !in FactGroups)
  {
    var errors := rules.validate(Obj(draft));
    if Complete(rules, draft) {
      forall g | g in FactGroups
        ensures g in draft && draft[g] != Null
      {
        assert !GroupIncomplete(rules, draft, g);
      }
      forall path | path in errors && path != []
        ensures path[0] !in FactGroups
      {
        var i :| 0 <= i < |errors| && errors[i] == path;
        assert path[0] in FactGroups ==> !GroupIncomplete(rules, draft, path[0]);
      }
    }
    if (forall g | g in FactGroups :: g in draft && draft[g] != Null) &&
       (forall path | path in errors && path != [] :: path[0] !in FactGroups)
    {
      forall g | g in FactGroups
        ensures !GroupIncomplete(rules, draft, g)
      {
        assert g in draft && draft[g] != Null;
        assert forall i | 0 <= i < |errors| :: errors[i] in errors;
      }
    }
    hide IncompleteAmong;
  }

  /** What each refusal says about the snapshot it refused to change. */
  predicate IsConflictOf(rules: Rules, s: Snapshot, command: Command, conflict: Conflict) {
    match conflict
    case SubmittedFactsFrozen =>
      Truthy(s.submittedQuoteId) && (command.DoUpdateDraft? || (command.DoSetHumanReview? && command.required))
    case SubmissionStarted => Truthy(s.submissionKey) && (command.DoUpdateDraft? || command.DoSetHumanReview?)
    case MessageIdentityRequired =>
      (command.DoPresentReview? && Text.Trim(command.messageId) == "") ||
      (command.DoConfirm? && Text.Trim(command.messageId) == "")
    case NotInReview => (command.DoPresentReview? || command.DoConfirm?) && PhaseOf(rules, s) != Review
    case NoReviewSummary => command.DoConfirm? && !Truthy(s.reviewSummaryMessageId)
    case SubmissionIdentityRequired => command.DoBegin? && Text.Trim(command.submissionKey) == ""
    case DifferentReservation =>
      command.DoBegin? && PhaseOf(rules, s) == Submitting && s.submissionKey != Some(Text.Trim(command.submissionKey))
    case NotConfirmed =>
      command.DoBegin? && PhaseOf(rules, s) != ReadyToSubmit && PhaseOf(rules, s) != Submitting
    case QuoteIdentityRequired => command.DoMarkSubmitted? && Text.Trim(command.quoteId) == ""
    case LinkedToDifferentQuote =>
      command.DoMarkSubmitted? && PhaseOf(rules, s) == Submitted && s.submittedQuoteId != Some(Text.Trim(command.quoteId))
    case NotReserved =>
      command.DoMarkSubmitted? && PhaseOf(rules, s) != Submitted &&
      (PhaseOf(rules, s) != Submitting || !Truthy(s.submissionKey))
    case _ => false
  }

  lemma ConflictsNameTheirCause(rules: Rules, s: Snapshot, command: Command)
    ensures var r := Apply(rules, s, command);
            r.Err? ==> IsConflictOf(rules, s, command, r.error)
  {
    hide PhaseOf, Merge, Text.Trim;
  }

  /** The new draft holds every leaf of the patch, and the stored value wherever the patch has nothing to say. */
  ghost predicate TakesThePatch(draft: Fields, patch: Fields, draft': Fields) {
    (forall path :: Untouched(Obj(patch), path) ==> At(Some(Obj(draft')), path) == At(Some(Obj(draft)), path)) &&
    (forall path :: At(Some(Obj(patch)), path).Some? && !At(Some(Obj(patch)), path).value.Obj? ==>
       At(Some(Obj(draft')), path) == At(Some(Obj(patch)), path))
  }

  lemma UpdateTakesThePatch(s: Snapshot, patch: Fields)
    requires UpdateDraft(s, patch).Ok?
    ensures TakesThePatch(s.draft, patch, UpdateDraft(s, patch).value.draft)
  {
    var merged := Merge(Some(Obj(s.draft)), Obj(patch));
    assert merged == Obj(UpdateDraft(s, patch).value.draft);
    forall path | Untouched(Obj(patch), path)
      ensures At(Some(merged), path) == At(Some(Obj(s.draft)), path)
    {
      MergeKeepsUntouchedPaths(Some(Obj(s.draft)), Obj(patch), path);
    }
    forall path | At(Some(Obj(patch)), path).Some? && !At(Some(Obj(patch)), path).value.Obj?
      ensures At(Some(merged), path) == At(Some(Obj(patch)), path)
    {
      MergeInstallsLeaves(Some(Obj(s.draft)), Obj(patch), path);
    }
    hide Merge, At, Untouched;
  }

  /** The whole new snapshot of an accepted command; an update is told by what it does to the draft. */
  lemma CommandEffects(rules: Rules, s: Snapshot, command: Command)
    ensures var r := Apply(rules, s, command);
            r.Ok? ==>
              var t := r.value;
              match command
              case DoUpdateDraft(patch) =>
                TakesThePatch(s.draft, patch, t.draft) &&
                t == s.(version := s.version + 1, draft := t.draft, reviewSummaryMessageId := None,
                        confirmationMessageId := None, confirmedAt := None)
              case DoSetHumanReview(required) =>
                t == (if required
                      then s.(version := s.version + 1, humanReviewRequired := true, reviewSummaryMessageId := None,
                              confirmationMessageId := None, confirmedAt := None)
                      else s.(version := s.version + 1, humanReviewRequired := false))
              case DoPresentReview(id) =>
                PhaseOf(rules, s) == Review &&
                t == s.(version := s.version + 1, reviewSummaryMessageId := Some(Text.Trim(id)),
                        confirmationMessageId := None, confirmedAt := None)
              case DoConfirm(id, at) =>
                PhaseOf(rules, s) == Review && s.reviewSummaryMessageId.Some? &&
                t == s.(version := s.version + 1, confirmationMessageId := Some(Text.Trim(id)),
                        confirmedAt := Some(rules.iso(at)))
              case DoBegin(key) =>
                t == s ||
                (PhaseOf(rules, s) == ReadyToSubmit &&
                 t == s.(version := s.version + 1, submissionKey := Some(Text.Trim(key))))
              case DoMarkSubmitted(id) =>
                t == s || t == s.(version := s.version + 1, submittedQuoteId := Some(Text.Trim(id)))
  {
    if command.DoUpdateDraft? && UpdateDraft(s, command.patch).Ok? {
      UpdateTakesThePatch(s, command.patch);
    }
    hide PhaseOf, Merge, Text.Trim, TakesThePatch;
  }

  /** Which commands are accepted on a sound snapshot, by its phase: every other one is refused. */
  lemma AcceptedExactlyWhen(rules: Rules, s: Snapshot, command: Command)
    requires Lawful(rules) && Backbone(rules, s)
    ensures var p := PhaseOf(rules, s);
            Apply(rules, s, command).Ok? <==>
              match command
              case DoUpdateDraft(_) => p != Submitting && p != Submitted
              case DoSetHumanReview(_) => p != Submitting && p != Submitted
              case DoPresentReview(id) => p == Review && Text.Trim(id) != ""
              case DoConfirm(id, _) => p == Review && s.reviewSummaryMessageId.Some? && Text.Trim(id) != ""
              case DoBegin(key) =>
                Text.Trim(key) != "" && (p == ReadyToSubmit || (p == Submitting && s.submissionKey == Some(Text.Trim(key))))
              case DoMarkSubmitted(id) =>
                Text.Trim(id) != "" && (p == Submitting || (p == Submitted && s.submittedQuoteId == Some(Text.Trim(id))))
  {
    PhaseReadsMarkers(rules, s);
    hide PhaseOf, Merge, Text.Trim;
  }

  // ---- the stored form ---------------------------------------------------------------------

  function EncodeOptional(s: Option<string>): Json {
    if s.Some? then Str(s.value) else Null
  }

  /** The JSON object written to `quoteState`. */
  function Encode(s: Snapshot): Json {
    Obj(map[
      Version := Num(s.version as real),
      Draft := Obj(s.draft),
      HumanReviewRequired := Bool(s.humanReviewRequired),
      ReviewSummaryMessageId := EncodeOptional(s.reviewSummaryMessageId),
      ConfirmationMessageId := EncodeOptional(s.confirmationMessageId),
      ConfirmedAt := EncodeOptional(s.confirmedAt),
      SubmissionKey := EncodeOptional(s.submissionKey),
      SubmittedQuoteId := EncodeOptional(s.submittedQuoteId)
    ])
  }

  predicate IsOptionalString(value: Option<Json>) {
    value.Some? && (value.value.Null? || value.value.Str?)
  }

  function DecodeOptional(value: Option<Json>): Option<string>
    requires IsOptionalString(value)
  {
    if value.value.Str? then Some(value.value.text) else None
  }

  /** `parseMessagingQuoteStateSnapshot`; a missing submission key reads as null. */
  function Parse(rules: Rules, value: Option<Json>, persistedVersion: int): Result<Snapshot, Conflict> {
    if persistedVersion < 0 then Err(VersionInvalid)
    else if value.None? || value.value.Null? then
      if persistedVersion != 0 then Err(PayloadMissing) else Ok(Initial)
    else if !value.value.Obj? then Err(PayloadInvalid)
    else
      var f := value.value.fields;
      var submissionKey := if SubmissionKey in f then Get(f, SubmissionKey) else Some(Null);
      if Get(f, Version) != Some(Num(persistedVersion as real)) ||
         !(Draft in f && f[Draft].Obj?) ||
         !(HumanReviewRequired in f && f[HumanReviewRequired].Bool?) ||
         !IsOptionalString(Get(f, ReviewSummaryMessageId)) ||
         !IsOptionalString(Get(f, ConfirmationMessageId)) ||
         !IsOptionalString(Get(f, ConfirmedAt)) ||
         !IsOptionalString(submissionKey) ||
         !IsOptionalString(Get(f, SubmittedQuoteId))
      then Err(PayloadInconsistent)
      else
        var confirmationMessageId := DecodeOptional(Get(f, ConfirmationMessageId));
        var confirmedAt := DecodeOptional(Get(f, ConfirmedAt));
        if confirmationMessageId.None? != confirmedAt.None? then Err(ConfirmationInconsistent)
        else if confirmedAt.Some? && rules.instant(confirmedAt.value).None? then Err(TimestampInvalid)
        else Ok(Snapshot(persistedVersion, f[Draft].fields, f[HumanReviewRequired].flag,
                         DecodeOptional(Get(f, ReviewSummaryMessageId)), confirmationMessageId, confirmedAt,
                         DecodeOptional(submissionKey), DecodeOptional(Get(f, SubmittedQuoteId))))
  }

  predicate StoresOptional(f: Fields, key: FieldName, s: Option<string>) {
    Get(f, key) == Some(if s.Some? then Str(s.value) else Null)
  }

  /** The stored object has every field of the snapshot; only a missing submission key may stand for none. */
  predicate Stores(f: Fields, s: Snapshot) {
    Get(f, Version) == Some(Num(s.version as real)) && Get(f, Draft) == Some(Obj(s.draft)) &&
    Get(f, HumanReviewRequired) == Some(Bool(s.humanReviewRequired)) &&
    StoresOptional(f, ReviewSummaryMessageId, s.reviewSummaryMessageId) &&
    StoresOptional(f, ConfirmationMessageId, s.confirmationMessageId) &&
    StoresOptional(f, ConfirmedAt, s.confirmedAt) &&
    (StoresOptional(f, SubmissionKey, s.submissionKey) || (SubmissionKey !in f && s.submissionKey.None?)) &&
    StoresOptional(f, SubmittedQuoteId, s.submittedQuoteId)
  }

  predicate ConfirmationConsistent(rules: Rules, s: Snapshot) {
    (s.confirmationMessageId.Some? <==> s.confirmedAt.Some?) &&
    (s.confirmedAt.Some? ==> rules.instant(s.confirmedAt.value).Some?)
  }

  lemma OptionalReads(f: Fields, key: FieldName, s: Option<string>)
    ensures StoresOptional(f, key, s) <==> IsOptionalString(Get(f, key)) && DecodeOptional(Get(f, key)) == s
  {
  }

  lemma NullReads()
    ensures IsOptionalString(Some(Null)) && DecodeOptional(Some(Null)) == None
  {
  }

  /** Reading gives a snapshot exactly when the object stores it, at the row's version, with consistent evidence. */
  lemma ParseReadsWhatIsStored(rules: Rules, f: Fields, persistedVersion: int, s: Snapshot)
    ensures Parse(rules, Some(Obj(f)), persistedVersion) == Ok(s) <==>
              persistedVersion == s.version && Stores(f, s) && ConfirmationConsistent(rules, s)
  {
    OptionalReads(f, ReviewSummaryMessageId, s.reviewSummaryMessageId);
    OptionalReads(f, ConfirmationMessageId, s.confirmationMessageId);
    OptionalReads(f, ConfirmedAt, s.confirmedAt);
    OptionalReads(f, SubmissionKey, s.submissionKey);
    OptionalReads(f, SubmittedQuoteId, s.submittedQuoteId);
    NullReads();
    if persistedVersion as real == s.version as real {
      assert (persistedVersion as real).Floor == persistedVersion && (s.version as real).Floor == s.version;
    }
    hide IsOptionalString, DecodeOptional, StoresOptional;
  }

  /** A stored snapshot reads back unchanged exactly when its confirmation evidence is consistent. */
  lemma StoredFormRoundTrips(rules: Rules, s: Snapshot, persistedVersion: int)
    ensures Parse(rules, Some(Encode(s)), persistedVersion) == Ok(s) <==>
              persistedVersion == s.version &&
              (s.confirmationMessageId.Some? <==> s.confirmedAt.Some?) &&
              (s.confirmedAt.Some? ==> rules.instant(s.confirmedAt.value).Some?)
  {
    var f := Encode(s).fields;
    assert f[Version] == Num(s.version as real);
    if persistedVersion as real == s.version as real {
      assert (persistedVersion as real).Floor == persistedVersion;
      assert (s.version as real).Floor == s.version;
    }
  }

  lemma BackboneRoundTrips(rules: Rules, s: Snapshot)
    requires Lawful(rules) && Backbone(rules, s)
    ensures Parse(rules, Some(Encode(s)), s.version) == Ok(s)
  {
    StoredFormRoundTrips(rules, s, s.version);
    if s.confirmedAt.Some? {
      var t :| s.confirmedAt == Some(rules.iso(t));
      assert rules.instant(rules.iso(t)) == Some(t);
    }
  }
}
