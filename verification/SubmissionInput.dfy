/**
 What a confirmed conversation hands to the Quote domain: the canonical draft,
 the submission key, and the structured data whose equality decides a replay.
 (apps/api/src/messaging/messaging-quote-draft.ts, messaging-quote-submission-boundary.ts,
 messaging-quote-creation-input.ts, messaging-quote-submission.service.ts)
 */
module SubmissionInput {
  import opened Prelude
  import opened Json
  import opened QuoteState
  import Text

  /** The conversation a submission comes from. */
  datatype Ident = Ident(channel: string, provider: string, conversationId: string)

  /** `canonicalMessagingQuoteDraftProgress`: the nine fact groups, nothing else. */
  function CanonicalDraft(draft: Fields): Fields {
    map k | k in draft && k in FactGroups :: draft[k]
  }

  /** The source's loop over the fact groups. */
  method CanonicalDraftProgress(draft: Fields) returns (canonical: Fields)
    ensures canonical == CanonicalDraft(draft)
  {
    canonical := map[];
    for i := 0 to |FactGroups|
      invariant forall k :: k in canonical <==> k in draft && k in FactGroups[..i]
      invariant forall k | k in canonical :: canonical[k] == draft[k]
    {
      var key := FactGroups[i];
      if key in draft {
        canonical := canonical[key := draft[key]];
      }
    }
  }

  function Distinct(texts: seq<string>): (r: seq<string>)
    ensures forall t :: t in r <==> t in texts
    ensures forall i, j | 0 <= i < j < |r| :: r[i] != r[j]
    decreases |texts|
  {
    if texts == [] then []
    else
      var front := Distinct(texts[..|texts| - 1]);
      var last := texts[|texts| - 1];
      if last in front then front else front + [last]
  }

  /** Where a text first occurs, or the length. */
  function FirstAt(texts: seq<string>, text: string): (k: nat)
    ensures k <= |texts| && (k < |texts| <==> text in texts)
    ensures k < |texts| ==> texts[k] == text
  {
    if texts == [] || texts[0] == text then 0 else 1 + FirstAt(texts[1..], text)
  }

  lemma {:induction false} FirstAtAppended(texts: seq<string>, last: string, text: string)
    ensures FirstAt(texts + [last], text) == if text in texts then FirstAt(texts, text)
                                             else if text == last then |texts| else |texts| + 1
    decreases |texts|
  {
    if texts != [] {
      assert (texts + [last])[1..] == texts[1..] + [last];
      FirstAtAppended(texts[1..], last, text);
    }
  }

  /** Repeated texts are dropped, the others keep the order of their first occurrences. */
  lemma {:induction false} DistinctKeepsTheOrder(texts: seq<string>, i: nat, j: nat)
    requires i < j < |Distinct(texts)|
    ensures FirstAt(texts, Distinct(texts)[i]) < FirstAt(texts, Distinct(texts)[j])
    decreases |texts|
  {
    var front, last := texts[..|texts| - 1], texts[|texts| - 1];
    assert texts == front + [last];
    FirstAtAppended(front, last, Distinct(texts)[i]);
    FirstAtAppended(front, last, Distinct(texts)[j]);
    if j < |Distinct(front)| {
      DistinctKeepsTheOrder(front, i, j);
    }
  }

  function TrimmedStrings(items: seq<Json>): seq<string> {
    if items == [] then []
    else
      (if items[0].Str? && Text.NonBlank(items[0].text) then [Text.Trim(items[0].text)] else []) +
      TrimmedStrings(items[1..])
  }

  /** `messagingQuoteMediaAssetIds` */
  function MediaAssetIds(draft: Fields): seq<string> {
    if MessagingMediaAssetIds in draft && draft[MessagingMediaAssetIds].Arr?
    then Distinct(TrimmedStrings(draft[MessagingMediaAssetIds].items))
    else []
  }

  /** The selected photos are the visible texts of the stored list, trimmed, each once. */
  lemma MediaAssetIdsAreTheListed(draft: Fields, id: string)
    ensures id in MediaAssetIds(draft) <==>
              MessagingMediaAssetIds in draft && draft[MessagingMediaAssetIds].Arr? &&
              exists i :: 0 <= i < |draft[MessagingMediaAssetIds].items| && Shows(draft[MessagingMediaAssetIds].items[i], id)
    ensures forall i, j | 0 <= i < j < |MediaAssetIds(draft)| :: MediaAssetIds(draft)[i] != MediaAssetIds(draft)[j]
  {
    if MessagingMediaAssetIds in draft && draft[MessagingMediaAssetIds].Arr? {
      TrimmedStringsShow(draft[MessagingMediaAssetIds].items, id);
    }
  }

  predicate Shows(item: Json, id: string) {
    item.Str? && Text.NonBlank(item.text) && Text.Trim(item.text) == id
  }

  lemma {:induction false} TrimmedStringsShow(items: seq<Json>, id: string)
    ensures id in TrimmedStrings(items) <==> exists i :: 0 <= i < |items| && Shows(items[i], id)
    decreases |items|
  {
    if items != [] {
      TrimmedStringsShow(items[1..], id);
      assert items == [items[0]] + items[1..];
      if id in TrimmedStrings(items[1..]) {
        var i :| 0 <= i < |items[1..]| && Shows(items[1..][i], id);
        assert Shows(items[i + 1], id);
      }
      hide Text.Trim, Text.NonBlank;
    }
  }

  /** The transfer key of each selected photo; the database spells identifiers in lower case. */
  function TransferKeys(draft: Fields): seq<Json> {
    var ids := MediaAssetIds(draft);
    seq(|ids|, i requires 0 <= i < |ids| => Str("messaging-media:" + Text.Lower(ids[i])))
  }

  /** `messagingQuoteSubmissionKey` */
  function KeyOf(rules: Rules, ident: Ident, confirmationMessageId: string): string {
    "messaging:" + rules.digest(
      Text.Lower(Text.Trim(ident.provider)) + "\n" + ident.conversationId + "\n" + confirmationMessageId)
  }

  /** Identifiers are UUIDs, so they hold no newline: a key names one conversation and one message. */
  lemma KeysDoNotCollide(rules: Rules, a: Ident, m: string, a': Ident, m': string)
    requires Lawful(rules)
    requires !Text.HasNewline(a.conversationId) && !Text.HasNewline(m)
    requires !Text.HasNewline(a'.conversationId) && !Text.HasNewline(m')
    requires KeyOf(rules, a, m) == KeyOf(rules, a', m')
    ensures a.conversationId == a'.conversationId && m == m'
    ensures Text.Lower(Text.Trim(a.provider)) == Text.Lower(Text.Trim(a'.provider))
  {
    var p, p' := Text.Lower(Text.Trim(a.provider)), Text.Lower(Text.Trim(a'.provider));
    var s, s' := p + "\n" + a.conversationId + "\n" + m, p' + "\n" + a'.conversationId + "\n" + m';
    assert rules.digest(s) == KeyOf(rules, a, m)[|"messaging:"|..];
    assert rules.digest(s') == KeyOf(rules, a', m')[|"messaging:"|..];
    Text.LastLineUnique(p + "\n" + a.conversationId, m, p' + "\n" + a'.conversationId, m');
    Text.LastLineUnique(p, a.conversationId, p', a'.conversationId);
  }

  datatype Boundary =
    | BoundaryReady(draft: Fields)
    | BoundaryNotReady(phase: Phase)
    | BoundaryInvalid(errors: seq<Path>)

  predicate EveryGroupPresent(draft: Fields) {
    forall k | k in FactGroups :: Present(draft, k)
  }

  /** `prepareMessagingQuoteSubmission`; the caller never passes a submission key. */
  function PrepareSubmission(rules: Rules, draft: Fields, customerConfirmed: bool, humanReviewRequired: bool,
                             submittedQuoteId: Option<string>): Boundary {
    var canonical := CanonicalDraft(draft);
    var phase := FlowPhase(rules, canonical, humanReviewRequired, customerConfirmed, None, submittedQuoteId);
    var errors := rules.validate(Obj(canonical));
    if phase in {HumanReview, Submitted, Submitting} then BoundaryNotReady(phase)
    else if customerConfirmed && EveryGroupPresent(canonical) && errors != [] then BoundaryInvalid(errors)
    else if phase != ReadyToSubmit then BoundaryNotReady(phase)
    else if errors != [] then BoundaryInvalid(errors)
    else BoundaryReady(canonical)
  }

  /** A draft passes the boundary exactly when the customer confirmed it and its canonical facts are valid. */
  lemma BoundaryReadyExactlyWhen(rules: Rules, draft: Fields, customerConfirmed: bool, humanReviewRequired: bool,
                                 submittedQuoteId: Option<string>)
    ensures var r := PrepareSubmission(rules, draft, customerConfirmed, humanReviewRequired, submittedQuoteId);
            r.BoundaryReady? <==>
              !Truthy(submittedQuoteId) && !humanReviewRequired && customerConfirmed &&
              EveryGroupPresent(draft) && rules.validate(Obj(CanonicalDraft(draft))) == []
  {
    var canonical := CanonicalDraft(draft);
    assert EveryGroupPresent(canonical) <==> EveryGroupPresent(draft);
    if rules.validate(Obj(canonical)) == [] {
      assert Complete(rules, canonical) <==> EveryGroupPresent(canonical);
    }
  }

  datatype Due = Due(key: string, structured: Json)

  datatype Preparation =
    | Ready(due: Due)
    | NotReady(phase: Phase)
    | Invalid(errors: seq<Path>)
    | EvidenceMissing
    | ReservationMismatch

  /** `structuredMessagingQuote`: the draft's groups beside the fixed provenance. */
  function Structured(rules: Rules, ident: Ident, submittedAt: string, draft: Fields, confirmationMessageId: string,
                      transferKeys: seq<Json>): Json {
    Obj(map[SchemaVersion := Str("MESSAGING_QUOTE_V1"), Source := Str("HOMENT_MESSAGING"),
            SubmittedAt := Str(submittedAt)]
        + draft
        + map[MessagingProvenance := Obj(map[
            Channel := Str(ident.channel),
            Provider := Str(Text.Lower(Text.Trim(ident.provider))),
            ConversationId := Str(ident.conversationId),
            ConfirmationMessageId := Str(confirmationMessageId),
            QuotePhotoTransferKeys := Arr(transferKeys)])])
  }

  /** The preparation steps of `submitReadyQuote` between its phase check and its first write. */
  function Prepare(rules: Rules, ident: Ident, s: Snapshot): Preparation {
    if !Truthy(s.confirmationMessageId) || !Truthy(s.confirmedAt) || rules.instant(s.confirmedAt.value).None?
    then EvidenceMissing
    else
      match PrepareSubmission(rules, s.draft, true, s.humanReviewRequired, s.submittedQuoteId)
      case BoundaryInvalid(errors) => Invalid(errors)
      case BoundaryNotReady(phase) => NotReady(phase)
      case BoundaryReady(draft) =>
        var key := KeyOf(rules, ident, s.confirmationMessageId.value);
        if Truthy(s.submissionKey) && s.submissionKey != Some(key) then ReservationMismatch
        else Ready(Due(key, Structured(rules, ident, rules.iso(rules.instant(s.confirmedAt.value).value), draft,
                                       s.confirmationMessageId.value, TransferKeys(s.draft))))
  }

  lemma BoundaryKeepsCanonicalDraft(rules: Rules, draft: Fields, customerConfirmed: bool, humanReviewRequired: bool,
                                    submittedQuoteId: Option<string>)
    ensures var r := PrepareSubmission(rules, draft, customerConfirmed, humanReviewRequired, submittedQuoteId);
            r.BoundaryReady? ==> r.draft == CanonicalDraft(draft)
  {
    hide CanonicalDraft, FlowPhase, EveryGroupPresent;
  }

  lemma GroupsAreNotEnvelope(k: FieldName)
    requires k in FactGroups
    ensures k !in {SchemaVersion, Source, SubmittedAt, MessagingProvenance}
  {
  }

  lemma CanonicalIsCanonical(draft: Fields)
    ensures CanonicalDraft(CanonicalDraft(draft)) == CanonicalDraft(draft)
  {
  }

  lemma StructuredGroups(rules: Rules, ident: Ident, submittedAt: string, draft: Fields,
                         confirmationMessageId: string, transferKeys: seq<Json>)
    ensures var structured := Structured(rules, ident, submittedAt, draft, confirmationMessageId, transferKeys);
            structured.Obj? && CanonicalDraft(structured.fields) == CanonicalDraft(draft)
  {
    var fields := Structured(rules, ident, submittedAt, draft, confirmationMessageId, transferKeys).fields;
    forall k | k in FactGroups
      ensures (k in fields <==> k in draft) && (k in draft ==> fields[k] == draft[k])
    {
      GroupsAreNotEnvelope(k);
    }
  }

  /** The stored structured data still holds exactly the canonical draft. */
  lemma StructuredHoldsDraft(rules: Rules, ident: Ident, s: Snapshot)
    requires Prepare(rules, ident, s).Ready?
    ensures var structured := Prepare(rules, ident, s).due.structured;
            structured.Obj? && CanonicalDraft(structured.fields) == CanonicalDraft(s.draft)
  {
    hide PrepareSubmission, TransferKeys, KeyOf, Structured;
    var at := rules.iso(rules.instant(s.confirmedAt.value).value);
    var draft := PrepareSubmission(rules, s.draft, true, s.humanReviewRequired, s.submittedQuoteId).draft;
    BoundaryKeepsCanonicalDraft(rules, s.draft, true, s.humanReviewRequired, s.submittedQuoteId);
    StructuredGroups(rules, ident, at, draft, s.confirmationMessageId.value, TransferKeys(s.draft));
    CanonicalIsCanonical(s.draft);
  }

  // ---- what the record says about its origin -------------------------------------------------

  /** One transfer key per selected photo, in the order of selection, with the identifier in lower case. */
  predicate ListsThePhotos(draft: Fields, keys: seq<Json>) {
    var ids := MediaAssetIds(draft);
    |keys| == |ids| && forall i | 0 <= i < |ids| :: keys[i] == Str("messaging-media:" + Text.Lower(ids[i]))
  }

  /** Read back from the stored record: who confirmed what, where, when, and with which photos. */
  predicate RecordsItsOrigin(rules: Rules, ident: Ident, s: Snapshot, structured: Json) {
    var record := Some(structured);
    var photos := At(record, [MessagingProvenance, QuotePhotoTransferKeys]);
    var at := At(record, [SubmittedAt]);
    s.confirmationMessageId.Some? && s.confirmedAt.Some? &&
    At(record, [SchemaVersion]) == Some(Str("MESSAGING_QUOTE_V1")) &&
    At(record, [Source]) == Some(Str("HOMENT_MESSAGING")) &&
    At(record, [MessagingProvenance, Channel]) == Some(Str(ident.channel)) &&
    At(record, [MessagingProvenance, Provider]) == Some(Str(Text.Lower(Text.Trim(ident.provider)))) &&
    At(record, [MessagingProvenance, ConversationId]) == Some(Str(ident.conversationId)) &&
    At(record, [MessagingProvenance, ConfirmationMessageId]) == Some(Str(s.confirmationMessageId.value)) &&
    photos.Some? && photos.value.Arr? && ListsThePhotos(s.draft, photos.value.items) &&
    at.Some? && at.value.Str? && rules.instant(at.value.text) == rules.instant(s.confirmedAt.value)
  }

  lemma AtTwo(structured: Json, group: FieldName, field: FieldName)
    requires structured.Obj? && group in structured.fields && structured.fields[group].Obj?
    ensures At(Some(structured), [group, field]) == Get(structured.fields[group].fields, field)
  {
    assert [group, field][1..] == [field];
    assert At(Get(structured.fields, group), [field]) == At(Get(structured.fields[group].fields, field), [field][1..]);
  }

  lemma AtOne(structured: Json, field: FieldName)
    requires structured.Obj?
    ensures At(Some(structured), [field]) == Get(structured.fields, field)
  {
    assert At(Some(structured), [field]) == At(Get(structured.fields, field), [field][1..]);
  }

  lemma TransferKeysListThePhotos(draft: Fields)
    ensures ListsThePhotos(draft, TransferKeys(draft))
  {
    hide MediaAssetIds, Text.Lower;
  }

  lemma ProvenanceReadsBack(rules: Rules, ident: Ident, at: string, draft: Fields, message: string, keys: seq<Json>)
    requires SubmittedAt !in draft && SchemaVersion !in draft && Source !in draft
    ensures var record := Some(Structured(rules, ident, at, draft, message, keys));
            At(record, [SubmittedAt]) == Some(Str(at)) &&
            At(record, [SchemaVersion]) == Some(Str("MESSAGING_QUOTE_V1")) &&
            At(record, [Source]) == Some(Str("HOMENT_MESSAGING")) &&
            At(record, [MessagingProvenance, Channel]) == Some(Str(ident.channel)) &&
            At(record, [MessagingProvenance, Provider]) == Some(Str(Text.Lower(Text.Trim(ident.provider)))) &&
            At(record, [MessagingProvenance, ConversationId]) == Some(Str(ident.conversationId)) &&
            At(record, [MessagingProvenance, ConfirmationMessageId]) == Some(Str(message)) &&
            At(record, [MessagingProvenance, QuotePhotoTransferKeys]) == Some(Arr(keys))
  {
    var structured := Structured(rules, ident, at, draft, message, keys);
    hide At, Text.Trim, Text.Lower;
    AtOne(structured, SubmittedAt);
    AtOne(structured, SchemaVersion);
    AtOne(structured, Source);
    AtTwo(structured, MessagingProvenance, Channel);
    AtTwo(structured, MessagingProvenance, Provider);
    AtTwo(structured, MessagingProvenance, ConversationId);
    AtTwo(structured, MessagingProvenance, ConfirmationMessageId);
    AtTwo(structured, MessagingProvenance, QuotePhotoTransferKeys);
  }

  lemma PreparedRecord(rules: Rules, ident: Ident, s: Snapshot)
    requires Prepare(rules, ident, s).Ready?
    ensures s.confirmationMessageId.Some? && s.confirmedAt.Some? && rules.instant(s.confirmedAt.value).Some?
    ensures Prepare(rules, ident, s).due.structured
         == Structured(rules, ident, rules.iso(rules.instant(s.confirmedAt.value).value), CanonicalDraft(s.draft),
                       s.confirmationMessageId.value, TransferKeys(s.draft))
  {
    hide PrepareSubmission, TransferKeys, KeyOf, Structured, CanonicalDraft;
    BoundaryKeepsCanonicalDraft(rules, s.draft, true, s.humanReviewRequired, s.submittedQuoteId);
  }

  lemma OriginReadsBack(rules: Rules, ident: Ident, s: Snapshot, t: int, draft: Fields)
    requires s.confirmationMessageId.Some? && s.confirmedAt.Some? && rules.instant(s.confirmedAt.value) == Some(t)
    requires rules.instant(rules.iso(t)) == Some(t)
    requires SubmittedAt !in draft && SchemaVersion !in draft && Source !in draft
    ensures RecordsItsOrigin(rules, ident, s, Structured(rules, ident, rules.iso(t), draft, s.confirmationMessageId.value,
                                                         TransferKeys(s.draft)))
  {
    hide TransferKeys, Structured, At, ListsThePhotos, Text.Trim, Text.Lower;
    ProvenanceReadsBack(rules, ident, rules.iso(t), draft, s.confirmationMessageId.value, TransferKeys(s.draft));
    TransferKeysListThePhotos(s.draft);
  }

  lemma EnvelopeIsNotInTheDraft(draft: Fields)
    ensures var canonical := CanonicalDraft(draft);
            SubmittedAt !in canonical && SchemaVersion !in canonical && Source !in canonical
  {
  }

  /** Every prepared submission records its origin. */
  lemma StructuredRecordsItsOrigin(rules: Rules, ident: Ident, s: Snapshot)
    requires Lawful(rules) && Prepare(rules, ident, s).Ready?
    ensures RecordsItsOrigin(rules, ident, s, Prepare(rules, ident, s).due.structured)
  {
    assert forall t :: rules.instant(rules.iso(t)) == Some(t);
    hide *;
    PreparedRecord(rules, ident, s);
    EnvelopeIsNotInTheDraft(s.draft);
    OriginReadsBack(rules, ident, s, rules.instant(s.confirmedAt.value).value, CanonicalDraft(s.draft));
  }

  /** On a sound snapshot a submission is prepared exactly for a confirmed, valid draft under its own key. */
  lemma PreparedExactlyWhen(rules: Rules, ident: Ident, s: Snapshot)
    requires Lawful(rules) && Backbone(rules, s) && s.submittedQuoteId.None?
    ensures Prepare(rules, ident, s).Ready? <==>
              s.confirmationMessageId.Some? && rules.validate(Obj(CanonicalDraft(s.draft))) == [] &&
              (s.submissionKey.Some? ==> s.submissionKey.value == KeyOf(rules, ident, s.confirmationMessageId.value))
    ensures Prepare(rules, ident, s).Ready? ==>
              Prepare(rules, ident, s).due.key == KeyOf(rules, ident, s.confirmationMessageId.value)
  {
    PhaseReadsMarkers(rules, s);
    if s.confirmedAt.Some? {
      var t :| s.confirmedAt == Some(rules.iso(t));
      assert rules.instant(rules.iso(t)) == Some(t);
      IsoIsTruthy(rules, t);
    }
    assert s.confirmationMessageId.Some? ==> EveryGroupPresent(s.draft);
    BoundaryReadyExactlyWhen(rules, s.draft, true, s.humanReviewRequired, s.submittedQuoteId);
    hide PrepareSubmission, TransferKeys, KeyOf, Structured, CanonicalDraft, Complete, EveryGroupPresent, PhaseOf;
  }
}
