/**
 What a submission attempt may write, and what each of its refusals means.
 (apps/api/src/messaging/messaging-quote-submission.service.ts, messaging-quote-state.service.ts,
 messaging-quote-replay-resolution.ts)
 */
module SubmissionRefusals {
  import opened Prelude
  import opened Json
  import opened QuoteState
  import opened SubmissionInput
  import opened ConversationStore
  import opened SubmissionProtocol
  import opened SubmissionService

  /** A refused write names lost authority, an overtaken version, a damaged row or the conflict of the transition. */
  lemma RefusedWritesNameTheirCause(rules: Rules, row: Row, expected: nat, command: Command, observed: Option<nat>)
    ensures var r := TransitionRow(rules, row, expected, command, observed);
            r.Err? ==>
              if r.error == AuthorityChanged then
                observed.Some? && (row.controlState != Automation || row.controlVersion != observed.value)
              else if r.error.Stale? then row.quoteStateVersion != expected && r.error.current == Max(0, row.quoteStateVersion)
              else
                match Parse(rules, row.quoteState, row.quoteStateVersion)
                case Err(e) => r.error == e
                case Ok(s) => IsConflictOf(rules, s, command, r.error)
  {
    var parsed := Parse(rules, row.quoteState, row.quoteStateVersion);
    ParseErrors(rules, row.quoteState, row.quoteStateVersion);
    if parsed.Ok? {
      ConflictsNameTheirCause(rules, parsed.value, command);
      NoControlConflicts(rules, parsed.value, command);
    }
    hide Parse, Apply, IsConflictOf;
  }

  lemma ParseErrors(rules: Rules, value: Option<Json>, version: int)
    ensures Parse(rules, value, version).Err? ==>
              Parse(rules, value, version).error != AuthorityChanged && !Parse(rules, value, version).error.Stale?
  {
  }

  lemma NoControlConflicts(rules: Rules, s: Snapshot, command: Command)
    ensures Apply(rules, s, command).Err? ==>
              Apply(rules, s, command).error != AuthorityChanged && !Apply(rules, s, command).error.Stale?
  {
    hide PhaseOf;
  }

  /** What a look at the Quote table says: nothing there, the same record, another record, or a damaged history. */
  lemma ReplaysAreRead(quotes: Quotes, due: Due)
    ensures var replay := ResolveReplay(quotes, due);
            (replay.New? <==> due.key !in quotes) &&
            (due.key in quotes ==>
               var own := FromCustomer(quotes[due.key].revisions);
               (replay == CorruptExisting <==> |own| != 1) &&
               (replay == DifferentSubmission <==> |own| == 1 && own[0].structured != due.structured) &&
               (replay.SameSubmission? <==> |own| == 1 && own[0].structured == due.structured) &&
               (replay.SameSubmission? ==> replay.quoteId == quotes[due.key].id))
  {
    hide FromCustomer;
  }

  /** The customer's revisions are the ones the customer made, in their order. */
  lemma {:induction false} FromCustomerKeepsTheOrder(revisions: seq<Revision>)
    ensures forall r :: r in FromCustomer(revisions) <==> r in revisions && r.origin == CustomerSubmission
    ensures |FromCustomer(revisions)| <= |revisions|
    ensures (forall r | r in revisions :: r.origin == CustomerSubmission) ==> FromCustomer(revisions) == revisions
    decreases |revisions|
  {
    if revisions != [] {
      assert revisions == [revisions[0]] + revisions[1..];
      FromCustomerKeepsTheOrder(revisions[1..]);
    }
  }

  /** Why a snapshot is not prepared: missing evidence, invalid facts, a phase that is not due, or another reservation. */
  lemma UnpreparedNamesItsCause(rules: Rules, ident: Ident, s: Snapshot)
    ensures var errors := rules.validate(Obj(CanonicalDraft(s.draft)));
            match Prepare(rules, ident, s)
            case Ready(_) => errors == []
            case EvidenceMissing =>
              !Truthy(s.confirmationMessageId) || !Truthy(s.confirmedAt) || rules.instant(s.confirmedAt.value).None?
            case Invalid(found) => found == errors && errors != []
            case NotReady(phase) =>
              phase == FlowPhase(rules, CanonicalDraft(s.draft), s.humanReviewRequired, true, None, s.submittedQuoteId) &&
              phase != ReadyToSubmit
            case ReservationMismatch =>
              Truthy(s.submissionKey) && Truthy(s.confirmationMessageId) &&
              s.submissionKey != Some(KeyOf(rules, ident, s.confirmationMessageId.value))
  {
    hide CanonicalDraft, EveryGroupPresent, KeyOf, Structured, TransferKeys, FlowPhase;
  }

  /** What an attempt found before it refused. */
  predicate IsRefusalOf(rules: Rules, ident: Ident, row: Row, quotes: Quotes, expected: nat, observed: Option<nat>,
                        photosStored: bool, error: SubmitError)
  {
    var parsed := Parse(rules, row.quoteState, row.quoteStateVersion);
    match error
    case StaleVersion => row.quoteStateVersion != expected
    case StateRefused(conflict) => true
    case NotReadyForSubmission(phase) =>
      parsed.Ok? && phase == PhaseOf(rules, parsed.value) && phase != ReadyToSubmit && phase != Submitting && phase != Submitted
    case NotPrepared(preparation) =>
      parsed.Ok? && preparation == Prepare(rules, ident, parsed.value) && !preparation.Ready?
    case PhotosMissing => !photosStored
    case LinkageInconsistent =>
      parsed.Ok? && PhaseOf(rules, parsed.value) == Submitted && parsed.value.submittedQuoteId.Some? &&
      !HasQuote(quotes, parsed.value.submittedQuoteId.value)
    case DifferentData =>
      parsed.Ok? && Prepare(rules, ident, parsed.value).Ready? &&
      ResolveReplay(quotes, Prepare(rules, ident, parsed.value).due) == DifferentSubmission
    case CorruptData =>
      parsed.Ok? && Prepare(rules, ident, parsed.value).Ready? &&
      ResolveReplay(quotes, Prepare(rules, ident, parsed.value).due) == CorruptExisting
  }

  lemma RefusalsNameTheirCause(rules: Rules, ident: Ident, row: Row, quotes: Quotes, expected: nat, observed: Option<nat>,
                               photosStored: bool, newId: string)
    ensures var r := SubmitAttempt(rules, ident, row, quotes, expected, observed, photosStored, newId).2;
            r.Err? ==> IsRefusalOf(rules, ident, row, quotes, expected, observed, photosStored, r.error)
  {
    hide Parse, Prepare, TransitionRow, ResolveReplay, HasQuote;
  }

  /** An attempt never moves authority, and writes nothing at all on a stale version, a damaged row or missing photos. */
  lemma AttemptsKeepControl(rules: Rules, ident: Ident, row: Row, quotes: Quotes, expected: nat, observed: Option<nat>,
                            photosStored: bool, newId: string)
    ensures var (row', quotes', _) := SubmitAttempt(rules, ident, row, quotes, expected, observed, photosStored, newId);
            row'.controlState == row.controlState && row'.controlVersion == row.controlVersion &&
            (!photosStored ==> row' == row && quotes' == quotes) &&
            (row.quoteStateVersion != expected ==> row' == row && quotes' == quotes) &&
            (Parse(rules, row.quoteState, row.quoteStateVersion).Err? ==> row' == row && quotes' == quotes)
  {
    hide Parse, Prepare, TransitionRow, SubmitQuote, HasQuote, PhaseOf;
    var parsed := Parse(rules, row.quoteState, row.quoteStateVersion);
    if parsed.Ok? && Prepare(rules, ident, parsed.value).Ready? {
      var due := Prepare(rules, ident, parsed.value).due;
      TransitionKeepsControl(rules, row, expected, DoBegin(due.key), observed);
      var reserved := TransitionRow(rules, row, expected, DoBegin(due.key), observed);
      var receipt := SubmitQuote(quotes, due, newId).1;
      if receipt.Ok? {
        TransitionKeepsControl(rules, row, parsed.value.version, DoMarkSubmitted(receipt.value.quoteId), observed);
        if reserved.Ok? {
          TransitionKeepsControl(rules, reserved.value.0, reserved.value.1.version,
                                 DoMarkSubmitted(receipt.value.quoteId), observed);
        }
      }
    }
  }

  /**
   An attempt adds at most the Quote that is due, and only with its photos stored, its draft prepared and its key
   reserved, before or by this attempt; it never touches another Quote.
   */
  lemma AttemptsAddOnlyWhatIsDue(rules: Rules, ident: Ident, row: Row, quotes: Quotes, expected: nat,
                                 observed: Option<nat>, photosStored: bool, newId: string)
    ensures var quotes' := SubmitAttempt(rules, ident, row, quotes, expected, observed, photosStored, newId).1;
            var parsed := Parse(rules, row.quoteState, row.quoteStateVersion);
            quotes' != quotes ==>
               photosStored && parsed.Ok? && Prepare(rules, ident, parsed.value).Ready? &&
               var due := Prepare(rules, ident, parsed.value).due;
               due.key !in quotes &&
               quotes' == quotes[due.key := Quote(newId, [Revision(CustomerSubmission, due.structured)])] &&
               (PhaseOf(rules, parsed.value) == Submitting ||
                TransitionRow(rules, row, expected, DoBegin(due.key), observed).Ok?)
  {
    hide Parse, Prepare, TransitionRow, ResolveReplay, HasQuote, PhaseOf;
    var parsed := Parse(rules, row.quoteState, row.quoteStateVersion);
    if parsed.Ok? && Prepare(rules, ident, parsed.value).Ready? {
      ReplaysAreRead(quotes, Prepare(rules, ident, parsed.value).due);
    }
  }

  /** A worker too goes no further than loading without the photos: nothing is reserved, looked up or created. */
  lemma NothingIsLoadedWithoutPhotos(rules: Rules, ident: Ident, w: World, i: nat, expected: nat, observed: Option<nat>)
    ensures Step(rules, ident, w, Load(i, expected, observed, false)) == w
  {
    hide Parse, Prepare, PhaseOf;
  }
}
