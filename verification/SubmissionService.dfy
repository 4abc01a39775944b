/**
 `submitReadyQuote` as one uninterrupted call, crash recovery, and fencing by
 the control version.
 */
module SubmissionService {
  import opened Prelude
  import opened Json
  import opened QuoteState
  import opened SubmissionInput
  import opened ConversationStore
  import opened SubmissionProtocol
  import opened SubmissionResults

  datatype SubmitError =
    | StaleVersion
    | StateRefused(conflict: Conflict)
    | NotReadyForSubmission(phase: Phase)
    | NotPrepared(preparation: Preparation)
    | PhotosMissing
    | LinkageInconsistent
    | DifferentData
    | CorruptData

  datatype Receipt = Receipt(quoteId: string, created: bool)

  predicate HasQuote(quotes: Quotes, id: string) {
    exists k :: k in quotes && quotes[k].id == id
  }

  /** The Quote service's part: resolve the replay, create only when there is none. */
  function SubmitQuote(quotes: Quotes, due: Due, newId: string): (Quotes, Result<Receipt, SubmitError>) {
    match ResolveReplay(quotes, due)
    case SameSubmission(id) => (quotes, Ok(Receipt(id, false)))
    case DifferentSubmission => (quotes, Err(DifferentData))
    case CorruptExisting => (quotes, Err(CorruptData))
    case New =>
      (quotes[due.key := Quote(newId, [Revision(CustomerSubmission, due.structured)])], Ok(Receipt(newId, true)))
  }

  /** A known key is answered, never written: with its Quote for the same record, else refused; a new key adds one Quote. */
  lemma KnownKeysAreNeverWritten(quotes: Quotes, due: Due, newId: string)
    ensures var (quotes', r) := SubmitQuote(quotes, due, newId);
            if due.key in quotes then
              quotes' == quotes &&
              (r.Ok? <==> exists own :: FromCustomer(quotes[due.key].revisions) == [own] && own.structured == due.structured) &&
              (r.Ok? ==> r.value == Receipt(quotes[due.key].id, false))
            else
              r == Ok(Receipt(newId, true)) && quotes'.Keys == quotes.Keys + {due.key} &&
              (forall k | k in quotes :: quotes'[k] == quotes[k]) &&
              quotes'[due.key] == Quote(newId, [Revision(CustomerSubmission, due.structured)])
  {
    if due.key in quotes {
      var own := FromCustomer(quotes[due.key].revisions);
      assert |own| == 1 ==> own == [own[0]];
      hide FromCustomer;
    }
  }

  /** The outcome of one call nobody interrupts: the row, the Quotes and the reply. */
  function SubmitAttempt(rules: Rules, ident: Ident, row: Row, quotes: Quotes, expected: nat, observed: Option<nat>,
                         photosStored: bool, newId: string): (Row, Quotes, Result<Receipt, SubmitError>)
  {
    if row.quoteStateVersion != expected then (row, quotes, Err(StaleVersion))
    else
      match Parse(rules, row.quoteState, row.quoteStateVersion)
      case Err(e) => (row, quotes, Err(StateRefused(e)))
      case Ok(s) =>
        var phase := PhaseOf(rules, s);
        if phase == Submitted then
          (row, quotes, if HasQuote(quotes, s.submittedQuoteId.value) then Ok(Receipt(s.submittedQuoteId.value, false))
                        else Err(LinkageInconsistent))
        else if phase != ReadyToSubmit && phase != Submitting then (row, quotes, Err(NotReadyForSubmission(phase)))
        else
          var preparation := Prepare(rules, ident, s);
          if !preparation.Ready? then (row, quotes, Err(NotPrepared(preparation)))
          else if !photosStored then (row, quotes, Err(PhotosMissing))
          else
            var due := preparation.due;
            var reserved := if phase == ReadyToSubmit
                            then TransitionRow(rules, row, expected, DoBegin(due.key), observed)
                            else Ok((row, s));
            match reserved
            case Err(e) => (row, quotes, Err(StateRefused(e)))
            case Ok((row', s')) =>
              var (quotes', receipt) := SubmitQuote(quotes, due, newId);
              match receipt
              case Err(e) => (row', quotes', Err(e))
              case Ok(got) =>
                match TransitionRow(rules, row', s'.version, DoMarkSubmitted(got.quoteId), observed)
                case Err(e) => (row', quotes', Err(StateRefused(e)))
                case Ok(linked) => (linked.0, quotes', Ok(got))
  }

  class QuoteTable {
    var quotes: Quotes

    constructor ()
      ensures quotes == map[]
    {
      quotes := map[];
    }

    method Submit(due: Due, newId: string) returns (r: Result<Receipt, SubmitError>)
      modifies this
      ensures (quotes, r) == SubmitQuote(old(quotes), due, newId)
    {
      var replay := ResolveReplay(quotes, due);
      match replay {
        case SameSubmission(id) => return Ok(Receipt(id, false));
        case DifferentSubmission => return Err(DifferentData);
        case CorruptExisting => return Err(CorruptData);
        case New =>
      }
      quotes := quotes[due.key := Quote(newId, [Revision(CustomerSubmission, due.structured)])];
      return Ok(Receipt(newId, true));
    }
  }

  /** Reserve, create, link: three transactions in this order, stopping at the first refusal. */
  method SubmitReadyQuote(rules: Rules, ident: Ident, conversation: Conversation, table: QuoteTable, expected: nat,
                          observed: Option<nat>, photosStored: bool, newId: string)
    returns (r: Result<Receipt, SubmitError>)
    modifies conversation`quoteState, conversation`quoteStateVersion, table
    ensures (conversation.Stored(), table.quotes, r)
         == SubmitAttempt(rules, ident, old(conversation.Stored()), old(table.quotes), expected, observed, photosStored, newId)
  {
    if conversation.quoteStateVersion != expected {
      return Err(StaleVersion);
    }
    var parsed := Parse(rules, conversation.quoteState, conversation.quoteStateVersion);
    if parsed.Err? {
      return Err(StateRefused(parsed.error));
    }
    var state := parsed.value;
    var phase := PhaseOf(rules, state);
    if phase == Submitted {
      return if HasQuote(table.quotes, state.submittedQuoteId.value)
             then Ok(Receipt(state.submittedQuoteId.value, false)) else Err(LinkageInconsistent);
    }
    if phase != ReadyToSubmit && phase != Submitting {
      return Err(NotReadyForSubmission(phase));
    }
    var preparation := Prepare(rules, ident, state);
    if !preparation.Ready? {
      return Err(NotPrepared(preparation));
    }
    if !photosStored {
      return Err(PhotosMissing);
    }
    var reservedVersion := state.version;
    if phase == ReadyToSubmit {
      var reserved := conversation.Transition(rules, expected, DoBegin(preparation.due.key), observed);
      if reserved.Err? {
        return Err(StateRefused(reserved.error));
      }
      reservedVersion := reserved.value.version;
    }
    var receipt := table.Submit(preparation.due, newId);
    if receipt.Err? {
      return receipt;
    }
    var linked := conversation.Transition(rules, reservedVersion, DoMarkSubmitted(receipt.value.quoteId), observed);
    if linked.Err? {
      return Err(StateRefused(linked.error));
    }
    return receipt;
  }

  /** The same call as five steps of the protocol. */
  function Attempt(w: World, worker: nat, observed: Option<nat>, newId: string): seq<Action>
    requires w.row.quoteStateVersion >= 0
  {
    [Load(worker, w.row.quoteStateVersion, observed, true), Reserve(worker), LookUp(worker), Create(worker, newId),
     Link(worker)]
  }

  function AfterAttempt(rules: Rules, ident: Ident, w: World, i: nat, observed: Option<nat>, newId: string): World
    requires w.row.quoteStateVersion >= 0
  {
    var w1 := StepLoad(rules, ident, w, i, w.row.quoteStateVersion, observed, true);
    var w2 := StepReserve(rules, w1, i);
    var w3 := StepLookUp(w2, i);
    var w4 := StepCreate(w3, i, newId);
    StepLink(rules, w4, i)
  }

  lemma RunLast(rules: Rules, ident: Ident, w: World, front: seq<Action>, a: Action)
    ensures Run(rules, ident, w, front + [a]) == Step(rules, ident, Run(rules, ident, w, front), a)
  {
    assert (front + [a])[..|front|] == front;
  }

  lemma AttemptIsARun(rules: Rules, ident: Ident, w: World, i: nat, observed: Option<nat>, newId: string)
    requires w.row.quoteStateVersion >= 0
    ensures Run(rules, ident, w, Attempt(w, i, observed, newId)) == AfterAttempt(rules, ident, w, i, observed, newId)
  {
    hide StepLoad, StepReserve, StepLookUp, StepCreate, StepLink;
    var a := Attempt(w, i, observed, newId);
    assert a == [] + [a[0]] + [a[1]] + [a[2]] + [a[3]] + [a[4]];
    RunLast(rules, ident, w, [], a[0]);
    RunLast(rules, ident, w, [] + [a[0]], a[1]);
    RunLast(rules, ident, w, [] + [a[0]] + [a[1]], a[2]);
    RunLast(rules, ident, w, [] + [a[0]] + [a[1]] + [a[2]], a[3]);
    RunLast(rules, ident, w, [] + [a[0]] + [a[1]] + [a[2]] + [a[3]], a[4]);
  }

  // ---- crash recovery ------------------------------------------------------------------------------

  /** What is reserved or ready to be reserved, together with what it owes. */
  ghost predicate Owes(rules: Rules, ident: Ident, w: World, due: Due) {
    Inv(rules, ident, w) && Prepare(rules, ident, Latest(w)) == Ready(due) &&
    (PhaseOf(rules, Latest(w)) == Submitting || PhaseOf(rules, Latest(w)) == ReadyToSubmit)
  }

  /** In every reachable SUBMITTING state the stored snapshot reads back and still owes its submission. */
  lemma SubmittingStateIsRecoverable(rules: Rules, ident: Ident, actions: seq<Action>)
    requires Lawful(rules)
    requires var w := Reached(rules, ident, actions);
             w.log != [] && PhaseOf(rules, Latest(w)) == Submitting
    ensures var w := Reached(rules, ident, actions);
            Parse(rules, w.row.quoteState, w.row.quoteStateVersion) == Ok(Latest(w)) &&
            Prepare(rules, ident, Latest(w)).Ready? &&
            Owes(rules, ident, w, Prepare(rules, ident, Latest(w)).due) &&
            Latest(w).submissionKey == Some(Prepare(rules, ident, Latest(w)).due.key)
  {
    hide Run, Step, Prepare, Parse, Follows, Complete, WorkersInv, QuotesInv, MessagesInv, SummaryShown, ControlInv;
    ReachedHasInv(rules, ident, actions);
    var s := Latest(Reached(rules, ident, actions));
    PhaseReadsMarkers(rules, s);
    assert s.(submittedQuoteId := None) == s;
  }

  lemma LoadSucceeds(rules: Rules, ident: Ident, w: World, i: nat, observed: Option<nat>, due: Due)
    requires Owes(rules, ident, w, due)
    ensures w.row.quoteStateVersion == Latest(w).version
    ensures StepLoad(rules, ident, w, i, w.row.quoteStateVersion, observed, true)
         == Put(w, i, if PhaseOf(rules, Latest(w)) == ReadyToSubmit then Loaded(Latest(w).version, observed, due)
                      else Reserved(Latest(w).version, observed, due))
  {
    hide Prepare, Parse, Follows, PhaseOf, Backbone, WorkersInv, QuotesInv, MessagesInv, SummaryShown, ControlInv,
         LinkInv, ReservationInv;
  }

  lemma ReserveFromReady(rules: Rules, ident: Ident, w: World, i: nat, observed: Option<nat>, due: Due)
    requires Lawful(rules) && LogInv(rules, w) && Authorised(w.row, observed)
    requires Prepare(rules, ident, Latest(w)) == Ready(due) && PhaseOf(rules, Latest(w)) == ReadyToSubmit
    requires i in w.workers && w.workers[i] == Loaded(Latest(w).version, observed, due)
    ensures var w2 := StepReserve(rules, w, i);
            Authorised(w2.row, observed) && w2.quotes == w.quotes && w2.log != [] &&
            i in w2.workers && w2.workers[i] == Reserved(Latest(w2).version, observed, due) &&
            Latest(w2) == Latest(w).(version := Latest(w).version + 1, submissionKey := Some(due.key)) &&
            TransitionRow(rules, w.row, Latest(w).version, DoBegin(due.key), observed) == Ok((w2.row, Latest(w2)))
  {
    hide Prepare, Parse, Follows, PhaseOf, Backbone, TransitionRow, Apply, Lawful;
    CommitSpec(rules, w, |w.log| - 1, DoBegin(due.key), observed);
    BeginsFromReady(rules, ident, Latest(w), due);
  }

  /** After reserving, or when reserved already. */
  lemma ReserveSucceeds(rules: Rules, ident: Ident, w: World, i: nat, observed: Option<nat>, due: Due)
    requires Lawful(rules) && Owes(rules, ident, w, due) && Authorised(w.row, observed)
    ensures w.row.quoteStateVersion >= 0 && w.log != []
    ensures var w2 := StepReserve(rules, StepLoad(rules, ident, w, i, w.row.quoteStateVersion, observed, true), i);
            Inv(rules, ident, w2) && w2.log != [] && Authorised(w2.row, observed) && w2.quotes == w.quotes &&
            i in w2.workers && w2.workers[i] == Reserved(Latest(w2).version, observed, due) &&
            Latest(w2) == Latest(w).(version := Latest(w2).version, submissionKey := Some(due.key)) &&
            (if PhaseOf(rules, Latest(w)) == ReadyToSubmit
             then TransitionRow(rules, w.row, Latest(w).version, DoBegin(due.key), observed) == Ok((w2.row, Latest(w2)))
             else w2.row == w.row && Latest(w2) == Latest(w))
  {
    hide Inv, Prepare, PhaseOf, TransitionRow, Lawful;
    LoadSucceeds(rules, ident, w, i, observed, due);
    LoadKeepsInv(rules, ident, w, i, w.row.quoteStateVersion, observed, true);
    var w1 := StepLoad(rules, ident, w, i, w.row.quoteStateVersion, observed, true);
    ReserveKeepsInv(rules, ident, w1, i);
    OwesKey(rules, ident, w, due);
    InvGivesLink(rules, ident, w);
    if PhaseOf(rules, Latest(w)) == ReadyToSubmit {
      assert LogInv(rules, w1) by { InvGivesLink(rules, ident, w1); }
      ReserveFromReady(rules, ident, w1, i, observed, due);
    }
  }

  lemma OwesKey(rules: Rules, ident: Ident, w: World, due: Due)
    requires Lawful(rules) && Owes(rules, ident, w, due)
    ensures w.log != [] && Latest(w).submittedQuoteId.None?
    ensures PhaseOf(rules, Latest(w)) == Submitting ==> Latest(w).submissionKey == Some(due.key)
  {
    hide Prepare, Parse, Follows, WorkersInv, QuotesInv, MessagesInv, SummaryShown, ControlInv, LinkInv;
    PhaseReadsMarkers(rules, Latest(w));
    hide PhaseOf;
    assert Latest(w).(submittedQuoteId := None) == Latest(w);
  }

  lemma BeginsFromReady(rules: Rules, ident: Ident, s: Snapshot, due: Due)
    requires Lawful(rules) && Backbone(rules, s)
    requires Prepare(rules, ident, s) == Ready(due) && PhaseOf(rules, s) == ReadyToSubmit
    ensures Apply(rules, s, DoBegin(due.key)) == Ok(s.(version := s.version + 1, submissionKey := Some(due.key)))
  {
    hide PrepareSubmission, Structured, Complete, PhaseOf;
    KeyIsTrimmed(rules, ident, s.confirmationMessageId.value);
  }

  /** Looking up and, if need be, creating leaves the worker holding the one Quote. */
  lemma HoldsTheQuote(w: World, i: nat, observed: Option<nat>, due: Due, newId: string)
    requires w.log != [] && i in w.workers && w.workers[i] == Reserved(Latest(w).version, observed, due)
    requires ResolveReplay(w.quotes, due)
          == if due.key in w.quotes then SameSubmission(w.quotes[due.key].id) else New
    requires FreshQuoteId(w.quotes, newId)
    ensures var w4 := StepCreate(StepLookUp(w, i), i, newId);
            var id := if due.key in w.quotes then w.quotes[due.key].id else newId;
            w4.row == w.row && w4.log == w.log &&
            i in w4.workers && w4.workers[i] == Holding(Latest(w).version, observed, due, id) &&
            w4.quotes == (if due.key in w.quotes then w.quotes
                          else w.quotes[due.key := Quote(newId, [Revision(CustomerSubmission, due.structured)])]) &&
            SubmitQuote(w.quotes, due, newId) == (w4.quotes, Ok(Receipt(id, due.key !in w.quotes)))
  {
    hide ResolveReplay, FreshQuoteId;
  }

  /** With a reservation in hand: find the Quote or create it, then link. */
  lemma FinishSucceeds(rules: Rules, ident: Ident, w: World, i: nat, observed: Option<nat>, due: Due, newId: string)
    requires Lawful(rules) && Inv(rules, ident, w) && Authorised(w.row, observed)
    requires i in w.workers && w.workers[i] == Reserved(Latest(w).version, observed, due)
    requires Latest(w).submittedQuoteId.None? && FreshQuoteId(w.quotes, newId)
    ensures var w5 := StepLink(rules, StepCreate(StepLookUp(w, i), i, newId), i);
            var id := if due.key in w.quotes then w.quotes[due.key].id else newId;
            w5.quotes == (if due.key in w.quotes then w.quotes
                          else w.quotes[due.key := Quote(newId, [Revision(CustomerSubmission, due.structured)])]) &&
            Inv(rules, ident, w5) && w5.log != [] &&
            Latest(w5) == Latest(w).(version := Latest(w).version + 1, submittedQuoteId := Some(id)) &&
            SubmitQuote(w.quotes, due, newId) == (w5.quotes, Ok(Receipt(id, due.key !in w.quotes))) &&
            TransitionRow(rules, w.row, Latest(w).version, DoMarkSubmitted(id), observed) == Ok((w5.row, Latest(w5)))
  {
    hide Inv, Prepare, TransitionRow, DueOf, OwnKey, StepLink, StepCreate, StepLookUp, Lawful, ResolveReplay,
         SubmitQuote, PhaseOf;
    WorkerKnows(rules, ident, w, i);
    ReservedLookUp(rules, ident, w, due);
    HoldsTheQuote(w, i, observed, due, newId);
    var w3 := StepLookUp(w, i);
    var w4 := StepCreate(w3, i, newId);
    LookUpKeepsInv(rules, ident, w, i);
    CreateKeepsInv(rules, ident, w3, i, newId);
    LinkKeepsInv(rules, ident, w4, i);
    QuoteIdsAreIds(rules, ident, w);
    InvGivesLink(rules, ident, w4);
    LinksFromReserved(rules, w4, i, observed, due, if due.key in w.quotes then w.quotes[due.key].id else newId);
  }

  lemma QuoteIdsAreIds(rules: Rules, ident: Ident, w: World)
    requires Inv(rules, ident, w)
    ensures forall k | k in w.quotes :: IsId(w.quotes[k].id)
  {
  }

  lemma ReservedLookUp(rules: Rules, ident: Ident, w: World, due: Due)
    requires Lawful(rules) && Inv(rules, ident, w)
    requires DueOf(rules, ident, Latest(w)) == Ready(due) && Latest(w).submissionKey == Some(due.key)
    ensures ResolveReplay(w.quotes, due)
         == if due.key in w.quotes then SameSubmission(w.quotes[due.key].id) else New
  {
    hide Prepare, Parse, Follows, Backbone, WorkersInv, MessagesInv, SummaryShown, ControlInv, LinkInv;
    if due.key in w.quotes {
      DueKeyIsOwn(rules, ident, Latest(w));
    }
  }

  lemma LinksFromReserved(rules: Rules, w: World, i: nat, observed: Option<nat>, due: Due, id: string)
    requires Lawful(rules) && LogInv(rules, w) && Authorised(w.row, observed) && IsId(id)
    requires i in w.workers && w.workers[i] == Holding(Latest(w).version, observed, due, id)
    requires Latest(w).submissionKey.Some? && Latest(w).submittedQuoteId.None?
    ensures var w5 := StepLink(rules, w, i);
            w5.quotes == w.quotes && w5.log != [] &&
            Latest(w5) == Latest(w).(version := Latest(w).version + 1, submittedQuoteId := Some(id)) &&
            TransitionRow(rules, w.row, Latest(w).version, DoMarkSubmitted(id), observed) == Ok((w5.row, Latest(w5)))
  {
    var s := Latest(w);
    assert Backbone(rules, s);
    PhaseReadsMarkers(rules, s);
    hide PhaseOf, Backbone, Parse, Follows, TransitionRow, Lawful;
    assert Apply(rules, s, DoMarkSubmitted(id)) == Ok(s.(version := s.version + 1, submittedQuoteId := Some(id)));
    hide Apply;
    CommitSpec(rules, w, s.version, DoMarkSubmitted(id), observed);
  }

  /**
   Crash recovery, and the ordinary case: one uninterrupted attempt under
   automation authority ends SUBMITTED, links the Quote under the reserved key,
   and creates one only if there is none.
   */
  lemma UninterruptedAttemptSubmits(rules: Rules, ident: Ident, w: World, i: nat, observed: Option<nat>, due: Due,
                                    newId: string)
    requires Lawful(rules) && Owes(rules, ident, w, due) && Authorised(w.row, observed)
    requires FreshQuoteId(w.quotes, newId)
    ensures w.row.quoteStateVersion >= 0 && w.log != []
    ensures var w' := Run(rules, ident, w, Attempt(w, i, observed, newId));
            w'.log != [] &&
            var id := if due.key in w.quotes then w.quotes[due.key].id else newId;
            Inv(rules, ident, w') && PhaseOf(rules, Latest(w')) == Submitted &&
            Latest(w') == Latest(w).(version := Latest(w').version, submissionKey := Some(due.key),
                                     submittedQuoteId := Some(id)) &&
            w'.quotes == (if due.key in w.quotes then w.quotes
                          else w.quotes[due.key := Quote(newId, [Revision(CustomerSubmission, due.structured)])]) &&
            SubmitAttempt(rules, ident, w.row, w.quotes, w.row.quoteStateVersion, observed, true, newId)
              == (w'.row, w'.quotes, Ok(Receipt(id, due.key !in w.quotes)))
  {
    hide Inv, Prepare, PhaseOf, TransitionRow, Lawful, StepLoad, StepReserve, StepLookUp, StepCreate, StepLink, SubmitQuote;
    LoadSucceeds(rules, ident, w, i, observed, due);
    ReserveSucceeds(rules, ident, w, i, observed, due);
    var w2 := StepReserve(rules, StepLoad(rules, ident, w, i, w.row.quoteStateVersion, observed, true), i);
    OwesKey(rules, ident, w, due);
    FinishSucceeds(rules, ident, w2, i, observed, due, newId);
    AttemptIsARun(rules, ident, w, i, observed, newId);
    var w' := AfterAttempt(rules, ident, w, i, observed, newId);
    assert PhaseOf(rules, Latest(w')) == Submitted by {
      IdIsTruthy(rules, ident, w', Latest(w').submittedQuoteId.value);
    }
    assert Parse(rules, w.row.quoteState, w.row.quoteStateVersion) == Ok(Latest(w)) by {
      InvGivesLink(rules, ident, w);
    }
  }

  lemma IdIsTruthy(rules: Rules, ident: Ident, w: World, id: string)
    requires Lawful(rules) && Inv(rules, ident, w) && Latest(w).submittedQuoteId == Some(id)
    ensures PhaseOf(rules, Latest(w)) == Submitted
  {
    assert LogInv(rules, w);
    hide Inv;
    PhaseReadsMarkers(rules, Latest(w));
  }

  // ---- fencing ---------------------------------------------------------------------------------------

  lemma StepMovesControl(rules: Rules, ident: Ident, w: World, a: Action)
    ensures var w' := Step(rules, ident, w, a);
            w'.row.controlVersion >= w.row.controlVersion &&
            (w'.row.controlVersion == w.row.controlVersion ==> w'.row.controlState == w.row.controlState)
  {
    hide TransitionRow, Parse, PhaseOf, Prepare, ResolveReplay, FindEvent, OwnKey, IsUuid, Truthy, FreshQuoteId,
         FreshMessageId, Issuable;
    match a {
      case Issue(command, expected, observed) => TransitionKeepsControl(rules, w.row, expected, command, observed);
      case RecordSummary(i) =>
        if i in w.workers && w.workers[i].Summarised? {
          var k := w.workers[i];
          TransitionKeepsControl(rules, w.row, k.version, DoPresentReview(k.messageId), k.observed);
        }
      case Reserve(i) =>
        if i in w.workers && w.workers[i].Loaded? {
          var k := w.workers[i];
          TransitionKeepsControl(rules, w.row, k.version, DoBegin(k.due.key), k.observed);
        }
      case Link(i) =>
        if i in w.workers && w.workers[i].Holding? {
          var k := w.workers[i];
          TransitionKeepsControl(rules, w.row, k.version, DoMarkSubmitted(k.quoteId), k.observed);
        }
      case _ =>
    }
  }

  lemma {:induction false} RunMovesControl(rules: Rules, ident: Ident, w: World, actions: seq<Action>, i: nat)
    requires i <= |actions|
    ensures var mid, end := Run(rules, ident, w, actions[..i]), Run(rules, ident, w, actions);
            w.row.controlVersion <= mid.row.controlVersion <= end.row.controlVersion &&
            (mid.row.controlVersion == end.row.controlVersion ==> mid.row.controlState == end.row.controlState)
    decreases |actions|
  {
    hide Step;
    if actions == [] {
    } else {
      var front := actions[..|actions| - 1];
      StepMovesControl(rules, ident, Run(rules, ident, w, front), actions[|actions| - 1]);
      if i < |actions| {
        assert front[..i] == actions[..i];
        RunMovesControl(rules, ident, w, front, i);
      } else {
        assert actions[..i] == actions;
        RunMovesControl(rules, ident, w, front, |front|);
      }
    }
  }

  /**
   A guarded write that commits was fenced: from the moment its control version
   was observed until it committed, automation held control at that version.
   */
  lemma GuardedCommitWasFenced(rules: Rules, ident: Ident, w: World, actions: seq<Action>, expected: nat,
                               command: Command, i: nat)
    requires i <= |actions|
    requires TransitionRow(rules, Run(rules, ident, w, actions).row, expected, command, Some(w.row.controlVersion)).Ok?
    ensures var mid := Run(rules, ident, w, actions[..i]);
            mid.row.controlState == Automation && mid.row.controlVersion == w.row.controlVersion
  {
    hide Run, Parse, Apply, Encode;
    RunMovesControl(rules, ident, w, actions, i);
  }

  /** Over every run: automation exactly at even versions, event versions 1..n without gaps. */
  lemma ControlAlternates(rules: Rules, ident: Ident, actions: seq<Action>)
    requires Lawful(rules)
    ensures var w := Reached(rules, ident, actions);
            (w.row.controlState == Automation <==> w.row.controlVersion % 2 == 0) &&
            OwnVersions(w.events, ident.conversationId) == seq(w.row.controlVersion, i => i + 1)
  {
    hide Run, LogInv, WorkersInv, QuotesInv, MessagesInv;
    ReachedHasInv(rules, ident, actions);
  }
}
