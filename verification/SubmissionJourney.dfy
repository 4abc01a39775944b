/**
 One conversation from review to Quote: a draft under review that passes field
 validation can be shown, confirmed, reserved, created and linked.
 (apps/api/src/messaging/messaging-quote-live-orchestrator.service.ts,
 messaging-quote-submission.service.ts)
 */
module SubmissionJourney {
  import opened Prelude
  import opened Json
  import opened QuoteState
  import opened SubmissionInput
  import opened ConversationStore
  import opened SubmissionProtocol
  import SubmissionResults
  import SubmissionService

  // ---- the steps -----------------------------------------------------------------------------

  lemma RunJoined(rules: Rules, ident: Ident, w: World, front: seq<Action>, back: seq<Action>)
    ensures Run(rules, ident, w, front + back) == Run(rules, ident, Run(rules, ident, w, front), back)
    decreases |back|
  {
    hide Step;
    if back == [] {
      assert front + back == front;
    } else {
      var most, last := back[..|back| - 1], back[|back| - 1];
      assert front + back == (front + most) + [last] && back == most + [last];
      SubmissionService.RunLast(rules, ident, w, front + most, last);
      SubmissionService.RunLast(rules, ident, Run(rules, ident, w, front), most, last);
      RunJoined(rules, ident, w, front, most);
    }
  }

  /** A sound conversation whose draft is under review and not yet shown, under the observed authority. */
  ghost predicate AwaitsReview(rules: Rules, ident: Ident, w: World, observed: Option<nat>) {
    Inv(rules, ident, w) && Authorised(w.row, observed) && PhaseOf(rules, Latest(w)) == Review &&
    Latest(w).reviewSummaryMessageId.None?
  }

  /** The summary message a review step stores, or the one already stored for this version. */
  function SummaryId(w: World, newId: string): string
    requires w.log != []
  {
    var v := Latest(w).version;
    if v in w.messages then w.messages[v].id else newId
  }

  /** Opening and storing leave the conversation as it was and a worker holding the message. */
  lemma SummaryIsStored(rules: Rules, ident: Ident, w: World, i: nat, observed: Option<nat>, newId: string)
    requires AwaitsReview(rules, ident, w, observed) && FreshMessageId(w.messages, newId)
    ensures var w2 := StepStoreSummary(rules, StepOpenSummary(rules, w, i, observed), i, newId);
            w2.row == w.row && w2.log == w.log && w2.quotes == w.quotes && w2.inbound == w.inbound &&
            i in w2.workers && w2.workers[i] == Summarised(Latest(w).version, observed, SummaryId(w, newId))
    ensures IsId(SummaryId(w, newId))
  {
    hide Backbone, Follows, Parse, PhaseOf, WorkersInv, QuotesInv, LinkInv, SummaryShown, ControlInv, ReservationInv;
  }

  lemma SummaryIsRecorded(rules: Rules, w: World, i: nat, observed: Option<nat>, id: string)
    requires Lawful(rules) && LogInv(rules, w) && Authorised(w.row, observed) && IsId(id)
    requires PhaseOf(rules, Latest(w)) == Review
    requires i in w.workers && w.workers[i] == Summarised(Latest(w).version, observed, id)
    ensures var w3 := StepRecordSummary(rules, w, i);
            LogInv(rules, w3) && w3.row.controlState == w.row.controlState &&
            w3.row.controlVersion == w.row.controlVersion && w3.quotes == w.quotes && w3.inbound == w.inbound &&
            Latest(w3) == Latest(w).(version := Latest(w).version + 1, reviewSummaryMessageId := Some(id),
                                     confirmationMessageId := None, confirmedAt := None)
  {
    hide Commit, TransitionRow, Backbone, Follows, Parse, PhaseOf;
    assert Latest(w).version == |w.log| - 1;
    hide LogInv;
    CommitSpec(rules, w, Latest(w).version, DoPresentReview(id), observed);
  }

  lemma ReviewIsConfirmed(rules: Rules, ident: Ident, w: World, observed: Option<nat>, id: string, at: int)
    requires Lawful(rules) && LogInv(rules, w) && Authorised(w.row, observed) && IsId(id)
    requires PhaseOf(rules, Latest(w)) == Review && Truthy(Latest(w).reviewSummaryMessageId)
    requires Get(w.inbound, id) == Some(at)
    ensures var w5 := Step(rules, ident, w, Issue(DoConfirm(id, at), Latest(w).version, observed));
            LogInv(rules, w5) && w5.row.controlState == w.row.controlState &&
            w5.row.controlVersion == w.row.controlVersion && w5.quotes == w.quotes &&
            Latest(w5) == Latest(w).(version := Latest(w).version + 1, confirmationMessageId := Some(id),
                                     confirmedAt := Some(rules.iso(at)))
  {
    hide Commit, TransitionRow, Backbone, Follows, Parse, PhaseOf;
    assert Latest(w).version == |w.log| - 1;
    hide LogInv;
    CommitSpec(rules, w, Latest(w).version, DoConfirm(id, at), observed);
  }

  /** A confirmed draft that passes validation is ready, and preparing it succeeds. */
  lemma ConfirmedIsReady(rules: Rules, ident: Ident, s: Snapshot, id: string, at: int)
    requires Lawful(rules) && PhaseOf(rules, s) == Review
    requires rules.validate(Obj(CanonicalDraft(s.draft))) == [] && IsId(id)
    ensures var t := s.(version := s.version + 1, confirmationMessageId := Some(id), confirmedAt := Some(rules.iso(at)));
            PhaseOf(rules, t) == ReadyToSubmit && Prepare(rules, ident, t).Ready?
  {
    IsoIsTruthy(rules, at);
    BoundaryReadyExactlyWhen(rules, s.draft, true, false, s.submittedQuoteId);
    assert EveryGroupPresent(s.draft);
    hide Complete, CanonicalDraft, Structured, TransferKeys, KeyOf, PrepareSubmission;
  }

  // ---- from review to Quote ------------------------------------------------------------------

  /** Show the summary, receive the customer's confirmation, confirm. */
  function Confirming(w: World, i: nat, observed: Option<nat>, newId: string, confirmation: string, at: int): seq<Action>
    requires w.log != []
  {
    [OpenSummary(i, observed), StoreSummary(i, newId), RecordSummary(i), Receive(confirmation, at),
     Issue(DoConfirm(confirmation, at), Latest(w).version + 1, observed)]
  }

  ghost function Shown(rules: Rules, w: World, i: nat, observed: Option<nat>, newId: string): World {
    StepRecordSummary(rules, StepStoreSummary(rules, StepOpenSummary(rules, w, i, observed), i, newId), i)
  }

  lemma ConfirmingIsFiveSteps(rules: Rules, ident: Ident, w: World, i: nat, observed: Option<nat>, newId: string,
                              confirmation: string, at: int)
    requires w.log != []
    ensures Run(rules, ident, w, Confirming(w, i, observed, newId, confirmation, at))
         == Step(rules, ident, Step(rules, ident, Shown(rules, w, i, observed, newId), Receive(confirmation, at)),
                 Issue(DoConfirm(confirmation, at), Latest(w).version + 1, observed))
  {
    hide StepOpenSummary, StepStoreSummary, StepRecordSummary, Commit;
    var a := Confirming(w, i, observed, newId, confirmation, at);
    assert a == [] + [a[0]] + [a[1]] + [a[2]] + [a[3]] + [a[4]];
    SubmissionService.RunLast(rules, ident, w, [], a[0]);
    SubmissionService.RunLast(rules, ident, w, [] + [a[0]], a[1]);
    SubmissionService.RunLast(rules, ident, w, [] + [a[0]] + [a[1]], a[2]);
    SubmissionService.RunLast(rules, ident, w, [] + [a[0]] + [a[1]] + [a[2]], a[3]);
    SubmissionService.RunLast(rules, ident, w, [] + [a[0]] + [a[1]] + [a[2]] + [a[3]], a[4]);
  }

  lemma ReviewIsShown(rules: Rules, ident: Ident, w: World, i: nat, observed: Option<nat>, newId: string)
    requires Lawful(rules) && AwaitsReview(rules, ident, w, observed) && FreshMessageId(w.messages, newId)
    ensures w.log != []
    ensures var w3 := Shown(rules, w, i, observed, newId);
            LogInv(rules, w3) && Authorised(w3.row, observed) && w3.quotes == w.quotes && w3.inbound == w.inbound &&
            Latest(w3) == Latest(w).(version := Latest(w).version + 1,
                                     reviewSummaryMessageId := Some(SummaryId(w, newId)),
                                     confirmationMessageId := None, confirmedAt := None) &&
            PhaseOf(rules, Latest(w3)) == Review && Truthy(Latest(w3).reviewSummaryMessageId)
  {
    SummaryIsStored(rules, ident, w, i, observed, newId);
    var w2 := StepStoreSummary(rules, StepOpenSummary(rules, w, i, observed), i, newId);
    LogFrame(rules, w, w2);
    hide StepOpenSummary, StepStoreSummary, StepRecordSummary, LogInv, Inv, Complete, SummaryId;
    SummaryIsRecorded(rules, w2, i, observed, SummaryId(w, newId));
  }

  /** After the five steps the conversation owes its submission, to nobody else yet. */
  lemma ConfirmingLeavesItOwed(rules: Rules, ident: Ident, w: World, i: nat, observed: Option<nat>, newId: string,
                               confirmation: string, at: int)
    requires Lawful(rules) && AwaitsReview(rules, ident, w, observed) && FreshMessageId(w.messages, newId)
    requires rules.validate(Obj(CanonicalDraft(Latest(w).draft))) == []
    requires IsId(confirmation) && confirmation !in w.inbound
    ensures w.log != []
    ensures var w5 := Run(rules, ident, w, Confirming(w, i, observed, newId, confirmation, at));
            w5.log != [] && Authorised(w5.row, observed) && w5.quotes == w.quotes &&
            Latest(w5).draft == Latest(w).draft && Latest(w5).confirmationMessageId == Some(confirmation) &&
            Prepare(rules, ident, Latest(w5)).Ready? &&
            SubmissionService.Owes(rules, ident, w5, Prepare(rules, ident, Latest(w5)).due)
  {
    ReviewIsShown(rules, ident, w, i, observed, newId);
    ConfirmingIsFiveSteps(rules, ident, w, i, observed, newId, confirmation, at);
    RunKeepsInv(rules, ident, w, Confirming(w, i, observed, newId, confirmation, at));
    var w3 := Shown(rules, w, i, observed, newId);
    var w4 := w3.(inbound := w3.inbound[confirmation := at]);
    assert Step(rules, ident, w3, Receive(confirmation, at)) == w4;
    LogFrame(rules, w3, w4);
    hide Run, Step, Shown, LogInv, Inv, PhaseOf, Prepare, CanonicalDraft, Confirming, SummaryId;
    ReviewIsConfirmed(rules, ident, w4, observed, confirmation, at);
    ConfirmedIsReady(rules, ident, Latest(w4), confirmation, at);
  }

  /** Every valid draft under review can be submitted: ten undisturbed steps end with its one Quote, linked. */
  lemma ReviewsCanBeSubmitted(rules: Rules, ident: Ident, w: World, i: nat, observed: Option<nat>, newId: string,
                              confirmation: string, at: int, newQuote: string)
    returns (actions: seq<Action>)
    requires Lawful(rules) && AwaitsReview(rules, ident, w, observed) && FreshMessageId(w.messages, newId)
    requires rules.validate(Obj(CanonicalDraft(Latest(w).draft))) == []
    requires IsId(confirmation) && confirmation !in w.inbound && FreshQuoteId(w.quotes, newQuote)
    ensures |actions| == 10
    ensures var end, key := Run(rules, ident, w, actions), KeyOf(rules, ident, confirmation);
            end.log != [] && PhaseOf(rules, Latest(end)) == Submitted &&
            Latest(end).submissionKey == Some(key) && Latest(end).submittedQuoteId == Some(newQuote) &&
            key in end.quotes && end.quotes[key].id == newQuote &&
            Latest(end).draft == Latest(w).draft &&
            (var own := FromCustomer(end.quotes[key].revisions);
             |own| == 1 && own[0].structured.Obj? &&
             CanonicalDraft(own[0].structured.fields) == CanonicalDraft(Latest(w).draft))
  {
    hide *;
    ConfirmingLeavesItOwed(rules, ident, w, i, observed, newId, confirmation, at);
    var front := Confirming(w, i, observed, newId, confirmation, at);
    var w5 := Run(rules, ident, w, front);
    var due := Prepare(rules, ident, Latest(w5)).due;
    SubmissionService.UninterruptedAttemptSubmits(rules, ident, w5, i, observed, due, newQuote);
    var back := SubmissionService.Attempt(w5, i, observed, newQuote);
    RunJoined(rules, ident, w, front, back);
    actions := front + back;
    FiveAndFive(rules, ident, w, w5, i, observed, newId, confirmation, at, newQuote);
    DueKeyIs(rules, ident, Latest(w5), due);
    ReviewIsUnreserved(rules, ident, w, observed);
    NoQuoteWithoutReservation(rules, ident, w, due.key);
    var end := Run(rules, ident, w, actions);
    var shown := SubmissionResults.InvOfQuote(rules, ident, end, due.key);
  }

  lemma FiveAndFive(rules: Rules, ident: Ident, w: World, w5: World, i: nat, observed: Option<nat>, newId: string,
                    confirmation: string, at: int, newQuote: string)
    requires w.log != [] && w5.row.quoteStateVersion >= 0
    ensures |Confirming(w, i, observed, newId, confirmation, at)| == 5
    ensures |SubmissionService.Attempt(w5, i, observed, newQuote)| == 5
  {
  }

  lemma ReviewIsUnreserved(rules: Rules, ident: Ident, w: World, observed: Option<nat>)
    requires Lawful(rules) && AwaitsReview(rules, ident, w, observed)
    ensures w.log != [] && Inv(rules, ident, w) && Latest(w).submissionKey.None?
  {
    hide WorkersInv, QuotesInv, LinkInv, MessagesInv, SummaryShown, ControlInv, ReservationInv, Parse, Follows;
    PhaseReadsMarkers(rules, Latest(w));
    hide PhaseOf, Backbone;
  }

  lemma NoQuoteWithoutReservation(rules: Rules, ident: Ident, w: World, key: string)
    requires w.log != [] && Inv(rules, ident, w) && Latest(w).submissionKey.None? && OwnKey(rules, ident, key)
    ensures key !in w.quotes
  {
    hide LogInv, WorkersInv, LinkInv, MessagesInv, SummaryShown, ControlInv, ReservationInv, OwnKey, DueOf;
  }

  lemma DueKeyIs(rules: Rules, ident: Ident, s: Snapshot, due: Due)
    requires Prepare(rules, ident, s) == Ready(due)
    ensures s.confirmationMessageId.Some? && due.key == KeyOf(rules, ident, s.confirmationMessageId.value)
    ensures OwnKey(rules, ident, due.key)
  {
    hide KeyOf, Structured, TransferKeys, PrepareSubmission;
  }

  // ---- from the first message ----------------------------------------------------------------

  /** The draft a first patch leaves. */
  function FirstDraft(patch: Fields): Fields {
    Merge(Some(Obj(map[])), Obj(patch)).fields
  }

  lemma FirstPatchIsMerged(rules: Rules, ident: Ident, patch: Fields)
    requires Lawful(rules) && Complete(rules, FirstDraft(patch))
    ensures var w := Run(rules, ident, Start, [Issue(DoUpdateDraft(patch), 0, Some(0))]);
            AwaitsReview(rules, ident, w, Some(0)) && Latest(w).draft == FirstDraft(patch) &&
            w.messages == map[] && w.inbound == map[] && w.quotes == map[]
  {
    var update := Issue(DoUpdateDraft(patch), 0, Some(0));
    StartHasInv(rules, ident);
    RunKeepsInv(rules, ident, Start, [update]);
    assert [update] == [] + [update];
    SubmissionService.RunLast(rules, ident, Start, [], update);
    CommitSpec(rules, Start, 0, DoUpdateDraft(patch), Some(0));
    hide Run, Commit, TransitionRow, LogInv, Inv, Complete, Merge;
  }

  lemma NewIdentifiers(rules: Rules, ident: Ident)
    ensures IsId("confirmation") && FreshMessageId(map[], "summary") && FreshQuoteId(map[], "quote")
    ensures OwnKey(rules, ident, KeyOf(rules, ident, "confirmation"))
  {
    hide KeyOf;
  }

  /** So in a new conversation every complete and valid draft can become a Quote, and the protocol is not idle. */
  lemma CompleteDraftsCanBecomeQuotes(rules: Rules, ident: Ident, patch: Fields, at: int)
    returns (actions: seq<Action>, key: string)
    requires Lawful(rules) && Complete(rules, FirstDraft(patch))
    requires rules.validate(Obj(CanonicalDraft(FirstDraft(patch)))) == []
    ensures var end := Run(rules, ident, Start, actions);
            end.log != [] && PhaseOf(rules, Latest(end)) == Submitted && key in end.quotes && OwnKey(rules, ident, key) &&
            (var own := FromCustomer(end.quotes[key].revisions);
             |own| == 1 && own[0].structured.Obj? &&
             CanonicalDraft(own[0].structured.fields) == CanonicalDraft(FirstDraft(patch)))
  {
    hide *;
    FirstPatchIsMerged(rules, ident, patch);
    NewIdentifiers(rules, ident);
    var first := [Issue(DoUpdateDraft(patch), 0, Some(0))];
    var w := Run(rules, ident, Start, first);
    var rest := ReviewsCanBeSubmitted(rules, ident, w, 0, Some(0), "summary", "confirmation", at, "quote");
    actions, key := first + rest, KeyOf(rules, ident, "confirmation");
    RunJoined(rules, ident, Start, first, rest);
  }
}
