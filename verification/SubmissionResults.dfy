/** What every run of the guided submission protocol guarantees. */
module SubmissionResults {
  import opened Prelude
  import opened Json
  import opened QuoteState
  import opened SubmissionInput
  import opened ConversationStore
  import opened SubmissionProtocol
  import Text

  ghost function Reached(rules: Rules, ident: Ident, actions: seq<Action>): World {
    Run(rules, ident, Start, actions)
  }

  lemma ReachedHasInv(rules: Rules, ident: Ident, actions: seq<Action>)
    requires Lawful(rules)
    ensures Inv(rules, ident, Reached(rules, ident, actions))
  {
    hide Inv;
    StartHasInv(rules, ident);
    RunKeepsInv(rules, ident, Start, actions);
  }

  // ---- exactly once ----------------------------------------------------------------------------

  /** However workers interleave, crash and retry, the conversation has at most one Quote. */
  lemma AtMostOneQuote(rules: Rules, ident: Ident, actions: seq<Action>, key: string, key': string)
    requires Lawful(rules)
    requires var w := Reached(rules, ident, actions);
             key in w.quotes && OwnKey(rules, ident, key) && key' in w.quotes && OwnKey(rules, ident, key')
    ensures key == key'
  {
    ReachedHasInv(rules, ident, actions);
  }

  /** Two conversations never share a key, whatever messages confirm them: what others create is created elsewhere. */
  lemma OthersHaveOtherKeys(rules: Rules, ident: Ident, other: Ident, message: string)
    requires Lawful(rules)
    requires var p, p' := Text.Lower(Text.Trim(ident.provider)), Text.Lower(Text.Trim(other.provider));
             !Text.HasNewline(ident.conversationId) && !Text.HasNewline(other.conversationId) &&
             !Text.HasNewline(p) && !Text.HasNewline(p') &&
             (ident.conversationId != other.conversationId || p != p')
    ensures !OwnKey(rules, ident, KeyOf(rules, other, message))
  {
    var key := KeyOf(rules, other, message);
    if OwnKey(rules, ident, key) {
      var m :| key == KeyOf(rules, ident, m);
      var p, p' := Text.Lower(Text.Trim(ident.provider)), Text.Lower(Text.Trim(other.provider));
      var s, s' := p + "\n" + ident.conversationId + "\n" + m, p' + "\n" + other.conversationId + "\n" + message;
      assert rules.digest(s) == key[|"messaging:"|..] == rules.digest(s');
      var rest, rest' := ident.conversationId + "\n" + m, other.conversationId + "\n" + message;
      assert s == p + "\n" + rest && s' == p' + "\n" + rest';
      Text.FirstLineUnique(p, rest, p', rest');
      Text.FirstLineUnique(ident.conversationId, m, other.conversationId, message);
    }
  }

  /** Whenever a review is on record, the message it names was sent with the summary of the current draft. */
  lemma TheSummaryShowsTheDraft(rules: Rules, ident: Ident, actions: seq<Action>)
    requires Lawful(rules)
    ensures var w := Reached(rules, ident, actions);
            w.log != [] &&
            (Latest(w).reviewSummaryMessageId.Some? ==>
               exists v :: v in w.messages && w.messages[v].id == Latest(w).reviewSummaryMessageId.value &&
                           w.messages[v].text == rules.summary(Latest(w).draft))
  {
    ReachedHasInv(rules, ident, actions);
    hide Run, Reached, LogInv, WorkersInv, QuotesInv, LinkInv, MessagesInv, ControlInv, ReservationInv;
  }

  lemma DueKeyIsOwn(rules: Rules, ident: Ident, s: Snapshot)
    requires DueOf(rules, ident, s).Ready?
    ensures OwnKey(rules, ident, DueOf(rules, ident, s).due.key)
  {
    hide PrepareSubmission, Structured;
    assert DueOf(rules, ident, s).due.key == KeyOf(rules, ident, s.confirmationMessageId.value);
  }

  /** It stands under the reserved key, holds what is due, and a recorded link names it. */
  lemma QuoteIsTheReservedOne(rules: Rules, ident: Ident, actions: seq<Action>)
    requires Lawful(rules)
    ensures var w := Reached(rules, ident, actions);
            w.log != [] &&
            var s := Latest(w);
            (s.submittedQuoteId.Some? ==>
               s.submissionKey.Some? && OwnKey(rules, ident, s.submissionKey.value) &&
               s.submissionKey.value in w.quotes &&
               w.quotes[s.submissionKey.value].id == s.submittedQuoteId.value) &&
            (forall k | k in w.quotes && OwnKey(rules, ident, k) :: s.submissionKey == Some(k))
  {
    hide Run, Step, Prepare, Parse, Follows, WorkersInv, MessagesInv, SummaryShown, ControlInv, FromCustomer, Backbone;
    ReachedHasInv(rules, ident, actions);
    var w := Reached(rules, ident, actions);
    var s := Latest(w);
    if s.submissionKey.Some? {
      DueKeyIsOwn(rules, ident, s);
    }
  }

  /** A replay lookup never meets different data, and after a lost race it always finds the same submission. */
  lemma ReplayNeverConflicts(rules: Rules, ident: Ident, actions: seq<Action>, i: nat)
    requires Lawful(rules)
    requires var w := Reached(rules, ident, actions);
             i in w.workers && (w.workers[i].Reserved? || w.workers[i].Collided?)
    ensures var w := Reached(rules, ident, actions);
            var r := ResolveReplay(w.quotes, w.workers[i].due);
            if w.workers[i].due.key in w.quotes then r == SameSubmission(w.quotes[w.workers[i].due.key].id) else r == New
  {
    hide Backbone, Parse, Follows, ControlInv, Prepare, LogInv, MessagesInv, SummaryShown, Run, Step, WorkersInv, LinkInv;
    ReachedHasInv(rules, ident, actions);
    var w := Reached(rules, ident, actions);
    var k := w.workers[i];
    WorkerKnows(rules, ident, w, i);
    if k.due.key in w.quotes {
      DueKeyIsOwn(rules, ident, Latest(w));
    }
  }

  // ---- nothing already recorded is lost ----------------------------------------------------------

  /** Snapshots are only appended; summaries stay; a Quote keeps its key, its identity and its customer submission. */
  ghost predicate Extends(w: World, w': World) {
    w.log <= w'.log &&
    (forall v | v in w.messages :: v in w'.messages && w'.messages[v] == w.messages[v]) &&
    forall k | k in w.quotes ::
      k in w'.quotes && w'.quotes[k].id == w.quotes[k].id &&
      FromCustomer(w'.quotes[k].revisions) == FromCustomer(w.quotes[k].revisions)
  }

  lemma CommitExtends(rules: Rules, w: World, expected: nat, command: Command, observed: Option<nat>)
    ensures var r := Commit(rules, w, expected, command, observed);
            r.Ok? ==> Extends(w, r.value)
  {
    hide TransitionRow, FromCustomer;
  }

  /** A step that leaves the log and the Quote table alone, and at most adds a message. */
  predicate Quiet(w: World, w': World) {
    w'.log == w.log && w'.quotes == w.quotes &&
    forall v | v in w.messages :: v in w'.messages && w'.messages[v] == w.messages[v]
  }

  lemma QuietSteps(rules: Rules, ident: Ident, w: World, a: Action)
    requires a.Receive? || a.ChangeAuthority? || a.OpenSummary? || a.StoreSummary? || a.Load? || a.LookUp? || a.Crash?
    ensures Quiet(w, Step(rules, ident, w, a))
  {
    hide Parse, Prepare, ChangeControl, PhaseOf, ResolveReplay, Truthy, FreshMessageId;
  }

  lemma QuoteSteps(rules: Rules, ident: Ident, w: World, a: Action)
    requires a.Create? || a.Revise? || a.CreateElsewhere?
    ensures Extends(w, Step(rules, ident, w, a))
  {
    hide FromCustomer, OwnKey, FreshQuoteId;
    if a.Revise? && a.key in w.quotes {
      RevisingKeepsCustomerRevisions(w.quotes[a.key].revisions, a.structured);
    }
  }

  lemma StepExtends(rules: Rules, ident: Ident, w: World, a: Action)
    ensures Extends(w, Step(rules, ident, w, a))
  {
    hide TransitionRow, Commit, FromCustomer, StepOpenSummary, StepStoreSummary, StepLoad, StepLookUp, StepCreate, Issuable;
    match a {
      case Issue(command, expected, observed) => CommitExtends(rules, w, expected, command, observed);
      case RecordSummary(i) =>
        if i in w.workers && w.workers[i].Summarised? {
          var k := w.workers[i];
          CommitExtends(rules, w, k.version, DoPresentReview(k.messageId), k.observed);
        }
      case Link(i) =>
        if i in w.workers && w.workers[i].Holding? {
          var k := w.workers[i];
          CommitExtends(rules, w, k.version, DoMarkSubmitted(k.quoteId), k.observed);
        }
      case Reserve(i) =>
      case Create(_, _) => QuoteSteps(rules, ident, w, a);
      case Revise(_, _) => QuoteSteps(rules, ident, w, a);
      case CreateElsewhere(_, _) => QuoteSteps(rules, ident, w, a);
      case _ => QuietSteps(rules, ident, w, a);
    }
  }

  lemma {:induction false} RunExtends(rules: Rules, ident: Ident, w: World, actions: seq<Action>)
    ensures Extends(w, Run(rules, ident, w, actions))
    decreases |actions|
  {
    hide Step, FromCustomer, Lawful;
    if actions != [] {
      var front := actions[..|actions| - 1];
      RunExtends(rules, ident, w, front);
      StepExtends(rules, ident, Run(rules, ident, w, front), actions[|actions| - 1]);
    }
  }

  lemma StepFreezes(rules: Rules, s: Snapshot, t: Snapshot)
    requires Backbone(rules, s) && s.submissionKey.Some? && Follows(rules, s, t)
    ensures s.submittedQuoteId.None?
    ensures t == s.(version := s.version + 1, submittedQuoteId := t.submittedQuoteId)
  {
    var command :| Apply(rules, s, command) == Ok(t);
    ReservedIsFrozen(rules, s, command);
  }

  /** Along the log, a reservation freezes the facts and a link stays. */
  lemma {:induction false} LogFreezes(rules: Rules, w: World, i: nat, j: nat)
    requires LogInv(rules, w) && i <= j < |w.log| && w.log[i].submissionKey.Some?
    ensures w.log[j] == w.log[i].(version := j, submittedQuoteId := w.log[j].submittedQuoteId)
    ensures w.log[i].submittedQuoteId.Some? ==> j == i
    decreases j - i
  {
    hide Backbone, Parse, Follows;
    if i < j {
      LogFreezes(rules, w, i, j - 1);
      StepFreezes(rules, w.log[j - 1], w.log[j]);
    }
  }

  lemma InvGivesLink(rules: Rules, ident: Ident, w: World)
    requires Inv(rules, ident, w)
    ensures w.log != [] && LogInv(rules, w) && LinkInv(w) && Latest(w).version == |w.log| - 1
  {
  }

  /** Once reserved, the facts and the key never change again; once linked, the link never does. */
  lemma LinkIsForEver(rules: Rules, ident: Ident, actions: seq<Action>, more: seq<Action>)
    requires Lawful(rules)
    ensures var w := Reached(rules, ident, actions);
            var w' := Run(rules, ident, w, more);
            w.log != [] && w'.log != [] &&
            var s, s' := Latest(w), Latest(w');
            (s.submissionKey.Some? ==>
               s' == s.(version := s'.version, submittedQuoteId := s'.submittedQuoteId)) &&
            (s.submittedQuoteId.Some? ==>
               s' == s && s.submissionKey.Some? && s.submissionKey.value in w'.quotes &&
               w'.quotes[s.submissionKey.value].id == s.submittedQuoteId.value)
  {
    hide Inv, Run, Step, FromCustomer;
    var w := Reached(rules, ident, actions);
    var w' := Run(rules, ident, w, more);
    ReachedHasInv(rules, ident, actions);
    RunKeepsInv(rules, ident, w, more);
    RunExtends(rules, ident, w, more);
    InvGivesLink(rules, ident, w);
    InvGivesLink(rules, ident, w');
    if Latest(w).submissionKey.Some? {
      assert w'.log[|w.log| - 1] == Latest(w);
      LogFreezes(rules, w', |w.log| - 1, |w'.log| - 1);
    }
  }

  // ---- what was reviewed is what is submitted ------------------------------------------------------

  /** Back to the transition that presented the review still standing at `n`. */
  lemma {:induction false} PresentedAt(rules: Rules, w: World, n: nat) returns (r: nat)
    requires Lawful(rules) && LogInv(rules, w) && n < |w.log| && w.log[n].reviewSummaryMessageId.Some?
    ensures 0 < r <= n && PhaseOf(rules, w.log[r - 1]) == Review
    ensures w.log[r - 1].confirmationMessageId.None? && w.log[r].confirmationMessageId.None?
    ensures w.log[r].reviewSummaryMessageId == w.log[n].reviewSummaryMessageId
    ensures forall i | r - 1 <= i <= n :: w.log[i].draft == w.log[n].draft
    ensures forall i | r <= i <= n :: w.log[i].reviewSummaryMessageId == w.log[n].reviewSummaryMessageId
    decreases n
  {
    hide Parse, PhaseOf, Follows, Backbone;
    assert n > 0;
    var presented := FollowsReview(rules, w.log[n - 1], w.log[n]);
    if presented {
      r := n;
    } else {
      r := PresentedAt(rules, w, n - 1);
    }
  }

  /** A step into a reviewed snapshot either presents the review or carries it, with the draft, along. */
  lemma FollowsReview(rules: Rules, s: Snapshot, t: Snapshot) returns (presented: bool)
    requires Lawful(rules) && Backbone(rules, s) && Follows(rules, s, t) && t.reviewSummaryMessageId.Some?
    ensures t.draft == s.draft
    ensures presented ==>
              PhaseOf(rules, s) == Review && s.confirmationMessageId.None? && t.confirmationMessageId.None?
    ensures !presented ==> t.reviewSummaryMessageId == s.reviewSummaryMessageId
  {
    PhaseReadsMarkers(rules, s);
    hide PhaseOf, Lawful, Backbone, Apply;
    var command :| Apply(rules, s, command) == Ok(t);
    CommandEffects(rules, s, command);
    presented := command.DoPresentReview?;
  }

  /** A step into a confirmed snapshot either confirms a review or carries the confirmation along. */
  lemma FollowsConfirmation(rules: Rules, s: Snapshot, t: Snapshot) returns (confirmed: bool)
    requires Lawful(rules) && Backbone(rules, s) && Follows(rules, s, t) && t.confirmationMessageId.Some?
    ensures t.draft == s.draft && t.reviewSummaryMessageId == s.reviewSummaryMessageId
    ensures t.reviewSummaryMessageId.Some?
    ensures confirmed ==> PhaseOf(rules, s) == Review && s.confirmationMessageId.None?
    ensures !confirmed ==> t.confirmationMessageId == s.confirmationMessageId
  {
    PhaseReadsMarkers(rules, s);
    assert s.confirmationMessageId.Some? ==> s.reviewSummaryMessageId.Some?;
    hide PhaseOf, Lawful, Backbone, Apply;
    var command :| Apply(rules, s, command) == Ok(t);
    CommandEffects(rules, s, command);
    confirmed := command.DoConfirm?;
  }

  /** Back to the confirmation still standing at `n`. */
  lemma {:induction false} ConfirmedAtStep(rules: Rules, w: World, n: nat) returns (c: nat)
    requires Lawful(rules) && LogInv(rules, w) && n < |w.log| && w.log[n].confirmationMessageId.Some?
    ensures 0 < c <= n && PhaseOf(rules, w.log[c - 1]) == Review && w.log[c - 1].confirmationMessageId.None?
    ensures w.log[c].confirmationMessageId == w.log[n].confirmationMessageId
    ensures w.log[n].reviewSummaryMessageId.Some?
    ensures forall i | c - 1 <= i <= n ::
              w.log[i].draft == w.log[n].draft && w.log[i].reviewSummaryMessageId == w.log[n].reviewSummaryMessageId
    decreases n
  {
    hide Parse, PhaseOf, Follows, Backbone;
    assert n > 0;
    var confirmed := FollowsConfirmation(rules, w.log[n - 1], w.log[n]);
    if confirmed {
      c := n;
    } else {
      c := ConfirmedAtStep(rules, w, n - 1);
    }
  }

  /** Back to the reservation still standing at `n`. */
  lemma {:induction false} ReservedAtStep(rules: Rules, w: World, n: nat) returns (b: nat)
    requires Lawful(rules) && LogInv(rules, w) && n < |w.log| && w.log[n].submissionKey.Some?
    ensures 0 < b <= n && w.log[b - 1].submissionKey.None? && w.log[b].submissionKey == w.log[n].submissionKey
    ensures PhaseOf(rules, w.log[b - 1]) == ReadyToSubmit
    ensures forall i | b - 1 <= i <= n ::
              w.log[i].draft == w.log[n].draft &&
              w.log[i].confirmationMessageId == w.log[n].confirmationMessageId
    decreases n
  {
    hide Parse, PhaseOf, Follows, Backbone;
    assert n > 0;
    if w.log[n - 1].submissionKey.None? {
      b := n;
      FollowsReservation(rules, w.log[n - 1], w.log[n]);
    } else {
      StepFreezes(rules, w.log[n - 1], w.log[n]);
      b := ReservedAtStep(rules, w, n - 1);
    }
  }

  lemma FollowsReservation(rules: Rules, s: Snapshot, t: Snapshot)
    requires Lawful(rules) && Backbone(rules, s) && Follows(rules, s, t)
    requires s.submissionKey.None? && t.submissionKey.Some?
    ensures PhaseOf(rules, s) == ReadyToSubmit
    ensures t.draft == s.draft && t.confirmationMessageId == s.confirmationMessageId
  {
    PhaseReadsMarkers(rules, s);
    hide PhaseOf, Lawful, Backbone, Apply;
    var command :| Apply(rules, s, command) == Ok(t);
    CommandEffects(rules, s, command);
  }

  /**
   Every Quote of the conversation has a history: the review was presented, then
   confirmed, then reserved; from the review on the draft never changed; the
   message the customer confirmed shows that draft; and the Quote stores it.
   */
  lemma ReviewedIsSubmitted(rules: Rules, ident: Ident, actions: seq<Action>, key: string)
    returns (presented: nat, confirmed: nat, reserved: nat, message: nat)
    requires Lawful(rules)
    requires key in Reached(rules, ident, actions).quotes && OwnKey(rules, ident, key)
    ensures var w := Reached(rules, ident, actions);
            0 < presented < confirmed < reserved < |w.log| &&
            PhaseOf(rules, w.log[presented - 1]) == Review &&
            PhaseOf(rules, w.log[confirmed - 1]) == Review && w.log[confirmed - 1].confirmationMessageId.None? &&
            PhaseOf(rules, w.log[reserved - 1]) == ReadyToSubmit && w.log[reserved].submissionKey == Some(key) &&
            (forall i | presented - 1 <= i < |w.log| :: w.log[i].draft == Latest(w).draft) &&
            (forall i | presented <= i < confirmed ::
               w.log[i].reviewSummaryMessageId == w.log[presented].reviewSummaryMessageId) &&
            message in w.messages &&
            w.log[presented].reviewSummaryMessageId == Some(w.messages[message].id) &&
            w.messages[message].text == rules.summary(w.log[presented].draft) &&
            (var own := FromCustomer(w.quotes[key].revisions);
             |own| == 1 && own[0].structured.Obj? &&
             CanonicalDraft(own[0].structured.fields) == CanonicalDraft(w.log[presented].draft) &&
             RecordsItsOrigin(rules, ident, Latest(w), own[0].structured)) &&
            Latest(w).confirmationMessageId == w.log[confirmed].confirmationMessageId
  {
    hide *;
    ReachedHasInv(rules, ident, actions);
    var w := Reached(rules, ident, actions);
    message := InvOfQuote(rules, ident, w, key);
    var n := LastOf(w);
    reserved := ReservedAtStep(rules, w, n);
    confirmed := ConfirmedAtStep(rules, w, n);
    presented := PresentedAt(rules, w, confirmed - 1);
    InThisOrder(rules, w, presented, confirmed, reserved);
  }

  lemma LastOf(w: World) returns (n: nat)
    requires w.log != []
    ensures n == |w.log| - 1 && w.log[n] == Latest(w)
  {
    n := |w.log| - 1;
  }

  /** A reservation cannot come before the confirmation it rests on: its predecessor is confirmed. */
  lemma InThisOrder(rules: Rules, w: World, presented: nat, confirmed: nat, reserved: nat)
    requires Lawful(rules) && LogInv(rules, w) && presented < confirmed < |w.log| && 0 < reserved < |w.log|
    requires w.log[confirmed - 1].confirmationMessageId.None? && PhaseOf(rules, w.log[reserved - 1]) == ReadyToSubmit
    requires forall i | reserved - 1 <= i < |w.log| :: w.log[i].confirmationMessageId == Latest(w).confirmationMessageId
    requires Latest(w).confirmationMessageId.Some?
    ensures confirmed < reserved
  {
  }

  lemma QuoteHoldsWhatIsDue(rules: Rules, ident: Ident, w: World, key: string)
    requires Inv(rules, ident, w) && key in w.quotes && OwnKey(rules, ident, key)
    ensures w.log != [] && LogInv(rules, w) && Latest(w).submissionKey == Some(key)
    ensures DueOf(rules, ident, Latest(w)).Ready?
    ensures FromCustomer(w.quotes[key].revisions)
         == [Revision(CustomerSubmission, DueOf(rules, ident, Latest(w)).due.structured)]
  {
    InvGivesLink(rules, ident, w);
    hide LogInv, WorkersInv, LinkInv, MessagesInv, SummaryShown, ControlInv, ReservationInv, DueOf, FromCustomer;
  }

  /** What is due records the draft and the origin of the snapshot, linked or not. */
  lemma DueRecordsTheSnapshot(rules: Rules, ident: Ident, s: Snapshot)
    requires Lawful(rules) && DueOf(rules, ident, s).Ready?
    ensures var structured := DueOf(rules, ident, s).due.structured;
            structured.Obj? && CanonicalDraft(structured.fields) == CanonicalDraft(s.draft) &&
            RecordsItsOrigin(rules, ident, s, structured)
  {
    var unlinked := s.(submittedQuoteId := None);
    hide Prepare, CanonicalDraft, At, ListsThePhotos, Lawful;
    StructuredHoldsDraft(rules, ident, unlinked);
    StructuredRecordsItsOrigin(rules, ident, unlinked);
  }

  lemma ReservedIsReviewed(rules: Rules, ident: Ident, w: World)
    requires Inv(rules, ident, w) && w.log != [] && Latest(w).submissionKey.Some?
    ensures Latest(w).confirmationMessageId.Some? && Latest(w).reviewSummaryMessageId.Some?
    ensures SummaryShown(rules, w, Latest(w))
  {
    hide Parse, Follows, WorkersInv, QuotesInv, LinkInv, MessagesInv, ControlInv, ReservationInv, SummaryShown;
  }

  lemma TheShownMessage(rules: Rules, w: World, s: Snapshot) returns (v: nat)
    requires SummaryShown(rules, w, s) && s.reviewSummaryMessageId.Some?
    ensures v in w.messages && Some(w.messages[v].id) == s.reviewSummaryMessageId
    ensures w.messages[v].text == rules.summary(s.draft)
  {
    v :| v in w.messages && w.messages[v].id == s.reviewSummaryMessageId.value &&
         w.messages[v].text == rules.summary(s.draft);
  }

  /** What the invariant says at a Quote of this conversation. */
  lemma InvOfQuote(rules: Rules, ident: Ident, w: World, key: string) returns (v: nat)
    requires Lawful(rules) && Inv(rules, ident, w) && key in w.quotes && OwnKey(rules, ident, key)
    ensures w.log != [] && LogInv(rules, w) && Latest(w).submissionKey == Some(key)
    ensures Latest(w).confirmationMessageId.Some? && Latest(w).reviewSummaryMessageId.Some?
    ensures v in w.messages && Some(w.messages[v].id) == Latest(w).reviewSummaryMessageId
    ensures w.messages[v].text == rules.summary(Latest(w).draft)
    ensures var own := FromCustomer(w.quotes[key].revisions);
            |own| == 1 && own[0].structured.Obj? &&
            CanonicalDraft(own[0].structured.fields) == CanonicalDraft(Latest(w).draft) &&
            RecordsItsOrigin(rules, ident, Latest(w), own[0].structured)
  {
    hide *;
    QuoteHoldsWhatIsDue(rules, ident, w, key);
    DueRecordsTheSnapshot(rules, ident, Latest(w));
    ReservedIsReviewed(rules, ident, w);
    v := TheShownMessage(rules, w, Latest(w));
  }
}
