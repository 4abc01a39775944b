/**
 Confirmations go back to messages: over every run the evidence of a conversation names a message it received, at the
 time it was received.
 (apps/api/src/messaging/messaging-quote-live-orchestrator.service.ts, messaging-quote-state.service.ts)
 */
module SubmissionEvidence {
  import opened Prelude
  import opened Json
  import opened QuoteState
  import opened SubmissionInput
  import opened ConversationStore
  import opened SubmissionProtocol
  import InterviewCommits
  import Text

  /** The confirmation of a snapshot, if it has one, is a received message, at its time. */
  predicate IsReceived(rules: Rules, inbound: map<string, int>, s: Snapshot) {
    s.confirmationMessageId.Some? ==>
      s.confirmationMessageId.value in inbound &&
      s.confirmedAt == Some(rules.iso(inbound[s.confirmationMessageId.value]))
  }

  /** Each command keeps that, a confirmation provided it names a received message at its time. */
  lemma CommandsKeepEvidence(rules: Rules, inbound: map<string, int>, s: Snapshot, command: Command)
    requires IsReceived(rules, inbound, s) && Apply(rules, s, command).Ok?
    requires command.DoConfirm? ==> Get(inbound, Text.Trim(command.messageId)) == Some(command.at)
    ensures IsReceived(rules, inbound, Apply(rules, s, command).value)
  {
    hide PhaseOf, Merge, Text.Trim;
  }

  /** One transaction: the latest snapshot is as before, or what the command made of it. */
  lemma CommitsKeepEvidence(rules: Rules, ident: Ident, w: World, expected: nat, command: Command, observed: Option<nat>)
    requires Lawful(rules) && Inv(rules, ident, w) && w.log != [] && IsReceived(rules, w.inbound, Latest(w))
    requires command.DoConfirm? ==> Get(w.inbound, Text.Trim(command.messageId)) == Some(command.at)
    ensures var r := Commit(rules, w, expected, command, observed);
            r.Ok? ==> r.value.log != [] && r.value.inbound == w.inbound && IsReceived(rules, w.inbound, Latest(r.value))
    ensures var r := TransitionRow(rules, w.row, expected, command, observed);
            r.Ok? ==> IsReceived(rules, w.inbound, r.value.1)
  {
    InterviewCommits.LatestIsSound(rules, ident, w);
    hide Inv, LogInv, Backbone, Commit, Apply, IsReceived, TransitionRow, Lawful, Authorised, Text.Trim;
    CommitSpec(rules, w, expected, command, observed);
    CommitMirrorsRow(rules, w, expected, command, observed);
    if Commit(rules, w, expected, command, observed).Ok? {
      CommandsKeepEvidence(rules, w.inbound, Latest(w), command);
    }
  }

  lemma CommitMirrorsRow(rules: Rules, w: World, expected: nat, command: Command, observed: Option<nat>)
    ensures Commit(rules, w, expected, command, observed).Ok? <==>
              TransitionRow(rules, w.row, expected, command, observed).Ok?
  {
    hide TransitionRow;
  }

  ghost predicate EvidenceHolds(rules: Rules, w: World) {
    w.log != [] && IsReceived(rules, w.inbound, Latest(w))
  }

  /** A step that commits nothing, and at most receives one more message under a new id. */
  predicate IsQuiet(w: World, w': World) {
    w'.log == w.log && forall id | id in w.inbound :: id in w'.inbound && w'.inbound[id] == w.inbound[id]
  }

  lemma QuietStepsKeepEvidence(rules: Rules, w: World, w': World)
    requires EvidenceHolds(rules, w) && IsQuiet(w, w')
    ensures EvidenceHolds(rules, w')
  {
  }

  lemma WorkersAreQuiet(rules: Rules, ident: Ident, w: World, a: Action)
    requires a.OpenSummary? || a.StoreSummary? || a.Load? || a.LookUp? || a.Create?
    ensures IsQuiet(w, Step(rules, ident, w, a))
  {
    hide Parse, PhaseOf, Prepare, ResolveReplay, FreshMessageId, FreshQuoteId;
  }

  lemma OutsideStepsAreQuiet(rules: Rules, ident: Ident, w: World, a: Action)
    requires a.Receive? || a.ChangeAuthority? || a.Crash? || a.Revise? || a.CreateElsewhere?
    ensures IsQuiet(w, Step(rules, ident, w, a))
  {
    hide ChangeControl, OwnKey, FreshQuoteId, IsId;
  }

  lemma ReserveKeepsEvidence(rules: Rules, ident: Ident, w: World, i: nat)
    requires Lawful(rules) && Inv(rules, ident, w) && EvidenceHolds(rules, w)
    ensures EvidenceHolds(rules, StepReserve(rules, w, i))
  {
    if i in w.workers && w.workers[i].Loaded? {
      var k := w.workers[i];
      CommitsKeepEvidence(rules, ident, w, k.version, DoBegin(k.due.key), k.observed);
    }
    hide Inv, Lawful, TransitionRow, Commit, IsReceived;
  }

  lemma CommittingStepsKeepEvidence(rules: Rules, ident: Ident, w: World, a: Action)
    requires Lawful(rules) && Inv(rules, ident, w) && EvidenceHolds(rules, w)
    requires a.Issue? || a.RecordSummary? || a.Link?
    ensures EvidenceHolds(rules, Step(rules, ident, w, a))
  {
    hide Inv, Lawful, Commit, IsReceived;
    match a
    case Issue(command, expected, observed) =>
      if Issuable(w, command) {
        CommitsKeepEvidence(rules, ident, w, expected, command, observed);
      }
    case RecordSummary(i) =>
      if i in w.workers && w.workers[i].Summarised? {
        var k := w.workers[i];
        CommitsKeepEvidence(rules, ident, w, k.version, DoPresentReview(k.messageId), k.observed);
      }
    case Link(i) =>
      if i in w.workers && w.workers[i].Holding? {
        var k := w.workers[i];
        CommitsKeepEvidence(rules, ident, w, k.version, DoMarkSubmitted(k.quoteId), k.observed);
      }
  }

  lemma StepKeepsEvidence(rules: Rules, ident: Ident, w: World, a: Action)
    requires Lawful(rules) && Inv(rules, ident, w) && EvidenceHolds(rules, w)
    ensures EvidenceHolds(rules, Step(rules, ident, w, a))
  {
    hide Inv, Lawful, EvidenceHolds, IsQuiet;
    if a.Issue? || a.RecordSummary? || a.Link? {
      CommittingStepsKeepEvidence(rules, ident, w, a);
    } else if a.Reserve? {
      ReserveKeepsEvidence(rules, ident, w, a.worker);
      hide StepReserve;
    } else if a.OpenSummary? || a.StoreSummary? || a.Load? || a.LookUp? || a.Create? {
      WorkersAreQuiet(rules, ident, w, a);
      hide Step;
      QuietStepsKeepEvidence(rules, w, Step(rules, ident, w, a));
    } else {
      OutsideStepsAreQuiet(rules, ident, w, a);
      hide Step;
      QuietStepsKeepEvidence(rules, w, Step(rules, ident, w, a));
    }
  }

  /** In every reachable state, what is confirmed was confirmed by a message of the conversation, when it came in. */
  lemma {:induction false} ConfirmationsWereReceived(rules: Rules, ident: Ident, actions: seq<Action>)
    requires Lawful(rules)
    ensures EvidenceHolds(rules, Run(rules, ident, Start, actions))
    decreases |actions|
  {
    if actions == [] {
    } else {
      var front := actions[..|actions| - 1];
      ConfirmationsWereReceived(rules, ident, front);
      StartHasInv(rules, ident);
      hide Step, Inv, EvidenceHolds;
      RunKeepsInv(rules, ident, Start, front);
      StepKeepsEvidence(rules, ident, Run(rules, ident, Start, front), actions[|actions| - 1]);
    }
  }
}
