/**
 A guided answer on its way into the conversation row: merged into the latest draft by one guarded transaction.
 (apps/api/src/messaging/messaging-quote-live-orchestrator.service.ts,
 messaging-quote-state.service.ts, messaging-quote-state.ts)
 */
module InterviewCommits {
  import opened Prelude
  import opened Json
  import opened QuoteState
  import opened SubmissionInput
  import opened ConversationStore
  import opened SubmissionProtocol
  import InterviewBase
  import Interview
  import InterviewResults

  /** A patch under current authority, before any reservation: one more snapshot, with the patch taken. */
  lemma UpdatesAreCommitted(rules: Rules, ident: Ident, w: World, patch: Fields, observed: Option<nat>)
    requires Lawful(rules) && Inv(rules, ident, w) && Authorised(w.row, observed) && Latest(w).submissionKey.None?
    ensures var s := Latest(w);
            var w' := Step(rules, ident, w, Issue(DoUpdateDraft(patch), s.version, observed));
            Inv(rules, ident, w') && w'.log == w.log + [Latest(w')] &&
            Parse(rules, w'.row.quoteState, w'.row.quoteStateVersion) == Ok(Latest(w')) &&
            TakesThePatch(s.draft, patch, Latest(w').draft) &&
            Latest(w').draft == InterviewBase.MergeDraft(s.draft, patch) &&
            Latest(w') == s.(version := s.version + 1, draft := Latest(w').draft, reviewSummaryMessageId := None,
                             confirmationMessageId := None, confirmedAt := None) &&
            w'.row.controlState == w.row.controlState && w'.row.controlVersion == w.row.controlVersion &&
            Authorised(w'.row, observed)
  {
    hide Inv, Commit, TakesThePatch, Parse, Follows, WorkersInv, QuotesInv, MessagesInv, ControlInv, Merge;
    LatestIsSound(rules, ident, w);
    var s := Latest(w);
    hide Backbone, LogInv;
    assert UpdateDraft(s, patch).Ok?;
    CommitSpec(rules, w, s.version, DoUpdateDraft(patch), observed);
    CommitKeepsInv(rules, ident, w, s.version, DoUpdateDraft(patch), observed);
    UpdateTakesThePatch(s, patch);
    ParsesToLatest(rules, Commit(rules, w, s.version, DoUpdateDraft(patch), observed).value);
  }

  lemma LatestIsSound(rules: Rules, ident: Ident, w: World)
    requires Inv(rules, ident, w)
    ensures w.log != [] && LogInv(rules, w) && Latest(w).version == |w.log| - 1 && Backbone(rules, Latest(w))
    ensures Latest(w).submissionKey.None? ==> !Truthy(Latest(w).submittedQuoteId)
  {
    hide Parse, Follows, WorkersInv, QuotesInv, MessagesInv, ControlInv;
    assert Backbone(rules, w.log[|w.log| - 1]);
  }

  lemma ParsesToLatest(rules: Rules, w: World)
    requires LogInv(rules, w)
    ensures Parse(rules, w.row.quoteState, w.row.quoteStateVersion) == Ok(Latest(w))
  {
    hide Parse, Follows, Backbone;
  }

  /**
   Until a submission is reserved, an accepted answer given under current authority is committed: the row then holds
   the stored draft with the answer in it, no marker of an earlier review, and a later question is due.
   */
  lemma AcceptedAnswersAreCommitted(rules: Rules, ident: Ident, w: World, raw: Option<string>, observed: Option<nat>)
    requires Lawful(rules) && Inv(rules, ident, w) && Authorised(w.row, observed)
    requires Latest(w).submissionKey.None? && Interview.Respond(Latest(w).draft, raw).Accepted?
    ensures var s, patch := Latest(w), Interview.Respond(Latest(w).draft, raw).patch;
            var w' := Step(rules, ident, w, Issue(DoUpdateDraft(patch), s.version, observed));
            Inv(rules, ident, w') && w'.log == w.log + [Latest(w')] &&
            Parse(rules, w'.row.quoteState, w'.row.quoteStateVersion) == Ok(Latest(w')) &&
            TakesThePatch(s.draft, patch, Latest(w').draft) &&
            Latest(w') == s.(version := s.version + 1, draft := Latest(w').draft, reviewSummaryMessageId := None,
                             confirmationMessageId := None, confirmedAt := None) &&
            w'.row.controlState == w.row.controlState && w'.row.controlVersion == w.row.controlVersion && Authorised(w'.row, observed) &&
            Interview.Next(Latest(w').draft) > Interview.Next(s.draft) &&
            forall g :: g != Interview.GroupOf(Interview.Next(s.draft)) ==>
              Get(Latest(w').draft, g) == Get(s.draft, g)
  {
    hide *;
    LatestIsSound(rules, ident, w);
    var patch := Interview.Respond(Latest(w).draft, raw).patch;
    UpdatesAreCommitted(rules, ident, w, patch, observed);
    Interview.AcceptedAnswersMoveOn(Latest(w).draft, raw);
  }

  /** An answer worked out on a draft that has changed since, or without authority, is not written. */
  lemma StaleAnswersAreNotCommitted(rules: Rules, ident: Ident, w: World, patch: Fields, expected: nat,
                                    observed: Option<nat>)
    requires Lawful(rules) && Inv(rules, ident, w)
    requires expected != Latest(w).version || !Authorised(w.row, observed) || Latest(w).submissionKey.Some?
    ensures Step(rules, ident, w, Issue(DoUpdateDraft(patch), expected, observed)) == w
  {
    assert LogInv(rules, w) && Latest(w).version == |w.log| - 1 && Backbone(rules, Latest(w));
    CommitSpec(rules, w, expected, DoUpdateDraft(patch), observed);
    hide Inv, LogInv, Commit;
  }

  /** The automation in charge of the conversation can lead its customer through every question still open. */
  lemma {:induction false} TheInterviewCanBeCommitted(rules: Rules, ident: Ident, w: World, observed: Option<nat>)
      returns (actions: seq<Action>)
    requires Lawful(rules) && Inv(rules, ident, w) && Authorised(w.row, observed) && Latest(w).submissionKey.None?
    ensures |actions| <= InterviewBase.NOTHING_LEFT - Interview.Next(Latest(w).draft)
    ensures forall i | 0 <= i < |actions| :: actions[i].Issue? && actions[i].command.DoUpdateDraft?
    ensures var w' := Run(rules, ident, w, actions);
            Inv(rules, ident, w') && Latest(w').submissionKey.None? &&
            Interview.Next(Latest(w').draft) == InterviewBase.NOTHING_LEFT
    decreases InterviewBase.NOTHING_LEFT - Interview.Next(Latest(w).draft)
  {
    hide *;
    LatestIsSound(rules, ident, w);
    var draft := Latest(w).draft;
    if Interview.Next(draft) == InterviewBase.NOTHING_LEFT {
      actions := [];
      RunNothing(rules, ident, w);
    } else {
      InterviewResults.EveryQuestionCanBeAnswered(draft);
      var raw := Some(InterviewResults.Sample(draft, Interview.Next(draft)));
      AcceptedAnswersAreCommitted(rules, ident, w, raw, observed);
      var first := Issue(DoUpdateDraft(Interview.Respond(draft, raw).patch), Latest(w).version, observed);
      var w' := Step(rules, ident, w, first);
      LatestIsSound(rules, ident, w');
      var rest := TheInterviewCanBeCommitted(rules, ident, w', observed);
      actions := [first] + rest;
      RunFirst(rules, ident, w, first, rest);
    }
  }

  lemma RunNothing(rules: Rules, ident: Ident, w: World)
    ensures Run(rules, ident, w, []) == w
  {
  }

  /** Runs are defined from their last step; this takes the first one off. */
  lemma {:induction false} RunFirst(rules: Rules, ident: Ident, w: World, first: Action, rest: seq<Action>)
    ensures Run(rules, ident, w, [first] + rest) == Run(rules, ident, Step(rules, ident, w, first), rest)
    decreases |rest|
  {
    hide Step;
    var all := [first] + rest;
    if rest == [] {
      assert all[..|all| - 1] == [];
    } else {
      assert all[..|all| - 1] == [first] + rest[..|rest| - 1] && all[|all| - 1] == rest[|rest| - 1];
      RunFirst(rules, ident, w, first, rest[..|rest| - 1]);
    }
  }
}
