/**
 Answers through a link to their end: repeated ones are answered as the first was, blocked acceptances stay pending
 with their evidence, and conflicts are told apart.
 (apps/api/src/quotes/quote-customer-response.service.ts)
 */
module QuoteAnswerJourneys {
  import opened Prelude
  import opened QuoteLifecycle
  import opened QuoteCustomerAccess
  import opened QuoteCustomerResponse
  import opened QuoteLinkEffects
  import Runs = QuoteLifecycleRuns

  /** A call that has just been asked, on a link that resolves, with evidence that can be taken. */
  predicate IsAsked(s: Shop, k: nat, request: Request, found: Surroundings) {
    k < |s.calls| && s.calls[k] == Call(request, Asked) &&
    QuoteCustomerAccess.Resolve(s.life.quote, s.grants, s.responses, request.token, found.facts.now).Some? &&
    FindToken(s.grants, request.token) < |s.grants| &&
    RecordEvidence(s.life.quote, s.grants, s.responses, FindToken(s.grants, request.token), request.decision, request.key,
                   found.facts.now).Ok?
  }

  /** The shop once the evidence is in. */
  function WithEvidence(s: Shop, request: Request, found: Surroundings): Shop
    requires RecordEvidence(s.life.quote, s.grants, s.responses, FindToken(s.grants, request.token), request.decision,
                            request.key, found.facts.now).Ok?
  {
    s.(responses := RecordEvidence(s.life.quote, s.grants, s.responses, FindToken(s.grants, request.token),
                                   request.decision, request.key, found.facts.now).value)
  }

  lemma TwoStepsToEvidence(s: Shop, k: nat, request: Request, found: Surroundings)
    requires IsAsked(s, k, request, found)
    ensures var step, g := Advance(k, found), FindToken(s.grants, request.token);
            QuoteCustomerResponse.Step(QuoteCustomerResponse.Step(s, step), step)
              == At(WithEvidence(s, request, found), k, Evidenced(g))
  {
    var g := FindToken(s.grants, request.token);
    hide QuoteCustomerAccess.Resolve, FindToken, RecordEvidence, QuoteCustomerResponse.Step;
    AdvanceAt(s, k, found, s, Holding(g));
    AdvanceAt(At(s, k, Holding(g)), k, found, At(WithEvidence(s, request, found), k, Holding(g)), Evidenced(g));
  }

  /** A decline given again on a declined Quote is answered as declined at once, and changes nothing. */
  lemma RepeatedDeclinesAreAnswered(s: Shop, k: nat, request: Request, found: Surroundings)
    requires IsAsked(s, k, request, found) && request.decision == CustomerDeclined && s.life.quote.status == Declined
    ensures var step, g := Advance(k, found), FindToken(s.grants, request.token);
            var end := QuoteCustomerResponse.Step(QuoteCustomerResponse.Step(QuoteCustomerResponse.Step(s, step), step), step);
            |end.calls| == |s.calls| && end.calls[k].phase == Done(g, CustomerHasDeclined) && end.life == s.life
  {
    var g, s2 := FindToken(s.grants, request.token), WithEvidence(s, request, found);
    TwoStepsToEvidence(s, k, request, found);
    hide QuoteCustomerAccess.Resolve, FindToken, RecordEvidence, QuoteCustomerResponse.Step;
    AdvanceAt(At(s2, k, Evidenced(g)), k, found, At(s2, k, Evidenced(g)), Done(g, CustomerHasDeclined));
  }

  /** An acceptance given again on an accepted Quote is answered as converted, and changes nothing. */
  lemma RepeatedAcceptancesAreAnswered(s: Shop, k: nat, request: Request, found: Surroundings)
    requires Inv(s) && IsAsked(s, k, request, found) && request.decision == CustomerAccepted
    requires s.life.quote.status == Accepted
    ensures var step, g := Advance(k, found), FindToken(s.grants, request.token);
            var end := QuoteCustomerResponse.Step(QuoteCustomerResponse.Step(QuoteCustomerResponse.Step(
                         QuoteCustomerResponse.Step(s, step), step), step), step);
            |end.calls| == |s.calls| && end.calls[k].phase == Done(g, Converted) && end.life == s.life
  {
    var g, s2 := FindToken(s.grants, request.token), WithEvidence(s, request, found);
    TwoStepsToEvidence(s, k, request, found);
    ActionableMeansCurrent(s, request.token, found.facts.now);
    LifeIsSound(s);
    AcceptedQuotesAreAcceptedAgain(s.life, found);
    hide *;
    AcceptedIsNoticed(s2, k, request, g, found);
    AcceptingReplays(s2, k, g, found);
    EndOfCall(s2, k, Done(g, Converted));
    EvidenceIsAll(s, request, found);
  }

  lemma EvidenceIsAll(s: Shop, request: Request, found: Surroundings)
    requires RecordEvidence(s.life.quote, s.grants, s.responses, FindToken(s.grants, request.token), request.decision,
                            request.key, found.facts.now).Ok?
    ensures var s' := WithEvidence(s, request, found);
            s'.life == s.life && s'.grants == s.grants && s'.calls == s.calls
  {
    hide RecordEvidence, FindToken;
  }

  lemma EndOfCall(s: Shop, k: nat, phase: Phase)
    requires k < |s.calls|
    ensures |At(s, k, phase).calls| == |s.calls| && At(s, k, phase).calls[k].phase == phase && At(s, k, phase).life == s.life
  {
  }

  lemma AcceptedIsNoticed(s: Shop, k: nat, request: Request, g: nat, found: Surroundings)
    requires k < |s.calls| && s.calls[k].request == request && request.decision == CustomerAccepted
    requires s.life.quote.status == Accepted
    ensures QuoteCustomerResponse.Step(At(s, k, Evidenced(g)), Advance(k, found)) == At(s, k, Accepting(g))
  {
    hide QuoteCustomerResponse.Step;
    AdvanceAt(At(s, k, Evidenced(g)), k, found, At(s, k, Evidenced(g)), Accepting(g));
  }

  lemma AcceptingReplays(s: Shop, k: nat, g: nat, found: Surroundings)
    requires k < |s.calls| && g < |s.grants|
    requires QuoteLifecycle.Accept(s.life.quote, s.life.operations, s.grants[g].revisionNumber, SYSTEM_ACTOR, found.facts,
                                   found.ids) == Ok((s.life.quote, s.life.operations))
    ensures QuoteCustomerResponse.Step(At(s, k, Accepting(g)), Advance(k, found)) == At(s, k, Done(g, Converted))
  {
    hide QuoteCustomerResponse.Step, QuoteLifecycle.Accept;
    var s3 := At(s, k, Accepting(g));
    assert TryAccept(s3, g, found, Failed) == (s3, Done(g, Converted));
    AdvanceAt(s3, k, found, s3, Done(g, Converted));
  }

  lemma AcceptedQuotesAreAcceptedAgain(w: Runs.World, found: Surroundings)
    requires Runs.Inv(w) && w.quote.status == Accepted
    ensures QuoteLifecycle.Accept(w.quote, w.operations, w.quote.currentRevisionNumber, SYSTEM_ACTOR, found.facts, found.ids)
         == Ok((w.quote, w.operations))
  {
    assert Runs.AcceptedShape(w.quote, w.operations) && Runs.Numbered(w.quote);
    hide Runs.RevisionsSound, Runs.OfferIsFinal, Runs.DraftSound, Convert, AcceptRefusal;
  }

  /** An acceptance with something in its way is recorded and reported as pending; the Quote stays as it is. */
  lemma BlockedAcceptancesStayPending(s: Shop, k: nat, request: Request, found: Surroundings)
    requires IsAsked(s, k, request, found) && request.decision == CustomerAccepted && s.life.quote.status != Accepted
    requires Preflight(s.life.quote, s.life.operations, s.grants[FindToken(s.grants, request.token)].revisionNumber,
                       found.facts) != []
    ensures var step, g := Advance(k, found), FindToken(s.grants, request.token);
            var end := QuoteCustomerResponse.Step(QuoteCustomerResponse.Step(QuoteCustomerResponse.Step(
                         QuoteCustomerResponse.Step(s, step), step), step), step);
            |end.calls| == |s.calls| && end.calls[k].phase == Done(g, PendingInternalCompletion) && end.life == s.life &&
            end.responses == WithEvidence(s, request, found).responses
  {
    var g, s2 := FindToken(s.grants, request.token), WithEvidence(s, request, found);
    TwoStepsToEvidence(s, k, request, found);
    hide QuoteCustomerAccess.Resolve, FindToken, RecordEvidence, QuoteCustomerResponse.Step, Preflight;
    AdvanceAt(At(s2, k, Evidenced(g)), k, found, At(s2, k, Evidenced(g)), Unaccepted(g));
    AdvanceAt(At(s2, k, Unaccepted(g)), k, found, At(s2, k, Unaccepted(g)), Done(g, PendingInternalCompletion));
  }

  /** A conflict is looked into: lost to another acceptance it is tried again, blocked it is pending, else it fails. */
  lemma ConflictsAreToldApart(s: Shop, call: Call, found: Surroundings)
    requires call.phase.Contested? && call.phase.grant < |s.grants|
    ensures var g := call.phase.grant;
            var q, expected := s.life.quote, s.grants[g].revisionNumber;
            var (s', phase) := Advanced(s, call, found);
            s' == s &&
            (phase == Failed <==> forall b :: !IsInTheWay(q, s.life.operations, expected, found.facts, b)) &&
            (phase == Accepting(g) <==> q.status == Accepted) &&
            (phase == Done(g, PendingInternalCompletion) <==>
               q.status != Accepted && exists b :: IsInTheWay(q, s.life.operations, expected, found.facts, b))
  {
    var blockers := Preflight(s.life.quote, s.life.operations, s.grants[call.phase.grant].revisionNumber, found.facts);
    forall b
      ensures b in blockers <==>
                IsInTheWay(s.life.quote, s.life.operations, s.grants[call.phase.grant].revisionNumber, found.facts, b)
    {
      PreflightReportsExactly(s.life.quote, s.life.operations, s.grants[call.phase.grant].revisionNumber, found.facts, b);
    }
    hide Preflight;
    if blockers != [] {
      assert blockers[0] in blockers;
    }
    assert IsInTheWay(s.life.quote, s.life.operations, s.grants[call.phase.grant].revisionNumber, found.facts, AlreadyAccepted)
           <==> s.life.quote.status == Accepted;
    hide IsInTheWay;
  }

  /** An acceptance refused by a conflict is looked into; refused by anything else it has failed; it writes nothing. */
  lemma RefusedAcceptancesWriteNothing(s: Shop, call: Call, found: Surroundings)
    requires call.phase.Eligible? && call.phase.grant < |s.grants|
    requires QuoteLifecycle.Accept(s.life.quote, s.life.operations, s.grants[call.phase.grant].revisionNumber, SYSTEM_ACTOR,
                                   found.facts, found.ids).Err?
    ensures var why := QuoteLifecycle.Accept(s.life.quote, s.life.operations, s.grants[call.phase.grant].revisionNumber,
                                             SYSTEM_ACTOR, found.facts, found.ids).error;
            Advanced(s, call, found)
              == (s, if why in {BadRevisionNumber, ActorRequired, ActorUnknown, IdentityTaken} then Failed
                     else Contested(call.phase.grant))
  {
    hide QuoteLifecycle.Accept;
  }
}
