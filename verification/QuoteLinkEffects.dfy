/**
 What a customer link shows and allows, and what keeps a Quote from being accepted, each with its exact condition.
 (apps/api/src/quotes/quote-customer-access.service.ts, quote-customer-response.service.ts, quote-review.service.ts)
 */
module QuoteLinkEffects {
  import opened Prelude
  import opened QuoteLifecycle
  import opened QuoteCustomerAccess
  import opened QuoteCustomerResponse
  import Runs = QuoteLifecycleRuns

  // ---- what a link shows ---------------------------------------------------------------------

  /** The evidence on a link contradicts what became of the Quote. */
  predicate Contradicts(response: Option<Response>, status: Status) {
    response.Some? &&
    ((response.value.decision == CustomerDeclined && status == Accepted) ||
     (response.value.decision == CustomerAccepted && status == Declined))
  }

  /** A link that still stands for the Quote as it is. */
  predicate IsCurrent(q: Quote, g: Grant, now: int) {
    g.revokedAt.None? && g.supersededAt.None? && now < g.expiresAt && now < q.validUntil &&
    g.revisionNumber == q.currentRevisionNumber && g.revisionNumber in q.revisions &&
    (q.status == Submitted || q.status == Accepted || q.status == Declined)
  }

  /** What the customer reads about their own answer. */
  predicate ReadsBack(response: Option<Response>, status: Status, state: ResponseState) {
    match state
    case NoResponse => response.None?
    case ResponseDeclined => response.Some? && response.value.decision == CustomerDeclined
    case AcceptedConverted => response.Some? && response.value.decision == CustomerAccepted && status == Accepted
    case AcceptedPending => response.Some? && response.value.decision == CustomerAccepted && status != Accepted
  }

  lemma TokenIsFound(grants: seq<Grant>, i: nat)
    requires i < |grants| && forall j, k | 0 <= j < k < |grants| :: grants[j].token != grants[k].token
    ensures FindToken(grants, grants[i].token) == i
  {
    var k := FindToken(grants, grants[i].token);
    assert grants[k].token == grants[i].token;
    hide FindToken;
  }

  /** What a link shows: the current revision at its price, and the customer's own answer. */
  predicate ShowsTheQuote(q: Quote, g: Grant, response: Option<Response>, shown: Projection) {
    q.currentRevisionNumber in q.revisions && shown.revisionNumber == q.currentRevisionNumber &&
    shown.status == q.status && shown.price == q.revisions[q.currentRevisionNumber].price &&
    shown.accessExpiresAt == g.expiresAt && ReadsBack(response, q.status, shown.responseState) &&
    (shown.actionable <==> q.status == Submitted && response.None?)
  }

  lemma FoundLinksResolveExactlyWhen(q: Quote, grants: seq<Grant>, responses: seq<Response>, i: nat, now: int)
    requires i < |grants| && FindToken(grants, grants[i].token) == i
    ensures var response := FindResponse(responses, i);
            var shown := QuoteCustomerAccess.Resolve(q, grants, responses, grants[i].token, now);
            (shown.Some? <==> IsCurrent(q, grants[i], now) && !Contradicts(response, q.status)) &&
            (shown.Some? ==> ShowsTheQuote(q, grants[i], response, shown.value))
  {
    hide FindToken, FindResponse;
  }

  /** A link resolves exactly while it stands and its evidence fits, and then shows the price of the current revision. */
  lemma LinksResolveExactlyWhen(s: Shop, i: nat, now: int)
    requires Inv(s) && i < |s.grants|
    ensures var q, g, response := s.life.quote, s.grants[i], FindResponse(s.responses, i);
            var shown := QuoteCustomerAccess.Resolve(q, s.grants, s.responses, g.token, now);
            (shown.Some? <==> IsCurrent(q, g, now) && !Contradicts(response, q.status)) &&
            (shown.Some? ==> ShowsTheQuote(q, g, response, shown.value))
  {
    assert GrantsSound(s.life.quote, s.lifetime, s.grants);
    hide Inv, FindToken, FindResponse, QuoteCustomerAccess.Resolve, IsCurrent, Contradicts, ShowsTheQuote;
    TokenIsFound(s.grants, i);
    FoundLinksResolveExactlyWhen(s.life.quote, s.grants, s.responses, i, now);
  }

  /** A token nobody was given shows nothing. */
  lemma UnknownTokensShowNothing(s: Shop, token: string, now: int)
    requires forall i | 0 <= i < |s.grants| :: s.grants[i].token != token
    ensures QuoteCustomerAccess.Resolve(s.life.quote, s.grants, s.responses, token, now).None?
  {
    assert FindToken(s.grants, token) == |s.grants|;
    hide FindToken;
  }

  // ---- issuing and revoking ------------------------------------------------------------------

  /** Which links are issued. */
  lemma IssuedExactlyWhen(q: Quote, grants: seq<Grant>, lifetime: Option<nat>, expected: nat, token: string, now: int)
    ensures Issue(q, grants, lifetime, expected, token, now).Ok? <==>
              lifetime.Some? && lifetime.value >= 1 && q.status == Submitted && q.currentRevisionNumber == expected &&
              expected in q.revisions && now < q.validUntil && forall i | 0 <= i < |grants| :: grants[i].token != token
  {
    hide FirstLive;
  }

  /** A new link is the only one that resolves: it shows the current price until it or the offer ends. */
  lemma NewLinksReplaceOldOnes(s: Shop, expected: nat, token: string, now: int, other: string, later: int)
    requires Inv(s) && Issue(s.life.quote, s.grants, s.lifetime, expected, token, now).Ok?
    ensures var q, s' := s.life.quote, QuoteCustomerResponse.Step(s, IssueLink(expected, token, now));
            var shown := QuoteCustomerAccess.Resolve(q, s'.grants, s'.responses, other, later);
            Inv(s') && |s'.grants| == |s.grants| + 1 && (shown.Some? ==> other == token) &&
            (other == token ==>
               (shown.Some? <==> later < q.validUntil && later < now + s.lifetime.value) &&
               (shown.Some? ==> shown.value.actionable && shown.value.price == q.revisions[expected].price))
  {
    var q, s' := s.life.quote, QuoteCustomerResponse.Step(s, IssueLink(expected, token, now));
    StepKeepsInv(s, IssueLink(expected, token, now));
    var n := |s.grants|;
    NewestGrant(s, expected, token, now);
    assert s'.grants[n].token == token;
    assert FindResponse(s'.responses, n).None? by { NoAnswerYet(s, n); }
    LinksResolveExactlyWhen(s', n, later);
    var shown := QuoteCustomerAccess.Resolve(q, s'.grants, s'.responses, other, later);
    if shown.Some? {
      ResolvedIsLive(s', other, later);
      assert GrantsSound(s'.life.quote, s'.lifetime, s'.grants);
      hide QuoteCustomerResponse.Step, Inv, Issue, QuoteCustomerAccess.Resolve, FindToken, IsLive, FindResponse;
      assert FindToken(s'.grants, other) == n;
    }
    hide QuoteCustomerResponse.Step, Inv, Issue, QuoteCustomerAccess.Resolve, FindToken, FindResponse;
  }

  lemma NewestGrant(s: Shop, expected: nat, token: string, now: int)
    requires Inv(s) && Issue(s.life.quote, s.grants, s.lifetime, expected, token, now).Ok?
    ensures var q, s' := s.life.quote, QuoteCustomerResponse.Step(s, IssueLink(expected, token, now));
            |s'.grants| == |s.grants| + 1 && s'.life == s.life && s'.responses == s.responses && s'.lifetime == s.lifetime &&
            s'.grants[|s.grants|] == Grant(token, expected, Min(q.validUntil, now + s.lifetime.value), now, None, None) &&
            q.status == Submitted && q.currentRevisionNumber == expected && expected in q.revisions
  {
    hide FirstLive, FindToken, Inv;
  }

  lemma NoAnswerYet(s: Shop, n: nat)
    requires Inv(s) && n >= |s.grants|
    ensures FindResponse(s.responses, n).None?
  {
    assert ResponsesSound(s.grants, s.responses);
    hide FindResponse;
  }

  lemma ResolvedIsLive(s: Shop, token: string, now: int)
    requires QuoteCustomerAccess.Resolve(s.life.quote, s.grants, s.responses, token, now).Some?
    ensures FindToken(s.grants, token) < |s.grants| && s.grants[FindToken(s.grants, token)].token == token
    ensures IsLive(s.grants[FindToken(s.grants, token)])
  {
    hide StateOf;
  }

  /** After links are revoked no token shows anything; links of earlier revisions keep what they recorded. */
  lemma RevokedLinksShowNothing(s: Shop, now: int, token: string, later: int)
    requires Inv(s)
    ensures var s' := QuoteCustomerResponse.Step(s, RevokeLink(s.life.quote.currentRevisionNumber, now));
            QuoteCustomerAccess.Resolve(s'.life.quote, s'.grants, s'.responses, token, later).None? &&
            |s'.grants| == |s.grants| &&
            forall i | 0 <= i < |s.grants| ::
              s'.grants[i] == if s.grants[i].revisionNumber == s.life.quote.currentRevisionNumber && IsLive(s.grants[i])
                              then s.grants[i].(revokedAt := Some(now)) else s.grants[i]
  {
    var s' := QuoteCustomerResponse.Step(s, RevokeLink(s.life.quote.currentRevisionNumber, now));
    if QuoteCustomerAccess.Resolve(s'.life.quote, s'.grants, s'.responses, token, later).Some? {
      ActionableMeansCurrent(s', token, later);
      ResolvedIsLive(s', token, later);
      assert false;
    }
  }

  // ---- answering -----------------------------------------------------------------------------

  /** Evidence is taken on a standing link: again if it says the same, first under a fresh key while the Quote is open. */
  lemma EvidenceIsTakenExactlyWhen(q: Quote, grants: seq<Grant>, responses: seq<Response>, grant: nat,
                                   decision: CustomerDecision, key: string, now: int)
    ensures RecordEvidence(q, grants, responses, grant, decision, key, now).Ok? <==>
              grant < |grants| && IsLive(grants[grant]) && now < grants[grant].expiresAt && now < q.validUntil &&
              q.currentRevisionNumber == grants[grant].revisionNumber &&
              match FindResponse(responses, grant)
              case Some(prior) => prior.decision == decision
              case None => FindKey(responses, key).None? &&
                           (q.status == Submitted || (q.status == NeedsAttention && decision == CustomerDeclined))
    ensures RecordEvidence(q, grants, responses, grant, decision, key, now).Ok? ==>
              RecordEvidence(q, grants, responses, grant, decision, key, now).value
                == if FindResponse(responses, grant).Some? then responses
                   else responses + [Response(grant, q.currentRevisionNumber, decision, key, now)]
  {
    hide FindResponse, FindKey;
  }

  /** Four undisturbed steps after the question: resolve, record, look, decline. */
  lemma UninterruptedDeclineDeclines(s: Shop, token: string, key: string, found: Surroundings)
    requires Inv(s) && QuoteCustomerAccess.Resolve(s.life.quote, s.grants, s.responses, token, found.facts.now).Some?
    requires QuoteCustomerAccess.Resolve(s.life.quote, s.grants, s.responses, token, found.facts.now).value.actionable
    requires FindKey(s.responses, key).None?
    ensures var step := Advance(|s.calls|, found);
            var end := QuoteCustomerResponse.Run(s, [Ask(Request(token, CustomerDeclined, key)), step, step, step, step]);
            |end.calls| == |s.calls| + 1 && end.calls[|s.calls|].phase.Done? &&
            end.calls[|s.calls|].phase.outcome == CustomerHasDeclined && end.life.quote.status == Declined
  {
    var k := |s.calls|;
    var asked := QuoteCustomerResponse.Step(s, Ask(Request(token, CustomerDeclined, key)));
    AskAppends(s, Request(token, CustomerDeclined, key));
    ActionableMeansCurrent(s, token, found.facts.now);
    ActionableLinksCanBeAnswered(s, token, found.facts.now, CustomerDeclined, key);
    DeclinableNow(s, s.grants[FindToken(s.grants, token)].revisionNumber);
    DeclineInFourSteps(asked, k, token, key, found);
    RunOfFive(s, Ask(Request(token, CustomerDeclined, key)), Advance(k, found));
    hide QuoteCustomerResponse.Run, QuoteCustomerResponse.Step, Inv, QuoteCustomerAccess.Resolve, RecordEvidence, FindToken;
  }

  lemma DeclinableNow(s: Shop, revision: nat)
    requires Inv(s) && s.life.quote.status == Submitted && revision == s.life.quote.currentRevisionNumber
    ensures QuoteLifecycle.Decline(s.life.quote, s.life.declines, revision, None, SYSTEM_ACTOR).Ok?
    ensures QuoteLifecycle.Decline(s.life.quote, s.life.declines, revision, None, SYSTEM_ACTOR).value.0.status == Declined
  {
    hide Runs.RevisionsSound, Runs.OfferIsFinal, Runs.DraftSound, Runs.AcceptedShape;
    hide GrantsSound, ResponsesSound, CallSound;
  }

  lemma DeclineInFourSteps(s: Shop, k: nat, token: string, key: string, found: Surroundings)
    requires k < |s.calls| && s.calls[k] == Call(Request(token, CustomerDeclined, key), Asked)
    requires QuoteCustomerAccess.Resolve(s.life.quote, s.grants, s.responses, token, found.facts.now).Some?
    requires s.life.quote.status == Submitted && FindToken(s.grants, token) < |s.grants|
    requires RecordEvidence(s.life.quote, s.grants, s.responses, FindToken(s.grants, token), CustomerDeclined, key,
                            found.facts.now).Ok?
    requires var r := QuoteLifecycle.Decline(s.life.quote, s.life.declines,
                                             s.grants[FindToken(s.grants, token)].revisionNumber, None, SYSTEM_ACTOR);
             r.Ok? && r.value.0.status == Declined
    ensures var step, g := Advance(k, found), FindToken(s.grants, token);
            var end := QuoteCustomerResponse.Step(QuoteCustomerResponse.Step(QuoteCustomerResponse.Step(
                         QuoteCustomerResponse.Step(s, step), step), step), step);
            |end.calls| == |s.calls| && end.calls[k].phase == Done(g, CustomerHasDeclined) &&
            end.life.quote.status == Declined
  {
    var g := FindToken(s.grants, token);
    var responses := RecordEvidence(s.life.quote, s.grants, s.responses, g, CustomerDeclined, key, found.facts.now).value;
    var s3 := s.(responses := responses);
    hide QuoteCustomerAccess.Resolve, FindToken, RecordEvidence, Preflight, QuoteCustomerResponse.Step, QuoteLifecycle.Decline;
    AdvanceAt(s, k, found, s, Holding(g));
    AdvanceAt(At(s, k, Holding(g)), k, found, At(s3, k, Holding(g)), Evidenced(g));
    AdvanceAt(At(s3, k, Evidenced(g)), k, found, At(s3, k, Evidenced(g)), Declining(g));
    var s4 := At(s3, k, Declining(g));
    var (declined, phase) := TryDecline(s4, g);
    AdvanceAt(s4, k, found, declined, phase);
  }

  lemma RunOfFive(s: Shop, a: Action, b: Action)
    ensures QuoteCustomerResponse.Run(s, [a, b, b, b, b])
         == QuoteCustomerResponse.Step(QuoteCustomerResponse.Step(QuoteCustomerResponse.Step(QuoteCustomerResponse.Step(
              QuoteCustomerResponse.Step(s, a), b), b), b), b)
  {
    hide QuoteCustomerResponse.Step;
    var s1 := QuoteCustomerResponse.Step(s, a);
    var s2 := QuoteCustomerResponse.Step(s1, b);
    var s3 := QuoteCustomerResponse.Step(s2, b);
    var s4 := QuoteCustomerResponse.Step(s3, b);
    assert [a] + [b, b, b, b] == [a, b, b, b, b] && [b] + [b, b, b] == [b, b, b, b];
    assert [b] + [b, b] == [b, b, b] && [b] + [b] == [b, b];
    QuoteCustomerResponse.RunFirst(s, a, [b, b, b, b]);
    QuoteCustomerResponse.RunFirst(s1, b, [b, b, b]);
    QuoteCustomerResponse.RunFirst(s2, b, [b, b]);
    QuoteCustomerResponse.RunFirst(s3, b, [b]);
    QuoteCustomerResponse.RunFirst(s4, b, []);
    assert [b] + [] == [b];
    QuoteCustomerResponse.RunFirst(QuoteCustomerResponse.Step(s4, b), b, []);
  }

  // ---- what keeps a Quote from being accepted ------------------------------------------------

  /** The choice recorded for this revision can still be carried out. */
  predicate CustomerStands(q: Quote, ops: Operations, expected: nat) {
    q.resolutionRevisionNumber == Some(expected) && q.customerResolution.Some? &&
    (q.customerResolution == Some(UseExisting) ==> q.customerId.Some? && q.customerId.value in ops.customers)
  }

  predicate PropertyStands(q: Quote, ops: Operations, expected: nat) {
    q.resolutionRevisionNumber == Some(expected) && q.propertyResolution.Some? &&
    (q.propertyResolution == Some(UseExisting) ==>
       q.customerResolution != Some(CreateNew) && q.propertyId.Some? && q.propertyId.value in ops.properties &&
       q.customerId == Some(ops.properties[q.propertyId.value]))
  }

  predicate IsInTheWay(q: Quote, ops: Operations, expected: nat, facts: AcceptFacts, b: Blocker) {
    match b
    case StaleBlocker => q.currentRevisionNumber != expected
    case AttentionBlocker => q.status == NeedsAttention
    case DeclinedBlocker => q.status == Declined
    case AlreadyAccepted => q.status == Accepted
    case ExpiredBlocker => q.status == Expired || q.validUntil < facts.now
    case CustomerUnresolved => !CustomerStands(q, ops, expected)
    case PropertyUnresolved => !PropertyStands(q, ops, expected)
    case EvidenceUnresolved => !facts.photosStored
    case MappingBlocked => !facts.projectable
  }

  lemma InParts(a: seq<Blocker>, b: seq<Blocker>, x: Blocker)
    ensures x in a + b <==> x in a || x in b
  {
  }

  /** The check before an acceptance reports exactly what is in its way. */
  lemma PreflightReportsExactly(q: Quote, ops: Operations, expected: nat, facts: AcceptFacts, b: Blocker)
    ensures b in Preflight(q, ops, expected, facts) <==> IsInTheWay(q, ops, expected, facts, b)
  {
    ReadyMeansStands(q, ops, expected);
    hide CustomerStands, PropertyStands, CustomerReady, PropertyReady;
  }

  lemma ReadyMeansStands(q: Quote, ops: Operations, expected: nat)
    ensures q.customerResolution.None? || q.resolutionRevisionNumber != Some(expected) || !CustomerReady(q, ops) <==>
              !CustomerStands(q, ops, expected)
    ensures q.propertyResolution.None? || q.resolutionRevisionNumber != Some(expected) || !PropertyReady(q, ops) <==>
              !PropertyStands(q, ops, expected)
  {
    if q.customerResolution.Some? {
      assert q.customerResolution.value == UseExisting || q.customerResolution.value == CreateNew;
    }
    if q.propertyResolution.Some? {
      assert q.propertyResolution.value == UseExisting || q.propertyResolution.value == CreateNew;
    }
  }
}
