/**
 One Quote from creation to acceptance: pricing a submission succeeds whenever the
 provider does, and an offer made at creation can be taken up by its customer.
 (apps/api/src/quotes/quote-submission.service.ts, quote-review.service.ts,
 quote-customer-access.service.ts, quote-customer-response.service.ts)
 */
module QuoteJourney {
  import opened Prelude
  import opened QuoteFacts
  import opened QuotePricing
  import opened QuoteLifecycle
  import opened QuoteCustomerAccess
  import Response = QuoteCustomerResponse
  import Runs = QuoteLifecycleRuns
  import PostEventCleaning
  import QuoteOffers
  import Costing = QuoteCosts

  // ---- creation ------------------------------------------------------------------------------

  predicate NoneNegative(lines: seq<Line>) {
    forall i | 0 <= i < |lines| :: lines[i].lineAmountMinor >= 0
  }

  lemma {:induction false} SubtotalIsAnAmount(lines: seq<Line>)
    requires NoneNegative(lines)
    ensures Subtotal(lines) >= 0
    decreases |lines|
  {
    if lines != [] {
      SubtotalIsAnAmount(lines[..|lines| - 1]);
    }
  }

  lemma PrimaryLinesAreAmounts(s: Submission)
    ensures NoneNegative(PrimarySheet(s).lines)
  {
    hide PostEventCleaning.Resolve;
  }

  lemma LaundryLinesAreAmounts(s: Submission)
    ensures NoneNegative(LaundrySheet(s).lines)
  {
  }

  lemma WebsiteLinesAreAmounts(s: Submission)
    ensures NoneNegative(WebsiteSheet(s).lines)
  {
    PrimaryLinesAreAmounts(s);
    LaundryLinesAreAmounts(s);
    hide PrimarySheet, LaundrySheet, AddOnReasons;
  }

  /** A submission becomes a Quote exactly when the cost provider does not throw: pricing itself never does. */
  lemma CreationSucceedsExactlyWhen(s: Submission, facts: Costing.CostFacts, failedPhotos: nat, validUntil: int)
    ensures Created(s, facts, failedPhotos, validUntil).Some? <==> Costing.ProviderFailure(s, facts).None?
  {
    WebsiteLinesAreAmounts(s);
    SubtotalIsAnAmount(WebsiteSheet(s).lines);
    hide WebsiteSheet, Subtotal, Costing.CleanerHalfHours, Costing.Bucket, Costing.FiveBuckets;
  }

  // ---- from offer to work order --------------------------------------------------------------

  const NEW := Choice(CreateNew, None)

  /** Everything a first conversion looks for outside the Quote is there, and the new ids are new. */
  predicate EverythingIsThere(ops: Operations, found: Response.Surroundings) {
    var facts, ids := found.facts, found.ids;
    facts.photosStored && facts.projectable && facts.actorKnown && facts.propertyTypeKnown &&
    facts.servicesAvailable && facts.referencesLeft &&
    ids.customer !in ops.customers && ids.property !in ops.properties && ids.agreement !in ops.agreements &&
    ids.workOrder !in ops.workOrders
  }

  /** A new Quote in a shop with these tables, before any link or answer. */
  function Opening(q: Quote, ops: Operations, lifetime: nat): Response.Shop {
    Response.Shop(Some(lifetime), Runs.World(q, ops, [], []), [], [], [])
  }

  function Resolved(q: Quote): Quote {
    q.(customerResolution := Some(CreateNew), propertyResolution := Some(CreateNew), resolutionRevisionNumber := Some(1))
  }

  function FirstGrant(q: Quote, lifetime: nat, token: string, now: int): Grant {
    Grant(token, 1, Min(q.validUntil, now + lifetime), now, None, None)
  }

  /** A new offer, not yet resolved. */
  predicate IsNewOffer(q: Quote) {
    q.status == Submitted && q.currentRevisionNumber == 1 && 1 in q.revisions && q.resolutionRevisionNumber.None? &&
    q.customerId.None? && q.propertyId.None? && q.acceptedRevision.None? && q.workOrderId.None? &&
    q.recurringAgreementId.None?
  }

  lemma ResolvingANewOffer(q: Quote, ops: Operations, actor: string)
    requires IsNewOffer(q) && actor != ""
    ensures RecordResolution(q, ops, 1, NEW, NEW, actor) == Ok(Resolved(q))
  {
  }

  lemma IssuingTheFirstLink(q: Quote, lifetime: nat, token: string, now: int)
    requires q.status == Submitted && q.currentRevisionNumber == 1 && 1 in q.revisions
    requires lifetime >= 1 && now < q.validUntil
    ensures Issue(q, [], Some(lifetime), 1, token, now) == Ok([FirstGrant(q, lifetime, token, now)])
    ensures FindToken([FirstGrant(q, lifetime, token, now)], token) == 0
    ensures var p := QuoteCustomerAccess.Resolve(q, [FirstGrant(q, lifetime, token, now)], [], token, now);
            p.Some? && p.value.actionable && p.value.price == q.revisions[1].price
  {
    var none: seq<Grant> := [];
    assert FirstLive(none) == 0 && FindToken(none, token) == 0;
    assert none + [FirstGrant(q, lifetime, token, now)] == [FirstGrant(q, lifetime, token, now)];
  }

  lemma NothingBlocks(q: Quote, ops: Operations, found: Response.Surroundings)
    requires IsNewOffer(q) && EverythingIsThere(ops, found) && found.facts.now < q.validUntil
    ensures Preflight(Resolved(q), ops, 1, found.facts) == []
    ensures Response.NothingInTheWay(Resolved(q), ops, found)
  {
  }

  /** The shop once the match is resolved and the first link issued. */
  function Offering(q: Quote, ops: Operations, lifetime: nat, token: string, now: int): Response.Shop {
    Opening(Resolved(q), ops, lifetime).(grants := [FirstGrant(q, lifetime, token, now)])
  }

  lemma TwoStepsToOffering(q: Quote, ops: Operations, lifetime: nat, actor: string, token: string, now: int)
    requires IsNewOffer(q) && actor != "" && lifetime >= 1 && now < q.validUntil
    ensures Response.Step(Response.Step(Opening(q, ops, lifetime), Response.Lifecycle(Runs.Resolve(1, NEW, NEW, actor))),
                          Response.IssueLink(1, token, now))
         == Offering(q, ops, lifetime, token, now)
  {
    ResolvingANewOffer(q, ops, actor);
    IssuingTheFirstLink(Resolved(q), lifetime, token, now);
    hide RecordResolution, Issue;
  }

  lemma OfferingHasInv(q: Quote, ops: Operations, lifetime: nat, actor: string, token: string, now: int)
    requires IsNewOffer(q) && actor != "" && lifetime >= 1 && now < q.validUntil && Runs.Inv(Runs.World(q, ops, [], []))
    ensures Response.Inv(Offering(q, ops, lifetime, token, now))
  {
    hide Response.Inv, Response.Step, Runs.Inv;
    var opening := Opening(q, ops, lifetime);
    var resolve := Response.Lifecycle(Runs.Resolve(1, NEW, NEW, actor));
    Response.OpeningHasInv(Some(lifetime), Runs.World(q, ops, [], []));
    Response.StepKeepsInv(opening, resolve);
    Response.StepKeepsInv(Response.Step(opening, resolve), Response.IssueLink(1, token, now));
    TwoStepsToOffering(q, ops, lifetime, actor, token, now);
  }

  lemma NewOffersAreNew(s: Submission, facts: Costing.CostFacts, validUntil: int)
    requires Created(s, facts, 0, validUntil).Some? && Created(s, facts, 0, validUntil).value.status == Submitted
    ensures IsNewOffer(Created(s, facts, 0, validUntil).value)
    ensures Created(s, facts, 0, validUntil).value.validUntil == validUntil
  {
    hide PriceFor, StatusFor;
  }

  /** The accepted Quote at the end of an undisturbed journey. */
  lemma OfferingIsTakenUp(q: Quote, ops: Operations, lifetime: nat, actor: string, token: string, key: string,
                          found: Response.Surroundings)
    requires IsNewOffer(q) && Runs.Inv(Runs.World(q, ops, [], [])) && EverythingIsThere(ops, found)
    requires lifetime >= 1 && found.facts.now < q.validUntil && actor != ""
    ensures var step := Response.Advance(0, found);
            var end := Response.Run(Offering(q, ops, lifetime, token, found.facts.now),
                         [Response.Ask(Response.Request(token, CustomerAccepted, key)), step, step, step, step, step]);
            |end.calls| > 0 && end.calls[0].phase == Response.Done(0, Response.Converted) &&
            Response.Inv(end) && Response.Keeps(Offering(q, ops, lifetime, token, found.facts.now), end)
  {
    hide *;
    var now := found.facts.now;
    var offering := Offering(q, ops, lifetime, token, now);
    OfferingHasInv(q, ops, lifetime, actor, token, now);
    OfferingFacts(q, ops, lifetime, token, now);
    NothingBlocks(q, ops, found);
    Response.UninterruptedAcceptanceConverts(offering, token, key, found);
    var step := Response.Advance(0, found);
    Response.RunKeepsInv(offering,
      [Response.Ask(Response.Request(token, CustomerAccepted, key)), step, step, step, step, step]);
  }

  lemma OfferingFacts(q: Quote, ops: Operations, lifetime: nat, token: string, now: int)
    requires IsNewOffer(q) && lifetime >= 1 && now < q.validUntil
    ensures var offering := Offering(q, ops, lifetime, token, now);
            offering.calls == [] && offering.life.quote == Resolved(q) && offering.life.operations == ops &&
            offering.life.quote.currentRevisionNumber == 1 && FindToken(offering.grants, token) == 0 &&
            offering.responses == [] &&
            var p := QuoteCustomerAccess.Resolve(offering.life.quote, offering.grants, offering.responses, token, now);
            p.Some? && p.value.actionable
    ensures forall key :: FindKey(Offering(q, ops, lifetime, token, now).responses, key).None?
  {
    IssuingTheFirstLink(Resolved(q), lifetime, token, now);
    hide QuoteCustomerAccess.Resolve, FindToken;
  }

  /** The actions of an undisturbed journey: resolve, issue a link, ask, and let the answer run. */
  function Journey(actor: string, token: string, key: string, found: Response.Surroundings): seq<Response.Action> {
    var step := Response.Advance(0, found);
    [Response.Lifecycle(Runs.Resolve(1, NEW, NEW, actor)), Response.IssueLink(1, token, found.facts.now)]
    + [Response.Ask(Response.Request(token, CustomerAccepted, key)), step, step, step, step, step]
  }

  lemma RunOfTwoAndMore(s: Response.Shop, a: Response.Action, b: Response.Action, rest: seq<Response.Action>)
    ensures Response.Run(s, [a, b] + rest) == Response.Run(Response.Step(Response.Step(s, a), b), rest)
  {
    hide Response.Step;
    assert [a, b] + rest == [a] + ([b] + rest);
    Response.RunFirst(s, a, [b] + rest);
    Response.RunFirst(Response.Step(s, a), b, rest);
  }

  lemma JourneyIs(actor: string, token: string, key: string, found: Response.Surroundings)
    ensures var step := Response.Advance(0, found);
            Journey(actor, token, key, found) ==
              [Response.Lifecycle(Runs.Resolve(1, NEW, NEW, actor)), Response.IssueLink(1, token, found.facts.now)]
              + [Response.Ask(Response.Request(token, CustomerAccepted, key)), step, step, step, step, step]
  {
  }

  lemma OfferingTerms(q: Quote, ops: Operations, lifetime: nat, token: string, now: int)
    requires IsNewOffer(q)
    ensures var offering := Offering(q, ops, lifetime, token, now);
            |offering.grants| == 1 && offering.grants[0].revisionNumber == 1 &&
            1 in offering.life.quote.revisions && offering.life.quote.revisions == q.revisions
  {
  }

  lemma ConversionOfTheFirst(s: Response.Shop, end: Response.Shop)
    requires Response.Inv(end) && Response.Keeps(s, end)
    requires |s.grants| == 1 && s.grants[0].revisionNumber == 1 && 1 in s.life.quote.revisions
    requires |end.calls| > 0 && end.calls[0].phase == Response.Done(0, Response.Converted)
    ensures end.life.quote.status == Accepted && end.life.quote.acceptedRevision == Some(1)
    ensures Get(end.life.quote.revisions, 1) == Get(s.life.quote.revisions, 1)
  {
    assert Response.CallSound(end.life.quote, end.grants, end.responses, end.calls[0]);
    assert Response.SameTerms(s.grants[0], end.grants[0]);
    hide Runs.Inv, Response.GrantsSound, Response.ResponsesSound, Runs.Extends, Response.HasEvidence;
  }

  lemma TakenUp(q: Quote, ops: Operations, lifetime: nat, actor: string, token: string, key: string,
                found: Response.Surroundings)
    requires IsNewOffer(q) && Runs.Inv(Runs.World(q, ops, [], [])) && EverythingIsThere(ops, found)
    requires lifetime >= 1 && found.facts.now < q.validUntil && actor != ""
    ensures var end := Response.Run(Opening(q, ops, lifetime), Journey(actor, token, key, found));
            end.life.quote.status == Accepted && end.life.quote.acceptedRevision == Some(1) &&
            Get(end.life.quote.revisions, 1) == Get(q.revisions, 1) &&
            |end.calls| > 0 && end.calls[0].phase == Response.Done(0, Response.Converted)
  {
    hide *;
    var now, step := found.facts.now, Response.Advance(0, found);
    JourneyIs(actor, token, key, found);
    RunOfTwoAndMore(Opening(q, ops, lifetime), Response.Lifecycle(Runs.Resolve(1, NEW, NEW, actor)),
                    Response.IssueLink(1, token, now),
                    [Response.Ask(Response.Request(token, CustomerAccepted, key)), step, step, step, step, step]);
    TwoStepsToOffering(q, ops, lifetime, actor, token, now);
    OfferingIsTakenUp(q, ops, lifetime, actor, token, key, found);
    OfferingTerms(q, ops, lifetime, token, now);
    ConversionOfTheFirst(Offering(q, ops, lifetime, token, now),
                         Response.Run(Opening(q, ops, lifetime), Journey(actor, token, key, found)));
  }

  lemma CostsAreUsable(s: Submission, facts: Costing.CostFacts)
    requires facts.coidaRate.Some? && facts.coidaRate.value >= 0.0
    requires facts.routeKm.Some? && facts.routeKm.value >= 0.0
    ensures Costing.ProviderFailure(s, facts).None?
  {
    hide Costing.CleanerHalfHours;
  }

  /**
   Every submission that prices itself, with known costs and no open laundry or add-on, is offered at creation, and
   an undisturbed customer holding its link ends with an accepted Quote at the price created.
   */
  lemma OffersCanBeTakenUp(s: Submission, costFacts: Costing.CostFacts, validUntil: int, ops: Operations, lifetime: nat,
                           actor: string, token: string, key: string, found: Response.Surroundings)
    requires QuoteOffers.HasAutomaticPrimary(s) && s.addOns == [] && QuoteOffers.AsksForNoPricedLaundry(s)
    requires costFacts.coidaRate.Some? && costFacts.coidaRate.value >= 0.0
    requires costFacts.routeKm.Some? && costFacts.routeKm.value >= 0.0
    requires EverythingIsThere(ops, found) && lifetime >= 1 && found.facts.now < validUntil && actor != ""
    ensures Created(s, costFacts, 0, validUntil).Some?
    ensures var q := Created(s, costFacts, 0, validUntil).value;
            var end := Response.Run(Opening(q, ops, lifetime), Journey(actor, token, key, found));
            q.status == Submitted && end.life.quote.status == Accepted && end.life.quote.acceptedRevision == Some(1) &&
            Get(end.life.quote.revisions, 1) == Get(q.revisions, 1) &&
            |end.calls| > 0 && end.calls[0].phase == Response.Done(0, Response.Converted)
  {
    hide *;
    CostsAreUsable(s, costFacts);
    CreationSucceedsExactlyWhen(s, costFacts, 0, validUntil);
    Runs.OfferedAtCreationExactlyWhen(s, costFacts, 0, validUntil);
    Runs.CreatedQuoteIsSound(s, costFacts, 0, validUntil, ops);
    NewOffersAreNew(s, costFacts, validUntil);
    var q := Created(s, costFacts, 0, validUntil).value;
    TakenUp(q, ops, lifetime, actor, token, key, found);
  }
}
