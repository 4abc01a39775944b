/**
 The services that create and decide a Quote, as they update its row and the
 tables beside it. A refused transaction rolls back: nothing is assigned before
 the last check.
 (apps/api/src/quotes/quote-submission.service.ts, quote-pricing-review.service.ts,
 quote-review.service.ts)
 */
module QuoteDesk {
  import opened Prelude
  import opened QuoteFacts
  import opened QuotePricing
  import opened QuoteLifecycle
  import opened QuotePricingMethods
  import Costing = QuoteCosts

  /** `resolveQuoteOperationalCosts` with the approved provider. */
  method ResolveQuoteCosts(s: Submission, facts: Costing.CostFacts)
    returns (r: Result<Costing.Resolution, Costing.ProviderError>)
    ensures r.Err? <==> Costing.ProviderFailure(s, facts).Some?
    ensures r.Ok? ==> (r.value.Ready? <==> CostsFor(s, facts).Some?)
    ensures r.Ok? && r.value.Ready? ==> CostsFor(s, facts) == Some(r.value.costs)
  {
    hide Costing.FactsKnown, Costing.ApprovedCosts, Costing.Amount, Costing.Validate;
    var candidate := Costing.ResolveCandidate(s, facts);
    if candidate.Err? {
      return Err(candidate.error);
    }
    Costing.ReadyExactlyWhenFactsAreKnown(s, facts, candidate.value);
    var resolution := Costing.ValidateCandidate(candidate.value);
    return Ok(resolution);
  }

  /** The cost, price and status part of `submit`. */
  method CreateQuote(s: Submission, facts: Costing.CostFacts, failedPhotos: nat, validUntil: int)
    returns (q: Option<Quote>)
    ensures q == Created(s, facts, failedPhotos, validUntil)
  {
    hide WebsitePrice, Costing.FactsKnown, Costing.ApprovedCosts, Costing.ProviderFailure;
    var resolution := ResolveQuoteCosts(s, facts);
    if resolution.Err? {
      return None;
    }
    var ready := resolution.value.Ready?;
    var priced := CalculateWebsiteQuotePricing(s, if ready then Some(resolution.value.costs) else None);
    if priced.Err? {
      return None;
    }
    var price := priced.value;
    var status := if !ready || price.reasons != [] || failedPhotos > 0 then NeedsAttention else Submitted;
    return Some(Quote(status, 1, validUntil, map[1 := Revision(s, facts, price)],
                      None, None, None, None, None, None, None, None, None, None));
  }

  /** `validatedDetails`: refuses a bad index, else files the last detail given for each add-on. */
  method ValidatedDetails(details: seq<Detail>, count: nat) returns (r: Option<map<nat, ReviewDetail>>)
    ensures r.Some? <==> InRange(details, count)
    ensures r.Some? ==> FilesTheLast(details, r.value)
    ensures r == SuppliedDetails(details, count)
  {
    var result: map<nat, ReviewDetail> := map[];
    for i := 0 to |details|
      invariant InRange(details[..i], count) && SuppliedDetails(details[..i], count) == Some(result)
    {
      assert details[..i + 1][..i] == details[..i];
      if details[i].index < 0 || details[i].index >= count {
        SuppliedDetailsFileTheLast(details, count);
        return None;
      }
      result := result[details[i].index as nat := details[i].detail];
    }
    assert details[..|details|] == details;
    SuppliedDetailsFileTheLast(details, count);
    return Some(result);
  }

  class QuoteFile {
    var quote: Quote
    var operations: Operations
    var declines: seq<DeclineRecord>

    constructor (quote: Quote, operations: Operations)
      ensures this.quote == quote && this.operations == operations && declines == []
    {
      this.quote, this.operations, declines := quote, operations, [];
    }

    /** The reading half of `review`: nothing is written yet. */
    method PrepareReview(expected: nat, details: seq<Detail>, actor: string, facts: Costing.CostFacts)
      returns (r: Result<Draft, Refusal>)
      ensures r == QuoteLifecycle.PrepareReview(quote, expected, details, actor, facts)
    {
      hide AdminPrice, Costing.FactsKnown, Costing.ApprovedCosts, Costing.ProviderFailure, SuppliedDetails;
      if actor == "" {
        return Err(ActorRequired);
      }
      if quote.status != NeedsAttention && quote.status != Submitted {
        return Err(NotRevisable(quote.status));
      }
      if quote.currentRevisionNumber != expected {
        return Err(StaleRevision);
      }
      if expected !in quote.revisions {
        return Err(RevisionMissing);
      }
      var current := quote.revisions[expected].submission;
      if expected < 1 {
        return Err(BadRevisionNumber);
      }
      var supplied := ValidatedDetails(details, |current.addOns|);
      if supplied.None? {
        return Err(BadAddOnIndex);
      }
      var revised := current.(adminReview := current.adminReview + supplied.value);
      var resolution := ResolveQuoteCosts(revised, facts);
      if resolution.Err? {
        return Err(Unpriceable);
      }
      var priced := CalculateAdminReviewedQuotePricing(
        revised, if resolution.value.Ready? then Some(resolution.value.costs) else None);
      if priced.Err? {
        return Err(Unpriceable);
      }
      return Ok(Draft(expected, revised, facts, priced.value));
    }

    /** The writing half of `review`. */
    method CommitReview(draft: Draft) returns (r: Result<nat, Refusal>)
      modifies this`quote
      ensures match QuoteLifecycle.CommitReview(old(quote), draft)
              case Ok(q) => r == Ok(draft.expected + 1) && quote == q
              case Err(e) => r == Err(e) && quote == old(quote)
    {
      hide StatusFor;
      if quote.currentRevisionNumber != draft.expected {
        return Err(StaleRevision);
      }
      if quote.status != NeedsAttention && quote.status != Submitted {
        return Err(NotRevisable(quote.status));
      }
      var next := draft.expected + 1;
      if next in quote.revisions {
        return Err(IdentityTaken);
      }
      var carried := quote.resolutionRevisionNumber == Some(draft.expected);
      quote := quote.(revisions := quote.revisions[next := Revision(draft.submission, draft.costFacts, draft.price)]);
      quote := quote.(currentRevisionNumber := next,
                      status := StatusFor(draft.submission, draft.costFacts, draft.price, 0));
      if carried {
        quote := quote.(resolutionRevisionNumber := Some(next));
      }
      return Ok(next);
    }

    method RecordResolution(expected: nat, customer: Choice, property: Choice, actor: string)
      returns (r: Result<Quote, Refusal>)
      modifies this`quote
      ensures r == QuoteLifecycle.RecordResolution(old(quote), operations, expected, customer, property, actor)
      ensures quote == if r.Ok? then r.value else old(quote)
    {
      if expected < 1 {
        return Err(BadRevisionNumber);
      }
      if actor == "" {
        return Err(ActorRequired);
      }
      if !IsConsistent(customer) || !IsConsistent(property) {
        return Err(InvalidResolution);
      }
      if quote.currentRevisionNumber != expected {
        return Err(StaleRevision);
      }
      var customerId, propertyId := ChosenId(customer), ChosenId(property);
      if quote.resolutionRevisionNumber.Some? {
        if quote.resolutionRevisionNumber == Some(expected) && quote.customerResolution == Some(customer.decision) &&
           quote.propertyResolution == Some(property.decision) && quote.customerId == customerId &&
           quote.propertyId == propertyId
        {
          return Ok(quote);
        }
        return Err(DifferentResolution);
      }
      if customerId.Some? && customerId.value !in operations.customers {
        return Err(UnknownCustomer);
      }
      if propertyId.Some? {
        if propertyId.value !in operations.properties {
          return Err(UnknownProperty);
        }
        if customerId.None? || operations.properties[propertyId.value] != customerId.value {
          return Err(PropertyNotOfCustomer);
        }
      }
      if customer.decision == CreateNew && property.decision == UseExisting {
        return Err(NewCustomerWithProperty);
      }
      quote := quote.(customerResolution := Some(customer.decision), propertyResolution := Some(property.decision),
                      customerId := customerId, propertyId := propertyId, resolutionRevisionNumber := Some(expected));
      return Ok(quote);
    }

    method Accept(expected: nat, actor: Id, facts: AcceptFacts, ids: NewIds) returns (r: Result<Quote, Refusal>)
      modifies this`quote, this`operations
      ensures match QuoteLifecycle.Accept(old(quote), old(operations), expected, actor, facts, ids)
              case Ok((q, ops)) => r == Ok(q) && quote == q && operations == ops
              case Err(e) => r == Err(e) && quote == old(quote) && operations == old(operations)
    {
      hide IsSameAcceptance;
      if expected < 1 {
        return Err(BadRevisionNumber);
      }
      if actor == "" {
        return Err(ActorRequired);
      }
      if quote.currentRevisionNumber != expected {
        return Err(StaleRevision);
      }
      if quote.status == Accepted {
        if IsSameAcceptance(quote, operations, expected) {
          return Ok(quote);
        }
        return Err(IncompatibleAcceptance);
      }
      var refusal := AcceptRefusal(quote, expected, facts);
      if refusal.Some? {
        return Err(refusal.value);
      }
      hide AcceptRefusal;
      r := ConvertQuote(expected, actor, facts, ids);
    }

    /** The creating part of `accept`: rows first, then the guarded update of the Quote. */
    method ConvertQuote(expected: nat, actor: Id, facts: AcceptFacts, ids: NewIds) returns (r: Result<Quote, Refusal>)
      requires expected in quote.revisions
      modifies this`quote, this`operations
      ensures match Convert(old(quote), old(operations), expected, actor, facts, ids)
              case Ok((q, ops)) => r == Ok(q) && quote == q && operations == ops
              case Err(e) => r == Err(e) && quote == old(quote) && operations == old(operations)
    {
      var rows := operations;
      var customer := ResolveCustomer(quote, rows, ids.customer);
      if customer.Err? {
        return Err(customer.error);
      }
      rows := customer.value.1;
      var property := ResolveProperty(quote, rows, customer.value.0, ids.property, facts.propertyTypeKnown);
      if property.Err? {
        return Err(property.error);
      }
      rows := property.value.1;
      if !facts.servicesAvailable {
        return Err(ServicesUnavailable);
      }
      var agreement := CreateAgreement(rows, quote.revisions[expected].submission.oneTime, property.value.0, ids.agreement);
      if agreement.Err? {
        return Err(agreement.error);
      }
      rows := agreement.value.1;
      hide ResolveCustomer, ResolveProperty, CreateAgreement;
      var order := WorkOrder(customer.value.0, property.value.0, agreement.value.0);
      var ordered := CreateWorkOrder(rows, order, ids.workOrder, facts.referencesLeft);
      hide CreateWorkOrder;
      if ordered.Err? {
        return Err(ordered.error);
      }
      rows := ordered.value;
      if !IsUndecided(quote, expected) {
        return Err(DecisionChanged);
      }
      operations := rows;
      quote := quote.(status := Accepted, acceptedRevision := Some(expected), acceptedBy := Some(actor),
                      customerId := Some(customer.value.0), propertyId := Some(property.value.0),
                      workOrderId := Some(ids.workOrder), recurringAgreementId := agreement.value.0);
      return Ok(quote);
    }

    method Decline(expected: nat, reason: Option<string>, actor: Id) returns (r: Result<Quote, Refusal>)
      modifies this`quote, this`declines
      ensures match QuoteLifecycle.Decline(old(quote), old(declines), expected, reason, actor)
              case Ok((q, records)) => r == Ok(q) && quote == q && declines == records
              case Err(e) => r == Err(e) && quote == old(quote) && declines == old(declines)
    {
      if expected < 1 {
        return Err(BadRevisionNumber);
      }
      if actor == "" {
        return Err(ActorRequired);
      }
      if reason.Some? && |reason.value| > 500 {
        return Err(ReasonTooLong);
      }
      if quote.currentRevisionNumber != expected {
        return Err(StaleRevision);
      }
      if quote.status == Declined {
        if quote.declinedBy == Some(actor) && declines != [] &&
           declines[|declines| - 1] == DeclineRecord(reason, expected)
        {
          return Ok(quote);
        }
        return Err(AlreadyDeclined);
      }
      if quote.status != Submitted && quote.status != NeedsAttention {
        return Err(NotDeclinable(quote.status));
      }
      if quote.acceptedBy.Some? || quote.acceptedRevision.Some? || quote.workOrderId.Some? ||
         quote.recurringAgreementId.Some?
      {
        return Err(HasOperationalState);
      }
      if quote.declinedBy.Some? {
        return Err(DecisionChanged);
      }
      quote := quote.(status := Declined, declinedBy := Some(actor));
      declines := declines + [DeclineRecord(reason, expected)];
      return Ok(quote);
    }
  }
}
