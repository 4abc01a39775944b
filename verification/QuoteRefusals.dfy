/**
 What the refusals of the Quote services mean: each names a fact of the Quote, the tables or the request.
 (apps/api/src/quotes/quote-pricing-review.service.ts, quote-review.service.ts, quote-customer-access.service.ts,
 quote-customer-response.service.ts)
 */
module QuoteRefusals {
  import opened Prelude
  import opened QuoteFacts
  import opened QuotePricing
  import opened QuoteLifecycle
  import opened QuoteCustomerAccess
  import Costing = QuoteCosts

  // ---- pricing review ------------------------------------------------------------------------

  predicate IsReviewRefusal(q: Quote, expected: nat, details: seq<Detail>, actor: string, facts: Costing.CostFacts,
                            why: Refusal)
  {
    match why
    case ActorRequired => actor == ""
    case NotRevisable(status) => status == q.status && status != NeedsAttention && status != Submitted
    case StaleRevision => q.currentRevisionNumber != expected
    case RevisionMissing => expected !in q.revisions
    case BadRevisionNumber => expected < 1
    case BadAddOnIndex =>
      expected in q.revisions &&
      exists i :: 0 <= i < |details| && !(0 <= details[i].index < |q.revisions[expected].submission.addOns|)
    case Unpriceable => true
    case _ => false
  }

  lemma ReviewRefusalsNameTheirCause(q: Quote, expected: nat, details: seq<Detail>, actor: string,
                                     facts: Costing.CostFacts)
    ensures var r := PrepareReview(q, expected, details, actor, facts);
            r.Err? ==> IsReviewRefusal(q, expected, details, actor, facts, r.error)
  {
    if expected in q.revisions {
      SuppliedDetailsFileTheLast(details, |q.revisions[expected].submission.addOns|);
    }
    hide SuppliedDetails, PriceFor, FilesTheLast;
  }

  /** A prepared review is refused at the end when the Quote moved on, was decided, or already has that revision. */
  lemma CommitsAreRefusedExactlyWhen(q: Quote, draft: Draft)
    ensures CommitReview(q, draft).Ok? <==>
              q.currentRevisionNumber == draft.expected && (q.status == NeedsAttention || q.status == Submitted) &&
              draft.expected + 1 !in q.revisions
    ensures CommitReview(q, draft) == Err(StaleRevision) <==> q.currentRevisionNumber != draft.expected
  {
    hide StatusFor;
  }

  // ---- match resolution ----------------------------------------------------------------------

  predicate IsResolutionRefusal(q: Quote, ops: Operations, expected: nat, customer: Choice, property: Choice,
                                actor: string, why: Refusal)
  {
    match why
    case BadRevisionNumber => expected < 1
    case ActorRequired => actor == ""
    case InvalidResolution =>
      (customer.decision == UseExisting && (customer.id.None? || customer.id.value == "")) ||
      (property.decision == UseExisting && (property.id.None? || property.id.value == "")) ||
      (customer.decision == CreateNew && customer.id.Some? && customer.id.value != "") ||
      (property.decision == CreateNew && property.id.Some? && property.id.value != "")
    case StaleRevision => q.currentRevisionNumber != expected
    case DifferentResolution => q.resolutionRevisionNumber.Some?
    case UnknownCustomer => customer.id.Some? && customer.id.value !in ops.customers
    case UnknownProperty => property.id.Some? && property.id.value !in ops.properties
    case PropertyNotOfCustomer =>
      property.id.Some? && property.id.value in ops.properties &&
      (customer.decision == CreateNew || customer.id != Some(ops.properties[property.id.value]))
    case NewCustomerWithProperty => customer.decision == CreateNew && property.decision == UseExisting
    case _ => false
  }

  lemma ResolutionRefusalsNameTheirCause(q: Quote, ops: Operations, expected: nat, customer: Choice, property: Choice,
                                         actor: string)
    ensures var r := RecordResolution(q, ops, expected, customer, property, actor);
            r.Err? ==> IsResolutionRefusal(q, ops, expected, customer, property, actor, r.error)
  {
    assert customer.decision == UseExisting || customer.decision == CreateNew;
    assert property.decision == UseExisting || property.decision == CreateNew;
  }

  // ---- acceptance and decline ----------------------------------------------------------------

  predicate IsTaken(ops: Operations, ids: NewIds) {
    ids.customer in ops.customers || ids.property in ops.properties || ids.agreement in ops.agreements ||
    ids.workOrder in ops.workOrders
  }

  predicate IsConversionRefusal(q: Quote, ops: Operations, expected: nat, facts: AcceptFacts, ids: NewIds, why: Refusal) {
    match why
    case CustomerGone =>
      q.customerResolution == Some(UseExisting) && (q.customerId.None? || q.customerId.value !in ops.customers)
    case PropertyGone =>
      q.propertyResolution == Some(UseExisting) && (q.propertyId.None? || q.propertyId.value !in ops.properties)
    case PropertyOfAnother =>
      q.propertyResolution == Some(UseExisting) && q.propertyId.Some? && q.propertyId.value in ops.properties &&
      (q.customerResolution == Some(UseExisting) ==> q.customerId != Some(ops.properties[q.propertyId.value]))
    case NoPropertyType => q.propertyResolution != Some(UseExisting) && !facts.propertyTypeKnown
    case ServicesUnavailable => !facts.servicesAvailable
    case ReferencesExhausted => !facts.referencesLeft
    case IdentityTaken => IsTaken(ops, ids)
    case DecisionChanged => !IsUndecided(q, expected)
    case _ => false
  }

  predicate IsAcceptRefusal(q: Quote, ops: Operations, expected: nat, actor: Id, facts: AcceptFacts, ids: NewIds, why: Refusal) {
    match why
    case BadRevisionNumber => expected < 1
    case ActorRequired => actor == ""
    case StaleRevision => q.currentRevisionNumber != expected
    case IncompatibleAcceptance => q.status == Accepted && !IsSameAcceptance(q, ops, expected)
    case NotAcceptable(status) => status == q.status && status != Submitted && status != Accepted
    case OfferExpired => q.validUntil < facts.now
    case PhotosNotStored => !facts.photosStored
    case ResolutionRequired =>
      q.customerResolution.None? || q.propertyResolution.None? || q.resolutionRevisionNumber != Some(expected)
    case RevisionMissing => expected !in q.revisions
    case NotProjectable => !facts.projectable
    case ActorUnknown => !facts.actorKnown
    case _ => q.status == Submitted && IsConversionRefusal(q, ops, expected, facts, ids, why)
  }

  lemma AcceptRefusalsNameTheirCause(q: Quote, ops: Operations, expected: nat, actor: Id, facts: AcceptFacts, ids: NewIds)
    ensures var r := Accept(q, ops, expected, actor, facts, ids);
            r.Err? ==> IsAcceptRefusal(q, ops, expected, actor, facts, ids, r.error)
  {
    if expected in q.revisions {
      ConvertRefusalsNameTheirCause(q, ops, expected, actor, facts, ids);
    }
    hide Convert, IsSameAcceptance, IsConversionRefusal;
  }

  predicate IsOfConversion(why: Refusal) {
    why.CustomerGone? || why.PropertyGone? || why.PropertyOfAnother? || why.NoPropertyType? ||
    why.ServicesUnavailable? || why.ReferencesExhausted? || why.IdentityTaken? || why.DecisionChanged?
  }

  lemma ConvertRefusalsNameTheirCause(q: Quote, ops: Operations, expected: nat, actor: Id, facts: AcceptFacts, ids: NewIds)
    requires expected in q.revisions
    ensures var r := Convert(q, ops, expected, actor, facts, ids);
            r.Err? ==> IsOfConversion(r.error) && IsConversionRefusal(q, ops, expected, facts, ids, r.error)
  {
    hide IsUndecided;
    var customer := ResolveCustomer(q, ops, ids.customer);
    CustomerRefusals(q, ops, expected, facts, ids);
    hide ResolveCustomer;
    if customer.Ok? {
      PropertyRefusals(q, ops, expected, facts, ids, customer.value.0, customer.value.1);
    }
    hide ResolveProperty;
  }

  lemma CustomerRefusals(q: Quote, ops: Operations, expected: nat, facts: AcceptFacts, ids: NewIds)
    ensures var r := ResolveCustomer(q, ops, ids.customer);
            (r.Err? ==> IsOfConversion(r.error) && IsConversionRefusal(q, ops, expected, facts, ids, r.error)) &&
            (r.Ok? ==>
               r.value.1 == ops.(customers := r.value.1.customers) &&
               (q.customerResolution == Some(UseExisting) ==> q.customerId == Some(r.value.0)))
  {
    hide IsUndecided;
  }

  lemma PropertyRefusals(q: Quote, ops: Operations, expected: nat, facts: AcceptFacts, ids: NewIds, customer: Id,
                         ops1: Operations)
    requires ops1.properties == ops.properties
    requires q.customerResolution == Some(UseExisting) ==> q.customerId == Some(customer)
    ensures var r := ResolveProperty(q, ops1, customer, ids.property, facts.propertyTypeKnown);
            (r.Err? ==> IsOfConversion(r.error) && IsConversionRefusal(q, ops, expected, facts, ids, r.error)) &&
            (r.Ok? ==> r.value.1 == ops1.(properties := r.value.1.properties))
  {
    hide IsUndecided;
  }

  predicate IsDeclineRefusal(q: Quote, declines: seq<DeclineRecord>, expected: nat, reason: Option<string>, actor: Id,
                             why: Refusal)
  {
    match why
    case BadRevisionNumber => expected < 1
    case ActorRequired => actor == ""
    case ReasonTooLong => reason.Some? && |reason.value| > 500
    case StaleRevision => q.currentRevisionNumber != expected
    case AlreadyDeclined => q.status == Declined
    case NotDeclinable(status) => status == q.status && (status == Accepted || status == Expired)
    case HasOperationalState =>
      q.acceptedBy.Some? || q.acceptedRevision.Some? || q.workOrderId.Some? || q.recurringAgreementId.Some?
    case DecisionChanged => q.declinedBy.Some?
    case _ => false
  }

  lemma DeclineRefusalsNameTheirCause(q: Quote, declines: seq<DeclineRecord>, expected: nat, reason: Option<string>, actor: Id)
    ensures var r := Decline(q, declines, expected, reason, actor);
            r.Err? ==> IsDeclineRefusal(q, declines, expected, reason, actor, r.error)
  {
  }

  // ---- links and answers ---------------------------------------------------------------------

  predicate IsLinkRefusal(q: Quote, grants: seq<Grant>, lifetime: Option<nat>, expected: nat, token: string, now: int,
                          why: AccessError)
  {
    match why
    case LifetimeNotConfigured => lifetime.None? || lifetime.value == 0
    case NotOfferable(status) => status == q.status && status != Submitted
    case QuoteChanged => q.currentRevisionNumber != expected || expected !in q.revisions
    case OfferLapsed => q.validUntil <= now
    case TokenTaken => exists i :: 0 <= i < |grants| && grants[i].token == token
    case _ => false
  }

  lemma LinkRefusalsNameTheirCause(q: Quote, grants: seq<Grant>, lifetime: Option<nat>, expected: nat, token: string, now: int)
    ensures var r := Issue(q, grants, lifetime, expected, token, now);
            r.Err? ==> IsLinkRefusal(q, grants, lifetime, expected, token, now, r.error)
  {
    assert FindToken(grants, token) < |grants| ==> grants[FindToken(grants, token)].token == token;
    hide FirstLive, FindToken;
  }

  predicate IsEvidenceRefusal(q: Quote, grants: seq<Grant>, responses: seq<Response>, grant: nat,
                              decision: CustomerDecision, key: string, now: int, why: AccessError)
  {
    match why
    case Unavailable =>
      grant >= |grants| || grants[grant].revokedAt.Some? || grants[grant].supersededAt.Some? ||
      grants[grant].expiresAt <= now || q.validUntil <= now || q.currentRevisionNumber != grants[grant].revisionNumber
    case DifferentDecision =>
      FindResponse(responses, grant).Some? && FindResponse(responses, grant).value.decision != decision
    case KeyInUse => FindKey(responses, key).Some?
    case NotDeclinableNow => decision == CustomerDeclined && q.status != Submitted && q.status != NeedsAttention
    case NotAcceptableNow => decision == CustomerAccepted && q.status != Submitted
    case _ => false
  }

  lemma EvidenceRefusalsNameTheirCause(q: Quote, grants: seq<Grant>, responses: seq<Response>, grant: nat,
                                       decision: CustomerDecision, key: string, now: int)
    ensures var r := RecordEvidence(q, grants, responses, grant, decision, key, now);
            r.Err? ==> IsEvidenceRefusal(q, grants, responses, grant, decision, key, now, r.error)
  {
    hide FindResponse, FindKey;
  }
}
