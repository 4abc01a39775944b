/**
 What each decision on a Quote writes, told without its own code: reviews use
 the details given, resolutions record the choice, conversions follow it.
 (apps/api/src/quotes/quote-pricing-review.service.ts, quote-review.service.ts)
 */
module QuoteEffects {
  import opened Prelude
  import opened QuoteFacts
  import opened QuotePricing
  import opened QuoteLifecycle
  import Runs = QuoteLifecycleRuns
  import Journey = QuoteJourney
  import PostEventCleaning
  import QuoteOffers
  import Costing = QuoteCosts

  // ---- creation ------------------------------------------------------------------------------

  /** A new Quote holds the submission as its first revision, at its website price, and nothing is decided yet. */
  lemma CreatedQuotesHoldTheSubmission(s: Submission, facts: Costing.CostFacts, failedPhotos: nat, validUntil: int)
    requires Created(s, facts, failedPhotos, validUntil).Some?
    ensures var q := Created(s, facts, failedPhotos, validUntil).value;
            q.currentRevisionNumber == 1 && q.revisions.Keys == {1} && q.validUntil == validUntil &&
            q.revisions[1].submission == s && q.revisions[1].costFacts == facts &&
            PriceFor(s, facts, false) == Some(q.revisions[1].price) &&
            q.customerResolution.None? && q.propertyResolution.None? && q.resolutionRevisionNumber.None? &&
            q.customerId.None? && q.propertyId.None? && q.acceptedRevision.None? && q.acceptedBy.None? &&
            q.workOrderId.None? && q.recurringAgreementId.None? && q.declinedBy.None?
  {
    hide PriceFor, StatusFor;
  }

  // ---- pricing review ------------------------------------------------------------------------

  /** The details the Quote had, overlaid by the last detail given for each add-on. */
  ghost predicate OverlaysDetails(before: map<nat, ReviewDetail>, details: seq<Detail>, after: map<nat, ReviewDetail>) {
    (forall i | 0 <= i < |details| && IsLast(details, i) ::
       details[i].index >= 0 && Get(after, details[i].index) == Some(details[i].detail)) &&
    (forall k | (forall i | 0 <= i < |details| :: details[i].index != k) :: Get(after, k) == Get(before, k))
  }

  lemma OverlayFollows(before: map<nat, ReviewDetail>, details: seq<Detail>, filed: map<nat, ReviewDetail>)
    requires FilesTheLast(details, filed)
    ensures OverlaysDetails(before, details, before + filed)
  {
    forall i | 0 <= i < |details| && IsLast(details, i)
      ensures details[i].index >= 0 && Get(before + filed, details[i].index) == Some(details[i].detail)
    {
      assert Get(filed, details[i].index) == Some(details[i].detail);
    }
  }

  /** A prepared review starts from the current revision, changes its reviewed details only, and prices the result. */
  lemma ReviewsUseTheDetails(q: Quote, expected: nat, details: seq<Detail>, actor: string, facts: Costing.CostFacts)
    requires PrepareReview(q, expected, details, actor, facts).Ok?
    ensures expected == q.currentRevisionNumber && expected in q.revisions
    ensures var draft := PrepareReview(q, expected, details, actor, facts).value;
            var current := q.revisions[expected].submission;
            InRange(details, |current.addOns|) && draft.expected == expected && draft.costFacts == facts &&
            draft.submission == current.(adminReview := draft.submission.adminReview) &&
            OverlaysDetails(current.adminReview, details, draft.submission.adminReview) &&
            PriceFor(draft.submission, facts, true) == Some(draft.price)
  {
    var current := q.revisions[expected].submission;
    SuppliedDetailsFileTheLast(details, |current.addOns|);
    hide SuppliedDetails, PriceFor, FilesTheLast, OverlaysDetails, InRange;
    OverlayFollows(current.adminReview, details, SuppliedDetails(details, |current.addOns|).value);
  }

  /** Which reviews are prepared: on a revisable Quote at its revision, for add-ons it has, when the provider does not throw. */
  lemma PreparedExactlyWhen(q: Quote, expected: nat, details: seq<Detail>, actor: string, facts: Costing.CostFacts)
    ensures PrepareReview(q, expected, details, actor, facts).Ok? <==>
              actor != "" && (q.status == NeedsAttention || q.status == Submitted) && expected >= 1 &&
              q.currentRevisionNumber == expected && expected in q.revisions &&
              var current := q.revisions[expected].submission;
              InRange(details, |current.addOns|) &&
              exists review :: OverlaysDetails(current.adminReview, details, review) &&
                               PriceFor(current.(adminReview := review), facts, true).Some?
  {
    if expected in q.revisions {
      var current := q.revisions[expected].submission;
      SuppliedDetailsFileTheLast(details, |current.addOns|);
      if InRange(details, |current.addOns|) {
        var filed := SuppliedDetails(details, |current.addOns|).value;
        OverlayFollows(current.adminReview, details, filed);
        forall review | OverlaysDetails(current.adminReview, details, review)
          ensures review == current.adminReview + filed
        {
          OverlayIsUnique(current.adminReview, details, review, current.adminReview + filed);
        }
      }
    }
    hide SuppliedDetails, PriceFor, FilesTheLast, OverlaysDetails, InRange;
  }

  lemma OverlayIsUnique(before: map<nat, ReviewDetail>, details: seq<Detail>, a: map<nat, ReviewDetail>,
                        b: map<nat, ReviewDetail>)
    requires OverlaysDetails(before, details, a) && OverlaysDetails(before, details, b)
    ensures a == b
  {
    forall k: nat
      ensures Get(a, k) == Get(b, k)
    {
      if exists i :: 0 <= i < |details| && details[i].index == k {
        var i :| 0 <= i < |details| && details[i].index == k;
        var last := LastEntryExists(details, i);
        assert Get(a, details[last].index) == Get(b, details[last].index);
      }
    }
    forall k | k in a || k in b
      ensures k in a && k in b && a[k] == b[k]
    {
      assert Get(a, k) == Get(b, k);
    }
  }

  /** A committed review offers the Quote exactly when its price is final, and appends what was prepared. */
  lemma CommittedReviews(q: Quote, draft: Draft)
    requires CommitReview(q, draft).Ok?
    ensures var q' := CommitReview(q, draft).value;
            q' == q.(revisions := q'.revisions, currentRevisionNumber := q.currentRevisionNumber + 1, status := q'.status,
                     resolutionRevisionNumber := q'.resolutionRevisionNumber) &&
            q'.revisions == q.revisions[q'.currentRevisionNumber := Revision(draft.submission, draft.costFacts, draft.price)] &&
            (q'.status == Submitted <==> Costing.FactsKnown(draft.submission, draft.costFacts) && draft.price.reasons == []) &&
            (q'.status == Submitted || q'.status == NeedsAttention) &&
            q'.resolutionRevisionNumber ==
              (if q.resolutionRevisionNumber == Some(q.currentRevisionNumber) then Some(q'.currentRevisionNumber)
               else q.resolutionRevisionNumber)
  {
    hide Costing.FactsKnown;
  }

  predicate HasSoundQuantities(s: Submission) {
    forall i | 0 <= i < |s.addOns| && s.addOns[i].quantity.Some? :: s.addOns[i].quantity.value >= 0
  }

  lemma {:induction false} AddOnLinesAreAmounts(s: Submission, count: nat)
    requires HasSoundQuantities(s) && count <= |s.addOns|
    ensures Journey.NoneNegative(AddOnSheets(s, count).lines)
    decreases count
  {
    if count > 0 {
      AddOnLinesAreAmounts(s, count - 1);
    }
  }

  /** Repricing itself never fails on a submission with sound quantities: only the cost provider does. */
  lemma ReviewsArePriced(s: Submission, facts: Costing.CostFacts)
    requires HasSoundQuantities(s)
    ensures PriceFor(s, facts, true).Some? <==> Costing.ProviderFailure(s, facts).None?
  {
    Journey.WebsiteLinesAreAmounts(s);
    AddOnLinesAreAmounts(s, |s.addOns|);
    assert Journey.NoneNegative(AdminSheet(s).lines) by { hide WebsiteSheet, AddOnSheets, WithoutSuperseded; }
    Journey.SubtotalIsAnAmount(AdminSheet(s).lines);
    hide AdminSheet, Subtotal, Costing.CleanerHalfHours, Costing.Bucket, Costing.FiveBuckets;
  }

  /** What an offer after review takes, apart from the details: a primary service that prices itself, and known costs. */
  predicate OnlyAddOnsAreOpen(s: Submission, facts: Costing.CostFacts) {
    QuoteOffers.HasAutomaticPrimary(s) && QuoteOffers.AsksForNoPricedLaundry(s) && HasSoundQuantities(s) &&
    facts.coidaRate.Some? && facts.coidaRate.value >= 0.0 && facts.routeKm.Some? && facts.routeKm.value >= 0.0
  }

  /** The Quote holds its current revision, and may be reviewed. */
  predicate AwaitsReview(q: Quote) {
    IsRevisable(q.status) && q.currentRevisionNumber >= 1 && q.currentRevisionNumber in q.revisions &&
    q.currentRevisionNumber + 1 !in q.revisions
  }

  /**
   A Quote whose primary service prices itself, with known costs, is offered once a review has supplied whatever its
   add-ons were waiting for.
   */
  lemma ReviewsLeadToOffers(q: Quote, details: seq<Detail>, actor: string, facts: Costing.CostFacts,
                            review: map<nat, ReviewDetail>)
    requires AwaitsReview(q) && actor != ""
    requires var s := q.revisions[q.currentRevisionNumber].submission;
             OnlyAddOnsAreOpen(s, facts) && InRange(details, |s.addOns|) &&
             OverlaysDetails(s.adminReview, details, review) &&
             forall i | 0 <= i < |s.addOns| :: QuoteOffers.IsPriced(s.(adminReview := review), i)
    ensures var prepared := PrepareReview(q, q.currentRevisionNumber, details, actor, facts);
            prepared.Ok? && prepared.value.submission.adminReview == review &&
            CommitReview(q, prepared.value).Ok? && CommitReview(q, prepared.value).value.status == Submitted
  {
    hide PrepareReview, CommitReview, PriceFor, OverlaysDetails, InRange, OnlyAddOnsAreOpen, QuoteOffers.IsPriced;
    hide Costing.FactsKnown;
    var s := q.revisions[q.currentRevisionNumber].submission;
    DetailsSettleThePrice(s, facts, review);
    PreparedExactlyWhen(q, q.currentRevisionNumber, details, actor, facts);
    var draft := PrepareReview(q, q.currentRevisionNumber, details, actor, facts).value;
    ReviewsUseTheDetails(q, q.currentRevisionNumber, details, actor, facts);
    OverlayIsUnique(s.adminReview, details, review, draft.submission.adminReview);
    CommitsAnOffer(q, draft);
  }

  lemma CommitsAnOffer(q: Quote, draft: Draft)
    requires AwaitsReview(q) && draft.expected == q.currentRevisionNumber
    requires Costing.FactsKnown(draft.submission, draft.costFacts) && draft.price.reasons == []
    ensures CommitReview(q, draft).Ok? && CommitReview(q, draft).value.status == Submitted
  {
    hide Costing.FactsKnown;
  }

  lemma DetailsSettleThePrice(s: Submission, facts: Costing.CostFacts, review: map<nat, ReviewDetail>)
    requires OnlyAddOnsAreOpen(s, facts)
    requires forall i | 0 <= i < |s.addOns| :: QuoteOffers.IsPriced(s.(adminReview := review), i)
    ensures var reviewed := s.(adminReview := review);
            Costing.FactsKnown(reviewed, facts) && PriceFor(reviewed, facts, true).Some? &&
            PriceFor(reviewed, facts, true).value.reasons == []
  {
    var reviewed := s.(adminReview := review);
    assert QuoteOffers.HasAutomaticPrimary(reviewed) by { hide PostEventCleaning.Resolve; }
    assert QuoteOffers.AsksForNoPricedLaundry(reviewed);
    ReviewsArePriced(reviewed, facts);
    QuoteOffers.AutomaticPrimaryHasHours(reviewed);
    hide QuoteOffers.HasAutomaticPrimary, QuoteOffers.AsksForNoPricedLaundry, PriceFor, QuoteOffers.IsPriced;
    hide HasSoundQuantities, Costing.CleanerHalfHours;
    assert Costing.FactsKnown(reviewed, facts);
    FinalOnceKnown(reviewed, facts, PriceFor(reviewed, facts, true).value);
  }

  lemma FinalOnceKnown(s: Submission, facts: Costing.CostFacts, price: Price)
    requires PriceFor(s, facts, true) == Some(price) && Costing.FactsKnown(s, facts)
    requires QuoteOffers.HasAutomaticPrimary(s) && QuoteOffers.AsksForNoPricedLaundry(s)
    requires forall i | 0 <= i < |s.addOns| :: QuoteOffers.IsPriced(s, i)
    ensures price.reasons == []
  {
    hide AdminPrice, QuoteOffers.HasAutomaticPrimary, QuoteOffers.AsksForNoPricedLaundry, QuoteOffers.IsPriced;
    hide Costing.FactsKnown, Costing.ApprovedCosts, Costing.ProviderFailure;
    QuoteOffers.AdminPriceIsFinalExactlyWhen(s, CostsFor(s, facts).value);
  }

  // ---- match resolution ----------------------------------------------------------------------

  /** What the Quote then says: the two decisions, the existing rows they name, and the revision they are for. */
  predicate RecordsTheChoice(q: Quote, customer: Choice, property: Choice) {
    q.customerResolution == Some(customer.decision) && q.propertyResolution == Some(property.decision) &&
    (customer.decision == UseExisting ==> q.customerId == customer.id && customer.id.Some?) &&
    (property.decision == UseExisting ==> q.propertyId == property.id && property.id.Some?) &&
    (customer.decision == CreateNew ==> q.customerId.None?) && (property.decision == CreateNew ==> q.propertyId.None?) &&
    q.resolutionRevisionNumber == Some(q.currentRevisionNumber)
  }

  lemma ResolutionsRecordTheChoice(q: Quote, ops: Operations, expected: nat, customer: Choice, property: Choice, actor: string)
    requires RecordResolution(q, ops, expected, customer, property, actor).Ok?
    ensures RecordsTheChoice(RecordResolution(q, ops, expected, customer, property, actor).value, customer, property)
    ensures expected == q.currentRevisionNumber
  {
  }

  /** Named rows exist, and an existing property goes with its own existing customer. */
  predicate ChoiceStands(ops: Operations, customer: Choice, property: Choice) {
    (customer.decision == UseExisting ==> customer.id.Some? && customer.id.value in ops.customers) &&
    (property.decision == UseExisting ==>
       customer.decision == UseExisting && property.id.Some? && property.id.value in ops.properties &&
       customer.id == Some(ops.properties[property.id.value]))
  }

  /** Which resolutions of an unresolved Quote are recorded. */
  lemma ResolvedExactlyWhen(q: Quote, ops: Operations, expected: nat, customer: Choice, property: Choice, actor: string)
    requires q.resolutionRevisionNumber.None?
    ensures RecordResolution(q, ops, expected, customer, property, actor).Ok? <==>
              expected == q.currentRevisionNumber && expected >= 1 && actor != "" &&
              IsConsistent(customer) && IsConsistent(property) && ChoiceStands(ops, customer, property)
  {
    assert customer.decision == UseExisting || customer.decision == CreateNew;
    assert property.decision == UseExisting || property.decision == CreateNew;
  }

  // ---- conversion ----------------------------------------------------------------------------

  /** The customer and property an accepted Quote ends with are the ones chosen, or one new row each. */
  predicate FollowsTheChoice(q: Quote, ops: Operations, q': Quote, ops': Operations, ids: NewIds) {
    q'.customerId.Some? && q'.propertyId.Some? &&
    (if q.customerResolution == Some(UseExisting)
     then q'.customerId == q.customerId && q.customerId.Some? && q.customerId.value in ops.customers &&
          ops'.customers == ops.customers
     else q'.customerId == Some(ids.customer) && ids.customer !in ops.customers &&
          ops'.customers == ops.customers + {ids.customer}) &&
    (if q.propertyResolution == Some(UseExisting)
     then q'.propertyId == q.propertyId && q.propertyId.Some? && q.propertyId.value in ops.properties &&
          ops'.properties == ops.properties
     else q'.propertyId == Some(ids.property) && ids.property !in ops.properties &&
          ops'.properties == ops.properties[ids.property := q'.customerId.value])
  }

  /** The work order, and the agreement of a recurring service, are one new row each. */
  predicate AddsTheWork(q: Quote, ops: Operations, q': Quote, ops': Operations, ids: NewIds, expected: nat)
    requires expected in q.revisions
  {
    q'.customerId.Some? && q'.propertyId.Some? && q'.workOrderId == Some(ids.workOrder) &&
    ids.workOrder !in ops.workOrders &&
    ops'.workOrders == ops.workOrders[ids.workOrder :=
      WorkOrder(q'.customerId.value, q'.propertyId.value, q'.recurringAgreementId)] &&
    if q.revisions[expected].submission.oneTime
    then q'.recurringAgreementId.None? && ops'.agreements == ops.agreements
    else q'.recurringAgreementId == Some(ids.agreement) && ids.agreement !in ops.agreements &&
         ops'.agreements == ops.agreements[ids.agreement := q'.propertyId.value]
  }

  lemma ConversionsFollowTheChoice(q: Quote, ops: Operations, expected: nat, actor: Id, facts: AcceptFacts, ids: NewIds)
    requires expected in q.revisions && Convert(q, ops, expected, actor, facts, ids).Ok?
    ensures var (q', ops') := Convert(q, ops, expected, actor, facts, ids).value;
            FollowsTheChoice(q, ops, q', ops', ids) && AddsTheWork(q, ops, q', ops', ids, expected) &&
            q' == q.(status := Accepted, acceptedRevision := Some(expected), acceptedBy := Some(actor),
                     customerId := q'.customerId, propertyId := q'.propertyId, workOrderId := q'.workOrderId,
                     recurringAgreementId := q'.recurringAgreementId)
  {
  }

  /** The customer a conversion would use, if it gets that far. */
  function CustomerInUse(q: Quote, ids: NewIds): Option<Id> {
    if q.customerResolution == Some(UseExisting) then q.customerId else Some(ids.customer)
  }

  /** What each choice needs: the row named is there, and the property is the customer's; a new row has a free id. */
  predicate ChoicesCanBeUsed(q: Quote, ops: Operations, facts: AcceptFacts, ids: NewIds) {
    (if q.customerResolution == Some(UseExisting) then q.customerId.Some? && q.customerId.value in ops.customers
     else ids.customer !in ops.customers) &&
    (if q.propertyResolution == Some(UseExisting)
     then q.propertyId.Some? && q.propertyId.value in ops.properties &&
          Some(ops.properties[q.propertyId.value]) == CustomerInUse(q, ids)
     else facts.propertyTypeKnown && ids.property !in ops.properties)
  }

  /** Which undecided Quotes convert. */
  lemma ConvertedExactlyWhen(q: Quote, ops: Operations, expected: nat, actor: Id, facts: AcceptFacts, ids: NewIds)
    requires expected in q.revisions
    ensures Convert(q, ops, expected, actor, facts, ids).Ok? <==>
              ChoicesCanBeUsed(q, ops, facts, ids) && facts.servicesAvailable && facts.referencesLeft &&
              ids.workOrder !in ops.workOrders &&
              (!q.revisions[expected].submission.oneTime ==> ids.agreement !in ops.agreements) && IsUndecided(q, expected)
  {
    hide IsUndecided;
  }

  /** Which first acceptances succeed: every condition a caller could look up before asking, and no other. */
  lemma AcceptedExactlyWhen(q: Quote, ops: Operations, expected: nat, actor: Id, facts: AcceptFacts, ids: NewIds)
    requires q.status != Accepted
    ensures Accept(q, ops, expected, actor, facts, ids).Ok? <==>
              expected >= 1 && actor != "" && q.currentRevisionNumber == expected && expected in q.revisions &&
              q.status == Submitted && facts.now <= q.validUntil && facts.photosStored && facts.projectable &&
              facts.actorKnown && q.customerResolution.Some? && q.propertyResolution.Some? &&
              q.resolutionRevisionNumber == Some(expected) && ChoicesCanBeUsed(q, ops, facts, ids) &&
              facts.servicesAvailable && facts.referencesLeft && ids.workOrder !in ops.workOrders &&
              (!q.revisions[expected].submission.oneTime ==> ids.agreement !in ops.agreements) &&
              q.workOrderId.None? && q.recurringAgreementId.None? && q.acceptedRevision.None?
  {
    if expected in q.revisions {
      ConvertedExactlyWhen(q, ops, expected, actor, facts, ids);
    }
    hide Convert, ChoicesCanBeUsed;
  }

  /** So for a recorded choice: the rows named are the rows used, through the acceptance. */
  lemma TheChosenRowsAreUsed(q: Quote, ops: Operations, customer: Choice, property: Choice, actor: string,
                             later: Operations, expected: nat, acceptor: Id, facts: AcceptFacts, ids: NewIds)
    requires RecordResolution(q, ops, expected, customer, property, actor).Ok? && q.status != Accepted
    requires var resolved := RecordResolution(q, ops, expected, customer, property, actor).value;
             Accept(resolved, later, expected, acceptor, facts, ids).Ok?
    ensures var resolved := RecordResolution(q, ops, expected, customer, property, actor).value;
            var (q', ops') := Accept(resolved, later, expected, acceptor, facts, ids).value;
            (customer.decision == UseExisting ==> q'.customerId == customer.id && ops'.customers == later.customers) &&
            (customer.decision == CreateNew ==>
               q'.customerId == Some(ids.customer) && ops'.customers == later.customers + {ids.customer}) &&
            (property.decision == UseExisting ==> q'.propertyId == property.id && ops'.properties == later.properties) &&
            (property.decision == CreateNew ==>
               q'.propertyId == Some(ids.property) && ops'.properties.Keys == later.properties.Keys + {ids.property})
  {
    ResolutionsRecordTheChoice(q, ops, expected, customer, property, actor);
    var resolved := RecordResolution(q, ops, expected, customer, property, actor).value;
    assert resolved.status == q.status;
    hide RecordResolution, Convert;
    assert expected in resolved.revisions;
    ConversionsFollowTheChoice(resolved, later, expected, acceptor, facts, ids);
  }

  // ---- decline -------------------------------------------------------------------------------

  /** A first decline writes its actor and one record of the reason and revision, and nothing else. */
  lemma DeclinesAreRecorded(q: Quote, declines: seq<DeclineRecord>, expected: nat, reason: Option<string>, actor: Id)
    requires q.status != Declined
    ensures Decline(q, declines, expected, reason, actor).Ok? <==>
              expected == q.currentRevisionNumber && expected >= 1 && actor != "" &&
              (reason.Some? ==> |reason.value| <= 500) && (q.status == Submitted || q.status == NeedsAttention) &&
              q.acceptedBy.None? && q.acceptedRevision.None? && q.workOrderId.None? && q.recurringAgreementId.None? &&
              q.declinedBy.None?
    ensures Decline(q, declines, expected, reason, actor).Ok? ==>
              Decline(q, declines, expected, reason, actor).value
                == (q.(status := Declined, declinedBy := Some(actor)), declines + [DeclineRecord(reason, expected)])
  {
  }
}
