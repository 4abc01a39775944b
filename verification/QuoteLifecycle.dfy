/**
 One Quote from creation to its decision: pricing review, match resolution,
 acceptance and decline, each one serializable transaction.
 (apps/api/src/quotes/quote-submission.service.ts, quote-pricing-review.service.ts,
 quote-review.service.ts)
 */
module QuoteLifecycle {
  import opened Prelude
  import opened QuoteFacts
  import opened QuotePricing
  import Costing = QuoteCosts
  import QuoteProfitability

  type Id = string

  datatype Status = Submitted | NeedsAttention | Accepted | Declined | Expired

  datatype Decision = UseExisting | CreateNew

  /** A revision and the cost facts its price was computed from. */
  datatype Revision = Revision(submission: Submission, costFacts: Costing.CostFacts, price: Price)

  datatype Quote = Quote(
    status: Status, currentRevisionNumber: nat, validUntil: int, revisions: map<nat, Revision>,
    customerResolution: Option<Decision>, propertyResolution: Option<Decision>, resolutionRevisionNumber: Option<nat>,
    customerId: Option<Id>, propertyId: Option<Id>,
    acceptedRevision: Option<nat>, acceptedBy: Option<Id>, workOrderId: Option<Id>, recurringAgreementId: Option<Id>,
    declinedBy: Option<Id>)

  datatype WorkOrder = WorkOrder(customerId: Id, propertyId: Id, recurringAgreementId: Option<Id>)

  /** The tables an acceptance reads and extends; a property row names its customer. */
  datatype Operations = Operations(
    customers: set<Id>, properties: map<Id, Id>, agreements: map<Id, Id>, workOrders: map<Id, WorkOrder>)

  /** The decision entries of the activity log that a repeated decline is compared with. */
  datatype DeclineRecord = DeclineRecord(note: Option<string>, expectedRevisionNumber: nat)

  datatype Refusal =
    | BadRevisionNumber | ActorRequired | StaleRevision | IncompatibleAcceptance | NotAcceptable(status: Status)
    | OfferExpired | PhotosNotStored | ResolutionRequired | RevisionMissing | NotProjectable | ActorUnknown
    | CustomerGone | PropertyGone | PropertyOfAnother | NoPropertyType | ServicesUnavailable | ReferencesExhausted
    | IdentityTaken | DecisionChanged
    | InvalidResolution | DifferentResolution | UnknownCustomer | UnknownProperty | PropertyNotOfCustomer
    | NewCustomerWithProperty
    | AlreadyDeclined | NotDeclinable(status: Status) | HasOperationalState | ReasonTooLong
    | NotRevisable(status: Status) | BadAddOnIndex | Unpriceable

  // ---- prices --------------------------------------------------------------------------------

  /** The costs the provider gives for a submission, if it can. */
  function CostsFor(s: Submission, facts: Costing.CostFacts): Option<QuoteProfitability.Costs>
    requires Costing.ProviderFailure(s, facts).None?
  {
    if Costing.FactsKnown(s, facts) then Some(Costing.ApprovedCosts(s, facts)) else None
  }

  /** Pricing as a creation (`admin` false) or a review runs it; None when the provider or the floor throws. */
  function PriceFor(s: Submission, facts: Costing.CostFacts, admin: bool): Option<Price> {
    if Costing.ProviderFailure(s, facts).Some? then None
    else
      var r := if admin then AdminPrice(s, CostsFor(s, facts)) else WebsitePrice(s, CostsFor(s, facts));
      if r.Ok? then Some(r.value) else None
  }

  /** Offered to the customer only with known costs, no open reason and no failed photo. */
  function StatusFor(s: Submission, facts: Costing.CostFacts, price: Price, failedPhotos: nat): Status {
    if Costing.FactsKnown(s, facts) && price.reasons == [] && failedPhotos == 0 then Submitted else NeedsAttention
  }

  // ---- creation ------------------------------------------------------------------------------

  /** `submit`: a new Quote with its first revision; none when pricing throws. */
  function Created(s: Submission, facts: Costing.CostFacts, failedPhotos: nat, validUntil: int): Option<Quote> {
    match PriceFor(s, facts, false)
    case None => None
    case Some(price) =>
      Some(Quote(StatusFor(s, facts, price, failedPhotos), 1, validUntil, map[1 := Revision(s, facts, price)],
                 None, None, None, None, None, None, None, None, None, None))
  }

  // ---- pricing review ------------------------------------------------------------------------

  datatype Detail = Detail(index: int, detail: ReviewDetail)

  /** A review computed outside the transaction, waiting to be written. */
  datatype Draft = Draft(expected: nat, submission: Submission, costFacts: Costing.CostFacts, price: Price)

  /** `validatedDetails`: the details by add-on index, a later entry for the same add-on wins; None for a bad index. */
  function SuppliedDetails(details: seq<Detail>, count: nat): Option<map<nat, ReviewDetail>> {
    if details == [] then Some(map[])
    else
      var last := details[|details| - 1];
      match SuppliedDetails(details[..|details| - 1], count)
      case None => None
      case Some(before) =>
        if 0 <= last.index < count then Some(before[last.index as nat := last.detail]) else None
  }

  predicate InRange(details: seq<Detail>, count: nat) {
    forall i | 0 <= i < |details| :: 0 <= details[i].index < count
  }

  /** No later entry is for the same add-on. */
  predicate IsLast(details: seq<Detail>, i: nat)
    requires i < |details|
  {
    forall j | i < j < |details| :: details[j].index != details[i].index
  }

  /** The map holds, for every add-on that has entries, the detail of its last entry, and nothing else. */
  predicate FilesTheLast(details: seq<Detail>, filed: map<nat, ReviewDetail>) {
    (forall k | k in filed :: exists i :: 0 <= i < |details| && details[i].index == k) &&
    (forall i | 0 <= i < |details| && IsLast(details, i) ::
       details[i].index >= 0 && Get(filed, details[i].index) == Some(details[i].detail))
  }

  /** Validation accepts exactly the details whose every index names an add-on, and files the last one given for each. */
  lemma {:induction false} SuppliedDetailsFileTheLast(details: seq<Detail>, count: nat)
    ensures SuppliedDetails(details, count).Some? <==> InRange(details, count)
    ensures SuppliedDetails(details, count).Some? ==> FilesTheLast(details, SuppliedDetails(details, count).value)
    decreases |details|
  {
    if details != [] {
      var front, last := details[..|details| - 1], details[|details| - 1];
      SuppliedDetailsFileTheLast(front, count);
      assert details == front + [last];
      if InRange(details, count) {
        assert InRange(front, count);
        var filed, before := SuppliedDetails(details, count).value, SuppliedDetails(front, count).value;
        forall k | k in filed
          ensures exists i :: 0 <= i < |details| && details[i].index == k
        {
          if k in before {
            var i :| 0 <= i < |front| && front[i].index == k;
            assert details[i].index == k;
          } else {
            assert details[|details| - 1].index == k;
          }
        }
        forall i | 0 <= i < |details| && IsLast(details, i)
          ensures details[i].index >= 0 && Get(filed, details[i].index) == Some(details[i].detail)
        {
          if i < |front| { assert IsLast(front, i) && details[|front|].index != details[i].index; }
        }
      }
    }
  }

  /** Every entry is followed, or is itself, the last one for its add-on. */
  lemma {:induction false} LastEntryExists(details: seq<Detail>, i: nat) returns (last: nat)
    requires i < |details|
    ensures i <= last < |details| && details[last].index == details[i].index && IsLast(details, last)
    decreases |details| - i
  {
    if IsLast(details, i) {
      last := i;
    } else {
      var j :| i < j < |details| && details[j].index == details[i].index;
      last := LastEntryExists(details, j);
    }
  }

  /** So the filed details are determined: no other map holds the last entries and nothing else. */
  lemma FiledDetailsAreUnique(details: seq<Detail>, filed: map<nat, ReviewDetail>, filed': map<nat, ReviewDetail>)
    requires FilesTheLast(details, filed) && FilesTheLast(details, filed')
    ensures filed == filed'
  {
    forall k | k in filed || k in filed'
      ensures k in filed && k in filed' && filed[k] == filed'[k]
    {
      var i :| 0 <= i < |details| && details[i].index == k;
      var last := LastEntryExists(details, i);
      assert Get(filed, details[last].index) == Get(filed', details[last].index) == Some(details[last].detail);
    }
  }

  predicate IsRevisable(status: Status) {
    status == NeedsAttention || status == Submitted
  }

  /** The first half of `review`: read, validate, cost and price. */
  function PrepareReview(q: Quote, expected: nat, details: seq<Detail>, actor: string, facts: Costing.CostFacts)
    : Result<Draft, Refusal>
  {
    if actor == "" then Err(ActorRequired)
    else if !IsRevisable(q.status) then Err(NotRevisable(q.status))
    else if q.currentRevisionNumber != expected then Err(StaleRevision)
    else if expected !in q.revisions then Err(RevisionMissing)
    else
      var current := q.revisions[expected].submission;
      if expected < 1 then Err(BadRevisionNumber)
      else
        match SuppliedDetails(details, |current.addOns|)
        case None => Err(BadAddOnIndex)
        case Some(supplied) =>
          var revised := current.(adminReview := current.adminReview + supplied);
          match PriceFor(revised, facts, true)
          case None => Err(Unpriceable)
          case Some(price) => Ok(Draft(expected, revised, facts, price))
  }

  /** The second half: recheck and append the revision, carrying a current resolution forward. */
  function CommitReview(q: Quote, draft: Draft): Result<Quote, Refusal> {
    if q.currentRevisionNumber != draft.expected then Err(StaleRevision)
    else if !IsRevisable(q.status) then Err(NotRevisable(q.status))
    else if draft.expected + 1 in q.revisions then Err(IdentityTaken)
    else
      Ok(q.(revisions := q.revisions[draft.expected + 1 := Revision(draft.submission, draft.costFacts, draft.price)],
            currentRevisionNumber := draft.expected + 1,
            status := StatusFor(draft.submission, draft.costFacts, draft.price, 0),
            resolutionRevisionNumber := if q.resolutionRevisionNumber == Some(draft.expected)
                                        then Some(draft.expected + 1) else q.resolutionRevisionNumber))
  }

  // ---- match resolution ----------------------------------------------------------------------

  datatype Choice = Choice(decision: Decision, id: Option<Id>)

  predicate IsConsistent(choice: Choice) {
    choice.decision == UseExisting <==> choice.id.Some? && choice.id.value != ""
  }

  function ChosenId(choice: Choice): Option<Id> {
    if choice.decision == UseExisting then choice.id else None
  }

  /** `recordResolution` */
  function RecordResolution(q: Quote, ops: Operations, expected: nat, customer: Choice, property: Choice, actor: string)
    : Result<Quote, Refusal>
  {
    var customerId, propertyId := ChosenId(customer), ChosenId(property);
    if expected < 1 then Err(BadRevisionNumber)
    else if actor == "" then Err(ActorRequired)
    else if !IsConsistent(customer) || !IsConsistent(property) then Err(InvalidResolution)
    else if q.currentRevisionNumber != expected then Err(StaleRevision)
    else if q.resolutionRevisionNumber.Some? then
      if q.resolutionRevisionNumber == Some(expected) && q.customerResolution == Some(customer.decision) &&
         q.propertyResolution == Some(property.decision) && q.customerId == customerId && q.propertyId == propertyId
      then Ok(q) else Err(DifferentResolution)
    else if customerId.Some? && customerId.value !in ops.customers then Err(UnknownCustomer)
    else if propertyId.Some? && propertyId.value !in ops.properties then Err(UnknownProperty)
    else if propertyId.Some? && customerId != Some(ops.properties[propertyId.value]) then Err(PropertyNotOfCustomer)
    else if customer.decision == CreateNew && property.decision == UseExisting then Err(NewCustomerWithProperty)
    else
      Ok(q.(customerResolution := Some(customer.decision), propertyResolution := Some(property.decision),
            customerId := customerId, propertyId := propertyId, resolutionRevisionNumber := Some(expected)))
  }

  // ---- acceptance ----------------------------------------------------------------------------

  /** What an acceptance finds outside the Quote: the clock, stored photos, mappable facts, the catalogue. */
  datatype AcceptFacts = AcceptFacts(
    now: int, photosStored: bool, projectable: bool, actorKnown: bool, propertyTypeKnown: bool,
    servicesAvailable: bool, referencesLeft: bool)

  /** Identifiers the database would generate. */
  datatype NewIds = NewIds(customer: Id, property: Id, agreement: Id, workOrder: Id)

  /** The replay test on an accepted Quote. */
  predicate IsSameAcceptance(q: Quote, ops: Operations, expected: nat) {
    expected in q.revisions && q.acceptedRevision == Some(expected) && q.customerId.Some? && q.propertyId.Some? &&
    q.workOrderId.Some? &&
    var linked := if q.workOrderId.value in ops.workOrders
                  then ops.workOrders[q.workOrderId.value].recurringAgreementId else None;
    linked == q.recurringAgreementId
  }

  /** The checks before anything is created, in the order of the code. */
  function AcceptRefusal(q: Quote, expected: nat, facts: AcceptFacts): Option<Refusal> {
    if q.status != Submitted then Some(NotAcceptable(q.status))
    else if q.validUntil < facts.now then Some(OfferExpired)
    else if !facts.photosStored then Some(PhotosNotStored)
    else if q.customerResolution.None? || q.propertyResolution.None? || q.resolutionRevisionNumber != Some(expected)
    then Some(ResolutionRequired)
    else if expected !in q.revisions then Some(RevisionMissing)
    else if !facts.projectable then Some(NotProjectable)
    else if !facts.actorKnown then Some(ActorUnknown)
    else None
  }

  /** The customer to use: the resolved one, or a new row. */
  function ResolveCustomer(q: Quote, ops: Operations, newId: Id): Result<(Id, Operations), Refusal> {
    if q.customerResolution == Some(UseExisting) then
      if q.customerId.None? || q.customerId.value !in ops.customers then Err(CustomerGone)
      else Ok((q.customerId.value, ops))
    else if newId in ops.customers then Err(IdentityTaken)
    else Ok((newId, ops.(customers := ops.customers + {newId})))
  }

  function ResolveProperty(q: Quote, ops: Operations, customer: Id, newId: Id, typeKnown: bool)
    : Result<(Id, Operations), Refusal>
  {
    if q.propertyResolution == Some(UseExisting) then
      if q.propertyId.None? || q.propertyId.value !in ops.properties then Err(PropertyGone)
      else if ops.properties[q.propertyId.value] != customer then Err(PropertyOfAnother)
      else Ok((q.propertyId.value, ops))
    else if !typeKnown then Err(NoPropertyType)
    else if newId in ops.properties then Err(IdentityTaken)
    else Ok((newId, ops.(properties := ops.properties[newId := customer])))
  }

  /** A recurring submission gets a service agreement on its property. */
  function CreateAgreement(ops: Operations, oneTime: bool, property: Id, newId: Id): Result<(Option<Id>, Operations), Refusal> {
    if oneTime then Ok((None, ops))
    else if newId in ops.agreements then Err(IdentityTaken)
    else Ok((Some(newId), ops.(agreements := ops.agreements[newId := property])))
  }

  function CreateWorkOrder(ops: Operations, order: WorkOrder, newId: Id, referencesLeft: bool): Result<Operations, Refusal> {
    if !referencesLeft then Err(ReferencesExhausted)
    else if newId in ops.workOrders then Err(IdentityTaken)
    else Ok(ops.(workOrders := ops.workOrders[newId := order]))
  }

  /** The guarded update that ends the acceptance. */
  predicate IsUndecided(q: Quote, expected: nat) {
    q.status == Submitted && q.currentRevisionNumber == expected && q.workOrderId.None? &&
    q.recurringAgreementId.None? && q.acceptedRevision.None?
  }

  /** The body of the accept transaction once its checks have passed. */
  function Convert(q: Quote, ops: Operations, expected: nat, actor: Id, facts: AcceptFacts, ids: NewIds)
    : Result<(Quote, Operations), Refusal>
    requires expected in q.revisions
  {
    match ResolveCustomer(q, ops, ids.customer)
    case Err(e) => Err(e)
    case Ok((customer, ops1)) =>
      match ResolveProperty(q, ops1, customer, ids.property, facts.propertyTypeKnown)
      case Err(e) => Err(e)
      case Ok((property, ops2)) =>
        if !facts.servicesAvailable then Err(ServicesUnavailable)
        else
          match CreateAgreement(ops2, q.revisions[expected].submission.oneTime, property, ids.agreement)
          case Err(e) => Err(e)
          case Ok((agreement, ops3)) =>
            match CreateWorkOrder(ops3, WorkOrder(customer, property, agreement), ids.workOrder, facts.referencesLeft)
            case Err(e) => Err(e)
            case Ok(ops4) =>
              if !IsUndecided(q, expected) then Err(DecisionChanged)
              else
                Ok((q.(status := Accepted, acceptedRevision := Some(expected), acceptedBy := Some(actor),
                       customerId := Some(customer), propertyId := Some(property),
                       workOrderId := Some(ids.workOrder), recurringAgreementId := agreement), ops4))
  }

  /** `accept` */
  function Accept(q: Quote, ops: Operations, expected: nat, actor: Id, facts: AcceptFacts, ids: NewIds)
    : Result<(Quote, Operations), Refusal>
  {
    if expected < 1 then Err(BadRevisionNumber)
    else if actor == "" then Err(ActorRequired)
    else if q.currentRevisionNumber != expected then Err(StaleRevision)
    else if q.status == Accepted then
      if IsSameAcceptance(q, ops, expected) then Ok((q, ops)) else Err(IncompatibleAcceptance)
    else
      match AcceptRefusal(q, expected, facts)
      case Some(e) => Err(e)
      case None => Convert(q, ops, expected, actor, facts, ids)
  }

  // ---- decline -------------------------------------------------------------------------------

  /** `decline`; the reason arrives normalised: trimmed, and none when blank. */
  function Decline(q: Quote, declines: seq<DeclineRecord>, expected: nat, reason: Option<string>, actor: Id)
    : Result<(Quote, seq<DeclineRecord>), Refusal>
  {
    if expected < 1 then Err(BadRevisionNumber)
    else if actor == "" then Err(ActorRequired)
    else if reason.Some? && |reason.value| > 500 then Err(ReasonTooLong)
    else if q.currentRevisionNumber != expected then Err(StaleRevision)
    else if q.status == Declined then
      if q.declinedBy == Some(actor) && declines != [] && declines[|declines| - 1] == DeclineRecord(reason, expected)
      then Ok((q, declines)) else Err(AlreadyDeclined)
    else if q.status != Submitted && q.status != NeedsAttention then Err(NotDeclinable(q.status))
    else if q.acceptedBy.Some? || q.acceptedRevision.Some? || q.workOrderId.Some? || q.recurringAgreementId.Some?
    then Err(HasOperationalState)
    else if q.declinedBy.Some? then Err(DecisionChanged)
    else Ok((q.(status := Declined, declinedBy := Some(actor)), declines + [DeclineRecord(reason, expected)]))
  }
}
