/**
 Every run of reviews, resolutions, acceptances and declines on one Quote, with
 other people working on the same tables in between.
 */
module QuoteLifecycleRuns {
  import opened Prelude
  import opened QuoteFacts
  import opened QuotePricing
  import opened QuoteLifecycle
  import QuoteOffers
  import QuoteProfitability
  import Costing = QuoteCosts

  /** The Quote, the tables, and the reviews computed but not yet written. */
  datatype World = World(quote: Quote, operations: Operations, declines: seq<DeclineRecord>, drafts: seq<Draft>)

  datatype Action =
    | Prepare(expected: nat, details: seq<Detail>, actor: string, costFacts: Costing.CostFacts)
    | Commit(draft: nat)
    | Resolve(expected: nat, customer: Choice, property: Choice, actor: string)
    | AcceptBy(expected: nat, actor: Id, found: AcceptFacts, ids: NewIds)
    | DeclineBy(expected: nat, reason: Option<string>, actor: Id)
    | Elsewhere(operations: Operations)

  /** Other transactions add rows and keep the ones there are. */
  predicate Extends(ops: Operations, ops': Operations) {
    ops.customers <= ops'.customers &&
    (forall p | p in ops.properties :: p in ops'.properties && ops'.properties[p] == ops.properties[p]) &&
    (forall a | a in ops.agreements :: a in ops'.agreements && ops'.agreements[a] == ops.agreements[a]) &&
    (forall o | o in ops.workOrders :: o in ops'.workOrders && ops'.workOrders[o] == ops.workOrders[o])
  }

  /** One transaction; a refused one changes nothing. */
  function Step(w: World, a: Action): World {
    match a
    case Prepare(expected, details, actor, facts) =>
      (match PrepareReview(w.quote, expected, details, actor, facts)
       case Err(_) => w
       case Ok(draft) => w.(drafts := w.drafts + [draft]))
    case Commit(k) =>
      if k >= |w.drafts| then w
      else
        (match CommitReview(w.quote, w.drafts[k])
         case Err(_) => w
         case Ok(q) => w.(quote := q))
    case Resolve(expected, customer, property, actor) =>
      (match RecordResolution(w.quote, w.operations, expected, customer, property, actor)
       case Err(_) => w
       case Ok(q) => w.(quote := q))
    case AcceptBy(expected, actor, facts, ids) =>
      (match Accept(w.quote, w.operations, expected, actor, facts, ids)
       case Err(_) => w
       case Ok((q, ops)) => w.(quote := q, operations := ops))
    case DeclineBy(expected, reason, actor) =>
      (match Decline(w.quote, w.declines, expected, reason, actor)
       case Err(_) => w
       case Ok((q, declines)) => w.(quote := q, declines := declines))
    case Elsewhere(ops) => if Extends(w.operations, ops) then w.(operations := ops) else w
  }

  function Run(w: World, actions: seq<Action>): World
    decreases |actions|
  {
    if actions == [] then w else Run(Step(w, actions[0]), actions[1..])
  }

  // ---- the invariant -------------------------------------------------------------------------

  /** Revisions are numbered 1 to the current one. */
  ghost predicate Numbered(q: Quote) {
    q.currentRevisionNumber >= 1 && forall n :: n in q.revisions <==> 1 <= n <= q.currentRevisionNumber
  }

  predicate WellPriced(r: Revision, admin: bool) {
    PriceFor(r.submission, r.costFacts, admin) == Some(r.price)
  }

  /** What the customer said, without what an Admin found out since. */
  function CustomerFacts(s: Submission): Submission {
    s.(adminReview := map[])
  }

  predicate RevisionsSound(q: Quote) {
    1 in q.revisions &&
    forall n | n in q.revisions ::
      WellPriced(q.revisions[n], n > 1) &&
      CustomerFacts(q.revisions[n].submission) == CustomerFacts(q.revisions[1].submission)
  }

  predicate ResolutionIsCurrent(q: Quote) {
    q.resolutionRevisionNumber.Some? ==> q.resolutionRevisionNumber == Some(q.currentRevisionNumber)
  }

  predicate IsFinalPrice(r: Revision) {
    Costing.ProviderFailure(r.submission, r.costFacts).None? && Costing.FactsKnown(r.submission, r.costFacts) &&
    r.price.reasons == []
  }

  /** What is offered, or was accepted, has a final price. */
  predicate OfferIsFinal(q: Quote) {
    (q.status == Submitted || q.status == Accepted) && q.currentRevisionNumber in q.revisions ==>
      IsFinalPrice(q.revisions[q.currentRevisionNumber])
  }

  predicate AcceptedShape(q: Quote, ops: Operations) {
    q.acceptedRevision == Some(q.currentRevisionNumber) && q.currentRevisionNumber in q.revisions &&
    q.resolutionRevisionNumber == Some(q.currentRevisionNumber) && q.acceptedBy.Some? &&
    q.customerId.Some? && q.customerId.value in ops.customers &&
    q.propertyId.Some? && q.propertyId.value in ops.properties &&
    ops.properties[q.propertyId.value] == q.customerId.value &&
    q.workOrderId.Some? && q.workOrderId.value in ops.workOrders &&
    ops.workOrders[q.workOrderId.value]
      == WorkOrder(q.customerId.value, q.propertyId.value, q.recurringAgreementId) &&
    (q.recurringAgreementId.Some? <==> !q.revisions[q.currentRevisionNumber].submission.oneTime) &&
    (q.recurringAgreementId.Some? ==>
       q.recurringAgreementId.value in ops.agreements &&
       ops.agreements[q.recurringAgreementId.value] == q.propertyId.value)
  }

  predicate DecisionShape(q: Quote, ops: Operations) {
    q.status != Expired && (q.status == Declined <==> q.declinedBy.Some?) &&
    if q.status == Accepted then AcceptedShape(q, ops)
    else q.acceptedRevision.None? && q.acceptedBy.None? && q.workOrderId.None? && q.recurringAgreementId.None?
  }

  predicate DraftSound(q: Quote, d: Draft) {
    d.expected in q.revisions && 1 in q.revisions && d.expected >= 1 &&
    WellPriced(Revision(d.submission, d.costFacts, d.price), true) &&
    CustomerFacts(d.submission) == CustomerFacts(q.revisions[1].submission)
  }

  ghost predicate Inv(w: World) {
    Numbered(w.quote) && RevisionsSound(w.quote) && ResolutionIsCurrent(w.quote) && OfferIsFinal(w.quote) &&
    DecisionShape(w.quote, w.operations) && forall k | 0 <= k < |w.drafts| :: DraftSound(w.quote, w.drafts[k])
  }

  // ---- a new Quote ---------------------------------------------------------------------------

  lemma CreatedQuoteIsSound(s: Submission, facts: Costing.CostFacts, failedPhotos: nat, validUntil: int, ops: Operations)
    requires Created(s, facts, failedPhotos, validUntil).Some?
    ensures Inv(World(Created(s, facts, failedPhotos, validUntil).value, ops, [], []))
  {
    hide WebsitePrice, AdminPrice, Costing.FactsKnown, Costing.ProviderFailure, Costing.ApprovedCosts;
  }

  // ---- each transaction keeps it -------------------------------------------------------------

  lemma PrepareKeepsInv(w: World, expected: nat, details: seq<Detail>, actor: string, facts: Costing.CostFacts)
    requires Inv(w)
    ensures Inv(Step(w, Prepare(expected, details, actor, facts)))
  {
    hide PriceFor, OfferIsFinal, DecisionShape, ResolutionIsCurrent, Numbered, SuppliedDetails;
  }

  lemma CommitKeepsInv(w: World, k: nat)
    requires Inv(w)
    ensures Inv(Step(w, Commit(k)))
  {
    hide PriceFor, Costing.FactsKnown, AcceptedShape;
    if k < |w.drafts| && CommitReview(w.quote, w.drafts[k]).Ok? {
      var d, q := w.drafts[k], w.quote;
      var q' := CommitReview(q, d).value;
      assert DraftSound(q, d);
      assert Costing.ProviderFailure(d.submission, d.costFacts).None? by { PricedHasNoFailure(d.submission, d.costFacts); }
      assert RevisionsSound(q');
      forall i | 0 <= i < |w.drafts|
        ensures DraftSound(q', w.drafts[i])
      {
        assert DraftSound(q, w.drafts[i]);
      }
    }
  }

  lemma PricedHasNoFailure(s: Submission, facts: Costing.CostFacts)
    requires PriceFor(s, facts, true).Some?
    ensures Costing.ProviderFailure(s, facts).None?
  {
  }

  /** A step that keeps the revisions and their number keeps what is known about them. */
  lemma SameRevisions(w: World, w': World)
    requires Numbered(w.quote) && RevisionsSound(w.quote)
    requires forall k | 0 <= k < |w.drafts| :: DraftSound(w.quote, w.drafts[k])
    requires w'.quote.revisions == w.quote.revisions && w'.drafts == w.drafts
    requires w'.quote.currentRevisionNumber == w.quote.currentRevisionNumber
    ensures Numbered(w'.quote) && RevisionsSound(w'.quote)
    ensures forall k | 0 <= k < |w'.drafts| :: DraftSound(w'.quote, w'.drafts[k])
  {
    hide WellPriced, CustomerFacts;
    forall k | 0 <= k < |w'.drafts|
      ensures DraftSound(w'.quote, w'.drafts[k])
    {
      assert DraftSound(w.quote, w.drafts[k]);
    }
  }

  /** Recording a resolution touches the resolution only, and never one that is already there. */
  lemma ResolutionEffects(q: Quote, ops: Operations, expected: nat, customer: Choice, property: Choice, actor: string)
    requires RecordResolution(q, ops, expected, customer, property, actor).Ok?
    ensures var q' := RecordResolution(q, ops, expected, customer, property, actor).value;
            q' == q.(customerResolution := q'.customerResolution, propertyResolution := q'.propertyResolution,
                     customerId := q'.customerId, propertyId := q'.propertyId,
                     resolutionRevisionNumber := q'.resolutionRevisionNumber) &&
            q'.resolutionRevisionNumber == Some(q.currentRevisionNumber) &&
            (q.resolutionRevisionNumber.Some? ==> q' == q)
  {
  }

  lemma ResolveKeepsInv(w: World, expected: nat, customer: Choice, property: Choice, actor: string)
    requires Inv(w)
    ensures Inv(Step(w, Resolve(expected, customer, property, actor)))
  {
    var w' := Step(w, Resolve(expected, customer, property, actor));
    if RecordResolution(w.quote, w.operations, expected, customer, property, actor).Ok? {
      ResolutionEffects(w.quote, w.operations, expected, customer, property, actor);
      hide Numbered, RevisionsSound, DraftSound, IsFinalPrice, RecordResolution;
      SameRevisions(w, w');
    }
  }

  /** A conversion creates a matching customer, property, agreement and work order. */
  lemma ConversionIsSound(q: Quote, ops: Operations, expected: nat, actor: Id, facts: AcceptFacts, ids: NewIds)
    requires expected in q.revisions && q.currentRevisionNumber == expected
    requires q.resolutionRevisionNumber == Some(expected) && Convert(q, ops, expected, actor, facts, ids).Ok?
    ensures var (q', ops') := Convert(q, ops, expected, actor, facts, ids).value;
            AcceptedShape(q', ops') && Extends(ops, ops') && q'.status == Accepted &&
            q'.revisions == q.revisions && q'.currentRevisionNumber == q.currentRevisionNumber &&
            q'.resolutionRevisionNumber == q.resolutionRevisionNumber && q'.declinedBy == q.declinedBy &&
            q'.validUntil == q.validUntil && q.status == Submitted
  {
  }

  /** An acceptance converts an undecided Quote, or finds the same acceptance already made. */
  lemma AcceptEffects(q: Quote, ops: Operations, expected: nat, actor: Id, facts: AcceptFacts, ids: NewIds)
    requires Accept(q, ops, expected, actor, facts, ids).Ok?
    ensures var (q', ops') := Accept(q, ops, expected, actor, facts, ids).value;
            q.currentRevisionNumber == expected >= 1 && q'.status == Accepted &&
            q'.revisions == q.revisions && q'.currentRevisionNumber == q.currentRevisionNumber &&
            q'.resolutionRevisionNumber == q.resolutionRevisionNumber && q'.declinedBy == q.declinedBy &&
            q'.validUntil == q.validUntil && Extends(ops, ops') &&
            if q.status == Accepted then q' == q && ops' == ops && IsSameAcceptance(q, ops, expected)
            else q.status == Submitted && AcceptedShape(q', ops') && q.validUntil >= facts.now
  {
    if q.status != Accepted {
      ConversionIsSound(q, ops, expected, actor, facts, ids);
    }
    hide Convert, AcceptedShape, IsSameAcceptance;
  }

  /** An acceptance always names the revision it was asked for. */
  lemma AcceptNamesTheRevision(q: Quote, ops: Operations, expected: nat, actor: Id, facts: AcceptFacts, ids: NewIds)
    requires Accept(q, ops, expected, actor, facts, ids).Ok?
    ensures var q' := Accept(q, ops, expected, actor, facts, ids).value.0;
            q'.status == Accepted && q'.acceptedRevision == Some(expected)
  {
    AcceptEffects(q, ops, expected, actor, facts, ids);
    hide Accept, Extends;
  }

  lemma AcceptedKeepsInv(w: World, w': World)
    requires Inv(w) && w.quote.status == Submitted && w'.quote.status == Accepted
    requires w'.quote.revisions == w.quote.revisions && w'.drafts == w.drafts
    requires w'.quote.currentRevisionNumber == w.quote.currentRevisionNumber
    requires w'.quote.resolutionRevisionNumber == w.quote.resolutionRevisionNumber
    requires w'.quote.declinedBy == w.quote.declinedBy && AcceptedShape(w'.quote, w'.operations)
    ensures Inv(w')
  {
    hide AcceptedShape, IsFinalPrice, Numbered, RevisionsSound, DraftSound;
    SameRevisions(w, w');
  }

  lemma AcceptKeepsInv(w: World, expected: nat, actor: Id, facts: AcceptFacts, ids: NewIds)
    requires Inv(w)
    ensures Inv(Step(w, AcceptBy(expected, actor, facts, ids)))
  {
    var w' := Step(w, AcceptBy(expected, actor, facts, ids));
    if Accept(w.quote, w.operations, expected, actor, facts, ids).Ok? {
      AcceptEffects(w.quote, w.operations, expected, actor, facts, ids);
      hide Accept, AcceptedShape, Extends, IsSameAcceptance, Inv;
      if w.quote.status == Submitted {
        AcceptedKeepsInv(w, w');
      }
    }
  }

  lemma DeclineKeepsInv(w: World, expected: nat, reason: Option<string>, actor: Id)
    requires Inv(w)
    ensures Inv(Step(w, DeclineBy(expected, reason, actor)))
  {
    var w' := Step(w, DeclineBy(expected, reason, actor));
    hide Numbered, RevisionsSound, DraftSound, IsFinalPrice, AcceptedShape;
    SameRevisions(w, w');
  }

  lemma ElsewhereKeepsInv(w: World, ops: Operations)
    requires Inv(w)
    ensures Inv(Step(w, Elsewhere(ops)))
  {
    hide Numbered, RevisionsSound, OfferIsFinal, ResolutionIsCurrent, DraftSound;
  }

  lemma StepKeepsInv(w: World, a: Action)
    requires Inv(w)
    ensures Inv(Step(w, a))
  {
    match a
    case Prepare(expected, details, actor, facts) => PrepareKeepsInv(w, expected, details, actor, facts); hide *;
    case Commit(k) => CommitKeepsInv(w, k); hide *;
    case Resolve(expected, customer, property, actor) => ResolveKeepsInv(w, expected, customer, property, actor); hide *;
    case AcceptBy(expected, actor, facts, ids) => AcceptKeepsInv(w, expected, actor, facts, ids); hide *;
    case DeclineBy(expected, reason, actor) => DeclineKeepsInv(w, expected, reason, actor); hide *;
    case Elsewhere(ops) => ElsewhereKeepsInv(w, ops); hide *;
  }

  lemma {:induction false} RunKeepsInv(w: World, actions: seq<Action>)
    requires Inv(w)
    ensures Inv(Run(w, actions))
    decreases |actions|
  {
    if actions != [] {
      StepKeepsInv(w, actions[0]);
      hide Inv, Step;
      RunKeepsInv(Step(w, actions[0]), actions[1..]);
    }
  }

  // ---- what every run guarantees -------------------------------------------------------------

  /** What a later world keeps of an earlier one. */
  predicate Keeps(w: World, w': World) {
    w'.quote.currentRevisionNumber >= w.quote.currentRevisionNumber &&
    (forall n | n in w.quote.revisions :: n in w'.quote.revisions && w'.quote.revisions[n] == w.quote.revisions[n]) &&
    Extends(w.operations, w'.operations) && w.drafts <= w'.drafts &&
    w'.quote.validUntil == w.quote.validUntil &&
    (w.quote.status == Accepted ==> w'.quote == w.quote) &&
    (w.quote.status == Declined ==>
       w'.quote.status == Declined && w'.quote.declinedBy == w.quote.declinedBy &&
       w'.quote.revisions == w.quote.revisions && w'.quote.currentRevisionNumber == w.quote.currentRevisionNumber)
  }

  lemma AcceptedHasResolution(w: World)
    requires Inv(w)
    ensures w.quote.status == Accepted ==> w.quote.resolutionRevisionNumber.Some?
  {
  }

  lemma CommitKeepsHistory(w: World, k: nat)
    requires Numbered(w.quote)
    ensures Keeps(w, Step(w, Commit(k)))
  {
    hide StatusFor;
  }

  lemma DecisionKeepsHistory(w: World, w': World)
    requires w'.quote.revisions == w.quote.revisions && w'.drafts == w.drafts
    requires w'.quote.currentRevisionNumber == w.quote.currentRevisionNumber
    requires w'.quote.validUntil == w.quote.validUntil && Extends(w.operations, w'.operations)
    requires w.quote.status == Accepted ==> w'.quote == w.quote
    requires w.quote.status == Declined ==>
               w'.quote.status == Declined && w'.quote.declinedBy == w.quote.declinedBy
    ensures Keeps(w, w')
  {
    hide Extends;
  }

  lemma ResolveKeepsHistory(w: World, expected: nat, customer: Choice, property: Choice, actor: string)
    requires Inv(w)
    ensures Keeps(w, Step(w, Resolve(expected, customer, property, actor)))
  {
    AcceptedHasResolution(w);
    ExtendsItself(w.operations);
    if RecordResolution(w.quote, w.operations, expected, customer, property, actor).Ok? {
      ResolutionEffects(w.quote, w.operations, expected, customer, property, actor);
    }
    hide RecordResolution, Inv, Extends;
    DecisionKeepsHistory(w, Step(w, Resolve(expected, customer, property, actor)));
  }

  lemma AcceptKeepsHistory(w: World, expected: nat, actor: Id, facts: AcceptFacts, ids: NewIds)
    ensures Keeps(w, Step(w, AcceptBy(expected, actor, facts, ids)))
  {
    ExtendsItself(w.operations);
    if Accept(w.quote, w.operations, expected, actor, facts, ids).Ok? {
      AcceptEffects(w.quote, w.operations, expected, actor, facts, ids);
    }
    hide Accept, Extends, AcceptedShape, IsSameAcceptance;
    DecisionKeepsHistory(w, Step(w, AcceptBy(expected, actor, facts, ids)));
  }

  lemma DeclineKeepsHistory(w: World, expected: nat, reason: Option<string>, actor: Id)
    ensures Keeps(w, Step(w, DeclineBy(expected, reason, actor)))
  {
    ExtendsItself(w.operations);
    hide Extends;
    DecisionKeepsHistory(w, Step(w, DeclineBy(expected, reason, actor)));
  }

  lemma ElsewhereKeepsHistory(w: World, ops: Operations)
    ensures Keeps(w, Step(w, Elsewhere(ops)))
  {
    ExtendsItself(w.operations);
    hide Extends;
    DecisionKeepsHistory(w, Step(w, Elsewhere(ops)));
  }

  /** Revisions are never rewritten or dropped; an accepted Quote never changes; a declined one stays as it was decided. */
  lemma StepKeepsHistory(w: World, a: Action)
    requires Inv(w)
    ensures Keeps(w, Step(w, a))
  {
    match a
    case Prepare(expected, details, actor, facts) => PrepareKeepsHistory(w, expected, details, actor, facts); hide *;
    case Commit(k) => CommitKeepsHistory(w, k); hide *;
    case Resolve(expected, customer, property, actor) => ResolveKeepsHistory(w, expected, customer, property, actor); hide *;
    case AcceptBy(expected, actor, facts, ids) => AcceptKeepsHistory(w, expected, actor, facts, ids); hide *;
    case DeclineBy(expected, reason, actor) => DeclineKeepsHistory(w, expected, reason, actor); hide *;
    case Elsewhere(ops) => ElsewhereKeepsHistory(w, ops); hide *;
  }

  lemma ExtendsItself(ops: Operations)
    ensures Extends(ops, ops)
  {
  }

  lemma PrepareKeepsHistory(w: World, expected: nat, details: seq<Detail>, actor: string, facts: Costing.CostFacts)
    ensures Keeps(w, Step(w, Prepare(expected, details, actor, facts)))
  {
    hide PrepareReview;
  }

  lemma KeepsIsTransitive(a: World, b: World, c: World)
    requires Keeps(a, b) && Keeps(b, c)
    ensures Keeps(a, c)
  {
  }

  lemma {:induction false} RunKeepsHistory(w: World, actions: seq<Action>)
    requires Inv(w)
    ensures Keeps(w, Run(w, actions))
    decreases |actions|
  {
    if actions != [] {
      var w1 := Step(w, actions[0]);
      StepKeepsInv(w, actions[0]);
      StepKeepsHistory(w, actions[0]);
      hide Inv, Step, Keeps;
      RunKeepsHistory(w1, actions[1..]);
      KeepsIsTransitive(w, w1, Run(w1, actions[1..]));
    }
  }

  /** An offered or accepted Quote was priced from known costs and keeps R100 and a fifth of its total over them. */
  lemma OffersKeepTheMargin(w: World)
    requires Inv(w) && (w.quote.status == Submitted || w.quote.status == Accepted)
    ensures w.quote.currentRevisionNumber in w.quote.revisions
    ensures var r := w.quote.revisions[w.quote.currentRevisionNumber];
            Costing.ProviderFailure(r.submission, r.costFacts).None? &&
            Costing.FactsKnown(r.submission, r.costFacts) &&
            var costs := Costing.ApprovedCosts(r.submission, r.costFacts);
            Costing.KeepsTheMargin(r.price.totalMinor, r.price.subtotalMinor, costs) &&
            forall price :: QuoteProfitability.IsTenRandPrice(price) &&
                            QuoteProfitability.Covers(price, r.price.subtotalMinor, costs)
                            ==> r.price.totalMinor <= price
  {
    var q := w.quote;
    var r := q.revisions[q.currentRevisionNumber];
    assert WellPriced(r, q.currentRevisionNumber > 1);
    assert IsFinalPrice(r);
    FinalPriceKeepsTheMargin(r, q.currentRevisionNumber > 1);
    hide WellPriced, IsFinalPrice, Costing.KeepsTheMargin, Costing.ApprovedCosts;
  }

  /** In every run the items stored for each revision are whole products, in order, and sum to its total. */
  lemma StoredItemsSumToTheTotal(w: World, n: nat)
    requires Inv(w) && n in w.quote.revisions
    ensures var p := w.quote.revisions[n].price;
            ItemTotal(RevisionItems(p)) == p.totalMinor &&
            forall i | 0 <= i < |RevisionItems(p)| ::
              QuoteOffers.IsProduct(RevisionItems(p)[i].line) && RevisionItems(p)[i].sortOrder == i
  {
    var r := w.quote.revisions[n];
    assert WellPriced(r, n > 1);
    hide Numbered, ResolutionIsCurrent, OfferIsFinal, DecisionShape, DraftSound, CustomerFacts, RevisionsSound;
    hide Costing.ProviderFailure, Costing.FactsKnown, Costing.ApprovedCosts;
    var costs := CostsFor(r.submission, r.costFacts);
    assert QuoteOffers.PriceOf(r.submission, costs, n > 1) == Ok(r.price);
    hide CostsFor, PriceFor, QuoteOffers.PriceOf, RevisionItems, ItemTotal, QuoteOffers.IsProduct;
    QuoteOffers.MoneyIsConserved(r.submission, costs, n > 1);
  }

  lemma FinalPriceKeepsTheMargin(r: Revision, admin: bool)
    requires WellPriced(r, admin) && IsFinalPrice(r)
    ensures var costs := Costing.ApprovedCosts(r.submission, r.costFacts);
            Costing.KeepsTheMargin(r.price.totalMinor, r.price.subtotalMinor, costs) &&
            forall price :: QuoteProfitability.IsTenRandPrice(price) &&
                            QuoteProfitability.Covers(price, r.price.subtotalMinor, costs)
                            ==> r.price.totalMinor <= price
  {
    var costs := Costing.ApprovedCosts(r.submission, r.costFacts);
    var sheet := if admin then AdminSheet(r.submission) else WebsiteSheet(r.submission);
    hide AdminSheet, WebsiteSheet, Costing.ApprovedCosts, Costing.FactsKnown, Costing.ProviderFailure;
    hide QuoteProfitability.ApplyFloor, Costing.KeepsTheMargin;
    var subtotal := Subtotal(sheet.lines);
    assert Finish(sheet, Some(costs)) == Ok(r.price);
    hide PriceFor, Subtotal;
    FloorNeedsAnAmount(subtotal, costs);
    Costing.ApprovedCostsCarryTheMargin(r.submission, r.costFacts, subtotal);
    forall price
      ensures QuoteProfitability.IsTenRandPrice(price) && QuoteProfitability.Covers(price, subtotal, costs)
              ==> r.price.totalMinor <= price
    {
      QuoteProfitability.FloorIsLeast(subtotal, costs, price);
    }
  }

  lemma FloorNeedsAnAmount(subtotal: int, costs: QuoteProfitability.Costs)
    requires QuoteProfitability.ApplyFloor(subtotal, costs).Ok?
    ensures subtotal >= 0
  {
  }

  /** Which new Quotes are offered at once, and which wait for an Admin. */
  lemma OfferedAtCreationExactlyWhen(s: Submission, facts: Costing.CostFacts, failedPhotos: nat, validUntil: int)
    requires Created(s, facts, failedPhotos, validUntil).Some?
    ensures Created(s, facts, failedPhotos, validUntil).value.status == Submitted <==>
              QuoteOffers.HasAutomaticPrimary(s) && s.addOns == [] && QuoteOffers.AsksForNoPricedLaundry(s) &&
              facts.coidaRate.Some? && facts.routeKm.Some? && failedPhotos == 0
  {
    hide WebsitePrice, QuoteOffers.AsksForNoPricedLaundry, QuoteOffers.HasAutomaticPrimary, Costing.CleanerHalfHours;
    hide Costing.ApprovedCosts;
    if QuoteOffers.HasAutomaticPrimary(s) {
      QuoteOffers.AutomaticPrimaryHasHours(s);
    }
    if Costing.FactsKnown(s, facts) {
      QuoteOffers.WebsitePriceIsFinalExactlyWhen(s, Costing.ApprovedCosts(s, facts));
    }
  }

  /** Regular Home Cleaning always asks for a room review, which no Admin detail answers: it is never offered. */
  lemma RegularCleaningIsNeverOffered(w: World)
    requires Inv(w) && w.quote.revisions[1].submission.service == Some(RegularHome)
    ensures w.quote.status != Submitted && w.quote.status != Accepted
  {
    var q := w.quote;
    if q.status == Submitted || q.status == Accepted {
      var r := q.revisions[q.currentRevisionNumber];
      assert CustomerFacts(r.submission) == CustomerFacts(q.revisions[1].submission);
      assert WellPriced(r, q.currentRevisionNumber > 1) && IsFinalPrice(r);
      var costs := Costing.ApprovedCosts(r.submission, r.costFacts);
      hide Inv, Costing.ApprovedCosts, Costing.FactsKnown, Costing.ProviderFailure, AdminPrice, WebsitePrice;
      if q.currentRevisionNumber > 1 {
        QuoteOffers.AdminPriceIsFinalExactlyWhen(r.submission, costs);
      } else {
        QuoteOffers.WebsitePriceIsFinalExactlyWhen(r.submission, costs);
      }
      assert false;
    }
  }

  // ---- decisions -----------------------------------------------------------------------------

  /** Accepting again, by anyone, returns the first acceptance and creates nothing. */
  lemma AcceptIsIdempotent(q: Quote, ops: Operations, expected: nat, actor: Id, facts: AcceptFacts, ids: NewIds,
                           later: Operations, actor': Id, facts': AcceptFacts, ids': NewIds)
    requires DecisionShape(q, ops) && Accept(q, ops, expected, actor, facts, ids).Ok? && actor' != ""
    requires Extends(Accept(q, ops, expected, actor, facts, ids).value.1, later)
    ensures var q' := Accept(q, ops, expected, actor, facts, ids).value.0;
            Accept(q', later, expected, actor', facts', ids') == Ok((q', later))
  {
    AcceptEffects(q, ops, expected, actor, facts, ids);
    var (q', ops') := Accept(q, ops, expected, actor, facts, ids).value;
    assert AcceptedShape(q', ops');
    hide DecisionShape, Convert, AcceptRefusal;
    assert later.workOrders[q'.workOrderId.value] == ops'.workOrders[q'.workOrderId.value];
  }

  /** The two decisions exclude each other. */
  lemma DecisionsExcludeEachOther(w: World, expected: nat, actor: Id, facts: AcceptFacts, ids: NewIds, reason: Option<string>)
    requires Inv(w)
    ensures w.quote.status == Accepted ==> Decline(w.quote, w.declines, expected, reason, actor).Err?
    ensures w.quote.status == Declined ==> Accept(w.quote, w.operations, expected, actor, facts, ids).Err?
    ensures !(w.quote.acceptedRevision.Some? && w.quote.declinedBy.Some?)
  {
    hide AcceptedShape, Convert, IsSameAcceptance;
  }

  /** A repeated decline is recognised by actor, reason and revision, and only by those. */
  lemma DeclineIsIdempotent(q: Quote, declines: seq<DeclineRecord>, expected: nat, reason: Option<string>, actor: Id,
                            reason': Option<string>, actor': Id)
    requires q.status != Declined && Decline(q, declines, expected, reason, actor).Ok?
    requires actor' != "" && (reason'.Some? ==> |reason'.value| <= 500)
    ensures var (q', declines') := Decline(q, declines, expected, reason, actor).value;
            Decline(q', declines', expected, reason', actor')
              == if reason' == reason && actor' == actor then Ok((q', declines')) else Err(AlreadyDeclined)
  {
  }

  /** A review that commits was priced from the revision it replaces, however long ago it was computed. */
  lemma CommittedReviewIsFresh(w: World, actions: seq<Action>, k: nat, q: Quote)
    requires Inv(w) && k < |w.drafts| && CommitReview(Run(w, actions).quote, w.drafts[k]) == Ok(q)
    ensures var now := Run(w, actions).quote;
            now.currentRevisionNumber == w.drafts[k].expected == w.quote.currentRevisionNumber &&
            now.revisions == w.quote.revisions &&
            q.currentRevisionNumber == now.currentRevisionNumber + 1 &&
            Get(q.revisions, q.currentRevisionNumber)
              == Some(Revision(w.drafts[k].submission, w.drafts[k].costFacts, w.drafts[k].price)) &&
            (now.resolutionRevisionNumber.Some? ==> q.resolutionRevisionNumber == Some(q.currentRevisionNumber))
  {
    hide Run, RevisionsSound, OfferIsFinal, DecisionShape, PriceFor, Extends, WellPriced, StatusFor;
    RunKeepsHistory(w, actions);
    RunKeepsInv(w, actions);
    assert w.drafts[k].expected in w.quote.revisions by { assert DraftSound(w.quote, w.drafts[k]); }
    SameNumberSameRevisions(w, Run(w, actions));
    hide DraftSound;
  }

  lemma SameNumberSameRevisions(w: World, w': World)
    requires Numbered(w.quote) && Numbered(w'.quote) && Keeps(w, w')
    ensures w'.quote.currentRevisionNumber == w.quote.currentRevisionNumber ==> w'.quote.revisions == w.quote.revisions
  {
    hide Extends;
    if w'.quote.currentRevisionNumber == w.quote.currentRevisionNumber {
      assert w'.quote.revisions.Keys == w.quote.revisions.Keys;
    }
  }
}
