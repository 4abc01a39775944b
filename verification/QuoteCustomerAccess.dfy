/**
 Customer links to a Quote and the response given through them.
 (apps/api/src/quotes/quote-customer-access.service.ts, quote-customer-response.service.ts)

 A token stands for its own fingerprint: the digest is injective.
 */
module QuoteCustomerAccess {
  import opened Prelude
  import opened QuoteLifecycle
  import QuotePricing

  datatype Grant = Grant(
    token: string, revisionNumber: nat, expiresAt: int, createdAt: int, revokedAt: Option<int>, supersededAt: Option<int>)

  datatype CustomerDecision = CustomerAccepted | CustomerDeclined

  /** Evidence of one response, on the grant at this index. */
  datatype Response = Response(grant: nat, revisionNumber: nat, decision: CustomerDecision, key: string, occurredAt: int)

  datatype AccessError =
    | LifetimeNotConfigured | NotOfferable(status: Status) | QuoteChanged | OfferLapsed | TokenTaken
    | Unavailable | DifferentDecision | KeyInUse | NotDeclinableNow | NotAcceptableNow

  predicate IsLive(g: Grant) {
    g.revokedAt.None? && g.supersededAt.None?
  }

  /** The first grant that is neither revoked nor superseded; its index, or the length. */
  function FirstLive(grants: seq<Grant>): (k: nat)
    ensures k <= |grants| && (k < |grants| ==> IsLive(grants[k]))
    ensures forall i | 0 <= i < k :: !IsLive(grants[i])
    decreases |grants|
  {
    if grants == [] || IsLive(grants[0]) then 0
    else
      var k := FirstLive(grants[1..]);
      assert forall i | 1 <= i < k + 1 :: grants[i] == grants[1..][i - 1];
      k + 1
  }

  function FindToken(grants: seq<Grant>, token: string): (k: nat)
    ensures k <= |grants| && (k < |grants| ==> grants[k].token == token)
    ensures forall i | 0 <= i < k :: grants[i].token != token
    decreases |grants|
  {
    if grants == [] || grants[0].token == token then 0
    else
      var k := FindToken(grants[1..], token);
      assert forall i | 1 <= i < k + 1 :: grants[i] == grants[1..][i - 1];
      k + 1
  }

  // ---- issue and revoke ----------------------------------------------------------------------

  /** `issue`: supersede the live grant, if any, and append a new one for the current revision. */
  function Issue(q: Quote, grants: seq<Grant>, lifetime: Option<nat>, expected: nat, token: string, now: int)
    : Result<seq<Grant>, AccessError>
  {
    if lifetime.None? || lifetime.value == 0 then Err(LifetimeNotConfigured)
    else if q.status != Submitted then Err(NotOfferable(q.status))
    else if q.currentRevisionNumber != expected || expected !in q.revisions then Err(QuoteChanged)
    else if q.validUntil <= now then Err(OfferLapsed)
    else if FindToken(grants, token) < |grants| then Err(TokenTaken)
    else
      var k := FirstLive(grants);
      var closed := if k < |grants| then grants[k := grants[k].(supersededAt := Some(now))] else grants;
      Ok(closed + [Grant(token, expected, Min(q.validUntil, now + lifetime.value), now, None, None)])
  }

  /** `revoke` closes every live grant of the expected revision. */
  function Revoke(q: Quote, grants: seq<Grant>, expected: nat, now: int): Result<seq<Grant>, AccessError> {
    if q.currentRevisionNumber != expected then Err(QuoteChanged)
    else
      Ok(seq(|grants|, i requires 0 <= i < |grants| =>
           if grants[i].revisionNumber == expected && IsLive(grants[i])
           then grants[i].(revokedAt := Some(now)) else grants[i]))
  }

  // ---- resolve -------------------------------------------------------------------------------

  datatype ResponseState = NoResponse | AcceptedConverted | AcceptedPending | ResponseDeclined

  /** The part of the public projection that matters to the response: what revision, at what price, can it be acted on. */
  datatype Projection = Projection(
    revisionNumber: nat, status: Status, price: QuotePricing.Price, accessExpiresAt: int,
    responseState: ResponseState, actionable: bool)

  function FindResponse(responses: seq<Response>, grant: nat): (r: Option<Response>)
    ensures r.Some? ==> r.value in responses && r.value.grant == grant
    ensures r.None? ==> forall x | x in responses :: x.grant != grant
  {
    if responses == [] then None
    else if responses[0].grant == grant then Some(responses[0])
    else FindResponse(responses[1..], grant)
  }

  /** `customerResponseState`; contradictory evidence makes the link unavailable. */
  function StateOf(response: Option<Response>, status: Status): Option<ResponseState> {
    if response.None? then Some(NoResponse)
    else if response.value.decision == CustomerDeclined then
      (if status == Accepted then None else Some(ResponseDeclined))
    else if status == Declined then None
    else if status == Accepted then Some(AcceptedConverted) else Some(AcceptedPending)
  }

  predicate IsReadable(status: Status) {
    status == Submitted || status == Accepted || status == Declined
  }

  /** `resolve`: everything that is not a live, current, unexpired link is just unavailable. */
  function Resolve(q: Quote, grants: seq<Grant>, responses: seq<Response>, token: string, now: int): Option<Projection> {
    var k := FindToken(grants, token);
    if k == |grants| || !IsLive(grants[k]) || grants[k].expiresAt <= now then None
    else
      var g := grants[k];
      if g.revisionNumber !in q.revisions || q.currentRevisionNumber != g.revisionNumber || q.validUntil <= now ||
         !IsReadable(q.status)
      then None
      else
        match StateOf(FindResponse(responses, k), q.status)
        case None => None
        case Some(state) =>
          Some(Projection(g.revisionNumber, q.status, q.revisions[g.revisionNumber].price, g.expiresAt, state,
                          q.status == Submitted && state == NoResponse))
  }

  // ---- evidence ------------------------------------------------------------------------------

  function FindKey(responses: seq<Response>, key: string): (r: Option<Response>)
    ensures r.Some? ==> r.value in responses && r.value.key == key
    ensures r.None? ==> forall x | x in responses :: x.key != key
  {
    if responses == [] then None
    else if responses[0].key == key then Some(responses[0])
    else FindKey(responses[1..], key)
  }

  /** The evidence transaction of `respond`, on a grant row read before. */
  function RecordEvidence(q: Quote, grants: seq<Grant>, responses: seq<Response>, grant: nat, decision: CustomerDecision,
                          key: string, now: int): Result<seq<Response>, AccessError>
  {
    if grant >= |grants| then Err(Unavailable)
    else
      var g := grants[grant];
      if !IsLive(g) || g.expiresAt <= now || q.validUntil <= now || q.currentRevisionNumber != g.revisionNumber
      then Err(Unavailable)
      else
        var prior := FindResponse(responses, grant);
        if prior.Some? then
          (if prior.value.decision != decision then Err(DifferentDecision) else Ok(responses))
        else
          var used := FindKey(responses, key);
          if used.Some? then Err(KeyInUse)
          else if decision == CustomerDeclined && q.status != Submitted && q.status != NeedsAttention then Err(NotDeclinableNow)
          else if decision == CustomerAccepted && q.status != Submitted then Err(NotAcceptableNow)
          else Ok(responses + [Response(grant, g.revisionNumber, decision, key, now)])
  }

  // ---- preflight -----------------------------------------------------------------------------

  datatype Blocker =
    | StaleBlocker | AttentionBlocker | DeclinedBlocker | AlreadyAccepted | ExpiredBlocker | CustomerUnresolved
    | PropertyUnresolved | EvidenceUnresolved | MappingBlocked

  predicate CustomerReady(q: Quote, ops: Operations) {
    q.customerResolution == Some(CreateNew) || (q.customerId.Some? && q.customerId.value in ops.customers)
  }

  predicate PropertyReady(q: Quote, ops: Operations) {
    q.propertyResolution == Some(CreateNew) ||
    (q.customerResolution != Some(CreateNew) && q.propertyId.Some? && q.propertyId.value in ops.properties &&
     q.customerId == Some(ops.properties[q.propertyId.value]))
  }

  function BlockedIf(condition: bool, blocker: Blocker): seq<Blocker> {
    if condition then [blocker] else []
  }

  /** `preflight`: what keeps a Quote from being accepted right now. */
  function Preflight(q: Quote, ops: Operations, expected: nat, facts: AcceptFacts): seq<Blocker> {
    BlockedIf(q.currentRevisionNumber != expected, StaleBlocker)
    + BlockedIf(q.status == NeedsAttention, AttentionBlocker)
    + BlockedIf(q.status == Declined, DeclinedBlocker)
    + BlockedIf(q.status == Accepted, AlreadyAccepted)
    + BlockedIf(q.status == Expired || q.validUntil < facts.now, ExpiredBlocker)
    + BlockedIf(q.customerResolution.None? || q.resolutionRevisionNumber != Some(expected) || !CustomerReady(q, ops),
                CustomerUnresolved)
    + BlockedIf(q.propertyResolution.None? || q.resolutionRevisionNumber != Some(expected) || !PropertyReady(q, ops),
                PropertyUnresolved)
    + BlockedIf(!facts.photosStored, EvidenceUnresolved)
    + BlockedIf(!facts.projectable, MappingBlocked)
  }

  /** The refusals that `respond` treats as a conflict to recover from. */
  predicate IsConflict(refusal: Refusal) {
    !refusal.BadRevisionNumber? && !refusal.ActorRequired? && !refusal.ActorUnknown? && !refusal.IdentityTaken?
  }

  const SYSTEM_ACTOR: Id := "00000000-0000-4000-8000-000000000101"

  // ---- the link table as the service updates it ----------------------------------------------

  class GrantTable {
    var grants: seq<Grant>

    constructor ()
      ensures grants == []
    {
      grants := [];
    }

    method IssueLink(q: Quote, lifetime: Option<nat>, expected: nat, token: string, now: int)
      returns (r: Result<int, AccessError>)
      modifies this
      ensures match Issue(q, old(grants), lifetime, expected, token, now)
              case Ok(issued) => grants == issued && r == Ok(issued[|issued| - 1].expiresAt)
              case Err(e) => grants == old(grants) && r == Err(e)
    {
      if lifetime.None? || lifetime.value == 0 {
        return Err(LifetimeNotConfigured);
      }
      if q.status != Submitted {
        return Err(NotOfferable(q.status));
      }
      if q.currentRevisionNumber != expected || expected !in q.revisions {
        return Err(QuoteChanged);
      }
      if q.validUntil <= now {
        return Err(OfferLapsed);
      }
      var expiresAt := Min(q.validUntil, now + lifetime.value);
      if FindToken(grants, token) < |grants| {
        return Err(TokenTaken);
      }
      var current := FirstLive(grants);
      if current < |grants| {
        grants := grants[current := grants[current].(supersededAt := Some(now))];
      }
      grants := grants + [Grant(token, expected, expiresAt, now, None, None)];
      return Ok(expiresAt);
    }

    method RevokeLinks(q: Quote, expected: nat, now: int) returns (r: Result<bool, AccessError>)
      modifies this
      ensures match Revoke(q, old(grants), expected, now)
              case Ok(revoked) => grants == revoked && r == Ok(revoked != old(grants))
              case Err(e) => grants == old(grants) && r == Err(e)
    {
      if q.currentRevisionNumber != expected {
        return Err(QuoteChanged);
      }
      var changed := 0;
      for i := 0 to |grants|
        invariant |grants| == |old(grants)|
        invariant forall j | i <= j < |grants| :: grants[j] == old(grants)[j]
        invariant forall j | 0 <= j < i :: grants[j] == Revoke(q, old(grants), expected, now).value[j]
        invariant changed > 0 <==> exists j :: 0 <= j < i && grants[j] != old(grants)[j]
      {
        if grants[i].revisionNumber == expected && IsLive(grants[i]) {
          grants := grants[i := grants[i].(revokedAt := Some(now))];
          changed := changed + 1;
        }
      }
      assert grants == Revoke(q, old(grants), expected, now).value;
      return Ok(changed > 0);
    }
  }

  class ResponseTable {
    var responses: seq<Response>

    constructor ()
      ensures responses == []
    {
      responses := [];
    }

    /** The evidence transaction: prior response first, then the key, then the Quote's status. */
    method Record(q: Quote, grants: seq<Grant>, grant: nat, decision: CustomerDecision, key: string, now: int)
      returns (r: Result<bool, AccessError>)
      modifies this
      ensures match RecordEvidence(q, grants, old(responses), grant, decision, key, now)
              case Ok(recorded) => responses == recorded && r == Ok(recorded == old(responses))
              case Err(e) => responses == old(responses) && r == Err(e)
    {
      if grant >= |grants| {
        return Err(Unavailable);
      }
      var g := grants[grant];
      if !IsLive(g) || g.expiresAt <= now || q.validUntil <= now || q.currentRevisionNumber != g.revisionNumber {
        return Err(Unavailable);
      }
      var prior := FindResponse(responses, grant);
      if prior.Some? {
        if prior.value.decision != decision {
          return Err(DifferentDecision);
        }
        return Ok(true);
      }
      if FindKey(responses, key).Some? {
        return Err(KeyInUse);
      }
      if decision == CustomerDeclined && q.status != Submitted && q.status != NeedsAttention {
        return Err(NotDeclinableNow);
      }
      if decision == CustomerAccepted && q.status != Submitted {
        return Err(NotAcceptableNow);
      }
      responses := responses + [Response(grant, g.revisionNumber, decision, key, now)];
      return Ok(false);
    }
  }
}
