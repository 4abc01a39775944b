/**
 `respond` as a protocol: each database access is one step, and reviews,
 decisions, new links and other responses may come between any two.
 (apps/api/src/quotes/quote-customer-response.service.ts)
 */
module QuoteCustomerResponse {
  import opened Prelude
  import opened QuoteLifecycle
  import opened QuoteCustomerAccess
  import Runs = QuoteLifecycleRuns

  datatype Request = Request(token: string, decision: CustomerDecision, key: string)

  datatype Outcome = Converted | PendingInternalCompletion | CustomerHasDeclined

  /** Where a call of `respond` stands; a crashed call simply takes no further step. */
  datatype Phase =
    | Asked
    | Holding(grant: nat)
    | Evidenced(grant: nat)
    | Declining(grant: nat)
    | Unaccepted(grant: nat)
    | Eligible(grant: nat)
    | Contested(grant: nat)
    | Accepting(grant: nat)
    | Done(grant: nat, outcome: Outcome)
    | Failed

  datatype Call = Call(request: Request, phase: Phase)

  datatype Shop = Shop(
    lifetime: Option<nat>, life: Runs.World, grants: seq<Grant>, responses: seq<Response>, calls: seq<Call>)

  /** What a step finds outside: the clock and what an acceptance needs. */
  datatype Surroundings = Surroundings(facts: AcceptFacts, ids: NewIds)

  datatype Action =
    | Lifecycle(action: Runs.Action)
    | IssueLink(expected: nat, token: string, now: int)
    | RevokeLink(expected: nat, now: int)
    | Ask(request: Request)
    | Advance(call: nat, found: Surroundings)

  function WithLife(s: Shop, q: Quote, ops: Operations): Shop {
    s.(life := s.life.(quote := q, operations := ops))
  }

  /** The acceptance inside `respond`: converted, refused by a conflict, or failed otherwise. */
  function TryAccept(s: Shop, grant: nat, found: Surroundings, onConflict: Phase): (Shop, Phase)
    requires grant < |s.grants|
  {
    match QuoteLifecycle.Accept(s.life.quote, s.life.operations, s.grants[grant].revisionNumber, SYSTEM_ACTOR,
                                found.facts, found.ids)
    case Ok((q, ops)) => (WithLife(s, q, ops), Done(grant, Converted))
    case Err(e) => (s, if IsConflict(e) then onConflict else Failed)
  }

  function TryDecline(s: Shop, grant: nat): (Shop, Phase)
    requires grant < |s.grants|
  {
    match QuoteLifecycle.Decline(s.life.quote, s.life.declines, s.grants[grant].revisionNumber, None, SYSTEM_ACTOR)
    case Ok((q, declines)) =>
      (s.(life := s.life.(quote := q, declines := declines)), Done(grant, CustomerHasDeclined))
    case Err(_) => (s, Failed)
  }

  /** The next step of one call. */
  function Advanced(s: Shop, call: Call, found: Surroundings): (Shop, Phase) {
    var q := s.life.quote;
    var now := found.facts.now;
    match call.phase
    case Asked =>
      if Resolve(q, s.grants, s.responses, call.request.token, now).None? then (s, Failed)
      else (s, Holding(FindToken(s.grants, call.request.token)))
    case Holding(g) =>
      (match RecordEvidence(q, s.grants, s.responses, g, call.request.decision, call.request.key, now)
       case Err(_) => (s, Failed)
       case Ok(responses) => (s.(responses := responses), Evidenced(g)))
    case Evidenced(g) =>
      if call.request.decision == CustomerDeclined then
        (s, if q.status == Declined then Done(g, CustomerHasDeclined) else Declining(g))
      else (s, if q.status == Accepted then Accepting(g) else Unaccepted(g))
    case Declining(g) => if g < |s.grants| then TryDecline(s, g) else (s, Failed)
    case Unaccepted(g) =>
      if g >= |s.grants| then (s, Failed)
      else if Preflight(q, s.life.operations, s.grants[g].revisionNumber, found.facts) == [] then (s, Eligible(g))
      else (s, Done(g, PendingInternalCompletion))
    case Eligible(g) => if g < |s.grants| then TryAccept(s, g, found, Contested(g)) else (s, Failed)
    case Contested(g) =>
      if g >= |s.grants| then (s, Failed)
      else
        var blockers := Preflight(q, s.life.operations, s.grants[g].revisionNumber, found.facts);
        if blockers == [] then (s, Failed)
        else if AlreadyAccepted in blockers then (s, Accepting(g))
        else (s, Done(g, PendingInternalCompletion))
    case Accepting(g) => if g < |s.grants| then TryAccept(s, g, found, Failed) else (s, Failed)
    case Done(_, _) => (s, call.phase)
    case Failed => (s, Failed)
  }

  function Step(s: Shop, a: Action): Shop {
    match a
    case Lifecycle(action) => s.(life := Runs.Step(s.life, action))
    case IssueLink(expected, token, now) =>
      (match Issue(s.life.quote, s.grants, s.lifetime, expected, token, now)
       case Err(_) => s
       case Ok(grants) => s.(grants := grants))
    case RevokeLink(expected, now) =>
      (match Revoke(s.life.quote, s.grants, expected, now)
       case Err(_) => s
       case Ok(grants) => s.(grants := grants))
    case Ask(request) => s.(calls := s.calls + [Call(request, Asked)])
    case Advance(k, found) =>
      if k >= |s.calls| then s
      else
        var (s', phase) := Advanced(s, s.calls[k], found);
        s'.(calls := s'.calls[k := s'.calls[k].(phase := phase)])
  }

  function Run(s: Shop, actions: seq<Action>): Shop
    decreases |actions|
  {
    if actions == [] then s else Run(Step(s, actions[0]), actions[1..])
  }

  // ---- the invariant -------------------------------------------------------------------------

  /** What stays of a grant for ever: everything but how it ended. */
  predicate SameTerms(g: Grant, g': Grant) {
    g'.token == g.token && g'.revisionNumber == g.revisionNumber && g'.expiresAt == g.expiresAt &&
    g'.createdAt == g.createdAt && (!IsLive(g) ==> g' == g)
  }

  predicate GrantSound(q: Quote, lifetime: Option<nat>, g: Grant) {
    g.revisionNumber in q.revisions && g.expiresAt <= q.validUntil &&
    lifetime.Some? && g.expiresAt <= g.createdAt + lifetime.value && g.createdAt < g.expiresAt
  }

  /** Tokens are unique and at most one grant is live. */
  predicate GrantsSound(q: Quote, lifetime: Option<nat>, grants: seq<Grant>) {
    (forall i | 0 <= i < |grants| :: GrantSound(q, lifetime, grants[i])) &&
    (forall i, j | 0 <= i < j < |grants| :: grants[i].token != grants[j].token) &&
    (forall i, j | 0 <= i < j < |grants| :: !(IsLive(grants[i]) && IsLive(grants[j])))
  }

  /** One response per grant, for the grant's own revision. */
  predicate ResponsesSound(grants: seq<Grant>, responses: seq<Response>) {
    (forall i | 0 <= i < |responses| ::
       responses[i].grant < |grants| && responses[i].revisionNumber == grants[responses[i].grant].revisionNumber) &&
    (forall i, j | 0 <= i < j < |responses| :: responses[i].grant != responses[j].grant)
  }

  predicate HasEvidence(responses: seq<Response>, grant: nat, decision: CustomerDecision) {
    exists i :: 0 <= i < |responses| && responses[i].grant == grant && responses[i].decision == decision
  }

  /** Which decision leads to which phase. */
  predicate OnItsBranch(call: Call) {
    match call.phase
    case Declining(_) => call.request.decision == CustomerDeclined
    case Unaccepted(_) => call.request.decision == CustomerAccepted
    case Eligible(_) => call.request.decision == CustomerAccepted
    case Contested(_) => call.request.decision == CustomerAccepted
    case Accepting(_) => call.request.decision == CustomerAccepted
    case Done(_, outcome) => outcome == CustomerHasDeclined <==> call.request.decision == CustomerDeclined
    case _ => true
  }

  /** What the phase of a call says about the stores. */
  predicate CallSound(q: Quote, grants: seq<Grant>, responses: seq<Response>, call: Call) {
    call.phase.Asked? || call.phase.Failed? ||
    (call.phase.grant < |grants| && grants[call.phase.grant].token == call.request.token && OnItsBranch(call) &&
     (!call.phase.Holding? ==> HasEvidence(responses, call.phase.grant, call.request.decision)) &&
     (call.phase.Done? ==>
        match call.phase.outcome
        case Converted => q.status == Accepted && q.acceptedRevision == Some(grants[call.phase.grant].revisionNumber)
        case CustomerHasDeclined => q.status == Declined
        case PendingInternalCompletion => true))
  }

  ghost predicate Inv(s: Shop) {
    Runs.Inv(s.life) && GrantsSound(s.life.quote, s.lifetime, s.grants) && ResponsesSound(s.grants, s.responses) &&
    forall k | 0 <= k < |s.calls| :: CallSound(s.life.quote, s.grants, s.responses, s.calls[k])
  }

  // ---- histories grow, decisions stay --------------------------------------------------------

  /** What a later shop keeps of an earlier one. */
  predicate Keeps(s: Shop, s': Shop) {
    s'.lifetime == s.lifetime && Runs.Keeps(s.life, s'.life) &&
    |s.grants| <= |s'.grants| && (forall i | 0 <= i < |s.grants| :: SameTerms(s.grants[i], s'.grants[i])) &&
    s.responses <= s'.responses
  }

  lemma EvidenceStays(responses: seq<Response>, responses': seq<Response>, grant: nat, decision: CustomerDecision)
    requires responses <= responses' && HasEvidence(responses, grant, decision)
    ensures HasEvidence(responses', grant, decision)
  {
    var i :| 0 <= i < |responses| && responses[i].grant == grant && responses[i].decision == decision;
    assert responses'[i] == responses[i];
  }

  /** A call's standing survives whatever else happens. */
  lemma CallStaysSound(s: Shop, s': Shop, call: Call)
    requires Keeps(s, s') && CallSound(s.life.quote, s.grants, s.responses, call)
    ensures CallSound(s'.life.quote, s'.grants, s'.responses, call)
  {
    hide HasEvidence, Runs.Extends, IsLive;
    if !call.phase.Asked? && !call.phase.Failed? {
      assert SameTerms(s.grants[call.phase.grant], s'.grants[call.phase.grant]);
      if !call.phase.Holding? {
        EvidenceStays(s.responses, s'.responses, call.phase.grant, call.request.decision);
      }
    }
  }

  lemma GrantsStaySound(s: Shop, life: Runs.World)
    requires GrantsSound(s.life.quote, s.lifetime, s.grants) && Runs.Keeps(s.life, life)
    ensures GrantsSound(life.quote, s.lifetime, s.grants)
  {
    hide Runs.Extends, IsLive;
    forall i | 0 <= i < |s.grants|
      ensures GrantSound(life.quote, s.lifetime, s.grants[i])
    {
      assert GrantSound(s.life.quote, s.lifetime, s.grants[i]);
    }
  }

  lemma OthersStaySound(s: Shop, s': Shop)
    requires Inv(s) && Keeps(s, s') && s'.calls == s.calls
    ensures forall k | 0 <= k < |s'.calls| :: CallSound(s'.life.quote, s'.grants, s'.responses, s'.calls[k])
  {
    hide Keeps, CallSound, Runs.Inv, GrantsSound, ResponsesSound;
    forall k | 0 <= k < |s'.calls|
      ensures CallSound(s'.life.quote, s'.grants, s'.responses, s'.calls[k])
    {
      CallStaysSound(s, s', s.calls[k]);
    }
  }

  lemma KeepsItself(s: Shop)
    ensures Keeps(s, s)
  {
  }

  // ---- links ---------------------------------------------------------------------------------

  lemma IssueKeepsGrantsSound(s: Shop, expected: nat, token: string, now: int)
    requires GrantsSound(s.life.quote, s.lifetime, s.grants) && ResponsesSound(s.grants, s.responses)
    requires Issue(s.life.quote, s.grants, s.lifetime, expected, token, now).Ok?
    ensures var grants := Issue(s.life.quote, s.grants, s.lifetime, expected, token, now).value;
            GrantsSound(s.life.quote, s.lifetime, grants) && ResponsesSound(grants, s.responses) &&
            |s.grants| < |grants| && forall i | 0 <= i < |s.grants| :: SameTerms(s.grants[i], grants[i])
  {
    var q := s.life.quote;
    var grants := Issue(q, s.grants, s.lifetime, expected, token, now).value;
    var k := FirstLive(s.grants);
    assert forall i | 0 <= i < |s.grants| :: SameTerms(s.grants[i], grants[i]);
    forall i | 0 <= i < |grants|
      ensures GrantSound(q, s.lifetime, grants[i])
    {
      if i < |s.grants| { assert GrantSound(q, s.lifetime, s.grants[i]); }
    }
    assert forall i | 0 <= i < |s.grants| :: !IsLive(grants[i]);
  }

  lemma RevokeKeepsGrantsSound(s: Shop, expected: nat, now: int)
    requires GrantsSound(s.life.quote, s.lifetime, s.grants) && ResponsesSound(s.grants, s.responses)
    requires Revoke(s.life.quote, s.grants, expected, now).Ok?
    ensures var grants := Revoke(s.life.quote, s.grants, expected, now).value;
            GrantsSound(s.life.quote, s.lifetime, grants) && ResponsesSound(grants, s.responses) &&
            |s.grants| == |grants| && forall i | 0 <= i < |s.grants| :: SameTerms(s.grants[i], grants[i])
  {
    var q := s.life.quote;
    var grants := Revoke(q, s.grants, expected, now).value;
    assert forall i | 0 <= i < |s.grants| :: SameTerms(s.grants[i], grants[i]);
    forall i | 0 <= i < |grants|
      ensures GrantSound(q, s.lifetime, grants[i]) && (IsLive(grants[i]) ==> IsLive(s.grants[i]))
    {
      assert GrantSound(q, s.lifetime, s.grants[i]);
    }
  }

  // ---- steps of a call -----------------------------------------------------------------------

  lemma EvidenceKeepsResponsesSound(q: Quote, grants: seq<Grant>, responses: seq<Response>, grant: nat,
                                    decision: CustomerDecision, key: string, now: int)
    requires ResponsesSound(grants, responses)
    requires RecordEvidence(q, grants, responses, grant, decision, key, now).Ok?
    ensures var responses' := RecordEvidence(q, grants, responses, grant, decision, key, now).value;
            ResponsesSound(grants, responses') && responses <= responses' && HasEvidence(responses', grant, decision)
  {
    var responses' := RecordEvidence(q, grants, responses, grant, decision, key, now).value;
    var prior := FindResponse(responses, grant);
    if prior.Some? {
      var i :| 0 <= i < |responses| && responses[i] == prior.value;
      assert responses'[i].grant == grant && responses'[i].decision == decision;
    } else {
      forall i | 0 <= i < |responses|
        ensures responses[i].grant != grant
      {
        assert responses[i] in responses;
      }
      assert responses'[|responses|].grant == grant;
    }
  }

  /** Converting or repeating an acceptance is a lifecycle step, and leaves the grant's own revision accepted. */
  lemma AcceptIsALifecycleStep(s: Shop, grant: nat, found: Surroundings, onConflict: Phase)
    requires grant < |s.grants|
    ensures var (s', phase) := TryAccept(s, grant, found, onConflict);
            s' == s.(life := Runs.Step(s.life, Runs.AcceptBy(s.grants[grant].revisionNumber, SYSTEM_ACTOR, found.facts, found.ids))) &&
            (phase == Failed || phase == onConflict ||
             (phase == Done(grant, Converted) && s'.life.quote.status == Accepted &&
              s'.life.quote.acceptedRevision == Some(s.grants[grant].revisionNumber)))
  {
    var q, expected := s.life.quote, s.grants[grant].revisionNumber;
    if QuoteLifecycle.Accept(q, s.life.operations, expected, SYSTEM_ACTOR, found.facts, found.ids).Ok? {
      Runs.AcceptNamesTheRevision(q, s.life.operations, expected, SYSTEM_ACTOR, found.facts, found.ids);
    }
    hide QuoteLifecycle.Accept;
  }

  lemma DeclineIsALifecycleStep(s: Shop, grant: nat)
    requires grant < |s.grants|
    ensures var (s', phase) := TryDecline(s, grant);
            s' == s.(life := Runs.Step(s.life, Runs.DeclineBy(s.grants[grant].revisionNumber, None, SYSTEM_ACTOR))) &&
            (phase == Failed || (phase == Done(grant, CustomerHasDeclined) && s'.life.quote.status == Declined))
  {
  }

  lemma LifeStepKeeps(s: Shop, action: Runs.Action)
    requires Inv(s)
    ensures var s' := s.(life := Runs.Step(s.life, action));
            Runs.Inv(s'.life) && Keeps(s, s') && GrantsSound(s'.life.quote, s'.lifetime, s'.grants)
  {
    Runs.StepKeepsInv(s.life, action);
    Runs.StepKeepsHistory(s.life, action);
    hide Runs.Step, Runs.Inv, Runs.Keeps, CallSound, ResponsesSound, GrantsSound;
    GrantsStaySound(s, Runs.Step(s.life, action));
  }

  /** The grant a resolved token stands for. */
  lemma ResolvedGrant(s: Shop, token: string, now: int)
    requires Resolve(s.life.quote, s.grants, s.responses, token, now).Some?
    ensures FindToken(s.grants, token) < |s.grants| && s.grants[FindToken(s.grants, token)].token == token
  {
  }

  /** What one step of a call leaves behind: stores that only grew, and a sound phase. */
  ghost predicate LeavesSound(s: Shop, call: Call, s': Shop, phase: Phase) {
    Keeps(s, s') && s'.calls == s.calls && Runs.Inv(s'.life) &&
    GrantsSound(s'.life.quote, s'.lifetime, s'.grants) && ResponsesSound(s'.grants, s'.responses) &&
    CallSound(s'.life.quote, s'.grants, s'.responses, call.(phase := phase))
  }

  lemma NothingWritten(s: Shop, call: Call, phase: Phase)
    requires Inv(s) && CallSound(s.life.quote, s.grants, s.responses, call.(phase := phase))
    ensures LeavesSound(s, call, s, phase)
  {
    KeepsItself(s);
    hide Keeps, CallSound, Runs.Inv, GrantsSound, ResponsesSound;
  }

  lemma AskedIsSound(s: Shop, call: Call, found: Surroundings)
    requires Inv(s) && call.phase.Asked?
    ensures LeavesSound(s, call, Advanced(s, call, found).0, Advanced(s, call, found).1)
  {
    if Resolve(s.life.quote, s.grants, s.responses, call.request.token, found.facts.now).Some? {
      ResolvedGrant(s, call.request.token, found.facts.now);
    }
    hide Resolve, Inv, HasEvidence, LeavesSound;
    NothingWritten(s, call, Advanced(s, call, found).1);
  }

  lemma HoldingIsSound(s: Shop, call: Call, found: Surroundings)
    requires Inv(s) && CallSound(s.life.quote, s.grants, s.responses, call) && call.phase.Holding?
    ensures LeavesSound(s, call, Advanced(s, call, found).0, Advanced(s, call, found).1)
  {
    KeepsItself(s);
    var q, g, now := s.life.quote, call.phase.grant, found.facts.now;
    if RecordEvidence(q, s.grants, s.responses, g, call.request.decision, call.request.key, now).Ok? {
      EvidenceKeepsResponsesSound(q, s.grants, s.responses, g, call.request.decision, call.request.key, now);
    }
    hide Runs.Inv, GrantsSound, HasEvidence, Runs.Keeps, RecordEvidence, ResponsesSound, SameTerms;
  }

  /** A call goes from a sound phase to the next on the same grant. */
  lemma PhaseFollows(q: Quote, grants: seq<Grant>, responses: seq<Response>, call: Call, phase: Phase)
    requires CallSound(q, grants, responses, call)
    requires !call.phase.Asked? && !call.phase.Failed? && !call.phase.Holding?
    requires phase.Failed? ||
             (!phase.Asked? && phase.grant == call.phase.grant && OnItsBranch(call.(phase := phase)) &&
              (phase == Done(phase.grant, Converted) ==>
                 q.status == Accepted && q.acceptedRevision == Some(grants[phase.grant].revisionNumber)) &&
              (phase == Done(phase.grant, CustomerHasDeclined) ==> q.status == Declined))
    ensures CallSound(q, grants, responses, call.(phase := phase))
  {
    hide HasEvidence, OnItsBranch;
  }

  /** A step of a call that is a lifecycle step. */
  lemma LifeWritten(s: Shop, call: Call, action: Runs.Action, phase: Phase)
    requires Inv(s) && CallSound(s.life.quote, s.grants, s.responses, call)
    requires var s' := s.(life := Runs.Step(s.life, action));
             CallSound(s'.life.quote, s.grants, s.responses, call) ==>
               CallSound(s'.life.quote, s.grants, s.responses, call.(phase := phase))
    ensures LeavesSound(s, call, s.(life := Runs.Step(s.life, action)), phase)
  {
    var s' := s.(life := Runs.Step(s.life, action));
    LifeStepKeeps(s, action);
    hide Keeps, Runs.Inv, Runs.Step, GrantsSound, ResponsesSound, CallSound;
    CallStaysSound(s, s', call);
  }

  lemma DecliningIsSound(s: Shop, call: Call, found: Surroundings)
    requires Inv(s) && CallSound(s.life.quote, s.grants, s.responses, call) && call.phase.Declining?
    ensures LeavesSound(s, call, Advanced(s, call, found).0, Advanced(s, call, found).1)
  {
    var g := call.phase.grant;
    DeclineIsALifecycleStep(s, g);
    var (s', phase) := TryDecline(s, g);
    hide TryDecline, Inv, Runs.Step, HasEvidence, LeavesSound;
    if CallSound(s'.life.quote, s.grants, s.responses, call) {
      PhaseFollows(s'.life.quote, s.grants, s.responses, call, phase);
    }
    hide CallSound;
    LifeWritten(s, call, Runs.DeclineBy(s.grants[g].revisionNumber, None, SYSTEM_ACTOR), phase);
  }

  function OnConflict(call: Call): Phase
    requires call.phase.Eligible? || call.phase.Accepting?
  {
    if call.phase.Eligible? then Contested(call.phase.grant) else Failed
  }

  /** The two accepting phases try the acceptance; both outcomes are on the accepting branch. */
  lemma AcceptingTries(s: Shop, call: Call, found: Surroundings)
    requires CallSound(s.life.quote, s.grants, s.responses, call)
    requires call.phase.Eligible? || call.phase.Accepting?
    ensures call.phase.grant < |s.grants|
    ensures Advanced(s, call, found) == TryAccept(s, call.phase.grant, found, OnConflict(call))
    ensures OnItsBranch(call.(phase := Done(call.phase.grant, Converted)))
    ensures OnItsBranch(call.(phase := OnConflict(call)))
    ensures OnConflict(call) == Failed || OnConflict(call) == Contested(call.phase.grant)
  {
    hide TryAccept, HasEvidence;
  }

  lemma AcceptingIsSound(s: Shop, call: Call, found: Surroundings)
    requires Inv(s) && CallSound(s.life.quote, s.grants, s.responses, call)
    requires call.phase.Eligible? || call.phase.Accepting?
    ensures LeavesSound(s, call, Advanced(s, call, found).0, Advanced(s, call, found).1)
  {
    hide *;
    AcceptingTries(s, call, found);
    var g := call.phase.grant;
    var (s', phase) := TryAccept(s, g, found, OnConflict(call));
    AcceptIsALifecycleStep(s, g, found, OnConflict(call));
    if CallSound(s'.life.quote, s.grants, s.responses, call) {
      PhaseFollows(s'.life.quote, s.grants, s.responses, call, phase);
    }
    LifeWritten(s, call, Runs.AcceptBy(s.grants[g].revisionNumber, SYSTEM_ACTOR, found.facts, found.ids), phase);
  }

  /** The phases that only read. */
  lemma ReadingIsSound(s: Shop, call: Call, found: Surroundings)
    requires Inv(s) && CallSound(s.life.quote, s.grants, s.responses, call)
    requires call.phase.Evidenced? || call.phase.Unaccepted? || call.phase.Contested? || call.phase.Done? || call.phase.Failed?
    ensures LeavesSound(s, call, Advanced(s, call, found).0, Advanced(s, call, found).1)
  {
    hide Preflight, Inv, HasEvidence, LeavesSound;
    NothingWritten(s, call, Advanced(s, call, found).1);
  }

  lemma AdvancedIsSound(s: Shop, call: Call, found: Surroundings)
    requires Inv(s) && CallSound(s.life.quote, s.grants, s.responses, call)
    ensures LeavesSound(s, call, Advanced(s, call, found).0, Advanced(s, call, found).1)
  {
    hide Inv, CallSound, Advanced, LeavesSound;
    if call.phase.Asked? { AskedIsSound(s, call, found); }
    else if call.phase.Holding? { HoldingIsSound(s, call, found); }
    else if call.phase.Declining? { DecliningIsSound(s, call, found); }
    else if call.phase.Eligible? || call.phase.Accepting? { AcceptingIsSound(s, call, found); }
    else { ReadingIsSound(s, call, found); }
  }

  lemma AdvanceKeepsInv(s: Shop, k: nat, found: Surroundings)
    requires Inv(s)
    ensures Inv(Step(s, Advance(k, found))) && Keeps(s, Step(s, Advance(k, found)))
  {
    KeepsItself(s);
    hide Advanced, Runs.Inv, GrantsSound, ResponsesSound, CallSound, Runs.Keeps, SameTerms;
    if k < |s.calls| {
      var (s1, phase) := Advanced(s, s.calls[k], found);
      assert CallSound(s.life.quote, s.grants, s.responses, s.calls[k]);
      AdvancedIsSound(s, s.calls[k], found);
      OthersStaySound(s, s1);
    }
  }

  lemma LifecycleKeepsInv(s: Shop, action: Runs.Action)
    requires Inv(s)
    ensures Inv(Step(s, Lifecycle(action))) && Keeps(s, Step(s, Lifecycle(action)))
  {
    LifeStepKeeps(s, action);
    OthersStaySound(s, Step(s, Lifecycle(action)));
    hide Runs.Step, Runs.Inv, GrantsSound, ResponsesSound, CallSound, Keeps;
  }

  lemma LinkKeepsInv(s: Shop, grants: seq<Grant>)
    requires Inv(s) && GrantsSound(s.life.quote, s.lifetime, grants) && ResponsesSound(grants, s.responses)
    requires |s.grants| <= |grants| && forall i | 0 <= i < |s.grants| :: SameTerms(s.grants[i], grants[i])
    ensures Inv(s.(grants := grants)) && Keeps(s, s.(grants := grants))
  {
    KeepsItself(s);
    var s' := s.(grants := grants);
    hide Runs.Inv, GrantsSound, ResponsesSound, CallSound, SameTerms, Runs.Keeps;
    OthersStaySound(s, s');
  }

  lemma AskKeepsInv(s: Shop, request: Request)
    requires Inv(s)
    ensures Inv(Step(s, Ask(request))) && Keeps(s, Step(s, Ask(request)))
  {
    KeepsItself(s);
    hide Runs.Inv, GrantsSound, ResponsesSound, Runs.Keeps, SameTerms, HasEvidence;
  }

  lemma StepKeepsInv(s: Shop, a: Action)
    requires Inv(s)
    ensures Inv(Step(s, a)) && Keeps(s, Step(s, a))
  {
    match a
    case Lifecycle(action) => LifecycleKeepsInv(s, action); hide *;
    case IssueLink(expected, token, now) =>
      KeepsItself(s);
      if Issue(s.life.quote, s.grants, s.lifetime, expected, token, now).Ok? {
        IssueKeepsGrantsSound(s, expected, token, now);
        hide Issue, GrantsSound, ResponsesSound, Keeps, SameTerms, Runs.Inv, CallSound;
        LinkKeepsInv(s, Issue(s.life.quote, s.grants, s.lifetime, expected, token, now).value);
        hide Inv;
      } else { hide Inv, Keeps, Issue; }
    case RevokeLink(expected, now) =>
      KeepsItself(s);
      if Revoke(s.life.quote, s.grants, expected, now).Ok? {
        RevokeKeepsGrantsSound(s, expected, now);
        hide Revoke, GrantsSound, ResponsesSound, Keeps, SameTerms, Runs.Inv, CallSound;
        LinkKeepsInv(s, Revoke(s.life.quote, s.grants, expected, now).value);
        hide Inv;
      } else { hide Inv, Keeps, Revoke; }
    case Ask(request) => AskKeepsInv(s, request); hide *;
    case Advance(k, found) => AdvanceKeepsInv(s, k, found); hide *;
  }

  lemma KeepsIsTransitive(a: Shop, b: Shop, c: Shop)
    requires Keeps(a, b) && Keeps(b, c)
    ensures Keeps(a, c)
  {
    Runs.KeepsIsTransitive(a.life, b.life, c.life);
    hide Runs.Keeps, IsLive;
    forall i | 0 <= i < |a.grants|
      ensures SameTerms(a.grants[i], c.grants[i])
    {
      assert SameTerms(a.grants[i], b.grants[i]) && SameTerms(b.grants[i], c.grants[i]);
    }
  }

  lemma {:induction false} RunKeepsInv(s: Shop, actions: seq<Action>)
    requires Inv(s)
    ensures Inv(Run(s, actions)) && Keeps(s, Run(s, actions))
    decreases |actions|
  {
    KeepsItself(s);
    if actions != [] {
      StepKeepsInv(s, actions[0]);
      var s1 := Step(s, actions[0]);
      hide Inv, Step, Keeps;
      RunKeepsInv(s1, actions[1..]);
      KeepsIsTransitive(s, s1, Run(s1, actions[1..]));
    }
  }

  lemma OpeningHasInv(lifetime: Option<nat>, life: Runs.World)
    requires Runs.Inv(life)
    ensures Inv(Shop(lifetime, life, [], [], []))
  {
    hide Runs.Inv;
  }

  // ---- what customers are promised -----------------------------------------------------------

  /** At any moment one token at most resolves, and it shows the current revision. */
  lemma OneTokenResolves(s: Shop, token: string, token': string, now: int, now': int)
    requires Inv(s)
    requires Resolve(s.life.quote, s.grants, s.responses, token, now).Some?
    requires Resolve(s.life.quote, s.grants, s.responses, token', now').Some?
    ensures token == token'
    ensures var p := Resolve(s.life.quote, s.grants, s.responses, token, now).value;
            p.revisionNumber == s.life.quote.currentRevisionNumber && now < p.accessExpiresAt <= s.life.quote.validUntil
  {
    var i, j := FindToken(s.grants, token), FindToken(s.grants, token');
    hide Runs.Inv, ResponsesSound, CallSound, StateOf;
    assert GrantSound(s.life.quote, s.lifetime, s.grants[i]);
    assert IsLive(s.grants[i]) && IsLive(s.grants[j]);
  }

  /** A response never changes: each grant keeps the decision first recorded on it. */
  lemma ResponsesAreFinal(s: Shop, actions: seq<Action>, grant: nat, r: Response)
    requires Inv(s) && FindResponse(s.responses, grant) == Some(r)
    ensures FindResponse(Run(s, actions).responses, grant) == Some(r)
  {
    hide *;
    RunKeepsInv(s, actions);
    GrownResponses(s, Run(s, actions));
    FirstResponseStays(s.responses, Run(s, actions).responses, Run(s, actions).grants, grant, r);
  }

  lemma GrownResponses(s: Shop, s': Shop)
    requires Keeps(s, s') && Inv(s')
    ensures s.responses <= s'.responses && ResponsesSound(s'.grants, s'.responses)
  {
    hide ResponsesSound, GrantsSound, CallSound, Runs.Inv, Runs.Keeps, SameTerms;
  }

  lemma FirstResponseStays(responses: seq<Response>, later: seq<Response>, grants: seq<Grant>, grant: nat, r: Response)
    requires responses <= later && ResponsesSound(grants, later) && FindResponse(responses, grant) == Some(r)
    ensures FindResponse(later, grant) == Some(r)
  {
    var i :| 0 <= i < |responses| && responses[i] == r;
    assert later[i] == r && r in later;
    var found := FindResponse(later, grant).value;
    var j :| 0 <= j < |later| && later[j] == found;
    assert i == j;
  }

  /** The price a customer saw under a token is the price of the revision a conversion through it accepts. */
  lemma ThePriceShownIsThePriceAccepted(s: Shop, actions: seq<Action>, token: string, now: int, k: nat)
    requires Inv(s) && Resolve(s.life.quote, s.grants, s.responses, token, now).Some?
    requires k < |Run(s, actions).calls| && Run(s, actions).calls[k].request.token == token
    requires Run(s, actions).calls[k].phase.Done? && Run(s, actions).calls[k].phase.outcome == Converted
    ensures var shown := Resolve(s.life.quote, s.grants, s.responses, token, now).value;
            var q := Run(s, actions).life.quote;
            q.status == Accepted && q.acceptedRevision == Some(shown.revisionNumber) &&
            shown.revisionNumber in q.revisions && q.revisions[shown.revisionNumber].price == shown.price
  {
    RunKeepsInv(s, actions);
    var later := Run(s, actions);
    var call := later.calls[k];
    var g := FindToken(s.grants, token);
    assert CallSound(later.life.quote, later.grants, later.responses, call);
    hide Run, Runs.Inv, ResponsesSound, StateOf, IsLive, Runs.Extends, HasEvidence, OnItsBranch;
    assert SameTerms(s.grants[g], later.grants[g]);
    assert call.phase.grant == g by {
      assert later.grants[call.phase.grant].token == later.grants[g].token;
    }
    hide CallSound, GrantsSound;
  }

  /** What a finished call reports is so, and the evidence for it is on record. */
  lemma ReportsAreTrue(s: Shop, k: nat)
    requires Inv(s) && k < |s.calls| && s.calls[k].phase.Done?
    ensures var call := s.calls[k];
            HasEvidence(s.responses, call.phase.grant, call.request.decision) &&
            (call.phase.outcome == Converted ==> s.life.quote.status == Accepted) &&
            (call.phase.outcome == CustomerHasDeclined ==> s.life.quote.status == Declined) &&
            (call.phase.outcome == CustomerHasDeclined <==> call.request.decision == CustomerDeclined)
  {
    assert CallSound(s.life.quote, s.grants, s.responses, s.calls[k]);
    hide Runs.Inv, GrantsSound, ResponsesSound, HasEvidence;
  }

  /** A link shown as actionable can be acted on: either decision is recorded, given a fresh key. */
  lemma ActionableLinksCanBeAnswered(s: Shop, token: string, now: int, decision: CustomerDecision, key: string)
    requires Inv(s) && Resolve(s.life.quote, s.grants, s.responses, token, now).Some?
    requires Resolve(s.life.quote, s.grants, s.responses, token, now).value.actionable
    requires FindKey(s.responses, key).None?
    ensures RecordEvidence(s.life.quote, s.grants, s.responses, FindToken(s.grants, token), decision, key, now).Ok?
  {
    hide Runs.Inv, GrantsSound, ResponsesSound, CallSound;
  }

  /** An advancing call writes its own phase and whatever its step wrote. */
  lemma AdvanceAt(s: Shop, k: nat, found: Surroundings, s1: Shop, phase: Phase)
    requires k < |s.calls| && Advanced(s, s.calls[k], found) == (s1, phase) && s1.calls == s.calls
    ensures Step(s, Advance(k, found)) == s1.(calls := s.calls[k := s.calls[k].(phase := phase)])
  {
    hide Advanced;
  }

  /** The shop in which this call has reached this phase. */
  function At(s: Shop, k: nat, phase: Phase): Shop
    requires k < |s.calls|
  {
    s.(calls := s.calls[k := s.calls[k].(phase := phase)])
  }

  lemma ActionableMeansCurrent(s: Shop, token: string, now: int)
    requires Resolve(s.life.quote, s.grants, s.responses, token, now).Some?
    ensures FindToken(s.grants, token) < |s.grants|
    ensures s.grants[FindToken(s.grants, token)].revisionNumber == s.life.quote.currentRevisionNumber
    ensures Resolve(s.life.quote, s.grants, s.responses, token, now).value.actionable ==> s.life.quote.status == Submitted
  {
    hide StateOf;
  }

  /** The four steps before the acceptance: resolve, record, look, preflight. */
  lemma FourStepsToEligible(s: Shop, k: nat, token: string, key: string, found: Surroundings)
    requires k < |s.calls| && s.calls[k] == Call(Request(token, CustomerAccepted, key), Asked)
    requires Resolve(s.life.quote, s.grants, s.responses, token, found.facts.now).Some?
    requires s.life.quote.status == Submitted && FindToken(s.grants, token) < |s.grants|
    requires Preflight(s.life.quote, s.life.operations, s.grants[FindToken(s.grants, token)].revisionNumber, found.facts) == []
    requires RecordEvidence(s.life.quote, s.grants, s.responses, FindToken(s.grants, token), CustomerAccepted, key,
                            found.facts.now).Ok?
    ensures var step, g := Advance(k, found), FindToken(s.grants, token);
            var responses := RecordEvidence(s.life.quote, s.grants, s.responses, g, CustomerAccepted, key, found.facts.now).value;
            Step(Step(Step(Step(s, step), step), step), step) == At(s.(responses := responses), k, Eligible(g))
  {
    var g := FindToken(s.grants, token);
    var responses := RecordEvidence(s.life.quote, s.grants, s.responses, g, CustomerAccepted, key, found.facts.now).value;
    var s3 := s.(responses := responses);
    hide Resolve, FindToken, RecordEvidence, Preflight, Step;
    AdvanceAt(s, k, found, s, Holding(g));
    AdvanceAt(At(s, k, Holding(g)), k, found, At(s3, k, Holding(g)), Evidenced(g));
    AdvanceAt(At(s3, k, Evidenced(g)), k, found, At(s3, k, Evidenced(g)), Unaccepted(g));
    AdvanceAt(At(s3, k, Unaccepted(g)), k, found, At(s3, k, Unaccepted(g)), Eligible(g));
    hide Advanced;
  }

  /** The fifth step converts. */
  lemma FifthStepConverts(s: Shop, k: nat, g: nat, found: Surroundings)
    requires k < |s.calls| && s.calls[k].phase == Eligible(g) && g < |s.grants|
    requires QuoteLifecycle.Accept(s.life.quote, s.life.operations, s.grants[g].revisionNumber, SYSTEM_ACTOR,
                                   found.facts, found.ids).Ok?
    ensures k < |Step(s, Advance(k, found)).calls|
    ensures Step(s, Advance(k, found)).calls[k].phase == Done(g, Converted)
  {
    hide QuoteLifecycle.Accept;
    var (accepted, phase) := TryAccept(s, g, found, Contested(g));
    AdvanceAt(s, k, found, accepted, phase);
  }

  /**
   What a conversion looks for beyond the eligibility check: a known actor, a known property type for a new property,
   services and references in the catalogue, and free identifiers for every row it will create.
   */
  predicate NothingInTheWay(q: Quote, ops: Operations, found: Surroundings) {
    var facts, ids := found.facts, found.ids;
    facts.actorKnown && facts.servicesAvailable && facts.referencesLeft &&
    (q.customerResolution == Some(CreateNew) ==> ids.customer !in ops.customers) &&
    (q.propertyResolution == Some(CreateNew) ==> facts.propertyTypeKnown && ids.property !in ops.properties) &&
    (q.currentRevisionNumber in q.revisions && !q.revisions[q.currentRevisionNumber].submission.oneTime ==>
       ids.agreement !in ops.agreements) &&
    ids.workOrder !in ops.workOrders
  }

  /** An eligible Quote is submitted, within its validity, resolved for its current revision, and its choices stand. */
  lemma EligibleMeans(q: Quote, ops: Operations, facts: AcceptFacts)
    requires q.status != Expired && Preflight(q, ops, q.currentRevisionNumber, facts) == []
    ensures q.status == Submitted && facts.now <= q.validUntil && facts.photosStored && facts.projectable
    ensures q.customerResolution.Some? && q.propertyResolution.Some?
    ensures q.resolutionRevisionNumber == Some(q.currentRevisionNumber)
    ensures CustomerReady(q, ops) && PropertyReady(q, ops)
  {
    hide CustomerReady, PropertyReady;
  }

  /** What the invariant says of a submitted Quote: it exists at its revision and nothing has been decided. */
  lemma SubmittedIsUndecided(w: Runs.World)
    requires Runs.Inv(w) && w.quote.status == Submitted
    ensures w.quote.currentRevisionNumber >= 1 && w.quote.currentRevisionNumber in w.quote.revisions
    ensures IsUndecided(w.quote, w.quote.currentRevisionNumber)
  {
    hide Runs.RevisionsSound, Runs.OfferIsFinal, Runs.DraftSound, Runs.AcceptedShape;
  }

  lemma ConversionSucceeds(q: Quote, ops: Operations, found: Surroundings)
    requires q.currentRevisionNumber in q.revisions && IsUndecided(q, q.currentRevisionNumber)
    requires q.customerResolution.Some? && q.propertyResolution.Some? && CustomerReady(q, ops) && PropertyReady(q, ops)
    requires NothingInTheWay(q, ops, found)
    ensures Convert(q, ops, q.currentRevisionNumber, SYSTEM_ACTOR, found.facts, found.ids).Ok?
  {
    assert q.customerResolution.value == UseExisting || q.customerResolution.value == CreateNew;
    assert q.propertyResolution.value == UseExisting || q.propertyResolution.value == CreateNew;
    var customer := ResolveCustomer(q, ops, found.ids.customer);
    assert customer.Ok? && customer.value.1.properties == ops.properties && customer.value.1.agreements == ops.agreements;
    assert customer.value.1.workOrders == ops.workOrders;
    var property := ResolveProperty(q, customer.value.1, customer.value.0, found.ids.property, found.facts.propertyTypeKnown);
    assert property.Ok? && property.value.1.agreements == ops.agreements;
    assert property.value.1.workOrders == ops.workOrders;
    hide ResolveCustomer, ResolveProperty, CustomerReady, PropertyReady;
  }

  /** So an eligible Quote with nothing in the way is accepted. */
  lemma EligibleQuotesAreAccepted(w: Runs.World, found: Surroundings)
    requires Runs.Inv(w) && Preflight(w.quote, w.operations, w.quote.currentRevisionNumber, found.facts) == []
    requires NothingInTheWay(w.quote, w.operations, found)
    ensures QuoteLifecycle.Accept(w.quote, w.operations, w.quote.currentRevisionNumber, SYSTEM_ACTOR,
                                  found.facts, found.ids).Ok?
  {
    var q := w.quote;
    assert q.status != Expired by { hide Runs.RevisionsSound, Runs.OfferIsFinal, Runs.DraftSound, Runs.AcceptedShape; }
    EligibleMeans(q, w.operations, found.facts);
    SubmittedIsUndecided(w);
    ConversionSucceeds(q, w.operations, found);
    hide Runs.Inv, Preflight, Convert, NothingInTheWay, CustomerReady, PropertyReady, IsUndecided;
  }

  /** A call that nothing interrupts, on an actionable link and an eligible Quote, converts in five steps. */
  lemma UninterruptedAcceptanceConverts(s: Shop, token: string, key: string, found: Surroundings)
    requires Inv(s) && Resolve(s.life.quote, s.grants, s.responses, token, found.facts.now).Some?
    requires Resolve(s.life.quote, s.grants, s.responses, token, found.facts.now).value.actionable
    requires FindKey(s.responses, key).None?
    requires Preflight(s.life.quote, s.life.operations, s.life.quote.currentRevisionNumber, found.facts) == []
    requires NothingInTheWay(s.life.quote, s.life.operations, found)
    ensures var step := Advance(|s.calls|, found);
            var end := Run(s, [Ask(Request(token, CustomerAccepted, key)), step, step, step, step, step]);
            |s.calls| < |end.calls| && end.calls[|s.calls|].phase == Done(FindToken(s.grants, token), Converted)
  {
    hide *;
    var k, g := |s.calls|, FindToken(s.grants, token);
    var request := Request(token, CustomerAccepted, key);
    ActionableLinksCanBeAnswered(s, token, found.facts.now, CustomerAccepted, key);
    ActionableMeansCurrent(s, token, found.facts.now);
    LifeIsSound(s);
    EligibleQuotesAreAccepted(s.life, found);
    RunOfSix(s, Ask(request), Advance(k, found));
    AskAppends(s, request);
    var s1 := s.(calls := s.calls + [Call(request, Asked)]);
    FourStepsToEligible(s1, k, token, key, found);
    var responses := RecordEvidence(s.life.quote, s.grants, s.responses, g, CustomerAccepted, key, found.facts.now).value;
    PhaseAt(s1.(responses := responses), k, Eligible(g));
    FifthStepConverts(At(s1.(responses := responses), k, Eligible(g)), k, g, found);
  }

  lemma LifeIsSound(s: Shop)
    requires Inv(s)
    ensures Runs.Inv(s.life)
  {
    hide Runs.Inv, GrantsSound, ResponsesSound, CallSound;
  }

  lemma AskAppends(s: Shop, request: Request)
    ensures Step(s, Ask(request)) == s.(calls := s.calls + [Call(request, Asked)])
  {
  }

  lemma PhaseAt(s: Shop, k: nat, phase: Phase)
    requires k < |s.calls|
    ensures |At(s, k, phase).calls| == |s.calls| && At(s, k, phase).calls[k].phase == phase
    ensures At(s, k, phase).life == s.life && At(s, k, phase).grants == s.grants
  {
  }

  lemma RunOfSix(s: Shop, a: Action, b: Action)
    ensures Run(s, [a, b, b, b, b, b]) == Step(Step(Step(Step(Step(Step(s, a), b), b), b), b), b)
  {
    hide Step;
    RunFirst(s, a, [b, b, b, b, b]);
    RunFirst(Step(s, a), b, [b, b, b, b]);
    RunFirst(Step(Step(s, a), b), b, [b, b, b]);
    RunFirst(Step(Step(Step(s, a), b), b), b, [b, b]);
    RunFirst(Step(Step(Step(Step(s, a), b), b), b), b, [b]);
    RunFirst(Step(Step(Step(Step(Step(s, a), b), b), b), b), b, []);
  }

  lemma RunFirst(s: Shop, a: Action, rest: seq<Action>)
    ensures Run(s, [a] + rest) == Run(Step(s, a), rest)
    ensures Run(s, []) == s
  {
    assert ([a] + rest)[1..] == rest;
  }
}
