/**
 WhatsApp Quote Flow sessions: offered at most one at a time, completed once,
 and turned into a Quote in a transaction nested inside one that may roll back.
 (apps/api/src/messaging/whatsapp-quote-flow-session.service.ts,
 whatsapp-quote-flow-submission.service.ts, whatsapp-quote-flow-inbound.service.ts)

 A session's identifier is its place in the table; a token stands for its own
 fingerprint.
 */
module FlowSessions {
  import opened Prelude
  import opened Json
  import SubmissionInput
  import Protocol = SubmissionProtocol
  import opened ConversationStore
  import Service = SubmissionService

  type Quotes = Protocol.Quotes

  datatype Status = Prepared | Offered | Completed | Expired | Superseded | Fallback

  /** What a completion records, once and for ever. */
  datatype Completion = Completion(at: int, messageId: string, eventKey: string, fingerprint: string, response: Json)

  datatype Session = Session(
    conversation: string, artifact: string, token: string, status: Status, expiresAt: int,
    launchMessage: Option<string>, completion: Option<Completion>,
    submissionKey: Option<string>, quoteId: Option<string>, reviewReason: Option<string>)

  type Sessions = seq<Session>

  datatype Mapping = MapReady(draft: Fields) | MapReview(reason: string)

  /**
   What the model leaves open: the contract mapping, the fingerprint of a response under its token and artifact, the
   submission key of a session and fingerprint, and the stored record.
   */
  datatype FlowRules = FlowRules(
    mapping: Json -> Mapping, fingerprint: (string, string, Json) -> string, key: (nat, string) -> string,
    structured: (nat, Completion, Fields) -> Json)

  /** Keys of different sessions or fingerprints differ; nothing is asked of the fingerprint itself. */
  ghost predicate Lawful(rules: FlowRules) {
    forall i, f, i', f' :: rules.key(i, f) == rules.key(i', f') ==> i == i' && f == f'
  }

  /** A key that spells out the session and the fingerprint, a line each. */
  function SpelledKey(session: nat, fingerprint: string): string {
    seq(session, _ => '.') + "\n" + fingerprint
  }

  lemma SpelledKeysDiffer(i: nat, f: string, i': nat, f': string)
    requires SpelledKey(i, f) == SpelledKey(i', f')
    ensures i == i' && f == f'
  {
    var k, k' := SpelledKey(i, f), SpelledKey(i', f');
    assert k[i] == '\n' && k'[i'] == '\n';
    assert k[i + 1..] == f && k'[i' + 1..] == f';
  }

  /** Whatever the mapping, the fingerprint and the record are, there are lawful rules with them. */
  lemma LawfulRulesExist(mapping: Json -> Mapping, fingerprint: (string, string, Json) -> string,
                         structured: (nat, Completion, Fields) -> Json) returns (rules: FlowRules)
    ensures Lawful(rules)
    ensures rules.mapping == mapping && rules.fingerprint == fingerprint && rules.structured == structured
  {
    rules := FlowRules(mapping, fingerprint, SpelledKey, structured);
    forall i, f, i', f' | rules.key(i, f) == rules.key(i', f')
      ensures i == i' && f == f'
    {
      SpelledKeysDiffer(i, f, i', f');
    }
  }

  datatype FlowError =
    | StillUnresolved | TokenTaken | MissingEvent | AuthorityMoved | NoSession | OtherConversation | MetadataMismatch
    | DifferentCompletion | NotEligible | SessionExpired | EvidenceTaken | LinkInconsistent | ReservationConflict
    | QuoteRefused(error: Service.SubmitError) | NotCompleted

  const TTL_MS := 86_400_000

  predicate IsUnresolved(s: Session) {
    s.status == Prepared || s.status == Offered
  }

  // ---- expiry and fallback -------------------------------------------------------------------

  function ExpiredIf(s: Session, conversation: string, now: int): Session {
    if s.conversation == conversation && IsUnresolved(s) && s.expiresAt <= now then s.(status := Expired) else s
  }

  function ExpireDue(sessions: Sessions, conversation: string, now: int): Sessions {
    seq(|sessions|, i requires 0 <= i < |sessions| => ExpiredIf(sessions[i], conversation, now))
  }

  /** `enterGuidedFallback` */
  function EnterFallback(sessions: Sessions, conversation: string): Sessions {
    seq(|sessions|, i requires 0 <= i < |sessions| =>
      if sessions[i].conversation == conversation && IsUnresolved(sessions[i])
      then sessions[i].(status := Fallback) else sessions[i])
  }

  // ---- offering ------------------------------------------------------------------------------

  predicate IsActive(s: Session, conversation: string, artifact: string) {
    s.conversation == conversation && s.artifact == artifact && IsUnresolved(s)
  }

  /** The newest active session of an artifact, or the length. */
  function NewestActive(sessions: Sessions, conversation: string, artifact: string): (k: nat)
    ensures k <= |sessions| && (k < |sessions| ==> IsActive(sessions[k], conversation, artifact))
    ensures k == |sessions| ==> forall i | 0 <= i < |sessions| :: !IsActive(sessions[i], conversation, artifact)
  {
    if sessions == [] then 0
    else
      var last := |sessions| - 1;
      if IsActive(sessions[last], conversation, artifact) then last
      else
        var k := NewestActive(sessions[..last], conversation, artifact);
        if k == last then |sessions| else k
  }

  /** The unique indexes an insert has to satisfy. */
  predicate HasUnresolved(sessions: Sessions, conversation: string) {
    exists i :: 0 <= i < |sessions| && sessions[i].conversation == conversation && IsUnresolved(sessions[i])
  }

  predicate HasToken(sessions: Sessions, token: string) {
    exists i :: 0 <= i < |sessions| && sessions[i].token == token
  }

  datatype Preparation = Preparation(session: nat, reused: bool)

  /** `prepare`: expire what is due, reuse an offered session, supersede a prepared one, insert. */
  function Prepare(sessions: Sessions, conversation: string, artifact: string, token: string, now: int)
    : Result<(Sessions, Preparation), FlowError>
  {
    var due := ExpireDue(sessions, conversation, now);
    var k := NewestActive(due, conversation, artifact);
    if k < |due| && due[k].status == Offered then Ok((due, Preparation(k, true)))
    else
      var cleared := if k < |due| then due[k := due[k].(status := Superseded)] else due;
      if HasUnresolved(cleared, conversation) then Err(StillUnresolved)
      else if HasToken(cleared, token) then Err(TokenTaken)
      else
        Ok((cleared + [Session(conversation, artifact, token, Prepared, now + TTL_MS, None, None, None, None, None)],
            Preparation(|cleared|, false)))
  }

  predicate HasLaunch(sessions: Sessions, message: string) {
    exists i :: 0 <= i < |sessions| && sessions[i].launchMessage == Some(message)
  }

  /** `bindLaunchMessage`: only a prepared session takes one, and no two take the same. */
  function BindLaunch(sessions: Sessions, id: nat, message: string): Sessions {
    if id < |sessions| && sessions[id].status == Prepared &&
       (sessions[id].launchMessage == Some(message) || !HasLaunch(sessions, message))
    then sessions[id := sessions[id].(launchMessage := Some(message))] else sessions
  }

  /** The end of `offer`, and of `reconcileLaunchStatus` on a good provider status. */
  function MarkOffered(sessions: Sessions, id: nat): Sessions {
    if id < |sessions| && sessions[id].status == Prepared then sessions[id := sessions[id].(status := Offered)] else sessions
  }

  function ReconcileOne(s: Session, message: string, failed: bool): Session {
    if s.launchMessage == Some(message) && s.status == Prepared
    then s.(status := if failed then Fallback else Offered) else s
  }

  /** `reconcileLaunchStatus` */
  function ReconcileLaunch(sessions: Sessions, message: string, failed: bool): Sessions {
    seq(|sessions|, i requires 0 <= i < |sessions| => ReconcileOne(sessions[i], message, failed))
  }

  // ---- completing ----------------------------------------------------------------------------

  function FindToken(sessions: Sessions, token: string): (k: nat)
    ensures k <= |sessions| && (k < |sessions| ==> sessions[k].token == token)
    ensures forall i | 0 <= i < k :: sessions[i].token != token
    decreases |sessions|
  {
    if sessions == [] || sessions[0].token == token then 0
    else
      var k := FindToken(sessions[1..], token);
      assert forall i | 1 <= i < k + 1 :: sessions[i] == sessions[1..][i - 1];
      k + 1
  }

  /** The inbound message that carries a completion. */
  datatype Inbound = Inbound(messageId: string, conversation: string, eventKey: Option<string>)

  predicate HasEvidence(sessions: Sessions, message: Inbound) {
    exists i :: 0 <= i < |sessions| && sessions[i].completion.Some? &&
      (sessions[i].completion.value.messageId == message.messageId ||
       Some(sessions[i].completion.value.eventKey) == message.eventKey)
  }

  predicate HoldsAuthority(control: Control, version: nat, observed: nat) {
    control == Automation && version == observed
  }

  datatype Captured = Captured(session: nat, replay: bool)

  /** `captureCompletion`; `matching` is whether the response names this contract. */
  function CaptureCompletion(rules: FlowRules, sessions: Sessions, message: Inbound, token: string, response: Json,
                             matching: bool, control: Control, version: nat, observed: nat, now: int)
    : Result<(Sessions, Captured), FlowError>
  {
    if message.eventKey.None? then Err(MissingEvent)
    else if !HoldsAuthority(control, version, observed) then Err(AuthorityMoved)
    else
      var k := FindToken(sessions, token);
      if k == |sessions| then Err(NoSession)
      else if sessions[k].conversation != message.conversation then Err(OtherConversation)
      else if !matching then Err(MetadataMismatch)
      else
        var fingerprint := rules.fingerprint(sessions[k].token, sessions[k].artifact, response);
        if sessions[k].status == Completed then
          (if sessions[k].completion.Some? && sessions[k].completion.value.fingerprint == fingerprint
           then Ok((sessions, Captured(k, true))) else Err(DifferentCompletion))
        else if sessions[k].status != Offered then Err(NotEligible)
        else if sessions[k].expiresAt <= now then Err(SessionExpired)   // its EXPIRED update is rolled back by the throw
        else if HasEvidence(sessions, message) then Err(EvidenceTaken)
        else
          Ok((sessions[k := sessions[k].(status := Completed,
                completion := Some(Completion(now, message.messageId, message.eventKey.value, fingerprint, response)))],
              Captured(k, false)))
  }

  // ---- processing ----------------------------------------------------------------------------

  datatype Reply = ToQuote(quoteId: string, replay: bool) | ToHumanReview(reason: string, replay: bool)

  /** What a call would write to the session, what it did write to the Quotes, and what it answers. */
  datatype Processed = Processed(session: Session, quotes: Quotes, reply: Result<Reply, FlowError>)

  function DueOf(rules: FlowRules, id: nat, completion: Completion, draft: Fields): SubmissionInput.Due {
    SubmissionInput.Due(rules.key(id, completion.fingerprint), rules.structured(id, completion, draft))
  }

  /** `processCompletedSession` up to the end of its transaction; the Quote part is committed on its own. */
  function Process(rules: FlowRules, id: nat, s: Session, quotes: Quotes, authorised: bool, newId: string): Processed {
    if !authorised then Processed(s, quotes, Err(AuthorityMoved))
    else if s.quoteId.Some? then
      Processed(s, quotes, if Service.HasQuote(quotes, s.quoteId.value) then Ok(ToQuote(s.quoteId.value, true))
                           else Err(LinkInconsistent))
    else if s.reviewReason.Some? then Processed(s, quotes, Ok(ToHumanReview(s.reviewReason.value, true)))
    else if s.status != Completed || s.completion.None? then Processed(s, quotes, Err(NotCompleted))
    else
      match rules.mapping(s.completion.value.response)
      case MapReview(reason) =>
        Processed(s.(reviewReason := Some(reason)), quotes, Ok(ToHumanReview(reason, false)))
      case MapReady(draft) =>
        var due := DueOf(rules, id, s.completion.value, draft);
        if s.submissionKey.Some? && s.submissionKey.value != due.key then Processed(s, quotes, Err(ReservationConflict))
        else
          var (quotes', receipt) := Service.SubmitQuote(quotes, due, newId);
          match receipt
          case Err(e) => Processed(s, quotes', Err(QuoteRefused(e)))
          case Ok(got) =>
            Processed(s.(submissionKey := Some(due.key), quoteId := Some(got.quoteId)), quotes',
                      Ok(ToQuote(got.quoteId, !got.created)))
  }

  /** The session row after the call: what it wrote, if its own transaction commits and did not throw. */
  function Stored(before: Session, p: Processed, commits: bool): Session {
    if commits && p.reply.Ok? then p.session else before
  }

  // ---- the table as the services update it ---------------------------------------------------

  class FlowSessionTable {
    var sessions: Sessions

    constructor ()
      ensures sessions == []
    {
      sessions := [];
    }

    method ExpireDueSessions(conversation: string, now: int)
      modifies this
      ensures sessions == ExpireDue(old(sessions), conversation, now)
    {
      hide ExpiredIf;
      for i := 0 to |sessions|
        invariant |sessions| == |old(sessions)|
        invariant forall j | i <= j < |sessions| :: sessions[j] == old(sessions)[j]
        invariant forall j | 0 <= j < i :: sessions[j] == ExpiredIf(old(sessions)[j], conversation, now)
      {
        sessions := sessions[i := ExpiredIf(sessions[i], conversation, now)];
      }
    }

    method PrepareSession(conversation: string, artifact: string, token: string, now: int)
      returns (r: Result<Preparation, FlowError>)
      modifies this
      ensures match Prepare(old(sessions), conversation, artifact, token, now)
              case Ok(done) => sessions == done.0 && r == Ok(done.1)
              case Err(e) => sessions == old(sessions) && r == Err(e)
    {
      hide ExpireDue, NewestActive, HasUnresolved, HasToken;
      var before := sessions;
      ExpireDueSessions(conversation, now);
      var k := NewestActive(sessions, conversation, artifact);
      if k < |sessions| && sessions[k].status == Offered {
        return Ok(Preparation(k, true));
      }
      if k < |sessions| {
        sessions := sessions[k := sessions[k].(status := Superseded)];
      }
      if HasUnresolved(sessions, conversation) {
        sessions := before;
        return Err(StillUnresolved);
      }
      if HasToken(sessions, token) {
        sessions := before;
        return Err(TokenTaken);
      }
      var id := |sessions|;
      sessions := sessions + [Session(conversation, artifact, token, Prepared, now + TTL_MS, None, None, None, None, None)];
      return Ok(Preparation(id, false));
    }

    method Capture(rules: FlowRules, message: Inbound, token: string, response: Json, matching: bool, control: Control,
                   version: nat, observed: nat, now: int) returns (r: Result<Captured, FlowError>)
      modifies this
      ensures match CaptureCompletion(rules, old(sessions), message, token, response, matching, control, version,
                                      observed, now)
              case Ok(done) => sessions == done.0 && r == Ok(done.1)
              case Err(e) => sessions == old(sessions) && r == Err(e)
    {
      hide HasEvidence, FindToken;
      if message.eventKey.None? {
        return Err(MissingEvent);
      }
      if control != Automation || version != observed {
        return Err(AuthorityMoved);
      }
      var k := FindToken(sessions, token);
      if k == |sessions| {
        return Err(NoSession);
      }
      var session := sessions[k];
      if session.conversation != message.conversation {
        return Err(OtherConversation);
      }
      if !matching {
        return Err(MetadataMismatch);
      }
      var fingerprint := rules.fingerprint(session.token, session.artifact, response);
      if session.status == Completed {
        if session.completion.None? || session.completion.value.fingerprint != fingerprint {
          return Err(DifferentCompletion);
        }
        return Ok(Captured(k, true));
      }
      if session.status != Offered {
        return Err(NotEligible);
      }
      if session.expiresAt <= now {
        return Err(SessionExpired);
      }
      if HasEvidence(sessions, message) {
        return Err(EvidenceTaken);
      }
      var completion := Completion(now, message.messageId, message.eventKey.value, fingerprint, response);
      sessions := sessions[k := session.(status := Completed, completion := Some(completion))];
      return Ok(Captured(k, false));
    }

    /**
     `processCompletedSession`: the session is written last, and only if its own transaction commits; an unknown
     session is refused.
     */
    method ProcessCompletedSession(rules: FlowRules, id: nat, table: Service.QuoteTable, authorised: bool, newId: string,
                                   commits: bool) returns (r: Result<Reply, FlowError>)
      modifies this, table
      ensures id >= |old(sessions)| ==>
                r == Err(NoSession) && sessions == old(sessions) && table.quotes == old(table.quotes)
      ensures id < |old(sessions)| ==>
                var p := Process(rules, id, old(sessions)[id], old(table.quotes), authorised, newId);
                r == p.reply && table.quotes == p.quotes &&
                sessions == old(sessions)[id := Stored(old(sessions)[id], p, commits)]
    {
      if id >= |sessions| {
        return Err(NoSession);
      }
      var session := sessions[id];
      if !authorised {
        return Err(AuthorityMoved);
      }
      if session.quoteId.Some? {
        return if Service.HasQuote(table.quotes, session.quoteId.value) then Ok(ToQuote(session.quoteId.value, true))
               else Err(LinkInconsistent);
      }
      if session.reviewReason.Some? {
        return Ok(ToHumanReview(session.reviewReason.value, true));
      }
      if session.status != Completed || session.completion.None? {
        return Err(NotCompleted);
      }
      var mapped := rules.mapping(session.completion.value.response);
      if mapped.MapReview? {
        if commits {
          sessions := sessions[id := session.(reviewReason := Some(mapped.reason))];
        }
        return Ok(ToHumanReview(mapped.reason, false));
      }
      var due := DueOf(rules, id, session.completion.value, mapped.draft);
      if session.submissionKey.Some? && session.submissionKey.value != due.key {
        return Err(ReservationConflict);
      }
      var result := table.Submit(due, newId);
      if result.Err? {
        return Err(QuoteRefused(result.error));
      }
      if commits {
        sessions := sessions[id := session.(submissionKey := Some(due.key), quoteId := Some(result.value.quoteId))];
      }
      return Ok(ToQuote(result.value.quoteId, !result.value.created));
    }
  }
}
