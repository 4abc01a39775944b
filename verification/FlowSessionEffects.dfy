/**
 Why a Flow session changes: each status has its own causes, launches decide between offer and fallback, and a
 completion is captured under exactly these conditions.
 (apps/api/src/messaging/whatsapp-quote-flow-session.service.ts,
 whatsapp-quote-flow-submission.service.ts)
 */
module FlowSessionEffects {
  import opened Prelude
  import opened Json
  import opened ConversationStore
  import opened FlowSessions
  import opened Runs = FlowSessionRuns
  import Service = SubmissionService
  import Protocol = SubmissionProtocol

  // ---- causes --------------------------------------------------------------------------------

  /** The session becomes `status` in this step, not having had it before. */
  ghost predicate Becomes(rules: FlowRules, w: World, a: Action, i: nat, status: Status)
    requires i < |w.sessions|
  {
    var after := Step(rules, w, a).sessions;
    i < |after| && w.sessions[i].status != status && after[i].status == status
  }

  predicate IsLaunchOf(a: Action, s: Session, failed: bool) {
    a.Launch? && a.failed == failed && s.status == Prepared && s.launchMessage == Some(a.message)
  }

  predicate IsDue(s: Session, conversation: string, now: int) {
    s.conversation == conversation && IsUnresolved(s) && s.expiresAt <= now
  }

  /** Whether an offer is answered at all: with the open one, or with a new one under a fresh token. */
  predicate IsAnswered(w: World, a: Action)
    requires a.Offer?
  {
    Prepare(w.sessions, a.conversation, a.artifact, a.token, a.now).Ok?
  }

  lemma UpdatesHaveCauses(rules: FlowRules, w: World, a: Action, i: nat)
    requires i < |w.sessions| && (a.Bind? || a.Mark? || a.Launch? || a.FallBack? || a.Expire?)
    ensures Becomes(rules, w, a, i, Offered) <==>
              (a.Mark? && a.id == i && w.sessions[i].status == Prepared) || IsLaunchOf(a, w.sessions[i], false)
    ensures Becomes(rules, w, a, i, Fallback) <==>
              (a.FallBack? && a.conversation == w.sessions[i].conversation && IsUnresolved(w.sessions[i])) ||
              IsLaunchOf(a, w.sessions[i], true)
    ensures Becomes(rules, w, a, i, Expired) <==> a.Expire? && IsDue(w.sessions[i], a.conversation, a.now)
    ensures !Becomes(rules, w, a, i, Superseded) && !Becomes(rules, w, a, i, Completed) && !Becomes(rules, w, a, i, Prepared)
  {
    hide HasLaunch;
  }

  /** An offer expires what is due and supersedes an open session of the artifact that was prepared and never sent. */
  lemma OffersHaveTheseCauses(rules: FlowRules, w: World, a: Action, i: nat)
    requires Inv(rules, w) && i < |w.sessions| && a.Offer?
    ensures Becomes(rules, w, a, i, Expired) <==> IsAnswered(w, a) && IsDue(w.sessions[i], a.conversation, a.now)
    ensures Becomes(rules, w, a, i, Superseded) <==>
              IsAnswered(w, a) && w.sessions[i].conversation == a.conversation && w.sessions[i].artifact == a.artifact &&
              w.sessions[i].status == Prepared && a.now < w.sessions[i].expiresAt
    ensures !Becomes(rules, w, a, i, Offered) && !Becomes(rules, w, a, i, Completed) &&
            !Becomes(rules, w, a, i, Fallback) && !Becomes(rules, w, a, i, Prepared)
  {
    assert ActiveSound(w.sessions);
    var due := ExpireDue(w.sessions, a.conversation, a.now);
    var k := NewestActive(due, a.conversation, a.artifact);
    OneIsActive(w.sessions, a.conversation, a.artifact, a.now, i);
    hide NewestActive, HasUnresolved, HasToken, Inv, ActiveSound;
  }

  lemma OneIsActive(sessions: Sessions, conversation: string, artifact: string, now: int, i: nat)
    requires ActiveSound(sessions) && i < |sessions|
    ensures var due := ExpireDue(sessions, conversation, now);
            IsActive(due[i], conversation, artifact) <==> i == NewestActive(due, conversation, artifact)
  {
    var due := ExpireDue(sessions, conversation, now);
    var k := NewestActive(due, conversation, artifact);
    assert due[i].conversation == sessions[i].conversation && (IsUnresolved(due[i]) ==> IsUnresolved(sessions[i]));
    hide NewestActive;
  }

  lemma CompletionsHaveThisCause(rules: FlowRules, w: World, a: Action, i: nat)
    requires Inv(rules, w) && i < |w.sessions| && a.Complete?
    ensures Becomes(rules, w, a, i, Completed) <==>
              a.token == w.sessions[i].token && MayComplete(w.sessions, i, a)
    ensures forall status | status != Completed :: !Becomes(rules, w, a, i, status)
  {
    assert ActiveSound(w.sessions);
    TokenFinds(w.sessions, i);
    hide FindToken, HasEvidence, Inv, ActiveSound;
  }

  lemma TokenFinds(sessions: Sessions, i: nat)
    requires ActiveSound(sessions) && i < |sessions|
    ensures FindToken(sessions, sessions[i].token) == i
  {
    var k := FindToken(sessions, sessions[i].token);
    assert sessions[k].token == sessions[i].token;
    hide FindToken;
  }

  /** An offered session, in time, for its own conversation and contract, under authority, on evidence not used yet. */
  predicate MayComplete(sessions: Sessions, i: nat, a: Action)
    requires a.Complete? && i < |sessions|
  {
    sessions[i].status == Offered && a.now < sessions[i].expiresAt &&
    a.inbound.eventKey.Some? && a.inbound.conversation == sessions[i].conversation && a.matching &&
    a.control == Automation && a.version == a.observed && IsNewEvidence(sessions, a.inbound)
  }

  predicate IsNewEvidence(sessions: Sessions, message: Inbound) {
    forall i | 0 <= i < |sessions| && sessions[i].completion.Some? ::
      sessions[i].completion.value.messageId != message.messageId &&
      Some(sessions[i].completion.value.eventKey) != message.eventKey
  }

  /** A completed session carries the message, the time and the response it was completed with, and nothing else new. */
  lemma CompletionsRecordTheirMessage(rules: FlowRules, w: World, a: Action, i: nat)
    requires Inv(rules, w) && i < |w.sessions| && a.Complete? && Becomes(rules, w, a, i, Completed)
    ensures var s, s' := w.sessions[i], Step(rules, w, a).sessions[i];
            s' == s.(status := Completed, completion := s'.completion) && s'.completion.Some? &&
            s'.completion.value.at == a.now && s'.completion.value.messageId == a.inbound.messageId &&
            Some(s'.completion.value.eventKey) == a.inbound.eventKey && s'.completion.value.response == a.response &&
            s'.completion.value.fingerprint == rules.fingerprint(s.token, s.artifact, a.response)
    ensures forall j | 0 <= j < |w.sessions| && j != i :: Step(rules, w, a).sessions[j] == w.sessions[j]
  {
    hide FindToken, HasEvidence, Inv;
  }

  /** What a refused completion ran into. */
  predicate IsCaptureRefusal(sessions: Sessions, message: Inbound, token: string, matching: bool, control: Control,
                             version: nat, observed: nat, now: int, why: FlowError)
  {
    match why
    case MissingEvent => message.eventKey.None?
    case AuthorityMoved => control != Automation || version != observed
    case NoSession => forall i | 0 <= i < |sessions| :: sessions[i].token != token
    case MetadataMismatch => !matching
    case EvidenceTaken => !IsNewEvidence(sessions, message)
    case OtherConversation => exists i :: 0 <= i < |sessions| && sessions[i].token == token && sessions[i].conversation != message.conversation
    case DifferentCompletion => exists i :: 0 <= i < |sessions| && sessions[i].token == token && sessions[i].status == Completed
    case NotEligible =>
      exists i :: 0 <= i < |sessions| && sessions[i].token == token && sessions[i].status != Completed && sessions[i].status != Offered
    case SessionExpired =>
      exists i :: 0 <= i < |sessions| && sessions[i].token == token && sessions[i].status == Offered && sessions[i].expiresAt <= now
    case _ => false
  }

  lemma CaptureRefusalsNameTheirCause(rules: FlowRules, sessions: Sessions, message: Inbound, token: string,
                                      response: Json, matching: bool, control: Control, version: nat, observed: nat, now: int)
    ensures var r := CaptureCompletion(rules, sessions, message, token, response, matching, control, version, observed, now);
            r.Err? ==> IsCaptureRefusal(sessions, message, token, matching, control, version, observed, now, r.error)
  {
    var k := FindToken(sessions, token);
    assert k < |sessions| ==> sessions[k].token == token;
    hide FindToken;
  }

  // ---- launches ------------------------------------------------------------------------------

  predicate LaunchesDiffer(sessions: Sessions) {
    forall i, j | 0 <= i < j < |sessions| && sessions[i].launchMessage.Some? ::
      sessions[i].launchMessage != sessions[j].launchMessage
  }

  /** A prepared session takes a launch message exactly when no other session has it, and so no two ever share one. */
  lemma LaunchesAreBoundExactlyWhen(sessions: Sessions, id: nat, message: string)
    requires LaunchesDiffer(sessions) && id < |sessions|
    ensures var after := BindLaunch(sessions, id, message);
            LaunchesDiffer(after) && |after| == |sessions| &&
            (forall j | 0 <= j < |sessions| && j != id :: after[j] == sessions[j]) &&
            after[id] == sessions[id].(launchMessage := after[id].launchMessage) &&
            (after[id].launchMessage == Some(message) <==>
               sessions[id].launchMessage == Some(message) ||
               (sessions[id].status == Prepared &&
                forall j | 0 <= j < |sessions| :: sessions[j].launchMessage != Some(message))) &&
            (after[id].launchMessage != Some(message) ==> after == sessions)
  {
  }

  /** After a failed launch the conversation has nothing open: another offer under a fresh token is made at once. */
  lemma FailedLaunchesFreeTheConversation(rules: FlowRules, w: World, id: nat, artifact: string, token: string, now: int)
    requires Inv(rules, w) && id < |w.sessions| && w.sessions[id].status == Prepared
    requires w.sessions[id].launchMessage.Some? && !HasToken(w.sessions, token)
    ensures var conversation := w.sessions[id].conversation;
            var failed := Step(rules, w, Launch(w.sessions[id].launchMessage.value, true)).sessions;
            !HasUnresolved(failed, conversation) && |failed| == |w.sessions| &&
            Prepare(failed, conversation, artifact, token, now).Ok? &&
            Prepare(failed, conversation, artifact, token, now).value.1 == Preparation(|failed|, false)
  {
    var conversation := w.sessions[id].conversation;
    var failed := Step(rules, w, Launch(w.sessions[id].launchMessage.value, true)).sessions;
    assert ActiveSound(w.sessions);
    forall i | 0 <= i < |failed| && failed[i].conversation == conversation
      ensures !IsUnresolved(failed[i])
    {
      if i < id {
        assert !(IsUnresolved(w.sessions[i]) && IsUnresolved(w.sessions[id]));
      } else if id < i {
        assert !(IsUnresolved(w.sessions[id]) && IsUnresolved(w.sessions[i]));
      }
    }
    hide Inv, ActiveSound;
    assert forall i | 0 <= i < |failed| :: failed[i].token == w.sessions[i].token;
    assert !HasToken(failed, token);
    assert !HasUnresolved(failed, conversation);
    FreeConversationsAreOffered(failed, conversation, artifact, token, now);
  }

  /** A conversation with nothing open gets a new session: prepared, with a day to complete it. */
  lemma FreeConversationsAreOffered(sessions: Sessions, conversation: string, artifact: string, token: string, now: int)
    requires !HasUnresolved(sessions, conversation) && !HasToken(sessions, token)
    ensures Prepare(sessions, conversation, artifact, token, now)
         == Ok((sessions + [Session(conversation, artifact, token, Prepared, now + 24 * 60 * 60 * 1000, None, None, None,
                                    None, None)], Preparation(|sessions|, false)))
  {
    var due := ExpireDue(sessions, conversation, now);
    assert due == sessions by {
      forall i | 0 <= i < |sessions|
        ensures due[i] == sessions[i]
      {
        if sessions[i].conversation == conversation { assert !IsUnresolved(sessions[i]); }
      }
    }
    var k := NewestActive(due, conversation, artifact);
    assert k == |due|;
    hide NewestActive, HasUnresolved, HasToken, ExpireDue;
  }

  /** After a good launch the customer can complete the session in time. */
  lemma GoodLaunchesCanBeCompleted(rules: FlowRules, w: World, id: nat, inbound: Inbound, response: Json, version: nat, now: int)
    requires Inv(rules, w) && id < |w.sessions| && w.sessions[id].status == Prepared
    requires w.sessions[id].launchMessage.Some? && now < w.sessions[id].expiresAt
    requires inbound.conversation == w.sessions[id].conversation && inbound.eventKey.Some?
    requires IsNewEvidence(w.sessions, inbound)
    ensures var launched := Step(rules, w, Launch(w.sessions[id].launchMessage.value, false));
            var a := Complete(inbound, w.sessions[id].token, response, true, Automation, version, version, now);
            Inv(rules, launched) && id < |launched.sessions| && Becomes(rules, launched, a, id, Completed)
  {
    var message := w.sessions[id].launchMessage.value;
    var launched := Step(rules, w, Launch(message, false));
    var a := Complete(inbound, w.sessions[id].token, response, true, Automation, version, version, now);
    SimpleStepsChangeStatusOnly(rules, w, Launch(message, false));
    StatusChangeKeepsInv(rules, w, launched.sessions);
    assert launched.sessions[id] == w.sessions[id].(status := Offered);
    forall i | 0 <= i < |launched.sessions| && launched.sessions[i].completion.Some?
      ensures launched.sessions[i].completion == w.sessions[i].completion
    {
    }
    assert MayComplete(launched.sessions, id, a);
    hide Step, Inv, Becomes;
    CompletionsHaveThisCause(rules, launched, a, id);
  }

  // ---- processing ----------------------------------------------------------------------------

  /** Without authority nothing is read or written. */
  lemma ProcessingNeedsAuthority(rules: FlowRules, id: nat, s: Session, quotes: Quotes, newId: string)
    ensures var p := Process(rules, id, s, quotes, false, newId);
            p.session == s && p.quotes == quotes && p.reply == Err(AuthorityMoved)
  {
    hide Service.SubmitQuote;
  }

  /** Answers that map to no Quote are handed to a human with the reason of the mapping; the Quotes stay. */
  lemma UnmappableAnswersGoToReview(rules: FlowRules, w: World, id: nat, newId: string)
    requires Inv(rules, w) && id < |w.sessions| && w.sessions[id].completion.Some?
    requires rules.mapping(w.sessions[id].completion.value.response).MapReview?
    requires w.sessions[id].reviewReason.None?
    ensures var reason := rules.mapping(w.sessions[id].completion.value.response).reason;
            var p := Process(rules, id, w.sessions[id], w.quotes, true, newId);
            p.session == w.sessions[id].(reviewReason := Some(reason)) && p.quotes == w.quotes &&
            p.reply == Ok(ToHumanReview(reason, false))
  {
    assert SessionSound(rules, id, w.sessions[id], w.quotes);
    hide QuotesSound, MadeSound, ActiveSound, AllSound, Service.SubmitQuote;
  }

  /** Answers that map to a draft become one new Quote under the key of the session, holding the record of that draft. */
  lemma MappedAnswersBecomeAQuote(rules: FlowRules, w: World, id: nat, newId: string)
    requires Inv(rules, w) && id < |w.sessions| && w.sessions[id].completion.Some?
    requires rules.mapping(w.sessions[id].completion.value.response).MapReady?
    requires w.sessions[id].quoteId.None? && !Service.HasQuote(w.quotes, newId)
    requires rules.key(id, w.sessions[id].completion.value.fingerprint) !in w.quotes
    ensures var completion := w.sessions[id].completion.value;
            var key := rules.key(id, completion.fingerprint);
            var record := rules.structured(id, completion, rules.mapping(completion.response).draft);
            var p := Process(rules, id, w.sessions[id], w.quotes, true, newId);
            p.session == w.sessions[id].(submissionKey := Some(key), quoteId := Some(newId)) &&
            p.quotes == w.quotes[key := Protocol.Quote(newId, [Protocol.Revision(Protocol.CustomerSubmission, record)])] &&
            p.reply == Ok(ToQuote(newId, false))
  {
    assert SessionSound(rules, id, w.sessions[id], w.quotes);
    hide QuotesSound, MadeSound, ActiveSound, AllSound, Protocol.FromCustomer;
  }

  /** What has been settled is answered again as it was. */
  lemma SettledSessionsAreReplayed(rules: FlowRules, w: World, id: nat, newId: string)
    requires Inv(rules, w) && id < |w.sessions|
    ensures var s := w.sessions[id];
            var p := Process(rules, id, s, w.quotes, true, newId);
            (s.quoteId.Some? ==> p == Processed(s, w.quotes, Ok(ToQuote(s.quoteId.value, true)))) &&
            (s.reviewReason.Some? ==> p == Processed(s, w.quotes, Ok(ToHumanReview(s.reviewReason.value, true)))) &&
            (s.completion.None? ==> p == Processed(s, w.quotes, Err(NotCompleted)))
  {
    var s := w.sessions[id];
    assert SessionSound(rules, id, s, w.quotes);
    if s.quoteId.Some? {
      assert Service.HasQuote(w.quotes, s.quoteId.value) by { assert w.quotes[s.submissionKey.value].id == s.quoteId.value; }
    }
    hide QuotesSound, MadeSound, ActiveSound, AllSound, Service.SubmitQuote, Service.HasQuote;
  }
}
