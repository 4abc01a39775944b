/**
 Every run of offers, completions, expiries, fallbacks and processing, with
 outer transactions that lose their commit after the Quote was created.
 */
module FlowSessionRuns {
  import opened Prelude
  import opened Json
  import opened FlowSessions
  import opened ConversationStore
  import Protocol = SubmissionProtocol
  import Service = SubmissionService

  /** A Quote created for a session; the record never shrinks. */
  datatype Made = Made(session: nat, quoteId: string)

  datatype World = World(sessions: Sessions, quotes: Quotes, made: seq<Made>)

  datatype Action =
    | Offer(conversation: string, artifact: string, token: string, now: int)
    | Bind(id: nat, message: string)
    | Mark(id: nat)
    | Launch(message: string, failed: bool)
    | FallBack(conversation: string)
    | Expire(conversation: string, now: int)
    | Complete(inbound: Inbound, token: string, response: Json, matching: bool, control: Control, version: nat,
               observed: nat, now: int)
    | Work(id: nat, authorised: bool, newId: string, commits: bool)
    | Elsewhere(key: string, quote: Protocol.Quote)
    | Revise(key: string, structured: Json)

  /** A key this path derives from some session and fingerprint. */
  ghost predicate IsFlowKey(rules: FlowRules, key: string) {
    exists i, f :: rules.key(i, f) == key
  }

  ghost function Step(rules: FlowRules, w: World, a: Action): World {
    match a
    case Offer(conversation, artifact, token, now) =>
      (match Prepare(w.sessions, conversation, artifact, token, now)
       case Err(_) => w
       case Ok(done) => w.(sessions := done.0))
    case Bind(id, message) => w.(sessions := BindLaunch(w.sessions, id, message))
    case Mark(id) => w.(sessions := MarkOffered(w.sessions, id))
    case Launch(message, failed) => w.(sessions := ReconcileLaunch(w.sessions, message, failed))
    case FallBack(conversation) => w.(sessions := EnterFallback(w.sessions, conversation))
    case Expire(conversation, now) => w.(sessions := ExpireDue(w.sessions, conversation, now))
    case Complete(inbound, token, response, matching, control, version, observed, now) =>
      (match CaptureCompletion(rules, w.sessions, inbound, token, response, matching, control, version, observed, now)
       case Err(_) => w
       case Ok(done) => w.(sessions := done.0))
    case Work(id, authorised, newId, commits) =>
      if id >= |w.sessions| || Service.HasQuote(w.quotes, newId) then w
      else
        var p := Process(rules, id, w.sessions[id], w.quotes, authorised, newId);
        World(w.sessions[id := Stored(w.sessions[id], p, commits)], p.quotes,
              if p.quotes == w.quotes then w.made else w.made + [Made(id, newId)])
    case Elsewhere(key, quote) =>
      if key in w.quotes || IsFlowKey(rules, key) || Service.HasQuote(w.quotes, quote.id) then w
      else w.(quotes := w.quotes[key := quote])
    case Revise(key, structured) =>
      if key !in w.quotes then w
      else
        var q := w.quotes[key];
        w.(quotes := w.quotes[key := q.(revisions := q.revisions + [Protocol.Revision(Protocol.AdminRevision, structured)])])
  }

  ghost function Run(rules: FlowRules, w: World, actions: seq<Action>): World
    decreases |actions|
  {
    if actions == [] then w else Run(rules, Step(rules, w, actions[0]), actions[1..])
  }

  // ---- the invariant -------------------------------------------------------------------------

  /** At most one prepared or offered session per conversation, and tokens are unique. */
  predicate ActiveSound(sessions: Sessions) {
    (forall i, j | 0 <= i < j < |sessions| && sessions[i].conversation == sessions[j].conversation ::
       !(IsUnresolved(sessions[i]) && IsUnresolved(sessions[j]))) &&
    (forall i, j | 0 <= i < j < |sessions| :: sessions[i].token != sessions[j].token)
  }

  /** What a session's own columns say, and its link to the Quote table. */
  predicate SessionSound(rules: FlowRules, id: nat, s: Session, quotes: Quotes) {
    (s.completion.Some? <==> s.status == Completed) &&
    (s.completion.Some? ==> s.completion.value.at < s.expiresAt) &&
    (s.submissionKey.Some? ==> s.completion.Some? && s.submissionKey.value == rules.key(id, s.completion.value.fingerprint)) &&
    (s.quoteId.Some? ==>
       s.submissionKey.Some? && s.submissionKey.value in quotes && quotes[s.submissionKey.value].id == s.quoteId.value) &&
    (s.reviewReason.Some? ==> s.completion.Some? && rules.mapping(s.completion.value.response).MapReview?) &&
    (s.quoteId.Some? ==> rules.mapping(s.completion.value.response).MapReady?)
  }

  predicate AllSound(rules: FlowRules, sessions: Sessions, quotes: Quotes) {
    forall id: nat | id < |sessions| :: SessionSound(rules, id, sessions[id], quotes)
  }

  /** A flow key in the table belongs to a completed session and holds exactly its record. */
  ghost predicate QuoteOfSession(rules: FlowRules, sessions: Sessions, quotes: Quotes, i: nat, f: string) {
    rules.key(i, f) in quotes ==>
      i < |sessions| && sessions[i].completion.Some? &&
      var completion := sessions[i].completion.value;
      completion.fingerprint == f && rules.mapping(completion.response).MapReady? &&
      Protocol.FromCustomer(quotes[rules.key(i, f)].revisions)
        == [Protocol.Revision(Protocol.CustomerSubmission,
                              DueOf(rules, i, completion, rules.mapping(completion.response).draft).structured)]
  }

  ghost predicate QuotesSound(rules: FlowRules, sessions: Sessions, quotes: Quotes) {
    forall i: nat, f: string :: QuoteOfSession(rules, sessions, quotes, i, f)
  }

  /** Each creation is for a session of its own, and its Quote is still there under the session's key. */
  predicate MadeSound(rules: FlowRules, w: World) {
    (forall k | 0 <= k < |w.made| ::
       w.made[k].session < |w.sessions| && w.sessions[w.made[k].session].completion.Some? &&
       var key := rules.key(w.made[k].session, w.sessions[w.made[k].session].completion.value.fingerprint);
       key in w.quotes && w.quotes[key].id == w.made[k].quoteId) &&
    (forall j, k | 0 <= j < k < |w.made| :: w.made[j].session != w.made[k].session)
  }

  ghost predicate Inv(rules: FlowRules, w: World) {
    ActiveSound(w.sessions) && AllSound(rules, w.sessions, w.quotes) && QuotesSound(rules, w.sessions, w.quotes) &&
    MadeSound(rules, w)
  }

  const EMPTY_WORLD := World([], map[], [])

  lemma EmptyHasInv(rules: FlowRules)
    ensures Inv(rules, EMPTY_WORLD)
  {
  }

  // ---- how one session may change ------------------------------------------------------------

  predicate IsTerminal(status: Status) {
    status != Prepared && status != Offered
  }

  /** What stays of a session for ever. */
  predicate Follows(s: Session, s': Session) {
    s'.conversation == s.conversation && s'.artifact == s.artifact && s'.token == s.token && s'.expiresAt == s.expiresAt &&
    (IsTerminal(s.status) ==> s'.status == s.status) &&
    (s.completion.Some? ==> s'.completion == s.completion) &&
    (s.submissionKey.Some? ==> s'.submissionKey == s.submissionKey) &&
    (s.quoteId.Some? ==> s'.quoteId == s.quoteId) &&
    (s.reviewReason.Some? ==> s'.reviewReason == s.reviewReason) &&
    (IsUnresolved(s') ==> IsUnresolved(s))
  }

  /** A change that is not a completion and not processing. */
  predicate OnlyStatus(s: Session, s': Session) {
    s' == s.(status := s'.status, launchMessage := s'.launchMessage) &&
    (s'.status == s.status || (IsUnresolved(s) && s'.status != Completed && (IsUnresolved(s') ==> s.status == Prepared)))
  }

  predicate EachOnlyStatus(sessions: Sessions, sessions': Sessions) {
    |sessions'| == |sessions| && forall i | 0 <= i < |sessions| :: OnlyStatus(sessions[i], sessions'[i])
  }

  lemma StatusChangeKeepsInv(rules: FlowRules, w: World, sessions: Sessions)
    requires Inv(rules, w) && EachOnlyStatus(w.sessions, sessions)
    ensures Inv(rules, w.(sessions := sessions))
  {
    assert forall i | 0 <= i < |sessions| :: OnlyStatus(w.sessions[i], sessions[i]);
    forall id: nat | id < |sessions|
      ensures SessionSound(rules, id, sessions[id], w.quotes)
    {
      assert SessionSound(rules, id, w.sessions[id], w.quotes);
    }
    forall i: nat, f: string
      ensures QuoteOfSession(rules, sessions, w.quotes, i, f)
    {
      assert QuoteOfSession(rules, w.sessions, w.quotes, i, f);
    }
  }

  lemma SimpleStepsChangeStatusOnly(rules: FlowRules, w: World, a: Action)
    requires a.Bind? || a.Mark? || a.Launch? || a.FallBack? || a.Expire?
    ensures Step(rules, w, a) == w.(sessions := Step(rules, w, a).sessions)
    ensures EachOnlyStatus(w.sessions, Step(rules, w, a).sessions)
  {
    hide HasLaunch;
  }

  // ---- offering ------------------------------------------------------------------------------

  lemma PrepareClearsThenAdds(sessions: Sessions, conversation: string, artifact: string, token: string, now: int)
    requires Prepare(sessions, conversation, artifact, token, now).Ok?
    ensures var (after, p) := Prepare(sessions, conversation, artifact, token, now).value;
            if p.reused then
              EachOnlyStatus(sessions, after) && p.session < |after| && after[p.session].status == Offered &&
              IsActive(after[p.session], conversation, artifact)
            else
              |after| == |sessions| + 1 && EachOnlyStatus(sessions, after[..|sessions|]) && p.session == |sessions| &&
              after[p.session] == Session(conversation, artifact, token, Prepared, now + TTL_MS, None, None, None, None, None) &&
              !HasUnresolved(after[..|sessions|], conversation) && !HasToken(after[..|sessions|], token)
  {
    hide NewestActive, HasUnresolved, HasToken;
    var due := ExpireDue(sessions, conversation, now);
    assert EachOnlyStatus(sessions, due);
    var (after, p) := Prepare(sessions, conversation, artifact, token, now).value;
    if !p.reused {
      var k := NewestActive(due, conversation, artifact);
      var cleared := if k < |due| then due[k := due[k].(status := Superseded)] else due;
      assert after[..|sessions|] == cleared;
    }
  }

  lemma NewSessionKeepsInv(rules: FlowRules, w: World, s: Session)
    requires Inv(rules, w) && s.status == Prepared && s.completion.None? && s.submissionKey.None? && s.quoteId.None?
    requires s.reviewReason.None? && !HasUnresolved(w.sessions, s.conversation) && !HasToken(w.sessions, s.token)
    ensures Inv(rules, w.(sessions := w.sessions + [s]))
  {
    var sessions := w.sessions + [s];
    forall id: nat | id < |sessions|
      ensures SessionSound(rules, id, sessions[id], w.quotes)
    {
      if id < |w.sessions| { assert SessionSound(rules, id, w.sessions[id], w.quotes); }
    }
    forall i: nat, f: string
      ensures QuoteOfSession(rules, sessions, w.quotes, i, f)
    {
      assert QuoteOfSession(rules, w.sessions, w.quotes, i, f);
    }
    hide SessionSound;
  }

  lemma OfferKeepsInv(rules: FlowRules, w: World, conversation: string, artifact: string, token: string, now: int)
    requires Inv(rules, w)
    ensures Inv(rules, Step(rules, w, Offer(conversation, artifact, token, now)))
  {
    hide Inv, Prepare, HasUnresolved, HasToken, EachOnlyStatus;
    if Prepare(w.sessions, conversation, artifact, token, now).Ok? {
      var (after, p) := Prepare(w.sessions, conversation, artifact, token, now).value;
      PrepareClearsThenAdds(w.sessions, conversation, artifact, token, now);
      if p.reused {
        StatusChangeKeepsInv(rules, w, after);
      } else {
        StatusChangeKeepsInv(rules, w, after[..|w.sessions|]);
        NewSessionKeepsInv(rules, w.(sessions := after[..|w.sessions|]), after[|w.sessions|]);
        assert after == after[..|w.sessions|] + [after[|w.sessions|]];
      }
    }
  }

  // ---- completing ----------------------------------------------------------------------------

  lemma CompletionKeepsInv(rules: FlowRules, w: World, k: nat, completion: Completion)
    requires Inv(rules, w) && k < |w.sessions| && w.sessions[k].status == Offered
    requires completion.at < w.sessions[k].expiresAt
    ensures Inv(rules, w.(sessions := w.sessions[k := w.sessions[k].(status := Completed, completion := Some(completion))]))
  {
    var sessions := w.sessions[k := w.sessions[k].(status := Completed, completion := Some(completion))];
    assert SessionSound(rules, k, w.sessions[k], w.quotes);
    forall id: nat | id < |sessions|
      ensures SessionSound(rules, id, sessions[id], w.quotes)
    {
      assert SessionSound(rules, id, w.sessions[id], w.quotes);
    }
    forall i: nat, f: string
      ensures QuoteOfSession(rules, sessions, w.quotes, i, f)
    {
      assert QuoteOfSession(rules, w.sessions, w.quotes, i, f);
    }
    hide SessionSound, QuoteOfSession;
  }

  lemma CompleteKeepsInv(rules: FlowRules, w: World, a: Action)
    requires Inv(rules, w) && a.Complete?
    ensures Inv(rules, Step(rules, w, a))
  {
    hide Inv, HasEvidence, FindToken;
    var r := CaptureCompletion(rules, w.sessions, a.inbound, a.token, a.response, a.matching, a.control, a.version, a.observed, a.now);
    if r.Ok? && !r.value.1.replay {
      var k := r.value.1.session;
      CompletionKeepsInv(rules, w, k, r.value.0[k].completion.value);
    }
  }

  // ---- processing ----------------------------------------------------------------------------

  /** What one call does to the Quotes: nothing, or one new Quote under the session's own key. */
  lemma ProcessEffects(rules: FlowRules, id: nat, s: Session, quotes: Quotes, authorised: bool, newId: string)
    requires SessionSound(rules, id, s, quotes)
    ensures var p := Process(rules, id, s, quotes, authorised, newId);
            (p.quotes == quotes ||
             (s.completion.Some? && rules.mapping(s.completion.value.response).MapReady? &&
              var due := DueOf(rules, id, s.completion.value, rules.mapping(s.completion.value.response).draft);
              due.key !in quotes && p.quotes == quotes[due.key :=
                Protocol.Quote(newId, [Protocol.Revision(Protocol.CustomerSubmission, due.structured)])])) &&
            (p.reply.Ok? ==> SessionSound(rules, id, p.session, p.quotes)) &&
            SessionSound(rules, id, s, p.quotes) &&
            p.session == s.(submissionKey := p.session.submissionKey, quoteId := p.session.quoteId,
                            reviewReason := p.session.reviewReason) &&
            Follows(s, p.session)
  {
    hide Service.HasQuote, Protocol.FromCustomer;
  }

  lemma OthersStaySound(rules: FlowRules, sessions: Sessions, id: nat, s: Session, quotes: Quotes, key: string, quote: Protocol.Quote)
    requires AllSound(rules, sessions, quotes) && key !in quotes && id < |sessions|
    requires SessionSound(rules, id, s, quotes[key := quote])
    ensures AllSound(rules, sessions[id := s], quotes[key := quote])
  {
    var after, quotes' := sessions[id := s], quotes[key := quote];
    forall i: nat | i < |sessions|
      ensures SessionSound(rules, i, after[i], quotes')
    {
      assert SessionSound(rules, i, sessions[i], quotes);
    }
  }

  lemma SameQuotesStaySound(rules: FlowRules, sessions: Sessions, id: nat, s: Session, quotes: Quotes)
    requires AllSound(rules, sessions, quotes) && id < |sessions| && SessionSound(rules, id, s, quotes)
    ensures AllSound(rules, sessions[id := s], quotes)
  {
    hide SessionSound;
  }

  lemma RewritingKeepsQuotesSound(rules: FlowRules, sessions: Sessions, quotes: Quotes, id: nat, s: Session)
    requires QuotesSound(rules, sessions, quotes) && id < |sessions| && s.completion == sessions[id].completion
    ensures QuotesSound(rules, sessions[id := s], quotes)
  {
    var after := sessions[id := s];
    forall i: nat, f: string
      ensures QuoteOfSession(rules, after, quotes, i, f)
    {
      assert QuoteOfSession(rules, sessions, quotes, i, f);
    }
  }

  lemma NewQuoteKeepsQuotesSound(rules: FlowRules, sessions: Sessions, quotes: Quotes, id: nat, quote: Protocol.Quote)
    requires Lawful(rules) && QuotesSound(rules, sessions, quotes) && id < |sessions| && sessions[id].completion.Some?
    requires rules.mapping(sessions[id].completion.value.response).MapReady?
    requires var due := DueOf(rules, id, sessions[id].completion.value, rules.mapping(sessions[id].completion.value.response).draft);
             due.key !in quotes && quote.revisions == [Protocol.Revision(Protocol.CustomerSubmission, due.structured)]
    ensures QuotesSound(rules, sessions, quotes[rules.key(id, sessions[id].completion.value.fingerprint) := quote])
  {
    var key := rules.key(id, sessions[id].completion.value.fingerprint);
    assert Protocol.FromCustomer(quote.revisions) == quote.revisions by {
      assert quote.revisions[1..] == [];
    }
    var quotes' := quotes[key := quote];
    forall i: nat, f: string
      ensures QuoteOfSession(rules, sessions, quotes', i, f)
    {
      assert QuoteOfSession(rules, sessions, quotes, i, f);
      if rules.key(i, f) == key { assert i == id && f == sessions[id].completion.value.fingerprint; }
    }
  }

  lemma WorkKeepsInv(rules: FlowRules, w: World, id: nat, authorised: bool, newId: string, commits: bool)
    requires Lawful(rules) && Inv(rules, w)
    ensures Inv(rules, Step(rules, w, Work(id, authorised, newId, commits)))
  {
    if id < |w.sessions| && !Service.HasQuote(w.quotes, newId) {
      assert SessionSound(rules, id, w.sessions[id], w.quotes);
      var p := Process(rules, id, w.sessions[id], w.quotes, authorised, newId);
      ProcessEffects(rules, id, w.sessions[id], w.quotes, authorised, newId);
      hide Process, SessionSound, QuotesSound, Lawful, Service.HasQuote;
      var s := Stored(w.sessions[id], p, commits);
      RewritingKeepsQuotesSound(rules, w.sessions, w.quotes, id, s);
      if p.quotes == w.quotes {
        SameQuotesStaySound(rules, w.sessions, id, s, w.quotes);
      } else {
        var due := DueOf(rules, id, s.completion.value, rules.mapping(s.completion.value.response).draft);
        OthersStaySound(rules, w.sessions, id, s, w.quotes, due.key, p.quotes[due.key]);
        NewQuoteKeepsQuotesSound(rules, w.sessions[id := s], w.quotes, id, p.quotes[due.key]);
      }
      hide AllSound, Stored;
      MadeStaysSound(rules, w, id, s, p.quotes, newId);
    }
  }

  lemma MadeStaysSound(rules: FlowRules, w: World, id: nat, s: Session, quotes: Quotes, newId: string)
    requires MadeSound(rules, w) && id < |w.sessions| && s.completion == w.sessions[id].completion
    requires quotes == w.quotes ||
             (s.completion.Some? && var key := rules.key(id, s.completion.value.fingerprint);
              key !in w.quotes && key in quotes && quotes == w.quotes[key := quotes[key]] && quotes[key].id == newId)
    ensures MadeSound(rules, World(w.sessions[id := s], quotes, if quotes == w.quotes then w.made else w.made + [Made(id, newId)]))
  {
  }

  // ---- other Quotes --------------------------------------------------------------------------

  lemma ElsewhereKeepsInv(rules: FlowRules, w: World, key: string, quote: Protocol.Quote)
    requires Inv(rules, w)
    ensures Inv(rules, Step(rules, w, Elsewhere(key, quote)))
  {
    hide Service.HasQuote;
    if key !in w.quotes && !IsFlowKey(rules, key) {
      var quotes := w.quotes[key := quote];
      forall id: nat | id < |w.sessions|
        ensures SessionSound(rules, id, w.sessions[id], quotes)
      {
        assert SessionSound(rules, id, w.sessions[id], w.quotes);
      }
      forall i: nat, f: string
        ensures QuoteOfSession(rules, w.sessions, quotes, i, f)
      {
        assert QuoteOfSession(rules, w.sessions, w.quotes, i, f);
      }
    }
  }

  lemma ReviseKeepsInv(rules: FlowRules, w: World, key: string, structured: Json)
    requires Inv(rules, w)
    ensures Inv(rules, Step(rules, w, Revise(key, structured)))
  {
    if key in w.quotes {
      var quotes := Step(rules, w, Revise(key, structured)).quotes;
      Protocol.RevisingKeepsCustomerRevisions(w.quotes[key].revisions, structured);
      forall id: nat | id < |w.sessions|
        ensures SessionSound(rules, id, w.sessions[id], quotes)
      {
        assert SessionSound(rules, id, w.sessions[id], w.quotes);
      }
      forall i: nat, f: string
        ensures QuoteOfSession(rules, w.sessions, quotes, i, f)
      {
        assert QuoteOfSession(rules, w.sessions, w.quotes, i, f);
      }
      hide Protocol.FromCustomer;
    }
  }

  lemma StepKeepsInv(rules: FlowRules, w: World, a: Action)
    requires Lawful(rules) && Inv(rules, w)
    ensures Inv(rules, Step(rules, w, a))
  {
    hide Inv, Lawful, Step, EachOnlyStatus;
    match a
    case Offer(conversation, artifact, token, now) => OfferKeepsInv(rules, w, conversation, artifact, token, now);
    case Complete(_, _, _, _, _, _, _, _) => CompleteKeepsInv(rules, w, a);
    case Work(id, authorised, newId, commits) => WorkKeepsInv(rules, w, id, authorised, newId, commits);
    case Elsewhere(key, quote) => ElsewhereKeepsInv(rules, w, key, quote);
    case Revise(key, structured) => ReviseKeepsInv(rules, w, key, structured);
    case _ =>
      SimpleStepsChangeStatusOnly(rules, w, a);
      StatusChangeKeepsInv(rules, w, Step(rules, w, a).sessions);
  }

  lemma {:induction false} RunKeepsInv(rules: FlowRules, w: World, actions: seq<Action>)
    requires Lawful(rules) && Inv(rules, w)
    ensures Inv(rules, Run(rules, w, actions))
    decreases |actions|
  {
    if actions != [] {
      StepKeepsInv(rules, w, actions[0]);
      hide Inv, Step, Lawful;
      RunKeepsInv(rules, Step(rules, w, actions[0]), actions[1..]);
    }
  }

  // ---- what every run guarantees -------------------------------------------------------------

  /** What a later world keeps of an earlier one. */
  predicate Keeps(w: World, w': World) {
    |w.sessions| <= |w'.sessions| && (forall i | 0 <= i < |w.sessions| :: Follows(w.sessions[i], w'.sessions[i])) &&
    (forall key | key in w.quotes :: key in w'.quotes && w'.quotes[key].id == w.quotes[key].id) && w.made <= w'.made
  }

  lemma OnlyStatusFollows(s: Session, s': Session)
    requires OnlyStatus(s, s') && (s.completion.Some? <==> s.status == Completed)
    ensures Follows(s, s')
  {
  }

  lemma EachFollows(rules: FlowRules, w: World, sessions: Sessions)
    requires AllSound(rules, w.sessions, w.quotes) && EachOnlyStatus(w.sessions, sessions)
    ensures Keeps(w, w.(sessions := sessions))
  {
    forall i | 0 <= i < |w.sessions|
      ensures Follows(w.sessions[i], sessions[i])
    {
      assert SessionSound(rules, i, w.sessions[i], w.quotes) && OnlyStatus(w.sessions[i], sessions[i]);
      OnlyStatusFollows(w.sessions[i], sessions[i]);
    }
    hide Follows;
  }

  lemma KeepsItself(w: World)
    ensures Keeps(w, w)
  {
  }

  lemma KeepsIsTransitive(a: World, b: World, c: World)
    requires Keeps(a, b) && Keeps(b, c)
    ensures Keeps(a, c)
  {
    forall i | 0 <= i < |a.sessions|
      ensures Follows(a.sessions[i], c.sessions[i])
    {
      assert Follows(a.sessions[i], b.sessions[i]) && Follows(b.sessions[i], c.sessions[i]);
    }
    hide Follows;
  }

  /** The four terminal statuses absorb, completions never change, links and reasons once set stay. */
  lemma StepKeeps(rules: FlowRules, w: World, a: Action)
    requires Inv(rules, w)
    ensures Keeps(w, Step(rules, w, a))
  {
    KeepsItself(w);
    match a
    case Offer(conversation, artifact, token, now) =>
      hide Prepare, HasUnresolved, HasToken, EachOnlyStatus, QuotesSound, MadeSound, ActiveSound, AllSound;
      if Prepare(w.sessions, conversation, artifact, token, now).Ok? {
        var (after, p) := Prepare(w.sessions, conversation, artifact, token, now).value;
        PrepareClearsThenAdds(w.sessions, conversation, artifact, token, now);
        EachFollows(rules, w, if p.reused then after else after[..|w.sessions|]);
        hide Follows;
      }
    case Complete(_, _, _, _, _, _, _, _) =>
      hide QuotesSound, MadeSound, ActiveSound, HasEvidence, FindToken;
      CompletionFollows(rules, w, a);
      hide AllSound, Follows;
    case Work(id, authorised, newId, commits) =>
      hide QuotesSound, MadeSound, ActiveSound, Service.HasQuote;
      if id < |w.sessions| && !Service.HasQuote(w.quotes, newId) {
        assert SessionSound(rules, id, w.sessions[id], w.quotes);
        ProcessEffects(rules, id, w.sessions[id], w.quotes, authorised, newId);
        hide Process, SessionSound, Follows, AllSound;
        assert forall i | 0 <= i < |w.sessions| :: Follows(w.sessions[i], w.sessions[i]);
      }
    case Elsewhere(key, quote) => hide Inv;
    case Revise(key, structured) => hide Inv;
    case _ =>
      SimpleStepsChangeStatusOnly(rules, w, a);
      EachFollows(rules, w, Step(rules, w, a).sessions);
      hide Step, Keeps, Inv;
  }

  lemma CompletionFollows(rules: FlowRules, w: World, a: Action)
    requires AllSound(rules, w.sessions, w.quotes) && a.Complete?
    ensures |Step(rules, w, a).sessions| == |w.sessions|
    ensures forall i | 0 <= i < |w.sessions| :: Follows(w.sessions[i], Step(rules, w, a).sessions[i])
  {
    hide HasEvidence, FindToken;
    var after := Step(rules, w, a).sessions;
    forall i | 0 <= i < |w.sessions|
      ensures Follows(w.sessions[i], after[i])
    {
      assert SessionSound(rules, i, w.sessions[i], w.quotes);
    }
  }

  lemma {:induction false} RunKeeps(rules: FlowRules, w: World, actions: seq<Action>)
    requires Lawful(rules) && Inv(rules, w)
    ensures Keeps(w, Run(rules, w, actions))
    decreases |actions|
  {
    KeepsItself(w);
    if actions != [] {
      var w1 := Step(rules, w, actions[0]);
      StepKeepsInv(rules, w, actions[0]);
      StepKeeps(rules, w, actions[0]);
      hide Inv, Step, Lawful, Keeps;
      RunKeeps(rules, w1, actions[1..]);
      KeepsIsTransitive(w, w1, Run(rules, w1, actions[1..]));
    }
  }

  /** A session makes at most one Quote in any run, whatever its outer transactions lost, and links to no other. */
  lemma AtMostOneQuotePerSession(rules: FlowRules, w: World, id: nat)
    requires Inv(rules, w) && id < |w.sessions|
    ensures forall j, k | 0 <= j < |w.made| && 0 <= k < |w.made| && w.made[j].session == id == w.made[k].session :: j == k
    ensures w.sessions[id].quoteId.Some? ==>
              forall k | 0 <= k < |w.made| && w.made[k].session == id :: w.made[k].quoteId == w.sessions[id].quoteId.value
    ensures !(w.sessions[id].quoteId.Some? && w.sessions[id].reviewReason.Some?)
  {
    assert SessionSound(rules, id, w.sessions[id], w.quotes);
    hide QuotesSound, ActiveSound, AllSound;
  }

  /** So in every run from the empty table, with lawful rules, whatever is offered, completed, lost and retried. */
  lemma EveryRunIsExactlyOnce(rules: FlowRules, actions: seq<Action>, id: nat)
    requires Lawful(rules) && id < |Run(rules, EMPTY_WORLD, actions).sessions|
    ensures var w := Run(rules, EMPTY_WORLD, actions);
            var s := w.sessions[id];
            (forall j, k | 0 <= j < |w.made| && 0 <= k < |w.made| && w.made[j].session == id == w.made[k].session :: j == k)
            && (s.quoteId.Some? ==>
                  forall k | 0 <= k < |w.made| && w.made[k].session == id :: w.made[k].quoteId == s.quoteId.value)
            && !(s.quoteId.Some? && s.reviewReason.Some?)
  {
    EmptyHasInv(rules);
    RunKeepsInv(rules, EMPTY_WORLD, actions);
    hide Run, Inv;
    AtMostOneQuotePerSession(rules, Run(rules, EMPTY_WORLD, actions), id);
  }

  /** A Quote whose link was lost is found again: the next authorised call replays it and links the same Quote. */
  lemma LostCommitIsRecovered(rules: FlowRules, w: World, id: nat, newId: string)
    requires Lawful(rules) && Inv(rules, w) && id < |w.sessions| && w.sessions[id].completion.Some?
    requires w.sessions[id].quoteId.None? && w.sessions[id].reviewReason.None?
    requires rules.key(id, w.sessions[id].completion.value.fingerprint) in w.quotes
    ensures var p := Process(rules, id, w.sessions[id], w.quotes, true, newId);
            var quoteId := w.quotes[rules.key(id, w.sessions[id].completion.value.fingerprint)].id;
            p.quotes == w.quotes && p.reply == Ok(ToQuote(quoteId, true)) && p.session.quoteId == Some(quoteId)
  {
    var s := w.sessions[id];
    var f := s.completion.value.fingerprint;
    assert SessionSound(rules, id, s, w.quotes);
    assert QuoteOfSession(rules, w.sessions, w.quotes, id, f);
    hide QuotesSound, MadeSound, ActiveSound, AllSound, Protocol.FromCustomer;
  }

  /** Processing a completed session under authority always settles it: a Quote or a human review, never a conflict. */
  lemma CompletedSessionsSettle(rules: FlowRules, w: World, id: nat, newId: string)
    requires Lawful(rules) && Inv(rules, w) && id < |w.sessions| && w.sessions[id].completion.Some?
    requires !Service.HasQuote(w.quotes, newId)
    ensures var p := Process(rules, id, w.sessions[id], w.quotes, true, newId);
            p.reply.Ok? && (p.session.quoteId.Some? <==> rules.mapping(w.sessions[id].completion.value.response).MapReady?)
            && (p.session.reviewReason.Some? <==> rules.mapping(w.sessions[id].completion.value.response).MapReview?)
  {
    var s := w.sessions[id];
    var f := s.completion.value.fingerprint;
    assert SessionSound(rules, id, s, w.quotes);
    assert QuoteOfSession(rules, w.sessions, w.quotes, id, f);
    if s.quoteId.Some? {
      assert Service.HasQuote(w.quotes, s.quoteId.value) by { assert w.quotes[s.submissionKey.value].id == s.quoteId.value; }
    }
    hide QuotesSound, MadeSound, ActiveSound, AllSound, Protocol.FromCustomer, Service.HasQuote;
  }

  /** One offer at a time: whoever asks, a second unresolved session of the conversation never exists. */
  lemma OneOfferAtATime(rules: FlowRules, w: World, i: nat, j: nat)
    requires Inv(rules, w) && i < |w.sessions| && j < |w.sessions| && IsUnresolved(w.sessions[i]) && IsUnresolved(w.sessions[j])
    requires w.sessions[i].conversation == w.sessions[j].conversation
    ensures i == j
  {
    hide AllSound, QuotesSound, MadeSound, IsUnresolved;
  }

  /** Completing again is a replay for the same fingerprint and refused for any other; neither changes anything. */
  lemma CompletionReplays(rules: FlowRules, sessions: Sessions, inbound: Inbound, token: string, response: Json,
                          control: Control, version: nat, observed: nat, now: int, again: Inbound, response': Json,
                          later: int)
    requires var r := CaptureCompletion(rules, sessions, inbound, token, response, true, control, version, observed, now);
             r.Ok? && !r.value.1.replay
    requires again.eventKey.Some? && again.conversation == inbound.conversation
    ensures var (completed, captured) :=
              CaptureCompletion(rules, sessions, inbound, token, response, true, control, version, observed, now).value;
            CaptureCompletion(rules, completed, again, token, response', true, control, version, observed, later)
              == if captured.session < |sessions| &&
                    rules.fingerprint(token, sessions[captured.session].artifact, response')
                      == rules.fingerprint(token, sessions[captured.session].artifact, response)
                 then Ok((completed, Captured(captured.session, true))) else Err(DifferentCompletion)
  {
    var (completed, captured) :=
      CaptureCompletion(rules, sessions, inbound, token, response, true, control, version, observed, now).value;
    var k := captured.session;
    assert k == FindToken(sessions, token);
    assert FindToken(completed, token) == k by { TokenStaysFound(sessions, completed, token); }
    hide FindToken, HasEvidence;
  }

  lemma {:induction false} TokenStaysFound(sessions: Sessions, sessions': Sessions, token: string)
    requires |sessions'| == |sessions| && forall i | 0 <= i < |sessions| :: sessions'[i].token == sessions[i].token
    ensures FindToken(sessions', token) == FindToken(sessions, token)
    decreases |sessions|
  {
    if sessions != [] && sessions[0].token != token {
      TokenStaysFound(sessions[1..], sessions'[1..], token);
    }
  }

  /** A late completion is refused and leaves no trace: the EXPIRED write before the throw is rolled back. */
  lemma LateCompletionsLeaveNoTrace(rules: FlowRules, w: World, a: Action)
    requires Inv(rules, w) && a.Complete? && FindToken(w.sessions, a.token) < |w.sessions|
    requires w.sessions[FindToken(w.sessions, a.token)].status == Offered
    requires w.sessions[FindToken(w.sessions, a.token)].expiresAt <= a.now
    ensures Step(rules, w, a) == w
  {
    hide HasEvidence, FindToken, Inv;
  }

  /**
   The inbound path expires what is due in a transaction of its own before it captures, so there a session that was
   already late stays EXPIRED and its completion is refused.
   */
  lemma InboundLateCompletionsExpire(rules: FlowRules, w: World, a: Action, earlier: int)
    requires Inv(rules, w) && a.Complete? && FindToken(w.sessions, a.token) < |w.sessions|
    requires var s := w.sessions[FindToken(w.sessions, a.token)];
             s.status == Offered && s.conversation == a.inbound.conversation && s.expiresAt <= earlier
    ensures var expired := Step(rules, w, Expire(a.inbound.conversation, earlier));
            FindToken(w.sessions, a.token) < |expired.sessions| &&
            expired.sessions[FindToken(w.sessions, a.token)].status == Expired && Step(rules, expired, a) == expired
  {
    var expired := Step(rules, w, Expire(a.inbound.conversation, earlier));
    TokenStaysFound(w.sessions, expired.sessions, a.token);
    hide HasEvidence, FindToken, Inv;
  }

  // ---- the path is not idle ------------------------------------------------------------------

  /** Offer a session, mark it offered, complete it, and process the completion. */
  function Journey(conversation: string, artifact: string, token: string, inbound: Inbound, response: Json, version: nat,
                   now: int, newId: string): seq<Action> {
    [Offer(conversation, artifact, token, now), Mark(0),
     Complete(inbound, token, response, true, Automation, version, version, now), Work(0, true, newId, true)]
  }

  lemma RunFirst(rules: FlowRules, w: World, a: Action, rest: seq<Action>)
    ensures Run(rules, w, [a] + rest) == Run(rules, Step(rules, w, a), rest)
    ensures Run(rules, w, []) == w
  {
    hide Step;
    assert ([a] + rest)[1..] == rest;
  }

  lemma RunOfFour(rules: FlowRules, w: World, a: Action, b: Action, c: Action, d: Action)
    ensures Run(rules, w, [a, b, c, d]) == Step(rules, Step(rules, Step(rules, Step(rules, w, a), b), c), d)
  {
    hide Step;
    var w1 := Step(rules, w, a);
    var w2 := Step(rules, w1, b);
    assert [a] + [b, c, d] == [a, b, c, d] && [b] + [c, d] == [b, c, d] && [c] + [d] == [c, d];
    RunFirst(rules, w, a, [b, c, d]);
    RunFirst(rules, w1, b, [c, d]);
    RunFirst(rules, w2, c, [d]);
    RunFirst(rules, Step(rules, w2, c), d, []);
    assert [d] + [] == [d];
  }

  lemma OfferedAndCompleted(rules: FlowRules, conversation: string, artifact: string, token: string, inbound: Inbound,
                            response: Json, version: nat, now: int)
    requires inbound.conversation == conversation && inbound.eventKey.Some?
    ensures var offered := Step(rules, Step(rules, EMPTY_WORLD, Offer(conversation, artifact, token, now)), Mark(0));
            var completion := Completion(now, inbound.messageId, inbound.eventKey.value,
                                         rules.fingerprint(token, artifact, response), response);
            Step(rules, offered, Complete(inbound, token, response, true, Automation, version, version, now))
              == World([Session(conversation, artifact, token, Completed, now + TTL_MS, None, Some(completion), None,
                                None, None)], map[], [])
  {
    var none: Sessions := [];
    assert ExpireDue(none, conversation, now) == none;
    var first := Session(conversation, artifact, token, Prepared, now + TTL_MS, None, None, None, None, None);
    assert Step(rules, EMPTY_WORLD, Offer(conversation, artifact, token, now)) == World([first], map[], []);
    assert Step(rules, World([first], map[], []), Mark(0)) == World([first.(status := Offered)], map[], []);
  }

  /** From nothing, an offer that is completed with mappable answers becomes its one Quote, linked. */
  lemma OffersCanBecomeQuotes(rules: FlowRules, conversation: string, artifact: string, token: string, inbound: Inbound,
                              response: Json, version: nat, now: int, newId: string)
    requires inbound.conversation == conversation && inbound.eventKey.Some? && rules.mapping(response).MapReady?
    ensures var end := Run(rules, EMPTY_WORLD,
                           Journey(conversation, artifact, token, inbound, response, version, now, newId));
            |end.sessions| == 1 && end.sessions[0].status == Completed && end.sessions[0].quoteId == Some(newId) &&
            end.made == [Made(0, newId)] &&
            end.quotes.Keys == {rules.key(0, rules.fingerprint(token, artifact, response))}
  {
    OfferedAndCompleted(rules, conversation, artifact, token, inbound, response, version, now);
    RunOfFour(rules, EMPTY_WORLD, Offer(conversation, artifact, token, now), Mark(0),
              Complete(inbound, token, response, true, Automation, version, version, now), Work(0, true, newId, true));
    hide Run, Prepare, MarkOffered, CaptureCompletion;
  }
}
