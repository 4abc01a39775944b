/**
 The guided submission protocol as a state machine: any number of workers
 reserve, create and link, each step one transaction, with crashes, takeovers,
 other requests and Admin revisions in between.
 (apps/api/src/messaging/messaging-quote-submission.service.ts,
 messaging-quote-replay-resolution.ts, messaging-quote-live-orchestrator.service.ts,
 apps/api/src/quotes/quote-submission.service.ts)
 */
module SubmissionProtocol {
  import opened Prelude
  import opened Json
  import opened QuoteState
  import opened SubmissionInput
  import opened ConversationStore
  import Text

  // ---- the Quote table, as far as submission sees it -----------------------------------------

  datatype Origin = CustomerSubmission | AdminRevision

  datatype Revision = Revision(origin: Origin, structured: Json)

  datatype Quote = Quote(id: string, revisions: seq<Revision>)

  /** Quotes by submission key, which is unique. */
  type Quotes = map<string, Quote>

  datatype Replay = New | SameSubmission(quoteId: string) | DifferentSubmission | CorruptExisting

  function FromCustomer(revisions: seq<Revision>): seq<Revision> {
    if revisions == [] then []
    else (if revisions[0].origin == CustomerSubmission then [revisions[0]] else []) + FromCustomer(revisions[1..])
  }

  /** `resolveMessagingQuoteReplay`; equal fingerprints are equal values because digests do not collide. */
  function ResolveReplay(quotes: Quotes, due: Due): Replay {
    if due.key !in quotes then New
    else
      var own := FromCustomer(quotes[due.key].revisions);
      if |own| != 1 then CorruptExisting
      else if own[0].structured == due.structured then SameSubmission(quotes[due.key].id)
      else DifferentSubmission
  }

  lemma {:induction false} RevisingKeepsCustomerRevisions(revisions: seq<Revision>, structured: Json)
    ensures FromCustomer(revisions + [Revision(AdminRevision, structured)]) == FromCustomer(revisions)
  {
    var added := [Revision(AdminRevision, structured)];
    if revisions == [] {
      assert revisions + added == added;
    } else {
      assert (revisions + added)[1..] == revisions[1..] + added;
      RevisingKeepsCustomerRevisions(revisions[1..], structured);
    }
  }

  // ---- workers and the world -----------------------------------------------------------------

  /** An outbound summary message, stored under the state version its key names. */
  datatype Message = Message(id: string, text: string)

  /** Where one request stands between two of its transactions, with its local variables. */
  datatype Worker =
    | Summarising(version: nat, observed: Option<nat>, draft: Fields)
    | Summarised(version: nat, observed: Option<nat>, messageId: string)
    | Loaded(version: nat, observed: Option<nat>, due: Due)
    | Reserved(version: nat, observed: Option<nat>, due: Due)
    | Unclaimed(version: nat, observed: Option<nat>, due: Due)
    | Collided(version: nat, observed: Option<nat>, due: Due)
    | Holding(version: nat, observed: Option<nat>, due: Due, quoteId: string)

  datatype World = World(
    row: Row,
    events: seq<ControlEvent>,
    inbound: map<string, int>,
    messages: map<nat, Message>,
    quotes: Quotes,
    workers: map<nat, Worker>,
    log: seq<Snapshot>              // every committed snapshot, oldest first
  )

  const Start := World(NewRow, [], map[], map[], map[], map[], [Initial])

  datatype Action =
    | Receive(messageId: string, at: int)
    | Issue(command: Command, expected: nat, observed: Option<nat>)
    | ChangeAuthority(requestId: string, expectedVersion: nat, action: ControlAction)
    | OpenSummary(worker: nat, observed: Option<nat>)
    | StoreSummary(worker: nat, newId: string)
    | RecordSummary(worker: nat)
    | Load(worker: nat, expected: nat, observed: Option<nat>, photosStored: bool)
    | Reserve(worker: nat)
    | LookUp(worker: nat)
    | Create(worker: nat, newId: string)
    | Link(worker: nat)
    | Crash(worker: nat)
    | Revise(key: string, structured: Json)
    | CreateElsewhere(key: string, quote: Quote)

  predicate IsId(id: string) {
    id != "" && Text.Trimmed(id)
  }

  ghost predicate OwnKey(rules: Rules, ident: Ident, key: string) {
    exists m :: key == KeyOf(rules, ident, m)
  }

  function FreshMessageId(messages: map<nat, Message>, id: string): bool {
    IsId(id) && forall v | v in messages :: messages[v].id != id
  }

  function FreshQuoteId(quotes: Quotes, id: string): bool {
    IsId(id) && forall k | k in quotes :: quotes[k].id != id
  }

  function Latest(w: World): Snapshot
    requires w.log != []
  {
    w.log[|w.log| - 1]
  }

  /** One Quote-state transaction on the world, remembering what it committed. */
  function Commit(rules: Rules, w: World, expected: nat, command: Command, observed: Option<nat>)
    : Result<World, Conflict>
  {
    match TransitionRow(rules, w.row, expected, command, observed)
    case Err(e) => Err(e)
    case Ok(done) => Ok(if done.0 == w.row then w else w.(row := done.0, log := w.log + [done.1]))
  }

  function Put(w: World, i: nat, worker: Worker): World {
    w.(workers := w.workers[i := worker])
  }

  function Drop(w: World, i: nat): World {
    w.(workers := w.workers - {i})
  }

  /** A command other requests may issue directly; a confirmation names a received message. */
  predicate Issuable(w: World, command: Command) {
    match command
    case DoUpdateDraft(_) => true
    case DoSetHumanReview(_) => true
    case DoConfirm(id, at) => Get(w.inbound, Text.Trim(id)) == Some(at)
    case _ => false
  }

  function StepOpenSummary(rules: Rules, w: World, i: nat, observed: Option<nat>): World {
    match Parse(rules, w.row.quoteState, w.row.quoteStateVersion)
    case Err(_) => w
    case Ok(s) =>
      if PhaseOf(rules, s) == Review && !Truthy(s.reviewSummaryMessageId)
      then Put(w, i, Summarising(s.version, observed, s.draft)) else w
  }

  /** `sendDurableText`: reuse the stored message if its text agrees, else store a new one. */
  function StepStoreSummary(rules: Rules, w: World, i: nat, newId: string): World {
    if !(i in w.workers && w.workers[i].Summarising?) then w
    else
      var k := w.workers[i];
      var text := rules.summary(k.draft);
      if k.version in w.messages then
        if w.messages[k.version].text != text then Drop(w, i)
        else Put(w, i, Summarised(k.version, k.observed, w.messages[k.version].id))
      else if !FreshMessageId(w.messages, newId) then w
      else Put(w.(messages := w.messages[k.version := Message(newId, text)]), i,
               Summarised(k.version, k.observed, newId))
  }

  function StepRecordSummary(rules: Rules, w: World, i: nat): World {
    if !(i in w.workers && w.workers[i].Summarised?) then w
    else
      var k := w.workers[i];
      match Commit(rules, w, k.version, DoPresentReview(k.messageId), k.observed)
      case Err(_) => Drop(w, i)
      case Ok(w') => Drop(w', i)
  }

  /** `submitReadyQuote` up to its first write. */
  function StepLoad(rules: Rules, ident: Ident, w: World, i: nat, expected: nat, observed: Option<nat>,
                    photosStored: bool): World {
    if w.row.quoteStateVersion != expected then w
    else
      match Parse(rules, w.row.quoteState, w.row.quoteStateVersion)
      case Err(_) => w
      case Ok(s) =>
        if PhaseOf(rules, s) != ReadyToSubmit && PhaseOf(rules, s) != Submitting then w
        else
          match Prepare(rules, ident, s)
          case Ready(due) =>
            if !photosStored then w
            else if PhaseOf(rules, s) == ReadyToSubmit then Put(w, i, Loaded(expected, observed, due))
            else Put(w, i, Reserved(expected, observed, due))
          case _ => w
  }

  function StepReserve(rules: Rules, w: World, i: nat): World {
    if !(i in w.workers && w.workers[i].Loaded?) then w
    else
      var k := w.workers[i];
      match TransitionRow(rules, w.row, k.version, DoBegin(k.due.key), k.observed)
      case Err(_) => Drop(w, i)
      case Ok(done) =>
        var w' := if done.0 == w.row then w else w.(row := done.0, log := w.log + [done.1]);
        Put(w', i, Reserved(done.1.version, k.observed, k.due))
  }

  /** Resolve the replay, before creating or again after losing the unique key to someone else. */
  function StepLookUp(w: World, i: nat): World {
    if !(i in w.workers && (w.workers[i].Reserved? || w.workers[i].Collided?)) then w
    else
      var k := w.workers[i];
      match ResolveReplay(w.quotes, k.due)
      case SameSubmission(id) => Put(w, i, Holding(k.version, k.observed, k.due, id))
      case New => if k.Reserved? then Put(w, i, Unclaimed(k.version, k.observed, k.due)) else Drop(w, i)
      case _ => Drop(w, i)
  }

  /** The creating transaction; the unique submission key refuses a second Quote. */
  function StepCreate(w: World, i: nat, newId: string): World {
    if !(i in w.workers && w.workers[i].Unclaimed?) then w
    else
      var k := w.workers[i];
      if k.due.key in w.quotes then Put(w, i, Collided(k.version, k.observed, k.due))
      else if !FreshQuoteId(w.quotes, newId) then w
      else
        var quote := Quote(newId, [Revision(CustomerSubmission, k.due.structured)]);
        Put(w.(quotes := w.quotes[k.due.key := quote]), i, Holding(k.version, k.observed, k.due, newId))
  }

  function StepLink(rules: Rules, w: World, i: nat): World {
    if !(i in w.workers && w.workers[i].Holding?) then w
    else
      var k := w.workers[i];
      match Commit(rules, w, k.version, DoMarkSubmitted(k.quoteId), k.observed)
      case Err(_) => Drop(w, i)
      case Ok(w') => Drop(w', i)
  }

  /** One atomic step of anybody; a step that is not enabled leaves the world as it is. */
  ghost function Step(rules: Rules, ident: Ident, w: World, a: Action): World {
    match a
    case Receive(id, at) =>
      if IsId(id) && id !in w.inbound then w.(inbound := w.inbound[id := at]) else w
    case Issue(command, expected, observed) =>
      if !Issuable(w, command) then w
      else (match Commit(rules, w, expected, command, observed)
            case Err(_) => w
            case Ok(w') => w')
    case ChangeAuthority(requestId, expectedVersion, action) =>
      (match ChangeControl(ident.conversationId, w.row, w.events, requestId, expectedVersion, action)
       case Err(_) => w
       case Ok(done) => w.(row := done.0, events := done.1))
    case OpenSummary(i, observed) => StepOpenSummary(rules, w, i, observed)
    case StoreSummary(i, newId) => StepStoreSummary(rules, w, i, newId)
    case RecordSummary(i) => StepRecordSummary(rules, w, i)
    case Load(i, expected, observed, photosStored) => StepLoad(rules, ident, w, i, expected, observed, photosStored)
    case Reserve(i) => StepReserve(rules, w, i)
    case LookUp(i) => StepLookUp(w, i)
    case Create(i, newId) => StepCreate(w, i, newId)
    case Link(i) => StepLink(rules, w, i)
    case Crash(i) => Drop(w, i)
    case Revise(key, structured) =>
      if key !in w.quotes then w
      else
        var quote := w.quotes[key];
        w.(quotes := w.quotes[key := quote.(revisions := quote.revisions + [Revision(AdminRevision, structured)])])
    case CreateElsewhere(key, quote) =>
      if OwnKey(rules, ident, key) || key in w.quotes || !FreshQuoteId(w.quotes, quote.id) then w
      else w.(quotes := w.quotes[key := quote])
  }

  ghost function Run(rules: Rules, ident: Ident, w: World, actions: seq<Action>): World {
    if actions == [] then w
    else Step(rules, ident, Run(rules, ident, w, actions[..|actions| - 1]), actions[|actions| - 1])
  }

  // ---- the invariant -------------------------------------------------------------------------

  /** What the snapshot owes the Quote domain, whether or not it is linked already. */
  function DueOf(rules: Rules, ident: Ident, s: Snapshot): Preparation {
    Prepare(rules, ident, s.(submittedQuoteId := None))
  }

  ghost predicate Follows(rules: Rules, s: Snapshot, t: Snapshot) {
    t != s && exists command :: Apply(rules, s, command) == Ok(t)
  }

  ghost predicate LogInv(rules: Rules, w: World) {
    w.log != [] && w.log[0] == Initial &&
    w.row.quoteStateVersion == |w.log| - 1 &&
    (forall i | 0 <= i < |w.log| :: w.log[i].version == i && Backbone(rules, w.log[i])) &&
    (forall i | 0 < i < |w.log| :: Follows(rules, w.log[i - 1], w.log[i])) &&
    Parse(rules, w.row.quoteState, w.row.quoteStateVersion) == Ok(Latest(w))
  }

  /** A reserved snapshot still owes exactly the submission its key was reserved for. */
  ghost predicate ReservationInv(rules: Rules, ident: Ident, s: Snapshot) {
    s.submissionKey.Some? ==>
      var due := DueOf(rules, ident, s);
      due.Ready? && Some(due.due.key) == s.submissionKey
  }

  ghost predicate WorkerInv(rules: Rules, ident: Ident, w: World, k: Worker)
    requires w.log != []
  {
    k.version < |w.log| &&
    match k
    case Summarising(v, _, draft) => draft == w.log[v].draft
    case Summarised(v, _, id) =>
      v in w.messages && w.messages[v].id == id
    case Loaded(v, _, due) => Prepare(rules, ident, w.log[v]) == Ready(due) && w.log[v].submittedQuoteId.None?
    case Holding(v, _, due, id) =>
      w.log[v].submissionKey.Some? && DueOf(rules, ident, Latest(w)) == Ready(due) &&
      Latest(w).submissionKey == Some(due.key) && due.key in w.quotes && w.quotes[due.key].id == id
    case _ =>
      w.log[k.version].submissionKey.Some? && DueOf(rules, ident, Latest(w)) == Ready(k.due) &&
      Latest(w).submissionKey == Some(k.due.key)
  }

  ghost predicate WorkersInv(rules: Rules, ident: Ident, w: World)
    requires w.log != []
  {
    forall i | i in w.workers :: WorkerInv(rules, ident, w, w.workers[i])
  }

  /** A Quote under a key of this conversation is the one reserved, and holds what is due. */
  ghost predicate QuotesInv(rules: Rules, ident: Ident, w: World)
    requires w.log != []
  {
    (forall k | k in w.quotes :: IsId(w.quotes[k].id)) &&
    (forall k, k' | k in w.quotes && k' in w.quotes && k != k' :: w.quotes[k].id != w.quotes[k'].id) &&
    (forall k | k in w.quotes && OwnKey(rules, ident, k) ::
       Latest(w).submissionKey == Some(k) && DueOf(rules, ident, Latest(w)).Ready? &&
       FromCustomer(w.quotes[k].revisions) == [Revision(CustomerSubmission, DueOf(rules, ident, Latest(w)).due.structured)])
  }

  ghost predicate LinkInv(w: World)
    requires w.log != []
  {
    var s := Latest(w);
    s.submittedQuoteId.Some? ==>
      s.submissionKey.Some? && s.submissionKey.value in w.quotes &&
      w.quotes[s.submissionKey.value].id == s.submittedQuoteId.value
  }

  ghost predicate MessagesInv(rules: Rules, w: World)
    requires w.log != []
  {
    (forall v | v in w.messages ::
       v < |w.log| && IsId(w.messages[v].id) && w.messages[v].text == rules.summary(w.log[v].draft)) &&
    (forall v, v' | v in w.messages && v' in w.messages && v != v' :: w.messages[v].id != w.messages[v'].id)
  }

  /** The recorded summary message shows the current draft. */
  ghost predicate SummaryShown(rules: Rules, w: World, s: Snapshot) {
    s.reviewSummaryMessageId.Some? ==>
      exists v :: v in w.messages && w.messages[v].id == s.reviewSummaryMessageId.value &&
                  w.messages[v].text == rules.summary(s.draft)
  }

  ghost predicate Inv(rules: Rules, ident: Ident, w: World) {
    LogInv(rules, w) && ControlInv(ident.conversationId, w.row, w.events) &&
    ReservationInv(rules, ident, Latest(w)) && WorkersInv(rules, ident, w) &&
    QuotesInv(rules, ident, w) && LinkInv(w) && MessagesInv(rules, w) && SummaryShown(rules, w, Latest(w))
  }

  // ---- every step keeps it -------------------------------------------------------------------

  lemma KeyIsTrimmed(rules: Rules, ident: Ident, m: string)
    requires Lawful(rules)
    ensures IsId(KeyOf(rules, ident, m))
  {
  }

  /** What a committed transition does to the world. */
  lemma CommitSpec(rules: Rules, w: World, expected: nat, command: Command, observed: Option<nat>)
    requires Lawful(rules) && LogInv(rules, w)
    ensures var r := Commit(rules, w, expected, command, observed);
            var a := Apply(rules, Latest(w), command);
            (r.Ok? <==> Authorised(w.row, observed) && expected == |w.log| - 1 && a.Ok?) &&
            (r.Ok? ==>
               LogInv(rules, r.value) && Latest(r.value) == a.value &&
               TransitionRow(rules, w.row, expected, command, observed) == Ok((r.value.row, a.value)) &&
               r.value == w.(row := w.row.(quoteState := r.value.row.quoteState,
                                           quoteStateVersion := r.value.row.quoteStateVersion),
                             log := r.value.log) &&
               r.value.log == (if a.value == Latest(w) then w.log else w.log + [a.value]))
  {
    hide Parse, Encode, Backbone, Apply, TransitionRow;
    var s := Latest(w);
    var a := Apply(rules, s, command);
    TransitionCommitsExactlyWhen(rules, w.row, s, expected, command, observed);
    if a.Ok? && a.value != s {
      assert Follows(rules, s, a.value);
    }
  }

  /** Appending a snapshot to the log keeps what every waiting worker relies on. */
  lemma WorkersSurviveCommit(rules: Rules, ident: Ident, w: World, w': World, command: Command)
    requires Lawful(rules) && LogInv(rules, w) && LogInv(rules, w') && WorkersInv(rules, ident, w)
    requires ReservationInv(rules, ident, Latest(w))
    requires w'.workers.Keys <= w.workers.Keys
    requires forall i | i in w'.workers :: w'.workers[i] == w.workers[i]
    requires w'.messages == w.messages && w'.quotes == w.quotes
    requires Apply(rules, Latest(w), command) == Ok(Latest(w'))
    requires w'.log == w.log || w'.log == w.log + [Latest(w')]
    ensures WorkersInv(rules, ident, w')
  {
    if Latest(w).submissionKey.Some? {
      ReservedIsFrozen(rules, Latest(w), command);
      DueIgnoresLink(rules, ident, Latest(w), Latest(w'));
    }
    forall i | i in w'.workers
      ensures WorkerInv(rules, ident, w', w'.workers[i])
    {
      assert WorkerInv(rules, ident, w, w.workers[i]);
    }
  }

  lemma DueIgnoresLink(rules: Rules, ident: Ident, s: Snapshot, t: Snapshot)
    requires t == s.(version := t.version, submittedQuoteId := t.submittedQuoteId)
    ensures DueOf(rules, ident, t) == DueOf(rules, ident, s)
  {
  }

  /** Any accepted command except a reservation keeps the reservation and the Quotes it covers. */
  lemma ReservationSurvives(rules: Rules, ident: Ident, w: World, w': World, command: Command)
    requires Lawful(rules) && LogInv(rules, w) && LogInv(rules, w')
    requires ReservationInv(rules, ident, Latest(w)) && QuotesInv(rules, ident, w)
    requires !command.DoBegin? && w'.quotes == w.quotes
    requires Apply(rules, Latest(w), command) == Ok(Latest(w'))
    ensures ReservationInv(rules, ident, Latest(w')) && QuotesInv(rules, ident, w')
  {
    hide Apply, Prepare, DueOf, OwnKey, FromCustomer, Parse, Follows, Backbone, Lawful;
    CommandEffects(rules, Latest(w), command);
    if Latest(w).submissionKey.Some? {
      ReservedIsFrozen(rules, Latest(w), command);
      DueIgnoresLink(rules, ident, Latest(w), Latest(w'));
    }
  }

  lemma SummarySurvives(rules: Rules, w: World, expected: nat, w': World, command: Command)
    requires w.log != [] && w'.log != [] && w'.messages == w.messages && expected == |w.log| - 1
    requires MessagesInv(rules, w) && SummaryShown(rules, w, Latest(w))
    requires Apply(rules, Latest(w), command) == Ok(Latest(w'))
    requires command.DoPresentReview? ==> expected in w.messages && w.messages[expected].id == command.messageId
    ensures SummaryShown(rules, w', Latest(w'))
  {
    hide PhaseOf;
    if command.DoPresentReview? {
      assert w.messages[expected].text == rules.summary(Latest(w').draft);
    }
  }

  /** Every transaction but a reservation keeps the invariant, given what its caller has checked. */
  lemma CommitKeepsInv(rules: Rules, ident: Ident, w: World, expected: nat, command: Command, observed: Option<nat>)
    requires Lawful(rules) && Inv(rules, ident, w) && !command.DoBegin?
    requires command.DoPresentReview? ==> expected in w.messages && w.messages[expected].id == command.messageId
    requires command.DoMarkSubmitted? ==>
               Latest(w).submissionKey.Some? && Latest(w).submissionKey.value in w.quotes &&
               w.quotes[Latest(w).submissionKey.value].id == command.quoteId
    ensures var r := Commit(rules, w, expected, command, observed);
            r.Ok? ==> Inv(rules, ident, r.value)
  {
    hide Backbone, Parse, Follows, Commit, DueOf, WorkerInv, QuotesInv, ControlInv, PhaseOf;
    CommitSpec(rules, w, expected, command, observed);
    var r := Commit(rules, w, expected, command, observed);
    if r.Ok? {
      WorkersSurviveCommit(rules, ident, w, r.value, command);
      ReservationSurvives(rules, ident, w, r.value, command);
      assert ControlInv(ident.conversationId, r.value.row, r.value.events) by {
        ControlFrame(ident, w, r.value);
      }
      LinkSurvives(rules, ident, w, r.value, command);
      SummarySurvives(rules, w, expected, r.value, command);
      assert MessagesInv(rules, r.value);
    }
  }

  lemma ControlFrame(ident: Ident, w: World, w': World)
    requires ControlInv(ident.conversationId, w.row, w.events) && w'.events == w.events
    requires w'.row.controlState == w.row.controlState && w'.row.controlVersion == w.row.controlVersion
    ensures ControlInv(ident.conversationId, w'.row, w'.events)
  {
    hide OwnVersions;
  }

  lemma LinkSurvives(rules: Rules, ident: Ident, w: World, w': World, command: Command)
    requires LogInv(rules, w) && w'.log != [] && LinkInv(w) && w'.quotes == w.quotes && QuotesInv(rules, ident, w)
    requires Apply(rules, Latest(w), command) == Ok(Latest(w'))
    requires command.DoMarkSubmitted? ==>
               Latest(w).submissionKey.Some? && Latest(w).submissionKey.value in w.quotes &&
               w.quotes[Latest(w).submissionKey.value].id == command.quoteId
    ensures LinkInv(w')
  {
    hide Parse, Follows, DueOf, PhaseOf;
    if Latest(w).submissionKey.Some? {
      ReservedIsFrozen(rules, Latest(w), command);
    }
  }

  lemma IssueKeepsInv(rules: Rules, ident: Ident, w: World, command: Command, expected: nat, observed: Option<nat>)
    requires Lawful(rules) && Inv(rules, ident, w) && Issuable(w, command)
    ensures Inv(rules, ident, Step(rules, ident, w, Issue(command, expected, observed)))
  {
    hide Inv, Commit;
    CommitKeepsInv(rules, ident, w, expected, command, observed);
  }

  // Each part of the invariant reads only part of the world.

  lemma LogFrame(rules: Rules, w: World, w': World)
    requires LogInv(rules, w) && w'.log == w.log
    requires w'.row.quoteState == w.row.quoteState && w'.row.quoteStateVersion == w.row.quoteStateVersion
    ensures LogInv(rules, w')
  {
    hide Backbone, Parse, Follows;
  }

  lemma QuotesFrame(rules: Rules, ident: Ident, w: World, w': World)
    requires w.log != [] && QuotesInv(rules, ident, w) && LinkInv(w)
    requires w'.log == w.log && w'.quotes == w.quotes
    ensures QuotesInv(rules, ident, w') && LinkInv(w')
  {
    hide DueOf, OwnKey, FromCustomer;
  }

  lemma MessagesFrame(rules: Rules, w: World, w': World)
    requires w.log != [] && MessagesInv(rules, w) && SummaryShown(rules, w, Latest(w))
    requires w'.log == w.log && w'.messages == w.messages
    ensures MessagesInv(rules, w') && SummaryShown(rules, w', Latest(w'))
  {
  }

  lemma WorkersFrame(rules: Rules, ident: Ident, w: World, w': World)
    requires w.log != [] && WorkersInv(rules, ident, w) && w'.log == w.log
    requires forall i | i in w'.workers :: i in w.workers && w'.workers[i] == w.workers[i]
    requires forall v | v in w.messages :: v in w'.messages && w'.messages[v] == w.messages[v]
    requires forall k | k in w.quotes :: k in w'.quotes && w'.quotes[k].id == w.quotes[k].id
    ensures WorkersInv(rules, ident, w')
  {
    hide DueOf, Prepare;
    forall i | i in w'.workers
      ensures WorkerInv(rules, ident, w', w'.workers[i])
    {
      assert WorkerInv(rules, ident, w, w.workers[i]);
    }
  }

  lemma DropKeepsInv(rules: Rules, ident: Ident, w: World, i: nat)
    requires Inv(rules, ident, w)
    ensures Inv(rules, ident, Drop(w, i))
  {
    hide QuotesInv, LinkInv, MessagesInv, SummaryShown, ControlInv, ReservationInv, WorkerInv, Backbone, Parse, Follows;
    var w' := Drop(w, i);
    LogFrame(rules, w, w');
    QuotesFrame(rules, ident, w, w');
    MessagesFrame(rules, w, w');
    WorkersFrame(rules, ident, w, w');
  }

  lemma WorkerFrame(rules: Rules, ident: Ident, w: World, w': World, k: Worker)
    requires w.log != [] && WorkerInv(rules, ident, w, k)
    requires w'.log == w.log && w'.messages == w.messages && w'.quotes == w.quotes
    ensures WorkerInv(rules, ident, w', k)
  {
    hide DueOf, Prepare;
  }

  lemma PutKeepsInv(rules: Rules, ident: Ident, w: World, i: nat, k: Worker)
    requires Inv(rules, ident, w) && w.log != [] && WorkerInv(rules, ident, w, k)
    ensures Inv(rules, ident, Put(w, i, k))
  {
    hide LogInv, QuotesInv, LinkInv, MessagesInv, SummaryShown, ControlInv, ReservationInv, WorkerInv;
    var w' := Put(w, i, k);
    LogFrame(rules, w, w');
    QuotesFrame(rules, ident, w, w');
    MessagesFrame(rules, w, w');
    forall j | j in w'.workers
      ensures WorkerInv(rules, ident, w', w'.workers[j])
    {
      WorkerFrame(rules, ident, w, w', if j == i then k else w.workers[j]);
    }
  }

  lemma OpenSummaryKeepsInv(rules: Rules, ident: Ident, w: World, i: nat, observed: Option<nat>)
    requires Lawful(rules) && Inv(rules, ident, w)
    ensures Inv(rules, ident, StepOpenSummary(rules, w, i, observed))
  {
    hide Parse, PhaseOf, Backbone, Prepare, DueOf, ControlInv, ReservationInv, QuotesInv, LinkInv, MessagesInv;
    var w' := StepOpenSummary(rules, w, i, observed);
    if w' != w {
      PutKeepsInv(rules, ident, w, i, Summarising(Latest(w).version, observed, Latest(w).draft));
    }
  }

  lemma StoreSummaryKeepsInv(rules: Rules, ident: Ident, w: World, i: nat, newId: string)
    requires Lawful(rules) && Inv(rules, ident, w)
    ensures Inv(rules, ident, StepStoreSummary(rules, w, i, newId))
  {
    hide DueOf, Backbone, LogInv, ControlInv, ReservationInv, QuotesInv, LinkInv;
    if i in w.workers && w.workers[i].Summarising? {
      var k := w.workers[i];
      assert WorkerInv(rules, ident, w, k);
      if k.version in w.messages {
        DropKeepsInv(rules, ident, w, i);
        PutKeepsInv(rules, ident, w, i, Summarised(k.version, k.observed, w.messages[k.version].id));
      } else if FreshMessageId(w.messages, newId) {
        StoringMessageKeepsInv(rules, ident, w, k.version, newId);
        var w' := w.(messages := w.messages[k.version := Message(newId, rules.summary(k.draft))]);
        PutKeepsInv(rules, ident, w', i, Summarised(k.version, k.observed, newId));
      }
    }
  }

  lemma StoringMessageKeepsInv(rules: Rules, ident: Ident, w: World, v: nat, newId: string)
    requires Inv(rules, ident, w) && v < |w.log| && v !in w.messages && FreshMessageId(w.messages, newId)
    ensures Inv(rules, ident, w.(messages := w.messages[v := Message(newId, rules.summary(w.log[v].draft))]))
  {
    hide LogInv, QuotesInv, LinkInv, ControlInv, ReservationInv, WorkerInv, DueOf;
    var w' := w.(messages := w.messages[v := Message(newId, rules.summary(w.log[v].draft))]);
    LogFrame(rules, w, w');
    QuotesFrame(rules, ident, w, w');
    WorkersFrame(rules, ident, w, w');
    if Latest(w).reviewSummaryMessageId.Some? {
      var u :| u in w.messages && w.messages[u].id == Latest(w).reviewSummaryMessageId.value &&
               w.messages[u].text == rules.summary(Latest(w).draft);
      assert u in w'.messages && w'.messages[u] == w.messages[u];
    }
  }

  lemma WorkerKnows(rules: Rules, ident: Ident, w: World, i: nat)
    requires Inv(rules, ident, w) && i in w.workers
    ensures w.log != [] && WorkerInv(rules, ident, w, w.workers[i])
  {
  }

  lemma RecordSummaryKeepsInv(rules: Rules, ident: Ident, w: World, i: nat)
    requires Lawful(rules) && Inv(rules, ident, w)
    ensures Inv(rules, ident, StepRecordSummary(rules, w, i))
  {
    hide Inv, Commit;
    if i in w.workers && w.workers[i].Summarised? {
      var k := w.workers[i];
      assert WorkerInv(rules, ident, w, k) by { WorkerKnows(rules, ident, w, i); }
      CommitKeepsInv(rules, ident, w, k.version, DoPresentReview(k.messageId), k.observed);
      match Commit(rules, w, k.version, DoPresentReview(k.messageId), k.observed) {
        case Err(_) => DropKeepsInv(rules, ident, w, i);
        case Ok(w') => DropKeepsInv(rules, ident, w', i);
      }
    }
  }

  lemma LoadKeepsInv(rules: Rules, ident: Ident, w: World, i: nat, expected: nat, observed: Option<nat>,
                     photosStored: bool)
    requires Lawful(rules) && Inv(rules, ident, w)
    ensures Inv(rules, ident, StepLoad(rules, ident, w, i, expected, observed, photosStored))
  {
    hide Prepare, PhaseOf, Complete, QuotesInv, LinkInv, MessagesInv, SummaryShown, ControlInv, Parse, Follows, WorkersInv;
    var w' := StepLoad(rules, ident, w, i, expected, observed, photosStored);
    var s := Latest(w);
    PhaseReadsMarkers(rules, s);
    if w' != w {
      assert s.submittedQuoteId.None?;
      assert s.(submittedQuoteId := None) == s;
      PutKeepsInv(rules, ident, w, i, w'.workers[i]);
    }
  }

  lemma ReservationKeepsQuotes(rules: Rules, ident: Ident, w: World, w': World)
    requires w.log != [] && w'.log != [] && w'.quotes == w.quotes && w'.messages == w.messages
    requires QuotesInv(rules, ident, w) && LinkInv(w) && SummaryShown(rules, w, Latest(w))
    requires Latest(w).submissionKey.Some? ==> Latest(w') == Latest(w)
    requires Latest(w') == Latest(w).(version := Latest(w').version, submissionKey := Latest(w').submissionKey)
    requires Latest(w).submittedQuoteId.None?
    ensures QuotesInv(rules, ident, w') && LinkInv(w') && SummaryShown(rules, w', Latest(w'))
  {
    hide DueOf, OwnKey, FromCustomer;
  }

  lemma ReservationKeepsInv(rules: Rules, ident: Ident, w: World, k: Worker)
    requires Lawful(rules) && Inv(rules, ident, w) && k.Loaded? && WorkerInv(rules, ident, w, k)
    ensures var r := Commit(rules, w, k.version, DoBegin(k.due.key), k.observed);
            r.Ok? ==>
              Inv(rules, ident, r.value) &&
              WorkerInv(rules, ident, r.value, Reserved(Latest(r.value).version, k.observed, k.due)) &&
              TransitionRow(rules, w.row, k.version, DoBegin(k.due.key), k.observed)
                == Ok((r.value.row, Latest(r.value)))
  {
    hide Parse, Follows, Commit, Prepare, TransitionRow, ControlInv, DueOf, Backbone, QuotesInv, LinkInv,
         SummaryShown, Apply, WorkersInv;
    var command := DoBegin(k.due.key);
    CommitSpec(rules, w, k.version, command, k.observed);
    var r := Commit(rules, w, k.version, command, k.observed);
    if r.Ok? {
      var s, t := Latest(w), Latest(r.value);
      ReservationTarget(rules, ident, s, t, k.due);
      WorkersSurviveCommit(rules, ident, w, r.value, command);
      ReservationKeepsQuotes(rules, ident, w, r.value);
      ControlFrame(ident, w, r.value);
    }
  }

  lemma ReservationTarget(rules: Rules, ident: Ident, s: Snapshot, t: Snapshot, due: Due)
    requires Lawful(rules) && Backbone(rules, s) && s.submittedQuoteId.None?
    requires Prepare(rules, ident, s) == Ready(due)
    requires ReservationInv(rules, ident, s)
    requires Apply(rules, s, DoBegin(due.key)) == Ok(t)
    ensures t.submissionKey == Some(due.key) && DueOf(rules, ident, t) == Ready(due)
    ensures s.submissionKey.Some? ==> t == s
    ensures t == s || t == s.(version := s.version + 1, submissionKey := Some(due.key))
  {
    hide Complete, PrepareSubmission, Structured;
    PhaseReadsMarkers(rules, s);
    KeyIsTrimmed(rules, ident, s.confirmationMessageId.value);
    assert s.(submittedQuoteId := None) == s;
    ReservingKeepsDue(rules, ident, s, t, due);
  }

  lemma ReserveKeepsInv(rules: Rules, ident: Ident, w: World, i: nat)
    requires Lawful(rules) && Inv(rules, ident, w)
    ensures Inv(rules, ident, StepReserve(rules, w, i))
  {
    hide Inv, TransitionRow, Prepare, DueOf, KeyOf;
    if i in w.workers && w.workers[i].Loaded? {
      var k := w.workers[i];
      assert WorkerInv(rules, ident, w, k) by { WorkerKnows(rules, ident, w, i); }
      ReservationKeepsInv(rules, ident, w, k);
      match Commit(rules, w, k.version, DoBegin(k.due.key), k.observed) {
        case Err(_) => DropKeepsInv(rules, ident, w, i);
        case Ok(w') =>
          PutKeepsInv(rules, ident, w', i, Reserved(Latest(w').version, k.observed, k.due));
      }
    }
  }

  /** The key a snapshot reserves is the one its own preparation computes, before and after. */
  lemma ReservingKeepsDue(rules: Rules, ident: Ident, s: Snapshot, t: Snapshot, due: Due)
    requires Prepare(rules, ident, s) == Ready(due) && s.submittedQuoteId.None?
    requires t == s || t == s.(version := s.version + 1, submissionKey := Some(due.key))
    ensures DueOf(rules, ident, t) == Ready(due)
  {
    assert s.(submittedQuoteId := None) == s;
  }

  lemma LookUpKeepsInv(rules: Rules, ident: Ident, w: World, i: nat)
    requires Lawful(rules) && Inv(rules, ident, w)
    ensures Inv(rules, ident, StepLookUp(w, i))
  {
    hide Inv, DueOf, FromCustomer, Lawful;
    if i in w.workers && (w.workers[i].Reserved? || w.workers[i].Collided?) {
      WorkerKnows(rules, ident, w, i);
      var w' := StepLookUp(w, i);
      if i in w'.workers {
        PutKeepsInv(rules, ident, w, i, w'.workers[i]);
      } else {
        DropKeepsInv(rules, ident, w, i);
      }
    }
  }

  lemma FirstQuote(rules: Rules, ident: Ident, w: World, due: Due, newId: string)
    requires w.log != [] && QuotesInv(rules, ident, w) && LinkInv(w)
    requires DueOf(rules, ident, Latest(w)) == Ready(due) && Latest(w).submissionKey == Some(due.key)
    requires due.key !in w.quotes && FreshQuoteId(w.quotes, newId)
    ensures var w' := w.(quotes := w.quotes[due.key := Quote(newId, [Revision(CustomerSubmission, due.structured)])]);
            QuotesInv(rules, ident, w') && LinkInv(w')
  {
    hide DueOf, OwnKey;
    var revision := Revision(CustomerSubmission, due.structured);
    assert FromCustomer([revision]) == [revision];
    hide FromCustomer;
  }

  lemma CreateKeepsInv(rules: Rules, ident: Ident, w: World, i: nat, newId: string)
    requires Lawful(rules) && Inv(rules, ident, w)
    ensures Inv(rules, ident, StepCreate(w, i, newId))
  {
    hide LogInv, MessagesInv, SummaryShown, ControlInv, ReservationInv, DueOf, QuotesInv, LinkInv, WorkersInv, Lawful;
    if i in w.workers && w.workers[i].Unclaimed? {
      var k := w.workers[i];
      WorkerKnows(rules, ident, w, i);
      if k.due.key in w.quotes {
        PutKeepsInv(rules, ident, w, i, Collided(k.version, k.observed, k.due));
      } else if FreshQuoteId(w.quotes, newId) {
        FirstQuote(rules, ident, w, k.due, newId);
        var quote := Quote(newId, [Revision(CustomerSubmission, k.due.structured)]);
        var w' := w.(quotes := w.quotes[k.due.key := quote]);
        LogFrame(rules, w, w');
        MessagesFrame(rules, w, w');
        WorkersFrame(rules, ident, w, w');
        PutKeepsInv(rules, ident, w', i, Holding(k.version, k.observed, k.due, newId));
      }
    }
  }

  lemma LinkKeepsInv(rules: Rules, ident: Ident, w: World, i: nat)
    requires Lawful(rules) && Inv(rules, ident, w)
    ensures Inv(rules, ident, StepLink(rules, w, i))
  {
    hide Inv, Commit, DueOf;
    if i in w.workers && w.workers[i].Holding? {
      var k := w.workers[i];
      assert WorkerInv(rules, ident, w, k) by { WorkerKnows(rules, ident, w, i); }
      CommitKeepsInv(rules, ident, w, k.version, DoMarkSubmitted(k.quoteId), k.observed);
      match Commit(rules, w, k.version, DoMarkSubmitted(k.quoteId), k.observed) {
        case Err(_) => DropKeepsInv(rules, ident, w, i);
        case Ok(w') => DropKeepsInv(rules, ident, w', i);
      }
    }
  }

  lemma QuotesChange(rules: Rules, ident: Ident, w: World, w': World, key: string)
    requires w.log != [] && w'.log == w.log && QuotesInv(rules, ident, w) && LinkInv(w)
    requires key in w'.quotes && w'.quotes == w.quotes[key := w'.quotes[key]]
    requires key in w.quotes ==>
               w'.quotes[key].id == w.quotes[key].id &&
               FromCustomer(w'.quotes[key].revisions) == FromCustomer(w.quotes[key].revisions)
    requires key !in w.quotes ==> !OwnKey(rules, ident, key) && FreshQuoteId(w.quotes, w'.quotes[key].id)
    ensures QuotesInv(rules, ident, w') && LinkInv(w')
  {
    hide DueOf, OwnKey, FromCustomer;
    assert forall k | k in w'.quotes && k != key :: k in w.quotes && w'.quotes[k] == w.quotes[k];
  }

  lemma QuoteTableStepsKeepInv(rules: Rules, ident: Ident, w: World, a: Action)
    requires Inv(rules, ident, w) && (a.Revise? || a.CreateElsewhere?)
    ensures Inv(rules, ident, Step(rules, ident, w, a))
  {
    hide MessagesInv, SummaryShown, ControlInv, ReservationInv, WorkerInv, DueOf, Backbone, Parse, Follows,
         QuotesInv, LinkInv, FromCustomer, OwnKey;
    var w' := Step(rules, ident, w, a);
    if w' != w {
      if a.Revise? {
        RevisingKeepsCustomerRevisions(w.quotes[a.key].revisions, a.structured);
      }
      QuotesChange(rules, ident, w, w', a.key);
      LogFrame(rules, w, w');
      MessagesFrame(rules, w, w');
      WorkersFrame(rules, ident, w, w');
    }
  }

  lemma OutsideStepsKeepInv(rules: Rules, ident: Ident, w: World, a: Action)
    requires Inv(rules, ident, w) && (a.Receive? || a.ChangeAuthority?)
    ensures Inv(rules, ident, Step(rules, ident, w, a))
  {
    hide QuotesInv, LinkInv, MessagesInv, SummaryShown, ControlInv, ReservationInv, WorkerInv, Backbone, Parse, Follows;
    var w' := Step(rules, ident, w, a);
    if a.ChangeAuthority? {
      ChangeControlKeepsInv(ident.conversationId, w.row, w.events, a.requestId, a.expectedVersion, a.action);
    }
    LogFrame(rules, w, w');
    QuotesFrame(rules, ident, w, w');
    MessagesFrame(rules, w, w');
    WorkersFrame(rules, ident, w, w');
    assert ControlInv(ident.conversationId, w'.row, w'.events);
  }

  lemma StepKeepsInv(rules: Rules, ident: Ident, w: World, a: Action)
    requires Lawful(rules) && Inv(rules, ident, w)
    ensures Inv(rules, ident, Step(rules, ident, w, a))
  {
    hide Inv, Lawful, StepOpenSummary, StepStoreSummary, StepRecordSummary, StepLoad, StepReserve, StepLookUp,
         StepCreate, StepLink, Commit, ChangeControl;
    match a {
      case Receive(_, _) => OutsideStepsKeepInv(rules, ident, w, a);
      case Issue(command, expected, observed) =>
        if Issuable(w, command) {
          IssueKeepsInv(rules, ident, w, command, expected, observed);
        }
      case ChangeAuthority(_, _, _) => OutsideStepsKeepInv(rules, ident, w, a);
      case OpenSummary(i, observed) => OpenSummaryKeepsInv(rules, ident, w, i, observed);
      case StoreSummary(i, newId) => StoreSummaryKeepsInv(rules, ident, w, i, newId);
      case RecordSummary(i) => RecordSummaryKeepsInv(rules, ident, w, i);
      case Load(i, expected, observed, photosStored) =>
        LoadKeepsInv(rules, ident, w, i, expected, observed, photosStored);
      case Reserve(i) => ReserveKeepsInv(rules, ident, w, i);
      case LookUp(i) => LookUpKeepsInv(rules, ident, w, i);
      case Create(i, newId) => CreateKeepsInv(rules, ident, w, i, newId);
      case Link(i) => LinkKeepsInv(rules, ident, w, i);
      case Crash(i) => DropKeepsInv(rules, ident, w, i);
      case Revise(_, _) => QuoteTableStepsKeepInv(rules, ident, w, a);
      case CreateElsewhere(_, _) => QuoteTableStepsKeepInv(rules, ident, w, a);
    }
  }

  lemma {:induction false} RunKeepsInv(rules: Rules, ident: Ident, w: World, actions: seq<Action>)
    requires Lawful(rules) && Inv(rules, ident, w)
    ensures Inv(rules, ident, Run(rules, ident, w, actions))
    decreases |actions|
  {
    hide Lawful, Inv, Step;
    if actions != [] {
      var front := actions[..|actions| - 1];
      RunKeepsInv(rules, ident, w, front);
      StepKeepsInv(rules, ident, Run(rules, ident, w, front), actions[|actions| - 1]);
    }
  }

  lemma StartHasInv(rules: Rules, ident: Ident)
    requires Lawful(rules)
    ensures Inv(rules, ident, Start)
  {
    hide Lawful;
    assert OwnVersions([], ident.conversationId) == seq(0, i => i + 1);
  }
}
