/**
 What each step of a submitting worker does, told by what the worker finds.
 (apps/api/src/messaging/messaging-quote-live-orchestrator.service.ts,
 messaging-quote-submission.service.ts)
 */
module SubmissionSteps {
  import opened Prelude
  import opened Json
  import opened QuoteState
  import opened SubmissionInput
  import opened ConversationStore
  import opened SubmissionProtocol
  import InterviewCommits

  /** A summary is begun exactly for a draft in review that none has been shown for. */
  lemma SummariesAreOpenedExactlyWhen(rules: Rules, ident: Ident, w: World, i: nat, observed: Option<nat>)
    requires Lawful(rules) && Inv(rules, ident, w)
    ensures var w' := Step(rules, ident, w, OpenSummary(i, observed));
            if PhaseOf(rules, Latest(w)) == Review && Latest(w).reviewSummaryMessageId.None?
            then w' == Put(w, i, Summarising(Latest(w).version, observed, Latest(w).draft)) else w' == w
  {
    hide *;
    InterviewCommits.LatestIsSound(rules, ident, w);
    InterviewCommits.ParsesToLatest(rules, w);
    ShownIsTruthy(rules, Latest(w));
    OpeningReads(rules, ident, w, i, observed, Latest(w));
  }

  lemma OpeningReads(rules: Rules, ident: Ident, w: World, i: nat, observed: Option<nat>, s: Snapshot)
    requires Parse(rules, w.row.quoteState, w.row.quoteStateVersion) == Ok(s)
    ensures Step(rules, ident, w, OpenSummary(i, observed))
         == if PhaseOf(rules, s) == Review && !Truthy(s.reviewSummaryMessageId)
            then Put(w, i, Summarising(s.version, observed, s.draft)) else w
  {
    hide Parse, PhaseOf, Put;
  }

  lemma ShownIsTruthy(rules: Rules, s: Snapshot)
    requires Backbone(rules, s)
    ensures Truthy(s.reviewSummaryMessageId) <==> s.reviewSummaryMessageId.Some?
  {
    hide Complete;
  }

  /** One summary message per version: stored once, found again under the same text, and given up under another. */
  lemma SummariesAreStoredOnce(rules: Rules, ident: Ident, w: World, i: nat, newId: string)
    requires i in w.workers && w.workers[i].Summarising?
    ensures var k, text := w.workers[i], rules.summary(w.workers[i].draft);
            var w' := Step(rules, ident, w, StoreSummary(i, newId));
            w'.row == w.row && w'.log == w.log && w'.quotes == w.quotes &&
            (k.version in w.messages ==>
               w'.messages == w.messages &&
               w'.workers == if w.messages[k.version].text == text
                             then w.workers[i := Summarised(k.version, k.observed, w.messages[k.version].id)]
                             else w.workers - {i}) &&
            (k.version !in w.messages && FreshMessageId(w.messages, newId) ==>
               w'.messages == w.messages[k.version := Message(newId, text)] &&
               w'.workers == w.workers[i := Summarised(k.version, k.observed, newId)])
  {
    hide FreshMessageId;
  }

  /** A worker finds the Quote of its own record, learns that there is none, or gives up; it writes nothing. */
  lemma LookUpsReadOnly(rules: Rules, ident: Ident, w: World, i: nat)
    requires i in w.workers && (w.workers[i].Reserved? || w.workers[i].Collided?)
    ensures var k := w.workers[i];
            var w' := Step(rules, ident, w, LookUp(i));
            w' == w.(workers := w'.workers) &&
            w'.workers == match ResolveReplay(w.quotes, k.due)
                          case SameSubmission(id) => w.workers[i := Holding(k.version, k.observed, k.due, id)]
                          case New => if k.Reserved? then w.workers[i := Unclaimed(k.version, k.observed, k.due)]
                                      else w.workers - {i}
                          case DifferentSubmission => w.workers - {i}
                          case CorruptExisting => w.workers - {i}
  {
    hide ResolveReplay;
  }

  /** Creating adds the Quote that is due under its key, or finds the key taken. */
  lemma CreatingAddsTheDueQuote(rules: Rules, ident: Ident, w: World, i: nat, newId: string)
    requires i in w.workers && w.workers[i].Unclaimed?
    ensures var k := w.workers[i];
            var w' := Step(rules, ident, w, Create(i, newId));
            w'.row == w.row && w'.log == w.log && w'.messages == w.messages &&
            (k.due.key in w.quotes ==>
               w'.quotes == w.quotes && w'.workers == w.workers[i := Collided(k.version, k.observed, k.due)]) &&
            (k.due.key !in w.quotes && FreshQuoteId(w.quotes, newId) ==>
               w'.quotes == w.quotes[k.due.key := Quote(newId, [Revision(CustomerSubmission, k.due.structured)])] &&
               w'.workers == w.workers[i := Holding(k.version, k.observed, k.due, newId)])
  {
    hide FreshQuoteId;
  }

  /** A crash loses the worker and nothing else. */
  lemma CrashesLoseTheWorkerOnly(rules: Rules, ident: Ident, w: World, i: nat)
    ensures Step(rules, ident, w, Crash(i)) == w.(workers := w.workers - {i})
  {
  }
}
