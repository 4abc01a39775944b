/**
 What a send leaves behind and answers, and under exactly which conditions.
 (apps/api/src/messaging/messaging.service.ts)
 */
module OutboundEffects {
  import opened Prelude
  import opened OutboundLog

  const DAY_MS := 24 * 60 * 60 * 1000

  /** A command passes exactly for its own durable message, on Messenger only within a day of the customer's last. */
  lemma PassesExactlyWhen(c: Command)
    ensures RefusalOf(c).None? <==>
              c.configured && c.durable && c.sameConversation &&
              (c.messenger ==> c.latestInbound.Some? && c.now - c.latestInbound.value <= DAY_MS)
    ensures RefusalOf(c) == Some(OutsideWindow) <==>
              c.configured && c.durable && c.sameConversation && c.messenger &&
              (c.latestInbound.None? || c.now - c.latestInbound.value > DAY_MS)
  {
  }

  /** Whether this send reaches the provider. */
  predicate Reaches(log: Log, c: Command) {
    RefusalOf(c).None? && CallsProvider(log)
  }

  lemma {:induction false} AppendAllAdds(log: Log, events: seq<Event>, e: Event)
    ensures e in AppendAll(log, events) <==> e in log || e in events
    decreases |events|
  {
    if events != [] {
      assert events == [events[0]] + events[1..];
      AppendAllAdds(Append(log, events[0]), events[1..], e);
    }
  }

  /** What a call adds: the statuses that came in meanwhile, and one event for its outcome. */
  lemma SendsAddTheirOutcome(log: Log, c: Command, during: seq<Event>, outcome: Outcome, e: Event)
    ensures !Reaches(log, c) ==> Send(log, c, during, outcome).0 == log
    ensures Reaches(log, c) ==>
              var seen := AppendAll(log, during);
              (e in Send(log, c, during, outcome).0 <==>
                 e in log || e in during ||
                 match outcome
                 case Delivered(id) => e == Event(Accepted, Some(id))
                 case Refused => e == Event(Failed, None)
                 case Unknown => e == Event(Pending, None) && LatestProof(seen).None? && PendingCount(seen) < 2)
  {
    AppendAllAdds(log, during, e);
    hide LatestProof, PendingCount, AppendAll, RefusalOf;
  }

  /** A caller told "sent" is right: the acceptance under that provider id is in the log. */
  lemma SentMeansAccepted(log: Log, c: Command, during: seq<Event>, outcome: Outcome)
    ensures var (log', reply) := Send(log, c, during, outcome);
            reply.Sent? ==> Event(Accepted, Some(reply.providerId)) in log'
  {
    hide PendingCount, AppendAll, RefusalOf;
  }

  /** And each other answer has its own cause. */
  lemma RepliesHaveCauses(log: Log, c: Command, during: seq<Event>, outcome: Outcome)
    ensures var reply := Send(log, c, during, outcome).1;
            (reply.NotSent? <==> RefusalOf(c).Some?) &&
            (reply == SendFailed <==> Reaches(log, c) && outcome == Refused) &&
            (reply == AwaitingReconciliation <==>
               RefusalOf(c).None? && LatestProof(log).None? &&
               (IsBlocked(log) || (outcome == Unknown && LatestProof(AppendAll(log, during)).None?)))
  {
    hide LatestProof, PendingCount, AppendAll, RefusalOf, IsBlocked;
  }

  /** The proof that is used is the last one logged. */
  lemma {:induction false} TheLatestProofCounts(log: Log) returns (k: nat)
    requires LatestProof(log).Some?
    ensures k < |log| && LatestProof(log) == Some(log[k]) && forall i | k < i < |log| :: !IsProof(log[i])
    decreases |log|
  {
    var front, last := log[..|log| - 1], log[|log| - 1];
    if IsProof(last) {
      k := |log| - 1;
    } else {
      k := TheLatestProofCounts(front);
    }
  }

  /** Pending events are counted each once. */
  lemma {:induction false} PendingAreCounted(log: Log)
    ensures PendingCount(log) == |set i | 0 <= i < |log| && log[i].status == Pending|
    decreases |log|
  {
    if log != [] {
      var front, n := log[..|log| - 1], |log| - 1;
      PendingAreCounted(front);
      var before := set i | 0 <= i < |front| && front[i].status == Pending;
      var after := set i | 0 <= i < |log| && log[i].status == Pending;
      assert after == if log[n].status == Pending then before + {n} else before;
    }
  }
}
