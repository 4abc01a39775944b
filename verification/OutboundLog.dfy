/**
 The status log of one durable outbound message, and when the provider is
 called again. Sends of one message run one after another; provider statuses
 may arrive at any time, also while the provider is being called.
 (apps/api/src/messaging/messaging.service.ts, `send`, `appendStatus`, `persistWhatsAppStatus`)
 */
module OutboundLog {
  import opened Prelude

  datatype Status = Pending | Accepted | Failed

  datatype Event = Event(status: Status, providerId: Option<string>)

  type Log = seq<Event>

  /** What the provider call came to. */
  datatype Outcome = Delivered(id: string) | Unknown | Refused

  /** Why a command is refused before the status log is looked at. */
  datatype Refusal = NotConfigured | NoDurableMessage | OtherConversation | OutsideWindow

  datatype Reply = Sent(providerId: string) | AwaitingReconciliation | SendFailed | NotSent(why: Refusal)

  /** A command as `send` finds it: its channel, its durable message, and the customer's latest message. */
  datatype Command = Command(
    configured: bool, durable: bool, sameConversation: bool, messenger: bool, latestInbound: Option<int>, now: int)

  const MESSENGER_WINDOW_MS := 86_400_000

  /** The checks before the log is read, in their order. */
  function RefusalOf(c: Command): Option<Refusal> {
    if !c.configured then Some(NotConfigured)
    else if !c.durable then Some(NoDurableMessage)
    else if !c.sameConversation then Some(OtherConversation)
    else if c.messenger && (c.latestInbound.None? || c.latestInbound.value < c.now - MESSENGER_WINDOW_MS)
    then Some(OutsideWindow)
    else None
  }

  /** A durable message starts with one pending event. */
  const CREATED: Log := [Event(Pending, None)]

  /** `appendStatus`: one event per status and provider id. */
  function Append(log: Log, e: Event): Log {
    if e in log then log else log + [e]
  }

  function PendingCount(log: Log): nat {
    if log == [] then 0 else PendingCount(log[..|log| - 1]) + if log[|log| - 1].status == Pending then 1 else 0
  }

  predicate IsProof(e: Event) {
    e.status == Accepted && e.providerId.Some? && e.providerId.value != ""
  }

  /** The latest accepted event that names a provider message. */
  function LatestProof(log: Log): (r: Option<Event>)
    ensures r.Some? ==> r.value in log && IsProof(r.value)
    ensures r.None? ==> forall e | e in log :: !IsProof(e)
  {
    if log == [] then None
    else
      var front, last := log[..|log| - 1], log[|log| - 1];
      assert log == front + [last];
      if IsProof(last) then Some(last) else LatestProof(front)
  }

  predicate EndsPending(log: Log) {
    log != [] && log[|log| - 1].status == Pending
  }

  predicate IsBlocked(log: Log) {
    EndsPending(log) && PendingCount(log) >= 2
  }

  /** Whether a send that is not refused goes to the provider at all. */
  predicate CallsProvider(log: Log) {
    LatestProof(log).None? && !IsBlocked(log)
  }

  /** Provider statuses: accepted or failed, always under a provider id. */
  predicate IsWebhook(e: Event) {
    e.status != Pending && e.providerId.Some? && e.providerId.value != ""
  }

  function AppendAll(log: Log, events: seq<Event>): Log
    decreases |events|
  {
    if events == [] then log else AppendAll(Append(log, events[0]), events[1..])
  }

  /** What is logged once the provider call has ended. */
  function Concluded(log: Log, outcome: Outcome): (Log, Reply) {
    match outcome
    case Delivered(id) => (Append(log, Event(Accepted, Some(id))), Sent(id))
    case Unknown =>
      if LatestProof(log).Some? then (log, Sent(LatestProof(log).value.providerId.value))
      else (if PendingCount(log) < 2 then log + [Event(Pending, None)] else log, AwaitingReconciliation)
    case Refused => (Append(log, Event(Failed, None)), SendFailed)
  }

  /** `send`, with the statuses that arrive while the provider is called. */
  function Send(log: Log, c: Command, during: seq<Event>, outcome: Outcome): (Log, Reply) {
    if RefusalOf(c).Some? then (log, NotSent(RefusalOf(c).value))
    else if LatestProof(log).Some? then (log, Sent(LatestProof(log).value.providerId.value))
    else if IsBlocked(log) then (log, AwaitingReconciliation)
    else Concluded(AppendAll(log, during), outcome)
  }

  // ---- one message over its life -------------------------------------------------------------

  datatype Action = DoSend(command: Command, during: seq<Event>, outcome: Outcome) | Webhook(event: Event)

  predicate AllWebhooks(events: seq<Event>) {
    forall i | 0 <= i < |events| :: IsWebhook(events[i])
  }

  predicate IsPossible(a: Action) {
    if a.Webhook? then IsWebhook(a.event) else AllWebhooks(a.during) && (a.outcome.Delivered? ==> a.outcome.id != "")
  }

  predicate ArePossible(actions: seq<Action>) {
    forall i | 0 <= i < |actions| :: IsPossible(actions[i])
  }

  function Step(log: Log, a: Action): Log {
    match a
    case DoSend(c, during, outcome) => Send(log, c, during, outcome).0
    case Webhook(e) => Append(log, e)
  }

  function Run(log: Log, actions: seq<Action>): Log
    decreases |actions|
  {
    if actions == [] then log else Run(Step(log, actions[0]), actions[1..])
  }

  /** How often the provider is called over a run. */
  function Calls(log: Log, actions: seq<Action>): nat
    decreases |actions|
  {
    if actions == [] then 0
    else (if actions[0].DoSend? && RefusalOf(actions[0].command).None? && CallsProvider(log) then 1 else 0) + Calls(Step(log, actions[0]), actions[1..])
  }

  // ---- the log only grows --------------------------------------------------------------------

  lemma {:induction false} AppendAllGrows(log: Log, events: seq<Event>)
    ensures log <= AppendAll(log, events)
    decreases |events|
  {
    if events != [] {
      AppendAllGrows(Append(log, events[0]), events[1..]);
    }
  }

  lemma StepGrows(log: Log, a: Action)
    ensures log <= Step(log, a)
  {
    if a.DoSend? {
      AppendAllGrows(log, a.during);
    }
  }

  /** At most two pending events are ever logged, however many outcomes stay uncertain. */
  lemma {:induction false} PendingIsCapped(log: Log, events: seq<Event>)
    requires PendingCount(log) <= 2 && AllWebhooks(events)
    ensures PendingCount(AppendAll(log, events)) == PendingCount(log)
    decreases |events|
  {
    if events != [] {
      assert IsWebhook(events[0]);
      CountAppended(log, events[0]);
      PendingIsCapped(Append(log, events[0]), events[1..]);
    }
  }

  lemma CountAppended(log: Log, e: Event)
    ensures PendingCount(log + [e]) == PendingCount(log) + if e.status == Pending then 1 else 0
  {
    assert (log + [e])[..|log|] == log;
  }

  lemma StepKeepsTheCap(log: Log, a: Action)
    requires 1 <= PendingCount(log) <= 2 && IsPossible(a)
    ensures PendingCount(log) <= PendingCount(Step(log, a)) <= 2
  {
    match a
    case Webhook(e) => CountAppended(log, e);
    case DoSend(_, during, outcome) =>
      PendingIsCapped(log, during);
      var after := AppendAll(log, during);
      CountAppended(after, Event(Pending, None));
      CountAppended(after, Event(Failed, None));
      if outcome.Delivered? { CountAppended(after, Event(Accepted, Some(outcome.id))); }
      hide PendingCount, AppendAll;
  }

  lemma {:induction false} RunKeepsTheCap(log: Log, actions: seq<Action>)
    requires 1 <= PendingCount(log) <= 2 && ArePossible(actions)
    ensures PendingCount(log) <= PendingCount(Run(log, actions)) <= 2
    decreases |actions|
  {
    if actions != [] {
      assert IsPossible(actions[0]);
      StepKeepsTheCap(log, actions[0]);
      hide PendingCount, Step;
      RunKeepsTheCap(Step(log, actions[0]), actions[1..]);
    }
  }

  // ---- when the provider is left alone -------------------------------------------------------

  lemma ProofStays(log: Log, log': Log)
    requires LatestProof(log).Some? && log <= log'
    ensures LatestProof(log').Some?
  {
    var e := LatestProof(log).value;
    assert e in log';
  }

  /** Once an accepted event names a provider message, the provider is never called again. */
  lemma {:induction false} NeverSentTwice(log: Log, actions: seq<Action>)
    requires LatestProof(log).Some?
    ensures Calls(log, actions) == 0
    decreases |actions|
  {
    if actions != [] {
      StepGrows(log, actions[0]);
      ProofStays(log, Step(log, actions[0]));
      NeverSentTwice(Step(log, actions[0]), actions[1..]);
    }
  }

  /** A delivered outcome is such an event: after it no send reaches the provider. */
  lemma DeliveredIsFinal(log: Log, c: Command, during: seq<Event>, id: string, actions: seq<Action>)
    requires RefusalOf(c).None? && CallsProvider(log) && id != ""
    ensures Calls(Send(log, c, during, Delivered(id)).0, actions) == 0
    ensures Send(log, c, during, Delivered(id)).1 == Sent(id)
  {
    var after := Send(log, c, during, Delivered(id)).0;
    assert Event(Accepted, Some(id)) in after && IsProof(Event(Accepted, Some(id)));
    NeverSentTwice(after, actions);
  }

  /** While nothing new is logged, a blocked message stays blocked. */
  lemma {:induction false} BlockedStaysBlocked(log: Log, actions: seq<Action>)
    requires IsBlocked(log) && forall i | 0 <= i < |actions| :: actions[i].DoSend?
    ensures Calls(log, actions) == 0 && Run(log, actions) == log
    decreases |actions|
  {
    if actions != [] {
      assert actions[0].DoSend?;
      hide IsBlocked, LatestProof;
      BlockedStaysBlocked(log, actions[1..]);
    }
  }

  /**
   An uncertain outcome leaves the provider alone until a status arrives, exactly when nothing proved the message
   sent meanwhile and it is the first one.
   */
  lemma UncertainBlocksExactlyWhen(log: Log, c: Command, during: seq<Event>)
    requires RefusalOf(c).None? && CallsProvider(log) && 1 <= PendingCount(log) <= 2 && AllWebhooks(during)
    ensures IsBlocked(Send(log, c, during, Unknown).0) <==>
              LatestProof(AppendAll(log, during)).None? && PendingCount(log) == 1
  {
    PendingIsCapped(log, during);
    var seen := AppendAll(log, during);
    CountAppended(seen, Event(Pending, None));
    EndsPendingOnlyUnchanged(log, during);
    hide PendingCount, AppendAll, LatestProof;
  }

  /** Webhooks bring no pending event, so a log that ends in one after them is the log before them. */
  lemma {:induction false} EndsPendingOnlyUnchanged(log: Log, events: seq<Event>)
    requires AllWebhooks(events)
    ensures EndsPending(AppendAll(log, events)) ==> EndsPending(log)
    decreases |events|
  {
    if events != [] {
      EndsPendingOnlyUnchanged(Append(log, events[0]), events[1..]);
    }
  }

  /** The first uncertain outcome always blocks: no send reaches the provider before the next status. */
  lemma FirstUncertainOutcomeBlocks(log: Log, c: Command, during: seq<Event>, actions: seq<Action>)
    requires RefusalOf(c).None? && CallsProvider(log) && PendingCount(log) == 1 && AllWebhooks(during)
    requires LatestProof(AppendAll(log, during)).None?
    requires forall i | 0 <= i < |actions| :: actions[i].DoSend?
    ensures Send(log, c, during, Unknown).1 == AwaitingReconciliation
    ensures Calls(Send(log, c, during, Unknown).0, actions) == 0
  {
    UncertainBlocksExactlyWhen(log, c, during);
    PendingIsCapped(log, during);
    BlockedStaysBlocked(Send(log, c, during, Unknown).0, actions);
    hide Calls, Run, AppendAll, PendingCount, LatestProof;
  }

  /** A command on a configured channel other than Messenger, for a message of its own. */
  const PLAIN := Command(true, true, true, false, None, 0)

  /** An uncertain send and then a failed status, on a new message. */
  const UNCERTAIN_THEN_FAILED := [DoSend(PLAIN, [], Unknown), Webhook(Event(Failed, Some("wamid")))]

  /**
   The second does not: once a failed status has lifted the first block, an uncertain send writes nothing, so it can
   be repeated without end.
   */
  lemma SecondUncertainOutcomeDoesNotBlock()
    ensures ArePossible(UNCERTAIN_THEN_FAILED)
    ensures var log := Run(CREATED, UNCERTAIN_THEN_FAILED);
            CallsProvider(log) && Send(log, PLAIN, [], Unknown) == (log, AwaitingReconciliation)
  {
    var created, failed := Event(Pending, None), Event(Failed, Some("wamid"));
    var log := [created, created, failed];
    assert log[..2] == [created, created] && log[..2][..1] == [created];
    assert LatestProof([created]).None? && LatestProof(log[..2]).None? && LatestProof(log).None?;
    assert PendingCount([created]) == 1 && PendingCount(log[..2]) == 2 && PendingCount(log) == 2;
    var actions := UNCERTAIN_THEN_FAILED;
    assert Step(CREATED, actions[0]) == [created, created];
    assert Step([created, created], actions[1]) == log;
    assert actions[1..] == [actions[1]] && actions[1..][1..] == [];
    hide Step, LatestProof, PendingCount;
    assert Run([created, created], [actions[1]]) == Run(log, []) == log;
  }

  // ---- the log as the service writes it ------------------------------------------------------

  class StatusLog {
    var events: Log

    constructor ()
      ensures events == CREATED
    {
      events := [Event(Pending, None)];
    }

    method AppendStatus(e: Event)
      modifies this
      ensures events == Append(old(events), e)
    {
      if e !in events {
        events := events + [e];
      }
    }

    /** The statuses of a webhook batch, appended one by one. */
    method Receive(arriving: seq<Event>)
      modifies this
      ensures events == AppendAll(old(events), arriving)
    {
      for i := 0 to |arriving|
        invariant AppendAll(events, arriving[i..]) == AppendAll(old(events), arriving)
      {
        assert arriving[i..][1..] == arriving[i + 1..];
        AppendStatus(arriving[i]);
      }
      assert arriving[|arriving|..] == [];
    }

    method SendMessage(c: Command, during: seq<Event>, outcome: Outcome) returns (r: Reply)
      modifies this
      ensures (events, r) == Send(old(events), c, during, outcome)
    {
      hide LatestProof, PendingCount, AppendAll;
      if !c.configured {
        return NotSent(NotConfigured);
      }
      if !c.durable {
        return NotSent(NoDurableMessage);
      }
      if !c.sameConversation {
        return NotSent(OtherConversation);
      }
      if c.messenger {
        if c.latestInbound.None? || c.latestInbound.value < c.now - MESSENGER_WINDOW_MS {
          return NotSent(OutsideWindow);
        }
      }
      var accepted := LatestProof(events);
      if accepted.Some? {
        return Sent(accepted.value.providerId.value);
      }
      if EndsPending(events) && PendingCount(events) >= 2 {
        return AwaitingReconciliation;
      }
      Receive(during);
      match outcome
      case Delivered(id) =>
        AppendStatus(Event(Accepted, Some(id)));
        return Sent(id);
      case Unknown =>
        var raced := LatestProof(events);
        if raced.Some? {
          return Sent(raced.value.providerId.value);
        }
        if PendingCount(events) < 2 {
          events := events + [Event(Pending, None)];
        }
        return AwaitingReconciliation;
      case Refused =>
        AppendStatus(Event(Failed, None));
        return SendFailed;
    }
  }
}
