/**
 The delivery attempts of one correspondence record, and the versions of one
 template. (apps/api/src/correspondence/correspondence.service.ts)
 */
module DeliveryChain {
  import opened Prelude

  type Id = string

  datatype Status = Pending | Accepted | Failed

  /** What a caller reports about an attempt; texts arrive trimmed, blank ones as none. */
  datatype Outcome = Outcome(status: Status, failureCode: Option<string>, failureMessage: Option<string>)

  datatype Attempt = Attempt(id: Id, number: nat, previous: Option<Id>, events: seq<Status>)

  /** In the order of their numbers. */
  type Attempts = seq<Attempt>

  datatype Refusal =
    | NotTheLatest | NotFailed | AlreadyStarted | IdTaken | BadStatus | FailureNeedsDetails | AcceptanceWithDetails
    | NoAttempt | AlreadyTerminal | NoPendingState

  predicate HasId(attempts: Attempts, id: Id) {
    exists i :: 0 <= i < |attempts| && attempts[i].id == id
  }

  function LastEvent(a: Attempt): Option<Status> {
    if a.events == [] then None else Some(a.events[|a.events| - 1])
  }

  /** `createDeliveryAttempt` */
  function Create(attempts: Attempts, previous: Option<Id>, newId: Id): Result<Attempts, Refusal> {
    if HasId(attempts, newId) then Err(IdTaken)
    else if previous.Some? then
      if attempts == [] || attempts[|attempts| - 1].id != previous.value then Err(NotTheLatest)
      else if LastEvent(attempts[|attempts| - 1]) != Some(Failed) then Err(NotFailed)
      else Ok(attempts + [Attempt(newId, attempts[|attempts| - 1].number + 1, previous, [Pending])])
    else if attempts != [] then Err(AlreadyStarted)
    else Ok([Attempt(newId, 1, None, [Pending])])
  }

  function OutcomeRefusal(o: Outcome): Option<Refusal> {
    if o.status != Accepted && o.status != Failed then Some(BadStatus)
    else if o.status == Failed && o.failureCode.None? && o.failureMessage.None? then Some(FailureNeedsDetails)
    else if o.status == Accepted && (o.failureCode.Some? || o.failureMessage.Some?) then Some(AcceptanceWithDetails)
    else None
  }

  /** `recordDeliveryOutcome` on the attempt at an index; past the end there is none. */
  function Record(attempts: Attempts, k: nat, o: Outcome): Result<Attempts, Refusal> {
    if OutcomeRefusal(o).Some? then Err(OutcomeRefusal(o).value)
    else if k >= |attempts| then Err(NoAttempt)
    else if Accepted in attempts[k].events || Failed in attempts[k].events then Err(AlreadyTerminal)
    else if Pending !in attempts[k].events then Err(NoPendingState)
    else Ok(attempts[k := attempts[k].(events := attempts[k].events + [o.status])])
  }

  datatype Action = Retry(previous: Option<Id>, newId: Id) | Report(attempt: nat, outcome: Outcome)

  function Step(attempts: Attempts, a: Action): Attempts {
    var r := match a
             case Retry(previous, newId) => Create(attempts, previous, newId)
             case Report(k, outcome) => Record(attempts, k, outcome);
    if r.Ok? then r.value else attempts
  }

  function Run(attempts: Attempts, actions: seq<Action>): Attempts
    decreases |actions|
  {
    if actions == [] then attempts else Run(Step(attempts, actions[0]), actions[1..])
  }

  /** One pending event, then at most one terminal one. */
  predicate EventsSound(events: seq<Status>) {
    events == [Pending] || events == [Pending, Accepted] || events == [Pending, Failed]
  }

  /** An attempt carries its number, sound events, and a link to the attempt before it. */
  predicate InPlace(attempts: Attempts, i: nat)
    requires i < |attempts|
  {
    attempts[i].number == i + 1 && EventsSound(attempts[i].events) &&
    attempts[i].previous == (if i == 0 then None else Some(attempts[i - 1].id))
  }

  /** Numbered 1 to n and linked in order; all but the last have failed. */
  predicate ChainSound(attempts: Attempts) {
    (forall i: nat | i < |attempts| :: InPlace(attempts, i)) &&
    (forall i | 0 <= i < |attempts| - 1 :: attempts[i].events == [Pending, Failed]) &&
    (forall i, j | 0 <= i < j < |attempts| :: attempts[i].id != attempts[j].id)
  }

  lemma CreateKeepsChain(attempts: Attempts, previous: Option<Id>, newId: Id)
    requires ChainSound(attempts) && Create(attempts, previous, newId).Ok?
    ensures ChainSound(Create(attempts, previous, newId).value)
  {
    var after := Create(attempts, previous, newId).value;
    if attempts != [] {
      assert InPlace(attempts, |attempts| - 1);
      assert attempts[|attempts| - 1].events == [Pending, Failed];
    }
    forall i: nat | i < |after|
      ensures InPlace(after, i)
    {
      if i < |attempts| { assert InPlace(attempts, i); }
    }
    hide InPlace;
  }

  lemma RecordKeepsChain(attempts: Attempts, k: nat, o: Outcome)
    requires ChainSound(attempts) && Record(attempts, k, o).Ok?
    ensures ChainSound(Record(attempts, k, o).value)
  {
    FailedIsListed();
    var after := Record(attempts, k, o).value;
    assert InPlace(attempts, k);
    assert k == |attempts| - 1;
    ReportIsTerminal(attempts[k].events, o);
    forall i: nat | i < |after|
      ensures InPlace(after, i)
    {
      assert InPlace(attempts, i);
    }
    hide InPlace, OutcomeRefusal;
  }

  lemma FailedIsListed()
    ensures Failed in [Pending, Failed]
  {
    assert [Pending, Failed][1] == Failed;
  }

  lemma StepKeepsChain(attempts: Attempts, a: Action)
    requires ChainSound(attempts)
    ensures ChainSound(Step(attempts, a))
  {
    match a
    case Retry(previous, newId) =>
      if Create(attempts, previous, newId).Ok? { CreateKeepsChain(attempts, previous, newId); }
      hide ChainSound, Create;
    case Report(k, outcome) =>
      if Record(attempts, k, outcome).Ok? { RecordKeepsChain(attempts, k, outcome); }
      hide ChainSound, Record;
  }

  lemma ReportIsTerminal(events: seq<Status>, o: Outcome)
    requires EventsSound(events) && OutcomeRefusal(o).None?
    ensures Accepted !in events && Failed !in events ==> events == [Pending] && EventsSound(events + [o.status])
    ensures events == [Pending, Failed] ==> Failed in events
  {
    if events == [Pending, Failed] { assert events[1] == Failed; }
    if events == [Pending, Accepted] { assert events[1] == Accepted; }
  }

  /** Over every run the attempts form one chain. */
  lemma {:induction false} RunKeepsChain(attempts: Attempts, actions: seq<Action>)
    requires ChainSound(attempts)
    ensures ChainSound(Run(attempts, actions))
    decreases |actions|
  {
    if actions != [] {
      StepKeepsChain(attempts, actions[0]);
      hide ChainSound, Step;
      RunKeepsChain(Step(attempts, actions[0]), actions[1..]);
    }
  }

  /** At most one attempt is accepted, and it is the last one. */
  lemma OnlyTheLastIsAccepted(attempts: Attempts, k: nat)
    requires ChainSound(attempts) && k < |attempts| && Accepted in attempts[k].events
    ensures k == |attempts| - 1
  {
  }

  /** An accepted record is finished: no attempt is added and no outcome recorded. */
  lemma {:induction false} AcceptanceEndsTheChain(attempts: Attempts, actions: seq<Action>)
    requires ChainSound(attempts) && attempts != [] && Accepted in attempts[|attempts| - 1].events
    ensures Run(attempts, actions) == attempts
    decreases |actions|
  {
    if actions != [] {
      AcceptedRefuses(attempts, actions[0]);
      hide Step, ChainSound;
      AcceptanceEndsTheChain(attempts, actions[1..]);
    }
  }

  lemma AcceptedRefuses(attempts: Attempts, a: Action)
    requires ChainSound(attempts) && attempts != [] && Accepted in attempts[|attempts| - 1].events
    ensures Step(attempts, a) == attempts
  {
    var last := attempts[|attempts| - 1];
    assert InPlace(attempts, |attempts| - 1) && last.events == [Pending, Accepted];
    assert LastEvent(last) == Some(Accepted);
    if a.Report? && a.attempt < |attempts| - 1 {
      assert attempts[a.attempt].events[1] == Failed;
    }
  }

  /** A chain can go on exactly when it is empty or its last attempt has failed. */
  lemma ContinuesExactlyWhen(attempts: Attempts, newId: Id)
    requires ChainSound(attempts) && !HasId(attempts, newId)
    ensures (exists previous :: Create(attempts, previous, newId).Ok?) <==>
              attempts == [] || attempts[|attempts| - 1].events == [Pending, Failed]
  {
    if attempts == [] {
      assert Create(attempts, None, newId).Ok?;
    } else {
      var last := attempts[|attempts| - 1];
      assert InPlace(attempts, |attempts| - 1);
      if last.events == [Pending, Failed] {
        assert Create(attempts, Some(last.id), newId).Ok?;
      }
    }
  }

  class RecordAttempts {
    var attempts: Attempts

    constructor ()
      ensures attempts == [] && ChainSound(attempts)
    {
      attempts := [];
    }

    method CreateDeliveryAttempt(previous: Option<Id>, newId: Id) returns (r: Result<nat, Refusal>)
      modifies this
      ensures match Create(old(attempts), previous, newId)
              case Ok(created) => attempts == created && r == Ok(|old(attempts)|)
              case Err(e) => attempts == old(attempts) && r == Err(e)
    {
      if HasId(attempts, newId) {
        return Err(IdTaken);
      }
      var attemptNumber := 1;
      var previousId: Option<Id> := None;
      if previous.Some? {
        if attempts == [] || attempts[|attempts| - 1].id != previous.value {
          return Err(NotTheLatest);
        }
        var latest := attempts[|attempts| - 1];
        if LastEvent(latest) != Some(Failed) {
          return Err(NotFailed);
        }
        attemptNumber := latest.number + 1;
        previousId := Some(latest.id);
      } else if attempts != [] {
        return Err(AlreadyStarted);
      }
      attempts := attempts + [Attempt(newId, attemptNumber, previousId, [Pending])];
      return Ok(|attempts| - 1);
    }

    method RecordDeliveryOutcome(k: nat, outcome: Outcome) returns (r: Result<Status, Refusal>)
      modifies this
      ensures match Record(old(attempts), k, outcome)
              case Ok(recorded) => attempts == recorded && r == Ok(outcome.status)
              case Err(e) => attempts == old(attempts) && r == Err(e)
    {
      var refusal := OutcomeRefusal(outcome);
      if refusal.Some? {
        return Err(refusal.value);
      }
      if k >= |attempts| {
        return Err(NoAttempt);
      }
      var attempt := attempts[k];
      if Accepted in attempt.events || Failed in attempt.events {
        return Err(AlreadyTerminal);
      }
      if Pending !in attempt.events {
        return Err(NoPendingState);
      }
      attempts := attempts[k := attempt.(events := attempt.events + [outcome.status])];
      return Ok(outcome.status);
    }
  }

  // ---- template versions ---------------------------------------------------------------------

  datatype VersionStatus = Draft | Published | Retired

  /** Versions by number less one. */
  type Versions = seq<VersionStatus>

  datatype VersionAction = NewDraft | Publish(version: nat) | Retire(version: nat)

  function VersionStep(versions: Versions, a: VersionAction): Versions {
    match a
    case NewDraft => if Draft in versions then versions else versions + [Draft]
    case Publish(k) =>
      if k >= |versions| || versions[k] != Draft then versions
      else
        seq(|versions|, i requires 0 <= i < |versions| =>
          if i == k then Published else if versions[i] == Published then Retired else versions[i])
    case Retire(k) => if k < |versions| && versions[k] == Published then versions[k := Retired] else versions
  }

  /** At most one draft and at most one published version; nothing comes back from retirement. */
  predicate VersionsSound(versions: Versions) {
    forall i, j | 0 <= i < j < |versions| ::
      !(versions[i] == Draft && versions[j] == Draft) && !(versions[i] == Published && versions[j] == Published)
  }

  function VersionRun(versions: Versions, actions: seq<VersionAction>): Versions
    decreases |actions|
  {
    if actions == [] then versions else VersionRun(VersionStep(versions, actions[0]), actions[1..])
  }

  lemma VersionStepIsSound(versions: Versions, a: VersionAction)
    requires VersionsSound(versions)
    ensures VersionsSound(VersionStep(versions, a)) && |versions| <= |VersionStep(versions, a)|
    ensures forall i | 0 <= i < |versions| ::
              (versions[i] == Retired ==> VersionStep(versions, a)[i] == Retired) &&
              (versions[i] == Published ==> VersionStep(versions, a)[i] != Draft)
  {
  }

  lemma {:induction false} VersionRunIsSound(versions: Versions, actions: seq<VersionAction>)
    requires VersionsSound(versions)
    ensures VersionsSound(VersionRun(versions, actions)) && |versions| <= |VersionRun(versions, actions)|
    ensures forall i | 0 <= i < |versions| && versions[i] == Retired :: VersionRun(versions, actions)[i] == Retired
    decreases |actions|
  {
    if actions != [] {
      VersionStepIsSound(versions, actions[0]);
      hide VersionStep, VersionsSound;
      VersionRunIsSound(VersionStep(versions, actions[0]), actions[1..]);
    }
  }
}
