/**
 Under exactly which conditions delivery attempts, their outcomes and template versions are taken.
 (apps/api/src/correspondence/correspondence.service.ts)
 */
module DeliveryEffects {
  import opened Prelude
  import opened DeliveryChain

  /** An acceptance comes without failure details, a failure with some. */
  lemma OutcomeIsSoundExactlyWhen(o: Outcome)
    ensures OutcomeRefusal(o).None? <==>
              (o.status == Accepted && o.failureCode.None? && o.failureMessage.None?) ||
              (o.status == Failed && (o.failureCode.Some? || o.failureMessage.Some?))
  {
  }

  /** In a chain, an outcome is recorded exactly on its last attempt while that is pending, and only there. */
  lemma RecordedExactlyWhen(attempts: Attempts, k: nat, o: Outcome)
    requires ChainSound(attempts)
    ensures Record(attempts, k, o).Ok? <==>
              OutcomeRefusal(o).None? && attempts != [] && k == |attempts| - 1 && attempts[k].events == [Pending]
    ensures Record(attempts, k, o).Ok? ==>
              Record(attempts, k, o).value == attempts[k := attempts[k].(events := [Pending, o.status])]
  {
    if k < |attempts| {
      assert InPlace(attempts, k);
      EventsList(attempts[k].events);
      assert [Pending] + [o.status] == [Pending, o.status];
    }
    hide OutcomeRefusal, InPlace;
  }

  lemma EventsList(events: seq<Status>)
    requires EventsSound(events)
    ensures Pending in events
    ensures Accepted in events || Failed in events <==> events != [Pending]
  {
    assert events[0] == Pending;
    if |events| == 2 { assert events[1] in events; }
  }

  /** In a chain, an attempt is added exactly under a new id: the first without a predecessor, a retry on the last failure. */
  lemma CreatedExactlyWhen(attempts: Attempts, previous: Option<Id>, newId: Id)
    requires ChainSound(attempts)
    ensures Create(attempts, previous, newId).Ok? <==>
              !HasId(attempts, newId) &&
              if attempts == [] then previous.None?
              else previous == Some(attempts[|attempts| - 1].id) && attempts[|attempts| - 1].events == [Pending, Failed]
    ensures Create(attempts, previous, newId).Ok? ==>
              Create(attempts, previous, newId).value
                == attempts + [Attempt(newId, |attempts| + 1, previous, [Pending])]
  {
    if attempts != [] {
      var last := attempts[|attempts| - 1];
      assert InPlace(attempts, |attempts| - 1);
      EventsList(last.events);
      assert last.events != [] && (LastEvent(last) == Some(Failed) <==> last.events == [Pending, Failed]);
    }
    hide HasId, InPlace, EventsSound;
  }

  // ---- template versions ---------------------------------------------------------------------

  /** Why a version changes: publishing is for drafts and retires its predecessor; only what is published retires. */
  lemma VersionsChangeForAReason(versions: Versions, a: VersionAction, i: nat)
    requires VersionsSound(versions) && i < |versions|
    ensures var after := VersionStep(versions, a);
            i < |after| && (after[i] == Draft <==> versions[i] == Draft && a != Publish(i)) &&
            (versions[i] != Published && after[i] == Published <==> a == Publish(i) && versions[i] == Draft) &&
            (versions[i] != Retired && after[i] == Retired <==>
               versions[i] == Published &&
               (a == Retire(i) || (a.Publish? && a.version < |versions| && versions[a.version] == Draft)))
  {
  }

  /** A version is added exactly when a draft is asked for and none is open; it is that draft. */
  lemma DraftsAreOpenedExactlyWhen(versions: Versions, a: VersionAction)
    ensures |VersionStep(versions, a)| > |versions| <==> a == NewDraft && Draft !in versions
    ensures |VersionStep(versions, a)| > |versions| ==> VersionStep(versions, a) == versions + [Draft]
  {
  }

  /** After publishing a draft it is the one published version. */
  lemma PublishingMakesTheOne(versions: Versions, k: nat)
    requires VersionsSound(versions) && k < |versions| && versions[k] == Draft
    ensures var after := VersionStep(versions, Publish(k));
            |after| == |versions| && forall i | 0 <= i < |after| :: after[i] == Published <==> i == k
  {
  }
}
