/**
 What a reconciliation leaves, and what the activity log says over every run of
 reconciliations, assignments, views and interrupted visits.
 (apps/api/src/attention/attention.service.ts)
 */
module AttentionResults {
  import opened Prelude
  import opened Attention

  // ---- one item at a time --------------------------------------------------------------------

  /** The candidate reported for a key, if any. */
  function ReportOf(candidates: seq<Candidate>, key: Key): (r: Option<Candidate>)
    ensures r.Some? ==> r.value in candidates && r.value.key == key
    ensures r.None? <==> key !in Keys(candidates)
  {
    if candidates == [] then None
    else
      var front, last := candidates[..|candidates| - 1], candidates[|candidates| - 1];
      assert candidates == front + [last];
      KeysGrow(front, last);
      if last.key == key then Some(last) else ReportOf(front, key)
  }

  lemma KeysGrow(front: seq<Candidate>, last: Candidate)
    ensures Keys(front + [last]) == Keys(front) + {last.key}
  {
    var all := front + [last];
    forall k | k in Keys(front) + {last.key}
      ensures k in Keys(all)
    {
      if k in Keys(front) {
        var i :| 0 <= i < |front| && front[i].key == k;
        assert all[i].key == k;
      } else {
        assert all[|front|].key == k;
      }
    }
  }

  /** What a reconciliation does to one key, given what was stored and what was reported for it. */
  function ReconcileOne(key: Key, existing: Option<Item>, report: Option<Candidate>, users: map<Id, User>, now: int)
    : Option<Item>
  {
    var observed := if report.Some? then Some(Observed(existing, report.value, now)) else existing;
    if observed.None? then None
    else
      var settled := if observed.value.state == Open && IsManaged(key) && report.None?
                     then AutoResolve(observed.value, now) else observed.value;
      Some(if HasLostOwner(settled, users) then Unassign(settled) else settled)
  }

  lemma {:induction false} ObservedOne(board: Board, candidates: seq<Candidate>, now: int, key: Key)
    requires DistinctKeys(candidates)
    ensures Get(ObserveAll(board, candidates, now), key)
         == match ReportOf(candidates, key)
            case None => Get(board, key)
            case Some(c) => Some(Observed(Get(board, key), c, now))
    decreases |candidates|
  {
    if candidates != [] {
      hide Observed;
      var front, last := candidates[..|candidates| - 1], candidates[|candidates| - 1];
      assert candidates == front + [last];
      ObservedOne(board, front, now, key);
      if last.key == key {
        assert key !in Keys(front);
      }
    }
  }

  /** The three loops over the whole table come to this, key by key. */
  lemma ReconciledOne(board: Board, candidates: seq<Candidate>, users: map<Id, User>, now: int, key: Key)
    requires DistinctKeys(candidates)
    ensures Get(Reconciled(board, candidates, users, now), key)
         == ReconcileOne(key, Get(board, key), ReportOf(candidates, key), users, now)
  {
    ObservedOne(board, candidates, now, key);
    hide ObserveAll, Keys, HasLostOwner, AutoResolve, Unassign, Observed, DistinctKeys;
  }

  // ---- one reconciliation --------------------------------------------------------------------

  /** The open managed items after a reconciliation are exactly the reported conditions. */
  lemma OpenItemsAreTheCandidates(board: Board, candidates: seq<Candidate>, users: map<Id, User>, now: int, key: Key)
    requires DistinctKeys(candidates) && IsManaged(key)
    ensures var after := Get(Reconciled(board, candidates, users, now), key);
            (after.Some? && after.value.state == Open) <==> key in Keys(candidates)
  {
    ReconciledOne(board, candidates, users, now, key);
    hide Reconciled, Keys, HasLostOwner, DistinctKeys;
  }

  /** Every owned open item, managed or not, has an active owner who may own its queue. */
  lemma OwnersAreEligible(board: Board, candidates: seq<Candidate>, users: map<Id, User>, now: int, key: Key)
    requires DistinctKeys(candidates)
    ensures var after := Get(Reconciled(board, candidates, users, now), key);
            after.Some? && after.value.state == Open && after.value.owner.Some? ==>
              IsEligible(users, after.value.owner.value, after.value.queue)
  {
    ReconciledOne(board, candidates, users, now, key);
    hide Reconciled, Keys, IsEligible, DistinctKeys, AutoResolve, Observed;
  }

  /** A reopened condition starts afresh: nobody's, not seen, opened now, counted once more. */
  lemma ReopenedStartsAfresh(board: Board, candidates: seq<Candidate>, users: map<Id, User>, now: int, key: Key)
    requires DistinctKeys(candidates) && key in Keys(candidates) && key in board && board[key].state == Resolved
    ensures var after := Get(Reconciled(board, candidates, users, now), key);
            after.Some? && after.value.state == Open && after.value.owner.None? && after.value.seenBy.None? &&
            after.value.openedAt == now && after.value.resolvedAt.None? &&
            after.value.occurrenceCount == board[key].occurrenceCount + 1 &&
            after.value.activities == board[key].activities + [Reopened]
  {
    ReconciledOne(board, candidates, users, now, key);
    hide Reconciled, Keys, IsEligible, DistinctKeys;
  }

  /** Reconciling an item again with the same report and users only moves the observation time. */
  lemma SecondLookAtOne(key: Key, existing: Option<Item>, report: Option<Candidate>, users: map<Id, User>, now: int, later: int)
    requires report.Some? ==> IsManaged(key)
    ensures var once := ReconcileOne(key, existing, report, users, now);
            ReconcileOne(key, once, report, users, later)
              == if once.None? || report.None? then once else Some(once.value.(lastObservedAt := later))
  {
    var once := ReconcileOne(key, existing, report, users, now);
    if once.Some? {
      assert once.value.activities + [] == once.value.activities;
    }
    hide IsEligible;
  }

  /** A second reconciliation with the same conditions adds no activity anywhere. */
  lemma SecondLookAddsNothing(board: Board, candidates: seq<Candidate>, users: map<Id, User>, now: int, later: int, key: Key)
    requires DistinctKeys(candidates) && AreManaged(candidates)
    ensures var once := Reconciled(board, candidates, users, now);
            var twice := Reconciled(once, candidates, users, later);
            (key in twice <==> key in once) &&
            (key in once ==> twice[key].activities == once[key].activities &&
                             twice[key] == once[key].(lastObservedAt := twice[key].lastObservedAt))
  {
    var once := Reconciled(board, candidates, users, now);
    ReconciledOne(board, candidates, users, now, key);
    ReconciledOne(once, candidates, users, later, key);
    var report := ReportOf(candidates, key);
    assert report.Some? ==> IsManaged(key) by {
      if report.Some? {
        var i :| 0 <= i < |candidates| && candidates[i] == report.value;
        assert IsManaged(candidates[i].key);
      }
    }
    SecondLookAtOne(key, Get(board, key), report, users, now, later);
    hide Reconciled, ReconcileOne, Keys, DistinctKeys, AreManaged, ReportOf;
  }

  // ---- everything that happens to the board --------------------------------------------------

  datatype Desk = Desk(board: Board, users: map<Id, User>, pending: seq<Pending>)

  datatype Action =
    | Reconcile(candidates: seq<Candidate>, now: int)
    | Assign(key: Key, owner: Option<Id>, actor: Id)
    | MarkSeen(key: Key, actor: Id)
    | Write(pending: nat)
    | OpenInterrupted(subject: Id, report: Candidate, now: int)
    | CloseInterrupted(subject: Id, now: int)
    | ChangeUsers(users: map<Id, User>)

  function Step(d: Desk, a: Action): Desk {
    match a
    case Reconcile(candidates, now) =>
      if DistinctKeys(candidates) && AreManaged(candidates)
      then d.(board := Reconciled(d.board, candidates, d.users, now)) else d
    case Assign(key, owner, actor) =>
      if MayAssign(d.board, d.users, key, owner, actor) && owner != d.board[key].owner
      then d.(pending := d.pending + [SetOwner(key, owner, d.board[key].owner)]) else d
    case MarkSeen(key, actor) =>
      if MaySee(d.board, d.users, key, actor) && d.board[key].seenBy.None?
      then d.(pending := d.pending + [SetSeen(key, actor)]) else d
    case Write(k) => if k < |d.pending| then d.(board := Written(d.board, d.pending[k])) else d
    // a visit is interrupted at most once, so its item is new (work-order-interruption.service.ts:51, 66)
    case OpenInterrupted(subject, c, now) =>
      var key := Key(InterruptedVisitReview, subject);
      if key in d.board then d else d.(board := d.board[key := Observed(None, c, now)])
    // closed by routing the visit or by a replacement visit
    case CloseInterrupted(subject, now) =>
      var key := Key(InterruptedVisitReview, subject);
      if key in d.board && d.board[key].state == Open
      then d.(board := d.board[key := AutoResolve(d.board[key], now)]) else d
    case ChangeUsers(users) => d.(users := users)
  }

  function Run(d: Desk, actions: seq<Action>): Desk
    decreases |actions|
  {
    if actions == [] then d else Run(Step(d, actions[0]), actions[1..])
  }

  function Times(item: Item, activity: ActivityType): nat {
    multiset(item.activities)[activity]
  }

  /** The log explains the state: openings less resolutions, and how often the condition occurred. */
  predicate LogExplains(item: Item) {
    Times(item, Opened) == 1 &&
    Times(item, Opened) + Times(item, Reopened) - Times(item, AutoResolved) == (if item.state == Open then 1 else 0) &&
    item.occurrenceCount == Times(item, Opened) + Times(item, Reopened) &&
    (item.resolvedAt.Some? <==> item.state == Resolved)
  }

  /** An interrupted visit opens its item only once. */
  predicate ItemSound(key: Key, item: Item) {
    LogExplains(item) && (!IsManaged(key) ==> item.occurrenceCount == 1)
  }

  predicate Inv(d: Desk) {
    forall key | key in d.board :: ItemSound(key, d.board[key])
  }

  lemma ReconcileOneKeepsLog(key: Key, existing: Option<Item>, report: Option<Candidate>, users: map<Id, User>, now: int)
    requires existing.Some? ==> LogExplains(existing.value)
    ensures var after := ReconcileOne(key, existing, report, users, now);
            after.Some? ==> LogExplains(after.value)
  {
    hide IsEligible;
  }

  lemma WriteKeepsLog(item: Item, activity: ActivityType, item': Item)
    requires LogExplains(item) && activity in {Assigned, Reassigned, Seen}
    requires item' == item.(owner := item'.owner, seenBy := item'.seenBy, activities := item.activities + [activity])
    ensures LogExplains(item')
  {
  }

  lemma ReconcileKeepsInv(d: Desk, candidates: seq<Candidate>, now: int)
    requires Inv(d)
    ensures Inv(Step(d, Reconcile(candidates, now)))
  {
    var d' := Step(d, Reconcile(candidates, now));
    if DistinctKeys(candidates) && AreManaged(candidates) {
      forall key | key in d'.board
        ensures ItemSound(key, d'.board[key])
      {
        ReconciledOne(d.board, candidates, d.users, now, key);
        if key in d.board { assert ItemSound(key, d.board[key]); }
        hide Reconciled;
        ReconcileOneKeepsLog(key, Get(d.board, key), ReportOf(candidates, key), d.users, now);
        assert ReportOf(candidates, key).Some? ==> key in Keys(candidates) && IsManaged(key);
      }
    }
  }

  lemma WriteKeepsInv(d: Desk, k: nat)
    requires Inv(d)
    ensures Inv(Step(d, Write(k)))
  {
    if k < |d.pending| && d.pending[k].key in d.board {
      var p := d.pending[k];
      assert ItemSound(p.key, d.board[p.key]);
      WriteKeepsLog(d.board[p.key], if p.SetSeen? then Seen else if p.previous.Some? then Reassigned else Assigned,
                    Written(d.board, p)[p.key]);
      hide LogExplains;
    }
  }

  lemma StepKeepsInv(d: Desk, a: Action)
    requires Inv(d)
    ensures Inv(Step(d, a))
  {
    if a.Reconcile? {
      ReconcileKeepsInv(d, a.candidates, a.now);
    } else if a.Write? {
      WriteKeepsInv(d, a.pending);
    } else if a.OpenInterrupted? || a.CloseInterrupted? {
      var key := Key(InterruptedVisitReview, a.subject);
      if key in d.board { assert ItemSound(key, d.board[key]); }
    }
  }

  /**
   Over every run, from an empty board: openings less resolutions are 1 when open and 0 when resolved, and the
   count is the number of openings; an interrupted visit is opened once, so once resolved it stays resolved.
   */
  lemma {:induction false} TheLogExplainsTheBoard(d: Desk, actions: seq<Action>)
    requires Inv(d)
    ensures Inv(Run(d, actions))
    decreases |actions|
  {
    if actions != [] {
      StepKeepsInv(d, actions[0]);
      hide Inv, Step;
      TheLogExplainsTheBoard(Step(d, actions[0]), actions[1..]);
    }
  }

  /** Managed conditions are never forgotten. */
  lemma ItemsStay(d: Desk, a: Action, key: Key)
    requires key in d.board
    ensures key in Step(d, a).board && d.board[key].activities <= Step(d, a).board[key].activities
  {
    if a.Reconcile? && DistinctKeys(a.candidates) && AreManaged(a.candidates) {
      ReconciledOne(d.board, a.candidates, d.users, a.now, key);
      hide Reconciled, ReportOf, IsEligible;
    }
  }
}
