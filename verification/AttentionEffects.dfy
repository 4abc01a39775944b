/**
 What the Needs Attention board shows: the order of the list, who may own what, and what one reconciliation,
 assignment or view makes of an item.
 (apps/api/src/attention/attention-policy.ts, attention.service.ts)
 */
module AttentionEffects {
  import opened Prelude
  import opened Attention
  import opened AttentionResults

  // ---- the order of the list -----------------------------------------------------------------

  /** Critical before high before normal. */
  predicate IsMoreUrgent(p: Priority, q: Priority) {
    (p == Critical && q != Critical) || (p == High && q == Normal)
  }

  /** Then what is due sooner, anything due before what is not, and last what was opened sooner. */
  predicate Precedes(a: Item, b: Item) {
    IsMoreUrgent(a.priority, b.priority) ||
    (a.priority == b.priority &&
     match (a.dueAt, b.dueAt)
     case (Some(d), Some(e)) => d < e || (d == e && a.openedAt < b.openedAt)
     case (Some(_), None) => true
     case (None, Some(_)) => false
     case (None, None) => a.openedAt < b.openedAt)
  }

  lemma ComesFirstExactlyWhen(a: Item, b: Item)
    ensures Compare(a, b) < 0 <==> Precedes(a, b)
    ensures Compare(a, b) > 0 <==> Precedes(b, a)
  {
  }

  function QueuesOf(role: Role): set<Queue> {
    match role
    case Admin => {Operations, ManagementReview}
    case Supervisor => {Operations, ManagementReview}
    case OperationsManager => {Operations}
    case Dispatcher => {Operations}
    case Technician => {}
  }

  lemma OwnershipFollowsTheRole(role: Role, queue: Queue)
    ensures CanOwn(role, queue) <==> queue in QueuesOf(role)
  {
  }

  // ---- one reconciliation, item by item ------------------------------------------------------

  /** The item carries the facts of the report, and the time it was made. */
  predicate Shows(item: Item, c: Candidate, now: int) {
    item.state == Open && item.priority == c.priority && item.queue == c.queue && item.dueAt == c.dueAt &&
    item.description == c.description && item.lastObservedAt == now && item.resolvedAt.None?
  }

  predicate KeepsOwner(owner: Option<Id>, queue: Queue, users: map<Id, User>) {
    owner.Some? ==> owner.value in users && users[owner.value].active && queue in QueuesOf(users[owner.value].role)
  }

  /** A condition reported for the first time. */
  lemma NewConditionsAreOpened(board: Board, candidates: seq<Candidate>, users: map<Id, User>, now: int, key: Key)
    requires DistinctKeys(candidates) && key in Keys(candidates) && key !in board
    ensures var after := Get(Reconciled(board, candidates, users, now), key);
            after.Some? && Shows(after.value, ReportOf(candidates, key).value, now) && after.value.openedAt == now &&
            after.value.owner.None? && after.value.seenBy.None? && after.value.occurrenceCount == 1 &&
            after.value.activities == [Opened]
  {
    ReconciledOne(board, candidates, users, now, key);
    hide Reconciled, Keys, IsEligible, DistinctKeys;
  }

  /**
   A condition reported again while open: it takes the report, notes a change of priority, and keeps its opening,
   viewer and count; its owner stays exactly while the owner may work on the reported queue.
   */
  lemma OpenConditionsTakeTheReport(board: Board, candidates: seq<Candidate>, users: map<Id, User>, now: int, key: Key)
    requires DistinctKeys(candidates) && key in Keys(candidates) && key in board && board[key].state == Open
    requires board[key].resolvedAt.None?
    ensures var before, c := board[key], ReportOf(candidates, key).value;
            var after := Get(Reconciled(board, candidates, users, now), key);
            var stays := KeepsOwner(before.owner, c.queue, users);
            after.Some? && Shows(after.value, c, now) && after.value.openedAt == before.openedAt &&
            after.value.seenBy == before.seenBy && after.value.occurrenceCount == before.occurrenceCount &&
            after.value.owner == (if stays then before.owner else None) &&
            after.value.activities == before.activities + (if before.priority != c.priority then [PriorityChanged] else [])
                                      + (if stays then [] else [Reassigned])
  {
    ReconciledOne(board, candidates, users, now, key);
    var c := ReportOf(candidates, key).value;
    if board[key].owner.Some? && board[key].owner.value in users {
      OwnershipFollowsTheRole(users[board[key].owner.value].role, c.queue);
    }
    hide Reconciled, Keys, DistinctKeys, CanOwn, QueuesOf;
  }

  /** A condition reported again after it was resolved takes the report too. */
  lemma ReturningConditionsTakeTheReport(board: Board, candidates: seq<Candidate>, users: map<Id, User>, now: int, key: Key)
    requires DistinctKeys(candidates) && key in Keys(candidates) && key in board && board[key].state == Resolved
    ensures var after := Get(Reconciled(board, candidates, users, now), key);
            after.Some? && Shows(after.value, ReportOf(candidates, key).value, now)
  {
    ReconciledOne(board, candidates, users, now, key);
    hide Reconciled, Keys, IsEligible, DistinctKeys;
  }

  /** An open condition nobody reports is resolved now, and keeps its facts and history. */
  lemma UnreportedConditionsAreResolved(board: Board, candidates: seq<Candidate>, users: map<Id, User>, now: int, key: Key)
    requires DistinctKeys(candidates) && key !in Keys(candidates) && key in board && IsManaged(key)
    requires board[key].state == Open
    ensures Get(Reconciled(board, candidates, users, now), key)
         == Some(board[key].(state := Resolved, resolvedAt := Some(now), lastObservedAt := now,
                             activities := board[key].activities + [AutoResolved]))
  {
    ReconciledOne(board, candidates, users, now, key);
    hide Reconciled, Keys, IsEligible, DistinctKeys;
  }

  /** What is resolved and unreported stays as it is; an interrupted visit at most loses its owner. */
  lemma OtherItemsStay(board: Board, candidates: seq<Candidate>, users: map<Id, User>, now: int, key: Key)
    requires DistinctKeys(candidates) && key !in Keys(candidates)
    ensures var after := Get(Reconciled(board, candidates, users, now), key);
            (key !in board ==> after.None?) &&
            (key in board && board[key].state == Resolved ==> after == Some(board[key])) &&
            (key in board && board[key].state == Open && !IsManaged(key) ==>
               after == Some(if KeepsOwner(board[key].owner, board[key].queue, users) then board[key]
                             else board[key].(owner := None, activities := board[key].activities + [Reassigned])))
  {
    ReconciledOne(board, candidates, users, now, key);
    if key in board && board[key].owner.Some? && board[key].owner.value in users {
      OwnershipFollowsTheRole(users[board[key].owner.value].role, board[key].queue);
    }
    hide Reconciled, Keys, DistinctKeys, CanOwn, QueuesOf;
  }

  // ---- assigning and seeing ------------------------------------------------------------------

  /** An assignment nobody interrupts: who may make it, and what it leaves. */
  lemma AssignmentsLand(d: Desk, key: Key, owner: Option<Id>, actor: Id)
    requires key in d.board && owner != d.board[key].owner
    ensures var item := d.board[key];
            var d1 := Step(d, Assign(key, owner, actor));
            var allowed := item.state == Open && actor in d.users && item.queue in QueuesOf(d.users[actor].role) &&
                           KeepsOwner(owner, item.queue, d.users);
            if allowed then
              |d1.pending| == |d.pending| + 1 &&
              Step(d1, Write(|d.pending|)).board
                == d.board[key := item.(owner := owner, activities := item.activities +
                                          [if item.owner.Some? then Reassigned else Assigned])]
            else d1 == d
  {
    var item := d.board[key];
    if actor in d.users { OwnershipFollowsTheRole(d.users[actor].role, item.queue); }
    if owner.Some? && owner.value in d.users { OwnershipFollowsTheRole(d.users[owner.value].role, item.queue); }
    hide CanOwn, QueuesOf;
  }

  /** The first view of an open item is recorded, by those who see its queue. */
  lemma ViewsLand(d: Desk, key: Key, actor: Id)
    requires key in d.board
    ensures var item := d.board[key];
            var d1 := Step(d, MarkSeen(key, actor));
            if item.state == Open && actor in d.users && item.queue in QueuesOf(d.users[actor].role) && item.seenBy.None?
            then |d1.pending| == |d.pending| + 1 &&
                 Step(d1, Write(|d.pending|)).board
                   == d.board[key := item.(seenBy := Some(actor), activities := item.activities + [Seen])]
            else d1 == d
  {
    if actor in d.users { OwnershipFollowsTheRole(d.users[actor].role, d.board[key].queue); }
    hide CanOwn, QueuesOf;
  }
}
