/**
 The Needs Attention board: who may own what, how items are ordered, and the
 reconciliation that opens, reopens, reprioritises, resolves and unassigns them.
 (apps/api/src/attention/attention-policy.ts, attention.service.ts)

 A condition key is its type and subject; items are addressed by key.
 */
module Attention {
  import opened Prelude

  type Id = string

  datatype Role = Admin | OperationsManager | Dispatcher | Supervisor | Technician
  datatype User = User(role: Role, active: bool)
  datatype Queue = Operations | ManagementReview
  datatype Priority = Critical | High | Normal
  datatype ItemState = Open | Resolved

  datatype ItemType =
    | TodayUnassigned | Overdue | CompletionAcknowledgement | AccessRequired | InterruptedVisitReview | IncidentReview

  datatype Key = Key(kind: ItemType, subject: Id)

  datatype ActivityType = Opened | Reopened | PriorityChanged | AutoResolved | Assigned | Reassigned | Seen

  datatype Item = Item(
    priority: Priority, queue: Queue, dueAt: Option<int>, description: string, state: ItemState,
    owner: Option<Id>, seenBy: Option<Id>, openedAt: int, lastObservedAt: int, resolvedAt: Option<int>,
    occurrenceCount: nat, activities: seq<ActivityType>)

  datatype Candidate = Candidate(key: Key, priority: Priority, queue: Queue, dueAt: Option<int>, description: string)

  type Board = map<Key, Item>

  // ---- policy --------------------------------------------------------------------------------

  /** `eligibleQueuesForRole` as a membership test. */
  predicate CanOwn(role: Role, queue: Queue) {
    match queue
    case Operations => role != Technician
    case ManagementReview => role == Admin || role == Supervisor
  }

  function Rank(p: Priority): nat {
    match p case Critical => 0 case High => 1 case Normal => 2
  }

  /** `compareAttentionItems`: negative when `a` comes first. */
  function Compare(a: Item, b: Item): int {
    if a.priority != b.priority then Rank(a.priority) - Rank(b.priority)
    else if a.dueAt.Some? && b.dueAt.Some? && a.dueAt.value != b.dueAt.value then a.dueAt.value - b.dueAt.value
    else if a.dueAt.Some? && b.dueAt.None? then -1
    else if a.dueAt.None? && b.dueAt.Some? then 1
    else a.openedAt - b.openedAt
  }

  /** The order is total on its classes: exactly one way round, or level both ways. */
  lemma CompareIsAntisymmetric(a: Item, b: Item)
    ensures Compare(a, b) < 0 <==> Compare(b, a) > 0
    ensures Compare(a, b) == 0 <==> Compare(b, a) == 0
    ensures Compare(a, a) == 0
  {
  }

  /** Before, and level, are both transitive: a strict weak order, so the sorted list is well defined. */
  lemma CompareIsTransitive(a: Item, b: Item, c: Item)
    ensures Compare(a, b) < 0 && Compare(b, c) < 0 ==> Compare(a, c) < 0
    ensures Compare(a, b) == 0 && Compare(b, c) == 0 ==> Compare(a, c) == 0
    ensures Compare(a, b) < 0 && Compare(b, c) == 0 ==> Compare(a, c) < 0
    ensures Compare(a, b) == 0 && Compare(b, c) < 0 ==> Compare(a, c) < 0
  {
  }

  // ---- candidates ----------------------------------------------------------------------------

  /** The types reconciliation manages: every type but the interrupted visit. */
  predicate IsManaged(key: Key) {
    key.kind != InterruptedVisitReview
  }

  predicate DistinctKeys(candidates: seq<Candidate>) {
    forall i, j | 0 <= i < j < |candidates| :: candidates[i].key != candidates[j].key
  }

  predicate AreManaged(candidates: seq<Candidate>) {
    forall i | 0 <= i < |candidates| :: IsManaged(candidates[i].key)
  }

  function Keys(candidates: seq<Candidate>): set<Key> {
    set i | 0 <= i < |candidates| :: candidates[i].key
  }

  /** One query's rows, turned into candidates of one type. */
  function OfType(kind: ItemType, rows: seq<Candidate>): seq<Candidate> {
    seq(|rows|, i requires 0 <= i < |rows| => rows[i].(key := Key(kind, rows[i].key.subject)))
  }

  /** `detectCandidates`: five queries, one type each. */
  function Detected(today: seq<Candidate>, overdue: seq<Candidate>, completions: seq<Candidate>,
                    access: seq<Candidate>, incidents: seq<Candidate>): seq<Candidate>
  {
    OfType(TodayUnassigned, today) + OfType(Overdue, overdue) + OfType(CompletionAcknowledgement, completions)
    + OfType(AccessRequired, access) + OfType(IncidentReview, incidents)
  }

  predicate DistinctSubjects(rows: seq<Candidate>) {
    forall i, j | 0 <= i < j < |rows| :: rows[i].key.subject != rows[j].key.subject
  }

  /** Each query returns a row once, so no two candidates share a condition key. */
  lemma DetectedKeysAreDistinct(today: seq<Candidate>, overdue: seq<Candidate>, completions: seq<Candidate>,
                                access: seq<Candidate>, incidents: seq<Candidate>)
    requires DistinctSubjects(today) && DistinctSubjects(overdue) && DistinctSubjects(completions)
    requires DistinctSubjects(access) && DistinctSubjects(incidents)
    ensures DistinctKeys(Detected(today, overdue, completions, access, incidents))
    ensures AreManaged(Detected(today, overdue, completions, access, incidents))
  {
    var t, o, c := OfType(TodayUnassigned, today), OfType(Overdue, overdue), OfType(CompletionAcknowledgement, completions);
    var a, i := OfType(AccessRequired, access), OfType(IncidentReview, incidents);
    OneTypeIsDistinct(TodayUnassigned, today);
    OneTypeIsDistinct(Overdue, overdue);
    OneTypeIsDistinct(CompletionAcknowledgement, completions);
    OneTypeIsDistinct(AccessRequired, access);
    OneTypeIsDistinct(IncidentReview, incidents);
    hide OfType, DistinctSubjects;
    JoinDistinct(t, o, {TodayUnassigned}, {Overdue});
    JoinDistinct(t + o, c, {TodayUnassigned, Overdue}, {CompletionAcknowledgement});
    JoinDistinct(t + o + c, a, {TodayUnassigned, Overdue, CompletionAcknowledgement}, {AccessRequired});
    JoinDistinct(t + o + c + a, i, {TodayUnassigned, Overdue, CompletionAcknowledgement, AccessRequired}, {IncidentReview});
  }

  predicate HasKinds(candidates: seq<Candidate>, kinds: set<ItemType>) {
    forall i | 0 <= i < |candidates| :: candidates[i].key.kind in kinds
  }

  lemma OneTypeIsDistinct(kind: ItemType, rows: seq<Candidate>)
    requires DistinctSubjects(rows)
    ensures DistinctKeys(OfType(kind, rows)) && HasKinds(OfType(kind, rows), {kind})
    ensures kind != InterruptedVisitReview ==> AreManaged(OfType(kind, rows))
  {
  }

  lemma JoinDistinct(a: seq<Candidate>, b: seq<Candidate>, kinds: set<ItemType>, others: set<ItemType>)
    requires DistinctKeys(a) && DistinctKeys(b) && HasKinds(a, kinds) && HasKinds(b, others) && kinds !! others
    requires AreManaged(a) && AreManaged(b)
    ensures DistinctKeys(a + b) && HasKinds(a + b, kinds + others) && AreManaged(a + b)
  {
  }

  // ---- reconciliation ------------------------------------------------------------------------

  /** The candidate's facts, as a new or refreshed item carries them. */
  function Described(item: Item, c: Candidate): Item {
    item.(priority := c.priority, queue := c.queue, dueAt := c.dueAt, description := c.description)
  }

  /** What the first loop does to the item of one candidate. */
  function Observed(existing: Option<Item>, c: Candidate, now: int): Item {
    if existing.None? then
      Item(c.priority, c.queue, c.dueAt, c.description, Open, None, None, now, now, None, 1, [Opened])
    else if existing.value.state == Resolved then
      Described(existing.value, c).(
        state := Open, owner := None, seenBy := None, resolvedAt := None, openedAt := now, lastObservedAt := now,
        occurrenceCount := existing.value.occurrenceCount + 1, activities := existing.value.activities + [Reopened])
    else
      Described(existing.value, c).(
        lastObservedAt := now,
        activities := existing.value.activities + if existing.value.priority != c.priority then [PriorityChanged] else [])
  }

  function ObserveAll(board: Board, candidates: seq<Candidate>, now: int): Board {
    if candidates == [] then board
    else
      var last := candidates[|candidates| - 1];
      var before := ObserveAll(board, candidates[..|candidates| - 1], now);
      before[last.key := Observed(Get(before, last.key), last, now)]
  }

  /** What the second loop does to an open managed item nobody reported. */
  function AutoResolve(item: Item, now: int): Item {
    item.(state := Resolved, resolvedAt := Some(now), lastObservedAt := now, activities := item.activities + [AutoResolved])
  }

  predicate IsStale(key: Key, item: Item, active: set<Key>) {
    item.state == Open && IsManaged(key) && key !in active
  }

  function ResolveStale(board: Board, active: set<Key>, now: int): Board {
    map k | k in board :: if IsStale(k, board[k], active) then AutoResolve(board[k], now) else board[k]
  }

  predicate IsEligible(users: map<Id, User>, owner: Id, queue: Queue) {
    owner in users && users[owner].active && CanOwn(users[owner].role, queue)
  }

  predicate HasLostOwner(item: Item, users: map<Id, User>) {
    item.state == Open && item.owner.Some? && !IsEligible(users, item.owner.value, item.queue)
  }

  /** What the third loop does to an open item whose owner may no longer own it. */
  function Unassign(item: Item): Item {
    item.(owner := None, activities := item.activities + [Reassigned])
  }

  function UnassignLost(board: Board, users: map<Id, User>): Board {
    map k | k in board :: if HasLostOwner(board[k], users) then Unassign(board[k]) else board[k]
  }

  /** `reconcile` */
  function Reconciled(board: Board, candidates: seq<Candidate>, users: map<Id, User>, now: int): Board {
    UnassignLost(ResolveStale(ObserveAll(board, candidates, now), Keys(candidates), now), users)
  }

  // ---- assigning and seeing ------------------------------------------------------------------

  /** A write that `assign` or `markSeen` has checked but not yet made: the two steps are not one transaction. */
  datatype Pending = SetOwner(key: Key, owner: Option<Id>, previous: Option<Id>) | SetSeen(key: Key, user: Id)

  predicate CanSee(users: map<Id, User>, actor: Id, item: Item) {
    actor in users && CanOwn(users[actor].role, item.queue)
  }

  function Written(board: Board, p: Pending): Board {
    if p.key !in board then board
    else
      var item := board[p.key];
      match p
      case SetOwner(key, owner, previous) =>
        board[key := item.(owner := owner, activities := item.activities + [if previous.Some? then Reassigned else Assigned])]
      case SetSeen(key, user) =>
        board[key := item.(seenBy := Some(user), activities := item.activities + [Seen])]
  }

  /** An open item in a queue the actor's role may work on. */
  predicate MaySee(board: Board, users: map<Id, User>, key: Key, actor: Id) {
    key in board && board[key].state == Open && CanSee(users, actor, board[key])
  }

  predicate MayAssign(board: Board, users: map<Id, User>, key: Key, owner: Option<Id>, actor: Id) {
    MaySee(board, users, key, actor) &&
    (owner.Some? && owner != board[key].owner ==> IsEligible(users, owner.value, board[key].queue))
  }

  class AttentionTable {
    var items: Board

    constructor ()
      ensures items == map[]
    {
      items := map[];
    }

    /** The three loops of one serializable transaction. */
    method Reconcile(candidates: seq<Candidate>, users: map<Id, User>, now: int)
      modifies this
      ensures items == Reconciled(old(items), candidates, users, now)
    {
      hide Observed, AutoResolve, Unassign;
      var activeKeys := Keys(candidates);
      for i := 0 to |candidates|
        invariant items == ObserveAll(old(items), candidates[..i], now)
      {
        var candidate := candidates[i];
        assert candidates[..i + 1][..i] == candidates[..i];
        items := items[candidate.key := Observed(Get(items, candidate.key), candidate, now)];
      }
      assert candidates[..|candidates|] == candidates;
      ResolveUnreported(activeKeys, now);
      ReleaseOwners(users);
    }

    method ResolveUnreported(activeKeys: set<Key>, now: int)
      modifies this
      ensures items == ResolveStale(old(items), activeKeys, now)
    {
      hide AutoResolve;
      var pending := set k | k in items && items[k].state == Open && IsManaged(k);
      while pending != {}
        invariant items.Keys == old(items).Keys
        invariant pending <= set k | k in old(items) && old(items)[k].state == Open && IsManaged(k)
        invariant forall k | k in pending :: items[k] == old(items)[k]
        invariant forall k | k in items && k !in pending :: items[k] == ResolveStale(old(items), activeKeys, now)[k]
        decreases pending
      {
        var key :| key in pending;
        pending := pending - {key};
        if key !in activeKeys {
          items := items[key := AutoResolve(items[key], now)];
        }
      }
    }

    method ReleaseOwners(users: map<Id, User>)
      modifies this
      ensures items == UnassignLost(old(items), users)
    {
      hide Unassign, IsEligible;
      var pending := set k | k in items && items[k].state == Open && items[k].owner.Some?;
      while pending != {}
        invariant items.Keys == old(items).Keys
        invariant pending <= set k | k in old(items) && old(items)[k].state == Open && old(items)[k].owner.Some?
        invariant forall k | k in pending :: items[k] == old(items)[k]
        invariant forall k | k in items && k !in pending :: items[k] == UnassignLost(old(items), users)[k]
        decreases pending
      {
        var key :| key in pending;
        pending := pending - {key};
        if !IsEligible(users, items[key].owner.value, items[key].queue) {
          items := items[key := Unassign(items[key])];
        }
      }
    }

    /** `assign`, uninterrupted between its check and its write. */
    method Assign(users: map<Id, User>, key: Key, owner: Option<Id>, actor: Id) returns (ok: bool)
      modifies this
      ensures ok <==> MayAssign(old(items), users, key, owner, actor)
      ensures items == if ok && owner != old(items)[key].owner
                       then Written(old(items), SetOwner(key, owner, old(items)[key].owner)) else old(items)
    {
      if !(key in items && items[key].state == Open && CanSee(users, actor, items[key])) {
        return false;
      }
      var item := items[key];
      if owner == item.owner {
        return true;
      }
      if owner.Some? && !IsEligible(users, owner.value, item.queue) {
        return false;
      }
      var activity := if item.owner.Some? then Reassigned else Assigned;
      items := items[key := item.(owner := owner, activities := item.activities + [activity])];
      return true;
    }

    /** `markSeen`, uninterrupted between its check and its write; the first viewer stays recorded. */
    method MarkSeen(users: map<Id, User>, key: Key, actor: Id) returns (ok: bool)
      modifies this
      ensures ok <==> MaySee(old(items), users, key, actor)
      ensures items == if ok && old(items)[key].seenBy.None?
                       then Written(old(items), SetSeen(key, actor)) else old(items)
    {
      if !(key in items && items[key].state == Open && CanSee(users, actor, items[key])) {
        return false;
      }
      if items[key].seenBy.Some? {
        return true;
      }
      items := items[key := items[key].(seenBy := Some(actor), activities := items[key].activities + [Seen])];
      return true;
    }
  }
}
