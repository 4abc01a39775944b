/**
 The conversation row and its two kinds of serializable transaction: guarded
 Quote-state transitions and human takeover / return.
 (apps/api/src/messaging/messaging-quote-state.service.ts,
 messaging-conversation-control.service.ts)
 */
module ConversationStore {
  import opened Prelude
  import opened Json
  import opened QuoteState

  datatype Control = Automation | HumanTakeover

  datatype ControlAction = TakeOver | ReturnToAutomation

  datatype Row = Row(quoteState: Option<Json>, quoteStateVersion: int, controlState: Control, controlVersion: nat)

  /** A new conversation: no Quote state yet, automation in charge. */
  const NewRow := Row(None, 0, Automation, 0)

  // ---- Quote-state transitions -------------------------------------------------------------

  predicate Authorised(row: Row, observedControlVersion: Option<nat>) {
    observedControlVersion.Some? ==>
      row.controlState == Automation && row.controlVersion == observedControlVersion.value
  }

  /** `transition`: fence, compare, parse, apply, write. */
  function TransitionRow(rules: Rules, row: Row, expected: nat, command: Command,
                         observedControlVersion: Option<nat>): Result<(Row, Snapshot), Conflict> {
    if !Authorised(row, observedControlVersion) then Err(AuthorityChanged)
    else if row.quoteStateVersion != expected then Err(Conflict.Stale(if row.quoteStateVersion < 0 then 0 else row.quoteStateVersion))
    else
      match Parse(rules, row.quoteState, row.quoteStateVersion)
      case Err(e) => Err(e)
      case Ok(current) =>
        match Apply(rules, current, command)
        case Err(e) => Err(e)
        case Ok(next) =>
          if next == current then Ok((row, current))
          else Ok((row.(quoteState := Some(Encode(next)), quoteStateVersion := next.version), next))
  }

  /** On a row that parses, a transition commits exactly when fence, version and command all agree. */
  lemma TransitionCommitsExactlyWhen(rules: Rules, row: Row, current: Snapshot, expected: nat, command: Command,
                                     observedControlVersion: Option<nat>)
    requires Lawful(rules) && Backbone(rules, current) && current.version == row.quoteStateVersion
    requires Parse(rules, row.quoteState, row.quoteStateVersion) == Ok(current)
    ensures var r := TransitionRow(rules, row, expected, command, observedControlVersion);
            var a := Apply(rules, current, command);
            (r.Ok? <==> Authorised(row, observedControlVersion) && expected == current.version && a.Ok?) &&
            (r.Ok? ==>
               r.value.1 == a.value &&
               r.value.0 == (if a.value == current then row
                             else row.(quoteState := Some(Encode(a.value)), quoteStateVersion := current.version + 1)) &&
               Parse(rules, r.value.0.quoteState, r.value.0.quoteStateVersion) == Ok(a.value) &&
               Backbone(rules, a.value) && a.value.version == r.value.0.quoteStateVersion)
  {
    hide Parse, Encode, Backbone, Apply;
    var a := Apply(rules, current, command);
    if a.Ok? {
      TransitionsKeepBackbone(rules, current, command);
      BackboneRoundTrips(rules, a.value);
    }
  }

  lemma TransitionKeepsControl(rules: Rules, row: Row, expected: nat, command: Command,
                               observedControlVersion: Option<nat>)
    ensures var r := TransitionRow(rules, row, expected, command, observedControlVersion);
            r.Ok? ==> r.value.0.controlState == row.controlState && r.value.0.controlVersion == row.controlVersion
  {
    hide Parse, Apply, Encode;
  }

  // ---- takeover and return -----------------------------------------------------------------

  datatype ControlEvent = ControlEvent(
    conversationId: string, requestId: string, action: ControlAction,
    previous: Control, resulting: Control, resultingVersion: nat)

  datatype ControlError = BadRequestId | BoundElsewhere | ControlChanged

  datatype ControlResult = ControlResult(state: Control, version: nat, changed: bool)

  predicate IsHex(c: char) {
    '0' <= c <= '9' || 'a' <= c <= 'f' || 'A' <= c <= 'F'
  }

  predicate IsUuid(s: string) {
    |s| == 36 &&
    (forall i | 0 <= i < 36 :: if i in {8, 13, 18, 23} then s[i] == '-' else IsHex(s[i])) &&
    '1' <= s[14] <= '5' && s[19] in {'8', '9', 'a', 'b', 'A', 'B'}
  }

  predicate AreHex(s: string) {
    forall i | 0 <= i < |s| :: IsHex(s[i])
  }

  /** Five runs of hexadecimal digits joined by hyphens, the third led by a version from 1 to 5, the fourth by 8, 9, a or b. */
  lemma UuidReads(a: string, b: string, c: string, d: string, e: string)
    requires |a| == 8 && |b| == 4 && |c| == 4 && |d| == 4 && |e| == 12
    ensures IsUuid(a + "-" + b + "-" + c + "-" + d + "-" + e) <==>
              AreHex(a) && AreHex(b) && AreHex(c) && AreHex(d) && AreHex(e) &&
              '1' <= c[0] <= '5' && d[0] in {'8', '9', 'a', 'b', 'A', 'B'}
  {
    var s := a + "-" + b + "-" + c + "-" + d + "-" + e;
    assert forall i | 0 <= i < 8 :: s[i] == a[i];
    assert forall i | 0 <= i < 4 :: s[9 + i] == b[i] && s[14 + i] == c[i] && s[19 + i] == d[i];
    assert forall i | 0 <= i < 12 :: s[24 + i] == e[i];
    assert s[8] == '-' && s[13] == '-' && s[18] == '-' && s[23] == '-';
    hide IsHex;
    if IsUuid(s) {
      assert forall i | 0 <= i < 8 :: IsHex(s[i]);
      forall i | 0 <= i < 4
        ensures IsHex(b[i]) && IsHex(c[i]) && IsHex(d[i])
      {
        assert IsHex(s[9 + i]) && IsHex(s[14 + i]) && IsHex(s[19 + i]);
      }
      forall i | 0 <= i < 12
        ensures IsHex(e[i])
      {
        assert IsHex(s[24 + i]);
      }
    }
    if AreHex(a) && AreHex(b) && AreHex(c) && AreHex(d) && AreHex(e) {
      forall i | 0 <= i < 36
        ensures if i in {8, 13, 18, 23} then s[i] == '-' else IsHex(s[i])
      {
        if 8 < i < 13 { assert s[i] == b[i - 9]; }
        else if 13 < i < 18 { assert s[i] == c[i - 14]; }
        else if 18 < i < 23 { assert s[i] == d[i - 19]; }
        else if 23 < i { assert s[i] == e[i - 24]; }
      }
    }
  }

  function Before(action: ControlAction): Control {
    if action.TakeOver? then Automation else HumanTakeover
  }

  function After(action: ControlAction): Control {
    if action.TakeOver? then HumanTakeover else Automation
  }

  function FindEvent(events: seq<ControlEvent>, requestId: string): (r: Option<ControlEvent>)
    ensures r.Some? ==> r.value in events && r.value.requestId == requestId
    ensures r.None? ==> forall e | e in events :: e.requestId != requestId
  {
    if events == [] then None
    else if events[0].requestId == requestId then Some(events[0])
    else FindEvent(events[1..], requestId)
  }

  /** `transition` of the control service on one row and the shared event table. */
  function ChangeControl(conversationId: string, row: Row, events: seq<ControlEvent>, requestId: string,
                         expectedVersion: nat, action: ControlAction)
    : Result<(Row, seq<ControlEvent>, ControlResult), ControlError>
  {
    if !IsUuid(requestId) then Err(BadRequestId)
    else
      var replay := FindEvent(events, requestId);
      if replay.Some? then
        if replay.value.conversationId != conversationId || replay.value.action != action then Err(BoundElsewhere)
        else Ok((row, events, ControlResult(replay.value.resulting, replay.value.resultingVersion, false)))
      else if row.controlState != Before(action) || row.controlVersion != expectedVersion then Err(ControlChanged)
      else
        var row' := row.(controlState := After(action), controlVersion := row.controlVersion + 1);
        var event := ControlEvent(conversationId, requestId, action, Before(action), After(action), row'.controlVersion);
        Ok((row', events + [event], ControlResult(row'.controlState, row'.controlVersion, true)))
  }

  /**
   Which requests are granted: a known one for the same conversation and action, or a new one that finds the control it
   expects; only a new one flips control, and by exactly one version.
   */
  lemma GrantedExactlyWhen(conversationId: string, row: Row, events: seq<ControlEvent>, requestId: string,
                           expectedVersion: nat, action: ControlAction)
    ensures var r := ChangeControl(conversationId, row, events, requestId, expectedVersion, action);
            var known := FindEvent(events, requestId);
            (r.Ok? <==>
               IsUuid(requestId) &&
               if known.Some? then known.value.conversationId == conversationId && known.value.action == action
               else row.controlVersion == expectedVersion &&
                    (row.controlState == HumanTakeover <==> action == ReturnToAutomation)) &&
            (r.Ok? ==>
               if known.Some? then r.value.0 == row && r.value.1 == events && !r.value.2.changed
               else r.value.0.controlState != row.controlState && r.value.0.controlVersion == row.controlVersion + 1 &&
                    r.value.0.quoteState == row.quoteState && r.value.0.quoteStateVersion == row.quoteStateVersion &&
                    r.value.2 == ControlResult(r.value.0.controlState, r.value.0.controlVersion, true) &&
                    |r.value.1| == |events| + 1 && events <= r.value.1)
  {
    hide IsUuid, FindEvent;
  }

  /** The versions this conversation's events resulted in, in order. */
  function OwnVersions(events: seq<ControlEvent>, conversationId: string): seq<nat> {
    if events == [] then []
    else
      var last := events[|events| - 1];
      OwnVersions(events[..|events| - 1], conversationId) +
      (if last.conversationId == conversationId then [last.resultingVersion] else [])
  }

  /** Automation holds control exactly at even versions, and the events are numbered 1..n without a gap. */
  predicate ControlInv(conversationId: string, row: Row, events: seq<ControlEvent>) {
    (row.controlState == Automation <==> row.controlVersion % 2 == 0) &&
    OwnVersions(events, conversationId) == seq(row.controlVersion, i => i + 1) &&
    (forall i, j | 0 <= i < j < |events| :: events[i].requestId != events[j].requestId) &&
    (forall e | e in events && e.conversationId == conversationId ::
       (e.resulting == Automation <==> e.resultingVersion % 2 == 0) && e.resulting == After(e.action))
  }

  lemma ChangeControlKeepsInv(conversationId: string, row: Row, events: seq<ControlEvent>, requestId: string,
                              expectedVersion: nat, action: ControlAction)
    requires ControlInv(conversationId, row, events)
    ensures var r := ChangeControl(conversationId, row, events, requestId, expectedVersion, action);
            r.Ok? ==> ControlInv(conversationId, r.value.0, r.value.1)
  {
    var r := ChangeControl(conversationId, row, events, requestId, expectedVersion, action);
    if r.Ok? && r.value.2.changed {
      var events' := r.value.1;
      assert events'[..|events'| - 1] == events;
      assert seq(row.controlVersion + 1, i => i + 1) == seq(row.controlVersion, i => i + 1) + [row.controlVersion + 1];
      forall e | e in events'
        ensures e in events || e == events'[|events|]
      {
      }
    }
  }

  /** Another conversation's takeovers do not disturb this one. */
  lemma OthersKeepInv(conversationId: string, row: Row, events: seq<ControlEvent>, other: string, otherRow: Row,
                      requestId: string, expectedVersion: nat, action: ControlAction)
    requires ControlInv(conversationId, row, events) && other != conversationId
    ensures var r := ChangeControl(other, otherRow, events, requestId, expectedVersion, action);
            r.Ok? ==> ControlInv(conversationId, row, r.value.1)
  {
    var r := ChangeControl(other, otherRow, events, requestId, expectedVersion, action);
    if r.Ok? && r.value.2.changed {
      var events' := r.value.1;
      assert events'[..|events'| - 1] == events;
      forall e | e in events'
        ensures e in events || e == events'[|events|]
      {
      }
    }
  }

  /** Asking again with the same request changes nothing and repeats the recorded outcome. */
  lemma ReplayedRequestChangesNothing(conversationId: string, row: Row, events: seq<ControlEvent>, requestId: string,
                                      expectedVersion: nat, action: ControlAction, row': Row, later: seq<ControlEvent>,
                                      expectedVersion': nat)
    requires ControlInv(conversationId, row, events)
    requires var r := ChangeControl(conversationId, row, events, requestId, expectedVersion, action);
             r.Ok? && r.value.1 <= later
    requires forall i, j | 0 <= i < j < |later| :: later[i].requestId != later[j].requestId
    ensures var first := ChangeControl(conversationId, row, events, requestId, expectedVersion, action).value.2;
            ChangeControl(conversationId, row', later, requestId, expectedVersion', action)
              == Ok((row', later, first.(changed := false)))
  {
    var r := ChangeControl(conversationId, row, events, requestId, expectedVersion, action).value;
    var recorded := if r.2.changed then r.1[|events|] else FindEvent(events, requestId).value;
    assert recorded in r.1 && recorded.requestId == requestId;
    assert recorded in later;
    assert FindEvent(later, requestId) == Some(recorded);
  }

  // ---- the rows as the services update them ------------------------------------------------

  /** The table of control events, shared by all conversations. */
  class ControlEventTable {
    var events: seq<ControlEvent>

    constructor ()
      ensures events == []
    {
      events := [];
    }
  }

  class Conversation {
    const id: string
    var quoteState: Option<Json>
    var quoteStateVersion: int
    var controlState: Control
    var controlVersion: nat

    constructor (id: string)
      ensures this.id == id && Stored() == NewRow
    {
      this.id := id;
      quoteState, quoteStateVersion := None, 0;
      controlState, controlVersion := Automation, 0;
    }

    function Stored(): Row
      reads this
    {
      Row(quoteState, quoteStateVersion, controlState, controlVersion)
    }

    /** One guarded Quote-state transaction; every refusal leaves the row alone. */
    method Transition(rules: Rules, expected: nat, command: Command, observedControlVersion: Option<nat>)
      returns (r: Result<Snapshot, Conflict>)
      modifies this`quoteState, this`quoteStateVersion
      ensures match TransitionRow(rules, old(Stored()), expected, command, observedControlVersion)
              case Ok(committed) => r == Ok(committed.1) && Stored() == committed.0
              case Err(e) => r == Err(e) && Stored() == old(Stored())
    {
      if observedControlVersion.Some? &&
         (controlState != Automation || controlVersion != observedControlVersion.value)
      {
        return Err(AuthorityChanged);
      }
      if quoteStateVersion != expected {
        return Err(Conflict.Stale(if quoteStateVersion < 0 then 0 else quoteStateVersion));
      }
      var parsed := Parse(rules, quoteState, quoteStateVersion);
      if parsed.Err? {
        return Err(parsed.error);
      }
      var current := parsed.value;
      var applied := Apply(rules, current, command);
      if applied.Err? {
        return Err(applied.error);
      }
      var next := applied.value;
      if next != current {
        quoteState := Some(Encode(next));
        quoteStateVersion := next.version;
      }
      return Ok(next);
    }

    /** Takeover or return, recorded under its request identity. */
    method Control(table: ControlEventTable, requestId: string, expectedVersion: nat, action: ControlAction)
      returns (r: Result<ControlResult, ControlError>)
      modifies this`controlState, this`controlVersion, table
      ensures match ChangeControl(id, old(Stored()), old(table.events), requestId, expectedVersion, action)
              case Ok(done) => r == Ok(done.2) && Stored() == done.0 && table.events == done.1
              case Err(e) => r == Err(e) && Stored() == old(Stored()) && table.events == old(table.events)
    {
      if !IsUuid(requestId) {
        return Err(BadRequestId);
      }
      var replay := FindEvent(table.events, requestId);
      if replay.Some? {
        if replay.value.conversationId != id || replay.value.action != action {
          return Err(BoundElsewhere);
        }
        return Ok(ControlResult(replay.value.resulting, replay.value.resultingVersion, false));
      }
      if controlState != Before(action) || controlVersion != expectedVersion {
        return Err(ControlChanged);
      }
      controlState := After(action);
      controlVersion := controlVersion + 1;
      table.events := table.events + [ControlEvent(id, requestId, action, Before(action), After(action), controlVersion)];
      return Ok(ControlResult(controlState, controlVersion, true));
    }
  }
}
