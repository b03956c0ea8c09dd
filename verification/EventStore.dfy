/**
  The event log as its readers and writers see it (contract of `EventLog`,
  crates/cairn-store/src/event_log.rs, as the in-memory store keeps it).

  Appending an event assigns the next position, enters its causation id in the
  index unless the id is there already, and broadcasts the event.  The
  projections may then add derived events to the log; these take positions of
  their own but are not broadcast.
 */
module EventStore {
  import opened Common

  datatype RunState = Pending | Running | Completed | Failed | OtherRunState
  datatype TaskState = Queued | DeadLettered | RetryableFailed | OtherTaskState

  /** The runtime events that some code here treats specially, each with the
      entity it names; everything else is `OtherEvent`. */
  datatype RuntimeEvent =
    | SessionCreated
    | SessionStateChanged
    | RunCreated
    | RunStateChanged(runId: string, runTo: RunState)
    | TaskCreated
    | TaskStateChanged(taskId: string, taskTo: TaskState)
    | TaskDependencyAdded
    | TaskDependencyResolved
    | TaskLeaseClaimed
    | TaskLeaseHeartbeated
    | ApprovalRequested(approvalId: string)
    | ApprovalResolved(approvalId: string)
    | CheckpointRecorded
    | CheckpointRestored
    | MailboxMessageAppended
    | ToolInvocationStarted
    | ToolInvocationCompleted
    | ToolInvocationFailed
    | ExternalWorkerReported
    | SubagentSpawned
    | OtherEvent(name: string)

  datatype Ownership =
    | System
    | Tenant(tenant: string)
    | Workspace(tenant: string, workspace: string)
    | Project(tenant: string, workspace: string, project: string)

  function TenantOf(o: Ownership): Option<string> {
    if o.System? then None else Some(o.tenant)
  }

  datatype Envelope = Envelope(eventId: string, ownership: Ownership, causationId: Option<string>, payload: RuntimeEvent)

  datatype Stored = Stored(position: nat, envelope: Envelope, derived: bool)

  datatype Store = Store(events: seq<Stored>, nextPosition: nat, causationIndex: map<string, nat>)

  const EMPTY := Store([], 1, map[])

  /** What the projections add to a log on the arrival of an event. */
  type Projector = (seq<Stored>, Envelope) -> seq<Envelope>

  /** Derived events carry no causation id. */
  ghost predicate Uncaused(derive: Projector) {
    forall log, e, d :: d in derive(log, e) ==> d.causationId.None?
  }

  function Place(envelopes: seq<Envelope>, from: nat): seq<Stored> {
    seq(|envelopes|, i requires 0 <= i < |envelopes| => Stored(from + i, envelopes[i], true))
  }

  function Append(s: Store, e: Envelope, derive: Projector): Store {
    var stored := Stored(s.nextPosition, e, false);
    var log := s.events + [stored];
    var extra := derive(log, e);
    Store(
      log + Place(extra, s.nextPosition + 1),
      s.nextPosition + 1 + |extra|,
      if e.causationId.Some? && e.causationId.value !in s.causationIndex
      then s.causationIndex[e.causationId.value := s.nextPosition]
      else s.causationIndex)
  }

  function FindByCausationId(s: Store, cid: string): Option<nat> {
    if cid in s.causationIndex then Some(s.causationIndex[cid]) else None
  }

  function HeadPosition(s: Store): Option<nat> {
    if s.events == [] then None else Some(Last(s.events).position)
  }

  /** The events past a position, in log order. */
  function Past(log: seq<Stored>, position: nat): seq<Stored> {
    if log == [] then []
    else (if log[0].position > position then [log[0]] else []) + Past(log[1..], position)
  }

  function ReadStream(log: seq<Stored>, after: Option<nat>, limit: nat): seq<Stored> {
    var past := Past(log, if after.Some? then after.value else 0);
    if |past| <= limit then past else past[..limit]
  }

  /** The name clients filter on. */
  function EventTypeName(e: RuntimeEvent): string {
    match e
    case SessionCreated => "session_created"
    case SessionStateChanged => "session_state_changed"
    case RunCreated => "run_created"
    case RunStateChanged(_, _) => "run_state_changed"
    case TaskCreated => "task_created"
    case TaskStateChanged(_, _) => "task_state_changed"
    case TaskDependencyAdded => "task_dependency_added"
    case TaskDependencyResolved => "task_dependency_resolved"
    case TaskLeaseClaimed => "task_lease_claimed"
    case TaskLeaseHeartbeated => "task_lease_heartbeated"
    case ApprovalRequested(_) => "approval_requested"
    case ApprovalResolved(_) => "approval_resolved"
    case CheckpointRecorded => "checkpoint_recorded"
    case CheckpointRestored => "checkpoint_restored"
    case MailboxMessageAppended => "mailbox_message_appended"
    case ToolInvocationStarted => "tool_invocation_started"
    case ToolInvocationCompleted => "tool_invocation_completed"
    case ToolInvocationFailed => "tool_invocation_failed"
    case ExternalWorkerReported => "external_worker_reported"
    case SubagentSpawned => "subagent_spawned"
    case OtherEvent(name) => name
  }

  // ----- what the log keeps

  ghost predicate Before(log: seq<Stored>, i: int, j: int) {
    0 <= i < j < |log| ==> log[i].position < log[j].position
  }

  /** Positions increase strictly, and start at 1 or later. */
  ghost predicate Increasing(log: seq<Stored>) {
    && (forall i, j :: Before(log, i, j))
    && (forall x :: x in log ==> 1 <= x.position)
  }

  /** Positions start at 1 and increase; the index names, for each causation
      id in the log, the first event that carries it. */
  ghost predicate StoreOk(s: Store) {
    && Increasing(s.events)
    && 1 <= s.nextPosition
    && (forall x :: x in s.events ==> x.position < s.nextPosition)
    && (forall x :: x in s.events && x.envelope.causationId.Some? ==>
          && x.envelope.causationId.value in s.causationIndex
          && s.causationIndex[x.envelope.causationId.value] <= x.position)
    && (forall c :: c in s.causationIndex ==>
          exists x :: x in s.events && x.envelope.causationId == Some(c) && x.position == s.causationIndex[c])
  }

  /** The new part of the log: the event itself, then what was derived. */
  function Added(s: Store, e: Envelope, derive: Projector): (added: seq<Stored>)
    ensures Append(s, e, derive).events == s.events + added
    ensures Append(s, e, derive).nextPosition == s.nextPosition + |added|
    ensures |added| >= 1 && added[0] == Stored(s.nextPosition, e, false)
    ensures forall i :: 0 <= i < |added| ==> added[i].position == s.nextPosition + i
    ensures forall i :: 1 <= i < |added| ==> added[i].derived
    ensures Uncaused(derive) ==> forall i :: 1 <= i < |added| ==> added[i].envelope.causationId.None?
  {
    var stored := Stored(s.nextPosition, e, false);
    [stored] + Place(derive(s.events + [stored], e), s.nextPosition + 1)
  }

  lemma AppendIncreases(s: Store, e: Envelope, derive: Projector)
    requires StoreOk(s)
    ensures Increasing(Append(s, e, derive).events)
    ensures forall x :: x in Append(s, e, derive).events ==> x.position < Append(s, e, derive).nextPosition
  {
    var added := Added(s, e, derive);
    var log := s.events + added;
    forall i, j ensures Before(log, i, j) {
      assert Before(s.events, i, j);
      if 0 <= i < |s.events| {
        assert s.events[i] in s.events;
      }
    }
  }

  lemma AppendIndexes(s: Store, e: Envelope, derive: Projector)
    requires StoreOk(s)
    ensures var t := Append(s, e, derive);
      forall c :: c in t.causationIndex ==>
        exists x :: x in t.events && x.envelope.causationId == Some(c) && x.position == t.causationIndex[c]
  {
    var added := Added(s, e, derive);
    var t := Append(s, e, derive);
    forall c | c in t.causationIndex
      ensures exists x :: x in t.events && x.envelope.causationId == Some(c) && x.position == t.causationIndex[c]
    {
      if c in s.causationIndex {
        var x :| x in s.events && x.envelope.causationId == Some(c) && x.position == s.causationIndex[c];
        assert x in t.events;
      } else {
        assert added[0] in t.events;
      }
    }
  }

  lemma AppendCovers(s: Store, e: Envelope, derive: Projector)
    requires StoreOk(s) && Uncaused(derive)
    ensures var t := Append(s, e, derive);
      forall x :: x in t.events && x.envelope.causationId.Some? ==>
        && x.envelope.causationId.value in t.causationIndex
        && t.causationIndex[x.envelope.causationId.value] <= x.position
  {
    var added := Added(s, e, derive);
    var t := Append(s, e, derive);
    forall x | x in t.events && x.envelope.causationId.Some?
      ensures x.envelope.causationId.value in t.causationIndex
      ensures t.causationIndex[x.envelope.causationId.value] <= x.position
    {
      assert x in s.events || x == added[0];
      if e.causationId == x.envelope.causationId && e.causationId.value in s.causationIndex {
        var y :| y in s.events && y.envelope.causationId == e.causationId && y.position == s.causationIndex[e.causationId.value];
      }
    }
  }

  lemma AppendKeepsOk(s: Store, e: Envelope, derive: Projector)
    requires StoreOk(s) && Uncaused(derive)
    ensures StoreOk(Append(s, e, derive))
  {
    AppendIncreases(s, e, derive);
    AppendIndexes(s, e, derive);
    AppendCovers(s, e, derive);
  }

  lemma {:induction false} PastSkips(log: seq<Stored>, position: nat, k: nat)
    requires k <= |log|
    requires forall i :: 0 <= i < k ==> log[i].position <= position
    requires forall i :: k <= i < |log| ==> position < log[i].position
    ensures Past(log, position) == log[k..]
  {
    if k == 0 {
      PastAll(log, position);
    } else {
      var rest := log[1..];
      PastSkips(rest, position, k - 1);
      assert rest[k - 1..] == log[k..];
    }
  }

  /** A read past a position returns a suffix of an increasing log. */
  lemma PastIsSuffix(log: seq<Stored>, position: nat) returns (k: nat)
    requires Increasing(log)
    ensures k <= |log| && Past(log, position) == log[k..]
    ensures forall i :: 0 <= i < k ==> log[i].position <= position
    ensures forall i :: k <= i < |log| ==> position < log[i].position
  {
    k := 0;
    while k < |log| && log[k].position <= position
      invariant k <= |log| && forall i :: 0 <= i < k ==> log[i].position <= position
    {
      k := k + 1;
    }
    forall i | k <= i < |log| ensures position < log[i].position {
      assert Before(log, k, i);
    }
    PastSkips(log, position, k);
  }

  /** The place where a position falls in an increasing log decides the read. */
  lemma PastFrom(log: seq<Stored>, position: nat, k: nat)
    requires Increasing(log) && k <= |log|
    requires k > 0 ==> log[k - 1].position <= position
    requires k < |log| ==> position < log[k].position
    ensures Past(log, position) == log[k..]
  {
    var j := PastIsSuffix(log, position);
    assert j == k;
  }

  /** Where a read past a position begins. */
  lemma PastCut(log: seq<Stored>, position: nat) returns (k: nat)
    requires Increasing(log)
    ensures k <= |log| && Past(log, position) == log[k..]
    ensures k > 0 ==> log[k - 1].position <= position
    ensures k < |log| ==> position < log[k].position
  {
    k := PastIsSuffix(log, position);
  }

  lemma {:induction false} PastAll(log: seq<Stored>, position: nat)
    requires forall i :: 0 <= i < |log| ==> position < log[i].position
    ensures Past(log, position) == log
  {
    if log != [] {
      PastAll(log[1..], position);
    }
  }

  /** A read returns the first `limit` events past the position, fewer only
      when there are no more. */
  lemma ReadStreamMeans(log: seq<Stored>, after: Option<nat>, limit: nat) returns (k: nat)
    requires Increasing(log)
    ensures k <= |log| && ReadStream(log, after, limit) == log[k..k + Min(limit, |log| - k)]
    ensures forall i :: 0 <= i < |log| ==> (i >= k <==> after.None? || log[i].position > after.value)
  {
    k := PastIsSuffix(log, if after.Some? then after.value else 0);
    forall i | 0 <= i < |log| ensures i >= k <==> after.None? || log[i].position > after.value {
      assert log[i] in log;
    }
  }
}
