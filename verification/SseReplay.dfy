/**
  Server-sent event frames and their replay (crates/cairn-api/src/sse_publisher.rs
  and sse_payloads.rs).  A client reconnects with the id of the last frame it
  has seen (the Last-Event-ID header, section 9.2 of the WHATWG HTML standard);
  frame ids are printed log positions.
 */
module SseReplay {
  import opened Common
  import opened EventStore
  import Decimal

  datatype SseEventName = AgentProgress | TaskUpdate | ApprovalRequired | AssistantToolCall

  const U64_MAX: nat := 0xFFFF_FFFF_FFFF_FFFF

  function MapEventToSseName(e: RuntimeEvent): Option<SseEventName> {
    match e
    case SessionCreated | SessionStateChanged => None
    case RunCreated => Some(AgentProgress)
    case RunStateChanged(_, _) => None
    case TaskCreated | TaskStateChanged(_, _) | TaskDependencyAdded | TaskDependencyResolved
      | TaskLeaseClaimed | TaskLeaseHeartbeated => Some(TaskUpdate)
    case ApprovalRequested(_) => Some(ApprovalRequired)
    case ApprovalResolved(_) => None
    case CheckpointRecorded | CheckpointRestored => None
    case MailboxMessageAppended => None
    case ToolInvocationStarted | ToolInvocationCompleted | ToolInvocationFailed => Some(AssistantToolCall)
    case ExternalWorkerReported => Some(AgentProgress)
    case SubagentSpawned => Some(AgentProgress)
    case OtherEvent(_) => None
  }

  /** The payload families; what is in a payload is not modelled. */
  datatype Payload = TaskPayload | ApprovalPayload | ToolCallPayload | ProgressPayload

  function ShapeEventPayload(e: RuntimeEvent): Option<Payload> {
    match e
    case TaskCreated => Some(TaskPayload)
    case TaskStateChanged(_, _) => Some(TaskPayload)
    case TaskDependencyAdded => Some(TaskPayload)
    case TaskDependencyResolved => Some(TaskPayload)
    case TaskLeaseClaimed => Some(TaskPayload)
    case TaskLeaseHeartbeated => Some(TaskPayload)
    case ApprovalRequested(_) => Some(ApprovalPayload)
    case ToolInvocationStarted => Some(ToolCallPayload)
    case ToolInvocationCompleted => Some(ToolCallPayload)
    case ToolInvocationFailed => Some(ToolCallPayload)
    case ExternalWorkerReported => Some(ProgressPayload)
    case SubagentSpawned => Some(ProgressPayload)
    case RunCreated => Some(ProgressPayload)
    case _ => None
  }

  /** A task or approval row, where there is one, takes the event's place. */
  function ShapeEventPayloadWithRecords(e: RuntimeEvent, taskRow: bool, approvalRow: bool): Option<Payload> {
    match e
    case TaskCreated | TaskStateChanged(_, _) | TaskDependencyAdded | TaskDependencyResolved
      | TaskLeaseClaimed | TaskLeaseHeartbeated =>
      if taskRow then Some(TaskPayload) else ShapeEventPayload(e)
    case ApprovalRequested(_) =>
      if approvalRow then Some(ApprovalPayload) else ShapeEventPayload(e)
    case _ => ShapeEventPayload(e)
  }

  datatype Frame = Frame(event: SseEventName, data: Payload, id: string)

  function BuildFrame(stored: Stored, taskRow: bool, approvalRow: bool): Option<Frame> {
    var name := MapEventToSseName(stored.envelope.payload);
    if name.None? then None
    else
      var data := ShapeEventPayloadWithRecords(stored.envelope.payload, taskRow, approvalRow);
      if data.None? then None
      else Some(Frame(name.value, data.value, Decimal.Print(stored.position)))
  }

  function ParseLastEventId(id: string): Option<nat> {
    Decimal.Parse(id, U64_MAX)
  }

  predicate Mapped(x: Stored) {
    MapEventToSseName(x.envelope.payload).Some?
  }

  /** The name map and the payload shaper accept the same events: an event has
      a frame exactly when it has a name, with or without rows. */
  lemma FramedIffMapped(x: Stored, taskRow: bool, approvalRow: bool)
    ensures BuildFrame(x, taskRow, approvalRow).Some? <==> Mapped(x)
    ensures BuildFrame(x, taskRow, approvalRow) == BuildFrame(x, false, false)
    ensures ShapeEventPayload(x.envelope.payload).Some? <==> Mapped(x)
  {
  }

  /** The frames of a stretch of the log, one for every mapped event, in order. */
  function Frames(events: seq<Stored>): seq<Frame> {
    if events == [] then []
    else Frames(Front(events)) + (if Mapped(Last(events)) then [BuildFrame(Last(events), false, false).value] else [])
  }

  method Replay(log: seq<Stored>, after: Option<nat>, limit: nat, taskRow: Stored -> bool, approvalRow: Stored -> bool)
    returns (frames: seq<Frame>)
    ensures frames == Frames(ReadStream(log, after, limit))
  {
    var events := ReadStream(log, after, limit);
    frames := [];
    var i := 0;
    while i < |events|
      invariant 0 <= i <= |events|
      invariant frames == Frames(events[..i])
    {
      assert Front(events[..i + 1]) == events[..i];
      FramedIffMapped(events[i], taskRow(events[i]), approvalRow(events[i]));
      var frame := BuildFrame(events[i], taskRow(events[i]), approvalRow(events[i]));
      if frame.Some? {
        frames := frames + [frame.value];
      }
      i := i + 1;
    }
    assert events[..i] == events;
  }

  lemma {:induction false} FramesConcat(a: seq<Stored>, b: seq<Stored>)
    ensures Frames(a + b) == Frames(a) + Frames(b)
  {
    if b == [] {
      assert a + b == a;
    } else {
      assert Front(a + b) == a + Front(b) && Last(a + b) == Last(b);
      FramesConcat(a, Front(b));
    }
  }

  lemma FramesSplit(p: seq<Stored>, i: nat)
    requires i <= |p|
    ensures Frames(p) == Frames(p[..i]) + Frames(p[i..])
  {
    FramesConcat(p[..i], p[i..]);
    assert p[..i] + p[i..] == p;
  }

  /** Where the last frame of a stretch comes from: frames end there, and
      nothing mapped follows. */
  lemma {:induction false} LastFrame(events: seq<Stored>) returns (j: nat)
    requires Frames(events) != []
    ensures j < |events| && Mapped(events[j])
    ensures Frames(events) == Frames(events[..j + 1])
    ensures Last(Frames(events)).id == Decimal.Print(events[j].position)
    ensures forall k :: j < k < |events| ==> !Mapped(events[k])
  {
    if Mapped(Last(events)) {
      j := |events| - 1;
      assert events[..j + 1] == events;
    } else {
      j := LastFrame(Front(events));
      assert Front(events)[..j + 1] == events[..j + 1];
    }
  }

  lemma {:induction false} NoFramesIff(events: seq<Stored>)
    ensures Frames(events) == [] <==> forall k :: 0 <= k < |events| ==> !Mapped(events[k])
  {
    if events != [] {
      NoFramesIff(Front(events));
    }
  }

  // ----- reconnecting

  /** Everything past the last frame a client has seen is still to come, and
      nothing before it comes again, although the cursor falls back over the
      unmapped events behind that frame. */
  lemma ReconnectLosesNothing(log: seq<Stored>, after: nat, limit: nat)
    requires Increasing(log) && forall x :: x in log ==> x.position <= U64_MAX
    requires Frames(ReadStream(log, Some(after), limit)) != []
    ensures var seen := Frames(ReadStream(log, Some(after), limit));
      var cursor := ParseLastEventId(Last(seen).id);
      && cursor.Some? && after < cursor.value
      && seen + Frames(Past(log, cursor.value)) == Frames(Past(log, after))
  {
    var j := CursorSplits(log, after, limit);
    FramesSplit(Past(log, after), j + 1);
  }

  /** Element j of a read lies in the log, and a read past it continues right
      after it. */
  lemma ReadFrom(log: seq<Stored>, after: nat, j: nat)
    requires Increasing(log) && j < |Past(log, after)|
    ensures var p := Past(log, after);
      p[j] in log && after < p[j].position && Past(log, p[j].position) == p[j + 1..]
  {
    var k := PastIsSuffix(log, after);
    var p := Past(log, after);
    assert p[j] == log[k + j];
    assert Before(log, k + j, k + j + 1);
    PastFrom(log, log[k + j].position, k + j + 1);
  }

  lemma CursorSplits(log: seq<Stored>, after: nat, limit: nat) returns (j: nat)
    requires Increasing(log) && forall x :: x in log ==> x.position <= U64_MAX
    requires Frames(ReadStream(log, Some(after), limit)) != []
    ensures var page := ReadStream(log, Some(after), limit); var p := Past(log, after);
      && j < |page| && Mapped(p[j]) && page <= p
      && Frames(page) == Frames(p[..j + 1])
      && ParseLastEventId(Last(Frames(page)).id) == Some(p[j].position)
      && after < p[j].position
      && Past(log, p[j].position) == p[j + 1..]
  {
    var page := ReadStream(log, Some(after), limit);
    j := LastFrame(page);
    assert page[..j + 1] == Past(log, after)[..j + 1];
    ReadFrom(log, after, j);
    Decimal.ParseUndoesPrint(page[j].position, U64_MAX);
  }

  lemma CursorAdvances(log: seq<Stored>, after: nat, limit: nat)
    requires Increasing(log) && forall x :: x in log ==> x.position <= U64_MAX
    requires Frames(ReadStream(log, Some(after), limit)) != []
    ensures var cursor := ParseLastEventId(Last(Frames(ReadStream(log, Some(after), limit))).id);
      cursor.Some? && |Past(log, cursor.value)| < |Past(log, after)|
  {
    var j := CursorSplits(log, after, limit);
  }

  /** What a client gets that reconnects with its last frame id for as long as
      replies bring frames. */
  function Reconnects(log: seq<Stored>, after: nat, limit: nat): seq<Frame>
    requires Increasing(log) && forall x :: x in log ==> x.position <= U64_MAX
    decreases |Past(log, after)|
  {
    var frames := Frames(ReadStream(log, Some(after), limit));
    if frames == [] then []
    else
      CursorAdvances(log, after, limit);
      frames + Reconnects(log, ParseLastEventId(Last(frames).id).value, limit)
  }

  /** No mapped event is hidden behind `limit` unmapped ones: looking back
      from any mapped event over at most `limit` events, one meets another
      mapped event or the beginning. */
  ghost predicate NoLongGap(p: seq<Stored>, limit: nat) {
    forall k :: 0 <= k < |p| && Mapped(p[k]) ==> Near(p, k, limit)
  }

  ghost predicate Near(p: seq<Stored>, k: nat, limit: nat)
    requires k < |p|
  {
    k < limit || exists j :: 0 <= j < k && k <= j + limit && Mapped(p[j])
  }

  lemma GapAfterPage(p: seq<Stored>, j: nat, limit: nat)
    requires j < |p| && j < limit && Mapped(p[j])
    ensures NoLongGap(p, limit) <==> NoLongGap(p[j + 1..], limit)
  {
    var rest := p[j + 1..];
    if NoLongGap(rest, limit) {
      forall k | 0 <= k < |p| && Mapped(p[k]) ensures Near(p, k, limit) {
        if k > j {
          assert Near(rest, k - j - 1, limit);
        }
      }
    }
    if NoLongGap(p, limit) {
      forall k | 0 <= k < |rest| && Mapped(rest[k]) ensures Near(rest, k, limit) {
        assert Near(p, k + j + 1, limit);
        if k >= limit {
          var i :| 0 <= i < k + j + 1 && k + j + 1 <= i + limit && Mapped(p[i]);
          assert rest[i - j - 1] == p[i];
        }
      }
    }
  }

  lemma FirstMapped(p: seq<Stored>) returns (k: nat)
    requires exists i :: 0 <= i < |p| && Mapped(p[i])
    ensures k < |p| && Mapped(p[k]) && forall i :: 0 <= i < k ==> !Mapped(p[i])
  {
    k := 0;
    while !Mapped(p[k])
      invariant k < |p| && forall i :: 0 <= i < k ==> !Mapped(p[i])
      decreases |p| - k
    {
      k := k + 1;
    }
  }

  /** An empty reply: nothing is to come, or something is hidden. */
  lemma EmptyReply(p: seq<Stored>, page: seq<Stored>, limit: nat)
    requires page <= p && (|page| == limit || page == p) && Frames(page) == []
    ensures Frames(p) == [] <==> NoLongGap(p, limit)
  {
    NoFramesIff(page);
    NoFramesIff(p);
    if Frames(p) != [] {
      var k := FirstMapped(p);
      assert k >= |page| by {
        assert forall i :: 0 <= i < |page| ==> page[i] == p[i];
      }
      assert !Near(p, k, limit);
    }
  }

  /**
    The limit of a replay counts events, not frames, so a reply can be empty
    while frames are still to come; a client that reconnects with its last
    frame id is then stuck.  It gets every frame, exactly once and in order,
    if and only if no mapped event is hidden behind `limit` unmapped ones.
   */
  lemma {:induction false} ReconnectsCompleteIff(log: seq<Stored>, after: nat, limit: nat)
    requires Increasing(log) && forall x :: x in log ==> x.position <= U64_MAX
    ensures Reconnects(log, after, limit) == Frames(Past(log, after)) <==> NoLongGap(Past(log, after), limit)
    decreases |Past(log, after)|
  {
    var page := ReadStream(log, Some(after), limit);
    if Frames(page) == [] {
      EmptyReply(Past(log, after), page, limit);
    } else {
      var cursor, j := ReconnectOnce(log, after, limit);
      ReconnectsCompleteIff(log, cursor, limit);
      GapAfterPage(Past(log, after), j, limit);
      SamePrefix(Frames(page), Reconnects(log, cursor, limit), Frames(Past(log, cursor)));
    }
  }

  /** After a reply that brings frames the client goes on from the event the
      last of them came from. */
  lemma ReconnectOnce(log: seq<Stored>, after: nat, limit: nat) returns (cursor: nat, j: nat)
    requires Increasing(log) && forall x :: x in log ==> x.position <= U64_MAX
    requires Frames(ReadStream(log, Some(after), limit)) != []
    ensures var p := Past(log, after); j < |p| && j < limit && Mapped(p[j]) && Past(log, cursor) == p[j + 1..]
    ensures var frames := Frames(ReadStream(log, Some(after), limit));
      && Reconnects(log, after, limit) == frames + Reconnects(log, cursor, limit)
      && Frames(Past(log, after)) == frames + Frames(Past(log, cursor))
  {
    var p := Past(log, after);
    var frames := Frames(ReadStream(log, Some(after), limit));
    j := CursorSplits(log, after, limit);
    cursor := p[j].position;
    assert Reconnects(log, after, limit) == frames + Reconnects(log, cursor, limit);
    assert Frames(p) == frames + Frames(Past(log, cursor)) by {
      FramesSplit(p, j + 1);
    }
  }

  /** `limit` events without a frame, and then one with a frame. */
  function HiddenBehind(limit: nat, e: Envelope, m: Envelope): seq<Stored> {
    seq(limit, i requires 0 <= i < limit => Stored(i + 1, e, false)) + [Stored(limit + 1, m, false)]
  }

  /** The last event of such a log is never reached. */
  lemma HiddenFrameIsNeverReached(limit: nat, e: Envelope, m: Envelope)
    requires MapEventToSseName(e.payload).None? && MapEventToSseName(m.payload).Some? && limit < U64_MAX
    ensures var log := HiddenBehind(limit, e, m);
      && Increasing(log) && (forall x :: x in log ==> x.position <= U64_MAX)
      && Reconnects(log, 0, limit) == []
      && |Frames(Past(log, 0))| == 1
  {
    var log := HiddenBehind(limit, e, m);
    assert forall i, j :: Before(log, i, j);
    PastAll(log, 0);
    var page := ReadStream(log, Some(0), limit);
    assert Front(log) == page;
    NoFramesIff(page);
    assert Mapped(Last(log));
  }

  /** Which events appear under which name, and that each name comes with its
      own payload. */
  lemma NamesFit(x: Stored, taskRow: bool, approvalRow: bool)
    ensures var frame := BuildFrame(x, taskRow, approvalRow); var e := x.envelope.payload;
      frame.Some? ==>
        && frame.value.id == Decimal.Print(x.position)
        && (frame.value.event == TaskUpdate <==> frame.value.data == TaskPayload)
        && (frame.value.event == ApprovalRequired <==> frame.value.data == ApprovalPayload)
        && (frame.value.event == AssistantToolCall <==> frame.value.data == ToolCallPayload)
        && (frame.value.event == AgentProgress <==> frame.value.data == ProgressPayload)
        && (frame.value.event == ApprovalRequired <==> e.ApprovalRequested?)
        && (frame.value.event == AssistantToolCall <==>
              e.ToolInvocationStarted? || e.ToolInvocationCompleted? || e.ToolInvocationFailed?)
        && (frame.value.event == AgentProgress <==> e.RunCreated? || e.ExternalWorkerReported? || e.SubagentSpawned?)
    ensures var e := x.envelope.payload;
      Mapped(x) <==> !(e.SessionCreated? || e.SessionStateChanged? || e.RunStateChanged? || e.ApprovalResolved? ||
                       e.CheckpointRecorded? || e.CheckpointRestored? || e.MailboxMessageAppended? || e.OtherEvent?)
  {
  }
}
