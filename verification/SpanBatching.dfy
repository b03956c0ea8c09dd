/**
  The span batching sink (crates/cairn-app/src/metrics_otel.rs): a buffer
  behind a lock that export calls extend and a timer task drains, with a
  cancel signal and a shutdown that joins the timer.

  Everything done while the lock is held is one atomic step.  `Next` lets the
  steps of any number of export calls, of the timer and of any number of
  shutdown calls interleave freely; the results hold in every run.
 */
module SpanBatching {
  import opened Common

  datatype Span = Span(traceId: string, spanId: string)

  // ----- the lock-held sections

  /** `export` under the lock: extend, and take everything once full. */
  function Accept(max: nat, buffer: seq<Span>, spans: seq<Span>): (seq<Span>, Option<seq<Span>>) {
    var b := buffer + spans;
    if |b| >= max then ([], Some(b)) else (b, None)
  }

  /** The timer under the lock: take everything there is. */
  function Drain(buffer: seq<Span>): (seq<Span>, Option<seq<Span>>) {
    if buffer == [] then ([], None) else ([], Some(buffer))
  }

  class BatchingSink {
    var buffer: seq<Span>
    const maxBatchSize: nat

    constructor (maxBatchSize: nat)
      ensures buffer == [] && this.maxBatchSize == maxBatchSize
    {
      this.maxBatchSize := maxBatchSize;
      buffer := [];
    }

    method Extend(spans: seq<Span>) returns (ready: Option<seq<Span>>)
      modifies this`buffer
      ensures (buffer, ready) == Accept(maxBatchSize, old(buffer), spans)
    {
      buffer := buffer + spans;
      if |buffer| >= maxBatchSize {
        ready := Some(buffer);
        buffer := [];
      } else {
        ready := None;
      }
    }

    method TakeAll() returns (batch: Option<seq<Span>>)
      modifies this`buffer
      ensures (buffer, batch) == Drain(old(buffer))
    {
      if buffer == [] {
        return None;
      }
      batch := Some(buffer);
      buffer := [];
    }
  }

  // ----- the protocol

  /** A batch is named by its place in the order in which batches are taken. */
  datatype Timer =
    | Sleeping              // in the select, or about to enter it
    | Woken                 // the delay elapsed; waiting for the lock
    | Exporting(batch: nat) // inner export of a timer batch is running
    | Stopping              // the cancel was seen; waiting for the lock
    | LastExport(batch: nat)
    | Stopped

  datatype Exporter =
    | Waiting(spans: seq<Span>) // called; waiting for the lock
    | Calling(batch: nat)       // inner export of its batch is running
    | Returned

  /** The join handle: in its slot, taken by a shutdown call that holds the
      slot's lock while it waits, or used up. */
  datatype Handle = Present | Joining(caller: nat) | Gone

  datatype Shutdown = Locking | Awaiting | Finished

  datatype State = State(
    buffer: seq<Span>,
    taken: seq<seq<Span>>,     // batches in the order they left the buffer
    delivered: set<nat>,       // batches whose inner export has ended
    accepted: seq<Span>,       // spans in the order their calls got the lock
    timer: Timer,
    exporters: map<nat, Exporter>,
    cancelled: bool,
    acceptedAtCancel: nat,     // how many spans were accepted at the first cancel
    handle: Handle,
    shutdowns: map<nat, Shutdown>,
    late: bool                 // some export was running at the cancel, or began after it
  )

  const START := State([], [], {}, [], Sleeping, map[], false, 0, Present, map[], false)

  datatype Step =
    | ExportCall(id: nat, spans: seq<Span>)
    | ExportLocked(id: nat)
    | ExportEnds(id: nat)
    | DelayElapses
    | TimerLocked
    | TimerExportEnds
    | CancelSeen
    | ShutdownCall(id: nat)
    | HandleTaken(id: nat)
    | TimerJoined(id: nat)

  ghost predicate Active(e: Exporter) {
    !e.Returned?
  }

  /** The successor state, or None when the step is not possible. */
  ghost function Next(max: nat, s: State, step: Step): Option<State> {
    match step
    case ExportCall(id, spans) =>
      if id in s.exporters then None
      else Some(s.(exporters := s.exporters[id := Waiting(spans)], late := s.late || s.cancelled))
    case ExportLocked(id) =>
      if !(id in s.exporters && s.exporters[id].Waiting?) then None
      else
        var spans := s.exporters[id].spans;
        var (buffer, ready) := Accept(max, s.buffer, spans);
        var t := s.(buffer := buffer, accepted := s.accepted + spans);
        (match ready
         case None => Some(t.(exporters := s.exporters[id := Returned]))
         case Some(batch) =>
           Some(t.(taken := s.taken + [batch], exporters := s.exporters[id := Calling(|s.taken|)])))
    case ExportEnds(id) =>
      if !(id in s.exporters && s.exporters[id].Calling?) then None
      else Some(s.(exporters := s.exporters[id := Returned], delivered := s.delivered + {s.exporters[id].batch}))
    case DelayElapses =>
      // the select is biased: a cancel that is already set wins
      if s.timer == Sleeping && !s.cancelled then Some(s.(timer := Woken)) else None
    case CancelSeen =>
      if s.timer == Sleeping && s.cancelled then Some(s.(timer := Stopping)) else None
    case TimerLocked =>
      if !(s.timer.Woken? || s.timer.Stopping?) then None
      else
        var (buffer, batch) := Drain(s.buffer);
        (match batch
         case None => Some(s.(buffer := buffer, timer := if s.timer.Woken? then Sleeping else Stopped))
         case Some(b) =>
           Some(s.(buffer := buffer, taken := s.taken + [b],
                   timer := if s.timer.Woken? then Exporting(|s.taken|) else LastExport(|s.taken|))))
    case TimerExportEnds =>
      if s.timer.Exporting? then Some(s.(timer := Sleeping, delivered := s.delivered + {s.timer.batch}))
      else if s.timer.LastExport? then Some(s.(timer := Stopped, delivered := s.delivered + {s.timer.batch}))
      else None
    case ShutdownCall(id) =>
      if id in s.shutdowns then None
      else
        var running := exists e :: e in s.exporters && Active(s.exporters[e]);
        var t := s.(shutdowns := s.shutdowns[id := Locking], cancelled := true);
        Some(if s.cancelled then t else t.(late := running, acceptedAtCancel := |s.accepted|))
    case HandleTaken(id) =>
      if !(id in s.shutdowns && s.shutdowns[id] == Locking) || s.handle.Joining? then None
      else if s.handle == Present then Some(s.(handle := Joining(id), shutdowns := s.shutdowns[id := Awaiting]))
      else Some(s.(shutdowns := s.shutdowns[id := Finished]))
    case TimerJoined(id) =>
      if s.handle == Joining(id) && s.timer == Stopped
      then Some(s.(handle := Gone, shutdowns := s.shutdowns[id := Finished]))
      else None
  }

  /** The state a run of steps ends in, if every step was possible. */
  ghost function Run(max: nat, steps: seq<Step>): Option<State> {
    if steps == [] then Some(START)
    else
      var before := Run(max, Front(steps));
      if before.None? then None else Next(max, before.value, Last(steps))
  }

  // ----- what every run keeps

  function Flatten(batches: seq<seq<Span>>): seq<Span> {
    if batches == [] then [] else Flatten(Front(batches)) + Last(batches)
  }

  lemma FlattenSnoc(batches: seq<seq<Span>>, b: seq<Span>)
    ensures Flatten(batches + [b]) == Flatten(batches) + b
  {
    assert Front(batches + [b]) == batches;
  }

  ghost predicate Conserved(s: State) {
    Flatten(s.taken) + s.buffer == s.accepted
  }

  ghost predicate Bounded(max: nat, s: State) {
    max >= 1 ==>
      && |s.buffer| < max
      && (forall k :: 0 <= k < |s.taken| ==> s.taken[k] != [])
  }

  /** Some call is still exporting batch k. */
  ghost predicate Held(s: State, k: nat) {
    || s.timer == Exporting(k) || s.timer == LastExport(k)
    || exists id :: id in s.exporters && s.exporters[id] == Calling(k)
  }

  /** Every batch is with the call that took it until its export has ended. */
  ghost predicate Accounted(s: State) {
    (forall k: nat :: k < |s.taken| && k !in s.delivered ==> Held(s, k)) && Numbered(s)
  }

  /** Batches are named by their place among those taken. */
  ghost predicate Numbered(s: State) {
    && (forall k :: k in s.delivered ==> k < |s.taken|)
    && (forall id :: id in s.exporters && s.exporters[id].Calling? ==> s.exporters[id].batch < |s.taken|)
    && (s.timer.Exporting? || s.timer.LastExport? ==> s.timer.batch < |s.taken|)
  }

  ghost predicate CancelRules(s: State) {
    && (s.timer.Stopping? || s.timer.LastExport? || s.timer.Stopped? ==> s.cancelled)
    && (s.cancelled && !s.late ==> forall id :: id in s.exporters ==> s.exporters[id].Returned?)
  }

  ghost predicate FlushRules(s: State) {
    && (s.cancelled ==> s.acceptedAtCancel <= |s.accepted|)
    && (s.timer.LastExport? || s.timer.Stopped? ==>
          && s.acceptedAtCancel <= |Flatten(s.taken)|
          && (!s.late ==> s.buffer == []))
  }

  ghost predicate JoinRules(s: State) {
    && (s.handle == Gone ==> s.timer == Stopped)
    && (forall id :: id in s.shutdowns && s.shutdowns[id].Finished? ==> s.handle == Gone)
  }

  ghost predicate Inv(max: nat, s: State) {
    Conserved(s) && Bounded(max, s) && Accounted(s) && CancelRules(s) && FlushRules(s) && JoinRules(s)
  }

  /** What a step does to the buffer: some spans arrive, and then either
      everything stays or everything leaves as one batch. */
  lemma BufferEffect(max: nat, s: State, step: Step) returns (spans: seq<Span>, took: bool)
    requires Next(max, s, step).Some?
    ensures var t := Next(max, s, step).value;
      && t.accepted == s.accepted + spans
      && (took ==> t.taken == s.taken + [s.buffer + spans] && t.buffer == [])
      && (!took ==> t.taken == s.taken && t.buffer == s.buffer + spans)
      && (spans != [] ==> step.ExportLocked?)
      && (step.TimerLocked? ==> t.buffer == [] && spans == [])
      && (took ==> step.ExportLocked? || step.TimerLocked?)
  {
    spans, took := [], false;
    match step {
      case ExportLocked(id) =>
        spans := s.exporters[id].spans;
        took := |s.buffer + spans| >= max;
      case TimerLocked =>
        took := s.buffer != [];
        assert s.buffer + [] == s.buffer && s.accepted + [] == s.accepted;
      case _ =>
        assert s.buffer + [] == s.buffer && s.accepted + [] == s.accepted;
    }
  }

  lemma AppendAssoc(a: seq<Span>, b: seq<Span>, c: seq<Span>)
    ensures a + (b + c) == (a + b) + c
  {
  }

  lemma NextConserves(max: nat, s: State, step: Step)
    requires Conserved(s) && Next(max, s, step).Some?
    ensures Conserved(Next(max, s, step).value)
    ensures |Flatten(s.taken)| <= |Flatten(Next(max, s, step).value.taken)|
  {
    var spans, took := BufferEffect(max, s, step);
    AppendAssoc(Flatten(s.taken), s.buffer, spans);
    FlattenSnoc(s.taken, s.buffer + spans);
  }

  lemma NextBounds(max: nat, s: State, step: Step)
    requires Bounded(max, s) && Next(max, s, step).Some?
    ensures Bounded(max, Next(max, s, step).value)
  {
    var t := Next(max, s, step).value;
    if !step.ExportLocked? && !step.TimerLocked? {
      assert t.taken == s.taken && t.buffer == s.buffer;
    }
  }

  lemma NextHolds(max: nat, s: State, step: Step, k: nat)
    requires Next(max, s, step).Some? && k < |Next(max, s, step).value.taken|
    requires k !in Next(max, s, step).value.delivered
    requires k < |s.taken| ==> Held(s, k)
    ensures Held(Next(max, s, step).value, k)
  {
    var t := Next(max, s, step).value;
    if k >= |s.taken| {
      assert step.ExportLocked? ==> t.exporters[step.id] == Calling(k);
    } else if id :| id in s.exporters && s.exporters[id] == Calling(k) {
      assert t.exporters[id] == Calling(k);
    }
  }

  lemma NextAccounts(max: nat, s: State, step: Step)
    requires Accounted(s) && Next(max, s, step).Some?
    ensures Accounted(Next(max, s, step).value)
  {
    var t := Next(max, s, step).value;
    NextNumbers(max, s, step);
    forall k: nat | k < |t.taken| && k !in t.delivered ensures Held(t, k) {
      NextHolds(max, s, step, k);
    }
  }

  lemma NextNumbers(max: nat, s: State, step: Step)
    requires Numbered(s) && Next(max, s, step).Some?
    ensures Numbered(Next(max, s, step).value)
    ensures s.delivered <= Next(max, s, step).value.delivered
    ensures |s.taken| <= |Next(max, s, step).value.taken|
  {
  }

  lemma NextKeepsCancelRules(max: nat, s: State, step: Step)
    requires CancelRules(s) && Next(max, s, step).Some?
    ensures CancelRules(Next(max, s, step).value)
  {
  }

  lemma NextKeepsFlushRules(max: nat, s: State, step: Step)
    requires Conserved(s) && CancelRules(s) && FlushRules(s) && Next(max, s, step).Some?
    ensures FlushRules(Next(max, s, step).value)
  {
    NextConserves(max, s, step);
    CountsAfter(max, s, step);
    var t := Next(max, s, step).value;
    assert |Flatten(s.taken)| + |s.buffer| == |s.accepted|;
    assert |Flatten(t.taken)| + |t.buffer| == |t.accepted|;
    if LookedLast(t) {
      LastLook(max, s, step);
    }
  }

  lemma CountsAfter(max: nat, s: State, step: Step)
    requires CancelRules(s) && Next(max, s, step).Some?
    ensures var t := Next(max, s, step).value;
      && |s.accepted| <= |t.accepted|
      && (t.acceptedAtCancel == s.acceptedAtCancel || (step.ShutdownCall? && !s.cancelled && t.acceptedAtCancel == |s.accepted|))
      && (t.cancelled == (s.cancelled || step.ShutdownCall?))
      && (LookedLast(t) ==> s.cancelled && (!t.late ==> !s.late && !step.ExportLocked?))
      && (LookedLast(s) ==> LookedLast(t))
  {
  }

  lemma NextKeepsJoinRules(max: nat, s: State, step: Step)
    requires JoinRules(s) && Next(max, s, step).Some?
    ensures JoinRules(Next(max, s, step).value)
  {
  }

  lemma {:induction false} InvHolds(max: nat, steps: seq<Step>)
    requires Run(max, steps).Some?
    ensures Inv(max, Run(max, steps).value)
  {
    if steps != [] {
      InvHolds(max, Front(steps));
      var s := Run(max, Front(steps)).value;
      NextConserves(max, s, Last(steps));
      NextBounds(max, s, Last(steps));
      NextAccounts(max, s, Last(steps));
      NextKeepsCancelRules(max, s, Last(steps));
      NextKeepsFlushRules(max, s, Last(steps));
      NextKeepsJoinRules(max, s, Last(steps));
    }
  }

  /**
    In every interleaving the batches, in the order they were taken, followed
    by the buffer are exactly the accepted spans in lock order: none lost,
    duplicated or reordered before hand-over.  The buffer stays below the
    batch size and no empty batch is handed over, if the batch size is not 0.
   */
  lemma NoSpanLostBeforeHandOver(max: nat, steps: seq<Step>)
    requires Run(max, steps).Some?
    ensures var s := Run(max, steps).value;
      && Flatten(s.taken) + s.buffer == s.accepted
      && (max >= 1 ==> |s.buffer| < max && forall k :: 0 <= k < |s.taken| ==> s.taken[k] != [])
  {
    InvHolds(max, steps);
  }

  /** With a batch size of 0 an export of no spans hands over an empty batch. */
  lemma EmptyBatchWithSizeZero() returns (steps: seq<Step>)
    ensures Run(0, steps).Some? && Run(0, steps).value.taken == [[]]
  {
    var s0: seq<Step> := [];
    var s1 := s0 + [ExportCall(0, [])];
    steps := s1 + [ExportLocked(0)];
    assert Front(s1) == s0 && Front(steps) == s1;
    assert Run(0, s0) == Some(START);
    assert Run(0, s1) == Next(0, START, ExportCall(0, []));
    assert Run(0, steps) == Next(0, Run(0, s1).value, ExportLocked(0));
  }

  // ----- after the timer's last look at the buffer

  /** The spans of the exports that got the lock after the timer's final
      drain, call by call. */
  ghost function AfterLastLook(max: nat, steps: seq<Step>): seq<seq<Span>>
    requires Run(max, steps).Some?
  {
    if steps == [] then []
    else
      var s := Run(max, Front(steps)).value;
      if !LookedLast(s) then []
      else if Last(steps).ExportLocked? then AfterLastLook(max, Front(steps)) + [s.exporters[Last(steps).id].spans]
      else AfterLastLook(max, Front(steps))
  }

  ghost predicate LookedLast(s: State) {
    s.timer.LastExport? || s.timer.Stopped?
  }

  /** What exports alone leave in an empty buffer. */
  function Fill(max: nat, arrivals: seq<seq<Span>>): seq<Span> {
    if arrivals == [] then [] else Accept(max, Fill(max, Front(arrivals)), Last(arrivals)).0
  }

  /** The final drain empties the buffer, and then only exports touch it. */
  lemma LastLook(max: nat, s: State, step: Step)
    requires Next(max, s, step).Some? && LookedLast(Next(max, s, step).value)
    ensures var t := Next(max, s, step).value;
      t.buffer ==
        if !LookedLast(s) then []
        else if step.ExportLocked? then Accept(max, s.buffer, s.exporters[step.id].spans).0
        else s.buffer
  {
  }

  /** After the final drain the buffer holds exactly what the exports that
      came to the lock later have left in it. */
  lemma {:induction false} BufferAfterLastLook(max: nat, steps: seq<Step>)
    requires Run(max, steps).Some? && LookedLast(Run(max, steps).value)
    ensures Run(max, steps).value.buffer == Fill(max, AfterLastLook(max, steps))
  {
    var s := Run(max, Front(steps)).value;
    LastLook(max, s, Last(steps));
    if LookedLast(s) {
      BufferAfterLastLook(max, Front(steps));
      if Last(steps).ExportLocked? {
        assert Front(AfterLastLook(max, steps)) == AfterLastLook(max, Front(steps));
      }
    }
  }

  /** Fewer late spans than a batch stay behind, all of them. */
  lemma {:induction false} FewStayBehind(max: nat, arrivals: seq<seq<Span>>)
    requires |Flatten(arrivals)| < max
    ensures Fill(max, arrivals) == Flatten(arrivals)
  {
    if arrivals != [] {
      FewStayBehind(max, Front(arrivals));
    }
  }

  // ----- who has a batch

  /** Batch k is with an export call, or with the timer (who == -1). */
  ghost predicate With(s: State, who: int, k: nat) {
    if who >= 0 then who in s.exporters && s.exporters[who] == Calling(k)
    else who == -1 && (s.timer == Exporting(k) || s.timer == LastExport(k))
  }

  /** No batch is with two calls, or with a call after its export has ended. */
  ghost predicate Exclusive(s: State) {
    && (forall i, j, k :: With(s, i, k) && With(s, j, k) ==> i == j)
    && (forall i, k :: With(s, i, k) ==> k !in s.delivered)
  }

  /** Who acts in a step. */
  function Actor(step: Step): int {
    match step
    case ExportLocked(id) => id
    case ExportEnds(id) => id
    case _ => -1
  }

  lemma BatchesMove(max: nat, s: State, step: Step, who: int, k: nat)
    requires Next(max, s, step).Some? && With(Next(max, s, step).value, who, k)
    ensures With(s, who, k) || (k == |s.taken| && who == Actor(step))
    ensures With(s, who, k) ==> k in Next(max, s, step).value.delivered ==>
      k in s.delivered || (With(s, Actor(step), k) && who != Actor(step))
  {
  }

  lemma Ended(max: nat, s: State, step: Step, k: nat)
    requires Next(max, s, step).Some? && k in Next(max, s, step).value.delivered
    ensures k in s.delivered || With(s, Actor(step), k)
  {
  }

  lemma NextKeepsExclusive(max: nat, s: State, step: Step)
    requires Accounted(s) && Exclusive(s) && Next(max, s, step).Some?
    ensures Exclusive(Next(max, s, step).value)
  {
    var t := Next(max, s, step).value;
    forall i, j, k | With(t, i, k) && With(t, j, k) ensures i == j {
      BatchesMove(max, s, step, i, k);
      BatchesMove(max, s, step, j, k);
    }
    forall i, k | With(t, i, k) ensures k !in t.delivered {
      BatchesMove(max, s, step, i, k);
      if k in t.delivered {
        Ended(max, s, step, k);
      }
    }
  }

  lemma {:induction false} ExclusiveHolds(max: nat, steps: seq<Step>)
    requires Run(max, steps).Some?
    ensures Exclusive(Run(max, steps).value)
  {
    if steps != [] {
      ExclusiveHolds(max, Front(steps));
      InvHolds(max, Front(steps));
      NextKeepsExclusive(max, Run(max, Front(steps)).value, Last(steps));
    }
  }

  /**
    When any shutdown call has returned, every span accepted before the first
    cancel has been handed over, and every accepted span at all exactly when
    the exports that came to the lock after the timer's final drain have left
    nothing in the buffer.  The inner export of a batch has ended exactly when
    no export call is still at it.
   */
  lemma ShutdownFlushesIff(max: nat, steps: seq<Step>, caller: nat)
    requires Run(max, steps).Some?
    requires var s := Run(max, steps).value; caller in s.shutdowns && s.shutdowns[caller] == Finished
    ensures var s := Run(max, steps).value;
      && s.acceptedAtCancel <= |Flatten(s.taken)| <= |s.accepted|
      && s.accepted[..s.acceptedAtCancel] == Flatten(s.taken)[..s.acceptedAtCancel]
      && s.buffer == Fill(max, AfterLastLook(max, steps))
      && (Flatten(s.taken) == s.accepted <==> Fill(max, AfterLastLook(max, steps)) == [])
      && (forall k: nat :: k < |s.taken| ==>
            (k in s.delivered <==> !exists id :: id in s.exporters && s.exporters[id] == Calling(k)))
  {
    InvHolds(max, steps);
    ExclusiveHolds(max, steps);
    BufferAfterLastLook(max, steps);
    var s := Run(max, steps).value;
    assert |Flatten(s.taken)| + |s.buffer| == |s.accepted|;
    assert s.buffer == [] ==> Flatten(s.taken) + [] == Flatten(s.taken);
    forall k: nat | k < |s.taken| && k !in s.delivered
      ensures exists id :: id in s.exporters && s.exporters[id] == Calling(k)
    {
      assert Held(s, k);
    }
    forall id, k: nat | id in s.exporters && s.exporters[id] == Calling(k) ensures k !in s.delivered {
      assert With(s, id, k);
    }
  }

  /** So it is enough that no export was running at the cancel or began after
      it: then the buffer is empty, every accepted span has been handed over,
      and every inner export has ended. */
  lemma QuietShutdownFlushes(max: nat, steps: seq<Step>, caller: nat)
    requires Run(max, steps).Some?
    requires var s := Run(max, steps).value; caller in s.shutdowns && s.shutdowns[caller] == Finished && !s.late
    ensures var s := Run(max, steps).value;
      && s.buffer == [] && Flatten(s.taken) == s.accepted
      && forall k :: 0 <= k < |s.taken| ==> k in s.delivered
  {
    InvHolds(max, steps);
    var s := Run(max, steps).value;
    assert Flatten(s.taken) + [] == Flatten(s.taken);
  }

  /** An export of less than a batch that begins after the cancel is left in
      the buffer with the timer stopped: shutdown has returned, and only a
      later export that fills the batch would take it along. */
  lemma LateExportIsLeftBehind(max: nat, spans: seq<Span>) returns (steps: seq<Step>)
    requires 0 < |spans| < max
    ensures Run(max, steps).Some?
    ensures var s := Run(max, steps).value;
      && s.shutdowns == map[0 := Finished] && s.timer == Stopped && s.taken == []
      && s.buffer == spans == s.accepted
  {
    StoppedRun(max);
    var stopped := [ShutdownCall(0), HandleTaken(0), CancelSeen, TimerLocked, TimerJoined(0)];
    var b := Run(max, stopped).value;
    var d := stopped + [ExportCall(0, spans)];
    steps := d + [ExportLocked(0)];
    assert Front(d) == stopped && Front(steps) == d;
    var waiting := b.(exporters := map[0 := Waiting(spans)], late := true);
    assert Run(max, d) == Some(waiting);
    assert [] + spans == spans;
  }

  /** A shutdown with nothing to flush, up to its return. */
  lemma StoppedRun(max: nat)
    ensures Run(max, [ShutdownCall(0), HandleTaken(0), CancelSeen, TimerLocked, TimerJoined(0)]) ==
      Some(START.(shutdowns := map[0 := Finished], cancelled := true, handle := Gone, timer := Stopped))
  {
    var one, two := [ShutdownCall(0)], [ShutdownCall(0), HandleTaken(0)];
    var three := two + [CancelSeen];
    var four := three + [TimerLocked];
    var five := four + [TimerJoined(0)];
    assert five == [ShutdownCall(0), HandleTaken(0), CancelSeen, TimerLocked, TimerJoined(0)];
    assert Front(one) == [] && Front(two) == one && Front(three) == two && Front(four) == three && Front(five) == four;
    assert Run(max, []) == Some(START);
    var called := START.(shutdowns := map[0 := Locking], cancelled := true);
    assert Run(max, one) == Some(called);
    assert map[0 := Locking][0 := Awaiting] == map[0 := Awaiting];
    var joining := called.(shutdowns := map[0 := Awaiting], handle := Joining(0));
    assert Run(max, two) == Some(joining);
    assert Run(max, three) == Some(joining.(timer := Stopping));
    assert Run(max, four) == Some(joining.(timer := Stopped));
    assert map[0 := Awaiting][0 := Finished] == map[0 := Finished];
  }

  // ----- the timer

  /** While there is no cancel, the timer's delay can elapse, and what it then
      finds in the buffer is handed over; a cancel that is set ends the waiting
      instead. */
  lemma TimerFlushes(max: nat, s: State)
    requires s.timer == Sleeping
    ensures !s.cancelled ==>
      && Next(max, s, DelayElapses) == Some(s.(timer := Woken)) && Next(max, s, CancelSeen) == None
      && Next(max, s.(timer := Woken), TimerLocked) ==
         Some(if s.buffer == [] then s
              else s.(buffer := [], taken := s.taken + [s.buffer], timer := Exporting(|s.taken|)))
    ensures s.cancelled ==>
      Next(max, s, DelayElapses) == None && Next(max, s, CancelSeen) == Some(s.(timer := Stopping))
  {
  }

  /** In no run is an export call held up by anything but the lock, nor the
      timer by anything but its delay: each always has a next step, until it
      has returned or stopped. */
  lemma NobodyIsStuck(max: nat, steps: seq<Step>)
    requires Run(max, steps).Some?
    ensures var s := Run(max, steps).value;
      && (forall id :: id in s.exporters && !s.exporters[id].Returned? ==>
            Next(max, s, ExportLocked(id)).Some? || Next(max, s, ExportEnds(id)).Some?)
      && (s.timer != Stopped ==>
            Next(max, s, DelayElapses).Some? || Next(max, s, CancelSeen).Some? ||
            Next(max, s, TimerLocked).Some? || Next(max, s, TimerExportEnds).Some?)
      && (forall id :: id in s.shutdowns && s.shutdowns[id] == Awaiting && s.handle == Joining(id) && s.timer == Stopped ==>
            Next(max, s, TimerJoined(id)).Some?)
  {
  }
}
