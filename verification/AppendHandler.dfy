/**
  `POST /v1/events/append` (crates/cairn-app/src/bin_events.rs): the ownership
  gate, the notification hook, the causation-id check and the dual write.

  Configurations: without a durable log only the memory log is written.  With
  one, the handler writes it first and the memory log second.  When the memory
  store also has that durable log wired as its secondary (as
  crates/cairn-app/src/main.rs does at start-up), the store writes the event
  to it once more, after its own write, and event ids are unique there.
 */
module AppendHandler {
  import opened Common
  import opened EventStore
  import opened Principals
  import Notices = NotificationRing

  datatype World = World(memory: Store, durable: Option<seq<Envelope>>, wired: bool)

  /** The indices of the envelopes whose durable write, and whose secondary
      write, is made to fail by the backend. */
  datatype Faults = Faults(durable: set<nat>, secondary: set<nat>)

  const NO_FAULTS := Faults({}, {})

  datatype AppendResult = AppendResult(eventId: string, position: nat, appended: bool)

  datatype Response = Accepted(results: seq<AppendResult>) | Created(results: seq<AppendResult>) | Forbidden | InternalError

  /** An insert into the durable log, where event ids are unique. */
  function DurableWrite(log: seq<Envelope>, e: Envelope, fails: bool): Option<seq<Envelope>> {
    if fails || (exists x :: x in log && x.eventId == e.eventId) then None else Some(log + [e])
  }

  /** One envelope, past the notification hook. */
  function AppendOne(w: World, e: Envelope, i: nat, faults: Faults, derive: Projector): (World, Option<AppendResult>) {
    if e.causationId.Some? && FindByCausationId(w.memory, e.causationId.value).Some? then
      (w, Some(AppendResult(e.eventId, FindByCausationId(w.memory, e.causationId.value).value, false)))
    else
      var first := if w.durable.Some? then DurableWrite(w.durable.value, e, i in faults.durable) else Some([]);
      if first.None? then (w, None)
      else
        var w' := w.(memory := Append(w.memory, e, derive),
                     durable := if w.durable.Some? then first else None);
        var r := AppendResult(e.eventId, w.memory.nextPosition, true);
        if w.wired && w.durable.Some? then
          var second := DurableWrite(first.value, e, i in faults.secondary);
          if second.None? then (w', None) else (w'.(durable := second), Some(r))
        else (w', Some(r))
  }

  /** The first `n` envelopes in turn; None once one of them fails. */
  function Process(w: World, batch: seq<Envelope>, n: nat, faults: Faults, derive: Projector): (World, Option<seq<AppendResult>>)
    requires n <= |batch|
  {
    if n == 0 then (w, Some([]))
    else
      var (w1, rs) := Process(w, batch, n - 1, faults, derive);
      if rs.None? then (w1, None)
      else
        var (w2, r) := AppendOne(w1, batch[n - 1], n - 1, faults, derive);
        if r.None? then (w2, None) else (w2, Some(rs.value + [r.value]))
  }

  /** How many envelopes the handler gets to see before it answers. */
  function Reached(w: World, batch: seq<Envelope>, n: nat, faults: Faults, derive: Projector): (k: nat)
    requires n <= |batch|
    ensures k <= n
  {
    if n == 0 then 0
    else if Process(w, batch, n - 1, faults, derive).1.None? then Reached(w, batch, n - 1, faults, derive)
    else n
  }

  predicate MayWrite(p: Principal, batch: seq<Envelope>) {
    IsAdmin(p) || (CallerTenant(p).Some? && forall e :: e in batch ==> TenantOf(e.ownership) == CallerTenant(p))
  }

  /** Owned by the tenant, or by one of its workspaces or projects. */
  predicate OwnedBy(e: Envelope, tenant: string) {
    match e.ownership
    case System => false
    case Tenant(t) => t == tenant
    case Workspace(t, _) => t == tenant
    case Project(t, _, _) => t == tenant
  }

  /** Whom the gate lets write what. */
  lemma GateIff(p: Principal, batch: seq<Envelope>)
    ensures p.Operator? || (p.ServiceAccount? && p.name != "admin") ==>
      (MayWrite(p, batch) <==> forall e :: e in batch ==> OwnedBy(e, p.tenant))
    ensures p.SystemPrincipal? || (p.ServiceAccount? && p.name == "admin") ==> MayWrite(p, batch)
  {
    if p.Operator? || p.ServiceAccount? {
      forall e | e in batch ensures OwnedBy(e, p.tenant) <==> TenantOf(e.ownership) == Some(p.tenant) {
      }
    }
  }

  function NoticeFor(e: Envelope): Option<Notices.Notification> {
    var id := "notif-" + (if |e.eventId| <= 16 then e.eventId else e.eventId[..16]);
    match e.payload
    case ApprovalRequested(a) => Some(Notices.Notification(id, Notices.ApprovalRequested, Some(a), "approvals", false))
    case ApprovalResolved(a) => Some(Notices.Notification(id, Notices.ApprovalResolved, Some(a), "approvals", false))
    case RunStateChanged(run, to) =>
      if to == Completed then Some(Notices.Notification(id, Notices.RunCompleted, Some(run), "run/" + run, false))
      else if to == Failed then Some(Notices.Notification(id, Notices.RunFailed, Some(run), "run/" + run, false))
      else None
    case TaskStateChanged(task, to) =>
      if to == DeadLettered || to == RetryableFailed
      then Some(Notices.Notification(id, Notices.TaskStuck, Some(task), "tasks", false)) else None
    case _ => None
  }

  /** The page that shows the entity of an event. */
  function PageOf(e: RuntimeEvent): string {
    if e.RunStateChanged? then "run/" + e.runId else if e.TaskStateChanged? then "tasks" else "approvals"
  }

  /** Which events notify the operators, and of what: a request or decision
      about an approval, a run that completed or failed, a task that is stuck;
      each by the entity it is about, and unread. */
  lemma NoticeIff(e: Envelope, kind: Notices.NotifType, entity: string)
    ensures (NoticeFor(e).Some? && NoticeFor(e).value.notifType == kind && NoticeFor(e).value.entityId == Some(entity)) <==>
      match kind
      case ApprovalRequested => e.payload == ApprovalRequested(entity)
      case ApprovalResolved => e.payload == ApprovalResolved(entity)
      case RunCompleted => e.payload == RunStateChanged(entity, Completed)
      case RunFailed => e.payload == RunStateChanged(entity, Failed)
      case TaskStuck => e.payload == TaskStateChanged(entity, DeadLettered) || e.payload == TaskStateChanged(entity, RetryableFailed)
    ensures NoticeFor(e).Some? ==> !NoticeFor(e).value.read && NoticeFor(e).value.entityId.Some?
    ensures NoticeFor(e).Some? ==> NoticeFor(e).value.href == PageOf(e.payload)
  {
  }

  /** The notification ring after the hook has seen the first `n` envelopes. */
  function Notified(ring: seq<Notices.Notification>, batch: seq<Envelope>, n: nat): seq<Notices.Notification>
    requires n <= |batch|
  {
    if n == 0 then ring
    else
      var before := Notified(ring, batch, n - 1);
      var notice := NoticeFor(batch[n - 1]);
      if notice.None? then before else Notices.OnRing(before, Notices.Push(notice.value))
  }

  /** The notices that some envelopes call for, in order. */
  function NoticesFor(batch: seq<Envelope>): seq<Notices.Notification> {
    if batch == [] then []
    else
      var notice := NoticeFor(Last(batch));
      NoticesFor(Front(batch)) + (if notice.Some? then [notice.value] else [])
  }

  /** The hook leaves the last 200 of what there was and of what the envelopes
      it has seen call for, be they duplicates or not. */
  lemma {:induction false} NotifiedIsWindow(ring: seq<Notices.Notification>, batch: seq<Envelope>, n: nat)
    requires n <= |batch| && |ring| <= 200
    ensures Notified(ring, batch, n) == Notices.LastN(ring + NoticesFor(batch[..n]), 200)
  {
    if n == 0 {
      assert ring + [] == ring && batch[..0] == [];
    } else {
      NotifiedIsWindow(ring, batch, n - 1);
      assert Front(batch[..n]) == batch[..n - 1];
      var before, notice := ring + NoticesFor(batch[..n - 1]), NoticeFor(batch[n - 1]);
      if notice.Some? {
        assert ring + NoticesFor(batch[..n]) == before + [notice.value];
      }
    }
  }

  /** The envelopes the handler gets to see: all of them, or those up to the
      first that fails. */
  lemma {:induction false} ReachedMeans(w: World, batch: seq<Envelope>, n: nat, faults: Faults, derive: Projector)
    requires n <= |batch|
    ensures var k := Reached(w, batch, n, faults, derive);
      && (k > 0 ==> Process(w, batch, k - 1, faults, derive).1.Some?)
      && (k < n ==> Process(w, batch, k, faults, derive).1.None?)
      && (Process(w, batch, n, faults, derive).1.Some? ==> k == n)
  {
    if n > 0 {
      if Process(w, batch, n - 1, faults, derive).1.None? {
        ReachedMeans(w, batch, n - 1, faults, derive);
        FailureSticks(w, batch, n - 1, n, faults, derive);
      } else {
        assert Reached(w, batch, n, faults, derive) == n;
      }
    }
  }

  class EventsApi {
    var memory: Store
    var durable: Option<seq<Envelope>>
    const wired: bool
    const notifications: Notices.NotificationBuffer

    constructor (durable: Option<seq<Envelope>>, wired: bool, notifications: Notices.NotificationBuffer)
      ensures State() == World(EMPTY, durable, wired) && this.notifications == notifications
    {
      memory := EMPTY;
      this.durable := durable;
      this.wired := wired;
      this.notifications := notifications;
    }

    ghost function State(): World reads this {
      World(memory, durable, wired)
    }

    /** The ownership gate. */
    static method OwnsAll(principal: Principal, batch: seq<Envelope>) returns (allowed: bool)
      ensures allowed == MayWrite(principal, batch)
    {
      if IsAdmin(principal) {
        return true;
      }
      if CallerTenant(principal).None? {
        return false;
      }
      var k := 0;
      while k < |batch|
        invariant 0 <= k <= |batch|
        invariant forall j :: 0 <= j < k ==> TenantOf(batch[j].ownership) == CallerTenant(principal)
      {
        if TenantOf(batch[k].ownership) != CallerTenant(principal) {
          return false;
        }
        k := k + 1;
      }
      return true;
    }

    /** The check and the dual write for one envelope. */
    method AppendEnvelope(e: Envelope, i: nat, faults: Faults, derive: Projector) returns (r: Option<AppendResult>)
      modifies this`memory, this`durable
      ensures (State(), r) == AppendOne(old(State()), e, i, faults, derive)
    {
      if e.causationId.Some? {
        var existing := FindByCausationId(memory, e.causationId.value);
        if existing.Some? {
          return Some(AppendResult(e.eventId, existing.value, false));
        }
      }
      if durable.Some? {
        var first := DurableWrite(durable.value, e, i in faults.durable);
        if first.None? {
          return None;
        }
        durable := first;
      }
      var position := memory.nextPosition;
      memory := Append(memory, e, derive);
      if wired && durable.Some? {
        var second := DurableWrite(durable.value, e, i in faults.secondary);
        if second.None? {
          return None;
        }
        durable := second;
      }
      return Some(AppendResult(e.eventId, position, true));
    }

    /** The notification hook, for the envelope at hand. */
    method Notify(batch: seq<Envelope>, i: nat)
      requires i < |batch|
      modifies notifications
      ensures forall ring :: old(notifications.entries) == Notified(ring, batch, i) ==>
        notifications.entries == Notified(ring, batch, i + 1)
    {
      var notice := NoticeFor(batch[i]);
      if notice.Some? {
        notifications.Push(notice.value);
      }
    }

    method AppendEvents(principal: Principal, batch: seq<Envelope>, faults: Faults, derive: Projector) returns (r: Response)
      modifies this`memory, this`durable, notifications
      ensures batch == [] ==> r == Accepted([])
      // an ordinary caller may write what its own tenant owns, and nothing else
      ensures batch != [] && (principal.Operator? || (principal.ServiceAccount? && principal.name != "admin")) ==>
        (r == Forbidden <==> exists e :: e in batch && !OwnedBy(e, principal.tenant))
      ensures principal.SystemPrincipal? || (principal.ServiceAccount? && principal.name == "admin") ==> r != Forbidden
      ensures batch != [] && !MayWrite(principal, batch) ==> r == Forbidden
      ensures batch == [] || r == Forbidden ==>
        State() == old(State()) && notifications.entries == old(notifications.entries)
      ensures batch != [] && MayWrite(principal, batch) ==>
        var (w, results) := Process(old(State()), batch, |batch|, faults, derive);
        && State() == w
        && r == (if results.Some? then Created(results.value) else InternalError)
        && notifications.entries ==
           Notified(old(notifications.entries), batch, Reached(old(State()), batch, |batch|, faults, derive))
    {
      if batch == [] {
        return Accepted([]);
      }
      GateIff(principal, batch);
      var allowed := OwnsAll(principal, batch);
      if !allowed {
        return Forbidden;
      }
      ghost var w0 := State();
      ghost var ring0 := notifications.entries;
      var results: seq<AppendResult> := [];
      var i := 0;
      while i < |batch|
        invariant 0 <= i <= |batch|
        invariant Process(w0, batch, i, faults, derive) == (State(), Some(results))
        invariant Reached(w0, batch, i, faults, derive) == i
        invariant notifications.entries == Notified(ring0, batch, i)
      {
        OneFurther(w0, batch, i, faults, derive);
        Notify(batch, i);
        var r := AppendEnvelope(batch[i], i, faults, derive);
        i := i + 1;
        if r.None? {
          FailureSticks(w0, batch, i, |batch|, faults, derive);
          return InternalError;
        }
        results := results + [r.value];
      }
      return Created(results);
    }
  }

  /** The sequential meaning of one more envelope, while none has failed. */
  lemma OneFurther(w: World, batch: seq<Envelope>, i: nat, faults: Faults, derive: Projector)
    requires i < |batch| && Process(w, batch, i, faults, derive).1.Some?
    ensures var (w1, rs) := Process(w, batch, i, faults, derive);
      var (w2, r) := AppendOne(w1, batch[i], i, faults, derive);
      Process(w, batch, i + 1, faults, derive) == (w2, if r.None? then None else Some(rs.value + [r.value]))
    ensures Reached(w, batch, i + 1, faults, derive) == i + 1
  {
  }

  lemma {:induction false} FailureSticks(w: World, batch: seq<Envelope>, k: nat, n: nat, faults: Faults, derive: Projector)
    requires k <= n <= |batch|
    requires Process(w, batch, k, faults, derive).1.None?
    ensures Process(w, batch, n, faults, derive) == Process(w, batch, k, faults, derive)
    ensures Reached(w, batch, n, faults, derive) == Reached(w, batch, k, faults, derive)
  {
    if k < n {
      FailureSticks(w, batch, k, n - 1, faults, derive);
    }
  }

  // ----- idempotency

  ghost predicate AllCaused(batch: seq<Envelope>) {
    forall e :: e in batch ==> e.causationId.Some?
  }

  /** The same answer, but for events that were in the log already. */
  function AsDuplicates(results: seq<AppendResult>): seq<AppendResult> {
    seq(|results|, i requires 0 <= i < |results| => results[i].(appended := false))
  }

  /** Each of the first `n` envelopes is findable at its answered position. */
  ghost predicate Remembered(w: World, batch: seq<Envelope>, results: seq<AppendResult>) {
    && |results| <= |batch|
    && forall i :: 0 <= i < |results| ==>
         && results[i].eventId == batch[i].eventId
         && (batch[i].causationId.Some? ==>
               FindByCausationId(w.memory, batch[i].causationId.value) == Some(results[i].position))
  }

  lemma OneRemembers(w: World, batch: seq<Envelope>, results: seq<AppendResult>, faults: Faults, derive: Projector)
    requires |results| < |batch| && Remembered(w, batch, results)
    requires AppendOne(w, batch[|results|], |results|, faults, derive).1.Some?
    ensures var (w', r) := AppendOne(w, batch[|results|], |results|, faults, derive);
      Remembered(w', batch, results + [r.value])
  {
    var (w', r) := AppendOne(w, batch[|results|], |results|, faults, derive);
    assert forall c :: c in w.memory.causationIndex ==> FindByCausationId(w'.memory, c) == FindByCausationId(w.memory, c);
  }

  lemma {:induction false} ProcessRemembers(w: World, batch: seq<Envelope>, n: nat, faults: Faults, derive: Projector)
    requires n <= |batch| && Process(w, batch, n, faults, derive).1.Some?
    ensures var (w', results) := Process(w, batch, n, faults, derive);
      && |results.value| == n
      && Remembered(w', batch, results.value)
  {
    if n > 0 {
      ProcessRemembers(w, batch, n - 1, faults, derive);
      var (w1, results) := Process(w, batch, n - 1, faults, derive);
      OneRemembers(w1, batch, results.value, faults, derive);
    }
  }

  lemma {:induction false} DuplicatesAreSkipped(w: World, batch: seq<Envelope>, results: seq<AppendResult>, n: nat,
                                                faults: Faults, derive: Projector)
    requires AllCaused(batch) && Remembered(w, batch, results) && n <= |results|
    ensures Process(w, batch, n, faults, derive) == (w, Some(AsDuplicates(results[..n])))
  {
    if n == 0 {
      assert AsDuplicates(results[..0]) == [];
    } else {
      DuplicatesAreSkipped(w, batch, results, n - 1, faults, derive);
      assert batch[n - 1] in batch;
      assert AsDuplicates(results[..n]) == AsDuplicates(results[..n - 1]) + [results[n - 1].(appended := false)];
    }
  }

  /**
    If every envelope carries a causation id (repeats allowed) and a call
    accepted the batch, then the same call again, in any configuration and
    under any backend faults, changes neither log and answers the same
    positions, all as duplicates.
   */
  lemma SecondCallChangesNothing(w: World, batch: seq<Envelope>, faults: Faults, later: Faults, derive: Projector)
    requires AllCaused(batch)
    requires Process(w, batch, |batch|, faults, derive).1.Some?
    ensures var (w', results) := Process(w, batch, |batch|, faults, derive);
      Process(w', batch, |batch|, later, derive) == (w', Some(AsDuplicates(results.value)))
  {
    ProcessRemembers(w, batch, |batch|, faults, derive);
    var (w', results) := Process(w, batch, |batch|, faults, derive);
    DuplicatesAreSkipped(w', batch, results.value, |batch|, later, derive);
    assert results.value[..|batch|] == results.value;
  }

  // ----- what the answers say

  /** The answer about one envelope: either it stands in the log at that
      position, or an event with its causation id does. */
  ghost predicate Stands(log: seq<Stored>, e: Envelope, r: AppendResult) {
    && r.eventId == e.eventId
    && (exists x :: x in log && x.position == r.position &&
          if r.appended then x.envelope == e && !x.derived
          else e.causationId.Some? && x.envelope.causationId == e.causationId)
  }

  /** The envelopes that were answered as appended. */
  function Taken(batch: seq<Envelope>, results: seq<AppendResult>): seq<Envelope>
    requires |results| <= |batch|
  {
    if results == [] then []
    else Taken(batch, Front(results)) + (if Last(results).appended then [batch[|results| - 1]] else [])
  }

  lemma OneStands(w: World, e: Envelope, i: nat, faults: Faults, derive: Projector)
    requires StoreOk(w.memory) && AppendOne(w, e, i, faults, derive).1.Some?
    ensures var (w', r) := AppendOne(w, e, i, faults, derive);
      && Stands(w'.memory.events, e, r.value)
      && w.memory.events <= w'.memory.events
      && Originals(w'.memory.events) == Originals(w.memory.events) + (if r.value.appended then [e] else [])
  {
    var (w', r) := AppendOne(w, e, i, faults, derive);
    if r.value.appended {
      var added := Added(w.memory, e, derive);
      assert added[0] in w'.memory.events;
      OriginalsOfAdded(w.memory.events, added);
    }
  }

  lemma StandsStill(log: seq<Stored>, longer: seq<Stored>, e: Envelope, r: AppendResult)
    requires log <= longer && Stands(log, e, r)
    ensures Stands(longer, e, r)
  {
    var x :| x in log && x.position == r.position &&
      if r.appended then x.envelope == e && !x.derived
      else e.causationId.Some? && x.envelope.causationId == e.causationId;
    assert x in longer;
  }

  /** What the first answers, and the log so far, have to do with each other. */
  ghost predicate AnsweredWell(w: World, batch: seq<Envelope>, v: World, results: seq<AppendResult>) {
    && LogOk(v.memory) && AllStand(v.memory.events, batch, results)
    && Originals(v.memory.events) == Originals(w.memory.events) + Taken(batch, results)
  }

  lemma OneMoreWell(w: World, batch: seq<Envelope>, v: World, results: seq<AppendResult>, faults: Faults, derive: Projector)
    requires AnsweredWell(w, batch, v, results) && Uncaused(derive) && |results| < |batch|
    requires AppendOne(v, batch[|results|], |results|, faults, derive).1.Some?
    ensures var (v', r) := AppendOne(v, batch[|results|], |results|, faults, derive);
      AnsweredWell(w, batch, v', results + [r.value])
  {
    var e := batch[|results|];
    OneKeepsLog(v, e, |results|, faults, derive);
    OneStands(v, e, |results|, faults, derive);
    var (v', r) := AppendOne(v, e, |results|, faults, derive);
    OneMoreStands(v.memory.events, v'.memory.events, batch, results, r.value);
    TakenMore(Originals(w.memory.events), batch, results, r.value);
  }

  /** What one more answered envelope keeps holds of the whole batch. */
  lemma {:induction false} AnsweredInTurn(P: (World, seq<AppendResult>) -> bool, w: World, batch: seq<Envelope>, n: nat,
                                          faults: Faults, derive: Projector)
    requires n <= |batch| && P(w, []) && Process(w, batch, n, faults, derive).1.Some?
    requires forall v, rs :: P(v, rs) && |rs| < |batch| && AppendOne(v, batch[|rs|], |rs|, faults, derive).1.Some? ==>
      P(AppendOne(v, batch[|rs|], |rs|, faults, derive).0, rs + [AppendOne(v, batch[|rs|], |rs|, faults, derive).1.value])
    ensures |Process(w, batch, n, faults, derive).1.value| == n
    ensures P(Process(w, batch, n, faults, derive).0, Process(w, batch, n, faults, derive).1.value)
  {
    if n > 0 {
      AnsweredInTurn(P, w, batch, n - 1, faults, derive);
      var (w1, rs) := Process(w, batch, n - 1, faults, derive);
      assert P(w1, rs.value);
    }
  }

  /**
    The answers are true: each envelope answered as appended stands in the log
    at its position, each answered as a duplicate names an event with the same
    causation id; and the log has grown by exactly the former, in order, and
    by what was derived from them.
   */
  lemma AnswersAreTrue(w: World, batch: seq<Envelope>, faults: Faults, derive: Projector)
    requires LogOk(w.memory) && Uncaused(derive) && Process(w, batch, |batch|, faults, derive).1.Some?
    ensures var (w', results) := Process(w, batch, |batch|, faults, derive);
      && |results.value| == |batch|
      && (forall i :: 0 <= i < |batch| ==> Stands(w'.memory.events, batch[i], results.value[i]))
      && Originals(w'.memory.events) == Originals(w.memory.events) + Taken(batch, results.value)
  {
    assert Originals(w.memory.events) + [] == Originals(w.memory.events);
    var P := (v: World, rs: seq<AppendResult>) => AnsweredWell(w, batch, v, rs);
    forall v, rs | P(v, rs) && |rs| < |batch| && AppendOne(v, batch[|rs|], |rs|, faults, derive).1.Some?
      ensures P(AppendOne(v, batch[|rs|], |rs|, faults, derive).0, rs + [AppendOne(v, batch[|rs|], |rs|, faults, derive).1.value])
    {
      OneMoreWell(w, batch, v, rs, faults, derive);
    }
    AnsweredInTurn(P, w, batch, |batch|, faults, derive);
  }

  ghost predicate AllStand(log: seq<Stored>, batch: seq<Envelope>, results: seq<AppendResult>) {
    |results| <= |batch| && forall i :: 0 <= i < |results| ==> Stands(log, batch[i], results[i])
  }

  lemma OneMoreStands(log: seq<Stored>, longer: seq<Stored>, batch: seq<Envelope>, results: seq<AppendResult>, r: AppendResult)
    requires AllStand(log, batch, results) && log <= longer && |results| < |batch|
    requires Stands(longer, batch[|results|], r)
    ensures AllStand(longer, batch, results + [r])
  {
    forall i | 0 <= i < |results| ensures Stands(longer, batch[i], results[i]) {
      StandsStill(log, longer, batch[i], results[i]);
    }
  }

  lemma TakenMore(before: seq<Envelope>, batch: seq<Envelope>, results: seq<AppendResult>, r: AppendResult)
    requires |results| < |batch|
    ensures before + Taken(batch, results + [r]) ==
      (before + Taken(batch, results)) + (if r.appended then [batch[|results|]] else [])
  {
    var more := if r.appended then [batch[|results|]] else [];
    assert Front(results + [r]) == results && Last(results + [r]) == r;
    assert Taken(batch, results + [r]) == Taken(batch, results) + more;
    assert before + (Taken(batch, results) + more) == (before + Taken(batch, results)) + more;
  }

  ghost predicate UniqueCauses(log: seq<Stored>) {
    forall i, j :: 0 <= i < j < |log| && log[i].envelope.causationId.Some? ==>
      log[i].envelope.causationId != log[j].envelope.causationId
  }

  lemma AppendKeepsUnique(s: Store, e: Envelope, derive: Projector)
    requires StoreOk(s) && UniqueCauses(s.events) && Uncaused(derive)
    requires e.causationId.Some? ==> e.causationId.value !in s.causationIndex
    ensures UniqueCauses(Append(s, e, derive).events)
  {
    var added := Added(s, e, derive);
    var log := s.events + added;
    forall i, j | 0 <= i < j < |log| && log[i].envelope.causationId.Some?
      ensures log[i].envelope.causationId != log[j].envelope.causationId
    {
      if i < |s.events| {
        assert log[i] == s.events[i] && s.events[i] in s.events;
      } else {
        assert log[j] == added[j - |s.events|];
      }
    }
  }

  ghost predicate LogOk(s: Store) {
    StoreOk(s) && UniqueCauses(s.events)
  }

  lemma OneKeepsLog(w: World, e: Envelope, i: nat, faults: Faults, derive: Projector)
    requires LogOk(w.memory) && Uncaused(derive)
    ensures LogOk(AppendOne(w, e, i, faults, derive).0.memory)
  {
    if AppendOne(w, e, i, faults, derive).0.memory != w.memory {
      AppendKeepsOk(w.memory, e, derive);
      AppendKeepsUnique(w.memory, e, derive);
    }
  }

  lemma {:induction false} ProcessKeeps(P: Store -> bool, w: World, batch: seq<Envelope>, n: nat, faults: Faults, derive: Projector)
    requires P(w.memory) && n <= |batch|
    requires forall v: World, e: Envelope, i: nat :: P(v.memory) ==> P(AppendOne(v, e, i, faults, derive).0.memory)
    ensures P(Process(w, batch, n, faults, derive).0.memory)
  {
    if n > 0 {
      ProcessKeeps(P, w, batch, n - 1, faults, derive);
    }
  }

  /** Positions stay increasing, the index stays right, and no causation id
      comes to be in the log twice. */
  lemma ProcessKeepsLog(w: World, batch: seq<Envelope>, n: nat, faults: Faults, derive: Projector)
    requires LogOk(w.memory) && Uncaused(derive) && n <= |batch|
    ensures LogOk(Process(w, batch, n, faults, derive).0.memory)
  {
    var P := (s: Store) => LogOk(s);
    forall v: World, e, i: nat | P(v.memory) ensures P(AppendOne(v, e, i, faults, derive).0.memory) {
      OneKeepsLog(v, e, i, faults, derive);
    }
    ProcessKeeps(P, w, batch, n, faults, derive);
  }

  /** What is in the log stays where it is. */
  lemma {:induction false} ProcessOnlyAppends(w: World, batch: seq<Envelope>, n: nat, faults: Faults, derive: Projector)
    requires n <= |batch|
    ensures w.memory.events <= Process(w, batch, n, faults, derive).0.memory.events
  {
    if n > 0 {
      ProcessOnlyAppends(w, batch, n - 1, faults, derive);
      var w1 := Process(w, batch, n - 1, faults, derive).0;
      var added := Added(w1.memory, batch[n - 1], derive);
    }
  }

  // ----- the two logs

  /** The events that were appended as such, in log order. */
  function Originals(log: seq<Stored>): seq<Envelope> {
    if log == [] then []
    else Originals(Front(log)) + (if Last(log).derived then [] else [Last(log).envelope])
  }

  lemma {:induction false} OriginalsOfAdded(log: seq<Stored>, added: seq<Stored>)
    requires |added| >= 1 && !added[0].derived && forall i :: 1 <= i < |added| ==> added[i].derived
    ensures Originals(log + added) == Originals(log) + [added[0].envelope]
  {
    var all := log + added;
    if |added| == 1 {
      assert Front(all) == log;
    } else {
      assert Front(all) == log + Front(added) && Last(all) == Last(added);
      OriginalsOfAdded(log, Front(added));
    }
  }

  /**
    The durable log holds exactly the original events of the memory log, in
    the same order, after every call that starts so, whatever the
    configuration, and also when a fault cuts the call short mid-batch.
   */
  lemma {:induction false} LogsAgree(w: World, batch: seq<Envelope>, n: nat, faults: Faults, derive: Projector)
    requires w.durable == Some(Originals(w.memory.events)) && n <= |batch|
    ensures var w' := Process(w, batch, n, faults, derive).0;
      w'.durable == Some(Originals(w'.memory.events))
  {
    if n > 0 {
      LogsAgree(w, batch, n - 1, faults, derive);
      var (w1, rs) := Process(w, batch, n - 1, faults, derive);
      if rs.Some? {
        OneFurther(w, batch, n - 1, faults, derive);
        OneAgrees(w1, batch[n - 1], n - 1, faults, derive);
      } else {
        FailureSticks(w, batch, n - 1, n, faults, derive);
      }
    }
  }

  lemma OneAgrees(w: World, e: Envelope, i: nat, faults: Faults, derive: Projector)
    requires w.durable == Some(Originals(w.memory.events))
    ensures var w' := AppendOne(w, e, i, faults, derive).0;
      w'.durable == Some(Originals(w'.memory.events))
  {
    var added := Added(w.memory, e, derive);
    OriginalsOfAdded(w.memory.events, added);
    var first := DurableWrite(w.durable.value, e, i in faults.durable);
    if first.Some? {
      assert first.value == w.durable.value + [e] && e in first.value;
      assert DurableWrite(first.value, e, i in faults.secondary).None?;
    }
  }

  function EnvelopesOf(log: seq<Stored>): seq<Envelope> {
    seq(|log|, i requires 0 <= i < |log| => log[i].envelope)
  }

  /** So both logs hold the very same events exactly when the projections have
      added none of their own. */
  lemma {:induction false} OriginalsAreAllIff(log: seq<Stored>)
    ensures Originals(log) == EnvelopesOf(log) <==> forall x :: x in log ==> !x.derived
    ensures |Originals(log)| <= |log|
  {
    if log != [] {
      OriginalsAreAllIff(Front(log));
      assert log == Front(log) + [Last(log)];
      assert EnvelopesOf(log) == EnvelopesOf(Front(log)) + [Last(log).envelope];
      if Last(log).derived {
        assert |Originals(log)| < |log|;
        assert Last(log) in log;
      } else {
        assert Originals(log)[..|Originals(log)| - 1] == Originals(Front(log));
        assert EnvelopesOf(log)[..|log| - 1] == EnvelopesOf(Front(log));
      }
    }
  }

  // ----- the wired configuration

  /** With the durable log wired as secondary, the store repeats the write the
      handler has just made, and the repeat is refused: both logs hold the
      event, and the call fails. */
  lemma SecondWriteFails(w: World, e: Envelope, i: nat, faults: Faults, derive: Projector)
    requires w.wired && w.durable.Some?
    ensures AppendOne(w, e, i, faults, derive).1.Some?
      <==> e.causationId.Some? && FindByCausationId(w.memory, e.causationId.value).Some?
  {
    var d := w.durable.value;
    var first := DurableWrite(d, e, i in faults.durable);
    if first.Some? {
      assert first.value == d + [e] && e in first.value;
    }
  }

  /** In the wired configuration a call succeeds exactly when every envelope
      is a duplicate, and then nothing is appended. */
  lemma {:induction false} WiredCallSucceedsIff(w: World, batch: seq<Envelope>, n: nat, faults: Faults, derive: Projector)
    requires w.wired && w.durable.Some? && n <= |batch|
    ensures Process(w, batch, n, faults, derive).1.Some? <==>
      forall i :: 0 <= i < n ==>
        batch[i].causationId.Some? && FindByCausationId(w.memory, batch[i].causationId.value).Some?
    ensures Process(w, batch, n, faults, derive).1.Some? ==> Process(w, batch, n, faults, derive).0 == w
  {
    if n > 0 {
      WiredCallSucceedsIff(w, batch, n - 1, faults, derive);
      SecondWriteFails(w, batch[n - 1], n - 1, faults, derive);
    }
  }

  // ----- retrying a call that was cut short

  lemma {:induction false} FaultsAfterDoNotMatter(w: World, batch: seq<Envelope>, n: nat, faults: Faults, derive: Projector)
    requires n <= |batch| && Process(w, batch, n, faults, derive).1.Some?
    ensures Process(w, batch, n, NO_FAULTS, derive) == Process(w, batch, n, faults, derive)
  {
    if n > 0 {
      FaultsAfterDoNotMatter(w, batch, n - 1, faults, derive);
    }
  }

  lemma {:induction false} ResumeConverges(w: World, batch: seq<Envelope>, k: nat, n: nat, derive: Projector)
    requires AllCaused(batch) && k <= n <= |batch|
    requires Process(w, batch, n, NO_FAULTS, derive).1.Some?
    requires Process(w, batch, k, NO_FAULTS, derive).1.Some?
    ensures var w1 := Process(w, batch, k, NO_FAULTS, derive).0;
      var (again, rs) := Process(w1, batch, n, NO_FAULTS, derive);
      && again == Process(w, batch, n, NO_FAULTS, derive).0
      && rs.Some?
  {
    var (w1, results) := Process(w, batch, k, NO_FAULTS, derive);
    if n == k {
      ProcessRemembers(w, batch, k, NO_FAULTS, derive);
      DuplicatesAreSkipped(w1, batch, results.value, k, NO_FAULTS, derive);
    } else {
      ResumeConverges(w, batch, k, n - 1, derive);
    }
  }

  /**
    Without a wired secondary, a call that a durable fault cuts short, tried
    again without faults, leaves both logs as one undisturbed call would.
   */
  lemma RetryConverges(w: World, batch: seq<Envelope>, faults: Faults, derive: Projector)
    requires AllCaused(batch) && !w.wired
    requires Process(w, batch, |batch|, NO_FAULTS, derive).1.Some?
    requires Process(w, batch, |batch|, faults, derive).1.None?
    ensures var cut := Process(w, batch, |batch|, faults, derive).0;
      var (again, results) := Process(cut, batch, |batch|, NO_FAULTS, derive);
      && again == Process(w, batch, |batch|, NO_FAULTS, derive).0
      && results.Some?
  {
    var k := FirstFailure(w, batch, |batch|, faults, derive);
    FailureSticks(w, batch, k + 1, |batch|, faults, derive);
    FaultsAfterDoNotMatter(w, batch, k, faults, derive);
    ResumeConverges(w, batch, k, |batch|, derive);
  }

  /** Where a failing call fails; without a wired secondary the failing
      envelope has left no trace. */
  lemma {:induction false} FirstFailure(w: World, batch: seq<Envelope>, n: nat, faults: Faults, derive: Projector) returns (k: nat)
    requires n <= |batch| && !w.wired && Process(w, batch, n, faults, derive).1.None?
    ensures k < n && Process(w, batch, k, faults, derive).1.Some?
    ensures Process(w, batch, k + 1, faults, derive).1.None?
    ensures Process(w, batch, k + 1, faults, derive).0 == Process(w, batch, k, faults, derive).0
  {
    if Process(w, batch, n - 1, faults, derive).1.None? {
      k := FirstFailure(w, batch, n - 1, faults, derive);
    } else {
      k := n - 1;
      NeverWired(w, batch, k, faults, derive);
    }
  }

  lemma {:induction false} NeverWired(w: World, batch: seq<Envelope>, n: nat, faults: Faults, derive: Projector)
    requires n <= |batch|
    ensures Process(w, batch, n, faults, derive).0.wired == w.wired
  {
    if n > 0 {
      NeverWired(w, batch, n - 1, faults, derive);
    }
  }
}
