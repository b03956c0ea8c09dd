/**
  Tasks in Fabric (crates/cairn-app/src/fabric_adapter.rs): an execution is
  addressed by project, session and task id, where a task without a session is
  a different execution from any with one.  Submitting fixes the address;
  every later call has to find it again through the projection, which lags
  behind.
 */
module FabricTasks {
  import opened Common

  type Project = string
  type Session = string
  type RunId = string
  type TaskId = string

  /** The address of a task's execution; no session is the solo path. */
  datatype Execution = Execution(project: Project, session: Option<Session>, task: TaskId)

  datatype RunRecord = RunRecord(project: Project, session: Session)

  datatype TaskRecord = TaskRecord(project: Project, session: Option<Session>, parentRun: Option<RunId>)

  datatype BridgeEvent =
    | RunCreated(run: RunId, runRecord: RunRecord)
    | TaskCreated(task: TaskId, taskRecord: TaskRecord)

  /** A dependency edge lives in the flow of one project and session. */
  datatype Edge = Edge(project: Project, session: Session, dependent: TaskId, prerequisite: TaskId)

  datatype Error = NotFound(entity: string, id: string) | Validation

  datatype State = State(
    executions: set<Execution>,
    edges: set<Edge>,
    queue: seq<BridgeEvent>,
    runs: map<RunId, RunRecord>,
    tasks: map<TaskId, TaskRecord>,
    addressed: seq<Execution> // what task calls have asked Fabric for, in order
  )

  const START := State({}, {}, [], map[], map[], [])

  // ----- resolving

  /** The session a submission is made under: the caller's, else that of the
      parent run, which must be known. */
  function SubmitSession(s: State, session: Option<Session>, parentRun: Option<RunId>): Result<Option<Session>, Error> {
    if session.Some? || parentRun.None? then Ok(session)
    else if parentRun.value !in s.runs then Err(NotFound("run", parentRun.value))
    else Ok(Some(s.runs[parentRun.value].session))
  }

  /** The mutation path: the session on the task's row, else its parent run's,
      checked against the caller's if the caller names one. */
  function ResolveForMutation(s: State, task: TaskId, caller: Option<Session>): Result<Execution, Error> {
    if task !in s.tasks then Err(NotFound("task", task))
    else
      var row := s.tasks[task];
      if row.session.None? && row.parentRun.Some? && row.parentRun.value !in s.runs
      then Err(NotFound("run", row.parentRun.value))
      else
        var derived :=
          if row.session.Some? then row.session
          else if row.parentRun.Some? then Some(s.runs[row.parentRun.value].session)
          else None;
        if caller.Some? && derived != caller then Err(Validation)
        else Ok(Execution(row.project, derived, task))
  }

  /** The read path looks at the parent run only. */
  function ResolveForGet(s: State, task: TaskId): Option<Execution> {
    if task !in s.tasks then None
    else
      var row := s.tasks[task];
      Some(Execution(row.project, RunSession(s, row.parentRun), task))
  }

  function RunSession(s: State, run: Option<RunId>): Option<Session> {
    if run.Some? && run.value in s.runs then Some(s.runs[run.value].session) else None
  }

  // ----- the calls

  function OnSubmit(s: State, project: Project, session: Option<Session>, task: TaskId, parentRun: Option<RunId>,
                    emitted: bool): (State, Result<Execution, Error>)
  {
    var resolved := SubmitSession(s, session, parentRun);
    if resolved.Err? then (s, Err(resolved.error))
    else
      var e := Execution(project, resolved.value, task);
      var created := TaskCreated(task, TaskRecord(project, resolved.value, parentRun));
      (s.(executions := s.executions + {e},
          queue := if e !in s.executions && emitted then s.queue + [created] else s.queue),
       Ok(e))
  }

  function OnMutation(s: State, task: TaskId, caller: Option<Session>): (State, Result<Execution, Error>) {
    var r := ResolveForMutation(s, task, caller);
    (if r.Ok? then s.(addressed := s.addressed + [r.value]) else s, r)
  }

  function OnDeclare(s: State, dependent: TaskId, prerequisite: TaskId): (State, Result<Edge, Error>) {
    var dep := ResolveForMutation(s, dependent, None);
    if dep.Err? then (s, Err(dep.error))
    else
      var pre := ResolveForMutation(s, prerequisite, None);
      if pre.Err? then (s, Err(pre.error))
      else if dep.value.project != pre.value.project then (s, Err(Validation))
      else if dep.value.session.None? || dep.value.session != pre.value.session then (s, Err(Validation))
      else if dependent == prerequisite then (s, Err(Validation))
      else
        var edge := Edge(dep.value.project, dep.value.session.value, dependent, prerequisite);
        (s.(edges := s.edges + {edge}), Ok(edge))
  }

  /** The adapter's calls, on Fabric and on the projection as they stand. */
  class TaskServiceAdapter {
    var executions: set<Execution>
    var edges: set<Edge>
    var queue: seq<BridgeEvent>
    var runs: map<RunId, RunRecord>
    var tasks: map<TaskId, TaskRecord>
    var addressed: seq<Execution>

    ghost function View(): State reads this {
      State(executions, edges, queue, runs, tasks, addressed)
    }

    constructor ()
      ensures View() == START
    {
      executions, edges, queue, runs, tasks, addressed := {}, {}, [], map[], map[], [];
    }

    method Resolve(task: TaskId, caller: Option<Session>) returns (r: Result<Execution, Error>)
      ensures r == ResolveForMutation(View(), task, caller)
    {
      if task !in tasks {
        return Err(NotFound("task", task));
      }
      var row := tasks[task];
      var derived := row.session;
      if derived.None? && row.parentRun.Some? {
        if row.parentRun.value !in runs {
          return Err(NotFound("run", row.parentRun.value));
        }
        derived := Some(runs[row.parentRun.value].session);
      }
      if caller.Some? {
        if derived != caller {
          return Err(Validation);
        }
      }
      return Ok(Execution(row.project, derived, task));
    }

    method Submit(project: Project, session: Option<Session>, task: TaskId, parentRun: Option<RunId>, emitted: bool)
      returns (r: Result<Execution, Error>)
      modifies this`executions, this`queue
      ensures (View(), r) == OnSubmit(old(View()), project, session, task, parentRun, emitted)
    {
      var resolved := session;
      if session.None? && parentRun.Some? {
        if parentRun.value !in runs {
          return Err(NotFound("run", parentRun.value));
        }
        resolved := Some(runs[parentRun.value].session);
      }
      var e := Execution(project, resolved, task);
      if e !in executions && emitted {
        queue := queue + [TaskCreated(task, TaskRecord(project, resolved, parentRun))];
      }
      executions := executions + {e};
      return Ok(e);
    }

    method Mutate(task: TaskId, caller: Option<Session>) returns (r: Result<Execution, Error>)
      modifies this`addressed
      ensures (View(), r) == OnMutation(old(View()), task, caller)
    {
      r := Resolve(task, caller);
      if r.Ok? {
        addressed := addressed + [r.value];
      }
    }

    method DeclareDependency(dependent: TaskId, prerequisite: TaskId) returns (r: Result<Edge, Error>)
      modifies this`edges
      ensures (View(), r) == OnDeclare(old(View()), dependent, prerequisite)
    {
      var dep := Resolve(dependent, None);
      if dep.Err? {
        return Err(dep.error);
      }
      var pre := Resolve(prerequisite, None);
      if pre.Err? {
        return Err(pre.error);
      }
      if dep.value.project != pre.value.project {
        return Err(Validation);
      }
      if dep.value.session.None? || pre.value.session.None? || dep.value.session.value != pre.value.session.value {
        return Err(Validation);
      }
      if dependent == prerequisite {
        return Err(Validation);
      }
      var edge := Edge(dep.value.project, dep.value.session.value, dependent, prerequisite);
      edges := edges + {edge};
      return Ok(edge);
    }
  }

  // ----- runs of the whole system

  datatype Step =
    | StartRun(run: RunId, record: RunRecord)
    | Submit(project: Project, session: Option<Session>, task: TaskId, parentRun: Option<RunId>, emitted: bool)
    | Mutate(task: TaskId, caller: Option<Session>)
    | Declare(dependent: TaskId, prerequisite: TaskId)
    | Drain(stored: bool)

  /** The projection of one drained event. */
  function ApplyToProjection(s: State, e: BridgeEvent): State {
    match e
    case RunCreated(run, record) => s.(runs := s.runs[run := record])
    case TaskCreated(task, record) =>
      var session := if record.session.Some? then record.session else RunSession(s, record.parentRun);
      s.(tasks := s.tasks[task := record.(session := session)])
  }

  function Next(s: State, step: Step): State {
    match step
    case StartRun(run, record) => s.(queue := s.queue + [RunCreated(run, record)])
    case Submit(project, session, task, parentRun, emitted) => OnSubmit(s, project, session, task, parentRun, emitted).0
    case Mutate(task, caller) => OnMutation(s, task, caller).0
    case Declare(dependent, prerequisite) => OnDeclare(s, dependent, prerequisite).0
    case Drain(stored) =>
      if s.queue == [] then s
      else
        var t := s.(queue := s.queue[1..]);
        if stored then ApplyToProjection(t, s.queue[0]) else t
  }

  function After(steps: seq<Step>): State {
    if steps == [] then START else Next(After(Front(steps)), Last(steps))
  }

  /** A task row, drained or still queued, names an execution that exists; and
      a row without a session has no parent run either. */
  ghost predicate RowOk(s: State, task: TaskId, row: TaskRecord) {
    && Execution(row.project, row.session, task) in s.executions
    && (row.session.None? ==> row.parentRun.None?)
  }

  ghost predicate Inv(s: State) {
    && (forall t :: t in s.tasks ==> RowOk(s, t, s.tasks[t]))
    && (forall e :: e in s.queue && e.TaskCreated? ==> RowOk(s, e.task, e.taskRecord))
    && (forall e :: e in s.addressed ==> e in s.executions)
    && (forall e :: e in s.edges ==>
          && Execution(e.project, Some(e.session), e.dependent) in s.executions
          && Execution(e.project, Some(e.session), e.prerequisite) in s.executions)
  }

  /** Whatever resolves for a mutation exists. */
  lemma ResolvedExists(s: State, task: TaskId, caller: Option<Session>)
    requires Inv(s) && ResolveForMutation(s, task, caller).Ok?
    ensures ResolveForMutation(s, task, caller).value in s.executions
    ensures ResolveForMutation(s, task, caller).value.session == s.tasks[task].session
  {
  }

  lemma NextKeepsInv(s: State, step: Step)
    requires Inv(s)
    ensures Inv(Next(s, step)) && s.executions <= Next(s, step).executions
  {
    match step {
      case Mutate(task, caller) =>
        if ResolveForMutation(s, task, caller).Ok? {
          ResolvedExists(s, task, caller);
        }
      case Declare(dependent, prerequisite) =>
        if OnDeclare(s, dependent, prerequisite).1.Ok? {
          ResolvedExists(s, dependent, None);
          ResolvedExists(s, prerequisite, None);
        }
      case _ =>
    }
  }

  lemma {:induction false} InvHolds(steps: seq<Step>)
    ensures Inv(After(steps))
  {
    if steps != [] {
      InvHolds(Front(steps));
      NextKeepsInv(After(Front(steps)), Last(steps));
    }
  }

  // ----- which execution a mutation addresses

  /** The events drained into the projection, in order. */
  function Drained(steps: seq<Step>): seq<BridgeEvent> {
    if steps == [] then []
    else
      var s := After(Front(steps));
      Drained(Front(steps)) + (if Last(steps) == Step.Drain(true) && s.queue != [] then [s.queue[0]] else [])
  }

  /** What the last of some events for a task says, and for a run. */
  function LastRecord(events: seq<BridgeEvent>, task: TaskId): Option<TaskRecord> {
    if events == [] then None
    else if Last(events).TaskCreated? && Last(events).task == task then Some(Last(events).taskRecord)
    else LastRecord(Front(events), task)
  }

  function LastRun(events: seq<BridgeEvent>, run: RunId): Option<RunRecord> {
    if events == [] then None
    else if Last(events).RunCreated? && Last(events).run == run then Some(Last(events).runRecord)
    else LastRun(Front(events), run)
  }

  function RowOf(s: State, task: TaskId): Option<TaskRecord> {
    if task in s.tasks then Some(s.tasks[task]) else None
  }

  function RunRowOf(s: State, run: RunId): Option<RunRecord> {
    if run in s.runs then Some(s.runs[run]) else None
  }

  /** One step changes a row only by draining an event for its task or run,
      and then the row is what that event says: no session is filled in. */
  lemma StepRows(s: State, step: Step, task: TaskId, run: RunId)
    requires Inv(s)
    ensures var drained := if step == Step.Drain(true) && s.queue != [] then [s.queue[0]] else [];
      && RowOf(Next(s, step), task) ==
         (if LastRecord(drained, task).Some? then LastRecord(drained, task) else RowOf(s, task))
      && RunRowOf(Next(s, step), run) ==
         (if LastRun(drained, run).Some? then LastRun(drained, run) else RunRowOf(s, run))
  {
    if step == Step.Drain(true) && s.queue != [] {
      assert s.queue[0] in s.queue && Front([s.queue[0]]) == [];
    }
  }

  /** The row of a task is what the last event drained for it says, and so is
      the row of a run. */
  lemma {:induction false} RowIsLastDrained(steps: seq<Step>, task: TaskId, run: RunId)
    ensures RowOf(After(steps), task) == LastRecord(Drained(steps), task)
    ensures RunRowOf(After(steps), run) == LastRun(Drained(steps), run)
  {
    if steps != [] {
      var s := After(Front(steps));
      RowIsLastDrained(Front(steps), task, run);
      InvHolds(Front(steps));
      StepRows(s, Last(steps), task, run);
      if Drained(steps) != Drained(Front(steps)) {
        assert Front(Drained(steps)) == Drained(Front(steps)) && Front([s.queue[0]]) == [];
      }
    }
  }

  /** The execution a record stands for. */
  function Recorded(task: TaskId, record: TaskRecord): Execution {
    Execution(record.project, record.session, task)
  }

  /**
    In every run, a mutation addresses an execution exactly when that is the
    one the last TaskCreated event drained for the task stands for, and the
    caller names its session or none.  So an id used for several executions
    resolves to the latest drained.
   */
  lemma MutationHitsLastDrainedIff(steps: seq<Step>, task: TaskId, caller: Option<Session>, e: Execution)
    ensures ResolveForMutation(After(steps), task, caller) == Ok(e) <==>
      LastRecord(Drained(steps), task).Some? && e == Recorded(task, LastRecord(Drained(steps), task).value) &&
      (caller.None? || caller == e.session)
  {
    RowIsLastDrained(steps, task, "");
    InvHolds(steps);
  }

  /** And so, in every run, what a mutation is answered: the task is not found
      if no event has been drained for it; a caller that names another session
      is refused; and only what is answered is asked of Fabric. */
  lemma MutationAnswers(steps: seq<Step>, task: TaskId, caller: Option<Session>)
    ensures var s := After(steps); var (t, r) := OnMutation(s, task, caller); var last := LastRecord(Drained(steps), task);
      && r == (if last.None? then Err(NotFound("task", task))
               else if caller.Some? && caller != last.value.session then Err(Validation)
               else Ok(Recorded(task, last.value)))
      && t == (if r.Ok? then s.(addressed := s.addressed + [r.value]) else s)
  {
    RowIsLastDrained(steps, task, "");
    InvHolds(steps);
  }

  /**
    Whatever a mutation addresses, some submit has created.  So a task whose
    submissions have all carried a session, their own or a parent run's, is
    never looked for on the solo path; and a task submitted under one project
    and session only is always found where `submit` put it.
   */
  lemma MutationHitsWhatSubmitMade(steps: seq<Step>, task: TaskId, caller: Option<Session>)
    requires ResolveForMutation(After(steps), task, caller).Ok?
    ensures var s := After(steps); var e := ResolveForMutation(s, task, caller).value;
      && e in s.executions && e.task == task
      && ((forall f :: f in s.executions && f.task == task ==> f.session.Some?) ==> e.session.Some?)
      && (forall x :: x in s.addressed ==> x in s.executions)
  {
    InvHolds(steps);
    ResolvedExists(After(steps), task, caller);
  }

  // ----- what a submission answers

  /** The session that is due to a submission: the one it names; else, under a
      parent run, that of the last event drained for the run, if there is one;
      else none. */
  function SessionDue(steps: seq<Step>, session: Option<Session>, parentRun: Option<RunId>): Result<Option<Session>, Error> {
    match (session, parentRun)
    case (Some(_), _) => Ok(session)
    case (None, None) => Ok(None)
    case (None, Some(run)) =>
      var last := LastRun(Drained(steps), run);
      if last.Some? then Ok(Some(last.value.session)) else Err(NotFound("run", run))
  }

  /**
    In every run, a submission is answered with its own project and task and
    the session due to it, which is the one it names if it names one, whatever
    the parent run; a new execution queues one event with that very session;
    and a refused submission changes nothing.
   */
  lemma SubmitAnswers(steps: seq<Step>, project: Project, session: Option<Session>, task: TaskId,
                      parentRun: Option<RunId>, emitted: bool)
    ensures var s := After(steps); var (t, r) := OnSubmit(s, project, session, task, parentRun, emitted);
      var due := SessionDue(steps, session, parentRun);
      && (session.Some? ==> r == Ok(Execution(project, session, task)))
      && r == (if due.Ok? then Ok(Execution(project, due.value, task)) else Err(due.error))
      && (r.Err? ==> t == s)
      && (r.Ok? ==>
            t == s.(executions := s.executions + {r.value},
                    queue := if r.value in s.executions || !emitted then s.queue
                             else s.queue + [TaskCreated(task, TaskRecord(project, r.value.session, parentRun))]))
  {
    if parentRun.Some? {
      RowIsLastDrained(steps, task, parentRun.value);
    }
  }

  // ----- what has been submitted, by the calls made

  /** The executions that the submissions of a run have asked for. */
  function Submitted(steps: seq<Step>): set<Execution> {
    if steps == [] then {}
    else Submitted(Front(steps)) + (var e := AskedFor(Front(steps), Last(steps)); if e.Some? then {e.value} else {})
  }

  /** What a step asks for, if it is a submission that is not refused. */
  function AskedFor(steps: seq<Step>, step: Step): Option<Execution> {
    if !step.Submit? then None
    else
      var due := SessionDue(steps, step.session, step.parentRun);
      if due.Ok? then Some(Execution(step.project, due.value, step.task)) else None
  }

  /** The event a step puts on the bridge: a run's, or that of an execution
      which has not been asked for before. */
  function EventOf(steps: seq<Step>, step: Step): seq<BridgeEvent> {
    match step
    case StartRun(run, record) => [RunCreated(run, record)]
    case Submit(project, _, task, parentRun, emitted) =>
      var e := AskedFor(steps, step);
      if e.Some? && emitted && e.value !in Submitted(steps)
      then [TaskCreated(task, TaskRecord(project, e.value.session, parentRun))] else []
    case _ => []
  }

  function Emitted(steps: seq<Step>): seq<BridgeEvent> {
    if steps == [] then [] else Emitted(Front(steps)) + EventOf(Front(steps), Last(steps))
  }

  /** The events that have left the bridge, stored or not. */
  function Popped(steps: seq<Step>): seq<BridgeEvent> {
    if steps == [] then []
    else
      var queue := After(Front(steps)).queue;
      Popped(Front(steps)) + (if Last(steps).Drain? && queue != [] then [queue[0]] else [])
  }

  lemma StepEmits(steps: seq<Step>, step: Step)
    requires After(steps).executions == Submitted(steps)
    ensures var s, t := After(steps), Next(After(steps), step); var e := AskedFor(steps, step);
      && t.executions == s.executions + (if e.Some? then {e.value} else {})
      && (step.Drain? && s.queue != [] ==> t.queue == s.queue[1..])
      && (!step.Drain? || s.queue == [] ==> t.queue == s.queue + EventOf(steps, step))
  {
    if step.Submit? {
      SubmitAnswers(steps, step.project, step.session, step.task, step.parentRun, step.emitted);
    }
    assert After(steps).queue + [] == After(steps).queue;
  }

  /** The executions are those asked for, and the bridge is first in, first
      out: what has left it, and then what is on it, is what was emitted. */
  lemma {:induction false} BridgeIsFifo(steps: seq<Step>)
    ensures After(steps).executions == Submitted(steps)
    ensures Emitted(steps) == Popped(steps) + After(steps).queue
  {
    if steps != [] {
      var front, step := Front(steps), Last(steps);
      BridgeIsFifo(front);
      StepEmits(front, step);
      var queue := After(front).queue;
      if step.Drain? && queue != [] {
        assert EventOf(front, step) == [] && queue == [queue[0]] + queue[1..];
        Regroup(Popped(front), [queue[0]], queue[1..]);
      } else {
        Regroup(Popped(front), queue, EventOf(front, step));
      }
    }
  }

  lemma Regroup(a: seq<BridgeEvent>, b: seq<BridgeEvent>, c: seq<BridgeEvent>)
    ensures (a + b) + c == a + (b + c) && a + [] == a
  {
  }

  predicate AllStored(steps: seq<Step>) {
    forall step :: step in steps && step.Drain? ==> step.stored
  }

  lemma {:induction false} DrainedIsPopped(steps: seq<Step>)
    requires AllStored(steps)
    ensures Drained(steps) == Popped(steps)
  {
    if steps != [] {
      assert steps == Front(steps) + [Last(steps)] && Last(steps) in steps;
      DrainedIsPopped(Front(steps));
    }
  }

  /**
    Once the bridge is empty, and if every event could be stored, a mutation
    addresses what the last submission that created an execution for the task
    was answered; without one the task is not found.
   */
  lemma MutationFindsLastSubmitted(steps: seq<Step>, task: TaskId)
    requires AllStored(steps) && After(steps).queue == []
    ensures var last := LastRecord(Emitted(steps), task);
      ResolveForMutation(After(steps), task, None) ==
        if last.None? then Err(NotFound("task", task)) else Ok(Recorded(task, last.value))
  {
    BridgeIsFifo(steps);
    DrainedIsPopped(steps);
    Regroup(Popped(steps), [], []);
    RowIsLastDrained(steps, task, "");
    InvHolds(steps);
  }

  /** A task id used on the solo path first and under a run then: once both
      events are drained, mutations have moved to the run's session. */
  lemma SoloThenUnderRunMoves(p: Project, session: Session, run: RunId, task: TaskId)
    ensures var s := After(SoloThenUnderRun(p, session, run, task));
      && Execution(p, None, task) in s.executions
      && ResolveForMutation(s, task, None) == Ok(Execution(p, Some(session), task))
  {
    var steps := SoloThenUnderRun(p, session, run, task);
    var a := steps[..2];
    var b := steps[..4];
    assert Front(steps[..1]) == [] && Front(a) == steps[..1] && Front(steps[..3]) == a && Front(b) == steps[..3];
    assert Front(steps[..5]) == b && Front(steps) == steps[..5];
    assert After([]) == START;
    var solo := TaskRecord(p, None, None);
    assert After(steps[..1]).queue == [TaskCreated(task, solo)];
    assert After(a) == START.(executions := {Execution(p, None, task)}, tasks := map[task := solo]);
    assert After(b) == After(a).(runs := map[run := RunRecord(p, session)]);
    var row := TaskRecord(p, Some(session), Some(run));
    assert After(steps[..5]).queue == [TaskCreated(task, row)];
  }

  function SoloThenUnderRun(p: Project, session: Session, run: RunId, task: TaskId): seq<Step> {
    [Submit(p, None, task, None, true), Drain(true),
     StartRun(run, RunRecord(p, session)), Drain(true),
     Submit(p, None, task, Some(run), true), Drain(true)]
  }

  /** A caller that names a session reaches Fabric exactly when that is the
      session on the task's row; otherwise nothing is addressed. */
  lemma CallerSessionIsChecked(steps: seq<Step>, task: TaskId, caller: Session)
    requires task in After(steps).tasks
    ensures var (s', r) := OnMutation(After(steps), task, Some(caller));
      && (r.Ok? <==> After(steps).tasks[task].session == Some(caller))
      && (r.Ok? ==> s'.addressed == After(steps).addressed + [r.value] && r.value.session == Some(caller))
      && (r.Err? ==> s' == After(steps) && r.error == Validation)
  {
    InvHolds(steps);
  }

  /** A submission under a parent run always carries a session, its own or the
      parent run's, or is refused. */
  lemma SubmitUnderRunIsNeverSolo(s: State, project: Project, session: Option<Session>, task: TaskId, run: RunId, emitted: bool)
    ensures var r := OnSubmit(s, project, session, task, Some(run), emitted).1;
      && (r.Ok? ==> r.value.session.Some?)
      && (r.Err? <==> session.None? && run !in s.runs)
  {
  }

  // ----- the read path

  /**
    The read path ignores the session on the task's row.  It addresses the
    execution that mutations address exactly when that row has no session, or
    its parent run is known and has the same one.
   */
  lemma GetAddressesTheSameIff(steps: seq<Step>, task: TaskId)
    requires task in After(steps).tasks
    ensures var s := After(steps); var row := s.tasks[task];
      && ResolveForMutation(s, task, None).Ok?
      && (ResolveForGet(s, task) == Some(ResolveForMutation(s, task, None).value) <==>
            row.session.None? ||
            (row.parentRun.Some? && row.parentRun.value in s.runs &&
             s.runs[row.parentRun.value].session == row.session.value))
  {
    InvHolds(steps);
  }

  /** What a read addresses: the project of the last event drained for the
      task, under the session of the last one drained for its parent run. */
  lemma GetAnswers(steps: seq<Step>, task: TaskId)
    ensures var last := LastRecord(Drained(steps), task);
      && (last.None? ==> ResolveForGet(After(steps), task) == None)
      && (last.Some? && last.value.parentRun.None? ==>
            ResolveForGet(After(steps), task) == Some(Execution(last.value.project, None, task)))
      && (last.Some? && last.value.parentRun.Some? ==>
            var run := LastRun(Drained(steps), last.value.parentRun.value);
            ResolveForGet(After(steps), task) ==
              Some(Execution(last.value.project, if run.Some? then Some(run.value.session) else None, task)))
  {
    RowIsLastDrained(steps, task, "");
    var last := LastRecord(Drained(steps), task);
    if last.Some? && last.value.parentRun.Some? {
      RowIsLastDrained(steps, task, last.value.parentRun.value);
    }
  }

  /** A task submitted with a session of its own and no parent run: mutations
      find it, the read path looks for an execution that does not exist. */
  lemma GetCanMissATask(p: Project, session: Session, task: TaskId)
    ensures var s := After([Submit(p, Some(session), task, None, true), Drain(true)]);
      && ResolveForMutation(s, task, None) == Ok(Execution(p, Some(session), task))
      && ResolveForGet(s, task) == Some(Execution(p, None, task))
      && s.executions == {Execution(p, Some(session), task)}
  {
    var a := [Submit(p, Some(session), task, None, true)];
    var b := a + [Drain(true)];
    assert b == [Submit(p, Some(session), task, None, true), Drain(true)];
    assert Front(a) == [] && Front(b) == a;
    assert After([]) == START;
    var created := TaskCreated(task, TaskRecord(p, Some(session), None));
    assert After(a).queue == [created];
    assert After(b) == ApplyToProjection(After(a).(queue := []), created);
  }

  // ----- dependencies

  /**
    In every run, a dependency is accepted exactly when the last events drained
    for the two tasks give them one project and one session, and they are not
    the same task; then the edge from the one to the other is all that is new.
    Otherwise nothing changes, and a task without such an event is not found.
   */
  lemma DeclareAnswers(steps: seq<Step>, dependent: TaskId, prerequisite: TaskId)
    ensures var s := After(steps); var (t, r) := OnDeclare(s, dependent, prerequisite);
      var a, b := LastRecord(Drained(steps), dependent), LastRecord(Drained(steps), prerequisite);
      && (r.Ok? <==>
            && a.Some? && b.Some? && dependent != prerequisite
            && a.value.project == b.value.project && a.value.session.Some? && a.value.session == b.value.session)
      && (r.Ok? ==>
            && r.value == Edge(a.value.project, a.value.session.value, dependent, prerequisite)
            && t == s.(edges := s.edges + {r.value}))
      && (r.Err? ==>
            && t == s
            && r.error == (if a.None? then NotFound("task", dependent)
                           else if b.None? then NotFound("task", prerequisite) else Validation))
  {
    RowIsLastDrained(steps, dependent, "");
    RowIsLastDrained(steps, prerequisite, "");
    InvHolds(steps);
  }

  predicate Touches(e: Edge, task: TaskId) {
    e.dependent == task || e.prerequisite == task
  }

  predicate SamePair(e: Edge, f: Edge) {
    e.project == f.project && e.session == f.session
  }

  /** A trail of accepted edges, each with a task in common with the next. */
  ghost predicate Trail(s: State, trail: seq<Edge>) {
    && trail != []
    && (forall i :: 0 <= i < |trail| ==> trail[i] in s.edges)
    && (forall i :: 0 <= i < |trail| - 1 ==> Meet(trail[i], trail[i + 1]))
  }

  ghost predicate Meet(e: Edge, f: Edge) {
    exists task :: Touches(e, task) && Touches(f, task)
  }

  /** All accepted edges at a task are under one project and session. */
  ghost predicate OnePair(s: State, task: TaskId) {
    forall e, f :: e in s.edges && f in s.edges && Touches(e, task) && Touches(f, task) ==> SamePair(e, f)
  }

  /**
    In every run, two tasks connected by a trail of accepted edges on which no
    task has edges under two pairs have executions under one project and one
    session: those the edges were declared in.
   */
  lemma {:induction false} ConnectedTasksShareSession(steps: seq<Step>, trail: seq<Edge>, first: TaskId, last: TaskId)
    requires var s := After(steps);
      && Trail(s, trail) && Touches(trail[0], first) && Touches(Last(trail), last)
      && forall i, task :: 0 <= i < |trail| - 1 && Touches(trail[i], task) ==> OnePair(s, task)
    ensures SamePair(trail[0], Last(trail))
    ensures var e := trail[0];
      && Execution(e.project, Some(e.session), first) in After(steps).executions
      && Execution(e.project, Some(e.session), last) in After(steps).executions
  {
    InvHolds(steps);
    if |trail| > 1 {
      assert Meet(trail[0], trail[1]);
      var task :| Touches(trail[0], task) && Touches(trail[1], task);
      assert OnePair(After(steps), task);
      var rest := trail[1..];
      forall i | 0 <= i < |rest| - 1 ensures Meet(rest[i], rest[i + 1]) {
        assert Meet(trail[i + 1], trail[i + 2]);
      }
      ConnectedTasksShareSession(steps, rest, task, last);
    }
  }

  /** All connected tasks share one project and session exactly when no task
      has accepted edges under two of them. */
  lemma AllConnectedShareIff(steps: seq<Step>)
    ensures var s := After(steps);
      (forall trail :: Trail(s, trail) ==> SamePair(trail[0], Last(trail))) <==> (forall task :: OnePair(s, task))
  {
    var s := After(steps);
    if forall task :: OnePair(s, task) {
      forall trail: seq<Edge> | Trail(s, trail) ensures SamePair(trail[0], Last(trail)) {
        ConnectedTasksShareSession(steps, trail, trail[0].dependent, Last(trail).dependent);
      }
    }
    if forall trail :: Trail(s, trail) ==> SamePair(trail[0], Last(trail)) {
      forall task, e, f | e in s.edges && f in s.edges && Touches(e, task) && Touches(f, task) ensures SamePair(e, f) {
        var trail := [e, f];
        assert Meet(trail[0], trail[1]) && Trail(s, trail);
      }
    }
  }

  /** An execution of a task with a session. */
  ghost predicate Bound(s: State, task: TaskId, e: Execution) {
    e in s.executions && e.task == task && e.session.Some?
  }

  /** A task has edges under one pair only, if its executions with a session
      are all under one. */
  lemma OneExecutionOnePair(steps: seq<Step>, task: TaskId)
    requires forall e, f :: Bound(After(steps), task, e) && Bound(After(steps), task, f) ==> e == f
    ensures OnePair(After(steps), task)
  {
    InvHolds(steps);
    var s := After(steps);
    forall e, f | e in s.edges && f in s.edges && Touches(e, task) && Touches(f, task) ensures SamePair(e, f) {
      assert Bound(s, task, Execution(e.project, Some(e.session), task));
      assert Bound(s, task, Execution(f.project, Some(f.session), task));
    }
  }

  // ----- when a task id is used under two sessions

  /** A task submitted with a session, and its event drained. */
  function Entered(steps: seq<Step>, p: Project, session: Session, task: TaskId): seq<Step> {
    steps + [Submit(p, Some(session), task, None, true), Drain(true)]
  }

  lemma EnteredMeans(steps: seq<Step>, p: Project, session: Session, task: TaskId)
    requires After(steps).queue == [] && Execution(p, Some(session), task) !in After(steps).executions
    ensures var s, t := After(steps), After(Entered(steps, p, session, task));
      t == s.(executions := s.executions + {Execution(p, Some(session), task)},
              tasks := s.tasks[task := TaskRecord(p, Some(session), None)])
  {
    var one := steps + [Submit(p, Some(session), task, None, true)];
    var two := Entered(steps, p, session, task);
    assert Front(one) == steps && Front(two) == one && Last(two) == Drain(true);
    var row := TaskRecord(p, Some(session), None);
    assert row.(session := Some(session)) == row;
    assert After(one).queue == [TaskCreated(task, row)];
  }

  /** Two tasks entered under one session and then joined by an edge. */
  function PairJoined(steps: seq<Step>, p: Project, session: Session, c: TaskId, d: TaskId): seq<Step> {
    Entered(Entered(steps, p, session, c), p, session, d) + [Declare(c, d)]
  }

  lemma PairJoinedMeans(steps: seq<Step>, p: Project, session: Session, c: TaskId, d: TaskId)
    requires After(steps).queue == [] && c != d
    requires Execution(p, Some(session), c) !in After(steps).executions
    requires Execution(p, Some(session), d) !in After(steps).executions
    ensures var s, t := After(steps), After(PairJoined(steps, p, session, c, d));
      && t.queue == [] && t.edges == s.edges + {Edge(p, session, c, d)}
      && t.executions == s.executions + {Execution(p, Some(session), c), Execution(p, Some(session), d)}
      && t.tasks == s.tasks[c := TaskRecord(p, Some(session), None)][d := TaskRecord(p, Some(session), None)]
  {
    var one := Entered(steps, p, session, c);
    EnteredMeans(steps, p, session, c);
    var two := Entered(one, p, session, d);
    EnteredMeans(one, p, session, d);
    var all := PairJoined(steps, p, session, c, d);
    assert Front(all) == two && After(all) == OnDeclare(After(two), c, d).0;
  }

  /** An id used under two sessions has edges under two pairs, which connect
      tasks of different sessions. */
  lemma ReusedIdJoinsSessions(p: Project, x: Session, y: Session, a: TaskId, t: TaskId, b: TaskId) returns (steps: seq<Step>)
    requires x != y && a != t && t != b && a != b
    ensures var s := After(steps); var trail := [Edge(p, x, a, t), Edge(p, y, t, b)];
      && Trail(s, trail) && !SamePair(trail[0], trail[1]) && !OnePair(s, t)
      && ResolveForMutation(s, a, None) == Ok(Execution(p, Some(x), a))
      && ResolveForMutation(s, b, None) == Ok(Execution(p, Some(y), b))
  {
    assert After([]) == START;
    var half := PairJoined([], p, x, a, t);
    PairJoinedMeans([], p, x, a, t);
    steps := PairJoined(half, p, y, t, b);
    PairJoinedMeans(half, p, y, t, b);
    var trail := [Edge(p, x, a, t), Edge(p, y, t, b)];
    assert Touches(trail[0], t) && Touches(trail[1], t) && Meet(trail[0], trail[1]);
  }
}
