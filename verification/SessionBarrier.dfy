/**
  Creating a session and reading it back (crates/cairn-app/src/fabric_adapter.rs).

  A create commits the session in Fabric, queues an event on a bridge, and
  then polls the local projection until the event has been drained into it.
  First the polling loop, on an arbitrary clock; then the protocol, with any
  number of creates, drains and gets interleaved.
 */
module SessionBarrier {
  import opened Common

  // ----- the bounded poll

  datatype Poll = Found | Absent | StoreError

  datatype WaitResult = Visible | TimedOut | StoreFailure

  const BUDGET_US: nat := 2_000_000
  const FIRST_DELAY_US: nat := 100
  const MAX_DELAY_US: nat := 5_000

  /** The delay after poll number n: it doubles up to 5 ms. */
  function Delay(n: nat): nat {
    if n == 0 then FIRST_DELAY_US else Min(2 * Delay(n - 1), MAX_DELAY_US)
  }

  function TotalDelay(n: nat): nat {
    if n == 0 then 0 else TotalDelay(n - 1) + Delay(n - 1)
  }

  lemma {:induction false} DelaysAddUp(n: nat)
    requires n >= 6
    ensures Delay(n) == MAX_DELAY_US && TotalDelay(n) == 6_300 + 5_000 * (n - 6)
  {
    if n == 6 {
      assert Delay(3) == 800;
      assert TotalDelay(3) == 700;
      assert Delay(6) == 5_000;
    } else {
      DelaysAddUp(n - 1);
    }
  }

  /**
    Wait until the session is visible.  `poll(k)` is what poll number k finds,
    `lookup(k)` how long it takes, and `overrun(k)` by how much the sleep after
    it exceeds the delay asked for, in microseconds.  `polls` counts the polls
    and `elapsed` the time until the return.
   */
  method WaitForProjection(poll: nat -> Poll, lookup: nat -> nat, overrun: nat -> nat)
    returns (r: WaitResult, polls: nat, elapsed: nat)
    ensures 1 <= polls <= 406
    ensures forall k :: 0 <= k < polls - 1 ==> poll(k) == Absent
    ensures r == Visible <==> poll(polls - 1) == Found
    ensures r == StoreFailure <==> poll(polls - 1) == StoreError
    ensures r == TimedOut ==> elapsed >= 2_000_000
    // the last sleep began within the budget
    ensures polls > 1 ==>
      elapsed < 2_000_000 + Delay(polls - 2) + overrun(polls - 2) + lookup(polls - 1)
  {
    var now := 0;
    var deadline := now + BUDGET_US;
    var backoff := FIRST_DELAY_US;
    polls := 0;
    while true
      invariant backoff == Delay(polls) && backoff >= 100
      invariant forall k :: 0 <= k < polls ==> poll(k) == Absent
      invariant TotalDelay(polls) <= now
      invariant polls > 0 ==> TotalDelay(polls - 1) < BUDGET_US
      invariant polls > 0 ==> now < BUDGET_US + Delay(polls - 1) + overrun(polls - 1)
      invariant polls <= 405
      decreases deadline - now
    {
      var seen := poll(polls);
      now := now + lookup(polls);
      polls := polls + 1;
      if seen == StoreError {
        return StoreFailure, polls, now;
      }
      if seen == Found {
        return Visible, polls, now;
      }
      if now >= deadline {
        return TimedOut, polls, now;
      }
      if polls >= 7 {
        DelaysAddUp(polls - 1);
      }
      now := now + backoff + overrun(polls - 1);
      backoff := Min(2 * backoff, MAX_DELAY_US);
    }
  }

  // ----- the protocol

  type Project = string
  type Session = string

  datatype Flow = Flow(project: Project, session: Session)

  datatype Create =
    | Polling(flow: Flow) // committed; behind the barrier
    | ReturnedOk(flow: Flow)
    | ReturnedErr

  datatype State = State(
    flows: set<Flow>,               // committed in Fabric
    queue: seq<Flow>,               // SessionCreated events on the bridge, oldest first
    applied: seq<Flow>,             // those drained into the projection, in order
    projection: map<Session, Project>,
    creates: map<nat, Create>
  )

  const START := State({}, [], [], map[], map[])

  datatype Step =
    | Commit(call: nat, flow: Flow, emitted: bool) // `emitted` is false when the bridge is closed
    | Drain(stored: bool)                          // false when the event could not be stored
    | PollFinds(call: nat)
    | GivesUp(call: nat)

  ghost function Next(s: State, step: Step): Option<State> {
    match step
    case Commit(call, flow, emitted) =>
      if call in s.creates then None
      else Some(s.(flows := s.flows + {flow},
                   queue := if emitted then s.queue + [flow] else s.queue,
                   creates := s.creates[call := Polling(flow)]))
    case Drain(stored) =>
      if s.queue == [] then None
      else if !stored then Some(s.(queue := s.queue[1..]))
      else
        var f := s.queue[0];
        Some(s.(queue := s.queue[1..], applied := s.applied + [f], projection := s.projection[f.session := f.project]))
    case PollFinds(call) =>
      if !(call in s.creates && s.creates[call].Polling?) then None
      else
        var f := s.creates[call].flow;
        if f.session in s.projection then Some(s.(creates := s.creates[call := ReturnedOk(f)])) else None
    case GivesUp(call) =>
      if call in s.creates && s.creates[call].Polling? then Some(s.(creates := s.creates[call := ReturnedErr])) else None
  }

  ghost function Run(steps: seq<Step>): Option<State> {
    if steps == [] then Some(START)
    else
      var before := Run(Front(steps));
      if before.None? then None else Next(before.value, Last(steps))
  }

  /** `get`: resolve the project from the projection, then ask Fabric for the
      flow of that project and session. */
  function Get(s: State, session: Session): Option<Flow> {
    if session !in s.projection then None
    else
      var f := Flow(s.projection[session], session);
      if f in s.flows then Some(f) else None
  }

  /** The last of some flows that belongs to a session. */
  function LatestFor(flows: seq<Flow>, session: Session): Option<Flow> {
    if flows == [] then None
    else if Last(flows).session == session then Some(Last(flows))
    else LatestFor(Front(flows), session)
  }

  ghost predicate Inv(s: State) {
    && (forall f :: f in s.queue || f in s.applied ==> f in s.flows)
    && (forall session :: LatestFor(s.applied, session) ==
          if session in s.projection then Some(Flow(s.projection[session], session)) else None)
    && (forall c :: c in s.creates && s.creates[c].ReturnedOk? ==> s.creates[c].flow.session in s.projection)
    && (forall c :: c in s.creates && !s.creates[c].ReturnedErr? ==> s.creates[c].flow in s.flows)
  }

  lemma NextKeepsInv(s: State, step: Step)
    requires Inv(s) && Next(s, step).Some?
    ensures Inv(Next(s, step).value)
    ensures forall session :: session in s.projection ==> session in Next(s, step).value.projection
  {
    if step.Drain? && step.stored {
      var f := s.queue[0];
      var t := Next(s, step).value;
      forall session ensures LatestFor(t.applied, session) ==
        (if session in t.projection then Some(Flow(t.projection[session], session)) else None)
      {
        assert Front(t.applied) == s.applied && Last(t.applied) == f;
      }
    }
  }

  lemma {:induction false} InvHolds(steps: seq<Step>)
    requires Run(steps).Some?
    ensures Inv(Run(steps).value)
  {
    if steps != [] {
      InvHolds(Front(steps));
      NextKeepsInv(Run(Front(steps)).value, Last(steps));
    }
  }

  /**
    In every run, once a create of a session has returned Ok, every later get
    of that session finds a committed flow: that of the last SessionCreated
    event for the session drained so far.
   */
  lemma GetAfterCreateFinds(steps: seq<Step>, call: nat)
    requires Run(steps).Some?
    requires var s := Run(steps).value; call in s.creates && s.creates[call].ReturnedOk?
    ensures var s := Run(steps).value; var session := s.creates[call].flow.session;
      && Get(s, session).Some?
      && Get(s, session) == LatestFor(s.applied, session)
  {
    InvHolds(steps);
    var s := Run(steps).value;
    LatestIsIn(s.applied, s.creates[call].flow.session);
  }

  lemma {:induction false} LatestIsIn(flows: seq<Flow>, session: Session)
    ensures var f := LatestFor(flows, session); f.Some? ==> f.value in flows && f.value.session == session
  {
    if flows != [] {
      LatestIsIn(Front(flows), session);
    }
  }

  /** Every create of this session in the run is for this project. */
  predicate OnlyFor(steps: seq<Step>, session: Session, project: Project) {
    forall step :: step in steps && step.Commit? && step.flow.session == session ==> step.flow.project == project
  }

  lemma {:induction false} FlowsAreCommitted(steps: seq<Step>)
    requires Run(steps).Some?
    ensures forall f :: f in Run(steps).value.flows ==>
      exists step :: step in steps && step.Commit? && step.flow == f
  {
    if steps != [] {
      FlowsAreCommitted(Front(steps));
      assert steps == Front(steps) + [Last(steps)];
      forall f | f in Run(steps).value.flows ensures exists step :: step in steps && step.Commit? && step.flow == f {
        if f in Run(Front(steps)).value.flows {
          var step :| step in Front(steps) && step.Commit? && step.flow == f;
          assert step in steps;
        } else {
          assert Last(steps) in steps && Last(steps).Commit? && Last(steps).flow == f;
        }
      }
    }
  }

  /** When a session id is used under one project only, a get after an Ok
      create resolves that very project, in every run. */
  lemma GetResolvesItsProject(steps: seq<Step>, call: nat)
    requires Run(steps).Some?
    requires var s := Run(steps).value;
      call in s.creates && s.creates[call].ReturnedOk? &&
      OnlyFor(steps, s.creates[call].flow.session, s.creates[call].flow.project)
    ensures var s := Run(steps).value; Get(s, s.creates[call].flow.session) == Some(s.creates[call].flow)
  {
    GetAfterCreateFinds(steps, call);
    InvHolds(steps);
    FlowsAreCommitted(steps);
    var s := Run(steps).value;
    var session := s.creates[call].flow.session;
    LatestIsIn(s.applied, session);
    var f := Get(s, session).value;
    var step :| step in steps && step.Commit? && step.flow == f;
  }

  /** Used under two projects it can resolve the other one: the barrier is
      satisfied by the record that is there already. */
  lemma SharedIdResolvesOtherProject() returns (steps: seq<Step>)
    ensures Run(steps).Some?
    ensures var s := Run(steps).value;
      && 1 in s.creates && s.creates[1] == ReturnedOk(Flow("q", "s"))
      && Get(s, "s") == Some(Flow("p", "s"))
  {
    var a := [Commit(0, Flow("p", "s"), true)];
    var b := a + [Drain(true)];
    var c := b + [Commit(1, Flow("q", "s"), true)];
    steps := c + [PollFinds(1)];
    assert Front(a) == [] && Front(b) == a && Front(c) == b && Front(steps) == c;
    assert Run([]) == Some(START);
    assert Run(a) == Next(START, a[0]);
    assert Run(b) == Next(Run(a).value, Drain(true));
    assert Run(c) == Next(Run(b).value, Commit(1, Flow("q", "s"), true));
  }

  // ----- the bridge

  /** The flows whose events were put on the bridge, and those whose events
      have left it, stored or not. */
  function Emitted(steps: seq<Step>): seq<Flow> {
    if steps == [] then []
    else Emitted(Front(steps)) + (if Last(steps).Commit? && Last(steps).emitted then [Last(steps).flow] else [])
  }

  ghost function Popped(steps: seq<Step>): seq<Flow>
    requires Run(steps).Some?
  {
    if steps == [] then []
    else Popped(Front(steps)) + (if Last(steps).Drain? then [Run(Front(steps)).value.queue[0]] else [])
  }

  /** The bridge is first in, first out: what has left it, and then what is on
      it, is what was put on it; and all that left it was applied, if it could
      all be stored. */
  lemma {:induction false} BridgeIsFifo(steps: seq<Step>)
    requires Run(steps).Some?
    ensures Emitted(steps) == Popped(steps) + Run(steps).value.queue
    ensures (forall step :: step in steps && step.Drain? ==> step.stored) ==> Run(steps).value.applied == Popped(steps)
  {
    if steps != [] {
      BridgeIsFifo(Front(steps));
      assert steps == Front(steps) + [Last(steps)] && Last(steps) in steps;
      var queue := Run(Front(steps)).value.queue;
      if Last(steps).Drain? {
        assert queue == [queue[0]] + queue[1..];
        Regroup(Popped(Front(steps)), [queue[0]], queue[1..]);
      } else {
        Regroup(Popped(Front(steps)), queue, if Last(steps).Commit? && Last(steps).emitted then [Last(steps).flow] else []);
      }
    }
  }

  lemma Regroup(a: seq<Flow>, b: seq<Flow>, c: seq<Flow>)
    ensures (a + b) + c == a + (b + c) && a + [] == a && b + [] == b
  {
  }

  /** Once everything has been drained and stored, get finds the project that
      the session was last created under. */
  lemma GetFindsLastCreated(steps: seq<Step>, session: Session)
    requires Run(steps).Some? && Run(steps).value.queue == []
    requires forall step :: step in steps && step.Drain? ==> step.stored
    ensures Get(Run(steps).value, session) == LatestFor(Emitted(steps), session)
  {
    BridgeIsFifo(steps);
    InvHolds(steps);
    Regroup(Popped(steps), [], []);
    LatestIsIn(Run(steps).value.applied, session);
  }
}
