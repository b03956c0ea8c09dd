/**
  Calls of `POST /v1/events/append` that run at the same time
  (crates/cairn-app/src/bin_events.rs).  The causation-id check, the durable
  write, the memory append and the secondary write of an envelope are steps
  of their own; the steps of any number of calls interleave freely.
 */
module ConcurrentAppends {
  import opened Common
  import opened EventStore
  import opened AppendHandler

  /** What a call does next for the envelope it is at. */
  datatype Phase = Checking | Writing | Committing | Mirroring(position: nat) | Stopped

  datatype Call = Call(batch: seq<Envelope>, results: seq<AppendResult>, phase: Phase) {
    /** The call has an envelope in hand: results so far are one each. */
    predicate Busy() {
      |results| < |batch| && phase != Stopped
    }

    function Envelope(): Envelope
      requires |results| < |batch|
    {
      batch[|results|]
    }

    function Answer(position: nat, appended: bool): Call
      requires |results| < |batch|
    {
      this.(results := results + [AppendResult(Envelope().eventId, position, appended)], phase := Checking)
    }
  }

  datatype State = State(world: World, calls: map<nat, Call>)

  datatype Step =
    | Begin(id: nat, batch: seq<Envelope>)
    | Check(id: nat)
    | Write(id: nat, fails: bool)
    | Commit(id: nat)
    | Mirror(id: nat, fails: bool)

  ghost predicate Busy(s: State, id: nat) {
    id in s.calls && s.calls[id].Busy()
  }

  ghost predicate AtCommit(s: State, id: nat) {
    Busy(s, id) && s.calls[id].phase.Committing?
  }

  ghost function Next(derive: Projector, s: State, step: Step): Option<State> {
    match step
    case Begin(id, batch) =>
      if id in s.calls then None else Some(s.(calls := s.calls[id := Call(batch, [], Checking)]))
    case Check(id) =>
      if !Busy(s, id) || !s.calls[id].phase.Checking? then None
      else
        var c := s.calls[id];
        var found :=
          if c.Envelope().causationId.Some? then FindByCausationId(s.world.memory, c.Envelope().causationId.value) else None;
        Some(s.(calls := s.calls[id :=
          if found.Some? then c.Answer(found.value, false)
          else c.(phase := if s.world.durable.Some? then Writing else Committing)]))
    case Write(id, fails) =>
      if !Busy(s, id) || !s.calls[id].phase.Writing? || s.world.durable.None? then None
      else
        var c := s.calls[id];
        var log := DurableWrite(s.world.durable.value, c.Envelope(), fails);
        if log.None? then Some(s.(calls := s.calls[id := c.(phase := Stopped)]))
        else Some(State(s.world.(durable := log), s.calls[id := c.(phase := Committing)]))
    case Commit(id) =>
      if !AtCommit(s, id) then None
      else
        var c := s.calls[id];
        var w := s.world.(memory := Append(s.world.memory, c.Envelope(), derive));
        Some(State(w, s.calls[id :=
          if w.wired && w.durable.Some? then c.(phase := Mirroring(s.world.memory.nextPosition))
          else c.Answer(s.world.memory.nextPosition, true)]))
    case Mirror(id, fails) =>
      if !Busy(s, id) || !s.calls[id].phase.Mirroring? || s.world.durable.None? then None
      else
        var c := s.calls[id];
        var log := DurableWrite(s.world.durable.value, c.Envelope(), fails);
        if log.None? then Some(s.(calls := s.calls[id := c.(phase := Stopped)]))
        else Some(State(s.world.(durable := log), s.calls[id := c.Answer(c.phase.position, true)]))
  }

  ghost function Run(w: World, derive: Projector, steps: seq<Step>): Option<State> {
    if steps == [] then Some(State(w, map[]))
    else
      var before := Run(w, derive, Front(steps));
      if before.None? then None else Next(derive, before.value, Last(steps))
  }

  // ----- causation ids

  /** The committed envelope's causation id has entered the index since its
      own check, which did not find it. */
  ghost predicate Raced(s: State, step: Step) {
    step.Commit? && AtCommit(s, step.id) &&
    var cid := s.calls[step.id].Envelope().causationId;
    cid.Some? && cid.value in s.world.memory.causationIndex
  }

  ghost predicate NoRace(w: World, derive: Projector, steps: seq<Step>)
    requires Run(w, derive, steps).Some?
  {
    steps != [] ==> NoRace(w, derive, Front(steps)) && !Raced(Run(w, derive, Front(steps)).value, Last(steps))
  }

  /** An append of an id that is in the index makes it a duplicate for good. */
  lemma AppendDuplicates(m: Store, e: Envelope, derive: Projector)
    requires StoreOk(m) && e.causationId.Some? && e.causationId.value in m.causationIndex
    ensures !UniqueCauses(Append(m, e, derive).events)
  {
    var added := Added(m, e, derive);
    var log := m.events + added;
    var x :| x in m.events && x.envelope.causationId == e.causationId;
    var i :| 0 <= i < |m.events| && m.events[i] == x;
    assert log[i] == x && log[|m.events|] == added[0];
  }

  lemma DuplicatesStay(m: Store, e: Envelope, derive: Projector)
    requires !UniqueCauses(m.events)
    ensures !UniqueCauses(Append(m, e, derive).events)
  {
    var added := Added(m, e, derive);
    var log := m.events + added;
    var i, j :| 0 <= i < j < |m.events| && m.events[i].envelope.causationId.Some? &&
      m.events[i].envelope.causationId == m.events[j].envelope.causationId;
    assert log[i] == m.events[i] && log[j] == m.events[j];
  }

  lemma AppendCauses(m: Store, e: Envelope, derive: Projector)
    requires StoreOk(m) && Uncaused(derive)
    ensures StoreOk(Append(m, e, derive))
    ensures UniqueCauses(Append(m, e, derive).events) <==>
      UniqueCauses(m.events) && !(e.causationId.Some? && e.causationId.value in m.causationIndex)
  {
    AppendKeepsOk(m, e, derive);
    if !UniqueCauses(m.events) {
      DuplicatesStay(m, e, derive);
    } else if e.causationId.Some? && e.causationId.value in m.causationIndex {
      AppendDuplicates(m, e, derive);
    } else {
      AppendKeepsUnique(m, e, derive);
    }
  }

  lemma MemoryAfter(derive: Projector, s: State, step: Step)
    requires Next(derive, s, step).Some?
    ensures Next(derive, s, step).value.world.memory ==
      if step.Commit? then Append(s.world.memory, s.calls[step.id].Envelope(), derive) else s.world.memory
  {
  }

  /**
    In every interleaving of calls, each causation id is in the log at most
    once exactly when no envelope was committed whose id had entered the index
    since its own check.
   */
  lemma {:induction false} UniqueCausesIff(w: World, derive: Projector, steps: seq<Step>)
    requires Run(w, derive, steps).Some? && LogOk(w.memory) && Uncaused(derive)
    ensures StoreOk(Run(w, derive, steps).value.world.memory)
    ensures UniqueCauses(Run(w, derive, steps).value.world.memory.events) <==> NoRace(w, derive, steps)
  {
    if steps != [] {
      UniqueCausesIff(w, derive, Front(steps));
      var s := Run(w, derive, Front(steps)).value;
      MemoryAfter(derive, s, Last(steps));
      if Last(steps).Commit? {
        AppendCauses(s.world.memory, s.calls[Last(steps).id].Envelope(), derive);
      }
    }
  }

  // ----- the order of the two logs

  /** The original events of the memory log. */
  function Memory(s: State): seq<Envelope> {
    Originals(s.world.memory.events)
  }

  function Durable(s: State): seq<Envelope>
    requires s.world.durable.Some?
  {
    s.world.durable.value
  }

  /** Written to the durable log, and not to memory yet. */
  ghost predicate Pending(s: State, id: nat, e: Envelope) {
    AtCommit(s, id) && s.calls[id].Envelope() == e
  }

  ghost predicate Distinct(log: seq<Envelope>) {
    forall i, j :: 0 <= i < j < |log| ==> log[i].eventId != log[j].eventId
  }

  /** The durable log holds what memory holds and what is pending, once. */
  ghost predicate OrderInv(s: State) {
    && s.world.durable.Some? && Distinct(Durable(s))
    && (forall e :: e in Memory(s) ==> e in Durable(s))
    && (forall id, e :: Pending(s, id, e) ==> e in Durable(s) && e !in Memory(s))
    && (forall i, j, e :: Pending(s, i, e) && Pending(s, j, e) ==> i == j)
    && (forall e :: e in Durable(s) && e !in Memory(s) ==> exists id :: Pending(s, id, e))
    && (forall id :: Busy(s, id) && s.calls[id].phase.Mirroring? ==> s.calls[id].Envelope() in Durable(s))
  }

  /** The commit takes the earliest envelope that is not in memory yet. */
  ghost predicate InTurn(s: State, step: Step) {
    step.Commit? && AtCommit(s, step.id) && s.world.durable.Some? ==>
      |Memory(s)| < |Durable(s)| && Durable(s)[|Memory(s)|] == s.calls[step.id].Envelope()
  }

  ghost predicate NoOvertaking(w: World, derive: Projector, steps: seq<Step>)
    requires Run(w, derive, steps).Some?
  {
    steps != [] ==> NoOvertaking(w, derive, Front(steps)) && InTurn(Run(w, derive, Front(steps)).value, Last(steps))
  }

  /** The logs differ at some place that both have filled. */
  ghost predicate Diverged(memory: seq<Envelope>, durable: seq<Envelope>) {
    exists i :: 0 <= i < |memory| && i < |durable| && memory[i] != durable[i]
  }

  /** What a step does to the two logs. */
  lemma LogsAfter(derive: Projector, s: State, step: Step)
    requires OrderInv(s) && Next(derive, s, step).Some?
    ensures var t := Next(derive, s, step).value;
      && t.world.durable.Some?
      && Memory(t) == Memory(s) + (if step.Commit? then [s.calls[step.id].Envelope()] else [])
      && (Durable(t) == Durable(s) ||
          (step.Write? && Pending(t, step.id, s.calls[step.id].Envelope()) &&
           Durable(t) == Durable(s) + [s.calls[step.id].Envelope()] &&
           forall x :: x in Durable(s) ==> x.eventId != s.calls[step.id].Envelope().eventId))
  {
    MemoryAfter(derive, s, step);
    if step.Commit? {
      var e := s.calls[step.id].Envelope();
      OriginalsOfAdded(s.world.memory.events, Added(s.world.memory, e, derive));
    } else {
      assert Memory(s) + [] == Memory(s);
    }
  }

  /** What a step does to what is pending. */
  lemma PendingAfter(derive: Projector, s: State, step: Step, id: nat, e: Envelope)
    requires OrderInv(s) && Next(derive, s, step).Some?
    ensures var t := Next(derive, s, step).value;
      Pending(t, id, e) <==>
        (Pending(s, id, e) && !(step.Commit? && step.id == id)) ||
        (step.Write? && step.id == id && Durable(t) != Durable(s) && s.calls[id].Envelope() == e)
  {
    LogsAfter(derive, s, step);
  }

  lemma MirrorAfter(derive: Projector, s: State, step: Step)
    requires OrderInv(s) && Next(derive, s, step).Some?
    ensures var t := Next(derive, s, step).value;
      forall id :: Busy(t, id) && t.calls[id].phase.Mirroring? ==> t.calls[id].Envelope() in Durable(t)
  {
    LogsAfter(derive, s, step);
    var t := Next(derive, s, step).value;
    forall id | Busy(t, id) && t.calls[id].phase.Mirroring? ensures t.calls[id].Envelope() in Durable(t) {
      if step.Commit? && step.id == id {
        assert Pending(s, id, s.calls[id].Envelope());
      } else {
        assert t.calls[id] == s.calls[id];
      }
    }
  }

  lemma NextKeepsOrder(derive: Projector, s: State, step: Step)
    requires OrderInv(s) && Next(derive, s, step).Some?
    ensures OrderInv(Next(derive, s, step).value)
  {
    var t := Next(derive, s, step).value;
    LogsAfter(derive, s, step);
    MirrorAfter(derive, s, step);
    forall id, e ensures Pending(t, id, e) <==>
      (Pending(s, id, e) && !(step.Commit? && step.id == id)) ||
      (step.Write? && step.id == id && Durable(t) != Durable(s) && s.calls[id].Envelope() == e)
    {
      PendingAfter(derive, s, step, id, e);
    }
    if step.Commit? {
      var done := s.calls[step.id].Envelope();
      assert Pending(s, step.id, done);
      forall e | e in Durable(t) && e !in Memory(t) ensures exists id :: Pending(t, id, e) {
        assert e !in Memory(s) && e != done;
        var id :| Pending(s, id, e);
        assert Pending(t, id, e);
      }
    } else {
      forall e | e in Durable(t) && e !in Memory(t) ensures exists id :: Pending(t, id, e) {
        if e in Durable(s) {
          var id :| Pending(s, id, e);
          assert Pending(t, id, e);
        } else {
          assert Pending(t, step.id, e);
        }
      }
    }
  }

  lemma CommitOrder(memory: seq<Envelope>, durable: seq<Envelope>, e: Envelope)
    requires memory <= durable && e in durable && e !in memory
    ensures |memory| < |durable|
    ensures if durable[|memory|] == e then memory + [e] <= durable else Diverged(memory + [e], durable)
  {
    assert memory == durable[..|memory|];
    assert |memory| == |durable| ==> memory == durable;
    if durable[|memory|] != e {
      assert (memory + [e])[|memory|] != durable[|memory|];
    }
  }

  lemma DivergedStays(memory: seq<Envelope>, durable: seq<Envelope>, more: seq<Envelope>, written: seq<Envelope>)
    requires Diverged(memory, durable)
    ensures Diverged(memory + more, durable + written)
  {
    var i :| 0 <= i < |memory| && i < |durable| && memory[i] != durable[i];
    assert (memory + more)[i] != (durable + written)[i];
  }

  lemma StepOrders(derive: Projector, s: State, step: Step)
    requires OrderInv(s) && Next(derive, s, step).Some?
    ensures var t := Next(derive, s, step).value;
      && (Memory(s) <= Durable(s) && InTurn(s, step) ==> Memory(t) <= Durable(t))
      && (Memory(s) <= Durable(s) && !InTurn(s, step) ==> Diverged(Memory(t), Durable(t)))
      && (Diverged(Memory(s), Durable(s)) ==> Diverged(Memory(t), Durable(t)))
  {
    LogsAfter(derive, s, step);
    var t := Next(derive, s, step).value;
    if Diverged(Memory(s), Durable(s)) {
      var written := Durable(t)[|Durable(s)|..];
      assert Durable(t) == Durable(s) + written;
      DivergedStays(Memory(s), Durable(s), if step.Commit? then [s.calls[step.id].Envelope()] else [], written);
    }
    if Memory(s) <= Durable(s) && step.Commit? {
      var e := s.calls[step.id].Envelope();
      assert Pending(s, step.id, e);
      CommitOrder(Memory(s), Durable(s), e);
    }
  }

  /** A log without repeats that lies within one of its beginnings is that
      beginning. */
  lemma NothingLeft(memory: seq<Envelope>, durable: seq<Envelope>)
    requires memory <= durable && Distinct(durable) && forall e :: e in durable ==> e in memory
    ensures memory == durable
  {
    if durable != [] {
      var last := |durable| - 1;
      assert durable[last] in durable;
      var i :| 0 <= i < |memory| && memory[i] == durable[last];
      assert durable[i] == durable[last];
      assert i == last;
    }
  }

  /**
    In every interleaving that starts with equal logs, the memory log runs
    behind the durable one in the same order exactly when no commit overtakes
    an earlier durable write; once overtaken, they differ for good.  When no
    call is between its two writes, the logs hold the same events in any case,
    and in the same order exactly then.
   */
  lemma {:induction false} LogsAgreeIff(w: World, derive: Projector, steps: seq<Step>)
    requires Run(w, derive, steps).Some?
    requires w.durable == Some(Originals(w.memory.events)) && Distinct(w.durable.value)
    ensures var s := Run(w, derive, steps).value;
      && OrderInv(s)
      && (NoOvertaking(w, derive, steps) <==> Memory(s) <= Durable(s))
      && (!NoOvertaking(w, derive, steps) ==> Diverged(Memory(s), Durable(s)))
      && ((forall id :: !AtCommit(s, id)) ==>
            && (NoOvertaking(w, derive, steps) <==> Memory(s) == Durable(s))
            && (forall e :: e in Memory(s) <==> e in Durable(s)))
  {
    var s := Run(w, derive, steps).value;
    if steps == [] {
      assert s == State(w, map[]) && Memory(s) == Durable(s);
    } else {
      LogsAgreeIff(w, derive, Front(steps));
      var before := Run(w, derive, Front(steps)).value;
      NextKeepsOrder(derive, before, Last(steps));
      StepOrders(derive, before, Last(steps));
    }
    if forall id :: !AtCommit(s, id) {
      forall e | e in Durable(s) ensures e in Memory(s) {
        assert forall id :: !Pending(s, id, e);
      }
      if Memory(s) <= Durable(s) {
        NothingLeft(Memory(s), Durable(s));
      }
    }
  }

  // ----- runs in which it goes wrong

  /** Two calls that check one causation id before either appends. */
  function CheckCheckCommitCommit(a: Envelope, b: Envelope): seq<Step> {
    [Begin(0, [a]), Begin(1, [b]), Check(0), Check(1), Commit(0), Commit(1)]
  }

  lemma BothChecked(w: World, derive: Projector, a: Envelope, b: Envelope)
    requires a.causationId.Some? ==> FindByCausationId(w.memory, a.causationId.value).None?
    requires b.causationId.Some? ==> FindByCausationId(w.memory, b.causationId.value).None?
    ensures var phase := if w.durable.Some? then Writing else Committing;
      Run(w, derive, [Begin(0, [a]), Begin(1, [b]), Check(0), Check(1)]) ==
        Some(State(w, map[0 := Call([a], [], phase), 1 := Call([b], [], phase)]))
  {
    var steps := [Begin(0, [a]), Begin(1, [b]), Check(0), Check(1)];
    var phase := if w.durable.Some? then Writing else Committing;
    assert Front(steps) == steps[..3] && Front(steps[..3]) == steps[..2] && Front(steps[..2]) == steps[..1];
    assert Front(steps[..1]) == [];
    var x, y := Call([a], [], Checking), Call([b], [], Checking);
    assert Run(w, derive, []) == Some(State(w, map[]));
    assert Run(w, derive, steps[..1]) == Some(State(w, map[0 := x]));
    assert Run(w, derive, steps[..2]) == Some(State(w, map[0 := x, 1 := y]));
    assert map[0 := x, 1 := y][0 := x.(phase := phase)] == map[0 := x.(phase := phase), 1 := y];
    assert Run(w, derive, steps[..3]) == Some(State(w, map[0 := x.(phase := phase), 1 := y]));
    assert map[0 := x.(phase := phase), 1 := y][1 := y.(phase := phase)] ==
      map[0 := x.(phase := phase), 1 := y.(phase := phase)];
  }

  /** When two calls check one causation id before either appends, the log
      ends up with both events. */
  lemma InterleavedCallsDuplicate(a: Envelope, b: Envelope, derive: Projector)
    requires a.causationId == b.causationId && a.causationId.Some? && Uncaused(derive)
    ensures var w := World(EMPTY, None, false); var steps := CheckCheckCommitCommit(a, b);
      && Run(w, derive, steps).Some?
      && !UniqueCauses(Run(w, derive, steps).value.world.memory.events)
  {
    var w := World(EMPTY, None, false);
    var steps := CheckCheckCommitCommit(a, b);
    BothChecked(w, derive, a, b);
    assert Front(steps) == steps[..5] && Front(steps[..5]) == [Begin(0, [a]), Begin(1, [b]), Check(0), Check(1)];
    var s := Run(w, derive, steps[..5]).value;
    assert AtCommit(s, 1) && Raced(s, Commit(1));
    UniqueCausesIff(w, derive, steps);
  }

  /** Both calls have made their durable write. */
  lemma BothWritten(derive: Projector, a: Envelope, b: Envelope) returns (steps: seq<Step>)
    requires a.eventId != b.eventId && a.causationId.None? && b.causationId.None?
    ensures Run(World(EMPTY, Some([]), false), derive, steps) ==
      Some(State(World(EMPTY, Some([a, b]), false), map[0 := Call([a], [], Committing), 1 := Call([b], [], Committing)]))
  {
    var w := World(EMPTY, Some([]), false);
    var checked := [Begin(0, [a]), Begin(1, [b]), Check(0), Check(1)];
    BothChecked(w, derive, a, b);
    var one := checked + [Write(0, false)];
    steps := one + [Write(1, false)];
    assert Front(one) == checked && Front(steps) == one;
    var x, y := Call([a], [], Writing), Call([b], [], Writing);
    WriteSucceeds(derive, State(w, map[0 := x, 1 := y]), 0, a);
    assert map[0 := x, 1 := y][0 := x.(phase := Committing)] == map[0 := x.(phase := Committing), 1 := y];
    var s := State(World(EMPTY, Some([a]), false), map[0 := x.(phase := Committing), 1 := y]);
    assert [] + [a] == [a] && [a] + [b] == [a, b];
    assert Run(w, derive, one) == Some(s);
    WriteSucceeds(derive, s, 1, b);
    assert s.calls[1 := y.(phase := Committing)] == map[0 := x.(phase := Committing), 1 := y.(phase := Committing)];
  }

  lemma WriteSucceeds(derive: Projector, s: State, id: nat, e: Envelope)
    requires id in s.calls && s.calls[id] == Call([e], [], Writing)
    requires s.world.durable.Some? && forall x :: x in s.world.durable.value ==> x.eventId != e.eventId
    ensures Next(derive, s, Write(id, false)) ==
      Some(State(s.world.(durable := Some(s.world.durable.value + [e])),
                 s.calls[id := Call([e], [], Committing)]))
  {
  }

  /** When the second call commits first, the two logs differ for good. */
  lemma OvertakingReorders(derive: Projector, a: Envelope, b: Envelope) returns (steps: seq<Step>)
    requires a.eventId != b.eventId && a.causationId.None? && b.causationId.None?
    ensures var w := World(EMPTY, Some([]), false);
      && Run(w, derive, steps).Some? && !NoOvertaking(w, derive, steps)
      && (var s := Run(w, derive, steps).value; s.world.durable.Some? && Diverged(Memory(s), Durable(s)))
  {
    var w := World(EMPTY, Some([]), false);
    var written := BothWritten(derive, a, b);
    steps := written + [Commit(1)];
    assert Front(steps) == written;
    assert Originals([]) == [];
    LogsAgreeIff(w, derive, steps);
  }

  // ----- an undisturbed call

  /** One envelope of a call with no other call in between: from the memory
      append on, from the durable write on, and from the check on. */
  ghost function FromCommit(derive: Projector, s: State, id: nat, fails: bool): Option<State> {
    var committed := Next(derive, s, Commit(id));
    if committed.None? || !Busy(committed.value, id) || !committed.value.calls[id].phase.Mirroring? then committed
    else Next(derive, committed.value, Mirror(id, fails))
  }

  ghost function FromWrite(derive: Projector, s: State, id: nat, i: nat, faults: Faults): Option<State> {
    var written := Next(derive, s, Write(id, i in faults.durable));
    if written.None? || !Busy(written.value, id) then written
    else FromCommit(derive, written.value, id, i in faults.secondary)
  }

  ghost function Undisturbed(derive: Projector, s: State, id: nat, i: nat, faults: Faults): Option<State> {
    var checked := Next(derive, s, Check(id));
    if checked.None? || !Busy(checked.value, id) || checked.value.calls[id].phase.Checking? then checked
    else if checked.value.calls[id].phase.Writing? then FromWrite(derive, checked.value, id, i, faults)
    else FromCommit(derive, checked.value, id, i in faults.secondary)
  }

  /** What remains of `AppendOne` once the durable write is made. */
  function AppendTail(w: World, e: Envelope, fails: bool, derive: Projector): (World, Option<AppendResult>) {
    var w' := w.(memory := Append(w.memory, e, derive));
    var r := AppendResult(e.eventId, w.memory.nextPosition, true);
    if w.wired && w.durable.Some? then
      var second := DurableWrite(w.durable.value, e, fails);
      if second.None? then (w', None) else (w'.(durable := second), Some(r))
    else (w', Some(r))
  }

  /** The call has answered, or failed, and the other calls are as before. */
  ghost predicate Done(s: State, t: Option<State>, id: nat, w: World, r: Option<AppendResult>)
    requires id in s.calls
  {
    && t.Some? && t.value.world == w && id in t.value.calls
    && (r.Some? ==> t.value.calls[id] == Call(s.calls[id].batch, s.calls[id].results + [r.value], Checking))
    && (r.None? ==> t.value.calls[id].phase.Stopped?)
    && (forall other :: other != id ==>
          (other in t.value.calls <==> other in s.calls) &&
          (other in s.calls ==> t.value.calls[other] == s.calls[other]))
  }

  lemma FromCommitIsTail(derive: Projector, s: State, id: nat, fails: bool)
    requires AtCommit(s, id)
    ensures var (w, r) := AppendTail(s.world, s.calls[id].Envelope(), fails, derive);
      Done(s, FromCommit(derive, s, id, fails), id, w, r)
  {
  }

  /** Undisturbed, the steps are those of the sequential handler: the same
      logs, and the same answer or failure. */
  lemma UndisturbedIsAppendOne(derive: Projector, s: State, id: nat, i: nat, faults: Faults)
    requires Busy(s, id) && s.calls[id].phase.Checking?
    ensures var (w, r) := AppendOne(s.world, s.calls[id].Envelope(), i, faults, derive);
      Done(s, Undisturbed(derive, s, id, i, faults), id, w, r)
  {
    var c := s.calls[id];
    var checked := Next(derive, s, Check(id)).value;
    if checked.calls[id].phase.Committing? {
      FromCommitIsTail(derive, checked, id, i in faults.secondary);
    } else if checked.calls[id].phase.Writing? {
      var written := Next(derive, checked, Write(id, i in faults.durable)).value;
      if Busy(written, id) {
        FromCommitIsTail(derive, written, id, i in faults.secondary);
      }
    }
  }
}
