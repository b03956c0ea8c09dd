/**
  Live event delivery to one WebSocket client (`handle_ws_connection`,
  crates/cairn-app/src/bin_websocket.rs): subscribe to the broadcast, announce
  the head position of the log, then forward what passes the tenant gate and
  the client's current filter.

  Appends by others interleave freely with the steps of the connection.  The
  broadcast channel keeps 1024 events; a receiver that falls further behind
  skips the oldest ones and is told how many.
 */
module LiveFanout {
  import opened Common
  import opened EventStore
  import opened Principals

  const CAPACITY: nat := 1024

  /** None, or an empty list of names, lets every event through. */
  type Filter = Option<seq<string>>

  datatype Message =
    | Connected(headPosition: nat)
    | Event(position: nat, eventType: string, eventId: string)
    | Warn(missed: nat)
    | Pong

  predicate TenantGate(p: Principal, e: Envelope) {
    IsAdmin(p) || TenantOf(e.ownership).None? || TenantOf(e.ownership) == CallerTenant(p)
  }

  predicate FilterPasses(filter: Filter, e: Envelope) {
    filter.None? || filter.value == [] || EventTypeName(e.payload) in filter.value
  }

  /** What the client is sent for one received event. */
  function Forwarded(p: Principal, filter: Filter, x: Stored): seq<Message> {
    if TenantGate(p, x.envelope) && FilterPasses(filter, x.envelope)
    then [Event(x.position, EventTypeName(x.envelope.payload), x.envelope.eventId)] else []
  }

  // ----- one connection

  /** What the connection task keeps: the filter in force, and what it has
      managed to send. */
  datatype Client = Client(filter: Filter, outbox: seq<Message>, closed: bool)

  datatype Arrival =
    | Head(position: Option<nat>)
    | Types(types: Filter)
    | Ping
    | Got(x: Stored)
    | Lagged(missed: nat)

  const NEW_CLIENT := Client(None, [], false)

  /** Sending at most one message.  A failure ends the connection, except for
      warnings and pongs, whose failure goes unnoticed. */
  function Sent(c: Client, message: seq<Message>, sendOk: bool, mustArrive: bool): Client {
    if message == [] || sendOk then c.(outbox := c.outbox + message)
    else if mustArrive then c.(closed := true)
    else c
  }

  function Handle(p: Principal, c: Client, a: Arrival, sendOk: bool): Client {
    match a
    case Head(position) => Sent(c, [Connected(Announced(position))], sendOk, true)
    case Types(types) => c.(filter := types)
    case Ping => Sent(c, [Pong], sendOk, false)
    case Got(x) => Sent(c, Forwarded(p, c.filter, x), sendOk, true)
    case Lagged(missed) => Sent(c, [Warn(missed)], sendOk, false)
  }

  function Announced(head: Option<nat>): nat {
    if head.Some? then head.value else 0
  }

  class Connection {
    const principal: Principal
    var filter: Filter
    var outbox: seq<Message>
    var closed: bool

    ghost function View(): Client reads this {
      Client(filter, outbox, closed)
    }

    constructor (principal: Principal)
      ensures this.principal == principal && View() == NEW_CLIENT
    {
      this.principal := principal;
      filter := None;
      outbox := [];
      closed := false;
    }

    method Greet(head: Option<nat>, sendOk: bool)
      modifies this`outbox, this`closed
      ensures View() == Handle(principal, old(View()), Head(head), sendOk)
    {
      if sendOk {
        outbox := outbox + [Connected(if head.Some? then head.value else 0)];
      } else {
        closed := true;
      }
    }

    method OnSubscribe(types: Filter)
      modifies this`filter
      ensures forall sendOk :: View() == Handle(principal, old(View()), Types(types), sendOk)
    {
      filter := types;
    }

    method OnPing(sendOk: bool)
      modifies this`outbox
      ensures View() == Handle(principal, old(View()), Ping, sendOk)
    {
      if sendOk {
        outbox := outbox + [Pong];
      }
    }

    method OnEvent(x: Stored, sendOk: bool)
      modifies this`outbox, this`closed
      ensures View() == Handle(principal, old(View()), Got(x), sendOk)
    {
      if !IsAdmin(principal) {
        var eventTenant := TenantOf(x.envelope.ownership);
        if eventTenant.Some? && CallerTenant(principal) != eventTenant {
          assert outbox + [] == outbox;
          return;
        }
      }
      var eventType := EventTypeName(x.envelope.payload);
      if filter.Some? {
        if filter.value != [] && eventType !in filter.value {
          assert outbox + [] == outbox;
          return;
        }
      }
      if sendOk {
        outbox := outbox + [Event(x.position, eventType, x.envelope.eventId)];
      } else {
        closed := true;
      }
    }

    method OnLagged(missed: nat, sendOk: bool)
      modifies this`outbox
      ensures View() == Handle(principal, old(View()), Lagged(missed), sendOk)
    {
      if sendOk {
        outbox := outbox + [Warn(missed)];
      }
    }
  }

  // ----- the protocol

  datatype Conn = Conn(
    start: nat,                // broadcasts made before the subscription
    next: nat,                 // the receiver's place among the broadcasts
    head: Option<nat>,         // the announced head position
    received: seq<Stored>,
    missed: nat,
    client: Client
  )

  datatype State = State(store: Store, broadcasts: seq<Stored>, conn: Option<Conn>)

  datatype Step =
    | Appended(envelope: Envelope)
    | Subscribe
    | Handshake(sendOk: bool)
    | ClientSubscribes(types: Filter)
    | ClientPings(sendOk: bool)
    | Receive(sendOk: bool)
    | ClientCloses

  ghost predicate Live(s: State) {
    s.conn.Some? && s.conn.value.head.Some? && !s.conn.value.client.closed
  }

  /** How many events the receiver has fallen behind the channel's capacity. */
  ghost function Overrun(s: State): nat
    requires Live(s)
  {
    var behind := |s.broadcasts| - s.conn.value.next;
    if behind > CAPACITY then behind - CAPACITY else 0
  }

  ghost function Next(p: Principal, derive: Projector, s: State, step: Step): Option<State> {
    match step
    case Appended(e) =>
      Some(s.(store := Append(s.store, e, derive),
              broadcasts := s.broadcasts + [Stored(s.store.nextPosition, e, false)]))
    case Subscribe =>
      if s.conn.Some? then None
      else
        var n := |s.broadcasts|;
        Some(s.(conn := Some(Conn(n, n, None, [], 0, NEW_CLIENT))))
    case Handshake(sendOk) =>
      if s.conn.None? || s.conn.value.head.Some? || s.conn.value.client.closed then None
      else
        var head := HeadPosition(s.store);
        var c := s.conn.value;
        Some(s.(conn := Some(c.(head := Some(Announced(head)), client := Handle(p, c.client, Head(head), sendOk)))))
    case ClientSubscribes(types) =>
      if Live(s) then Some(OnClient(p, s, Types(types), true)) else None
    case ClientPings(sendOk) =>
      if Live(s) then Some(OnClient(p, s, Ping, sendOk)) else None
    case Receive(sendOk) =>
      if !Live(s) || s.conn.value.next >= |s.broadcasts| then None
      else
        var c := s.conn.value;
        var n := Overrun(s);
        if n > 0 then
          Some(OnClient(p, s.(conn := Some(c.(next := c.next + n, missed := c.missed + n))), Lagged(n), sendOk))
        else
          var x := s.broadcasts[c.next];
          Some(OnClient(p, s.(conn := Some(c.(next := c.next + 1, received := c.received + [x]))), Got(x), sendOk))
    case ClientCloses =>
      if Live(s) then Some(s.(conn := Some(s.conn.value.(client := s.conn.value.client.(closed := true))))) else None
  }

  ghost function OnClient(p: Principal, s: State, a: Arrival, sendOk: bool): State
    requires s.conn.Some?
  {
    s.(conn := Some(s.conn.value.(client := Handle(p, s.conn.value.client, a, sendOk))))
  }

  ghost function Run(p: Principal, derive: Projector, steps: seq<Step>): Option<State> {
    if steps == [] then Some(State(EMPTY, [], None))
    else
      var before := Run(p, derive, Front(steps));
      if before.None? then None else Next(p, derive, before.value, Last(steps))
  }

  // ----- what is broadcast

  /** The events of a log that were broadcast: those that were not derived. */
  function Broadcast(log: seq<Stored>): seq<Stored> {
    if log == [] then [] else (if log[0].derived then [] else [log[0]]) + Broadcast(log[1..])
  }

  lemma {:induction false} BroadcastConcat(a: seq<Stored>, b: seq<Stored>)
    ensures Broadcast(a + b) == Broadcast(a) + Broadcast(b)
  {
    if a == [] {
      assert a + b == b;
    } else {
      assert (a + b)[1..] == a[1..] + b;
      BroadcastConcat(a[1..], b);
    }
  }

  lemma {:induction false} BroadcastOfDerived(log: seq<Stored>)
    requires forall x :: x in log ==> x.derived
    ensures Broadcast(log) == []
  {
    if log != [] {
      assert log[0] in log;
      BroadcastOfDerived(log[1..]);
    }
  }

  lemma {:induction false} BroadcastMembers(log: seq<Stored>)
    ensures forall x :: x in Broadcast(log) ==> x in log
    ensures |Broadcast(log)| <= |log|
    ensures Broadcast(log) == log <==> forall x :: x in log ==> !x.derived
  {
    if log != [] {
      BroadcastMembers(log[1..]);
      assert log == [log[0]] + log[1..];
      if log[0].derived {
        assert log[0] in log;
      } else {
        SamePrefix([log[0]], Broadcast(log[1..]), log[1..]);
      }
    }
  }

  lemma {:induction false} BroadcastOfPast(log: seq<Stored>, position: nat)
    ensures Broadcast(Past(log, position)) == Past(Broadcast(log), position)
  {
    if log != [] {
      BroadcastOfPast(log[1..], position);
      var x := [log[0]];
      BroadcastConcat(if log[0].position > position then x else [], Past(log[1..], position));
      PastConcat(if log[0].derived then [] else x, Broadcast(log[1..]), position);
      assert Broadcast(x) == (if log[0].derived then [] else x);
      assert Past(x, position) == (if log[0].position > position then x else []);
    }
  }

  lemma {:induction false} PastConcat(a: seq<Stored>, b: seq<Stored>, position: nat)
    ensures Past(a + b, position) == Past(a, position) + Past(b, position)
  {
    if a == [] {
      assert a + b == b;
    } else {
      assert (a + b)[1..] == a[1..] + b;
      PastConcat(a[1..], b, position);
    }
  }

  lemma {:induction false} PastNone(log: seq<Stored>, position: nat)
    requires forall x :: x in log ==> x.position <= position
    ensures Past(log, position) == []
  {
    if log != [] {
      assert log[0] in log;
      PastNone(log[1..], position);
    }
  }

  lemma PastOfParts(log: seq<Stored>, i: nat, j: nat, position: nat)
    requires i <= j <= |log|
    requires forall k :: 0 <= k < i ==> log[k].position <= position
    ensures Past(log, position) == Past(log[i..j], position) + Past(log[j..], position)
  {
    PastNone(log[..i], position);
    PastConcat(log[..i], log[i..], position);
    PastConcat(log[i..j], log[j..], position);
    assert log[..i] + log[i..] == log;
    SliceSplits(log, i, j);
  }

  // ----- what every run keeps

  ghost predicate StoreInv(s: State) {
    StoreOk(s.store) && s.broadcasts == Broadcast(s.store.events)
  }

  ghost predicate ConnInv(s: State) {
    s.conn.Some? ==>
      var c := s.conn.value;
      && c.start <= c.next <= |s.broadcasts|
      && |c.received| + c.missed == c.next - c.start
      && (c.missed == 0 ==> c.received == s.broadcasts[c.start..c.next])
      && (c.head.Some? ==> forall i :: 0 <= i < c.start ==> s.broadcasts[i].position <= c.head.value)
      && (c.head.None? ==> c.received == [] && c.next == c.start)
  }

  lemma AppendBroadcasts(s: State, e: Envelope, derive: Projector)
    requires StoreInv(s) && Uncaused(derive)
    ensures StoreInv(s.(store := Append(s.store, e, derive),
                        broadcasts := s.broadcasts + [Stored(s.store.nextPosition, e, false)]))
  {
    AppendKeepsOk(s.store, e, derive);
    var added := Added(s.store, e, derive);
    BroadcastConcat(s.store.events, added);
    BroadcastOfDerived(added[1..]);
    assert added == [added[0]] + added[1..];
  }

  lemma HeadIsLast(s: Store)
    requires StoreOk(s)
    ensures forall x :: x in Broadcast(s.events) ==>
      x.position <= (if HeadPosition(s).Some? then HeadPosition(s).value else 0)
  {
    BroadcastMembers(s.events);
    forall x | x in s.events ensures x.position <= Last(s.events).position {
      var i :| 0 <= i < |s.events| && s.events[i] == x;
      assert Before(s.events, i, |s.events| - 1);
    }
  }

  lemma ReceivedSlice(b: seq<Stored>, more: seq<Stored>, start: nat, next: nat)
    requires start <= next <= |b|
    ensures (b + more)[start..next] == b[start..next]
    ensures next < |b| ==> b[start..next + 1] == b[start..next] + [b[next]]
  {
  }

  lemma ClientDoesNotMatter(p: Principal, s: State, a: Arrival, sendOk: bool)
    requires s.conn.Some? && ConnInv(s)
    ensures ConnInv(OnClient(p, s, a, sendOk))
  {
  }

  /** Receiving, or skipping what was overrun, without what the client is told. */
  lemma ReceiveKeepsConn(s: State, n: nat)
    requires ConnInv(s) && Live(s) && s.conn.value.next < |s.broadcasts| && n == Overrun(s)
    ensures var c := s.conn.value; var x := s.broadcasts[c.next];
      ConnInv(s.(conn := Some(
        if n > 0 then c.(next := c.next + n, missed := c.missed + n)
        else c.(next := c.next + 1, received := c.received + [x]))))
  {
    ReceivedSlice(s.broadcasts, [], s.conn.value.start, s.conn.value.next);
  }

  lemma AppendKeepsConn(derive: Projector, s: State, e: Envelope)
    requires ConnInv(s) && s.conn.Some?
    ensures ConnInv(s.(store := Append(s.store, e, derive),
                       broadcasts := s.broadcasts + [Stored(s.store.nextPosition, e, false)]))
  {
    ReceivedSlice(s.broadcasts, [Stored(s.store.nextPosition, e, false)], s.conn.value.start, s.conn.value.next);
  }

  lemma HandshakeKeepsConn(p: Principal, s: State, sendOk: bool)
    requires StoreInv(s) && ConnInv(s) && s.conn.Some? && s.conn.value.head.None?
    ensures var head := HeadPosition(s.store); var c := s.conn.value;
      ConnInv(s.(conn := Some(c.(head := Some(Announced(head)), client := Handle(p, c.client, Head(head), sendOk)))))
  {
    HeadIsLast(s.store);
  }

  lemma ReceiptKeepsConn(p: Principal, derive: Projector, s: State, sendOk: bool)
    requires ConnInv(s) && Next(p, derive, s, Receive(sendOk)).Some?
    ensures ConnInv(Next(p, derive, s, Receive(sendOk)).value)
  {
    var c, n := s.conn.value, Overrun(s);
    ReceiveKeepsConn(s, n);
    if n > 0 {
      ClientDoesNotMatter(p, s.(conn := Some(c.(next := c.next + n, missed := c.missed + n))), Lagged(n), sendOk);
    } else {
      var x := s.broadcasts[c.next];
      ClientDoesNotMatter(p, s.(conn := Some(c.(next := c.next + 1, received := c.received + [x]))), Got(x), sendOk);
    }
  }

  lemma NextKeepsConn(p: Principal, derive: Projector, s: State, step: Step)
    requires StoreInv(s) && ConnInv(s) && Next(p, derive, s, step).Some?
    ensures ConnInv(Next(p, derive, s, step).value)
  {
    if s.conn.Some? {
      match step {
        case Appended(e) =>
          AppendKeepsConn(derive, s, e);
        case Handshake(sendOk) =>
          HandshakeKeepsConn(p, s, sendOk);
        case Receive(sendOk) =>
          ReceiptKeepsConn(p, derive, s, sendOk);
        case _ =>
      }
    }
  }

  lemma NextKeepsStore(p: Principal, derive: Projector, s: State, step: Step)
    requires StoreInv(s) && Next(p, derive, s, step).Some? && Uncaused(derive)
    ensures StoreInv(Next(p, derive, s, step).value)
  {
    var t := Next(p, derive, s, step).value;
    if step.Appended? {
      AppendBroadcasts(s, step.envelope, derive);
    } else {
      assert t.store == s.store && t.broadcasts == s.broadcasts;
    }
  }

  ghost predicate Inv(s: State) {
    StoreInv(s) && ConnInv(s)
  }

  lemma {:induction false} InvHolds(p: Principal, derive: Projector, steps: seq<Step>)
    requires Run(p, derive, steps).Some? && Uncaused(derive)
    ensures Inv(Run(p, derive, steps).value)
  {
    if steps != [] {
      InvHolds(p, derive, Front(steps));
      NextKeepsStore(p, derive, Run(p, derive, Front(steps)).value, Last(steps));
      NextKeepsConn(p, derive, Run(p, derive, Front(steps)).value, Last(steps));
    }
  }

  /**
    In every interleaving, a connection that has never lagged has received a
    beginning of exactly the broadcast events past the announced head, in
    order, among its events, and all of them once it has caught up.
   */
  lemma NothingMissedPastHead(p: Principal, derive: Projector, steps: seq<Step>)
    requires Run(p, derive, steps).Some? && Uncaused(derive)
    requires var s := Run(p, derive, steps).value;
      s.conn.Some? && s.conn.value.head.Some? && s.conn.value.missed == 0
    ensures var s := Run(p, derive, steps).value; var c := s.conn.value;
      var owed := Broadcast(Past(s.store.events, c.head.value));
      && Past(c.received, c.head.value) <= owed
      && (c.next == |s.broadcasts| ==> Past(c.received, c.head.value) == owed)
  {
    InvHolds(p, derive, steps);
    var s := Run(p, derive, steps).value;
    var c := s.conn.value;
    BroadcastOfPast(s.store.events, c.head.value);
    PastOfParts(s.broadcasts, c.start, c.next, c.head.value);
  }

  /** Replaying the log up to the announced head and adding the live events
      past it leaves a gap exactly when the projections have since added
      events of their own: those are in the log but are never broadcast. */
  lemma GapFreeIff(p: Principal, derive: Projector, steps: seq<Step>)
    requires Run(p, derive, steps).Some? && Uncaused(derive)
    requires var s := Run(p, derive, steps).value;
      s.conn.Some? && s.conn.value.head.Some? && s.conn.value.missed == 0 && s.conn.value.next == |s.broadcasts|
    ensures var s := Run(p, derive, steps).value; var c := s.conn.value;
      (Past(c.received, c.head.value) == Past(s.store.events, c.head.value)) <==>
      (forall x :: x in Past(s.store.events, c.head.value) ==> !x.derived)
  {
    NothingMissedPastHead(p, derive, steps);
    var s := Run(p, derive, steps).value;
    BroadcastMembers(Past(s.store.events, s.conn.value.head.value));
  }

  /** A run in which it does leave a gap: one event arrives after the
      handshake, and the projections derive one more from it. */
  lemma DerivedEventIsAGap(p: Principal, e: Envelope, d: Envelope) returns (derive: Projector, steps: seq<Step>)
    requires d.causationId.None?
    ensures Uncaused(derive) && Run(p, derive, steps).Some?
    ensures var s := Run(p, derive, steps).value;
      && s.conn.Some? && s.conn.value.head.Some?
      && s.conn.value.missed == 0 && s.conn.value.next == |s.broadcasts|
      && Past(s.store.events, s.conn.value.head.value) == [Stored(1, e, false), Stored(2, d, true)]
      && Past(s.conn.value.received, s.conn.value.head.value) == [Stored(1, e, false)]
  {
    derive := (log: seq<Stored>, e: Envelope) => [d];
    var hello := [Subscribe, Handshake(true)];
    HelloRuns(p, derive);
    FirstAppend(e, d, derive);
    var before := hello + [Appended(e)];
    steps := before + [Receive(true)];
    assert Front(before) == hello && Front(steps) == before;
    var c := Conn(0, 0, Some(0), [], 0, Client(None, [Connected(0)], false));
    var t := State(Append(EMPTY, e, derive), [Stored(1, e, false)], Some(c));
    assert Run(p, derive, before) == Some(t) by {
      assert [] + [Stored(1, e, false)] == [Stored(1, e, false)];
    }
    assert Next(p, derive, t, Receive(true)).value.conn.value.received == [Stored(1, e, false)] by {
      assert Overrun(t) == 0 && c.received + [t.broadcasts[0]] == t.broadcasts;
    }
  }

  lemma FirstAppend(e: Envelope, d: Envelope, derive: Projector)
    requires derive([Stored(1, e, false)], e) == [d]
    ensures Append(EMPTY, e, derive).events == [Stored(1, e, false), Stored(2, d, true)]
    ensures Past(Append(EMPTY, e, derive).events, 0) == Append(EMPTY, e, derive).events
    ensures Past([Stored(1, e, false)], 0) == [Stored(1, e, false)]
  {
    assert [] + [Stored(1, e, false)] == [Stored(1, e, false)];
    assert Append(EMPTY, e, derive).events == [Stored(1, e, false)] + Place([d], 2);
    PastAll(Append(EMPTY, e, derive).events, 0);
    PastAll([Stored(1, e, false)], 0);
  }

  lemma HelloRuns(p: Principal, derive: Projector)
    ensures Run(p, derive, [Subscribe, Handshake(true)]) ==
      Some(State(EMPTY, [], Some(Conn(0, 0, Some(0), [], 0, Client(None, [Connected(0)], false)))))
  {
    var one, two := [Subscribe], [Subscribe, Handshake(true)];
    assert Front(one) == [] && Front(two) == one;
    assert Run(p, derive, []) == Some(State(EMPTY, [], None));
    assert Run(p, derive, one).value == State(EMPTY, [], Some(Conn(0, 0, None, [], 0, NEW_CLIENT)));
    assert NEW_CLIENT.outbox + [Connected(0)] == [Connected(0)];
  }

  // ----- what is sent

  /** The event a step receives, if it receives one. */
  ghost function ReceivedBy(s: State, step: Step): seq<Stored> {
    if step.Receive? && Live(s) && s.conn.value.next < |s.broadcasts| && Overrun(s) == 0
    then [s.broadcasts[s.conn.value.next]] else []
  }

  /** How many missed events a step's warning fails to report, because it
      cannot be sent. */
  ghost function LostReport(s: State, step: Step): nat {
    if step.Receive? && !step.sendOk && Live(s) then Overrun(s) else 0
  }

  /** The message that gets through when something arrives. */
  lemma Delivered(p: Principal, c: Client, a: Arrival, sendOk: bool) returns (m: seq<Message>)
    ensures Handle(p, c, a, sendOk).outbox == c.outbox + m && |m| <= 1
    ensures Handle(p, c, a, sendOk).filter == (if a.Types? then a.types else c.filter)
    ensures m != [] ==> Handle(p, c, a, sendOk).closed == c.closed
    ensures a.Got? ==> m == Forwarded(p, c.filter, a.x) || (m == [] && Handle(p, c, a, sendOk).closed)
    ensures a.Lagged? ==> m == (if sendOk then [Warn(a.missed)] else [])
    ensures a.Ping? ==> m == (if sendOk then [Pong] else [])
    ensures a.Head? ==> m == (if sendOk then [Connected(Announced(a.position))] else [])
    ensures a.Head? && !sendOk ==> Handle(p, c, a, sendOk).closed
  {
    m := match a
      case Head(position) => if sendOk then [Connected(Announced(position))] else []
      case Types(types) => []
      case Ping => if sendOk then [Pong] else []
      case Got(x) => if sendOk then Forwarded(p, c.filter, x) else []
      case Lagged(missed) => if sendOk then [Warn(missed)] else [];
    assert c.outbox + [] == c.outbox;
  }

  /** A step on a connection sends at most one message: the one its event
      owes, a warning, or neither. */
  lemma StepSends(p: Principal, derive: Projector, s: State, step: Step) returns (m: seq<Message>)
    requires Next(p, derive, s, step).Some? && s.conn.Some?
    ensures var t := Next(p, derive, s, step).value; var x := ReceivedBy(s, step); var c := s.conn.value.client;
      && t.conn.Some? && |m| <= 1
      && t.conn.value.client.outbox == c.outbox + m
      && t.conn.value.received == s.conn.value.received + x
      && t.conn.value.missed == s.conn.value.missed + LostReport(s, step) + (if m != [] && m[0].Warn? then m[0].missed else 0)
      && (x == [] && m != [] ==> !m[0].Event?)
      && (x != [] ==> m == Forwarded(p, c.filter, x[0]) || (m == [] && t.conn.value.client.closed))
      && (c.closed ==> m == [] && x == [] && t.conn.value.client.closed)
      && t.conn.value.client.filter == (if step.ClientSubscribes? then step.types else c.filter)
  {
    var c := s.conn.value;
    assert c.received + [] == c.received;
    m := [];
    match step {
      case Handshake(sendOk) => m := Delivered(p, c.client, Head(HeadPosition(s.store)), sendOk);
      case ClientPings(sendOk) => m := Delivered(p, c.client, Ping, sendOk);
      case Receive(sendOk) =>
        m := Delivered(p, c.client, if Overrun(s) > 0 then Lagged(Overrun(s)) else Got(s.broadcasts[c.next]), sendOk);
      case _ =>
        assert c.client.outbox + [] == c.client.outbox;
    }
  }

  /** The head position is announced, once, before anything else. */
  ghost predicate Greeted(c: Conn) {
    && (c.client.outbox != [] ==> c.head.Some? && c.client.outbox[0] == Connected(c.head.value))
    && (c.head.Some? && c.client.outbox == [] ==> c.client.closed)
    && (forall i :: 1 <= i < |c.client.outbox| ==> !c.client.outbox[i].Connected?)
  }

  lemma StepGreets(p: Principal, derive: Projector, s: State, step: Step)
    requires Next(p, derive, s, step).Some? && (s.conn.Some? ==> Greeted(s.conn.value))
    ensures var t := Next(p, derive, s, step).value; t.conn.Some? ==> Greeted(t.conn.value)
  {
    if s.conn.Some? {
      var m := StepSends(p, derive, s, step);
    }
  }

  /** The position of the last event in the log when the handshake was made,
      0 if there was none; None before the handshake. */
  ghost function EndAtHandshake(p: Principal, derive: Projector, steps: seq<Step>): Option<nat>
    requires Run(p, derive, steps).Some?
  {
    if steps == [] then None
    else
      var log := Run(p, derive, Front(steps)).value.store.events;
      if Last(steps).Handshake? then Some(if log == [] then 0 else Last(log).position)
      else EndAtHandshake(p, derive, Front(steps))
  }

  /** In every run the first message a client gets announces the position of
      the log's last event at the handshake, and no other message does. */
  lemma {:induction false} HeadIsAnnouncedFirst(p: Principal, derive: Projector, steps: seq<Step>)
    requires Run(p, derive, steps).Some?
    ensures var s := Run(p, derive, steps).value;
      if s.conn.Some? then Greeted(s.conn.value) && s.conn.value.head == EndAtHandshake(p, derive, steps)
      else EndAtHandshake(p, derive, steps) == None
  {
    if steps != [] {
      HeadIsAnnouncedFirst(p, derive, Front(steps));
      StepGreets(p, derive, Run(p, derive, Front(steps)).value, Last(steps));
    }
  }

  /** How many events the warnings in an outbox add up to. */
  function Reported(outbox: seq<Message>): nat {
    if outbox == [] then 0
    else Reported(Front(outbox)) + (if Last(outbox).Warn? then Last(outbox).missed else 0)
  }

  /** The event messages of an outbox. */
  function EventsOf(outbox: seq<Message>): seq<Message> {
    if outbox == [] then [] else EventsOf(Front(outbox)) + (if Last(outbox).Event? then [Last(outbox)] else [])
  }

  lemma OutboxGrows(outbox: seq<Message>, m: seq<Message>)
    requires |m| <= 1
    ensures Reported(outbox + m) == Reported(outbox) + (if m != [] && m[0].Warn? then m[0].missed else 0)
    ensures EventsOf(outbox + m) == EventsOf(outbox) + (if m != [] && m[0].Event? then m else [])
  {
    if m == [] {
      assert outbox + m == outbox;
    } else {
      assert Front(outbox + m) == outbox;
      assert m == [m[0]];
    }
  }

  /** How many missed events went unreported in a run. */
  ghost function LostReports(p: Principal, derive: Projector, steps: seq<Step>): nat
    requires Run(p, derive, steps).Some?
  {
    if steps == [] then 0
    else LostReports(p, derive, Front(steps)) + LostReport(Run(p, derive, Front(steps)).value, Last(steps))
  }

  lemma {:induction false} ReportedIsMissed(p: Principal, derive: Projector, steps: seq<Step>)
    requires Run(p, derive, steps).Some?
    ensures var s := Run(p, derive, steps).value;
      LostReports(p, derive, steps) + (if s.conn.Some? then Reported(s.conn.value.client.outbox) else 0) ==
        if s.conn.Some? then s.conn.value.missed else 0
  {
    if steps != [] {
      ReportedIsMissed(p, derive, Front(steps));
      var s := Run(p, derive, Front(steps)).value;
      if s.conn.Some? {
        var m := StepSends(p, derive, s, Last(steps));
        OutboxGrows(s.conn.value.client.outbox, m);
      }
    }
  }

  /** With lag, the events received and the events reported missing account
      for every broadcast since the subscription that has been passed over,
      exactly when no warning failed to be sent. */
  lemma LagIsReportedIff(p: Principal, derive: Projector, steps: seq<Step>)
    requires Run(p, derive, steps).Some? && Uncaused(derive)
    requires Run(p, derive, steps).value.conn.Some?
    ensures var c := Run(p, derive, steps).value.conn.value;
      && c.next - c.start == |c.received| + Reported(c.client.outbox) + LostReports(p, derive, steps)
      && (c.next - c.start == |c.received| + Reported(c.client.outbox) <==> LostReports(p, derive, steps) == 0)
  {
    InvHolds(p, derive, steps);
    ReportedIsMissed(p, derive, steps);
  }

  /** The filter in force after some steps: that of the client's last
      subscribe message. */
  function FilterAfter(steps: seq<Step>): Filter {
    if steps == [] then None
    else if Last(steps).ClientSubscribes? then Last(steps).types
    else FilterAfter(Front(steps))
  }

  /** Administrators see every event; others see what belongs to the system or
      to their own tenant. */
  predicate MaySee(p: Principal, x: Stored) {
    match p
    case SystemPrincipal => true
    case ServiceAccount(name, tenant) => name == "admin" || BelongsTo(x.envelope.ownership, tenant)
    case Operator(tenant) => BelongsTo(x.envelope.ownership, tenant)
  }

  predicate BelongsTo(o: Ownership, tenant: string) {
    match o
    case System => true
    case Tenant(t) => t == tenant
    case Workspace(t, _) => t == tenant
    case Project(t, _, _) => t == tenant
  }

  /** The client has asked for this type of event: by naming it, by naming
      none, or by not having asked for any in particular. */
  predicate AskedFor(types: Filter, x: Stored) {
    types.Some? && types.value != [] ==> EventTypeName(x.envelope.payload) in types.value
  }

  /** What a caller who has asked for some types is due for an event. */
  function Due(p: Principal, types: Filter, x: Stored): seq<Message> {
    if MaySee(p, x) && AskedFor(types, x)
    then [Event(x.position, EventTypeName(x.envelope.payload), x.envelope.eventId)] else []
  }

  lemma ForwardedIsDue(p: Principal, types: Filter, x: Stored)
    ensures Forwarded(p, types, x) == Due(p, types, x)
  {
  }

  /**
    In every run, an event that arrives is dealt with by who the caller is and
    what the last subscribe message before it asked for: if the caller may see
    it and has asked for it, its message is sent, or the connection ends with
    the failed attempt; and otherwise nothing is sent for it.
   */
  lemma EachArrivalIsAnswered(p: Principal, derive: Projector, steps: seq<Step>, step: Step, x: Stored)
    requires Run(p, derive, steps).Some? && Run(p, derive, steps + [step]).Some?
    requires ReceivedBy(Run(p, derive, steps).value, step) == [x]
    ensures var before, after := Run(p, derive, steps).value.conn, Run(p, derive, steps + [step]).value.conn;
      && before.Some? && after.Some? && !before.value.client.closed
      && (if MaySee(p, x) && AskedFor(FilterAfter(steps), x)
          then after.value.client.outbox ==
                 before.value.client.outbox + [Event(x.position, EventTypeName(x.envelope.payload), x.envelope.eventId)]
               || (after.value.client.outbox == before.value.client.outbox && after.value.client.closed && !step.sendOk)
          else after.value.client == before.value.client)
  {
    assert Front(steps + [step]) == steps;
    SentIsWhatPasses(p, derive, steps);
    var s := Run(p, derive, steps).value;
    var c := s.conn.value.client;
    ForwardedIsDue(p, c.filter, x);
    assert c.outbox + [] == c.outbox;
  }

  /** For each received event in turn, the message that is due for it under
      the subscription in force when it was received. */
  ghost function OwedMessages(p: Principal, derive: Projector, steps: seq<Step>): seq<Message>
    requires Run(p, derive, steps).Some?
  {
    if steps == [] then []
    else
      var x := ReceivedBy(Run(p, derive, Front(steps)).value, Last(steps));
      OwedMessages(p, derive, Front(steps)) +
      (if x == [] then [] else Due(p, FilterAfter(Front(steps)), x[0]))
  }

  /** An open connection has sent what is owed; on a closed one at most the
      message whose sending failed is wanting, at the end. */
  ghost predicate Settled(conn: Option<Conn>, filter: Filter, owed: seq<Message>) {
    if conn.None? then filter == None && owed == []
    else
      var sent := EventsOf(conn.value.client.outbox);
      if conn.value.client.closed then sent <= owed && |owed| <= |sent| + 1
      else conn.value.client.filter == filter && sent == owed
  }

  lemma StepSettles(p: Principal, derive: Projector, s: State, step: Step, filter: Filter, owed: seq<Message>)
    requires Next(p, derive, s, step).Some? && Settled(s.conn, filter, owed)
    ensures var x := ReceivedBy(s, step);
      Settled(Next(p, derive, s, step).value.conn,
              if step.ClientSubscribes? then step.types else filter,
              owed + (if x == [] then [] else Due(p, filter, x[0])))
  {
    assert owed + [] == owed;
    if s.conn.Some? {
      var m := StepSends(p, derive, s, step);
      OutboxGrows(s.conn.value.client.outbox, m);
      if ReceivedBy(s, step) != [] {
        ForwardedIsDue(p, filter, ReceivedBy(s, step)[0]);
      }
    }
  }

  /**
    What the client has been sent is exactly what the received events owe it:
    one message for each that the caller may see and has asked for, by the
    last subscribe message before its receipt, in order of receipt.
   */
  lemma {:induction false} SentIsWhatPasses(p: Principal, derive: Projector, steps: seq<Step>)
    requires Run(p, derive, steps).Some?
    ensures Settled(Run(p, derive, steps).value.conn, FilterAfter(steps), OwedMessages(p, derive, steps))
  {
    if steps != [] {
      SentIsWhatPasses(p, derive, Front(steps));
      StepSettles(p, derive, Run(p, derive, Front(steps)).value, Last(steps),
                  FilterAfter(Front(steps)), OwedMessages(p, derive, Front(steps)));
    }
  }

  predicate Tells(m: Message, x: Stored) {
    m == Event(x.position, EventTypeName(x.envelope.payload), x.envelope.eventId)
  }

  /** Every event message comes from a received event that an administrator
      receives, or that belongs to the system or to the caller's own tenant. */
  ghost predicate OwnEventsOnly(p: Principal, c: Conn) {
    forall m :: m in c.client.outbox && m.Event? ==> exists x :: x in c.received && Tells(m, x) && MaySee(p, x)
  }

  lemma StepSendsOwn(p: Principal, derive: Projector, s: State, step: Step)
    requires Next(p, derive, s, step).Some? && s.conn.Some? && OwnEventsOnly(p, s.conn.value)
    ensures OwnEventsOnly(p, Next(p, derive, s, step).value.conn.value)
  {
    var sent := StepSends(p, derive, s, step);
    var c, c' := s.conn.value, Next(p, derive, s, step).value.conn.value;
    forall m | m in c'.client.outbox && m.Event?
      ensures exists x :: x in c'.received && Tells(m, x) && MaySee(p, x)
    {
      if m in c.client.outbox {
        var x :| x in c.received && Tells(m, x) && MaySee(p, x);
        assert x in c'.received;
      } else {
        var x := ReceivedBy(s, step)[0];
        ForwardedIsDue(p, c.client.filter, x);
        assert x in c'.received && Tells(m, x);
      }
    }
  }

  /** In no run is a caller sent an event of another tenant. */
  lemma {:induction false} NoForeignEvents(p: Principal, derive: Projector, steps: seq<Step>)
    requires Run(p, derive, steps).Some?
    ensures var s := Run(p, derive, steps).value; s.conn.Some? ==> OwnEventsOnly(p, s.conn.value)
  {
    if steps != [] {
      NoForeignEvents(p, derive, Front(steps));
      var s := Run(p, derive, Front(steps)).value;
      if s.conn.Some? {
        StepSendsOwn(p, derive, s, Last(steps));
      }
    }
  }
}
