/**
  The operator notification buffer (crates/cairn-app/src/bin_state.rs): a ring
  of the last 200 notifications with read flags, proved to be a window onto an
  unbounded history.
 */
module NotificationRing {
  import opened Common

  datatype NotifType = ApprovalRequested | ApprovalResolved | RunCompleted | RunFailed | TaskStuck

  datatype Notification = Notification(id: string, notifType: NotifType, entityId: Option<string>, href: string, read: bool)

  const RING_SIZE: nat := 200

  /** The last `n` elements, or all of them when there are fewer. */
  function LastN<T>(s: seq<T>, n: nat): seq<T> {
    if |s| <= n then s else s[|s| - n..]
  }

  /** Mark the oldest notification with this id, if there is one. */
  function MarkFirst(s: seq<Notification>, id: string): seq<Notification> {
    if s == [] then []
    else if s[0].id == id then [s[0].(read := true)] + s[1..]
    else [s[0]] + MarkFirst(s[1..], id)
  }

  function MarkAll(s: seq<Notification>): seq<Notification> {
    seq(|s|, i requires 0 <= i < |s| => s[i].(read := true))
  }

  function Unread(s: seq<Notification>): nat {
    if s == [] then 0 else Unread(s[..|s| - 1]) + (if s[|s| - 1].read then 0 else 1)
  }

  datatype Op = Push(n: Notification) | MarkRead(id: string) | MarkAllRead

  /** What one operation does to the ring. */
  function OnRing(ring: seq<Notification>, op: Op): seq<Notification> {
    match op
    case Push(n) => (if |ring| == RING_SIZE then ring[1..] else ring) + [n]
    case MarkRead(id) => MarkFirst(ring, id)
    case MarkAllRead => MarkAll(ring)
  }

  class NotificationBuffer {
    var entries: seq<Notification>

    constructor ()
      ensures entries == []
    {
      entries := [];
    }

    method Push(n: Notification)
      modifies this`entries
      ensures entries == OnRing(old(entries), Op.Push(n))
    {
      if |entries| == RING_SIZE {
        entries := entries[1..];
      }
      entries := entries + [n];
    }

    method List(limit: nat) returns (page: seq<Notification>)
      ensures page == LastN(entries, limit)
    {
      var start := if |entries| < limit then 0 else |entries| - limit;
      page := entries[start..];
    }

    method MarkRead(id: string) returns (found: bool)
      modifies this`entries
      ensures entries == OnRing(old(entries), Op.MarkRead(id))
      ensures found <==> exists n :: n in old(entries) && n.id == id
    {
      var i := 0;
      while i < |entries|
        invariant 0 <= i <= |entries| && entries == old(entries)
        invariant forall k :: 0 <= k < i ==> entries[k].id != id
      {
        if entries[i].id == id {
          MarkFirstAt(entries, id, i);
          entries := entries[i := entries[i].(read := true)];
          return true;
        }
        i := i + 1;
      }
      MarkFirstAbsent(entries, id);
      return false;
    }

    method MarkAllRead()
      modifies this`entries
      ensures entries == OnRing(old(entries), Op.MarkAllRead)
    {
      var i := 0;
      while i < |entries|
        invariant 0 <= i <= |entries| == |old(entries)|
        invariant forall k :: 0 <= k < i ==> entries[k] == old(entries)[k].(read := true)
        invariant forall k :: i <= k < |entries| ==> entries[k] == old(entries)[k]
      {
        entries := entries[i := entries[i].(read := true)];
        i := i + 1;
      }
    }

    method UnreadCount() returns (count: nat)
      ensures count == Unread(entries)
    {
      count := 0;
      var i := 0;
      while i < |entries|
        invariant 0 <= i <= |entries|
        invariant count == Unread(entries[..i])
      {
        assert entries[..i + 1][..i] == entries[..i];
        if !entries[i].read {
          count := count + 1;
        }
        i := i + 1;
      }
      assert entries[..i] == entries;
    }
  }

  lemma {:induction false} MarkFirstAt(s: seq<Notification>, id: string, i: nat)
    requires i < |s| && s[i].id == id && forall k :: 0 <= k < i ==> s[k].id != id
    ensures MarkFirst(s, id) == s[i := s[i].(read := true)]
  {
    if i > 0 {
      MarkFirstAt(s[1..], id, i - 1);
    }
  }

  lemma {:induction false} MarkFirstAbsent(s: seq<Notification>, id: string)
    requires forall k :: 0 <= k < |s| ==> s[k].id != id
    ensures MarkFirst(s, id) == s
  {
    if s != [] {
      MarkFirstAbsent(s[1..], id);
    }
  }

  // ----- the unbounded history

  function Ring(ops: seq<Op>): seq<Notification> {
    if ops == [] then [] else OnRing(Ring(Front(ops)), Last(ops))
  }

  /** On the history nothing is dropped, and marking reaches only the last
      200 notifications. */
  function OnHistory(h: seq<Notification>, op: Op): seq<Notification> {
    match op
    case Push(n) => h + [n]
    case MarkRead(id) =>
      var window := LastN(h, RING_SIZE);
      h[..|h| - |window|] + MarkFirst(window, id)
    case MarkAllRead =>
      var window := LastN(h, RING_SIZE);
      h[..|h| - |window|] + MarkAll(window)
  }

  function History(ops: seq<Op>): seq<Notification> {
    if ops == [] then [] else OnHistory(History(Front(ops)), Last(ops))
  }

  lemma {:induction false} MarkFirstLength(s: seq<Notification>, id: string)
    ensures |MarkFirst(s, id)| == |s|
  {
    if s != [] && s[0].id != id {
      MarkFirstLength(s[1..], id);
    }
  }

  /** After any operations the ring is the last 200 notifications of the
      history, read flags included. */
  lemma {:induction false} RingIsWindow(ops: seq<Op>)
    ensures Ring(ops) == LastN(History(ops), RING_SIZE)
    ensures |History(ops)| == NumberPushed(ops)
  {
    if ops != [] {
      RingIsWindow(Front(ops));
      var h := History(Front(ops));
      var window := LastN(h, RING_SIZE);
      match Last(ops) {
        case Push(n) =>
        case MarkRead(id) =>
          MarkFirstLength(window, id);
          assert (h[..|h| - |window|] + MarkFirst(window, id))[|h| - |window|..] == MarkFirst(window, id);
        case MarkAllRead =>
          assert (h[..|h| - |window|] + MarkAll(window))[|h| - |window|..] == MarkAll(window);
      }
    }
  }

  function NumberPushed(ops: seq<Op>): nat {
    if ops == [] then 0 else NumberPushed(Front(ops)) + (if Last(ops).Push? then 1 else 0)
  }

  /** A listing is the end of the history, never more than 200 long; and the
      unread count is that of the listed window. */
  lemma ListingIsSuffix(ops: seq<Op>, limit: nat)
    ensures LastN(Ring(ops), limit) == LastN(History(ops), if limit < RING_SIZE then limit else RING_SIZE)
    ensures Unread(Ring(ops)) == Unread(LastN(History(ops), RING_SIZE))
  {
    RingIsWindow(ops);
  }

  // ----- what marking and listing mean

  /** How many of the first n are unread. */
  ghost function UnreadOnes(s: seq<Notification>): set<int> {
    set i | 0 <= i < |s| && !s[i].read
  }

  /** The unread count is the number of entries whose flag is not set. */
  lemma {:induction false} UnreadMeans(s: seq<Notification>)
    ensures Unread(s) == |UnreadOnes(s)|
  {
    if s == [] {
      assert UnreadOnes(s) == {};
    } else {
      var n := |s| - 1;
      UnreadMeans(s[..n]);
      assert UnreadOnes(s) == UnreadOnes(s[..n]) + (if s[n].read then {} else {n});
    }
  }

  /** Marking all leaves nothing unread, and nothing else changed. */
  lemma {:induction false} MarkAllMeans(s: seq<Notification>)
    ensures Unread(MarkAll(s)) == 0 && |MarkAll(s)| == |s|
    ensures forall i :: 0 <= i < |s| ==> MarkAll(s)[i] == s[i].(read := true)
  {
    if s != [] {
      var n := |s| - 1;
      MarkAllMeans(s[..n]);
      assert MarkAll(s)[..n] == MarkAll(s[..n]);
    }
  }

  /** Marking one sets the flag of the oldest entry with this id, and nothing
      else; the unread count goes down by one if that entry was unread. */
  lemma {:induction false} MarkFirstMeans(s: seq<Notification>, id: string) returns (i: nat)
    ensures i <= |s| && (forall k :: 0 <= k < i ==> s[k].id != id) && (i < |s| ==> s[i].id == id)
    ensures MarkFirst(s, id) == (if i < |s| then s[i := s[i].(read := true)] else s)
    ensures Unread(MarkFirst(s, id)) == Unread(s) - (if i < |s| && !s[i].read then 1 else 0)
  {
    i := 0;
    while i < |s| && s[i].id != id
      invariant 0 <= i <= |s| && forall k :: 0 <= k < i ==> s[k].id != id
    {
      i := i + 1;
    }
    if i == |s| {
      MarkFirstAbsent(s, id);
    } else {
      MarkFirstAt(s, id, i);
      var t := s[i := s[i].(read := true)];
      UnreadMeans(s);
      UnreadMeans(t);
      assert UnreadOnes(t) == UnreadOnes(s) - {i};
    }
  }

  /** What a listing shows: the newest entries, oldest of them first, as many
      as asked for or there are. */
  lemma ListingMeans(ring: seq<Notification>, limit: nat)
    ensures |LastN(ring, limit)| == Min(limit, |ring|)
    ensures forall i :: 0 <= i < |LastN(ring, limit)| ==>
      LastN(ring, limit)[i] == ring[|ring| - |LastN(ring, limit)| + i]
  {
  }
}
