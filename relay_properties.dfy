/**
 What the relay's handlers guarantee, stated on the step functions of module
 `Relay`: membership after a join or a leave, who receives the count and the
 forwarded frames, and what holds over whole runs of the event loop.
 */
module RelayProperties {
  import opened Transport
  import opened Relay

  /**
   `clients.add(ws)` makes `ws` a member; the set grows by one exactly when
   `ws` was new. Re-adding a member leaves the registry as it was, and the
   handler still broadcasts the count again.
   */
  lemma ConnectionAddsMember(s: RelayState, ws: ClientId)
    ensures AfterConnection(s, ws).clients == s.clients + {ws}
    ensures ws in s.clients ==> AfterConnection(s, ws).clients == s.clients && AfterConnection(s, ws) == Broadcast(s)
    ensures |AfterConnection(s, ws).clients| == |s.clients| + (if ws in s.clients then 0 else 1)
  {
  }

  /**
   After a connection every OPEN member, the new socket included, gets exactly
   one count message, carrying the registry size after the add; nobody else
   gets anything.
   */
  lemma ConnectionAnnouncesCount(s: RelayState, ws: ClientId, c: ClientId)
    ensures var t := AfterConnection(s, ws);
      Outbox(t.outbox, c)
      == Outbox(s.outbox, c) + (if c in t.clients && IsOpen(s.readyState, c) then [UserCount(|t.clients|)] else [])
  {
  }

  /** A frame from `ws` is appended once, unchanged, to every other OPEN member's outbox, and to no other. */
  lemma MessageReachesOtherOpenMembers(s: RelayState, ws: ClientId, message: Payload, c: ClientId)
    ensures Outbox(AfterMessage(s, ws, message).outbox, c)
      == Outbox(s.outbox, c) + (if c in s.clients && c != ws && IsOpen(s.readyState, c) then [Opaque(message)] else [])
  {
  }

  /** No echo: the sender's own outbox is left as it was. */
  lemma NoEcho(s: RelayState, ws: ClientId, message: Payload)
    ensures Outbox(AfterMessage(s, ws, message).outbox, ws) == Outbox(s.outbox, ws)
  {
  }

  /** Relaying a frame changes neither the registry nor any socket's state. */
  lemma MessageKeepsMembership(s: RelayState, ws: ClientId, message: Payload)
    ensures AfterMessage(s, ws, message).clients == s.clients
    ensures AfterMessage(s, ws, message).readyState == s.readyState
  {
  }

  /**
   `clients.delete(ws)` removes `ws`; deleting an absent socket leaves the
   registry as it was, and the handler still broadcasts the count again.
   */
  lemma CloseRemovesMember(s: RelayState, ws: ClientId)
    ensures AfterClose(s, ws).clients == s.clients - {ws}
    ensures ws !in s.clients ==> AfterClose(s, ws).clients == s.clients && AfterClose(s, ws) == Broadcast(s)
    ensures |AfterClose(s, ws).clients| == |s.clients| - (if ws in s.clients then 1 else 0)
    ensures var once := AfterClose(s, ws);
      AfterClose(once, ws).clients == once.clients && AfterClose(once, ws) == Broadcast(once)
  {
  }

  /** After a close the remaining OPEN members each get one count message, with the size after removal. */
  lemma CloseAnnouncesCount(s: RelayState, ws: ClientId, c: ClientId)
    ensures var t := AfterClose(s, ws);
      Outbox(t.outbox, c)
      == Outbox(s.outbox, c) + (if c in t.clients && IsOpen(s.readyState, c) then [UserCount(|t.clients|)] else [])
    ensures Outbox(AfterClose(s, ws).outbox, ws) == Outbox(s.outbox, ws)
  {
  }

  /**
   Whatever the handler, a socket that is not OPEN, or that is not a member
   once the handler has updated the registry, receives nothing from it.
   */
  lemma OnlyOpenMembersReceive(s: RelayState, e: Event, c: ClientId)
    requires !IsOpen(s.readyState, c) || c !in Step(s, e).clients
    ensures Outbox(Step(s, e).outbox, c) == Outbox(s.outbox, c)
  {
    match e
    case Connection(ws) => ConnectionAnnouncesCount(s, ws, c);
    case Message(ws, message) => MessageReachesOtherOpenMembers(s, ws, message, c);
    case Close(ws) => CloseAnnouncesCount(s, ws, c);
    case Error(_) =>
    case StateChange(_, _) =>
  }

  /** Only `connection` and `close` change the registry. */
  lemma {:induction false} OthersKeepMembership(s: RelayState, events: seq<Event>)
    requires forall i :: 0 <= i < |events| ==> !events[i].Connection? && !events[i].Close?
    ensures Replay(s, events).clients == s.clients
  {
    if events != [] {
      var prefix := events[..|events| - 1];
      assert forall i :: 0 <= i < |prefix| ==> prefix[i] == events[i];
      OthersKeepMembership(s, prefix);
    }
  }

  /**
   No send after close: once `ws` has left, and as long as it does not
   connect again, nothing more is ever appended to its outbox.
   */
  lemma {:induction false} NothingAfterLeaving(s: RelayState, ws: ClientId, events: seq<Event>)
    requires ws !in s.clients
    requires forall i :: 0 <= i < |events| ==> events[i] != Connection(ws)
    ensures ws !in Replay(s, events).clients
    ensures Outbox(Replay(s, events).outbox, ws) == Outbox(s.outbox, ws)
  {
    if events != [] {
      var prefix := events[..|events| - 1];
      assert forall i :: 0 <= i < |prefix| ==> prefix[i] == events[i];
      NothingAfterLeaving(s, ws, prefix);
      OnlyOpenMembersReceive(Replay(s, prefix), events[|events| - 1], ws);
    }
  }

  /** The same, starting from the `close` handler itself. */
  lemma NothingAfterClose(s: RelayState, ws: ClientId, events: seq<Event>)
    requires forall i :: 0 <= i < |events| ==> events[i] != Connection(ws)
    ensures Outbox(Replay(AfterClose(s, ws), events).outbox, ws) == Outbox(s.outbox, ws)
  {
    CloseAnnouncesCount(s, ws, ws);
    NothingAfterLeaving(AfterClose(s, ws), ws, events);
  }

  /** One `connection` event per identity, in order. */
  function Connections(ids: seq<ClientId>): (events: seq<Event>)
    ensures |events| == |ids|
    ensures forall i :: 0 <= i < |ids| ==> events[i] == Connection(ids[i])
  {
    if ids == [] then [] else Connections(ids[..|ids| - 1]) + [Connection(ids[|ids| - 1])]
  }

  /**
   N connections of distinct new sockets leave N more members: the registry
   holds exactly the earlier members and the new sockets.
   */
  lemma {:induction false} DistinctConnectionsSize(s: RelayState, ids: seq<ClientId>)
    requires forall i, j :: 0 <= i < j < |ids| ==> ids[i] != ids[j]
    requires forall i :: 0 <= i < |ids| ==> ids[i] !in s.clients
    ensures forall c :: c in Replay(s, Connections(ids)).clients <==> c in s.clients || c in ids
    ensures |Replay(s, Connections(ids)).clients| == |s.clients| + |ids|
  {
    if ids != [] {
      var prefix := ids[..|ids| - 1];
      var last := ids[|ids| - 1];
      var events := Connections(ids);
      assert events[..|events| - 1] == Connections(prefix);
      DistinctConnectionsSize(s, prefix);
      var before := Replay(s, Connections(prefix));
      assert last !in before.clients;
      ConnectionAddsMember(before, last);
    }
  }

  /**
   After N distinct new sockets connect, every member that is OPEN has the
   final registry size as the last message it was sent.
   */
  lemma LastConnectionAnnouncesSize(s: RelayState, ids: seq<ClientId>, c: ClientId)
    requires ids != []
    requires forall i, j :: 0 <= i < j < |ids| ==> ids[i] != ids[j]
    requires forall i :: 0 <= i < |ids| ==> ids[i] !in s.clients
    requires c in Replay(s, Connections(ids)).clients
    requires IsOpen(Replay(s, Connections(ids)).readyState, c)
    ensures var box := Outbox(Replay(s, Connections(ids)).outbox, c);
      box != [] && box[|box| - 1] == UserCount(|s.clients| + |ids|)
  {
    var events := Connections(ids);
    var prefix := ids[..|ids| - 1];
    var last := ids[|ids| - 1];
    assert events[..|events| - 1] == Connections(prefix);
    var before := Replay(s, Connections(prefix));
    var after := Replay(s, events);
    assert after == AfterConnection(before, last);
    assert after.readyState == before.readyState;
    DistinctConnectionsSize(s, ids);
    ConnectionAnnouncesCount(before, last, c);
  }

  /** Running one more event is one more step. */
  lemma ReplaySnoc(s: RelayState, events: seq<Event>, e: Event)
    ensures Replay(s, events + [e]) == Step(Replay(s, events), e)
  {
    assert (events + [e])[..|events|] == events;
  }

  /** What the scenario below starts from: nobody connected, nothing sent, three OPEN sockets. */
  predicate ScenarioStart(s: RelayState, a: ClientId, b: ClientId, c: ClientId)
  {
    && a != b && b != c && a != c
    && s.clients == {} && s.outbox == map[]
    && IsOpen(s.readyState, a) && IsOpen(s.readyState, b) && IsOpen(s.readyState, c)
  }

  /** The scenario's run of the event loop, handler by handler. */
  lemma ScenarioSteps(s0: RelayState, a: ClientId, b: ClientId, c: ClientId, stroke: Payload, later: Payload)
    ensures Replay(s0,
        [Connection(a), Connection(b), Connection(c), Message(a, stroke), StateChange(b, Closed), Close(b), Message(c, later)])
      == AfterMessage(AfterClose(AfterStateChange(AfterMessage(
           AfterConnection(AfterConnection(AfterConnection(s0, a), b), c),
           a, stroke), b, Closed), b), c, later)
  {
    var e1, e2, e3, e4 := Connection(a), Connection(b), Connection(c), Message(a, stroke);
    var e5, e6, e7 := StateChange(b, Closed), Close(b), Message(c, later);
    var p1 := [e1];
    var p2 := p1 + [e2];
    var p3 := p2 + [e3];
    var p4 := p3 + [e4];
    var p5 := p4 + [e5];
    var p6 := p5 + [e6];
    var p7 := p6 + [e7];
    ReplaySnoc(s0, [], e1);
    assert [] + [e1] == p1;
    var r1 := Replay(s0, p1);
    assert r1 == AfterConnection(s0, a);
    ReplaySnoc(s0, p1, e2);
    var r2 := Replay(s0, p2);
    assert r2 == AfterConnection(r1, b);
    ReplaySnoc(s0, p2, e3);
    var r3 := Replay(s0, p3);
    assert r3 == AfterConnection(r2, c);
    ReplaySnoc(s0, p3, e4);
    var r4 := Replay(s0, p4);
    assert r4 == AfterMessage(r3, a, stroke);
    ReplaySnoc(s0, p4, e5);
    var r5 := Replay(s0, p5);
    assert r5 == AfterStateChange(r4, b, Closed);
    ReplaySnoc(s0, p5, e6);
    var r6 := Replay(s0, p6);
    assert r6 == AfterClose(r5, b);
    ReplaySnoc(s0, p6, e7);
    assert Replay(s0, p7) == AfterMessage(r6, c, later);
    assert p7 == [e1, e2, e3, e4, e5, e6, e7];
  }

  /** The registry and what each of the three sockets has been sent so far. */
  predicate Observed(s: RelayState, a: ClientId, b: ClientId, c: ClientId,
                     members: set<ClientId>, toA: seq<Msg>, toB: seq<Msg>, toC: seq<Msg>)
  {
    s.clients == members && Outbox(s.outbox, a) == toA && Outbox(s.outbox, b) == toB && Outbox(s.outbox, c) == toC
  }

  lemma ScenarioJoinA(s0: RelayState, a: ClientId, b: ClientId, c: ClientId)
    requires ScenarioStart(s0, a, b, c)
    ensures AfterConnection(s0, a).readyState == s0.readyState
    ensures Observed(AfterConnection(s0, a), a, b, c, {a}, [UserCount(1)], [], [])
  {
    assert AfterConnection(s0, a).clients == {a} && |{a}| == 1;
    ConnectionAnnouncesCount(s0, a, a);
    ConnectionAnnouncesCount(s0, a, b);
    ConnectionAnnouncesCount(s0, a, c);
  }

  lemma ScenarioJoinB(s1: RelayState, a: ClientId, b: ClientId, c: ClientId)
    requires a != b && b != c && a != c
    requires IsOpen(s1.readyState, a) && IsOpen(s1.readyState, b)
    requires Observed(s1, a, b, c, {a}, [UserCount(1)], [], [])
    ensures AfterConnection(s1, b).readyState == s1.readyState
    ensures Observed(AfterConnection(s1, b), a, b, c, {a, b}, [UserCount(1), UserCount(2)], [UserCount(2)], [])
  {
    assert AfterConnection(s1, b).clients == {a, b} && |{a, b}| == 2;
    ConnectionAnnouncesCount(s1, b, a);
    ConnectionAnnouncesCount(s1, b, b);
    ConnectionAnnouncesCount(s1, b, c);
  }

  lemma ScenarioJoinC(s2: RelayState, a: ClientId, b: ClientId, c: ClientId)
    requires a != b && b != c && a != c
    requires IsOpen(s2.readyState, a) && IsOpen(s2.readyState, b) && IsOpen(s2.readyState, c)
    requires Observed(s2, a, b, c, {a, b}, [UserCount(1), UserCount(2)], [UserCount(2)], [])
    ensures AfterConnection(s2, c).readyState == s2.readyState
    ensures Observed(AfterConnection(s2, c), a, b, c, {a, b, c},
      [UserCount(1), UserCount(2), UserCount(3)], [UserCount(2), UserCount(3)], [UserCount(3)])
  {
    assert AfterConnection(s2, c).clients == {a, b, c} && |{a, b, c}| == 3;
    ConnectionAnnouncesCount(s2, c, a);
    ConnectionAnnouncesCount(s2, c, b);
    ConnectionAnnouncesCount(s2, c, c);
  }

  lemma ScenarioStrokeFromA(s3: RelayState, a: ClientId, b: ClientId, c: ClientId, stroke: Payload)
    requires a != b && b != c && a != c
    requires IsOpen(s3.readyState, a) && IsOpen(s3.readyState, b) && IsOpen(s3.readyState, c)
    requires Observed(s3, a, b, c, {a, b, c},
      [UserCount(1), UserCount(2), UserCount(3)], [UserCount(2), UserCount(3)], [UserCount(3)])
    ensures AfterMessage(s3, a, stroke).readyState == s3.readyState
    ensures Observed(AfterMessage(s3, a, stroke), a, b, c, {a, b, c},
      [UserCount(1), UserCount(2), UserCount(3)], [UserCount(2), UserCount(3), Opaque(stroke)], [UserCount(3), Opaque(stroke)])
  {
    MessageReachesOtherOpenMembers(s3, a, stroke, a);
    MessageReachesOtherOpenMembers(s3, a, stroke, b);
    MessageReachesOtherOpenMembers(s3, a, stroke, c);
  }

  lemma ScenarioLeaveB(s4: RelayState, a: ClientId, b: ClientId, c: ClientId, stroke: Payload)
    requires a != b && b != c && a != c
    requires IsOpen(s4.readyState, a) && IsOpen(s4.readyState, c)
    requires Observed(s4, a, b, c, {a, b, c},
      [UserCount(1), UserCount(2), UserCount(3)], [UserCount(2), UserCount(3), Opaque(stroke)], [UserCount(3), Opaque(stroke)])
    ensures var s6 := AfterClose(AfterStateChange(s4, b, Closed), b);
      && IsOpen(s6.readyState, a) && IsOpen(s6.readyState, c)
      && Observed(s6, a, b, c, {a, c},
        [UserCount(1), UserCount(2), UserCount(3), UserCount(2)],
        [UserCount(2), UserCount(3), Opaque(stroke)],
        [UserCount(3), Opaque(stroke), UserCount(2)])
  {
    var s5 := AfterStateChange(s4, b, Closed);
    assert AfterClose(s5, b).clients == {a, c} && |{a, c}| == 2;
    CloseAnnouncesCount(s5, b, a);
    CloseAnnouncesCount(s5, b, b);
    CloseAnnouncesCount(s5, b, c);
  }

  lemma ScenarioLaterFromC(s6: RelayState, a: ClientId, b: ClientId, c: ClientId, stroke: Payload, later: Payload)
    requires a != b && b != c && a != c
    requires IsOpen(s6.readyState, a) && IsOpen(s6.readyState, c)
    requires Observed(s6, a, b, c, {a, c},
      [UserCount(1), UserCount(2), UserCount(3), UserCount(2)],
      [UserCount(2), UserCount(3), Opaque(stroke)],
      [UserCount(3), Opaque(stroke), UserCount(2)])
    ensures Observed(AfterMessage(s6, c, later), a, b, c, {a, c},
      [UserCount(1), UserCount(2), UserCount(3), UserCount(2), Opaque(later)],
      [UserCount(2), UserCount(3), Opaque(stroke)],
      [UserCount(3), Opaque(stroke), UserCount(2)])
  {
    MessageReachesOtherOpenMembers(s6, c, later, a);
    MessageReachesOtherOpenMembers(s6, c, later, b);
    MessageReachesOtherOpenMembers(s6, c, later, c);
  }

  /**
   Three sockets a, b, c connect in turn; a sends a stroke frame; b's socket
   closes; c sends a frame. Each socket is sent the counts from its own join
   on, a's frame reaches b and c but not a, b's leaving is announced to a and
   c with count 2, and c's frame then reaches a only.
   */
  lemma ThreeParticipants(s0: RelayState, a: ClientId, b: ClientId, c: ClientId, stroke: Payload, later: Payload)
    requires ScenarioStart(s0, a, b, c)
    ensures Observed(
      Replay(s0, [Connection(a), Connection(b), Connection(c), Message(a, stroke), StateChange(b, Closed), Close(b), Message(c, later)]),
      a, b, c, {a, c},
      [UserCount(1), UserCount(2), UserCount(3), UserCount(2), Opaque(later)],
      [UserCount(2), UserCount(3), Opaque(stroke)],
      [UserCount(3), Opaque(stroke), UserCount(2)])
  {
    ScenarioSteps(s0, a, b, c, stroke, later);
    ScenarioJoinA(s0, a, b, c);
    var s1 := AfterConnection(s0, a);
    ScenarioJoinB(s1, a, b, c);
    var s2 := AfterConnection(s1, b);
    ScenarioJoinC(s2, a, b, c);
    var s3 := AfterConnection(s2, c);
    ScenarioStrokeFromA(s3, a, b, c, stroke);
    var s4 := AfterMessage(s3, a, stroke);
    ScenarioLeaveB(s4, a, b, c, stroke);
    var s6 := AfterClose(AfterStateChange(s4, b, Closed), b);
    ScenarioLaterFromC(s6, a, b, c, stroke, later);
  }
}
