/**
 The relay of the collaborative whiteboard server: a registry of connected
 sockets (`clients`), the fan-out of every inbound message to all other OPEN
 members, and the participant-count broadcast after every join and leave.

 The state is the registry, the transport-owned `readyState` of every socket
 and, per socket, the ordered sequence of messages the relay has handed to
 `send` (its outbox). The handlers are first given as pure step functions on
 that state; the class `RelayServer` then runs them step by step, as the
 event loop does, and is proved to agree with the step functions.
 */
module Relay {
  import opened Transport

  /** A socket's identity; `client !== ws` in the source compares identities. */
  type ClientId = nat

  /** The raw frame the relay receives and forwards without reading it. */
  type Payload = seq<bv8>

  /** What the relay puts on a socket: a forwarded frame, or its own count. */
  datatype Msg = Opaque(payload: Payload) | UserCount(count: nat)

  datatype RelayState = RelayState(
    clients: set<ClientId>,
    readyState: map<ClientId, ReadyState>,
    outbox: map<ClientId, seq<Msg>>)

  /** Everything sent so far to `c`, oldest first; empty for a socket never sent to. */
  function Outbox(boxes: map<ClientId, seq<Msg>>, c: ClientId): seq<Msg>
  {
    if c in boxes then boxes[c] else []
  }

  /** `client.readyState === WebSocket.OPEN`; a socket the transport reports nothing for is not open. */
  predicate IsOpen(readyState: map<ClientId, ReadyState>, c: ClientId)
  {
    c in readyState && CanSend(readyState[c])
  }

  /** One `client.send(m)`: `m` is appended to that client's outbox. */
  function Send(boxes: map<ClientId, seq<Msg>>, c: ClientId, m: Msg): map<ClientId, seq<Msg>>
  {
    boxes[c := Outbox(boxes, c) + [m]]
  }

  /** `m` appended once to the outbox of every socket in `targets`. */
  function Fanout(boxes: map<ClientId, seq<Msg>>, targets: set<ClientId>, m: Msg): (r: map<ClientId, seq<Msg>>)
    ensures forall c :: Outbox(r, c) == Outbox(boxes, c) + (if c in targets then [m] else [])
  {
    map c | c in boxes.Keys + targets :: Outbox(boxes, c) + (if c in targets then [m] else [])
  }

  /** Recipients of a frame from `sender`: the other members that are OPEN. */
  function RelayTargets(s: RelayState, sender: ClientId): set<ClientId>
  {
    set c | c in s.clients && c != sender && IsOpen(s.readyState, c)
  }

  /** Recipients of the count: every member that is OPEN. */
  function CountTargets(s: RelayState): set<ClientId>
  {
    set c | c in s.clients && IsOpen(s.readyState, c)
  }

  /** `broadcastUserCount`: the current registry size to every OPEN member. */
  function Broadcast(s: RelayState): (t: RelayState)
    ensures t.clients == s.clients && t.readyState == s.readyState
    ensures forall c {:trigger Outbox(t.outbox, c)} :: Outbox(t.outbox, c) == Outbox(s.outbox, c) + (if c in s.clients && IsOpen(s.readyState, c) then [UserCount(|s.clients|)] else [])
  {
    s.(outbox := Fanout(s.outbox, CountTargets(s), UserCount(|s.clients|)))
  }

  /** The `connection` handler: register the socket, then broadcast the count. */
  function AfterConnection(s: RelayState, ws: ClientId): (t: RelayState)
    ensures t.clients == s.clients + {ws} && t.readyState == s.readyState
    ensures forall c {:trigger Outbox(t.outbox, c)} :: Outbox(t.outbox, c) == Outbox(s.outbox, c) + (if c in t.clients && IsOpen(s.readyState, c) then [UserCount(|t.clients|)] else [])
    ensures ws in s.clients ==> t == Broadcast(s)
  {
    assert ws in s.clients ==> s.clients + {ws} == s.clients;
    Broadcast(s.(clients := s.clients + {ws}))
  }

  /** The `message` handler of socket `ws`: forward the frame to the other OPEN members. */
  function AfterMessage(s: RelayState, ws: ClientId, message: Payload): (t: RelayState)
    ensures t.clients == s.clients && t.readyState == s.readyState
    ensures forall c {:trigger Outbox(t.outbox, c)} :: Outbox(t.outbox, c) == Outbox(s.outbox, c) + (if c in s.clients && c != ws && IsOpen(s.readyState, c) then [Opaque(message)] else [])
  {
    s.(outbox := Fanout(s.outbox, RelayTargets(s, ws), Opaque(message)))
  }

  /** The `close` handler of socket `ws`: unregister it, then broadcast the count. */
  function AfterClose(s: RelayState, ws: ClientId): (t: RelayState)
    ensures t.clients == s.clients - {ws} && t.readyState == s.readyState
    ensures forall c {:trigger Outbox(t.outbox, c)} :: Outbox(t.outbox, c) == Outbox(s.outbox, c) + (if c in t.clients && IsOpen(s.readyState, c) then [UserCount(|t.clients|)] else [])
    ensures ws !in s.clients ==> t == Broadcast(s)
  {
    Broadcast(s.(clients := s.clients - {ws}))
  }

  /** The `error` handler only logs. */
  function AfterError(s: RelayState, ws: ClientId): (t: RelayState)
    ensures t.clients == s.clients && t.readyState == s.readyState
    ensures forall c {:trigger Outbox(t.outbox, c)} :: Outbox(t.outbox, c) == Outbox(s.outbox, c)
  {
    s
  }

  /** The transport moving a socket to another `readyState`; the relay has no say in it. */
  function AfterStateChange(s: RelayState, ws: ClientId, state: ReadyState): RelayState
  {
    s.(readyState := s.readyState[ws := state])
  }

  /** The handler invocations Node's event loop runs, one at a time. */
  datatype Event =
    | Connection(ws: ClientId)
    | Message(ws: ClientId, message: Payload)
    | Close(ws: ClientId)
    | Error(ws: ClientId)
    | StateChange(ws: ClientId, state: ReadyState)

  function Step(s: RelayState, e: Event): RelayState
  {
    match e
    case Connection(ws) => AfterConnection(s, ws)
    case Message(ws, message) => AfterMessage(s, ws, message)
    case Close(ws) => AfterClose(s, ws)
    case Error(ws) => AfterError(s, ws)
    case StateChange(ws, state) => AfterStateChange(s, ws, state)
  }

  /** The state after running `events` in order, the last one last. */
  function Replay(s: RelayState, events: seq<Event>): RelayState
    decreases |events|
  {
    if events == [] then s else Step(Replay(s, events[..|events| - 1]), events[|events| - 1])
  }

  /** A fan-out to nobody sends nothing. */
  lemma FanoutNone(boxes: map<ClientId, seq<Msg>>, m: Msg)
    ensures Fanout(boxes, {}, m) == boxes
  {
    var r := Fanout(boxes, {}, m);
    assert r.Keys == boxes.Keys;
    forall k | k in r.Keys
      ensures r[k] == boxes[k]
    {
      assert Outbox(r, k) == r[k];
    }
  }

  /** Adding one more target to a fan-out is one more send. */
  lemma FanoutExtend(boxes: map<ClientId, seq<Msg>>, targets: set<ClientId>, c: ClientId, m: Msg)
    requires c !in targets
    ensures Fanout(boxes, targets + {c}, m) == Send(Fanout(boxes, targets, m), c, m)
  {
    var lhs := Fanout(boxes, targets + {c}, m);
    var rhs := Send(Fanout(boxes, targets, m), c, m);
    assert lhs.Keys == rhs.Keys;
    forall k | k in lhs.Keys
      ensures lhs[k] == rhs[k]
    {
      assert Outbox(lhs, k) == lhs[k] && Outbox(rhs, k) == rhs[k];
    }
  }

  /** Visiting one more pending socket: a send exactly when it is a target. */
  lemma FanoutVisit(boxes: map<ClientId, seq<Msg>>, targets: set<ClientId>, pending: set<ClientId>, client: ClientId, m: Msg)
    requires client in pending
    ensures Fanout(boxes, targets - (pending - {client}), m)
      == if client in targets then Send(Fanout(boxes, targets - pending, m), client, m) else Fanout(boxes, targets - pending, m)
  {
    if client in targets {
      assert targets - (pending - {client}) == (targets - pending) + {client};
      FanoutExtend(boxes, targets - pending, client, m);
    } else {
      assert targets - (pending - {client}) == targets - pending;
    }
  }

  /**
   The relay as the server process holds it: the module-level `clients` set,
   the sockets' `readyState` as the transport reports it, and what was sent.
   */
  class RelayServer {
    var clients: set<ClientId>
    var readyState: map<ClientId, ReadyState>
    var outbox: map<ClientId, seq<Msg>>

    function View(): RelayState
      reads this
    {
      RelayState(clients, readyState, outbox)
    }

    /** `const clients = new Set()`: nobody connected, nothing sent. */
    constructor ()
      ensures View() == RelayState({}, map[], map[])
    {
      clients := {};
      readyState := map[];
      outbox := map[];
    }

    /** `client.send(m)`. */
    method SendTo(client: ClientId, m: Msg)
      modifies this`outbox
      ensures outbox == Send(old(outbox), client, m)
    {
      outbox := outbox[client := Outbox(outbox, client) + [m]];
    }

    /** `broadcastUserCount`: `clients.forEach` sending the size to each OPEN member. */
    method BroadcastUserCount()
      modifies this`outbox
      ensures View() == Broadcast(old(View()))
    {
      var message := UserCount(|clients|);
      ghost var targets := CountTargets(View());
      var pending := clients;
      assert targets - pending == {};
      FanoutNone(outbox, message);
      while pending != {}
        invariant pending <= clients
        invariant outbox == Fanout(old(outbox), targets - pending, message)
        decreases pending
      {
        var client :| client in pending;
        FanoutVisit(old(outbox), targets, pending, client, message);
        assert client in targets <==> client in readyState && readyState[client] == Open;
        if client in readyState && readyState[client] == Open {
          SendTo(client, message);
        }
        pending := pending - {client};
      }
      assert targets - pending == targets;
    }

    /** The `connection` handler: `clients.add(ws)`, then the count broadcast. */
    method OnConnection(ws: ClientId)
      modifies this`clients, this`outbox
      ensures View() == AfterConnection(old(View()), ws)
    {
      clients := clients + {ws};
      BroadcastUserCount();
    }

    /** The `message` handler of `ws`: forward the frame to every other OPEN member. */
    method OnMessage(ws: ClientId, message: Payload)
      modifies this`outbox
      ensures View() == AfterMessage(old(View()), ws, message)
    {
      ghost var targets := RelayTargets(View(), ws);
      var pending := clients;
      assert targets - pending == {};
      FanoutNone(outbox, Opaque(message));
      while pending != {}
        invariant pending <= clients
        invariant outbox == Fanout(old(outbox), targets - pending, Opaque(message))
        decreases pending
      {
        var client :| client in pending;
        FanoutVisit(old(outbox), targets, pending, client, Opaque(message));
        assert client in targets <==> client != ws && client in readyState && readyState[client] == Open;
        if client != ws && client in readyState && readyState[client] == Open {
          SendTo(client, Opaque(message));
        }
        pending := pending - {client};
      }
      assert targets - pending == targets;
    }

    /** The `close` handler of `ws`: `clients.delete(ws)`, then the count broadcast. */
    method OnClose(ws: ClientId)
      modifies this`clients, this`outbox
      ensures View() == AfterClose(old(View()), ws)
    {
      clients := clients - {ws};
      BroadcastUserCount();
    }

    /** The `error` handler of `ws`: it only logs. */
    method OnError(ws: ClientId)
      ensures View() == AfterError(old(View()), ws)
    {
    }

    /** The transport changing a socket's `readyState`. */
    method OnStateChange(ws: ClientId, state: ReadyState)
      modifies this`readyState
      ensures View() == AfterStateChange(old(View()), ws, state)
    {
      readyState := readyState[ws := state];
    }
  }
}
