# Real-time collaborative whiteboard: relay and client state, in Dafny

This project models the two halves of a shared drawing board.

- **The relay** (`server.js`) is a WebSocket server. It keeps the set `clients` of connected sockets. On `connection` it adds the socket and broadcasts `{type:'userCount', count}` with `count = clients.size` to every member whose `readyState` is OPEN. On `message` it forwards the frame unchanged to every *other* OPEN member. On `close` it deletes the socket and broadcasts the count again. On `error` it only logs.
- **The browser client** (`public/app.js`, class `CollaborativeWhiteboard`) has a pen state machine (`isDrawing`, `lastX`/`lastY`) and tools (colour, brush size, an eraser that paints with the sentinel colour `#0f0f0f`). It drops outgoing messages unless its socket is OPEN, routes incoming messages by `type`, and shows the participant count as "1 user" or "N users".

Files:

- `transport.dfy`: module `Transport`, the four `readyState` values and the OPEN test used before every send.
- `relay.dfy`: module `Relay`. The relay state is the registry, the transport-owned `readyState` map and, per socket, the ordered sequence of messages handed to `send` (its outbox). The handlers are written as step functions (`AfterConnection`, `AfterMessage`, `AfterClose`, `AfterError`). Class `RelayServer` holds the same three pieces of state as fields. Its methods run the handlers step by step, with the two `forEach` loops written as `while` loops over the pending members. Each method is proved equal to its step function. `Event`, `Step` and `Replay` describe the event loop running handlers one at a time.
- `relay_properties.dfy`: module `RelayProperties`, the guarantees of the relay. They cover membership, who receives counts and frames, no echo, no delivery after close, N distinct joins giving size N, and a three-participant scenario.
- `whiteboard.dfy`: module `Whiteboard`. It holds the pure parts of the client: stroke colour, send gate, `onmessage` dispatch, and the count label with decimal rendering. Class `CollaborativeWhiteboard` holds the pen, tools, socket state, outbox (`sent`), a log of what the canvas was asked to draw (`canvas`) and the label text.

The transport is an input. `RelayServer.OnStateChange` and `CollaborativeWhiteboard.OnSocketState` let the environment move a socket between CONNECTING, OPEN, CLOSING and CLOSED. The relay and client only read that state.

Three behaviours of the code that the model keeps as written:

- A failed send does not remove the member. Only `close` deletes from `clients`. The `error` handler changes nothing.
- Adding a socket that is already a member leaves the registry unchanged, because `Set.add` is idempotent, but the count is still broadcast again. Closing a socket that is not a member behaves the same way.
- A newly connected socket is sent the counts from its own join onward, not the counts of earlier joins. In the three-participant scenario, A sees 1, 2, 3, B sees 2, 3, and C sees 3.

## Model

| member | source | states |
|---|---|---|
| Relay.Fanout | 01-realtime-whiteboard/server.js:50-54 | one pass over the targets: each target's outbox gains the message once at its end, and every other outbox is unchanged |
| Relay.Broadcast | 01-realtime-whiteboard/server.js:44-55 | the registry and socket states are unchanged; each OPEN member gets `UserCount` of the current size appended, and no other socket gets anything |
| Relay.AfterConnection | 01-realtime-whiteboard/server.js:17-22 | the registry becomes the old one plus `ws`; each OPEN member of the new registry, `ws` included, gets the new size; re-adding a member is just a count broadcast |
| Relay.AfterMessage | 01-realtime-whiteboard/server.js:24-31 | the registry and states are unchanged; the frame is appended to each OPEN member other than the sender, and nobody else gets anything |
| Relay.AfterClose | 01-realtime-whiteboard/server.js:33-37 | the registry loses `ws`; each remaining OPEN member gets the size after removal; closing a non-member is just a count broadcast |
| Relay.AfterError | 01-realtime-whiteboard/server.js:39-41 | the registry, the states and every outbox are unchanged |
| Relay.RelayServer.constructor | 01-realtime-whiteboard/server.js:14 | the registry starts empty and nothing has been sent |
| Relay.RelayServer.SendTo | 01-realtime-whiteboard/server.js:28 | `send` appends the message to exactly that socket's outbox |
| Relay.RelayServer.BroadcastUserCount | 01-realtime-whiteboard/server.js:44-55 | after the loop, every OPEN member's outbox has one more `UserCount(|clients|)` and no other outbox changed |
| Relay.RelayServer.OnConnection | 01-realtime-whiteboard/server.js:17-22 | the new state is the old registry plus `ws`, followed by the count broadcast |
| Relay.RelayServer.OnMessage | 01-realtime-whiteboard/server.js:24-31 | after the loop, the frame is appended once to every other OPEN member's outbox; registry and states are unchanged |
| Relay.RelayServer.OnClose | 01-realtime-whiteboard/server.js:33-37 | the new state is the old registry minus `ws`, followed by the count broadcast |
| Relay.RelayServer.OnError | 01-realtime-whiteboard/server.js:39-41 | the error handler leaves registry, states and every outbox as they were |
| RelayProperties.ConnectionAddsMember | 01-realtime-whiteboard/server.js:17-22 | `ws` becomes a member; the size grows by one exactly when it was new; re-adding a member leaves the registry unchanged, and the count is broadcast again |
| RelayProperties.ConnectionAnnouncesCount | 01-realtime-whiteboard/server.js:44-55 | after a join, each OPEN member, the new one included, gets exactly one count equal to the new size; every other outbox is unchanged |
| RelayProperties.MessageReachesOtherOpenMembers | 01-realtime-whiteboard/server.js:26-30 | a frame is appended unchanged, exactly once, to each other OPEN member and to no one else |
| RelayProperties.NoEcho | 01-realtime-whiteboard/server.js:27 | the sender's outbox is unchanged by relaying its own frame |
| RelayProperties.MessageKeepsMembership | 01-realtime-whiteboard/server.js:24-31 | relaying changes neither `clients` nor any `readyState` |
| RelayProperties.CloseRemovesMember | 01-realtime-whiteboard/server.js:33-37 | `ws` is removed and the size drops by one exactly when it was a member; closing a non-member, or closing twice, leaves the registry unchanged, and the count is broadcast again |
| RelayProperties.CloseAnnouncesCount | 01-realtime-whiteboard/server.js:33-37 | after a close, each remaining OPEN member gets one count equal to the size after removal; the closed socket gets nothing |
| RelayProperties.OnlyOpenMembersReceive | 01-realtime-whiteboard/server.js:24-55 | for every handler, a socket that is not OPEN or not a member receives nothing |
| RelayProperties.OthersKeepMembership | 01-realtime-whiteboard/server.js:17-42 | over any run, only `connection` and `close` events change the registry |
| RelayProperties.NothingAfterLeaving | 01-realtime-whiteboard/server.js:33-37 | once a socket has left, nothing is appended to its outbox over any later run that does not reconnect it |
| RelayProperties.NothingAfterClose | 01-realtime-whiteboard/server.js:33-37 | the same property, starting from the `close` handler |
| RelayProperties.DistinctConnectionsSize | 01-realtime-whiteboard/server.js:17-22 | N joins of distinct new sockets leave exactly the old members plus those sockets, so the size grows by N |
| RelayProperties.LastConnectionAnnouncesSize | 01-realtime-whiteboard/server.js:44-55 | after N distinct joins, every OPEN member's last message is the final size |
| RelayProperties.ThreeParticipants | 01-realtime-whiteboard/server.js:17-55 | the A, B, C scenario: exact outbox of each socket after three joins, a frame from A, B's close and a frame from C |
| Whiteboard.Dispatch | 01-realtime-whiteboard/public/app.js:42-51 | `userCount`, `draw` and `clear` each select their own handler (in both directions); every other type has no effect |
| Whiteboard.StrokeColor | 01-realtime-whiteboard/public/app.js:158-168 | with the eraser on, the stroke colour is the sentinel `#0f0f0f`; otherwise it is the picked colour |
| Whiteboard.Transmit | 01-realtime-whiteboard/public/app.js:203-211 | on an OPEN socket the message is appended once at the end of what was sent; on any other state nothing is added; earlier messages stay as they were |
| Whiteboard.CountLabel | 01-realtime-whiteboard/public/app.js:216 | the label is the decimal count followed by " user" when the count is 1 and " users" otherwise, 0 included; so it ends in 's' exactly when the count is not 1 |
| Whiteboard.CountLabelOne | 01-realtime-whiteboard/public/app.js:214-216 | a count of 1 shows "1 user" |
| Whiteboard.CountLabelInjective | 01-realtime-whiteboard/public/app.js:214-216 | different counts never show the same label |
| Whiteboard.DecimalRoundTrip | 01-realtime-whiteboard/public/app.js:216 | reading back the decimal rendering of a count gives the count |
| Whiteboard.CollaborativeWhiteboard.constructor | 01-realtime-whiteboard/public/app.js:2-13 | the pen is up, colour `#000000`, size 3, eraser off, the socket is CONNECTING, nothing is sent or drawn |
| Whiteboard.CollaborativeWhiteboard.StartDrawing | 01-realtime-whiteboard/public/app.js:145-150 | `isDrawing` becomes true and the position is recorded as the last position |
| Whiteboard.CollaborativeWhiteboard.Draw | 01-realtime-whiteboard/public/app.js:152-174 | with the pen up nothing changes and nothing is sent; with the pen down, one segment is drawn and sent (through the OPEN gate) in eraser or picked colour at `brushSize`, then the last position advances |
| Whiteboard.CollaborativeWhiteboard.StopDrawing | 01-realtime-whiteboard/public/app.js:176-178 | `isDrawing` becomes false |
| Whiteboard.CollaborativeWhiteboard.PickColor | 01-realtime-whiteboard/public/app.js:111-113 | the picked colour becomes current and the eraser is switched off |
| Whiteboard.CollaborativeWhiteboard.ToggleEraser | 01-realtime-whiteboard/public/app.js:118-119 | the eraser flag is negated |
| Whiteboard.ToggleEraserTwice | 01-realtime-whiteboard/public/app.js:118-119 | two clicks on the eraser button restore the flag |
| Whiteboard.CollaborativeWhiteboard.SetBrushSize | 01-realtime-whiteboard/public/app.js:106-107 | the slider's value becomes the brush size |
| Whiteboard.CollaborativeWhiteboard.ClickClear | 01-realtime-whiteboard/public/app.js:129-133 | unconfirmed: nothing happens; confirmed: the local canvas is cleared, then exactly `{type:'clear'}` is sent (through the OPEN gate) |
| Whiteboard.CollaborativeWhiteboard.ClearCanvas | 01-realtime-whiteboard/public/app.js:198-200 | one wipe is recorded on the canvas |
| Whiteboard.CollaborativeWhiteboard.SendDrawData | 01-realtime-whiteboard/public/app.js:202-206 | the draw message is appended only when the socket is OPEN, and dropped otherwise |
| Whiteboard.CollaborativeWhiteboard.SendClearMessage | 01-realtime-whiteboard/public/app.js:208-212 | `{type:'clear'}` is appended only when the socket is OPEN, and dropped otherwise |
| Whiteboard.CollaborativeWhiteboard.UpdateUserCount | 01-realtime-whiteboard/public/app.js:214-217 | the label text becomes the count with its plural rule |
| Whiteboard.CollaborativeWhiteboard.OnMessage | 01-realtime-whiteboard/public/app.js:42-52 | `userCount` changes only the label, `draw` adds the remote segment, `clear` wipes, any other type changes nothing |

## Left out

- The Express static server, HTTP server creation, `PORT` and `listen` (`server.js` lines 1-11 and 57-60) are I/O plumbing.
- The WebSocket transport itself is left out: handshake, sockets, asynchronous delivery and real concurrency. `readyState` is an input the environment sets. Node's event loop runs one handler at a time, which is what `Replay` models.
- `JSON.stringify` and `JSON.parse` are left out. Messages are Dafny datatypes, and a forwarded frame is an uninterpreted byte sequence. A frame that fails `JSON.parse` in the client is not modelled.
- Console logging in every handler is left out.
- Canvas rendering and resizing (`initCanvas`, `drawLine`, `clearRect`) are left out. The model only records that a segment or a wipe was drawn.
- `getMousePos` and `drawFromRemote` are left out. They are floating-point conversions between screen, canvas and canvas-fraction coordinates.
- DOM wiring, touch-to-mouse translation, the eraser button's text and colour, `showStatus` and its timer, and the client's `onopen` and `onerror` handlers are left out. They only update the page or log.
- The 3-second reconnect in `onclose` is left out. A reconnect is a new socket, which the environment can model as a state change back to CONNECTING.
- `Whiteboard.CollaborativeWhiteboard.Draw`: the segment carries the positions as given. It does not divide `lastX`/`lastY` and the new position by the canvas width and height, as lines 164-167 do. Coordinates are opaque reals here.
- `Whiteboard.CollaborativeWhiteboard.SetBrushSize`: the size is an integer. The source stores the slider's value, which is a string in the browser.
- `Whiteboard.CollaborativeWhiteboard.constructor`: `lastX`/`lastY` start at 0 instead of `undefined`. Nothing reads them before `startDrawing` sets them.
- `Whiteboard.CountLabel`: counts are integers rendered in plain decimal. JavaScript's exponent notation for very large or non-integer numbers is not modelled.
