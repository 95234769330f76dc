# Shared-graph relay (server.js) in Dafny

This project models the WebSocket relay in `server.js`. The relay keeps two
module-level arrays. `players` holds the open sockets and `graph` holds the
shared list of nodes. It has three event handlers:

- **connection** (lines 7-9 and 25): stamp the socket with
  `Date.now() + Math.random()`, append it to `players`, then send it
  `{type: 'updateGraph', graph}`;
- **message** (lines 11-18): if the parsed frame's `type` is `'nodeChoice'`,
  append `{id: Date.now(), player: ws.id, color, word}` to `graph` and
  `broadcast` the whole graph. Any other frame is ignored;
- **close** (lines 20-22): `players = players.filter(p => p !== ws)`.

`broadcast` (lines 28-30) sends the message to every socket in `players`, in
order.

Node runs each handler to completion, one at a time, so the relay is a
sequential state machine. The model has two layers:

- `relay_spec.dfy` (module `RelaySpec`) states the relay on values. It has the
  frames as datatypes, the state `State(players, graph, sent)`, and one
  transition function per handler (`ConnectStep`, `MessageStep`,
  `CloseStep`). `sent` is the wire: every frame passed to `ws.send`, in
  sending order, with its recipient. The lemmas state what the handlers
  promise and an invariant that every reachable state keeps.
- `relay_server.dfy` (module `RelayServer`) is the imperative relay. Class
  `Server` has the fields `players` and `graph`, and a ghost field `sent`
  that records what was sent. Its methods
  `Connect`, `OnMessage`, `OnClose` and `Broadcast` update them in place, and
  `Broadcast` is a loop over `players`. Each handler method is proved to make
  exactly the matching `RelaySpec` transition and to keep the invariant.

`wrappers.dfy` holds `Option`. It models a JavaScript property that may be
`undefined`.

Inputs the handlers take from the environment are method parameters:

- the socket object's identity is `Socket.handle`;
- the `Date.now() + Math.random()` stamp is `stamp` (it becomes `Socket.id`);
- the `Date.now()` node id is `now`.

The transport only reports a connection for a new socket. `Connect` therefore
requires that no registered socket and no earlier frame has the new socket's
handle (`Fresh`).

The model follows the code:

- The message handler checks only `type`. A `nodeChoice` frame without `color`
  or `word` is still appended and broadcast. `ExampleMissingWordAndLateJoin`
  shows this.
- There is no duplicate-registration error, no bounded queue or backpressure,
  and no isolation of a failed `send`.
- Node ids are `Date.now()`, so two nodes appended in the same millisecond
  share an id. The model proves nothing about id uniqueness.

## Model

| member | source | states |
|---|---|---|
| `RelaySpec.WithoutMembers` | server.js:21 | The filtered list holds exactly the sockets of `players` other than `ws`. It is `players` itself when `ws` is not registered. |
| `RelaySpec.WithoutAt` | server.js:21 | With no duplicates, removing the socket at index k leaves `players[..k] + players[k+1..]`. The other sockets keep their relative order. |
| `RelaySpec.WithoutNoDup` | server.js:21 | Filtering a duplicate-free list keeps it duplicate-free. |
| `RelaySpec.FanoutAt` | server.js:28-30 | `broadcast` sends exactly one frame per registered socket. The i-th frame goes to `players[i]` and carries the message. |
| `RelaySpec.InboxFanout` | server.js:28-30 | Seen from one socket, a broadcast to a duplicate-free `players` delivers the message once if the socket is registered and never otherwise. |
| `RelaySpec.InboxAppend` | server.js:25-29 | A socket's inbox over two stretches of the wire is the inbox over the first followed by the inbox over the second. |
| `RelaySpec.InboxMember` | server.js:25-29 | A frame is in a socket's inbox if and only if the wire holds a delivery of that frame to that socket. |
| `RelaySpec.InboxChained` | server.js:15-25 | If the graphs on the wire grow by prefix in sending order, the graphs any one socket received also form a prefix chain. |
| `RelaySpec.ConnectInbox` | server.js:25 | On connection, the new socket's inbox gains the current graph and every other socket's inbox is unchanged. |
| `RelaySpec.ConnectSpec` | server.js:7-25 | A fresh socket is appended to the end of `players` and the graph is unchanged. Exactly one frame is sent. The new socket's whole inbox is that one snapshot of the current graph, and no other socket's inbox changes. |
| `RelaySpec.NodeChoiceInbox` | server.js:14-16 | After an accepted `nodeChoice`, a socket's inbox gains the new full graph once if the socket is registered, and nothing otherwise. |
| `RelaySpec.NodeChoiceSpec` | server.js:14-16 | A `nodeChoice` frame appends exactly one node. The node has id `now`, player = sender's `id`, and the frame's `color` and `word`, possibly absent. Earlier nodes and `players` are unchanged. The old wire is kept, and one frame per registered socket follows in `players` order, each carrying the new graph. |
| `RelaySpec.OtherMessageSpec` | server.js:14 | A frame whose `type` is not `'nodeChoice'` changes nothing and sends nothing. |
| `RelaySpec.CloseSpec` | server.js:20-22 | Close removes the socket from `players`. Every other socket stays registered, in the same order. The graph and the wire are unchanged. Closing an unregistered socket is a no-op, so closing twice equals closing once. |
| `RelaySpec.InvStep` | server.js:7-30 | Every handler keeps the invariant. The invariant says `players` has no duplicates, the graphs sent grow by prefix in sending order, and each graph sent is a prefix of the current graph. |
| `RelaySpec.RunGrows` | server.js:5-15 | Over any sequence of handler runs, the old graph is a prefix of the new one. The graph only grows and is never reordered. |
| `RelaySpec.RunInv` | server.js:7-30 | Any admissible sequence of handler runs from a state that satisfies the invariant ends in a state that satisfies it. |
| `RelaySpec.RunAppend` | server.js:7-30 | Running two stretches of events equals running the first and then the second. The pair is admissible exactly when each stretch is admissible from where it starts. |
| `RelaySpec.RunInboxGrows` | server.js:15-29 | Over any run of handlers, a socket's earlier inbox is a prefix of its later inbox: no frame is ever withdrawn or reordered. |
| `RelaySpec.FirstFrameIsJoinSnapshot` | server.js:7-25 | Whatever happens before and after a socket connects, the first frame it is ever sent is the graph as it stood when it joined. |
| `RelaySpec.ReachableChains` | server.js:14-25 | In every state reachable from process start, `players` has no duplicates. The graphs any one socket was sent form a prefix-ordered chain, and each is a prefix of the current graph. |
| `RelaySpec.ExampleFirstChoice` | server.js:7-30 | Three clients connect and the first picks a red "hope" node. Each client gets the empty graph and then the one-node graph. A fourth client that has not connected is sent nothing. |
| `RelaySpec.ExampleMissingWordAndLateJoin` | server.js:14-25 | A `nodeChoice` without `word` is still appended and broadcast to all three clients. After one client closes and another joins, the newcomer's only frame is the two-node graph. |
| `RelaySpec.ExampleClosedClientLeftOut` | server.js:14-30 | A later `nodeChoice` is broadcast to the three registered clients only. The closed client's inbox stays as it was. |
| `RelayServer.Server.constructor` | server.js:4-5 | At process start `players` and `graph` are empty and nothing has been sent. |
| `RelayServer.Server.Connect` | server.js:7-25 | The handler makes exactly the `ConnectStep` transition and keeps the invariant. The returned socket carries the given stamp as its `id`. |
| `RelayServer.Server.Broadcast` | server.js:28-30 | The loop appends to the wire exactly one delivery per registered socket, in `players` order. `players` and `graph` are unchanged. |
| `RelayServer.Server.OnMessage` | server.js:11-18 | The handler makes exactly the `MessageStep` transition and keeps the invariant. |
| `RelayServer.Server.OnClose` | server.js:20-22 | The handler makes exactly the `CloseStep` transition and keeps the invariant. |

## Left out

- WebSocket transport, port binding and the start-up `console.log` (server.js:2-3, 32): I/O plumbing. A send is modelled as an entry on the wire (`sent`).
- JSON parsing and serialisation (server.js:13, 25, 29): frames are datatypes. A frame that `JSON.parse` rejects makes the handler throw, and is outside the model. So is a frame that parses to `null`.
- Frame fields whose JSON value is not a string: `color`, `word` and `type` are modelled as `Option<string>`. Any other value of `type` fails the `=== 'nodeChoice'` check, just like an absent one.
- `Date.now()` and `Math.random()` (server.js:8, 15): they are parameters (`stamp`, `now`). Node-id uniqueness is not claimed, because the code does not provide it.
- Failing `ws.send` and sockets that close while a broadcast is running: the code does not handle them, and both are transport behaviour. Every send is assumed to reach the wire.
- A message arriving on an already-closed socket: the transport never delivers one. If it did, `OnMessage` would behave as the code does: it would append the node and broadcast to the registered sockets.
- `RelaySpec.NodeChoiceSpec`: its per-socket "exactly once" clause requires `players` to be duplicate-free. Every reachable state satisfies this (`ReachableChains`).
- echosoul.js, app.js and functions/index.js are not part of this model. They are database, payment, authentication and UI glue over external services.
