# Room-membership and signalling relay, modelled in Dafny

The system is a socket.io signalling server for browser peers. Clients join named rooms.
They can learn who else is present, and relay WebRTC offers and answers to one another.
They can also broadcast chat messages and keep a shared whiteboard document per room.
All of its logic sits in `index.js`: two `io.on("connection", ...)` handler blocks and the
in-memory tables they change:

- `users`: room id → insertion-ordered list of `{userId, user}` entries;
- `socketToRoom`: connection id → the room the connection last joined;
- `rooms`: room id → the last whiteboard document.

The model also keeps the transport's own state explicitly: the live connections, and the
socket.io groups ("rooms" in socket.io's terms) as a map from group name to member
connections. A connection joins the group named by its own id when it connects, and only a
`leave room` naming that id takes it out again. `io.to(x)` addresses the group named `x`,
whether `x` is a connection id or a room name. In the same way, as in socket.io 4,
`socket.broadcast` and `socket.to(room)` leave out every member of the group named by the
sender's id, not only the sender.

The project has five modules:

- `Members` (members.dfy): entries, and the `filter` that drops one connection's entries.
  Its lemmas state what the filter keeps: contents, order, multiplicity. They also prove
  that filtering twice changes nothing more.
- `Routing` (routing.dfy): the five ways an emit is addressed and the six outbound events.
  `Resolve` gives the live connections a target reaches. `Receives` gives the events one
  connection gets from a batch of emits, in order.
- `Relay` (relay.dfy): the tables as a value, with one step function per inbound event.
  Each returns the new tables and the emits. For `join room` and `disconnect`, both handler
  blocks run, the first block (index.js:19-68) before the second (index.js:82-112). The
  step function is that composition.
- `Properties` (properties.dfy): lemmas on the step functions. They cover who receives
  what, what each event leaves unchanged, repeated events, and a two-peer session.
- `Server` (server.dfy): the class `RelayState`, holding the tables as fields. It has one
  method per event. Each method updates the fields in place and returns the emits. Its
  `ensures` ties the new state and the emits to the matching `Relay` step function.

Payloads are opaque. One type parameter `P` stands for every forwarded value: display user,
signal, chat payload, whiteboard document. JavaScript's truthiness test on a stored document
(`if (rooms[roomID])`, index.js:91) becomes a predicate `truthy: P -> bool`. The class
receives it at construction. The key checks `if (users[roomID])` (index.js:21) and
`if (room)` (index.js:62) only ever see arrays, which are always truthy. So they are
modelled as key presence.

Some of the code's behaviour is easy to misread; the model keeps it as written:

- `join room` does not deduplicate. A second join by the same connection adds a second
  entry (`Properties.RejoinDuplicates`).
- Joining another room overwrites `socketToRoom`. The entry in the first room's list stays,
  and survives the later disconnect (`Properties.SwitchRoomLeavesStaleEntry`).
- `leave room` only changes the transport group. The entry in `users` stays
  (`Properties.LeaveStopsWhiteboard`).
- `disconnect` never deletes the `socketToRoom` entry. For a connection that never joined,
  it looks up the room `"undefined"`. That changes no list, since such a connection has no
  entry anywhere (`Properties.DisconnectWithoutRoom`).
- A connection that joined a room named by another connection's id does not hear that
  connection's `user left` (`Properties.DisconnectSkipsNamesakeRoom`). A connection that
  left the group named by its own id hears its own whiteboard updates
  (`Properties.SelfLeaverHearsOwnUpdate`).
- The `all users` reply drops every entry of the joiner, including stale ones from earlier
  joins. It is "the list before the join" only when the joiner had no entry there
  (`Properties.JoinReplyIsPreJoinList`).
- A signal addressed to a connection that is gone is dropped, unless some live connection
  joined a room whose name equals that id. Connection ids and room names share socket.io's
  namespace (`Properties.SignalToGoneTargetDropped`).
- `send message` goes to every connection, in every room (`Properties.MessageReachesEveryone`).

## Model

| member | source | states |
|---|---|---|
| Members.Without | index.js:27-29 | the filtered list contains exactly the entries of the input whose `userId` differs from the given id, and is no longer than the input |
| Members.WithoutUnchanged | index.js:63 | the filter changes a list if and only if the list holds an entry of the id |
| Members.WithoutIdempotent | index.js:63 | filtering a second time by the same id gives the same list |
| Members.WithoutIsSubsequence | index.js:63 | the kept entries keep their relative order |
| Members.WithoutMultiset | index.js:63 | every entry of the id disappears; every other entry keeps its multiplicity |
| Members.WithoutAppend | index.js:27-29 | filtering a concatenation filters each part, so the entry just pushed by the joiner never appears in the reply |
| Routing.Resolve | index.js:32-99 | an emit reaches only live connections; emits to connections that are gone are dropped |
| Routing.Receives | index.js:32-66 | a connection that is not live receives nothing; it receives at most one event per emit, each taken from the emits |
| Routing.ReceivesAppend | index.js:86-93 | the events a connection gets from two handler blocks run in turn are those of the first block followed by those of the second |
| Relay.Connect | index.js:19 | a new connection becomes live and joins the group named by its id; the tables are unchanged |
| Relay.JoinRoom | index.js:20-33 | with the second block (index.js:86-94) composed after it: the room's list gains exactly one `{userId: id, user}` at the end, no other room changes, `socketToRoom[id]` becomes the room, the sender joins the room's group, and every emit goes to the joiner: `all users` with the room's earlier entries minus the joiner's, then the stored document when it is truthy |
| Relay.Disconnect | index.js:59-67 | the room looked up for the id (`socketToRoom[id]`, or `"undefined"` when there is none) loses every entry of the id from its list; every other list, `socketToRoom` and `rooms` are unchanged; the connection leaves every group; one `user left` goes to everyone outside the group named by the id |
| Relay.UpdateWhiteboard | index.js:97-100 | the room's document becomes `doc`, replacing any earlier one; the other rooms' documents and all other tables are unchanged; `doc` is relayed to the room's group except the group named by the sender's id |
| Relay.LeaveRoom | index.js:103-106 | only the room's group changes, losing the sender; `users`, `socketToRoom`, `rooms` and the other groups are unchanged |
| Relay.SendingSignal | index.js:36-43 | exactly one emit, named `user joined` |
| Relay.ReturningSignal | index.js:46-51 | exactly one emit, named `receiving returned signal` |
| Relay.SendMessage | index.js:54-56 | exactly one emit, named `message` |
| Properties.InitialValid | index.js:13-17 | in the initial state every group member is a live connection and every list entry belongs to a connection with a `socketToRoom` entry |
| Properties.ConnectPreservesValid | index.js:19 | connecting keeps every group member live and every list entry's connection in `socketToRoom` |
| Properties.JoinRoomPreservesValid | index.js:21-26 | the entry a join pushes comes with its `socketToRoom` entry, and a live connection joining the room's group (index.js:87) keeps every group member live |
| Properties.DisconnectPreservesValid | index.js:59-67 | a disconnect keeps every group member live and every remaining list entry's connection in `socketToRoom` |
| Properties.UpdateWhiteboardPreservesValid | index.js:97-100 | a whiteboard update keeps both parts of the invariant |
| Properties.LeaveRoomPreservesValid | index.js:103-106 | leaving keeps both parts of the invariant |
| Properties.AddressableKept | index.js:103-104 | a connection is reachable through its own id from connect on; only leaving the group named by its own id makes it unreachable |
| Properties.JoinReplyIsPreJoinList | index.js:26-32 | a connection with no entry in the room is told exactly the room's list from before the join; a solo joiner is told `[]` |
| Properties.JoinReplyContents | index.js:27-32 | the reply keeps the room's other entries in order and multiplicity, and holds no entry of the joiner |
| Properties.JoinReachesOnlyJoiner | index.js:26-33 | no connection other than the joiner receives anything from a join; the joiner receives `all users`, then the stored document only when one is truthy |
| Properties.RejoinDuplicates | index.js:21-22 | a second join of the same room by the same connection leaves two entries of it, so the ids in the list are no longer distinct |
| Properties.SwitchRoomLeavesStaleEntry | index.js:26 | after joining a second room and disconnecting, the entry in the first room remains and the second room is clean |
| Properties.DisconnectRemovesExactly | index.js:60-65 | the looked-up room's list after a disconnect is a subsequence of the old one: entries of the id are gone, all others keep their multiplicity |
| Properties.DisconnectWithoutRoom | index.js:60-64 | under the invariant, the disconnect of a connection with no `socketToRoom` entry, which looks up the room `"undefined"`, leaves every list unchanged |
| Properties.DisconnectIdempotent | index.js:59-65 | a second disconnect of the same connection leaves every table unchanged |
| Properties.DisconnectNotifiesOthers | index.js:66 | `user left` with the departing id reaches exactly the live connections other than the departing one that are outside the group named by its id, whether or not a room was found; when nobody else is in that group, every other live connection |
| Properties.DisconnectSkipsNamesakeRoom | index.js:66 | a connection that joined a room named by the departing id does not hear `user left` |
| Properties.WhiteboardReachesRoomButSender | index.js:99 | the document reaches exactly the live members of the room's group outside the group named by the sender's id; an addressable sender does not hear it |
| Properties.SelfLeaverHearsOwnUpdate | index.js:99-104 | a sender that left the group named by its own id, but is in the room's group, hears its own update |
| Properties.JoinSeesLastDocument | index.js:91-98 | after two updates, a join of the room sends the joiner the later document (last writer wins) |
| Properties.JoinWithoutDocument | index.js:91-93 | a join of a room with no stored document sends the joiner only `all users` |
| Properties.LeaveStopsWhiteboard | index.js:103-104 | after leaving, a connection no longer hears the room's whiteboard updates, while its entry in `users` remains |
| Properties.SignalReachesGroup | index.js:36-43 | `user joined` carrying `signal`, `callerID` and `user` verbatim reaches exactly the live members of the group named `userToSignal` |
| Properties.SignalReachesLiveTarget | index.js:38 | a live, addressable target receives the relayed offer |
| Properties.SignalToGoneTargetDropped | index.js:38 | an offer to a connection that is gone reaches nobody, unless a live connection joined a room of that name |
| Properties.ReturnedSignalReachesCaller | index.js:46-51 | `receiving returned signal` carrying `signal` and the sender's id reaches exactly the live members of the group named `callerID`, and so reaches a live, addressable caller |
| Properties.MessageReachesEveryone | index.js:54-56 | a chat payload reaches every live connection unchanged, the sender and other rooms included |
| Properties.TwoPeerSession | index.js:20-66 | A joins `r1` and is told `[]`; B joins and is told `[A]` while A hears nothing; when A disconnects, B hears `user left` for A and `r1` holds only B |
| Server.RelayState.constructor | index.js:13-17 | the tables start empty |
| Server.RelayState.Connect | index.js:19 | the new state is that of `Relay.Connect`, and the new connection is addressable |
| Server.RelayState.JoinRoom | index.js:20-33 | with the second block (index.js:86-94) composed after it, updating the fields in place: the new state and the emits are those of `Relay.JoinRoom`, and the invariant is kept |
| Server.RelayState.Disconnect | index.js:59-67 | the new state and the emits are those of `Relay.Disconnect`, with the room `"undefined"` looked up as the code does; the invariant is kept, and a connection that never joined leaves `users` unchanged |
| Server.RelayState.UpdateWhiteboard | index.js:97-100 | the new state and the emits are those of `Relay.UpdateWhiteboard` |
| Server.RelayState.LeaveRoom | index.js:103-106 | the new state is that of `Relay.LeaveRoom` |
| Server.RelayState.SendingSignal | index.js:36-43 | the emits are those of `Relay.SendingSignal`; no field changes |
| Server.RelayState.ReturningSignal | index.js:46-51 | the emits are those of `Relay.ReturningSignal`; no field changes |
| Server.RelayState.SendMessage | index.js:54-56 | the emits are those of `Relay.SendMessage`; no field changes |

## Left out

- The HTTP server, CORS and the environment settings (index.js:1-15), and `server.listen`
  (index.js:74-76): process plumbing with no relay logic.
- `console.log` and `console.clear` (index.js:70, 83, 88, 105, 110): logging only. The
  second `disconnect` handler (index.js:109-111) only logs, so it adds nothing to the model.
- socket.io internals: frame delivery, connection-id allocation (the model takes the id as a
  parameter and requires only that it is not currently live), and network loss. Delivery is
  the abstract list of emits resolved against the live connections and groups.
- socket.io deletes a group when its last member leaves. The model keeps the empty entry
  instead. The two cannot be told apart, because a missing group and an empty one resolve
  to the same recipients.
- Concurrency: the runtime delivers events one at a time, so events are sequential calls.
- The contents of signals, chat payloads, display users and whiteboard documents. They are
  forwarded verbatim, so they are one opaque type `P`.
- Malformed payloads, such as a missing payload in the destructuring at index.js:20, a
  non-string id, or a room id naming an inherited `Object.prototype` property like
  `constructor`. In JavaScript these throw or read a prototype member. The model's ids are
  plain strings and its maps hold only what was stored.
- socket.io 3 and earlier left out only the sender itself in `socket.broadcast` and
  `socket.to(room)`. The model follows socket.io 4, which leaves out the group named by the
  sender's id.
- Ordering between handlers of different connections and delivery timing: the model
  returns each event's emits as an ordered list. It does not say when a peer sees them.
