/** The relay's state machine as values: the tables index.js keeps in memory, and one step
    function per inbound event giving the new tables and the emits the handlers issue.

    Each connection registers two handler blocks (index.js:19-68 and index.js:82-112); for
    `join room` and `disconnect`, both run, the first block's handler first. The step
    functions below are those compositions. */
module Relay {
  import opened Members
  import opened Routing

  /** The process-wide tables: `users` (index.js:13), `socketToRoom` (index.js:17), `rooms`
      (index.js:80), and the transport's groups and live connections. */
  datatype Tables<P> = Tables(
    users: map<Id, seq<Entry<P>>>,
    socketToRoom: map<Id, Id>,
    rooms: map<Id, P>,
    groups: map<Id, set<Id>>,
    connected: set<Id>)

  /** The outcome of one inbound event: the new tables and the emits, in order. */
  datatype Step<P> = Step(tables: Tables<P>, out: seq<Outbound<P>>)

  /** The tables when the process starts. */
  function Initial<P>(): Tables<P>
  {
    Tables(map[], map[], map[], map[], {})
  }

  /** `users[roomID]`, with a room that was never joined read as an empty list. */
  function RoomList<P>(users: map<Id, seq<Entry<P>>>, roomID: Id): seq<Entry<P>>
  {
    if roomID in users then users[roomID] else []
  }

  /** `if (rooms[roomID])`: a document is stored for the room and is truthy in JavaScript's
      sense; `truthy` gives that sense for the opaque payload type. */
  predicate HasDocument<P>(t: Tables<P>, roomID: Id, truthy: P -> bool)
  {
    roomID in t.rooms && truthy(t.rooms[roomID])
  }

  /** The invariant every event keeps: every group member is a live connection, and every
      entry of a room's list belongs to a connection that `socketToRoom` knows. */
  predicate Valid<P>(t: Tables<P>)
  {
    && (forall g :: g in t.groups ==> t.groups[g] <= t.connected)
    && (forall r, i :: r in t.users && 0 <= i < |t.users[r]| ==> t.users[r][i].userId in t.socketToRoom)
  }

  /** Connection `c` is in the group named by its own id, so that messages addressed to
      its id reach it. Connecting makes it so; only a `leave room` naming the connection's
      own id undoes it. */
  predicate Addressable<P>(t: Tables<P>, c: Id)
  {
    c in GroupMembers(t.groups, c)
  }

  /** What connection `c` receives from a step's emits, resolved against the step's tables. */
  function Delivered<P>(s: Step<P>, c: Id): seq<Event<P>>
  {
    Receives(s.out, s.tables.connected, s.tables.groups, c)
  }

  /** The transport opens connection `id`: it becomes live and joins the group named by its id. */
  function Connect<P>(t: Tables<P>, id: Id): (r: Tables<P>)
    ensures r.connected == t.connected + {id}
    ensures id in GroupMembers(r.groups, id)
    ensures forall g :: g != id ==> GroupMembers(r.groups, g) == GroupMembers(t.groups, g)
    ensures r.users == t.users && r.socketToRoom == t.socketToRoom && r.rooms == t.rooms
  {
    t.(connected := t.connected + {id},
       groups := t.groups[id := GroupMembers(t.groups, id) + {id}])
  }

  /** `join room` from connection `id`: the first block appends `{userId: id, user}` to the
      room's list, records the room in `socketToRoom` and answers `all users` with the room's
      other entries; the second block adds `id` to the room's group and sends the stored
      whiteboard document, if it is truthy. */
  function JoinRoom<P>(t: Tables<P>, id: Id, roomID: Id, user: P, truthy: P -> bool): (r: Step<P>)
    ensures r.tables.users.Keys == t.users.Keys + {roomID}
    ensures RoomList(r.tables.users, roomID) == RoomList(t.users, roomID) + [Entry(id, user)]
    ensures forall k :: k != roomID ==> RoomList(r.tables.users, k) == RoomList(t.users, k)
    ensures r.tables.socketToRoom == t.socketToRoom[id := roomID]
    ensures r.tables.rooms == t.rooms && r.tables.connected == t.connected
    ensures GroupMembers(r.tables.groups, roomID) == GroupMembers(t.groups, roomID) + {id}
    ensures forall g :: g != roomID ==> GroupMembers(r.tables.groups, g) == GroupMembers(t.groups, g)
    ensures |r.out| == if HasDocument(t, roomID, truthy) then 2 else 1
    ensures forall o :: o in r.out ==> o.to == Socket(id)
    // the reply lists the room's entries from before the join, without any of `id`'s own
    ensures r.out[0].event == AllUsers(Without(RoomList(t.users, roomID), id))
    ensures |r.out| == 2 ==> r.out[1].event == Whiteboard(t.rooms[roomID])
  {
    var list := RoomList(t.users, roomID) + [Entry(id, user)];
    var first := [Emit(Socket(id), AllUsers(Without(list, id)))];
    var second :=
      if HasDocument(t, roomID, truthy) then [Emit(Socket(id), Whiteboard(t.rooms[roomID]))]
      else [];
    WithoutAppend(RoomList(t.users, roomID), [Entry(id, user)], id);
    assert Without([Entry(id, user)], id) == [];
    assert Without(list, id) == Without(RoomList(t.users, roomID), id);
    Step(t.(users := t.users[roomID := list],
            socketToRoom := t.socketToRoom[id := roomID],
            groups := t.groups[roomID := GroupMembers(t.groups, roomID) + {id}]),
         first + second)
  }

  /** The key JavaScript reads for `users[undefined]`. */
  const UNDEFINED_KEY: Id := "undefined"

  /** The room `disconnect` looks up for `id`: `socketToRoom[id]`, which is `undefined`, and so
      reads the key "undefined", when the connection never joined a room. */
  function LookedUpRoom<P>(t: Tables<P>, id: Id): Id
  {
    if id in t.socketToRoom then t.socketToRoom[id] else UNDEFINED_KEY
  }

  /** `disconnect` of connection `id`: the transport drops the connection from every group;
      the first block removes every entry of `id` from the list of the room it looks up, if
      that room has a list, and tells every other connection `user left`; the second block
      only logs. */
  function Disconnect<P>(t: Tables<P>, id: Id): (r: Step<P>)
    ensures r.tables.users.Keys == t.users.Keys
    ensures !HasId(RoomList(r.tables.users, LookedUpRoom(t, id)), id)
    ensures RoomList(r.tables.users, LookedUpRoom(t, id))
         == Without(RoomList(t.users, LookedUpRoom(t, id)), id)
    ensures forall k :: k != LookedUpRoom(t, id) ==> RoomList(r.tables.users, k) == RoomList(t.users, k)
    ensures r.tables.socketToRoom == t.socketToRoom && r.tables.rooms == t.rooms
    ensures r.tables.connected == t.connected - {id}
    ensures forall g :: GroupMembers(r.tables.groups, g) == GroupMembers(t.groups, g) - {id}
    ensures r.out == [Emit(EveryoneExcept(id), UserLeft(id))]
  {
    var roomID := LookedUpRoom(t, id);
    var users := if roomID in t.users then t.users[roomID := Without(t.users[roomID], id)] else t.users;
    Step(t.(users := users,
            groups := map g | g in t.groups :: t.groups[g] - {id},
            connected := t.connected - {id}),
         [Emit(EveryoneExcept(id), UserLeft(id))])
  }

  /** `update whiteboard` from connection `id`: store `doc` as the room's document, replacing
      any earlier one, and relay it to the room's group without the sender. */
  function UpdateWhiteboard<P>(t: Tables<P>, id: Id, roomID: Id, doc: P): (r: Step<P>)
    ensures roomID in r.tables.rooms && r.tables.rooms[roomID] == doc
    ensures forall k :: k != roomID ==> (k in r.tables.rooms <==> k in t.rooms)
    ensures forall k :: k != roomID && k in t.rooms ==> r.tables.rooms[k] == t.rooms[k]
    ensures r.tables.users == t.users && r.tables.socketToRoom == t.socketToRoom
    ensures r.tables.groups == t.groups && r.tables.connected == t.connected
    ensures r.out == [Emit(GroupExcept(roomID, id), Whiteboard(doc))]
  {
    Step(t.(rooms := t.rooms[roomID := doc]),
         [Emit(GroupExcept(roomID, id), Whiteboard(doc))])
  }

  /** `leave room` from connection `id`: the connection leaves the room's group; nothing else. */
  function LeaveRoom<P>(t: Tables<P>, id: Id, roomID: Id): (r: Tables<P>)
    ensures GroupMembers(r.groups, roomID) == GroupMembers(t.groups, roomID) - {id}
    ensures forall g :: g != roomID ==> GroupMembers(r.groups, g) == GroupMembers(t.groups, g)
    ensures r.users == t.users && r.socketToRoom == t.socketToRoom
    ensures r.rooms == t.rooms && r.connected == t.connected
  {
    if roomID in t.groups then t.(groups := t.groups[roomID := t.groups[roomID] - {id}]) else t
  }

  /** `sending signal`: one `user joined` to the group named `userToSignal`, carrying the
      payload's `signal`, `callerID` and `user` unchanged. */
  function SendingSignal<P>(userToSignal: Id, callerID: Id, signal: P, user: P): (r: seq<Outbound<P>>)
    ensures |r| == 1 && Name(r[0].event) == "user joined"
  {
    [Emit(Group(userToSignal), UserJoined(signal, callerID, user))]
  }

  /** `returning signal` from connection `id`: one `receiving returned signal` to the group
      named `callerID`, carrying the payload's `signal` and the sender's own id. */
  function ReturningSignal<P>(id: Id, callerID: Id, signal: P): (r: seq<Outbound<P>>)
    ensures |r| == 1 && Name(r[0].event) == "receiving returned signal"
  {
    [Emit(Group(callerID), ReceivingReturnedSignal(signal, id))]
  }

  /** `send message`: one `message` to every live connection, the payload unchanged. */
  function SendMessage<P>(payload: P): (r: seq<Outbound<P>>)
    ensures |r| == 1 && Name(r[0].event) == "message"
  {
    [Emit(Everyone, Message(payload))]
  }
}
