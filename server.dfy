/** The relay as the running process keeps it: one object holding the in-memory tables,
    with one method per inbound event that updates the tables in place and returns the emits
    its handlers issue. Each method is specified by the matching step function of `Relay`. */
module Server {
  import opened Members
  import opened Routing
  import Relay
  import Properties

  class RelayState<P> {
    /** room id -> insertion-ordered `{userId, user}` entries (index.js:13) */
    var users: map<Id, seq<Entry<P>>>
    /** connection id -> last room joined (index.js:17) */
    var socketToRoom: map<Id, Id>
    /** room id -> last whiteboard document (index.js:80) */
    var rooms: map<Id, P>
    /** the transport's groups: group name -> member connections */
    var groups: map<Id, set<Id>>
    /** the transport's live connections */
    var connected: set<Id>
    /** JavaScript truthiness of a payload, as `if (rooms[roomID])` tests it */
    const truthy: P -> bool

    /** The tables as a value. */
    function Tables(): Relay.Tables<P>
      reads this
    {
      Relay.Tables(users, socketToRoom, rooms, groups, connected)
    }

    ghost predicate Valid()
      reads this
    {
      Relay.Valid(Tables())
    }

    /** The process starts with every table empty. */
    constructor (truthy: P -> bool)
      ensures Valid() && Tables() == Relay.Initial() && this.truthy == truthy
    {
      users, socketToRoom, rooms, groups, connected := map[], map[], map[], map[], {};
      this.truthy := truthy;
    }

    /** The transport reports a new connection, with an id that is not currently live. */
    method Connect(id: Id)
      requires Valid() && id !in connected
      modifies this
      ensures Valid() && Tables() == Relay.Connect(old(Tables()), id)
      ensures Relay.Addressable(Tables(), id)
    {
      connected := connected + {id};
      groups := groups[id := Routing.GroupMembers(groups, id) + {id}];
    }

    /** `join room` with payload `{roomID, user}` from connection `id`: both handler blocks. */
    method JoinRoom(id: Id, roomID: Id, user: P) returns (out: seq<Outbound<P>>)
      requires Valid() && id in connected
      modifies this
      ensures Valid()
      ensures Tables() == Relay.JoinRoom(old(Tables()), id, roomID, user, truthy).tables
      ensures out == Relay.JoinRoom(old(Tables()), id, roomID, user, truthy).out
    {
      Properties.JoinRoomPreservesValid(Tables(), id, roomID, user, truthy);
      ghost var before := Tables();
      // first block (index.js:20-33)
      if roomID in users {
        users := users[roomID := users[roomID] + [Entry(id, user)]];
      } else {
        users := users[roomID := [Entry(id, user)]];
        assert [] + [Entry(id, user)] == [Entry(id, user)];
      }
      socketToRoom := socketToRoom[id := roomID];
      var usersInThisRoom := Without(users[roomID], id);
      out := [Emit(Socket(id), AllUsers(usersInThisRoom))];
      // second block (index.js:86-94)
      groups := groups[roomID := Routing.GroupMembers(groups, roomID) + {id}];
      if roomID in rooms && truthy(rooms[roomID]) {
        out := out + [Emit(Socket(id), Whiteboard(rooms[roomID]))];
      }
      assert users == Relay.JoinRoom(before, id, roomID, user, truthy).tables.users;
    }

    /** `disconnect` of connection `id`: the transport drops it from every group, then both
      handler blocks run (the second only logs). */
    method Disconnect(id: Id) returns (out: seq<Outbound<P>>)
      requires Valid()
      modifies this
      ensures Valid()
      ensures Tables() == Relay.Disconnect(old(Tables()), id).tables
      ensures out == Relay.Disconnect(old(Tables()), id).out
      // a connection that never joined has no entry, so the lookup of "undefined" is harmless
      ensures id !in old(socketToRoom) ==> users == old(users)
    {
      if id !in socketToRoom {
        Properties.DisconnectWithoutRoom(Tables(), id);
      }
      groups := map g | g in groups :: groups[g] - {id};
      connected := connected - {id};
      // first block (index.js:59-67); a connection that never joined reads the room "undefined"
      var roomID := if id in socketToRoom then socketToRoom[id] else Relay.UNDEFINED_KEY;
      if roomID in users {
        users := users[roomID := Without(users[roomID], id)];
      }
      out := [Emit(EveryoneExcept(id), UserLeft(id))];
    }

    /** `update whiteboard` with payload `{roomID, doc}` from connection `id`. */
    method UpdateWhiteboard(id: Id, roomID: Id, doc: P) returns (out: seq<Outbound<P>>)
      requires Valid()
      modifies this
      ensures Valid()
      ensures Tables() == Relay.UpdateWhiteboard(old(Tables()), id, roomID, doc).tables
      ensures out == Relay.UpdateWhiteboard(old(Tables()), id, roomID, doc).out
    {
      rooms := rooms[roomID := doc];
      out := [Emit(GroupExcept(roomID, id), Whiteboard(doc))];
    }

    /** `leave room` with payload `{roomID}` from connection `id`. */
    method LeaveRoom(id: Id, roomID: Id)
      requires Valid()
      modifies this
      ensures Valid()
      ensures Tables() == Relay.LeaveRoom(old(Tables()), id, roomID)
    {
      if roomID in groups {
        groups := groups[roomID := groups[roomID] - {id}];
      }
    }

    // The three handlers below change no table. Each is the object's entry point for the
    // matching `Relay` function, so its emits are built the same way and its `ensures`
    // names that function; what the emits deliver is proved once, about the function.

    /** `sending signal` with payload `{userToSignal, callerID, signal, user}`; no table changes. */
    method SendingSignal(userToSignal: Id, callerID: Id, signal: P, user: P)
      returns (out: seq<Outbound<P>>)
      ensures out == Relay.SendingSignal(userToSignal, callerID, signal, user)
    {
      out := [Emit(Group(userToSignal), UserJoined(signal, callerID, user))];
    }

    /** `returning signal` with payload `{callerID, signal}` from connection `id`; no table
        changes. */
    method ReturningSignal(id: Id, callerID: Id, signal: P) returns (out: seq<Outbound<P>>)
      ensures out == Relay.ReturningSignal(id, callerID, signal)
    {
      out := [Emit(Group(callerID), ReceivingReturnedSignal(signal, id))];
    }

    /** `send message` with any payload; no table changes. */
    method SendMessage(payload: P) returns (out: seq<Outbound<P>>)
      ensures out == Relay.SendMessage(payload)
    {
      out := [Emit(Everyone, Message(payload))];
    }
  }
}
