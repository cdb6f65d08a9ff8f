/** Properties of the relay's handlers: who receives what, what each event leaves unchanged,
    what a second event of the same kind does, and the quirks the code has. */
module Properties {
  import opened Members
  import opened Routing
  import opened Relay

  // ---------------------------------------------------------------------------------------
  // The transport invariant holds initially and after every event; who stays addressable.

  lemma InitialValid<P>()
    ensures Valid(Initial<P>())
  {
  }

  lemma ConnectPreservesValid<P>(t: Tables<P>, id: Id)
    requires Valid(t)
    ensures Valid(Connect(t, id))
  {
  }

  lemma JoinRoomPreservesValid<P>(t: Tables<P>, id: Id, roomID: Id, user: P, truthy: P -> bool)
    requires Valid(t) && id in t.connected
    ensures Valid(JoinRoom(t, id, roomID, user, truthy).tables)
  {
  }

  lemma DisconnectPreservesValid<P>(t: Tables<P>, id: Id)
    requires Valid(t)
    ensures Valid(Disconnect(t, id).tables)
  {
  }

  lemma UpdateWhiteboardPreservesValid<P>(t: Tables<P>, id: Id, roomID: Id, doc: P)
    requires Valid(t)
    ensures Valid(UpdateWhiteboard(t, id, roomID, doc).tables)
  {
  }

  lemma LeaveRoomPreservesValid<P>(t: Tables<P>, id: Id, roomID: Id)
    requires Valid(t)
    ensures Valid(LeaveRoom(t, id, roomID))
  {
  }

  /** A connection is addressable by its id from the moment it connects; joins, updates and
      other connections' disconnects keep it so, and a `leave room` breaks it exactly when it
      is the connection itself leaving the group named by its own id. */
  lemma AddressableKept<P>(t: Tables<P>, c: Id, id: Id, roomID: Id, user: P, doc: P,
                           truthy: P -> bool)
    ensures Addressable(Connect(t, c), c)
    ensures Addressable(t, c) ==> Addressable(JoinRoom(t, id, roomID, user, truthy).tables, c)
    ensures Addressable(t, c) ==> Addressable(UpdateWhiteboard(t, id, roomID, doc).tables, c)
    ensures Addressable(t, c) && c != id ==> Addressable(Disconnect(t, id).tables, c)
    ensures Addressable(t, c) ==>
      (Addressable(LeaveRoom(t, id, roomID), c) <==> !(c == id && roomID == id))
  {
  }

  // ---------------------------------------------------------------------------------------
  // join room

  /** When the joiner had no entry in the room, the `all users` reply is exactly the room's
      list from before the join; a joiner of an empty room is told `[]`. */
  lemma JoinReplyIsPreJoinList<P>(t: Tables<P>, id: Id, roomID: Id, user: P, truthy: P -> bool)
    requires !HasId(RoomList(t.users, roomID), id)
    ensures JoinRoom(t, id, roomID, user, truthy).out[0].event == AllUsers(RoomList(t.users, roomID))
  {
    WithoutUnchanged(RoomList(t.users, roomID), id);
  }

  /** The reply keeps the room's other entries in their order, each as often as before, and
      holds no entry of the joiner, not even one left from an earlier join. */
  lemma JoinReplyContents<P>(t: Tables<P>, id: Id, roomID: Id, user: P, truthy: P -> bool, e: Entry<P>)
    ensures var reply := JoinRoom(t, id, roomID, user, truthy).out[0].event.members;
      && IsSubsequence(reply, RoomList(t.users, roomID))
      && multiset(reply)[e] == if e.userId == id then 0 else multiset(RoomList(t.users, roomID))[e]
  {
    WithoutIsSubsequence(RoomList(t.users, roomID), id);
    WithoutMultiset(RoomList(t.users, roomID), id, e);
  }

  /** Only the joiner hears anything from a join: the `all users` reply, then the room's
      stored whiteboard document when there is a truthy one. */
  lemma {:induction false} JoinReachesOnlyJoiner<P>(t: Tables<P>, id: Id, roomID: Id, user: P,
                                                  truthy: P -> bool, c: Id)
    requires id in t.connected
    ensures var s := JoinRoom(t, id, roomID, user, truthy);
      Delivered(s, c) ==
        if c != id then []
        else if HasDocument(t, roomID, truthy) then
          [AllUsers(Without(RoomList(t.users, roomID), id)), Whiteboard(t.rooms[roomID])]
        else [AllUsers(Without(RoomList(t.users, roomID), id))]
  {
    var s := JoinRoom(t, id, roomID, user, truthy);
    var cs, gs := s.tables.connected, s.tables.groups;
    ReceivesOne(s.out[0], cs, gs, c);
    if |s.out| == 2 {
      assert s.out == [s.out[0]] + [s.out[1]];
      ReceivesAppend([s.out[0]], [s.out[1]], cs, gs, c);
      ReceivesOne(s.out[1], cs, gs, c);
    } else {
      assert s.out == [s.out[0]];
    }
  }

  /** Nothing is deduplicated: a second join of the same room by the same connection leaves
      two entries of it in the room's list. */
  lemma RejoinDuplicates<P>(t: Tables<P>, id: Id, roomID: Id, u1: P, u2: P, truthy: P -> bool)
    ensures var t2 := JoinRoom(JoinRoom(t, id, roomID, u1, truthy).tables, id, roomID, u2, truthy).tables;
      && RoomList(t2.users, roomID) == RoomList(t.users, roomID) + [Entry(id, u1), Entry(id, u2)]
      && !DistinctIds(RoomList(t2.users, roomID))
  {
    var t2 := JoinRoom(JoinRoom(t, id, roomID, u1, truthy).tables, id, roomID, u2, truthy).tables;
    var list := RoomList(t2.users, roomID);
    var n := |RoomList(t.users, roomID)|;
    assert list == RoomList(t.users, roomID) + [Entry(id, u1)] + [Entry(id, u2)];
    assert list[n].userId == id && list[n + 1].userId == id;
  }

  /** Joining a second room moves `socketToRoom` but leaves the entry in the first room's list,
      and a later disconnect cleans only the second room. */
  lemma SwitchRoomLeavesStaleEntry<P>(t: Tables<P>, id: Id, r1: Id, r2: Id, u1: P, u2: P,
                                      truthy: P -> bool)
    requires r1 != r2
    ensures var t1 := JoinRoom(t, id, r1, u1, truthy).tables;
      var t2 := JoinRoom(t1, id, r2, u2, truthy).tables;
      var t3 := Disconnect(t2, id).tables;
      && t2.socketToRoom[id] == r2
      && Entry(id, u1) in RoomList(t3.users, r1)
      && !HasId(RoomList(t3.users, r2), id)
  {
    var t1 := JoinRoom(t, id, r1, u1, truthy).tables;
    var t2 := JoinRoom(t1, id, r2, u2, truthy).tables;
    assert RoomList(t2.users, r1) == RoomList(t.users, r1) + [Entry(id, u1)];
    assert Entry(id, u1) in RoomList(t2.users, r1);
  }

  // ---------------------------------------------------------------------------------------
  // disconnect

  /** The room's list after a disconnect is the old list with exactly the departing
      connection's entries removed, the rest in their old order and multiplicity. */
  lemma DisconnectRemovesExactly<P>(t: Tables<P>, id: Id, e: Entry<P>)
    ensures var before := RoomList(t.users, LookedUpRoom(t, id));
      var after := RoomList(Disconnect(t, id).tables.users, LookedUpRoom(t, id));
      && IsSubsequence(after, before)
      && multiset(after)[e] == if e.userId == id then 0 else multiset(before)[e]
  {
    var before := RoomList(t.users, LookedUpRoom(t, id));
    WithoutIsSubsequence(before, id);
    WithoutMultiset(before, id, e);
  }

  /** A connection that never joined a room has no entry in any list, so the lookup of the
      room "undefined" that its disconnect makes leaves every list as it was. */
  lemma DisconnectWithoutRoom<P>(t: Tables<P>, id: Id)
    requires Valid(t) && id !in t.socketToRoom
    ensures Disconnect(t, id).tables.users == t.users
  {
    if UNDEFINED_KEY in t.users {
      var list := t.users[UNDEFINED_KEY];
      assert !HasId(list, id) by {
        forall i | 0 <= i < |list|
          ensures list[i].userId != id
        {
          assert list[i].userId in t.socketToRoom;
        }
      }
      WithoutUnchanged(list, id);
    }
  }

  /** A second disconnect of the same connection changes nothing. */
  lemma DisconnectIdempotent<P>(t: Tables<P>, id: Id)
    ensures var t1 := Disconnect(t, id).tables;
      Disconnect(t1, id).tables == t1
  {
    var t1 := Disconnect(t, id).tables;
    var t2 := Disconnect(t1, id).tables;
    WithoutIdempotent(RoomList(t.users, LookedUpRoom(t, id)), id);
    assert t2.users == t1.users;
    assert t2.groups.Keys == t1.groups.Keys;
    forall g | g in t1.groups
      ensures t2.groups[g] == t1.groups[g]
    {
      assert t1.groups[g] == t.groups[g] - {id};
    }
  }

  /** `user left` with the departing id reaches every live connection but the departing one
      and the members of the group named by its id, whether or not a room was found for it;
      when nobody else joined a room of that name, it reaches every other live connection. */
  lemma {:induction false} DisconnectNotifiesOthers<P>(t: Tables<P>, id: Id, c: Id)
    ensures Delivered(Disconnect(t, id), c) ==
      if c in t.connected && c != id && c !in GroupMembers(t.groups, id) then [UserLeft(id)] else []
    ensures (forall x :: x in GroupMembers(t.groups, id) ==> x == id) ==>
      Delivered(Disconnect(t, id), c) == if c in t.connected && c != id then [UserLeft(id)] else []
  {
    var s := Disconnect(t, id);
    ReceivesOne(s.out[0], s.tables.connected, s.tables.groups, c);
  }

  /** A connection that joined a room named by another connection's id does not hear that
      connection leave: it is excluded together with the departing connection. */
  lemma DisconnectSkipsNamesakeRoom<P>(t: Tables<P>, x: Id, y: Id, user: P, truthy: P -> bool)
    requires x != y && y in t.connected
    ensures Delivered(Disconnect(JoinRoom(t, y, x, user, truthy).tables, x), y) == []
  {
    DisconnectNotifiesOthers(JoinRoom(t, y, x, user, truthy).tables, x, y);
  }

  // ---------------------------------------------------------------------------------------
  // update whiteboard

  /** The document reaches every live member of the room's group outside the group named by
      the sender's id; so an addressable sender never hears its own update. */
  lemma {:induction false} WhiteboardReachesRoomButSender<P>(t: Tables<P>, id: Id, roomID: Id,
                                                           doc: P, c: Id)
    ensures Delivered(UpdateWhiteboard(t, id, roomID, doc), c) ==
      if c in GroupMembers(t.groups, roomID) && c in t.connected && c !in GroupMembers(t.groups, id)
      then [Whiteboard(doc)] else []
    ensures Addressable(t, id) ==> Delivered(UpdateWhiteboard(t, id, roomID, doc), id) == []
  {
    var s := UpdateWhiteboard(t, id, roomID, doc);
    ReceivesOne(s.out[0], s.tables.connected, s.tables.groups, c);
    ReceivesOne(s.out[0], s.tables.connected, s.tables.groups, id);
  }

  /** A connection that has left the group named by its own id hears its own whiteboard
      update: exclusion goes by that group, not by the sender. */
  lemma SelfLeaverHearsOwnUpdate<P>(t: Tables<P>, id: Id, roomID: Id, user: P, doc: P,
                                    truthy: P -> bool)
    requires id in t.connected && roomID != id
    ensures var t1 := LeaveRoom(JoinRoom(t, id, roomID, user, truthy).tables, id, id);
      Delivered(UpdateWhiteboard(t1, id, roomID, doc), id) == [Whiteboard(doc)]
  {
    var t1 := LeaveRoom(JoinRoom(t, id, roomID, user, truthy).tables, id, id);
    WhiteboardReachesRoomButSender(t1, id, roomID, doc, id);
  }

  /** A join after two updates of the room's document sends the joiner the later document. */
  lemma {:induction false} JoinSeesLastDocument<P>(t: Tables<P>, a: Id, b: Id, joiner: Id,
                                                 roomID: Id, d1: P, d2: P, user: P,
                                                 truthy: P -> bool)
    requires joiner in t.connected && truthy(d2)
    ensures var t1 := UpdateWhiteboard(t, a, roomID, d1).tables;
      var t2 := UpdateWhiteboard(t1, b, roomID, d2).tables;
      Delivered(JoinRoom(t2, joiner, roomID, user, truthy), joiner)
        == [AllUsers(Without(RoomList(t.users, roomID), joiner)), Whiteboard(d2)]
  {
    var t1 := UpdateWhiteboard(t, a, roomID, d1).tables;
    var t2 := UpdateWhiteboard(t1, b, roomID, d2).tables;
    JoinReachesOnlyJoiner(t2, joiner, roomID, user, truthy, joiner);
  }

  /** A join of a room whose document was never stored sends the joiner only `all users`. */
  lemma {:induction false} JoinWithoutDocument<P>(t: Tables<P>, id: Id, roomID: Id, user: P,
                                                truthy: P -> bool)
    requires id in t.connected && roomID !in t.rooms
    ensures Delivered(JoinRoom(t, id, roomID, user, truthy), id)
         == [AllUsers(Without(RoomList(t.users, roomID), id))]
  {
    JoinReachesOnlyJoiner(t, id, roomID, user, truthy, id);
  }

  // ---------------------------------------------------------------------------------------
  // leave room

  /** After leaving a room a connection no longer hears its whiteboard updates, but its entry
      stays in the room's list. */
  lemma {:induction false} LeaveStopsWhiteboard<P>(t: Tables<P>, id: Id, roomID: Id, sender: Id,
                                                 doc: P, user: P, truthy: P -> bool)
    requires id in t.connected
    ensures var t1 := JoinRoom(t, id, roomID, user, truthy).tables;
      var t2 := LeaveRoom(t1, id, roomID);
      && Entry(id, user) in RoomList(t2.users, roomID)
      && Delivered(UpdateWhiteboard(t2, sender, roomID, doc), id) == []
  {
    var t1 := JoinRoom(t, id, roomID, user, truthy).tables;
    var t2 := LeaveRoom(t1, id, roomID);
    assert Entry(id, user) in RoomList(t1.users, roomID);
    WhiteboardReachesRoomButSender(t2, sender, roomID, doc, id);
  }

  // ---------------------------------------------------------------------------------------
  // sending signal, returning signal, send message

  /** `user joined` reaches exactly the live members of the group named `userToSignal`. */
  lemma {:induction false} SignalReachesGroup<P>(t: Tables<P>, userToSignal: Id, callerID: Id,
                                               signal: P, user: P, c: Id)
    ensures Receives(SendingSignal(userToSignal, callerID, signal, user), t.connected, t.groups, c)
         == if c in GroupMembers(t.groups, userToSignal) && c in t.connected
            then [UserJoined(signal, callerID, user)] else []
  {
    ReceivesOne(SendingSignal(userToSignal, callerID, signal, user)[0], t.connected, t.groups, c);
  }

  /** A live target connection receives the relayed offer. */
  lemma SignalReachesLiveTarget<P>(t: Tables<P>, userToSignal: Id, callerID: Id, signal: P, user: P)
    requires userToSignal in t.connected && Addressable(t, userToSignal)
    ensures Receives(SendingSignal(userToSignal, callerID, signal, user), t.connected, t.groups,
                     userToSignal)
         == [UserJoined(signal, callerID, user)]
  {
    SignalReachesGroup(t, userToSignal, callerID, signal, user, userToSignal);
  }

  /** An offer to a connection that is gone is dropped, unless some live connection has
      joined a room of that very name. */
  lemma SignalToGoneTargetDropped<P>(t: Tables<P>, userToSignal: Id, callerID: Id, signal: P,
                                     user: P, c: Id)
    requires userToSignal !in t.connected
    requires forall x :: x in GroupMembers(t.groups, userToSignal) ==> x == userToSignal
    ensures Receives(SendingSignal(userToSignal, callerID, signal, user), t.connected, t.groups, c)
         == []
  {
    SignalReachesGroup(t, userToSignal, callerID, signal, user, c);
  }

  /** `receiving returned signal`, stamped with the sender's id, reaches exactly the live
      members of the group named `callerID`; a live caller is among them. */
  lemma {:induction false} ReturnedSignalReachesCaller<P>(t: Tables<P>, id: Id, callerID: Id,
                                                        signal: P, c: Id)
    ensures Receives(ReturningSignal(id, callerID, signal), t.connected, t.groups, c)
         == if c in GroupMembers(t.groups, callerID) && c in t.connected
            then [ReceivingReturnedSignal(signal, id)] else []
    ensures callerID in t.connected && Addressable(t, callerID) ==>
      Receives(ReturningSignal(id, callerID, signal), t.connected, t.groups, callerID)
        == [ReceivingReturnedSignal(signal, id)]
  {
    ReceivesOne(ReturningSignal(id, callerID, signal)[0], t.connected, t.groups, c);
    ReceivesOne(ReturningSignal(id, callerID, signal)[0], t.connected, t.groups, callerID);
  }

  /** A chat message reaches every live connection, the sender and other rooms included. */
  lemma {:induction false} MessageReachesEveryone<P>(t: Tables<P>, payload: P, c: Id)
    ensures Receives(SendMessage(payload), t.connected, t.groups, c)
         == if c in t.connected then [Message(payload)] else []
  {
    ReceivesOne(SendMessage(payload)[0], t.connected, t.groups, c);
  }

  // ---------------------------------------------------------------------------------------
  // A two-peer session: A joins "r1", B joins "r1", A disconnects.

  lemma {:induction false} TwoPeerSession<P>(ua: P, ub: P, truthy: P -> bool)
    ensures var t0 := Connect(Connect(Initial<P>(), "A"), "B");
      var s1 := JoinRoom(t0, "A", "r1", ua, truthy);
      var s2 := JoinRoom(s1.tables, "B", "r1", ub, truthy);
      var s3 := Disconnect(s2.tables, "A");
      && Delivered(s1, "A") == [AllUsers([])]
      && Delivered(s1, "B") == []
      && Delivered(s2, "B") == [AllUsers([Entry("A", ua)])]
      && Delivered(s2, "A") == []
      && Delivered(s3, "B") == [UserLeft("A")]
      && RoomList(s3.tables.users, "r1") == [Entry("B", ub)]
  {
    var t0 := Connect(Connect(Initial<P>(), "A"), "B");
    var s1 := JoinRoom(t0, "A", "r1", ua, truthy);
    var s2 := JoinRoom(s1.tables, "B", "r1", ub, truthy);
    JoinReachesOnlyJoiner(t0, "A", "r1", ua, truthy, "A");
    JoinReachesOnlyJoiner(t0, "A", "r1", ua, truthy, "B");
    JoinReachesOnlyJoiner(s1.tables, "B", "r1", ub, truthy, "B");
    JoinReachesOnlyJoiner(s1.tables, "B", "r1", ub, truthy, "A");
    DisconnectNotifiesOthers(s2.tables, "A", "B");
    assert RoomList(s1.tables.users, "r1") == [Entry("A", ua)];
    assert Without([Entry("A", ua)], "B") == [Entry("A", ua)];
    assert RoomList(s2.tables.users, "r1") == [Entry("A", ua), Entry("B", ub)];
    assert Without([Entry("A", ua), Entry("B", ub)], "A") == [Entry("B", ub)];
  }
}
