/** Outbound messages of the relay and the connections each one reaches.

    The transport keeps named groups of connections (socket.io "rooms"). Connection ids and
    room ids share one namespace: every live connection is in the group named by its own id,
    and a message addressed to "id x" is really addressed to the group named x. Exclusion
    works the same way, as in socket.io 4: `socket.broadcast` and `socket.to(r)` leave out
    every member of the group named by the sender's id, not the sender as such. */
module Routing {
  import opened Members

  /** The five ways index.js addresses an emit. */
  datatype Target =
    | Socket(id: Id)                // socket.emit(...): the handling connection itself
    | Group(name: Id)               // io.to(name).emit(...): every member of group `name`
    | Everyone                      // io.emit(...): every live connection
    | EveryoneExcept(id: Id)        // socket.broadcast.emit(...): all but the group named `id`
    | GroupExcept(name: Id, id: Id) // socket.to(name).emit(...): group `name` but the group `id`

  /** The outbound events, one constructor per wire event and payload shape. */
  datatype Event<P> =
    | AllUsers(members: seq<Entry<P>>)
    | UserJoined(signal: P, callerID: Id, user: P)
    | ReceivingReturnedSignal(signal: P, id: Id)
    | Message(payload: P)
    | Whiteboard(doc: P)
    | UserLeft(id: Id)

  /** One `emit`: where it goes and what it carries. */
  datatype Outbound<P> = Emit(to: Target, event: Event<P>)

  /** The wire name of an event. */
  function Name<P>(e: Event<P>): string
  {
    match e
    case AllUsers(_) => "all users"
    case UserJoined(_, _, _) => "user joined"
    case ReceivingReturnedSignal(_, _) => "receiving returned signal"
    case Message(_) => "message"
    case Whiteboard(_) => "update whiteboard"
    case UserLeft(_) => "user left"
  }

  /** The members of group `name`; a group nobody is in does not exist. */
  function GroupMembers(groups: map<Id, set<Id>>, name: Id): set<Id>
  {
    if name in groups then groups[name] else {}
  }

  /** The live connections an emit reaches. Delivery to a connection that is gone is dropped. */
  function Resolve(to: Target, connected: set<Id>, groups: map<Id, set<Id>>): (r: set<Id>)
    ensures r <= connected
  {
    match to
    case Socket(id) => {id} * connected
    case Group(name) => GroupMembers(groups, name) * connected
    case Everyone => connected
    case EveryoneExcept(id) => connected - GroupMembers(groups, id)
    case GroupExcept(name, id) => GroupMembers(groups, name) * connected - GroupMembers(groups, id)
  }

  /** The events connection `c` receives from the emits `outs`, in emit order. */
  function Receives<P>(outs: seq<Outbound<P>>, connected: set<Id>, groups: map<Id, set<Id>>, c: Id)
    : (r: seq<Event<P>>)
    ensures |r| <= |outs|
    ensures c !in connected ==> r == []
    ensures forall e :: e in r ==> exists o :: o in outs && o.event == e
  {
    if outs == [] then []
    else
      var rest := Receives(outs[1..], connected, groups, c);
      assert forall o :: o in outs[1..] ==> o in outs;
      if c in Resolve(outs[0].to, connected, groups) then [outs[0].event] + rest else rest
  }

  /** What a connection receives from two batches of emits is what it receives from each. */
  lemma {:induction false} ReceivesAppend<P>(a: seq<Outbound<P>>, b: seq<Outbound<P>>,
                                              connected: set<Id>, groups: map<Id, set<Id>>, c: Id)
    ensures Receives(a + b, connected, groups, c)
         == Receives(a, connected, groups, c) + Receives(b, connected, groups, c)
  {
    if a == [] {
      assert a + b == b;
    } else {
      assert (a + b)[1..] == a[1..] + b;
      ReceivesAppend(a[1..], b, connected, groups, c);
    }
  }

  /** A single emit reaches `c` exactly when `c` is among the connections its target resolves to. */
  lemma ReceivesOne<P>(o: Outbound<P>, connected: set<Id>, groups: map<Id, set<Id>>, c: Id)
    ensures Receives([o], connected, groups, c)
         == if c in Resolve(o.to, connected, groups) then [o.event] else []
  {
    assert [o][1..] == [];
  }
}
