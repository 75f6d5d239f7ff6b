/**
 * The relay server's room routing (server/index.js).
 *
 * Each client socket is a session with a handler-local `currentRoom` (initially
 * null). Socket.io keeps its own membership table, changed only through
 * `socket.leave` and `socket.join`; both are modelled. `join` leaves the current
 * room only when it is truthy, so a session that joined "" stays in "" — a room
 * nothing is ever routed to, because an event whose room is falsy is dropped.
 * Routing changes nothing: `Broadcast` is a function of the hub's state that
 * returns the recipients and the message, which is forwarded as received.
 */
module Relay {
  import opened Wrappers
  import opened Protocol

  type SessionId = nat

  /** One re-emission: the sessions it reaches and the message they receive. */
  datatype Delivery = Delivery(recipients: set<SessionId>, msg: Message)

  /** The rooms a session's current room keeps it in, among the routable (truthy) names. */
  function Routable(room: Option<string>): set<string> {
    if Truthy(room) then {room.value} else {}
  }

  /**
   * A session's handler-side current room and its socket.io rooms agree: the
   * current room is joined, and it is the only routable room joined.
   */
  predicate Consistent(current: Option<string>, joined: set<string>) {
    && (current.Some? ==> current.value in joined)
    && joined - {""} == Routable(current)
  }

  /** socket.io membership after `join(room)`: the current room is left only when truthy. */
  function Joined(was: set<string>, current: Option<string>, room: string): set<string> {
    was - Routable(current) + {room}
  }

  /**
   * From a consistent session, `join(room)` leaves it in `room` and in no other
   * routable room, keeps the two tables consistent, and changes nothing when
   * `room` is already the current room. The room it was in is left exactly when
   * it is truthy: a falsy current room leaves every joined room joined, and a
   * truthy one other than `room` is no longer joined.
   */
  lemma JoinedFacts(was: set<string>, current: Option<string>, room: string)
    requires Consistent(current, was)
    ensures var r := Joined(was, current, room);
      && room in r && r <= {room, ""}
      && Consistent(Some(room), r)
      && (current == Some(room) ==> r == was)
      && (!Truthy(current) ==> was <= r)
      && (Truthy(current) && current.value != room ==> current.value !in r)
  {
    var r := Joined(was, current, room);
    if room == "" {
      assert r - {""} == {};
    } else {
      assert r - {""} == {room};
    }
  }

  class Hub {
    var sessions: set<SessionId>
    var currentRoom: map<SessionId, Option<string>>
    var rooms: map<SessionId, set<string>>
    var nextId: nat

    /**
     * Both tables cover exactly the connected sessions, ids are never reused,
     * the current room is among the joined ones, and the only routable room a
     * session is in is its current one.
     */
    ghost predicate Valid()
      reads this
    {
      && currentRoom.Keys == sessions
      && rooms.Keys == sessions
      && (forall s :: s in sessions ==> s < nextId)
      && (forall s {:trigger Consistent(currentRoom[s], rooms[s])} ::
            s in sessions ==> Consistent(currentRoom[s], rooms[s]))
    }

    constructor ()
      ensures Valid() && sessions == {}
    {
      sessions, currentRoom, rooms, nextId := {}, map[], map[], 0;
    }

    /** A client connects: a new session, with the next id, in no room. */
    method Connect() returns (s: SessionId)
      requires Valid()
      modifies this
      ensures Valid()
      ensures s == old(nextId) && nextId == old(nextId) + 1
      ensures s !in old(sessions) && sessions == old(sessions) + {s}
      ensures currentRoom == old(currentRoom)[s := None]
      ensures rooms == old(rooms)[s := {}]
    {
      s := nextId;
      nextId := nextId + 1;
      sessions := sessions + {s};
      currentRoom := currentRoom[s := None];
      rooms := rooms[s := {}];
    }

    /** The `join` handler: leave the current room if truthy, then join `room`. */
    method Join(s: SessionId, room: string)
      requires Valid() && s in sessions
      modifies this
      ensures Valid()
      ensures sessions == old(sessions) && nextId == old(nextId)
      ensures currentRoom == old(currentRoom)[s := Some(room)]
      ensures rooms == old(rooms)[s := Joined(old(rooms[s]), old(currentRoom[s]), room)]
      ensures room in rooms[s]
      ensures !Truthy(old(currentRoom[s])) ==> old(rooms[s]) <= rooms[s]
      ensures Truthy(old(currentRoom[s])) && old(currentRoom[s]).value != room ==>
        old(currentRoom[s]).value !in rooms[s]
    {
      JoinedFacts(rooms[s], currentRoom[s], room);
      var membership := rooms[s];
      if Truthy(currentRoom[s]) {
        membership := membership - {currentRoom[s].value};
      }
      currentRoom := currentRoom[s := Some(room)];
      membership := membership + {room};
      assert membership == Joined(old(rooms[s]), old(currentRoom[s]), room);
      rooms := rooms[s := membership];
    }

    /** Among routable names, socket.io's membership and the handler's current room agree. */
    lemma MembershipIsCurrentRoom(r: string)
      requires Valid() && r != ""
      ensures forall s :: s in sessions ==> (r in rooms[s] <==> currentRoom[s] == Some(r))
    {
      forall s | s in sessions
        ensures r in rooms[s] <==> currentRoom[s] == Some(r)
      {
        assert Consistent(currentRoom[s], rooms[s]);
        assert r in rooms[s] <==> r in rooms[s] - {""};
      }
    }

    /** A client disconnects: socket.io drops it from every room; the handler does nothing. */
    method Disconnect(s: SessionId)
      requires Valid() && s in sessions
      modifies this
      ensures Valid()
      ensures sessions == old(sessions) - {s}
      ensures currentRoom == old(currentRoom) - {s} && rooms == old(rooms) - {s}
    {
      sessions := sessions - {s};
      currentRoom := currentRoom - {s};
      rooms := rooms - {s};
    }

    /**
     * The three device event handlers: an event with a truthy room is re-emitted,
     * unchanged and under its own name, to exactly the sessions whose current room
     * it names; any other event is dropped. The sender plays no part.
     */
    function Broadcast(m: Message): (d: Delivery)
      reads this
      requires Valid()
      ensures d.msg == m
      ensures forall s :: s in d.recipients <==>
        s in sessions && Truthy(m.payload.room) && currentRoom[s] == m.payload.room
    {
      var room := m.payload.room;
      if Truthy(room) then
        MembershipIsCurrentRoom(room.value);
        Delivery((set s | s in sessions && room.value in rooms[s]), m)
      else
        Delivery({}, m)
    }
  }

  lemma OnlyTheseThree(rec: set<SessionId>, a: SessionId, b: SessionId, c: SessionId, other: SessionId)
    requires rec <= {a, b, c, other} && a in rec && b in rec && c in rec && other !in rec
    ensures rec == {a, b, c}
  {
  }

  /** A client connects and joins `room`. */
  method ConnectAndJoin(hub: Hub, room: string) returns (s: SessionId)
    requires hub.Valid()
    modifies hub
    ensures hub.Valid()
    ensures s !in old(hub.sessions) && hub.sessions == old(hub.sessions) + {s}
    ensures hub.currentRoom == old(hub.currentRoom)[s := Some(room)]
  {
    s := hub.Connect();
    hub.Join(s, room);
  }

  /** A hub with three sessions joined to "r1" and a fourth joined to "r2". */
  method FourSessions() returns (hub: Hub, a: SessionId, b: SessionId, c: SessionId, other: SessionId)
    ensures fresh(hub) && hub.Valid()
    ensures hub.sessions == {a, b, c, other}
    ensures a != b && a != c && b != c && other != a && other != b && other != c
    ensures hub.currentRoom[a] == hub.currentRoom[b] == hub.currentRoom[c] == Some("r1")
    ensures hub.currentRoom[other] == Some("r2")
  {
    hub := new Hub();
    a := ConnectAndJoin(hub, "r1");
    b := ConnectAndJoin(hub, "r1");
    c := ConnectAndJoin(hub, "r1");
    other := ConnectAndJoin(hub, "r2");
  }

  /**
   * Three sessions in "r1" and one in "r2": a device_data event for "r1" reaches
   * exactly the three, and its payload arrives unchanged.
   */
  method FanOutExample(p: Payload) returns (d: Delivery, r1: set<SessionId>, other: SessionId)
    requires p.room == Some("r1")
    ensures r1 == d.recipients && |r1| == 3 && other !in d.recipients
    ensures d.msg == Message(DeviceData, p)
  {
    var hub, a, b, c, o := FourSessions();
    other := o;
    d := hub.Broadcast(Message(DeviceData, p));
    r1 := {a, b, c};
    assert a in d.recipients && b in d.recipients && c in d.recipients;
    assert other !in d.recipients;
    assert d.recipients <= hub.sessions;
    OnlyTheseThree(d.recipients, a, b, c, other);
    assert a != b && b != c && a != c;
  }

  /**
   * A session that switches from room A to room B no longer receives events sent
   * to A, and receives those sent to B.
   */
  method SwitchRoomExample(p: Payload, a: string, b: string)
    returns (toA: Delivery, toB: Delivery, s: SessionId)
    requires a != "" && b != "" && a != b
    ensures s !in toA.recipients && s in toB.recipients
  {
    var hub := new Hub();
    s := hub.Connect();
    hub.Join(s, a);
    hub.Join(s, b);
    toA := hub.Broadcast(Message(DeviceConnected, p.(room := Some(a))));
    toB := hub.Broadcast(Message(DeviceConnected, p.(room := Some(b))));
  }

  /**
   * A session that joined "" is never taken out of it: the empty room is falsy,
   * so the next join does not leave it, and the session is in both rooms.
   */
  method EmptyRoomKept(r: string) returns (joined: set<string>)
    requires r != ""
    ensures joined == {"", r}
  {
    var hub := new Hub();
    var s := hub.Connect();
    hub.Join(s, "");
    hub.Join(s, r);
    joined := hub.rooms[s];
  }

  /** An event whose room is missing or empty reaches nobody, whoever is connected. */
  method DropExample(p: Payload) returns (d: Delivery)
    requires p.room == None || p.room == Some("")
    ensures d.recipients == {}
  {
    var hub := new Hub();
    var s := hub.Connect();
    hub.Join(s, "");
    d := hub.Broadcast(Message(DeviceDisconnected, p));
  }
}
