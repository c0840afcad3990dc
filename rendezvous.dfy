/**
 * The rendezvous server's connection handlers (index.js): a table from room
 * name to the connections in that room, each connection's `socketRoom`, and
 * the events the handlers emit.
 *
 * Each handler is first a function from the table before to the table after
 * and the emits it makes (the `...Step` functions, whose contracts state what
 * the handler promises); the `Server` class then holds the same state in
 * fields and its methods are proved to perform exactly those steps.
 */
module Rendezvous {
  import opened Wrappers
  import opened Protocol
  import RoomIds

  /** The adapter's room map and every live connection's `socketRoom` (absent: `undefined`). */
  datatype Table = Table(rooms: map<RoomName, set<ConnId>>, socketRoom: map<ConnId, RoomName>)

  /** One emit call: the event and the set of connections it reaches. */
  datatype Delivery = Delivery(to: set<ConnId>, event: ServerEvent)

  /** A handler's effect: the table afterwards and the emits, in order. */
  datatype Reaction = Reaction(after: Table, sent: seq<Delivery>)

  /** `io.sockets.adapter.rooms.get(room)`, or nobody. */
  function Members(t: Table, room: RoomName): set<ConnId> {
    if room in t.rooms then t.rooms[room] else {}
  }

  /** `numClients` of the create and join handlers. */
  function Occupancy(t: Table, room: RoomName): nat {
    |Members(t, room)|
  }

  /** The audience of `socket.to(socketRoom)`: the caller's room without the caller. */
  function Peers(t: Table, c: ConnId): (audience: set<ConnId>)
    ensures c !in audience
    ensures c !in t.socketRoom ==> audience == {}
    ensures c in t.socketRoom ==> forall d :: d in audience <==> d != c && d in Members(t, t.socketRoom[c])
  {
    if c in t.socketRoom then Members(t, t.socketRoom[c]) - {c} else {}
  }

  /** `socket.join(room)`: idempotent; creates the room when absent. */
  function Enter(rooms: map<RoomName, set<ConnId>>, room: RoomName, c: ConnId): (joined: map<RoomName, set<ConnId>>)
    ensures room in joined && c in joined[room]
    ensures room in rooms ==> joined[room] == rooms[room] + {c}
    ensures room !in rooms ==> joined[room] == {c}
    ensures forall other :: other != room ==> (other in joined <==> other in rooms)
    ensures forall other :: other != room && other in rooms ==> joined[other] == rooms[other]
  {
    rooms[room := (if room in rooms then rooms[room] else {}) + {c}]
  }

  /** `socket.leave(room)`; the adapter deletes a room when its last member leaves. */
  function Exit(rooms: map<RoomName, set<ConnId>>, room: RoomName, c: ConnId): (left: map<RoomName, set<ConnId>>)
    ensures room in left <==> room in rooms && rooms[room] - {c} != {}
    ensures room in left ==> left[room] == rooms[room] - {c}
    ensures forall other :: other != room ==> (other in left <==> other in rooms)
    ensures forall other :: other != room && other in rooms ==> left[other] == rooms[other]
  {
    if room !in rooms then rooms
    else if rooms[room] - {c} == {} then rooms - {room}
    else rooms[room := rooms[room] - {c}]
  }

  /**
   * The invariant the handlers keep: no room is tracked empty, no room holds
   * more than two connections, and a connection's `socketRoom`, when set,
   * names a room it is in.
   */
  predicate WellFormed(t: Table) {
    && (forall room :: room in t.rooms ==> 0 < |t.rooms[room]| <= 2)
    && (forall c :: c in t.socketRoom ==> c in Members(t, t.socketRoom[c]))
  }

  /** In a well-formed table a connection has at most one other connection in its room. */
  lemma OthersInRoom(t: Table, c: ConnId)
    requires WellFormed(t)
    ensures |Peers(t, c)| <= 1
  {
    if c in t.socketRoom {
      var members := Members(t, t.socketRoom[c]);
      assert members == Peers(t, c) + {c};
    }
  }

  /** The `create` handler. */
  function CreateStep(t: Table, c: ConnId, room: RoomName): (r: Reaction)
    ensures Occupancy(t, room) == 0 ==>
      && r.after.rooms == t.rooms[room := {c}]
      && r.after.socketRoom == t.socketRoom[c := room]
      && r.sent == []
    ensures Occupancy(t, room) != 0 ==> r.after == t && r.sent == [Delivery({c}, Full)]
    ensures WellFormed(t) ==> WellFormed(r.after)
  {
    if Occupancy(t, room) == 0 then
      Reaction(Table(Enter(t.rooms, room, c), t.socketRoom[c := room]), [])
    else
      Reaction(t, [Delivery({c}, Full)])
  }

  /** The `join` handler. */
  function JoinStep(t: Table, c: ConnId, room: RoomName): (r: Reaction)
    ensures Occupancy(t, room) == 0 ==>
      r.after == t && r.sent == [Delivery({c}, Empty)] && (WellFormed(t) ==> room !in r.after.rooms)
    ensures Occupancy(t, room) == 1 ==>
      && r.after.rooms == t.rooms[room := Members(t, room) + {c}]
      && r.after.socketRoom == t.socketRoom[c := room]
      && r.sent == [Delivery(Members(t, room) + {c}, Ready)]
    ensures Occupancy(t, room) == 1 && c !in Members(t, room) ==> |r.sent[0].to| == 2
    ensures Occupancy(t, room) >= 2 ==> r.after == t && r.sent == [Delivery({c}, Full)]
    ensures WellFormed(t) ==> WellFormed(r.after)
  {
    if Occupancy(t, room) == 0 then
      Reaction(t, [Delivery({c}, Empty)])
    else if Occupancy(t, room) == 1 then
      var after := Table(Enter(t.rooms, room, c), t.socketRoom[c := room]);
      Reaction(after, [Delivery(Members(after, room), Ready)])
    else
      Reaction(t, [Delivery({c}, Full)])
  }

  /** The `message` handler: forward the payload untouched to the rest of the caller's room. */
  function RelayStep(t: Table, c: ConnId, m: Envelope): (r: Reaction)
    ensures r.after == t
    ensures |r.sent| == 1 && r.sent[0].event == Relayed(m)
    ensures forall d :: d in r.sent[0].to <==>
      d != c && c in t.socketRoom && d in Members(t, t.socketRoom[c])
  {
    Reaction(t, [Delivery(Peers(t, c), Relayed(m))])
  }

  /** In a well-formed table a relayed message reaches at most one connection. */
  lemma RelayReachesAtMostOne(t: Table, c: ConnId, m: Envelope)
    requires WellFormed(t)
    ensures |RelayStep(t, c, m).sent[0].to| <= 1
  {
    OthersInRoom(t, c);
  }

  /** The `end` handler. */
  function EndStep(t: Table, c: ConnId): (r: Reaction)
    ensures r.sent == [Delivery(Peers(t, c), End)]
    ensures r.after.socketRoom == t.socketRoom - {c}
    ensures c in t.socketRoom ==>
      Members(r.after, t.socketRoom[c]) == Members(t, t.socketRoom[c]) - {c}
    ensures forall room :: (c !in t.socketRoom || room != t.socketRoom[c]) ==>
      Members(r.after, room) == Members(t, room)
    ensures WellFormed(t) ==> WellFormed(r.after)
  {
    var rooms := if c in t.socketRoom then Exit(t.rooms, t.socketRoom[c], c) else t.rooms;
    Reaction(Table(rooms, t.socketRoom - {c}), [Delivery(Peers(t, c), End)])
  }

  /**
   * The transport `close` handler: it tells the rest of the room only when
   * `socketRoom` is truthy, a set non-empty string, and changes nothing.
   */
  function CloseStep(t: Table, c: ConnId): (r: Reaction)
    ensures r.after == t
    ensures c in t.socketRoom && t.socketRoom[c] != "" ==> r.sent == [Delivery(Peers(t, c), End)]
    ensures c !in t.socketRoom || t.socketRoom[c] == "" ==> r.sent == []
  {
    if c in t.socketRoom && t.socketRoom[c] != "" then
      Reaction(t, [Delivery(Peers(t, c), End)])
    else
      Reaction(t, [])
  }

  /**
   * What the socket.io adapter does when a connection goes away: the
   * connection leaves every room, emptied rooms are deleted, and its
   * `socketRoom` is gone with it. The transport's `close` event comes first
   * (CloseStep), while `socketRoom` is still set; a replay that puts
   * `Disconnection(c)` before `CloseRequest(c)` loses the `end` that the
   * `close` listener would still send from its closure.
   */
  function DisconnectStep(t: Table, c: ConnId): (r: Reaction)
    ensures forall room :: Members(r.after, room) == Members(t, room) - {c}
    ensures r.after.socketRoom == t.socketRoom - {c}
    ensures r.sent == []
    ensures WellFormed(t) ==> WellFormed(r.after)
  {
    var rooms := map room | room in t.rooms && t.rooms[room] - {c} != {} :: t.rooms[room] - {c};
    Reaction(Table(rooms, t.socketRoom - {c}), [])
  }

  /** One event a connection can raise at the server. */
  datatype Request =
    | CreateRequest(c: ConnId, room: RoomName)
    | JoinRequest(c: ConnId, room: RoomName)
    | MessageRequest(c: ConnId, m: Envelope)
    | EndRequest(c: ConnId)
    | CloseRequest(c: ConnId)
    | Disconnection(c: ConnId)

  function Step(t: Table, req: Request): Reaction {
    match req
    case CreateRequest(c, room) => CreateStep(t, c, room)
    case JoinRequest(c, room) => JoinStep(t, c, room)
    case MessageRequest(c, m) => RelayStep(t, c, m)
    case EndRequest(c) => EndStep(t, c)
    case CloseRequest(c) => CloseStep(t, c)
    case Disconnection(c) => DisconnectStep(t, c)
  }

  /** The table after the server has handled `reqs` in order, one at a time. */
  function Replay(t: Table, reqs: seq<Request>): Table
    decreases |reqs|
  {
    if reqs == [] then t else Replay(Step(t, reqs[0]).after, reqs[1..])
  }

  const EMPTY_TABLE: Table := Table(map[], map[])

  /** Whatever connections do, in whatever order, no room ever holds more than two of them. */
  lemma {:induction false} RunKeepsCapacity(t: Table, reqs: seq<Request>)
    requires WellFormed(t)
    ensures WellFormed(Replay(t, reqs))
    ensures forall room :: Occupancy(Replay(t, reqs), room) <= 2
    decreases |reqs|
  {
    if reqs != [] {
      RunKeepsCapacity(Step(t, reqs[0]).after, reqs[1..]);
    }
  }

  /** Of two connections joining a waiting room one after the other, only the first gets in. */
  lemma OnlyFirstJoinerSucceeds(t: Table, room: RoomName, a: ConnId, b: ConnId)
    requires WellFormed(t) && Occupancy(t, room) == 1
    requires a != b && a !in Members(t, room) && b !in Members(t, room)
    ensures var first := JoinStep(t, a, room);
      var second := JoinStep(first.after, b, room);
      && first.sent == [Delivery(Members(t, room) + {a}, Ready)]
      && second.sent == [Delivery({b}, Full)]
      && second.after == first.after
  {
    var first := JoinStep(t, a, room);
    assert Members(first.after, room) == Members(t, room) + {a};
  }

  /**
   * x requests a room and creates it, y joins it and both are told `ready`;
   * a third connection z can neither join nor create it.
   */
  lemma PairingScenario(x: ConnId, y: ConnId, z: ConnId, room: RoomName)
    requires x != y && z != x && z != y
    ensures var r1 := CreateStep(EMPTY_TABLE, x, room);
      var r2 := JoinStep(r1.after, y, room);
      var r3 := JoinStep(r2.after, z, room);
      var r4 := CreateStep(r2.after, z, room);
      && r1.sent == []
      && r2.sent == [Delivery({x, y}, Ready)]
      && r3.sent == [Delivery({z}, Full)] && r3.after == r2.after
      && r4.sent == [Delivery({z}, Full)] && r4.after == r2.after
      && Members(r2.after, room) == {x, y}
  {
    var r1 := CreateStep(EMPTY_TABLE, x, room);
    assert Members(r1.after, room) == {x};
    var r2 := JoinStep(r1.after, y, room);
    assert Members(r2.after, room) == {x, y};
    assert Occupancy(r2.after, room) == 2;
  }

  /** Joining a room nobody created yields `empty` and no room. */
  lemma JoinUnknownRoomScenario(y: ConnId, room: RoomName)
    ensures JoinStep(EMPTY_TABLE, y, room) == Reaction(EMPTY_TABLE, [Delivery({y}, Empty)])
  {
  }

  /**
   * x and y are paired and x's transport closes: y is told `end` once, the
   * adapter drops x, y's own `end` reaches nobody and deletes the room, and
   * the name can be created afresh.
   */
  lemma AbruptDisconnectScenario(x: ConnId, y: ConnId, w: ConnId, room: RoomName)
    requires x != y && room != ""
    ensures var paired := JoinStep(CreateStep(EMPTY_TABLE, x, room).after, y, room).after;
      var closed := CloseStep(paired, x);
      var dropped := DisconnectStep(closed.after, x);
      var ended := EndStep(dropped.after, y);
      && closed.sent == [Delivery({y}, End)]
      && dropped.sent == []
      && ended.sent == [Delivery({}, End)]
      && room !in ended.after.rooms
      && CreateStep(ended.after, w, room).sent == []
      && Members(CreateStep(ended.after, w, room).after, room) == {w}
  {
    var created := CreateStep(EMPTY_TABLE, x, room).after;
    assert Members(created, room) == {x};
    var paired := JoinStep(created, y, room).after;
    assert Members(paired, room) == {x, y};
    var dropped := DisconnectStep(CloseStep(paired, x).after, x).after;
    assert Members(dropped, room) == {y};
  }

  /**
   * The server: the adapter's room map, each connection's `socketRoom`, and
   * the log of emits. Each handler method performs its `...Step`.
   */
  class Server {
    var rooms: map<RoomName, set<ConnId>>
    var socketRoom: map<ConnId, RoomName>
    var outbox: seq<Delivery>

    function State(): Table
      reads this
    {
      Table(rooms, socketRoom)
    }

    ghost predicate Valid()
      reads this
    {
      WellFormed(State())
    }

    constructor ()
      ensures Valid() && State() == EMPTY_TABLE && outbox == []
    {
      rooms := map[];
      socketRoom := map[];
      outbox := [];
    }

    /**
     * `GET /roomId` as the server runs it: the bracket lookup never finds a
     * room, so the first candidate is the answer, active or not.
     */
    method RoomIdRequest(random: seq<real>) returns (id: Option<RoomName>)
      requires RoomIds.AreDraws(random)
      ensures RoomIds.Attempts(random) > 0 ==> id == Some(RoomIds.Candidate(random, 0))
      ensures RoomIds.Attempts(random) == 0 ==> id.None?
    {
      id := RoomIds.GenerateIdAsWritten(random, rooms);
    }

    /** `GET /roomId` with the lookup on the map's entries (RoomIds.GenerateFreshId). */
    method FreshRoomIdRequest(random: seq<real>) returns (id: Option<RoomName>)
      requires RoomIds.AreDraws(random)
      ensures id.Some? ==> RoomIds.IsRoomId(id.value) && id.value !in rooms
      ensures id.None? ==> forall k :: 0 <= k < RoomIds.Attempts(random) ==> RoomIds.Candidate(random, k) in rooms
    {
      id := RoomIds.GenerateFreshId(random, rooms);
    }

    method OnCreate(c: ConnId, room: RoomName)
      requires Valid()
      modifies this
      ensures Valid()
      ensures State() == CreateStep(old(State()), c, room).after
      ensures outbox == old(outbox) + CreateStep(old(State()), c, room).sent
    {
      var numClients := if room in rooms then |rooms[room]| else 0;
      if numClients == 0 {
        rooms := rooms[room := {c}];
        socketRoom := socketRoom[c := room];
      } else {
        outbox := outbox + [Delivery({c}, Full)];
      }
    }

    method OnJoin(c: ConnId, room: RoomName)
      requires Valid()
      modifies this
      ensures Valid()
      ensures State() == JoinStep(old(State()), c, room).after
      ensures outbox == old(outbox) + JoinStep(old(State()), c, room).sent
    {
      var numClients := if room in rooms then |rooms[room]| else 0;
      if numClients == 0 {
        outbox := outbox + [Delivery({c}, Empty)];
      } else if numClients == 1 {
        rooms := rooms[room := rooms[room] + {c}];
        socketRoom := socketRoom[c := room];
        outbox := outbox + [Delivery(rooms[room], Ready)];
      } else {
        outbox := outbox + [Delivery({c}, Full)];
      }
    }

    method OnMessage(c: ConnId, m: Envelope)
      requires Valid()
      modifies this
      ensures Valid() && State() == old(State())
      ensures outbox == old(outbox) + RelayStep(old(State()), c, m).sent
    {
      var audience := if c in socketRoom && socketRoom[c] in rooms then rooms[socketRoom[c]] - {c} else {};
      outbox := outbox + [Delivery(audience, Relayed(m))];
    }

    method OnEnd(c: ConnId)
      requires Valid()
      modifies this
      ensures Valid()
      ensures State() == EndStep(old(State()), c).after
      ensures outbox == old(outbox) + EndStep(old(State()), c).sent
    {
      var audience := if c in socketRoom && socketRoom[c] in rooms then rooms[socketRoom[c]] - {c} else {};
      outbox := outbox + [Delivery(audience, End)];
      if c in socketRoom {
        var room := socketRoom[c];
        if room in rooms {
          var rest := rooms[room] - {c};
          rooms := if rest == {} then rooms - {room} else rooms[room := rest];
        }
        socketRoom := socketRoom - {c};
      }
    }

    method OnClose(c: ConnId)
      requires Valid()
      modifies this
      ensures Valid() && State() == old(State())
      ensures outbox == old(outbox) + CloseStep(old(State()), c).sent
    {
      if c in socketRoom && socketRoom[c] != "" {
        var audience := if socketRoom[c] in rooms then rooms[socketRoom[c]] - {c} else {};
        outbox := outbox + [Delivery(audience, End)];
      }
    }

    method Disconnect(c: ConnId)
      requires Valid()
      modifies this
      ensures Valid()
      ensures State() == DisconnectStep(old(State()), c).after
      ensures outbox == old(outbox)
    {
      rooms := map room | room in rooms && rooms[room] - {c} != {} :: rooms[room] - {c};
      socketRoom := socketRoom - {c};
    }
  }
}
