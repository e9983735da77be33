/** One turn of the server's loop over all clients, and why it is one of the runs of the server. */
module ServerTicks {
  import opened Collections
  import opened Messages
  import opened Rooms
  import opened RoomManagers
  import opened RoomLists
  import opened HistoryStores
  import opened ServerSpec
  import opened ServerWorkers

  class ClientConnection {
    const id: ClientId
    const userName: string
    var messagesIn: seq<Message>
    var messagesOut: seq<Message>

    constructor (id: ClientId, userName: string)
      ensures this.id == id && this.userName == userName && messagesIn == [] && messagesOut == []
    {
      this.id, this.userName, messagesIn, messagesOut := id, userName, [], [];
    }

    method Push(messages: seq<Message>)
      modifies this`messagesOut
      ensures messagesOut == old(messagesOut) + messages
    {
      messagesOut := messagesOut + messages;
    }
  }

  /** The connection objects that still exist, by client. */
  type Connections = map<ClientId, ClientConnection>

  ghost predicate Keyed(connections: Connections) {
    forall c :: c in connections ==> connections[c].id == c
  }

  ghost function Outboxes(connections: Connections): map<ClientId, seq<Message>>
    reads connections.Values
  {
    map c | c in connections :: connections[c].messagesOut
  }

  // ---- Broadcasts ----

  /** Every outbox with a message more for the listed clients. */
  function ToAll(outboxes: map<ClientId, seq<Message>>, clients: seq<ClientId>, messages: seq<Message>): map<ClientId, seq<Message>> {
    map c | c in outboxes :: if c in clients then outboxes[c] + messages else outboxes[c]
  }

  method PushTo(connections: Connections, c: ClientId, messages: seq<Message>)
    requires Keyed(connections) && c in connections
    modifies connections.Values`messagesOut
    ensures Outboxes(connections) == old(Outboxes(connections))[c := old(Outboxes(connections))[c] + messages]
  {
    connections[c].Push(messages);
  }

  method Broadcast(connections: Connections, clients: seq<ClientId>, m: Message)
    requires Keyed(connections) && Distinct(clients) && forall c :: c in clients ==> c in connections
    modifies connections.Values`messagesOut
    ensures Outboxes(connections) == ToAll(old(Outboxes(connections)), clients, [m])
  {
    for i := 0 to |clients|
      invariant Outboxes(connections) == ToAll(old(Outboxes(connections)), clients[..i], [m])
    {
      assert clients[i] in clients && clients[i] !in clients[..i];
      ghost var before := Outboxes(connections);
      PushTo(connections, clients[i], [m]);
      OneMore(old(Outboxes(connections)), clients, i, [m]);
    }
    assert clients[..|clients|] == clients;
  }

  lemma OneMore(outboxes: map<ClientId, seq<Message>>, clients: seq<ClientId>, i: nat, messages: seq<Message>)
    requires i < |clients| && Distinct(clients) && clients[i] in outboxes
    ensures var before := ToAll(outboxes, clients[..i], messages);
            before[clients[i] := before[clients[i]] + messages] == ToAll(outboxes, clients[..i + 1], messages)
  {
    assert clients[i] !in clients[..i];
    assert clients[..i + 1] == clients[..i] + [clients[i]];
  }

  lemma ToAllJoins(outboxes: map<ClientId, seq<Message>>, clients: seq<ClientId>, a: seq<Message>, b: seq<Message>)
    ensures ToAll(ToAll(outboxes, clients, a), clients, b) == ToAll(outboxes, clients, a + b)
    ensures ToAll(outboxes, clients, []) == outboxes
  {
    forall c | c in outboxes
      ensures outboxes[c] + [] == outboxes[c] && outboxes[c] + a + b == outboxes[c] + (a + b)
    {
    }
  }

  method TellCreated(connections: Connections, clients: seq<ClientId>, names: seq<string>)
    requires Keyed(connections) && Distinct(clients) && forall c :: c in clients ==> c in connections
    modifies connections.Values`messagesOut
    ensures Outboxes(connections) == ToAll(old(Outboxes(connections)), clients, Creates(names))
  {
    ghost var before := Outboxes(connections);
    hide ToAll;
    ToAllJoins(before, clients, [], []);
    for i := 0 to |names|
      invariant Outboxes(connections) == ToAll(before, clients, Creates(names)[..i])
    {
      Broadcast(connections, clients, RoomCreate(names[i]));
      ToAllJoins(before, clients, Creates(names)[..i], [RoomCreate(names[i])]);
      assert Creates(names)[..i] + [RoomCreate(names[i])] == Creates(names)[..i + 1];
    }
    assert Creates(names)[..|names|] == Creates(names);
  }

  method TellDestroyed(connections: Connections, clients: seq<ClientId>, names: seq<string>)
    requires Keyed(connections) && Distinct(clients) && forall c :: c in clients ==> c in connections
    modifies connections.Values`messagesOut
    ensures Outboxes(connections) == ToAll(old(Outboxes(connections)), clients, Destroys(names))
  {
    ghost var before := Outboxes(connections);
    hide ToAll;
    ToAllJoins(before, clients, [], []);
    for i := 0 to |names|
      invariant Outboxes(connections) == ToAll(before, clients, Destroys(names)[..i])
    {
      Broadcast(connections, clients, RoomDestroy(names[i]));
      ToAllJoins(before, clients, Destroys(names)[..i], [RoomDestroy(names[i])]);
      assert Destroys(names)[..i] + [RoomDestroy(names[i])] == Destroys(names)[..i + 1];
    }
    assert Destroys(names)[..|names|] == Destroys(names);
  }

  // ---- Chat lines ----

  /** Each client that has joined and still exists gets the room's lines, once each. */
  method Deliver(connections: Connections, joined: seq<ClientId>, messages: seq<Message>)
    requires Keyed(connections) && Distinct(joined) && forall c :: c in joined ==> c in connections
    modifies connections.Values`messagesOut
    ensures Outboxes(connections) == ToAll(old(Outboxes(connections)), joined, messages)
  {
    for i := 0 to |joined|
      invariant Outboxes(connections) == ToAll(old(Outboxes(connections)), joined[..i], messages)
    {
      assert joined[i] in joined && joined[i] !in joined[..i];
      PushTo(connections, joined[i], messages);
      OneMore(old(Outboxes(connections)), joined, i, messages);
    }
    assert joined[..|joined|] == joined;
  }

  function WithEchoes(outboxes: map<ClientId, seq<Message>>, rooms: seq<ServerRoom>): map<ClientId, seq<Message>> {
    map c | c in outboxes :: outboxes[c] + Echoes(rooms, c)
  }

  lemma WithMoreEchoes(outboxes: map<ClientId, seq<Message>>, rooms: seq<ServerRoom>, room: ServerRoom,
                       joined: seq<ClientId>)
    requires forall c :: c in outboxes ==> (c in joined <==> c in room.data.joined)
    ensures ToAll(WithEchoes(outboxes, rooms), joined, RoomEchoes(room)) == WithEchoes(outboxes, rooms + [room])
  {
    assert (rooms + [room])[..|rooms|] == rooms;
    forall c | c in outboxes
      ensures outboxes[c] + Echoes(rooms + [room], c) ==
              (if c in joined then outboxes[c] + Echoes(rooms, c) + RoomEchoes(room) else outboxes[c] + Echoes(rooms, c))
    {
      assert Echoes(rooms + [room], c) == Echoes(rooms, c) + if c in joined then RoomEchoes(room) else [];
    }
  }

  ghost predicate JoinedOnce(rooms: seq<ServerRoom>) {
    forall i :: 0 <= i < |rooms| ==> Distinct(rooms[i].data.joined)
  }

  lemma {:induction false} ConnectedOnce(joined: seq<ClientId>, live: set<ClientId>)
    requires Distinct(joined)
    ensures Distinct(Connected(joined, live))
    ensures forall c :: c in Connected(joined, live) <==> c in joined && c in live
  {
    if joined != [] {
      var earlier, last := joined[..|joined| - 1], joined[|joined| - 1];
      ConnectedOnce(earlier, live);
      assert joined == earlier + [last];
      assert last !in earlier;
    }
  }

  /** Rooms, histories and connections are different objects. */
  ghost predicate Separate(worker: ServerWorker, connections: Connections)
    reads worker, worker.rooms, worker.history
  {
    && Keyed(connections)
    && forall c :: c in connections ==> (connections[c] as object) !in worker.history.repr
  }

  /** One room: drop the clients that are gone, and take its events. */
  method EmptyRoom(worker: ServerWorker, live: set<ClientId>, i: nat) returns (joined: seq<ClientId>, messages: seq<Message>)
    requires worker.Valid() && i < |worker.rooms.activeRooms|
    modifies worker.rooms.activeRooms
    ensures worker.Valid()
    ensures var room, s := old(worker.Value()).rooms[i], old(worker.Value());
            && worker.Value() == s.(rooms := s.rooms[i := Distributed(room, live)])
            && joined == Connected(room.data.joined, live) && messages == RoomEchoes(room)
  {
    hide RoomManager.Valid, HistoryStore.Valid, Connected, Names, WellNamed;
    var room := worker.rooms.activeRooms[i];
    FoundThere(worker.rooms, i);
    joined := StillConnected(room.data.joined, live);
    messages := EventsToMessages(room.name, room.data.events);
    SetData(worker.rooms, room, ServerData(joined, []));
  }

  /** And send the events to the clients that are left. */
  method DistributeRoom(worker: ServerWorker, connections: Connections, i: nat)
    requires worker.Valid() && Separate(worker, connections)
    requires i < |worker.Value().rooms| && Distinct(worker.Value().rooms[i].data.joined)
    modifies worker.rooms.activeRooms, connections.Values`messagesOut
    ensures worker.Valid() && Separate(worker, connections)
    ensures var room, s := old(worker.Value()).rooms[i], old(worker.Value());
            && worker.Value() == s.(rooms := s.rooms[i := Distributed(room, connections.Keys)])
            && Outboxes(connections) ==
               ToAll(old(Outboxes(connections)), Connected(room.data.joined, connections.Keys), RoomEchoes(room))
  {
    RoomCount(worker);
    hide ServerWorker.Valid, ServerWorker.Value, ToAll, Connected, Outboxes, Distinct, Distributed, RoomEchoes;
    ConnectedOnce(worker.Value().rooms[i].data.joined, connections.Keys);
    var joined, messages := EmptyRoom(worker, connections.Keys, i);
    Deliver(connections, joined, messages);
  }

  lemma FoundThere(manager: RoomManager<ServerData>, i: nat)
    requires manager.Valid() && i < |manager.activeRooms|
    ensures Find(manager.Value(), manager.activeRooms[i].name) == i
  {
    FindIs(manager.Value(), i);
  }

  lemma RoomCount(worker: ServerWorker)
    ensures |worker.Value().rooms| == |worker.rooms.activeRooms|
  {
  }

  lemma OneMoreDistributed(rooms: seq<ServerRoom>, live: set<ClientId>, i: nat)
    requires i < |rooms|
    ensures var distributed := AllDistributed(rooms, live);
            var done := distributed[..i] + rooms[i..];
            && done[i] == rooms[i] && done[i := Distributed(rooms[i], live)] == distributed[..i + 1] + rooms[i + 1..]
  {
  }

  lemma OneMoreEchoed(outboxes: map<ClientId, seq<Message>>, rooms: seq<ServerRoom>, i: nat)
    requires i < |rooms| && JoinedOnce(rooms)
    ensures ToAll(WithEchoes(outboxes, rooms[..i]), Connected(rooms[i].data.joined, outboxes.Keys), RoomEchoes(rooms[i])) ==
            WithEchoes(outboxes, rooms[..i + 1])
  {
    ConnectedOnce(rooms[i].data.joined, outboxes.Keys);
    assert rooms[..i] + [rooms[i]] == rooms[..i + 1];
    WithMoreEchoes(outboxes, rooms[..i], rooms[i], Connected(rooms[i].data.joined, outboxes.Keys));
  }

  /** The first `i` rooms of the server `s` are distributed, the others not yet. */
  ghost predicate Halfway(worker: ServerWorker, connections: Connections, s: Server,
                          outboxes: map<ClientId, seq<Message>>, i: nat)
    requires i <= |s.rooms|
    reads worker, worker.rooms, worker.rooms.activeRooms, worker.history, worker.history.repr, connections.Values
  {
    && worker.Valid() && Separate(worker, connections)
    && worker.Value() == s.(rooms := AllDistributed(s.rooms, connections.Keys)[..i] + s.rooms[i..])
    && Outboxes(connections) == WithEchoes(outboxes, s.rooms[..i])
  }

  method DistributeNext(worker: ServerWorker, connections: Connections, i: nat,
                        ghost s: Server, ghost outboxes: map<ClientId, seq<Message>>)
    requires i < |s.rooms| && Halfway(worker, connections, s, outboxes, i)
    requires outboxes.Keys == connections.Keys && JoinedOnce(s.rooms)
    modifies worker.rooms.activeRooms, connections.Values`messagesOut
    ensures Halfway(worker, connections, s, outboxes, i + 1)
  {
    hide ServerWorker.Valid, ServerWorker.Value, ToAll, Connected, Outboxes, WithEchoes, AllDistributed, RoomEchoes, Separate;
    OneMoreDistributed(s.rooms, connections.Keys, i);
    OneMoreEchoed(outboxes, s.rooms, i);
    DistributeRoom(worker, connections, i);
  }

  method DistributeAll(worker: ServerWorker, connections: Connections, ghost s: Server, ghost outboxes: map<ClientId, seq<Message>>)
    requires Halfway(worker, connections, s, outboxes, 0) && |s.rooms| == |worker.rooms.activeRooms|
    requires outboxes.Keys == connections.Keys && JoinedOnce(s.rooms)
    modifies worker.rooms.activeRooms, connections.Values`messagesOut
    ensures Halfway(worker, connections, s, outboxes, |s.rooms|)
  {
    hide *;
    for i := 0 to |worker.rooms.activeRooms|
      invariant worker.rooms.activeRooms == old(worker.rooms.activeRooms)
      invariant Halfway(worker, connections, s, outboxes, i)
    {
      DistributeNext(worker, connections, i, s, outboxes);
    }
  }

  method DistributeRooms(worker: ServerWorker, connections: Connections)
    requires worker.Valid() && Separate(worker, connections) && JoinedOnce(worker.Value().rooms)
    modifies worker.rooms.activeRooms, connections.Values`messagesOut
    ensures worker.Valid() && Separate(worker, connections)
    ensures var s := old(worker.Value());
            && worker.Value() == s.(rooms := AllDistributed(s.rooms, connections.Keys))
            && Outboxes(connections) == WithEchoes(old(Outboxes(connections)), s.rooms)
  {
    ghost var s, outboxes := worker.Value(), Outboxes(connections);
    ghost var n := |s.rooms|;
    RoomCount(worker);
    HalfwayEnds(worker, connections, s, outboxes);
    assert outboxes.Keys == connections.Keys;
    hide Halfway, ServerWorker.Valid, ServerWorker.Value, Outboxes, Separate, JoinedOnce;
    DistributeAll(worker, connections, s, outboxes);
    HalfwayEnds(worker, connections, s, outboxes);
  }

  lemma HalfwayEnds(worker: ServerWorker, connections: Connections, s: Server, outboxes: map<ClientId, seq<Message>>)
    ensures worker.Valid() && Separate(worker, connections) && worker.Value() == s && Outboxes(connections) == outboxes
            ==> Halfway(worker, connections, s, outboxes, 0)
    ensures Halfway(worker, connections, s, outboxes, |s.rooms|) ==>
              && worker.Valid() && Separate(worker, connections)
              && worker.Value() == s.(rooms := AllDistributed(s.rooms, connections.Keys))
              && Outboxes(connections) == WithEchoes(outboxes, s.rooms)
  {
    var distributed := AllDistributed(s.rooms, connections.Keys);
    hide ServerWorker.Valid, ServerWorker.Value, Outboxes, WithEchoes, Separate, AllDistributed;
    NoEchoesYet(outboxes);
    assert distributed[..0] + s.rooms[0..] == s.rooms && s.rooms[..0] == [];
    assert |distributed| == |s.rooms| by {
      assert |Names(distributed)| == |Names(s.rooms)|;
    }
    assert s.rooms[..|s.rooms|] == s.rooms && distributed[..|s.rooms|] + s.rooms[|s.rooms|..] == distributed;
  }

  lemma NoEchoesYet(outboxes: map<ClientId, seq<Message>>)
    ensures WithEchoes(outboxes, []) == outboxes
  {
    forall c | c in outboxes
      ensures outboxes[c] + Echoes([], c) == outboxes[c]
    {
    }
  }

  // ---- The end of a tick ----

  method EraseAll(history: HistoryStore<RoomEvent>, names: seq<string>)
    requires history.Valid()
    modifies history
    ensures history.Valid() && history.repr == old(history.repr)
    ensures history.contents == old(history.contents) - Elements(names)
  {
    hide HistoryStore.Valid;
    for i := 0 to |names|
      invariant history.Valid() && history.repr == old(history.repr)
      invariant history.contents == old(history.contents) - Elements(names[..i])
    {
      history.Erase(names[i]);
      assert Elements(names[..i + 1]) == Elements(names[..i]) + {names[i]};
    }
    assert names[..|names|] == names;
  }

  /** Histories and rooms go, and the next tick starts with nothing to broadcast. */
  method CleanUp(worker: ServerWorker)
    requires worker.Valid()
    modifies worker, worker.rooms, worker.history
    ensures worker.Valid() && worker.history.repr == old(worker.history.repr)
    ensures forall room :: room in worker.rooms.activeRooms ==> room in old(worker.rooms.activeRooms)
    ensures var s := old(worker.Value());
            worker.Value() == Server(Sweep(s.rooms), s.history - Elements(s.destroyed), [], [])
  {
    hide RoomManager.Valid, HistoryStore.Valid, RoomManager.Value, Sweep, Elements;
    EraseAll(worker.history, worker.destroyedRooms);
    worker.rooms.RemoveDestroyedRooms();
    worker.newRooms, worker.destroyedRooms := [], [];
  }

  /** Every outbox after the end of a tick. */
  function AllOutput(outboxes: map<ClientId, seq<Message>>, s: Server, clients: seq<ClientId>): map<ClientId, seq<Message>> {
    map c | c in outboxes :: outboxes[c] + TickOutput(s, c, c in clients, true)
  }

  lemma OutputIs(outboxes: map<ClientId, seq<Message>>, s: Server, clients: seq<ClientId>)
    ensures WithEchoes(ToAll(outboxes, clients, Broadcasts(s)), s.rooms) == AllOutput(outboxes, s, clients)
  {
    hide Echoes, Broadcasts;
    forall c | c in outboxes
      ensures ToAll(outboxes, clients, Broadcasts(s))[c] + Echoes(s.rooms, c) ==
              outboxes[c] + TickOutput(s, c, c in clients, true)
    {
      OutputFor(outboxes[c], Broadcasts(s), Echoes(s.rooms, c));
    }
  }

  lemma OutputFor(outbox: seq<Message>, told: seq<Message>, lines: seq<Message>)
    ensures outbox + told + lines == outbox + (told + lines) && outbox + ([] + lines) == outbox + lines
  {
    assert [] + lines == lines;
  }

  /** All creates, then all destroys, to every client of the tick. */
  method Announce(worker: ServerWorker, connections: Connections, clients: seq<ClientId>)
    requires worker.Valid() && Separate(worker, connections)
    requires Distinct(clients) && forall c :: c in clients ==> c in connections
    modifies connections.Values`messagesOut
    ensures worker.Valid() && Separate(worker, connections) && worker.Value() == old(worker.Value())
    ensures Outboxes(connections) == ToAll(old(Outboxes(connections)), clients, Broadcasts(worker.Value()))
  {
    hide ToAll, Outboxes, RoomManager.Valid, HistoryStore.Valid;
    ToAllJoins(Outboxes(connections), clients, Creates(worker.newRooms), Destroys(worker.destroyedRooms));
    TellCreated(connections, clients, worker.newRooms);
    TellDestroyed(connections, clients, worker.destroyedRooms);
  }

  /** What every client is sent, and the server afterwards, are those of the end of a tick. */
  method FinishTick(worker: ServerWorker, connections: Connections, clients: seq<ClientId>)
    requires worker.Valid() && Separate(worker, connections) && JoinedOnce(worker.Value().rooms)
    requires Distinct(clients) && forall c :: c in clients ==> c in connections
    modifies worker, worker.rooms, worker.rooms.activeRooms, worker.history, connections.Values`messagesOut
    ensures worker.Valid() && Separate(worker, connections)
    ensures forall room :: room in worker.rooms.activeRooms ==> room in old(worker.rooms.activeRooms)
    ensures worker.history.repr == old(worker.history.repr)
    ensures worker.Value() == EndTick(old(worker.Value()), connections.Keys)
    ensures Outboxes(connections) == AllOutput(old(Outboxes(connections)), old(worker.Value()), clients)
  {
    hide ServerWorker.Valid, ServerWorker.Value, ToAll, Outboxes, WithEchoes, AllOutput, Sweep, Broadcasts, JoinedOnce, AllDistributed, Elements;
    OutputIs(Outboxes(connections), worker.Value(), clients);
    Announce(worker, connections, clients);
    DistributeRooms(worker, connections);
    CleanUp(worker);
  }
}
