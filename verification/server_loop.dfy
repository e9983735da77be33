/** A whole tick: every client's messages, one client after the other, then the end of the tick. */
module ServerLoops {
  import opened Collections
  import opened Messages
  import opened Rooms
  import opened RoomManagers
  import opened RoomLists
  import opened HistoryStores
  import opened ServerSpec
  import opened ServerWorkers
  import opened ServerTicks
  import Run = ServerRun

  // ---- On values ----

  /** The server in the middle of a tick, the replies so far, and how many messages were taken. */
  datatype Gathered = Gathered(server: Server, replies: map<ClientId, seq<Message>>, taken: nat)

  function RepliesTo(replies: map<ClientId, seq<Message>>, c: ClientId): seq<Message> {
    if c in replies then replies[c] else []
  }

  /** `clock(k)` is the time at which the tick's `k`th message is taken. */
  function TakeOne(g: Gathered, c: ClientId, user: string, m: Message, clock: nat -> int): Gathered {
    var (server, replies) := Process(g.server, c, user, clock(g.taken), m);
    Gathered(server, g.replies[c := RepliesTo(g.replies, c) + replies], g.taken + 1)
  }

  function TakeAll(g: Gathered, c: ClientId, user: string, messages: seq<Message>, clock: nat -> int): Gathered
    decreases |messages|
  {
    if messages == [] then g else TakeAll(TakeOne(g, c, user, messages[0], clock), c, user, messages[1..], clock)
  }

  function GatherAll(g: Gathered, clients: seq<ClientId>, inboxes: map<ClientId, seq<Message>>,
                     users: map<ClientId, string>, clock: nat -> int): Gathered
    requires forall c :: c in clients ==> c in inboxes && c in users
    decreases |clients|
  {
    if clients == [] then g
    else
      var c := clients[0];
      GatherAll(TakeAll(g, c, users[c], inboxes[c], clock), clients[1..], inboxes, users, clock)
  }

  function Plus(outboxes: map<ClientId, seq<Message>>, replies: map<ClientId, seq<Message>>): map<ClientId, seq<Message>> {
    map c | c in outboxes :: outboxes[c] + RepliesTo(replies, c)
  }

  lemma PlusOne(outboxes: map<ClientId, seq<Message>>, g: Gathered, c: ClientId, user: string, m: Message, clock: nat -> int)
    requires c in outboxes
    ensures var replies := Process(g.server, c, user, clock(g.taken), m).1;
            Plus(outboxes, TakeOne(g, c, user, m, clock).replies) ==
            Plus(outboxes, g.replies)[c := Plus(outboxes, g.replies)[c] + replies]
  {
    hide Process;
    var replies := Process(g.server, c, user, clock(g.taken), m).1;
    assert outboxes[c] + (RepliesTo(g.replies, c) + replies) == outboxes[c] + RepliesTo(g.replies, c) + replies;
  }

  // ---- In place ----

  ghost function Inboxes(connections: Connections): map<ClientId, seq<Message>>
    reads connections.Values
  {
    map c | c in connections :: connections[c].messagesIn
  }

  ghost function Users(connections: Connections): map<ClientId, string> {
    map c | c in connections :: connections[c].userName
  }

  /** The objects are in the state `g`, having started the tick with these outboxes. */
  ghost predicate Stands(worker: ServerWorker, connections: Connections, outboxes: map<ClientId, seq<Message>>, g: Gathered)
    reads worker, worker.rooms, worker.rooms.activeRooms, worker.history, worker.history.repr, connections.Values
  {
    && worker.Valid() && Separate(worker, connections)
    && worker.Value() == g.server && Outboxes(connections) == Plus(outboxes, g.replies)
    && outboxes.Keys == connections.Keys
  }

  /** Only what is new may be added to the objects a worker is made of. */
  twostate predicate GrowsOnly(worker: ServerWorker)
    reads worker, worker.rooms, worker.history
  {
    && (forall o :: o in worker.history.repr ==> o in old(worker.history.repr) || fresh(o))
    && (forall i :: 0 <= i < |worker.rooms.activeRooms| ==>
          worker.rooms.activeRooms[i] in old(worker.rooms.activeRooms) || fresh(worker.rooms.activeRooms[i]))
  }

  /** One turn of the message loop: pop, process, push the replies. */
  method TakeNext(worker: ServerWorker, connections: Connections, c: ClientId, now: int) returns (ghost m: Message)
    requires worker.Valid() && Separate(worker, connections) && c in connections && connections[c].messagesIn != []
    modifies worker, worker.rooms, worker.rooms.activeRooms, worker.history, worker.history.repr, connections[c]
    ensures worker.Valid() && Separate(worker, connections) && GrowsOnly(worker)
    ensures m == old(connections[c].messagesIn)[0]
    ensures connections[c].messagesIn == old(connections[c].messagesIn)[1..]
    ensures worker.Value() == Process(old(worker.Value()), c, connections[c].userName, now, m).0
    ensures connections[c].messagesOut ==
            old(connections[c].messagesOut) + Process(old(worker.Value()), c, connections[c].userName, now, m).1
  {
    hide RoomManager.Valid, HistoryStore.Valid, RoomManager.Value, Process;
    var client := connections[c];
    var message := client.messagesIn[0];
    m := message;
    client.messagesIn := client.messagesIn[1..];
    var replies := worker.ProcessMessage(c, client.userName, now, message);
    client.Push(replies);
  }

  lemma OneInbox(connections: Connections, c: ClientId, before: map<ClientId, seq<Message>>, added: seq<Message>)
    requires Keyed(connections) && c in connections && before.Keys == connections.Keys
    requires connections[c].messagesOut == before[c] + added
    requires forall d :: d in connections && d != c ==> connections[d].messagesOut == before[d]
    ensures Outboxes(connections) == before[c := before[c] + added]
  {
  }

  /** The same, seen as a step from one state of the tick to the next. */
  method TakeStep(worker: ServerWorker, connections: Connections, c: ClientId, clock: nat -> int, taken: nat,
                  ghost outboxes: map<ClientId, seq<Message>>, ghost g: Gathered) returns (ghost g': Gathered)
    requires Stands(worker, connections, outboxes, g) && g.taken == taken
    requires c in connections && connections[c].messagesIn != []
    modifies worker, worker.rooms, worker.rooms.activeRooms, worker.history, worker.history.repr, connections[c]
    ensures g' == TakeOne(g, c, connections[c].userName, old(connections[c].messagesIn)[0], clock)
    ensures Stands(worker, connections, outboxes, g') && GrowsOnly(worker)
    ensures connections[c].messagesIn == old(connections[c].messagesIn)[1..]
  {
    hide ServerWorker.Valid, ServerWorker.Value, Process, Plus, RepliesTo;
    ghost var user, before := connections[c].userName, Outboxes(connections);
    PlusOne(outboxes, g, c, user, connections[c].messagesIn[0], clock);
    ghost var m := TakeNext(worker, connections, c, clock(taken));
    g' := TakeOne(g, c, user, m, clock);
    OneInbox(connections, c, before, Process(g.server, c, user, clock(taken), m).1);
  }

  lemma TakeAllUnfolds(g: Gathered, c: ClientId, user: string, messages: seq<Message>, clock: nat -> int)
    ensures messages == [] ==> TakeAll(g, c, user, messages, clock) == g
    ensures messages != [] ==> TakeAll(g, c, user, messages, clock) ==
                               TakeAll(TakeOne(g, c, user, messages[0], clock), c, user, messages[1..], clock)
  {
  }

  /** All messages of one client. */
  method TakeMessages(worker: ServerWorker, connections: Connections, c: ClientId, clock: nat -> int, taken: nat,
                      ghost outboxes: map<ClientId, seq<Message>>, ghost g: Gathered) returns (taken': nat, ghost g': Gathered)
    requires Stands(worker, connections, outboxes, g) && g.taken == taken && c in connections
    modifies worker, worker.rooms, worker.rooms.activeRooms, worker.history, worker.history.repr, connections[c]
    ensures g' == TakeAll(g, c, connections[c].userName, old(connections[c].messagesIn), clock) && taken' == g'.taken
    ensures Stands(worker, connections, outboxes, g') && GrowsOnly(worker)
    ensures connections[c].messagesIn == []
  {
    hide Stands, TakeAll, TakeOne;
    ghost var user, target := connections[c].userName, TakeAll(g, c, connections[c].userName, connections[c].messagesIn, clock);
    taken', g' := taken, g;
    while connections[c].messagesIn != []
      invariant Stands(worker, connections, outboxes, g') && GrowsOnly(worker) && g'.taken == taken'
      invariant TakeAll(g', c, user, connections[c].messagesIn, clock) == target
      decreases |connections[c].messagesIn|
    {
      TakeAllUnfolds(g', c, user, connections[c].messagesIn, clock);
      CountsOne(g', c, user, connections[c].messagesIn[0], clock);
      g' := TakeStep(worker, connections, c, clock, taken', outboxes, g');
      taken' := taken' + 1;
    }
    TakeAllUnfolds(g', c, user, [], clock);
  }

  lemma CountsOne(g: Gathered, c: ClientId, user: string, m: Message, clock: nat -> int)
    ensures TakeOne(g, c, user, m, clock).taken == g.taken + 1
  {
  }

  lemma GatherUnfolds(g: Gathered, clients: seq<ClientId>, i: nat, inboxes: map<ClientId, seq<Message>>,
                      users: map<ClientId, string>, clock: nat -> int)
    requires i <= |clients| && forall c :: c in clients ==> c in inboxes && c in users
    ensures clients[i..] == [] ==> GatherAll(g, clients[i..], inboxes, users, clock) == g
    ensures i < |clients| ==>
              GatherAll(g, clients[i..], inboxes, users, clock) ==
              GatherAll(TakeAll(g, clients[i], users[clients[i]], inboxes[clients[i]], clock),
                        clients[i + 1..], inboxes, users, clock)
  {
    if i < |clients| {
      assert clients[i..][1..] == clients[i + 1..];
    }
  }

  /** The inboxes of the clients from the `i`th on are as they were. */
  ghost predicate Untouched(connections: Connections, clients: seq<ClientId>, i: nat, inboxes: map<ClientId, seq<Message>>)
    reads connections.Values
  {
    && Distinct(clients)
    && (forall c :: c in clients ==> c in connections && c in inboxes)
    && forall j :: i <= j < |clients| ==> connections[clients[j]].messagesIn == inboxes[clients[j]]
  }

  method TakeUntouched(worker: ServerWorker, connections: Connections, clients: seq<ClientId>, i: nat, clock: nat -> int,
                       taken: nat, ghost inboxes: map<ClientId, seq<Message>>,
                       ghost outboxes: map<ClientId, seq<Message>>, ghost g: Gathered) returns (taken': nat, ghost g': Gathered)
    requires i < |clients| && Untouched(connections, clients, i, inboxes)
    requires Stands(worker, connections, outboxes, g) && g.taken == taken
    modifies worker, worker.rooms, worker.rooms.activeRooms, worker.history, worker.history.repr, connections.Values
    ensures Untouched(connections, clients, i + 1, inboxes)
    ensures g' == TakeAll(g, clients[i], connections[clients[i]].userName, inboxes[clients[i]], clock) && taken' == g'.taken
    ensures Stands(worker, connections, outboxes, g') && GrowsOnly(worker)
  {
    assert Keyed(connections);
    hide Stands, TakeAll, GrowsOnly;
    taken', g' := TakeMessages(worker, connections, clients[i], clock, taken, outboxes, g);
  }

  /** The tick is under way: the clients from the `i`th on are still to be heard, and will lead to `target`. */
  ghost predicate UnderWay(worker: ServerWorker, connections: Connections, clients: seq<ClientId>, i: nat,
                           inboxes: map<ClientId, seq<Message>>, outboxes: map<ClientId, seq<Message>>,
                           g: Gathered, clock: nat -> int, target: Gathered)
    reads worker, worker.rooms, worker.rooms.activeRooms, worker.history, worker.history.repr, connections.Values
  {
    && Untouched(connections, clients, i, inboxes) && Stands(worker, connections, outboxes, g)
    && i <= |clients| && GatherAll(g, clients[i..], inboxes, Users(connections), clock) == target
  }

  method TakeClient(worker: ServerWorker, connections: Connections, clients: seq<ClientId>, i: nat, clock: nat -> int,
                    taken: nat, ghost inboxes: map<ClientId, seq<Message>>, ghost outboxes: map<ClientId, seq<Message>>,
                    ghost g: Gathered, ghost target: Gathered) returns (taken': nat, ghost g': Gathered)
    requires i < |clients| && g.taken == taken
    requires UnderWay(worker, connections, clients, i, inboxes, outboxes, g, clock, target)
    modifies worker, worker.rooms, worker.rooms.activeRooms, worker.history, worker.history.repr, connections.Values
    ensures UnderWay(worker, connections, clients, i + 1, inboxes, outboxes, g', clock, target)
    ensures taken' == g'.taken && GrowsOnly(worker)
  {
    GatherUnfolds(g, clients, i, inboxes, Users(connections), clock);
    assert clients[i] in connections;
    hide Untouched, Stands, TakeAll, GatherAll, GrowsOnly;
    taken', g' := TakeUntouched(worker, connections, clients, i, clock, taken, inboxes, outboxes, g);
  }

  method HearAll(worker: ServerWorker, connections: Connections, clients: seq<ClientId>, clock: nat -> int,
                 ghost inboxes: map<ClientId, seq<Message>>, ghost outboxes: map<ClientId, seq<Message>>,
                 ghost g: Gathered, ghost target: Gathered) returns (ghost g': Gathered)
    requires UnderWay(worker, connections, clients, 0, inboxes, outboxes, g, clock, target) && g.taken == 0
    modifies worker, worker.rooms, worker.rooms.activeRooms, worker.history, worker.history.repr, connections.Values
    ensures UnderWay(worker, connections, clients, |clients|, inboxes, outboxes, g', clock, target) && GrowsOnly(worker)
  {
    hide UnderWay;
    var taken := 0;
    g' := g;
    for i := 0 to |clients|
      invariant UnderWay(worker, connections, clients, i, inboxes, outboxes, g', clock, target)
      invariant GrowsOnly(worker) && g'.taken == taken
    {
      taken, g' := TakeClient(worker, connections, clients, i, clock, taken, inboxes, outboxes, g', target);
    }
  }

  /** Every client in turn. */
  method Gather(worker: ServerWorker, connections: Connections, clients: seq<ClientId>, clock: nat -> int,
                ghost outboxes: map<ClientId, seq<Message>>, ghost g: Gathered) returns (ghost g': Gathered)
    requires Stands(worker, connections, outboxes, g) && g.taken == 0
    requires Untouched(connections, clients, 0, Inboxes(connections))
    modifies worker, worker.rooms, worker.rooms.activeRooms, worker.history, worker.history.repr, connections.Values
    ensures g' == GatherAll(g, clients, old(Inboxes(connections)), Users(connections), clock)
    ensures Stands(worker, connections, outboxes, g') && GrowsOnly(worker)
  {
    ghost var inboxes, target := Inboxes(connections), GatherAll(g, clients, Inboxes(connections), Users(connections), clock);
    assert clients[0..] == clients;
    g' := HearAll(worker, connections, clients, clock, inboxes, outboxes, g, target);
    AllHeard(worker, connections, clients, inboxes, outboxes, g', clock, target);
  }

  lemma AllHeard(worker: ServerWorker, connections: Connections, clients: seq<ClientId>,
                 inboxes: map<ClientId, seq<Message>>, outboxes: map<ClientId, seq<Message>>,
                 g: Gathered, clock: nat -> int, target: Gathered)
    requires UnderWay(worker, connections, clients, |clients|, inboxes, outboxes, g, clock, target)
    ensures g == target && Stands(worker, connections, outboxes, g)
  {
    GatherUnfolds(g, clients, |clients|, inboxes, Users(connections), clock);
  }

  // ---- Nobody is joined twice ----

  lemma UpdateJoinedOnce(rooms: seq<ServerRoom>, i: nat, room: ServerRoom)
    requires JoinedOnce(rooms) && i < |rooms| && Distinct(room.data.joined)
    ensures JoinedOnce(rooms[i := room])
  {
  }

  lemma ProcessJoinedOnce(s: Server, c: ClientId, user: string, now: int, m: Message)
    requires JoinedOnce(s.rooms)
    ensures JoinedOnce(Process(s, c, user, now, m).0.rooms)
  {
    if m.RoomJoin? || m.RoomDestroy? || m.ChatSend? {
      var i := Find(s.rooms, m.room);
      if i < |s.rooms| {
        var room := s.rooms[i];
        hide JoinedOnce;
        UpdateJoinedOnce(s.rooms, i, if m.RoomJoin? then room.(data := Join(room.data, c)) else room);
        match m
        case RoomDestroy(_) => UpdateJoinedOnce(s.rooms, i, room.(doomed := true));
        case ChatSend(_, text) =>
          UpdateJoinedOnce(s.rooms, i, room.(data := room.data.(events := room.data.events + [RoomEvent(now, user, text)])));
        case _ =>
      }
    }
  }

  lemma {:induction false} TakeAllJoinedOnce(g: Gathered, c: ClientId, user: string, messages: seq<Message>, clock: nat -> int)
    requires JoinedOnce(g.server.rooms)
    ensures JoinedOnce(TakeAll(g, c, user, messages, clock).server.rooms)
    decreases |messages|
  {
    hide JoinedOnce, Process;
    if messages != [] {
      ProcessJoinedOnce(g.server, c, user, clock(g.taken), messages[0]);
      TakeAllJoinedOnce(TakeOne(g, c, user, messages[0], clock), c, user, messages[1..], clock);
    }
  }

  lemma {:induction false} GatherJoinedOnce(g: Gathered, clients: seq<ClientId>, inboxes: map<ClientId, seq<Message>>,
                                            users: map<ClientId, string>, clock: nat -> int)
    requires forall c :: c in clients ==> c in inboxes && c in users
    requires JoinedOnce(g.server.rooms)
    ensures JoinedOnce(GatherAll(g, clients, inboxes, users, clock).server.rooms)
    decreases |clients|
  {
    hide JoinedOnce, TakeAll;
    if clients != [] {
      var c := clients[0];
      TakeAllJoinedOnce(g, c, users[c], inboxes[c], clock);
      GatherJoinedOnce(TakeAll(g, c, users[c], inboxes[c], clock), clients[1..], inboxes, users, clock);
    }
  }

  lemma {:induction false} SweepJoinedOnce(rooms: seq<ServerRoom>)
    requires JoinedOnce(rooms)
    ensures JoinedOnce(Sweep(rooms))
  {
    if rooms != [] {
      SweepJoinedOnce(rooms[..|rooms| - 1]);
    }
  }

  lemma EndTickJoinedOnce(s: Server, live: set<ClientId>)
    requires JoinedOnce(s.rooms)
    ensures JoinedOnce(EndTick(s, live).rooms)
  {
    forall i | 0 <= i < |s.rooms|
      ensures Distinct(Connected(s.rooms[i].data.joined, live))
    {
      ConnectedOnce(s.rooms[i].data.joined, live);
    }
    SameLength(s.rooms, live);
    SweepJoinedOnce(AllDistributed(s.rooms, live));
  }

  lemma SameLength(rooms: seq<ServerRoom>, live: set<ClientId>)
    ensures |AllDistributed(rooms, live)| == |rooms|
  {
    assert |Names(AllDistributed(rooms, live))| == |Names(rooms)|;
  }

  /**
   A tick of the worker. The new server and what every client is sent are given by processing all the
   messages in order and then ending the tick.
   */
  method Tick(worker: ServerWorker, connections: Connections, clients: seq<ClientId>, clock: nat -> int)
    requires worker.Valid() && Separate(worker, connections) && JoinedOnce(worker.Value().rooms)
    requires Distinct(clients) && forall c :: c in clients ==> c in connections
    modifies worker, worker.rooms, worker.rooms.activeRooms, worker.history, worker.history.repr, connections.Values
    ensures worker.Valid() && Separate(worker, connections) && JoinedOnce(worker.Value().rooms)
    ensures var g := GatherAll(Gathered(old(worker.Value()), map[], 0), clients, old(Inboxes(connections)), Users(connections), clock);
            && worker.Value() == EndTick(g.server, connections.Keys)
            && Outboxes(connections) == AllOutput(Plus(old(Outboxes(connections)), g.replies), g.server, clients)
  {
    ghost var start, outboxes := Gathered(worker.Value(), map[], 0), Outboxes(connections);
    ghost var inboxes := Inboxes(connections);
    StartsTick(worker, connections, outboxes);
    GatherJoinedOnce(start, clients, inboxes, Users(connections), clock);
    hide Stands, GatherAll, JoinedOnce, Plus, AllOutput, ServerWorker.Valid, ServerWorker.Value;
    ghost var g := Gather(worker, connections, clients, clock, outboxes, start);
    StandsMeans(worker, connections, outboxes, g);
    EndTickJoinedOnce(g.server, connections.Keys);
    hide EndTick, Separate, GrowsOnly;
    FinishTick(worker, connections, clients);
  }

  lemma StartsTick(worker: ServerWorker, connections: Connections, outboxes: map<ClientId, seq<Message>>)
    requires worker.Valid() && Separate(worker, connections) && Outboxes(connections) == outboxes
    ensures Stands(worker, connections, outboxes, Gathered(worker.Value(), map[], 0))
  {
    forall c | c in outboxes
      ensures outboxes[c] + RepliesTo(map[], c) == outboxes[c]
    {
    }
  }

  lemma StandsMeans(worker: ServerWorker, connections: Connections, outboxes: map<ClientId, seq<Message>>, g: Gathered)
    requires Stands(worker, connections, outboxes, g)
    ensures worker.Valid() && Separate(worker, connections) && worker.Value() == g.server
    ensures Outboxes(connections) == Plus(outboxes, g.replies)
  {
  }
}
