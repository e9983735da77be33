/** The server worker as it runs: rooms, histories and client queues changed in place, tick by tick. */
module ServerWorkers {
  import opened Collections
  import opened Messages
  import opened Rooms
  import opened RoomManagers
  import opened RoomLists
  import opened HistoryStores
  import opened ServerSpec

  // ---- A room's own methods ----

  /** `ServerRoom::join`: nobody is in the list twice. */
  method JoinRoom(manager: RoomManager<ServerData>, room: Room<ServerData>, c: ClientId)
    requires manager.Valid() && room in manager.activeRooms
    modifies room`data
    ensures manager.Valid()
    ensures var i, rooms := Find(old(manager.Value()), room.name), old(manager.Value());
            i < |rooms| && manager.Value() == WithData(rooms, i, Join(rooms[i].data, c))
  {
    hide Find, Names, WellNamed;
    RoomAt(manager, room);
    for i := 0 to |room.data.joined|
      invariant forall j :: 0 <= j < i ==> room.data.joined[j] != c
    {
      if room.data.joined[i] == c {
        ghost var rooms, at := manager.Value(), Find(manager.Value(), room.name);
        assert rooms[at := rooms[at].(data := Join(rooms[at].data, c))] == rooms;
        return;
      }
    }
    SetData(manager, room, room.data.(joined := room.data.joined + [c]));
  }

  /** `ServerRoom::clean_expired_clients` */
  method StillConnected(joined: seq<ClientId>, live: set<ClientId>) returns (kept: seq<ClientId>)
    ensures kept == Connected(joined, live)
  {
    kept := [];
    for i := 0 to |joined|
      invariant kept == Connected(joined[..i], live)
    {
      assert joined[..i + 1][..i] == joined[..i];
      if joined[i] in live {
        kept := kept + [joined[i]];
      }
    }
    assert joined[..|joined|] == joined;
  }

  /** `room_events_to_messages`: pops every event. */
  method EventsToMessages(name: string, events: seq<RoomEvent>) returns (messages: seq<Message>)
    ensures messages == LinesOf(name, events)
    ensures |messages| == |events|
    ensures forall i :: 0 <= i < |events| ==>
      messages[i].ChatEcho? && messages[i].room == name && Carries(messages[i].event, events[i])
  {
    messages := [];
    var queue := events;
    while queue != []
      invariant |queue| <= |events| && queue == events[|events| - |queue|..]
      invariant messages == LinesOf(name, events[..|events| - |queue|])
      decreases |queue|
    {
      messages := messages + [ChatEcho(name, OnWire(queue[0]))];
      queue := queue[1..];
    }
  }

  // ---- One message ----

  class ServerWorker {
    const rooms: RoomManager<ServerData>
    const history: HistoryStore<RoomEvent>
    var newRooms: seq<string>
    var destroyedRooms: seq<string>

    ghost predicate Valid()
      reads this, rooms, rooms.activeRooms, history, history.repr
    {
      && rooms.Valid() && history.Valid()
      && this !in history.repr && rooms !in history.repr
      && forall room :: room in rooms.activeRooms ==> room !in history.repr
    }

    ghost function Value(): Server
      reads this, rooms, rooms.activeRooms, history
    {
      Server(rooms.Value(), history.contents, newRooms, destroyedRooms)
    }

    constructor ()
      ensures Valid() && Value() == WithRooms([]) && fresh(rooms) && fresh(history) && fresh(history.repr)
      ensures rooms.activeRooms == []
    {
      rooms := new RoomManager<ServerData>();
      history := new HistoryStore<RoomEvent>();
      newRooms, destroyedRooms := [], [];
    }

    /** The rooms of the configuration. */
    method CreateInitial(names: seq<string>)
      requires Valid() && Value() == WithRooms([])
      modifies rooms
      ensures Valid() && Value() == WithRooms(names)
    {
      hide RoomManager.Valid, HistoryStore.Valid, RoomManager.Value, WellNamed;
      for i := 0 to |names|
        invariant Valid() && Value() == WithRooms(names[..i])
      {
        assert names[..i + 1][..i] == names[..i];
        var room := rooms.CreateRoom(names[i], ServerData([], []));
      }
      assert names[..|names|] == names;
    }

    /** What a method that changes the rooms may have done to the objects. */
    twostate predicate Grows()
      reads this, rooms, history
    {
      && fresh(history.repr - old(history.repr))
      && forall room :: room in rooms.activeRooms ==> room in old(rooms.activeRooms) || fresh(room)
    }

    method CreateFor(c: ClientId, name: string)
      requires Valid()
      modifies this, rooms
      ensures Valid() && Grows() && Value() == Created(old(Value()), c, name)
    {
      hide Find, Names, WellNamed, Last, RoomManager.Valid, HistoryStore.Valid, RoomManager.Value;
      if name != "" {
        var room := rooms.CreateRoom(name, ServerData([c], []));
        if room != null {
          newRooms := newRooms + [name];
        }
      }
    }

    method JoinFor(c: ClientId, name: string)
      requires Valid()
      modifies rooms.activeRooms
      ensures Valid() && Grows() && Value() == Joined(old(Value()), c, name)
    {
      hide Find, Names, WellNamed, Last, RoomManager.Valid, HistoryStore.Valid, RoomManager.Value;
      var room := rooms.Lookup(name);
      if room != null {
        JoinRoom(rooms, room, c);
      }
    }

    method DestroyFor(name: string)
      requires Valid()
      modifies this, rooms.activeRooms
      ensures Valid() && Grows() && Value() == Doomed(old(Value()), name)
    {
      hide Find, Names, WellNamed, Last, RoomManager.Valid, HistoryStore.Valid, RoomManager.Value;
      var room := rooms.Lookup(name);
      if room != null {
        MarkDestroyed(rooms, room);
        destroyedRooms := destroyedRooms + [name];
      }
    }

    method SayFor(name: string, event: RoomEvent)
      requires Valid()
      modifies this, rooms.activeRooms, history, history.repr
      ensures Valid() && Grows() && Value() == Said(old(Value()), name, event)
    {
      hide Find, Names, WellNamed, Last, RoomManager.Valid, HistoryStore.Valid, RoomManager.Value;
      var room := rooms.Lookup(name);
      if room != null {
        RoomAt(rooms, room);
        history.Insert(room.name, event);
        SetData(rooms, room, room.data.(events := room.data.events + [event]));
      }
    }

    method HistoryFor(name: string, n: int) returns (replies: seq<Message>)
      requires Valid()
      ensures replies == if Lists(Value().rooms, name) && 0 <= n <= ROOM_HISTORY_MAX_ENTRIES
                         then [HistoryReply(name, Retained(Value().history, name), n)] else []
    {
      var room := rooms.Lookup(name);
      if 0 <= n <= ROOM_HISTORY_MAX_ENTRIES && room != null {
        var retained := history.Read(room.name);
        var reply := BuildHistory(room.name, retained, n);
        replies := [reply];
      } else {
        replies := [];
      }
    }

    method ProcessMessage(c: ClientId, user: string, now: int, m: Message) returns (replies: seq<Message>)
      requires Valid()
      modifies this, rooms, rooms.activeRooms, history, history.repr
      ensures Valid() && Grows()
      ensures (Value(), replies) == Process(old(Value()), c, user, now, m)
    {
      hide Find, Names, WellNamed, RoomManager.Valid, HistoryStore.Valid, RoomManager.Value;
      replies := [];
      match m
      case RoomList(_) =>
        NamesKnown(rooms);
        var reply := CreateRoomList(rooms.roomNames);
        replies := [reply];
      case RoomCreate(room) => CreateFor(c, room);
      case RoomJoin(room) => JoinFor(c, room);
      case RoomDestroy(room) => DestroyFor(room);
      case RoomHistory(room, n, _) => replies := HistoryFor(room, n);
      case ChatSend(room, text) => SayFor(room, RoomEvent(now, user, text));
      case _ =>
    }
  }
}
