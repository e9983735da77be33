/**
 What one message and the end of one tick do to the server's rooms:
 src/server/workers/server-worker.cpp and the rooms of include/tavernmx/server.h, on values.
 */
module ServerSpec {
  import opened Collections
  import opened Messages
  import opened Rooms
  import opened RoomLists

  /** What a server room adds to a room: who has joined, and the events not yet distributed. */
  datatype ServerData = ServerData(joined: seq<ClientId>, events: seq<RoomEvent>)

  type ServerRoom = RoomState<ServerData>

  type History = map<string, seq<RoomEvent>>

  /** The rooms and their histories, and the names created and destroyed so far in this tick. */
  datatype Server = Server(rooms: seq<ServerRoom>, history: History, created: seq<string>, destroyed: seq<string>)

  /** The initial rooms of the configuration; invalid and repeated names are skipped. */
  function WithRooms(names: seq<string>): Server {
    if names == [] then Server([], map[], [], [])
    else
      var s := WithRooms(names[..|names| - 1]);
      s.(rooms := Create(s.rooms, names[|names| - 1], ServerData([], [])))
  }

  function Retained(history: History, room: string): seq<RoomEvent> {
    if room in history then history[room] else []
  }

  function Recorded(history: History, room: string, event: RoomEvent): History {
    history[room := Last(Retained(history, room) + [event], HISTORY_KEPT)]
  }

  function Join(data: ServerData, c: ClientId): ServerData {
    if c in data.joined then data else data.(joined := data.joined + [c])
  }

  function WithData(rooms: seq<ServerRoom>, i: nat, data: ServerData): seq<ServerRoom>
    requires i < |rooms|
  {
    rooms[i := rooms[i].(data := data)]
  }

  /** ROOM_CREATE: the creator joins at once, and everyone will be told. */
  function Created(s: Server, c: ClientId, room: string): Server {
    if room != "" && CanCreate(s.rooms, room) then
      s.(rooms := Create(s.rooms, room, ServerData([c], [])), created := s.created + [room])
    else s
  }

  function Joined(s: Server, c: ClientId, room: string): Server {
    var i := Find(s.rooms, room);
    if i < |s.rooms| then s.(rooms := WithData(s.rooms, i, Join(s.rooms[i].data, c))) else s
  }

  /** ROOM_DESTROY: the room is only marked, as often as asked, and goes at the end of the tick. */
  function Doomed(s: Server, room: string): Server {
    if Lists(s.rooms, room) then s.(rooms := Doom(s.rooms, room), destroyed := s.destroyed + [room]) else s
  }

  function Said(s: Server, room: string, event: RoomEvent): Server {
    var i := Find(s.rooms, room);
    if i < |s.rooms| then
      var data := s.rooms[i].data;
      s.(rooms := WithData(s.rooms, i, data.(events := data.events + [event])),
         history := Recorded(s.history, room, event))
    else s
  }

  /** One turn of the message loop: the new state, and what is pushed back to the client. */
  function Process(s: Server, c: ClientId, user: string, now: int, m: Message): (Server, seq<Message>) {
    match m
    case RoomList(_) => (s, [ListOf(Names(s.rooms))])
    case RoomCreate(room) => (Created(s, c, room), [])
    case RoomJoin(room) => (Joined(s, c, room), [])
    case RoomDestroy(room) => (Doomed(s, room), [])
    case RoomHistory(room, n, _) =>
      (s, if Lists(s.rooms, room) && 0 <= n <= ROOM_HISTORY_MAX_ENTRIES
          then [HistoryReply(room, Retained(s.history, room), n)] else [])
    case ChatSend(room, text) => (Said(s, room, RoomEvent(now, user, text)), [])
    case _ => (s, [])
  }

  function Creates(names: seq<string>): seq<Message> {
    seq(|names|, i requires 0 <= i < |names| => RoomCreate(names[i]))
  }

  function Destroys(names: seq<string>): seq<Message> {
    seq(|names|, i requires 0 <= i < |names| => RoomDestroy(names[i]))
  }

  /** What everyone is told: first the rooms created in this tick, then those destroyed. */
  function Broadcasts(s: Server): seq<Message> {
    Creates(s.created) + Destroys(s.destroyed)
  }

  function LinesOf(name: string, events: seq<RoomEvent>): seq<Message> {
    seq(|events|, i requires 0 <= i < |events| => ChatEcho(name, OnWire(events[i])))
  }

  function RoomEchoes(room: ServerRoom): seq<Message> {
    LinesOf(room.name, room.data.events)
  }

  /** The chat lines for one client: those of every room it has joined, room by room. */
  function Echoes(rooms: seq<ServerRoom>, c: ClientId): seq<Message> {
    if rooms == [] then []
    else
      var last := rooms[|rooms| - 1];
      Echoes(rooms[..|rooms| - 1], c) + (if c in last.data.joined then RoomEchoes(last) else [])
  }

  /**
   What the end of a tick pushes to a client: the broadcasts if it was connected at the tick's
   start, and its chat lines if its connection object still exists.
   */
  function TickOutput(s: Server, c: ClientId, inTick: bool, alive: bool): seq<Message> {
    (if inTick then Broadcasts(s) else []) + (if alive then Echoes(s.rooms, c) else [])
  }

  function Connected(joined: seq<ClientId>, live: set<ClientId>): seq<ClientId> {
    if joined == [] then []
    else
      var last := joined[|joined| - 1];
      Connected(joined[..|joined| - 1], live) + (if last in live then [last] else [])
  }

  /** A room after its events went out: the clients that are gone are dropped from it. */
  function Distributed(room: ServerRoom, live: set<ClientId>): ServerRoom {
    room.(data := ServerData(Connected(room.data.joined, live), []))
  }

  function AllDistributed(rooms: seq<ServerRoom>, live: set<ClientId>): (rooms': seq<ServerRoom>)
    ensures Names(rooms') == Names(rooms)
  {
    seq(|rooms|, i requires 0 <= i < |rooms| => Distributed(rooms[i], live))
  }

  function EndTick(s: Server, live: set<ClientId>): Server {
    Server(Sweep(AllDistributed(s.rooms, live)), s.history - Elements(s.destroyed), [], [])
  }
}
