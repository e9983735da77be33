/**
 Runs of the server: clients connect and leave at any time, and in each tick the server takes any
 messages at all from the clients connected at its start, one client after the other.
 */
module ServerRun {
  import opened Collections
  import opened Messages
  import opened Rooms
  import opened RoomLists
  import opened ServerSpec

  datatype Phase = Idle | Gathering(clients: seq<ClientId>, at: nat)

  datatype State = State(
    server: Server,
    phase: Phase,
    // The accepted connections, and the clients whose connection object still exists.
    active: seq<ClientId>,
    live: set<ClientId>,
    // What has happened so far: everything ever pushed to each client, and for each room every
    // event accepted since the room was created.
    pushed: map<ClientId, seq<Message>>,
    logs: Logs)

  datatype Step =
    | Connect(c: ClientId)
    | Disconnect(c: ClientId)
    | Expire(c: ClientId)
    | TickStart
    | Take(user: string, now: int, m: Message)
    | NextClient
    | TickEnd

  function Started(rooms: seq<string>): State {
    var server := WithRooms(rooms);
    State(server, Idle, [], {}, map[], map name | name in Names(server.rooms) :: [])
  }

  predicate InTick(s: State, c: ClientId) {
    s.phase.Gathering? && c in s.phase.clients
  }

  predicate Enabled(s: State, step: Step) {
    match step
    case Connect(c) => c !in s.pushed
    case Disconnect(c) => c in s.active
    case Expire(c) => c in s.live && c !in s.active && !InTick(s, c)
    case TickStart => s.phase.Idle?
    case Take(_, _, _) => s.phase.Gathering? && s.phase.at < |s.phase.clients| && s.phase.clients[s.phase.at] in s.pushed
    case NextClient => s.phase.Gathering? && s.phase.at < |s.phase.clients|
    case TickEnd => s.phase.Gathering? && s.phase.at == |s.phase.clients|
  }

  function Without(clients: seq<ClientId>, c: ClientId): seq<ClientId> {
    if clients == [] then []
    else (if clients[0] == c then [] else [clients[0]]) + Without(clients[1..], c)
  }

  type Logs = map<string, seq<RoomEvent>>

  /** A new room's log starts empty. */
  function LoggedRoom(logs: Logs, s: Server, room: string): Logs {
    if room != "" && CanCreate(s.rooms, room) then logs[room := []] else logs
  }

  /** An accepted line goes to the end of its room's log. */
  function LoggedLine(logs: Logs, s: Server, room: string, event: RoomEvent): Logs {
    if Lists(s.rooms, room) && room in logs then logs[room := logs[room] + [event]] else logs
  }

  function Logged(logs: Logs, s: Server, user: string, now: int, m: Message): Logs {
    match m
    case RoomCreate(room) => LoggedRoom(logs, s, room)
    case ChatSend(room, text) => LoggedLine(logs, s, room, RoomEvent(now, user, text))
    case _ => logs
  }

  function Apply(s: State, step: Step): State
    requires Enabled(s, step)
  {
    match step
    case Connect(c) => s.(active := s.active + [c], live := s.live + {c}, pushed := s.pushed[c := []])
    case Disconnect(c) => s.(active := Without(s.active, c))
    case Expire(c) => s.(live := s.live - {c})
    case TickStart => s.(phase := Gathering(s.active, 0))
    case Take(user, now, m) =>
      var c := s.phase.clients[s.phase.at];
      var (server, replies) := Process(s.server, c, user, now, m);
      s.(server := server, pushed := s.pushed[c := s.pushed[c] + replies],
         logs := Logged(s.logs, s.server, user, now, m))
    case NextClient => s.(phase := Gathering(s.phase.clients, s.phase.at + 1))
    case TickEnd =>
      var server := EndTick(s.server, s.live);
      s.(server := server, phase := Idle,
         pushed := map c | c in s.pushed :: s.pushed[c] + TickOutput(s.server, c, c in s.phase.clients, c in s.live),
         logs := map name | name in s.logs && name in Names(server.rooms) :: s.logs[name])
  }

  predicate Legal(s: State, steps: seq<Step>)
    decreases |steps|
  {
    steps == [] || (Enabled(s, steps[0]) && Legal(Apply(s, steps[0]), steps[1..]))
  }

  function Run(s: State, steps: seq<Step>): State
    requires Legal(s, steps)
    decreases |steps|
  {
    if steps == [] then s else Run(Apply(s, steps[0]), steps[1..])
  }

  // ---- The rooms ----

  /** Exactly the rooms named in `destroyed` are doomed, and everything named is a room. */
  ghost predicate RoomsAgree(s: Server) {
    && WellNamed(s.rooms)
    && (forall i :: 0 <= i < |s.rooms| ==> (s.rooms[i].doomed <==> s.rooms[i].name in s.destroyed))
    && (forall name :: name in s.created || name in s.destroyed ==> Lists(s.rooms, name))
  }

  lemma CreateAgrees(s: Server, c: ClientId, room: string)
    requires RoomsAgree(s)
    ensures RoomsAgree(Created(s, c, room))
  {
    if room != "" && CanCreate(s.rooms, room) {
      var created := RoomState(room, false, ServerData([c], []));
      CreateKeepsNames(s.rooms, room, created.data);
      forall name | Lists(s.rooms, name) || name == room
        ensures Lists(Created(s, c, room).rooms, name)
      {
        FindWithLast(s.rooms, created, name);
      }
      assert room !in s.destroyed;
    }
  }

  /** Replacing a room's data changes nothing about the names. */
  lemma UpdateAgrees(s: Server, i: nat, data: ServerData)
    requires RoomsAgree(s) && i < |s.rooms|
    ensures RoomsAgree(s.(rooms := WithData(s.rooms, i, data)))
  {
    var room := s.rooms[i].(data := data);
    forall name
      ensures Lists(WithData(s.rooms, i, data), name) == Lists(s.rooms, name)
    {
      UpdateKeepsNames(s.rooms, i, room, name);
    }
    UpdateKeepsNames(s.rooms, i, room, "");
  }

  lemma DoomAgrees(s: Server, room: string)
    requires RoomsAgree(s)
    ensures RoomsAgree(Doomed(s, room))
  {
    var i := Find(s.rooms, room);
    if i < |s.rooms| {
      var doomed := s.rooms[i].(doomed := true);
      forall name
        ensures Lists(Doom(s.rooms, room), name) == Lists(s.rooms, name)
      {
        UpdateKeepsNames(s.rooms, i, doomed, name);
      }
      UpdateKeepsNames(s.rooms, i, doomed, room);
      forall k | 0 <= k < |s.rooms| && s.rooms[k].name == room
        ensures k == i
      {
        FindIs(s.rooms, k);
      }
    }
  }

  lemma SaidAgrees(s: Server, room: string, event: RoomEvent)
    requires RoomsAgree(s)
    ensures RoomsAgree(Said(s, room, event))
  {
    var i := Find(s.rooms, room);
    if i < |s.rooms| {
      UpdateAgrees(s, i, s.rooms[i].data.(events := s.rooms[i].data.events + [event]));
    }
  }

  lemma ProcessKeepsRooms(s: Server, c: ClientId, user: string, now: int, m: Message)
    requires RoomsAgree(s)
    ensures RoomsAgree(Process(s, c, user, now, m).0)
  {
    match m
    case RoomCreate(room) => CreateAgrees(s, c, room);
    case RoomJoin(room) =>
      var i := Find(s.rooms, room);
      if i < |s.rooms| {
        UpdateAgrees(s, i, Join(s.rooms[i].data, c));
      }
    case RoomDestroy(room) => DoomAgrees(s, room);
    case ChatSend(room, text) => SaidAgrees(s, room, RoomEvent(now, user, text));
    case _ =>
  }

  lemma EndTickKeepsRooms(s: Server, live: set<ClientId>)
    requires RoomsAgree(s)
    ensures RoomsAgree(EndTick(s, live))
    ensures forall i :: 0 <= i < |EndTick(s, live).rooms| ==> !EndTick(s, live).rooms[i].doomed
  {
    DistributedAgree(s, live);
    var rooms := AllDistributed(s.rooms, live);
    SweepKeepsNames(rooms);
    forall i | 0 <= i < |Sweep(rooms)|
      ensures !Sweep(rooms)[i].doomed
    {
      FindIs(Sweep(rooms), i);
      SweepFinds(rooms, Sweep(rooms)[i].name);
    }
  }

  lemma DistributedAgree(s: Server, live: set<ClientId>)
    requires WellNamed(s.rooms)
    ensures WellNamed(AllDistributed(s.rooms, live))
    ensures forall name :: Find(AllDistributed(s.rooms, live), name) == Find(s.rooms, name)
  {
    SameNames(s.rooms, AllDistributed(s.rooms, live), "");
    forall name
      ensures Find(AllDistributed(s.rooms, live), name) == Find(s.rooms, name)
    {
      SameNames(s.rooms, AllDistributed(s.rooms, live), name);
    }
  }

  /** A room outlives the tick exactly when nobody asked to destroy it, and is then as distributed. */
  lemma SurvivesTick(s: Server, live: set<ClientId>, name: string)
    requires RoomsAgree(s)
    ensures var rooms' := EndTick(s, live).rooms;
            && (Lists(rooms', name) <==> Lists(s.rooms, name) && name !in s.destroyed)
            && (Lists(rooms', name) ==>
                rooms'[Find(rooms', name)] == Distributed(s.rooms[Find(s.rooms, name)], live))
  {
    DistributedAgree(s, live);
    SweepFinds(AllDistributed(s.rooms, live), name);
  }

  // ---- Histories and logs ----

  function EventsIn(s: Server, name: string): seq<RoomEvent> {
    if Lists(s.rooms, name) then s.rooms[Find(s.rooms, name)].data.events else []
  }

  ghost predicate IsSuffix<T>(s: seq<T>, whole: seq<T>) {
    |s| <= |whole| && s == whole[|whole| - |s|..]
  }

  /**
   Exactly the listed rooms have a log, exactly those with something logged have a history, the
   history is the latest part of the log, and the events still to be distributed are its end.
   */
  ghost predicate LogAgrees(s: Server, logs: Logs, name: string) {
    && (name in logs <==> Lists(s.rooms, name))
    && (name in s.history <==> name in logs && logs[name] != [])
    && (name in logs ==>
          && Retained(s.history, name) == Last(logs[name], HISTORY_KEPT)
          && IsSuffix(EventsIn(s, name), logs[name]))
  }

  /** Replacing a room leaves the others' logs alone, and its own if its events stay the same. */
  lemma UpdateKeepsLog(s: Server, logs: Logs, i: nat, room: ServerRoom, name: string)
    requires WellNamed(s.rooms) && LogAgrees(s, logs, name)
    requires i < |s.rooms| && room.name == s.rooms[i].name
    requires name != room.name || room.data.events == s.rooms[i].data.events
    ensures LogAgrees(s.(rooms := s.rooms[i := room]), logs, name)
  {
    UpdateKeepsNames(s.rooms, i, room, name);
    assert EventsIn(s.(rooms := s.rooms[i := room]), name) == EventsIn(s, name);
  }

  lemma CreateKeepsLog(s: Server, logs: Logs, c: ClientId, room: string, name: string)
    requires LogAgrees(s, logs, name) && LogAgrees(s, logs, room)
    ensures LogAgrees(Created(s, c, room), LoggedRoom(logs, s, room), name)
  {
    FindWithLast(s.rooms, RoomState(room, false, ServerData([c], [])), name);
  }

  /** An accepted line goes to the end of its room's events and log, and into its history. */
  lemma SendKeepsLog(s: Server, logs: Logs, room: string, event: RoomEvent)
    requires WellNamed(s.rooms) && LogAgrees(s, logs, room)
    ensures LogAgrees(Said(s, room, event), LoggedLine(logs, s, room, event), room)
  {
    var i := Find(s.rooms, room);
    if i < |s.rooms| {
      var data := s.rooms[i].data.(events := s.rooms[i].data.events + [event]);
      UpdateKeepsNames(s.rooms, i, s.rooms[i].(data := data), room);
      LastOfAppend(logs[room], [event], HISTORY_KEPT);
      assert EventsIn(Said(s, room, event), room) == EventsIn(s, room) + [event];
    }
  }

  lemma LineKeepsLog(s: Server, logs: Logs, room: string, event: RoomEvent, name: string)
    requires WellNamed(s.rooms) && LogAgrees(s, logs, room) && LogAgrees(s, logs, name)
    ensures LogAgrees(Said(s, room, event), LoggedLine(logs, s, room, event), name)
  {
    var i := Find(s.rooms, room);
    if name == room {
      SendKeepsLog(s, logs, room, event);
    } else if i < |s.rooms| {
      var data := s.rooms[i].data.(events := s.rooms[i].data.events + [event]);
      UpdateKeepsLog(s, logs, i, s.rooms[i].(data := data), name);
    }
  }

  lemma ProcessKeepsLog(s: Server, logs: Logs, c: ClientId, user: string, now: int,
                        m: Message, name: string)
    requires WellNamed(s.rooms) && LogAgrees(s, logs, name)
    requires m.RoomCreate? || m.ChatSend? ==> LogAgrees(s, logs, m.room)
    ensures LogAgrees(Process(s, c, user, now, m).0, Logged(logs, s, user, now, m), name)
  {
    hide WellNamed, Retained;
    match m
    case RoomCreate(room) => CreateKeepsLog(s, logs, c, room, name);
    case RoomJoin(room) =>
      var i := Find(s.rooms, room);
      if i < |s.rooms| {
        UpdateKeepsLog(s, logs, i, s.rooms[i].(data := Join(s.rooms[i].data, c)), name);
      }
    case RoomDestroy(room) =>
      var i := Find(s.rooms, room);
      if i < |s.rooms| {
        UpdateKeepsLog(s, logs, i, s.rooms[i].(doomed := true), name);
      }
    case ChatSend(room, text) => LineKeepsLog(s, logs, room, RoomEvent(now, user, text), name);
    case _ =>
  }

  lemma EndTickKeepsLog(s: Server, logs: Logs, live: set<ClientId>, name: string)
    requires RoomsAgree(s) && LogAgrees(s, logs, name)
    ensures var s' := EndTick(s, live);
            && LogAgrees(s', map n | n in logs && n in Names(s'.rooms) :: logs[n], name)
            && EventsIn(s', name) == []
  {
    var s' := EndTick(s, live);
    SurvivesTick(s, live, name);
    NamedIs(s'.rooms, name);
    if name in s.destroyed {
      assert name in Elements(s.destroyed);
    }
  }

  // ---- What every step keeps ----

  ghost predicate ClientsAgree(s: State) {
    && (forall c :: c in s.active ==> c in s.live)
    && (forall c :: c in s.live ==> c in s.pushed)
    && (s.phase.Gathering? ==> s.phase.at <= |s.phase.clients|)
    && (s.phase.Gathering? ==> forall c :: c in s.phase.clients ==> c in s.live)
  }

  /** Between ticks nothing is waiting to be broadcast or distributed. */
  ghost predicate QuietWhenIdle(s: State) {
    s.phase.Idle? ==>
      && s.server.created == [] && s.server.destroyed == []
      && forall name :: EventsIn(s.server, name) == []
  }

  ghost predicate Inv(s: State) {
    && RoomsAgree(s.server)
    && (forall name :: LogAgrees(s.server, s.logs, name))
    && ClientsAgree(s)
    && QuietWhenIdle(s)
  }

  lemma {:induction false} WithoutRemoves(clients: seq<ClientId>, c: ClientId)
    ensures forall d :: d in Without(clients, c) <==> d in clients && d != c
  {
    if clients != [] {
      WithoutRemoves(clients[1..], c);
      assert clients == [clients[0]] + clients[1..];
    }
  }

  lemma TakeKeeps(s: State, step: Step)
    requires Inv(s) && step.Take? && Enabled(s, step)
    ensures Inv(Apply(s, step))
  {
    var c := s.phase.clients[s.phase.at];
    var s' := Apply(s, step);
    ProcessKeepsRooms(s.server, c, step.user, step.now, step.m);
    forall name
      ensures LogAgrees(s'.server, s'.logs, name)
    {
      assert LogAgrees(s.server, s.logs, name);
      assert step.m.RoomCreate? || step.m.ChatSend? ==> LogAgrees(s.server, s.logs, step.m.room);
      ProcessKeepsLog(s.server, s.logs, c, step.user, step.now, step.m, name);
    }
  }

  lemma TickEndKeeps(s: State)
    requires Inv(s) && Enabled(s, TickEnd)
    ensures Inv(Apply(s, TickEnd))
  {
    var s' := Apply(s, TickEnd);
    EndTickKeepsRooms(s.server, s.live);
    forall name
      ensures LogAgrees(s'.server, s'.logs, name) && EventsIn(s'.server, name) == []
    {
      EndTickKeepsLog(s.server, s.logs, s.live, name);
    }
  }

  lemma StepKeeps(s: State, step: Step)
    requires Inv(s) && Enabled(s, step)
    ensures Inv(Apply(s, step))
  {
    match step
    case Take(_, _, _) => TakeKeeps(s, step);
    case TickEnd => TickEndKeeps(s);
    case Disconnect(c) =>
      WithoutRemoves(s.active, c);
      SameServer(s, step);
    case _ => SameServer(s, step);
  }

  lemma SameServer(s: State, step: Step)
    requires Inv(s) && Enabled(s, step) && !step.Take? && !step.TickEnd?
    ensures Apply(s, step).server == s.server && Apply(s, step).logs == s.logs
  {
  }

  lemma {:induction false} StartKeeps(rooms: seq<string>)
    ensures Inv(Started(rooms))
  {
    var s := Started(rooms);
    StartedRooms(rooms);
    forall name
      ensures LogAgrees(s.server, s.logs, name) && EventsIn(s.server, name) == []
    {
      NamedIs(s.server.rooms, name);
    }
  }

  lemma {:induction false} StartedRooms(rooms: seq<string>)
    ensures var s := WithRooms(rooms);
            && WellNamed(s.rooms) && s.history == map[] && s.created == [] && s.destroyed == []
            && forall i :: 0 <= i < |s.rooms| ==> !s.rooms[i].doomed && s.rooms[i].data.events == []
  {
    if rooms != [] {
      var last := |rooms| - 1;
      var earlier := WithRooms(rooms[..last]).rooms;
      StartedRooms(rooms[..last]);
      assert forall i :: 0 <= i < |earlier| ==> WithRooms(rooms).rooms[i] == earlier[i];
      CreateKeepsNames(WithRooms(rooms[..last]).rooms, rooms[last], ServerData([], []));
    }
  }

  lemma {:induction false} RunKeeps(s: State, steps: seq<Step>)
    requires Inv(s) && Legal(s, steps)
    ensures Inv(Run(s, steps))
    decreases |steps|
  {
    if steps != [] {
      StepKeeps(s, steps[0]);
      RunKeeps(Apply(s, steps[0]), steps[1..]);
    }
  }

  /** A state that some run of a server with some initial rooms reaches. */
  ghost predicate Reachable(s: State) {
    exists rooms, steps :: Legal(Started(rooms), steps) && Run(Started(rooms), steps) == s
  }

  lemma ReachableKeeps(s: State)
    requires Reachable(s)
    ensures Inv(s)
  {
    var rooms, steps :| Legal(Started(rooms), steps) && Run(Started(rooms), steps) == s;
    StartKeeps(rooms);
    RunKeeps(Started(rooms), steps);
  }

  /**
   Between ticks, no room is marked for destruction, nothing waits to be distributed, only rooms
   have a history, and a room's history is the latest of what was accepted since it was created.
   */
  lemma HistoryTracksRooms(s: State, name: string)
    requires Reachable(s) && s.phase.Idle?
    ensures forall i :: 0 <= i < |s.server.rooms| ==> !s.server.rooms[i].doomed
    ensures EventsIn(s.server, name) == []
    ensures name in s.server.history ==> Lists(s.server.rooms, name)
    ensures Lists(s.server.rooms, name) ==>
              name in s.logs && Retained(s.server.history, name) == Last(s.logs[name], 999)
  {
    ReachableKeeps(s);
    assert LogAgrees(s.server, s.logs, name);
  }

  /** A name that is created again, in whatever state, starts with an empty history. */
  lemma NewRoomStartsEmpty(s: State, step: Step)
    requires Reachable(s) && Enabled(s, step) && step.Take? && step.m.RoomCreate?
    requires CanCreate(s.server.rooms, step.m.room)
    ensures var s' := Apply(s, step);
            Lists(s'.server.rooms, step.m.room) && Retained(s'.server.history, step.m.room) == []
  {
    ReachableKeeps(s);
    var room, c := step.m.room, s.phase.clients[s.phase.at];
    assert LogAgrees(s.server, s.logs, room);
    FindWithLast(s.server.rooms, RoomState(room, false, ServerData([c], [])), room);
  }
}
