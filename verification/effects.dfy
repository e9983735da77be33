/**
 What the messages of a tick bring about: which rooms there are afterwards and who is told of it,
 who has joined which room, and what a message is answered with.
 */
module Effects {
  import opened Collections
  import opened Messages
  import opened Rooms
  import opened RoomLists
  import opened ServerSpec
  import opened ServerRun
  import opened Delivery

  // ---- Rooms at the start ----

  /** The configured rooms with good names are there, and nobody has joined one. */
  lemma {:induction false} InitialRooms(names: seq<string>, room: string, c: ClientId)
    ensures room in Names(WithRooms(names).rooms) <==> room in names && IsValidRoomName(room)
    ensures !JoinedIn(WithRooms(names), c, room)
  {
    NamedIs(WithRooms(names).rooms, room);
    if names != [] {
      var earlier, last := names[..|names| - 1], names[|names| - 1];
      assert names == earlier + [last];
      InitialRooms(earlier, room, c);
      NamedIs(WithRooms(earlier).rooms, room);
      FindWithLast(WithRooms(earlier).rooms, RoomState(last, false, ServerData([], [])), room);
    }
  }

  /** If the names are all good and differ, the rooms are in their order. */
  lemma {:induction false} InitialOrder(names: seq<string>)
    requires Distinct(names) && forall k :: 0 <= k < |names| ==> IsValidRoomName(names[k])
    ensures Names(WithRooms(names).rooms) == names
  {
    if names != [] {
      var earlier, last := names[..|names| - 1], names[|names| - 1];
      InitialOrder(earlier);
      NamedIs(WithRooms(earlier).rooms, last);
      assert names == earlier + [last];
    }
  }

  // ---- Rooms created and destroyed in a tick ----

  /** A request to create a room that can be created: the name is good and not taken. */
  ghost predicate TakesCreate(s: State, step: Step, room: string) {
    step.Take? && step.m == RoomCreate(room) && IsValidRoomName(room) && room !in Names(s.server.rooms)
  }

  /** A request to destroy a room that is listed. */
  ghost predicate TakesDestroy(s: State, step: Step, room: string) {
    step.Take? && step.m == RoomDestroy(room) && room in Names(s.server.rooms)
  }

  /** How many of the requests taken created the room, and how many asked to destroy it. */
  ghost function CreatesTaken(s: State, steps: seq<Step>, room: string): nat
    requires Legal(s, steps)
    decreases |steps|
  {
    if steps == [] then 0
    else (if TakesCreate(s, steps[0], room) then 1 else 0) + CreatesTaken(Apply(s, steps[0]), steps[1..], room)
  }

  ghost function DestroysTaken(s: State, steps: seq<Step>, room: string): nat
    requires Legal(s, steps)
    decreases |steps|
  {
    if steps == [] then 0
    else (if TakesDestroy(s, steps[0], room) then 1 else 0) + DestroysTaken(Apply(s, steps[0]), steps[1..], room)
  }

  /** How the names the server keeps for the end of the tick and its list change. */
  ghost predicate Marks(s: Server, s': Server, room: string, creates: nat, destroys: nat) {
    && multiset(s'.created)[room] == multiset(s.created)[room] + creates
    && multiset(s'.destroyed)[room] == multiset(s.destroyed)[room] + destroys
    && (room in Names(s'.rooms) <==> room in Names(s.rooms) || creates > 0)
  }

  lemma CreatedMarks(s: Server, c: ClientId, name: string, room: string)
    ensures Marks(s, Created(s, c, name), room,
                  if room == name && IsValidRoomName(room) && room !in Names(s.rooms) then 1 else 0, 0)
  {
    NamedIs(s.rooms, name);
    NamedIs(s.rooms, room);
    NamedIs(Created(s, c, name).rooms, room);
    FindWithLast(s.rooms, RoomState(name, false, ServerData([c], [])), room);
  }

  lemma DoomedMarks(s: Server, name: string, room: string)
    requires WellNamed(s.rooms)
    ensures Marks(s, Doomed(s, name), room, 0, if room == name && room in Names(s.rooms) then 1 else 0)
  {
    NamedIs(s.rooms, name);
    var i := Find(s.rooms, name);
    if i < |s.rooms| {
      UpdateKeepsNames(s.rooms, i, s.rooms[i].(doomed := true), room);
    }
  }

  lemma DataMarks(s: Server, i: nat, data: ServerData, history: History, room: string)
    requires WellNamed(s.rooms) && i < |s.rooms|
    ensures Marks(s, s.(rooms := WithData(s.rooms, i, data), history := history), room, 0, 0)
  {
    UpdateKeepsNames(s.rooms, i, s.rooms[i].(data := data), room);
  }

  lemma SameMarks(s: Server, room: string)
    ensures Marks(s, s, room, 0, 0)
  {
  }

  lemma JoinedMarks(s: Server, c: ClientId, name: string, room: string)
    requires WellNamed(s.rooms)
    ensures Marks(s, Joined(s, c, name), room, 0, 0)
  {
    var i := Find(s.rooms, name);
    if i < |s.rooms| {
      DataMarks(s, i, Join(s.rooms[i].data, c), s.history, room);
    }
  }

  lemma SaidMarks(s: Server, name: string, event: RoomEvent, room: string)
    requires WellNamed(s.rooms)
    ensures Marks(s, Said(s, name, event), room, 0, 0)
  {
    var i := Find(s.rooms, name);
    if i < |s.rooms| {
      var data := s.rooms[i].data;
      DataMarks(s, i, data.(events := data.events + [event]), Recorded(s.history, name, event), room);
    }
  }

  lemma ProcessMarks(s: Server, c: ClientId, user: string, now: int, m: Message, room: string)
    requires WellNamed(s.rooms)
    ensures Marks(s, Process(s, c, user, now, m).0, room,
                  if m == RoomCreate(room) && IsValidRoomName(room) && room !in Names(s.rooms) then 1 else 0,
                  if m == RoomDestroy(room) && room in Names(s.rooms) then 1 else 0)
  {
    hide Created, Doomed, Joined, Said, Marks, Names, WellNamed;
    match m
    case RoomCreate(name) => CreatedMarks(s, c, name, room);
    case RoomDestroy(name) => DoomedMarks(s, name, room);
    case RoomJoin(name) => JoinedMarks(s, c, name, room);
    case ChatSend(name, text) => SaidMarks(s, name, RoomEvent(now, user, text), room);
    case _ => SameMarks(s, room);
  }

  lemma StepMarks(s: State, step: Step, room: string)
    requires Inv(s) && Enabled(s, step) && !step.TickEnd?
    ensures Marks(s.server, Apply(s, step).server, room,
                  if TakesCreate(s, step, room) then 1 else 0, if TakesDestroy(s, step, room) then 1 else 0)
  {
    if step.Take? {
      hide Process, Marks, Apply, Names;
      TakeServer(s, step);
      ProcessMarks(s.server, s.phase.clients[s.phase.at], step.user, step.now, step.m, room);
    } else {
      SameServer(s, step);
    }
  }

  lemma {:induction false} RunMarks(s: State, steps: seq<Step>, room: string)
    requires Inv(s) && Legal(s, steps) && TickEnd !in steps
    ensures Marks(s.server, Run(s, steps).server, room, CreatesTaken(s, steps, room), DestroysTaken(s, steps, room))
    ensures CreatesTaken(s, steps, room) <= if room in Names(s.server.rooms) then 0 else 1
    decreases |steps|
  {
    if steps != [] {
      var next := Apply(s, steps[0]);
      hide Apply, Inv, TakesDestroy, Names, IsValidRoomName;
      StepMarks(s, steps[0], room);
      StepKeeps(s, steps[0]);
      RunMarks(next, steps[1..], room);
    }
  }

  /** How often a client is told something between two states. */
  ghost predicate Told(s: State, s': State, c: ClientId, m: Message, times: nat) {
    PushesOnto(s, s', c) && multiset(Sent(s, s', c))[m] == times
  }

  lemma OutputTells(s: Server, c: ClientId, inTick: bool, room: string)
    ensures multiset(TickOutput(s, c, inTick, true))[RoomCreate(room)] == if inTick then multiset(s.created)[room] else 0
    ensures multiset(TickOutput(s, c, inTick, true))[RoomDestroy(room)] == if inTick then multiset(s.destroyed)[room] else 0
  {
    var echoes := Echoes(s.rooms, c);
    OnlyEchoes(s.rooms, c);
    CountNames(s.created, room);
    CountNames(s.destroyed, room);
    assert RoomCreate(room) !in echoes && RoomDestroy(room) !in echoes;
    hide Creates, Destroys, Echoes;
  }

  lemma {:induction false} CountNames(names: seq<string>, room: string)
    ensures multiset(Creates(names))[RoomCreate(room)] == multiset(Destroys(names))[RoomDestroy(room)] == multiset(names)[room]
    ensures multiset(Creates(names))[RoomDestroy(room)] == multiset(Destroys(names))[RoomCreate(room)] == 0
  {
    if names != [] {
      var earlier, last := names[..|names| - 1], names[|names| - 1];
      assert names == earlier + [last];
      assert Creates(names) == Creates(earlier) + [RoomCreate(last)];
      assert Destroys(names) == Destroys(earlier) + [RoomDestroy(last)];
      hide Creates, Destroys;
      CountNames(earlier, room);
    }
  }

  /**
   A whole tick, from its start on: afterwards exactly those rooms are listed that were listed before
   or created in it, and that nobody asked to destroy. Exactly the tick's clients are told: once of
   each room that was created, and of a room to be destroyed as often as that was asked for.
   */
  lemma TickEffects(s0: State, steps: seq<Step>, room: string, c: ClientId)
    requires Reachable(s0) && s0.phase.Idle? && Legal(s0, steps) && TickEnd !in steps
    requires Enabled(Run(s0, steps), TickEnd) && c in Run(s0, steps).live
    ensures var s := Run(s0, steps);
            var s', creates, destroys := Apply(s, TickEnd), CreatesTaken(s0, steps, room), DestroysTaken(s0, steps, room);
            && (room in Names(s'.server.rooms) <==> (room in Names(s0.server.rooms) || creates > 0) && destroys == 0)
            && creates <= 1
            && Told(s, s', c, RoomCreate(room), if c in s.phase.clients then creates else 0)
            && Told(s, s', c, RoomDestroy(room), if c in s.phase.clients then destroys else 0)
  {
    var s := Run(s0, steps);
    ReachableKeeps(s0);
    RunKeeps(s0, steps);
    RunMarks(s0, steps, room);
    TickEndMarks(s, room, c);
    hide Apply, Names, CreatesTaken, DestroysTaken, Run, Legal, Reachable, RoomsAgree, LogAgrees, ClientsAgree, Told;
  }

  lemma TickEndMarks(s: State, room: string, c: ClientId)
    requires Inv(s) && Enabled(s, TickEnd) && c in s.live
    ensures var s' := Apply(s, TickEnd);
            && (room in Names(s'.server.rooms) <==> room in Names(s.server.rooms) && multiset(s.server.destroyed)[room] == 0)
            && Told(s, s', c, RoomCreate(room), if c in s.phase.clients then multiset(s.server.created)[room] else 0)
            && Told(s, s', c, RoomDestroy(room), if c in s.phase.clients then multiset(s.server.destroyed)[room] else 0)
  {
    SurvivesTick(s.server, s.live, room);
    NamedIs(s.server.rooms, room);
    NamedIs(EndTick(s.server, s.live).rooms, room);
    TickEndSends(s, c);
    OutputTells(s.server, c, c in s.phase.clients, room);
    hide EndTick, TickOutput, Names, Inv;
  }

  // ---- Who has joined ----

  /** The client whose message is taken joins a room: it asks to join one there is, or creates one. */
  ghost predicate JoinsBy(s: State, step: Step, c: ClientId, room: string)
    requires Enabled(s, step)
  {
    && step.Take? && c == s.phase.clients[s.phase.at]
    && ((step.m == RoomJoin(room) && room in Names(s.server.rooms)) || TakesCreate(s, step, room))
  }

  lemma DataMembers(s: Server, i: nat, data: ServerData, history: History, c: ClientId, room: string)
    requires WellNamed(s.rooms) && i < |s.rooms|
    ensures var s' := s.(rooms := WithData(s.rooms, i, data), history := history);
            JoinedIn(s', c, room) <==> if room == s.rooms[i].name then c in data.joined else JoinedIn(s, c, room)
  {
    FindIs(s.rooms, i);
    UpdateKeepsNames(s.rooms, i, s.rooms[i].(data := data), room);
  }

  lemma DoomMembers(s: Server, name: string, c: ClientId, room: string)
    requires WellNamed(s.rooms)
    ensures JoinedIn(Doomed(s, name), c, room) <==> JoinedIn(s, c, room)
  {
    var i := Find(s.rooms, name);
    if i < |s.rooms| {
      UpdateKeepsNames(s.rooms, i, s.rooms[i].(doomed := true), room);
    }
  }

  lemma CreateMembers(s: Server, d: ClientId, name: string, c: ClientId, room: string)
    ensures JoinedIn(Created(s, d, name), c, room) <==>
            JoinedIn(s, c, room) || (c == d && room == name && IsValidRoomName(room) && room !in Names(s.rooms))
  {
    NamedIs(s.rooms, name);
    FindWithLast(s.rooms, RoomState(name, false, ServerData([d], [])), room);
  }

  lemma JoinedMembers(s: Server, d: ClientId, name: string, c: ClientId, room: string)
    requires WellNamed(s.rooms)
    ensures JoinedIn(Joined(s, d, name), c, room) <==>
            JoinedIn(s, c, room) || (c == d && name == room && room in Names(s.rooms))
  {
    var i := Find(s.rooms, name);
    NamedIs(s.rooms, name);
    if i < |s.rooms| {
      DataMembers(s, i, Join(s.rooms[i].data, d), s.history, c, room);
    }
  }

  lemma SaidMembers(s: Server, name: string, event: RoomEvent, c: ClientId, room: string)
    requires WellNamed(s.rooms)
    ensures JoinedIn(Said(s, name, event), c, room) <==> JoinedIn(s, c, room)
  {
    var i := Find(s.rooms, name);
    if i < |s.rooms| {
      var data := s.rooms[i].data;
      DataMembers(s, i, data.(events := data.events + [event]), Recorded(s.history, name, event), c, room);
    }
  }

  lemma ProcessMembers(s: Server, d: ClientId, user: string, now: int, m: Message, c: ClientId, room: string)
    requires WellNamed(s.rooms)
    ensures JoinedIn(Process(s, d, user, now, m).0, c, room) <==>
            || JoinedIn(s, c, room)
            || (c == d && m == RoomJoin(room) && room in Names(s.rooms))
            || (c == d && m == RoomCreate(room) && IsValidRoomName(room) && room !in Names(s.rooms))
  {
    hide Created, Doomed, Joined, Said, JoinedIn, Names, WellNamed;
    match m
    case RoomCreate(name) => CreateMembers(s, d, name, c, room);
    case RoomDestroy(name) => DoomMembers(s, name, c, room);
    case RoomJoin(name) => JoinedMembers(s, d, name, c, room);
    case ChatSend(name, text) => SaidMembers(s, name, RoomEvent(now, user, text), c, room);
    case _ =>
  }

  lemma TickEndMembers(s: Server, live: set<ClientId>, c: ClientId, room: string)
    requires RoomsAgree(s)
    ensures JoinedIn(EndTick(s, live), c, room) <==>
            JoinedIn(s, c, room) && c in live && Lists(EndTick(s, live).rooms, room)
  {
    SurvivesTick(s, live, room);
    if Lists(s.rooms, room) {
      StaysConnected(s.rooms[Find(s.rooms, room)].data.joined, live, c);
    }
  }

  /**
   Who has joined a room after a step: those who had, unless at the end of a tick the room goes or
   their connection is gone, and the client of the message that was taken if it joins or creates it.
   */
  lemma MembersExactly(s: State, step: Step, c: ClientId, room: string)
    requires Inv(s) && Enabled(s, step)
    ensures var s' := Apply(s, step);
            JoinedIn(s'.server, c, room) <==>
            if step.TickEnd? then JoinedIn(s.server, c, room) && c in s.live && room in Names(s'.server.rooms)
            else JoinedIn(s.server, c, room) || JoinsBy(s, step, c, room)
  {
    if step.Take? {
      hide Process, Apply, Names, JoinedIn;
      TakeServer(s, step);
      ProcessMembers(s.server, s.phase.clients[s.phase.at], step.user, step.now, step.m, c, room);
    } else if step.TickEnd? {
      hide EndTick, Names, JoinedIn;
      TickEndMembers(s.server, s.live, c, room);
      NamedIs(Apply(s, step).server.rooms, room);
    } else {
      SameServer(s, step);
    }
  }

  /** Those who stay keep their order. */
  lemma {:induction false} ConnectedInOrder(a: seq<ClientId>, b: seq<ClientId>, live: set<ClientId>)
    ensures Connected(a + b, live) == Connected(a, live) + Connected(b, live)
  {
    if b == [] {
      assert a + b == a;
    } else {
      assert (a + b)[..|a + b| - 1] == a + b[..|b| - 1];
      ConnectedInOrder(a, b[..|b| - 1], live);
    }
  }

  // ---- Answers ----

  /** What a list carries: the names of the rooms, in any order, each once. */
  ghost predicate ListsThem(names: seq<string>, rooms: seq<ServerRoom>) {
    |names| == |rooms| && forall name :: name in names <==> name in Names(rooms)
  }

  /** The oldest retained events, as many as asked for, or all if none were asked for or fewer are there. */
  ghost predicate Answers(m: Message, retained: seq<RoomEvent>, room: string, n: int) {
    && m.RoomHistory? && m.room == room && m.eventCount == |m.events|
    && |m.events| == (if 0 < n < |retained| then n else |retained|)
    && forall i :: 0 <= i < |m.events| ==> Carries(m.events[i], retained[i])
  }

  /**
   Only two messages are answered, to the client that sent them: a request for the list with one
   list, and a request for a listed room's history of no more than 100 events with one history.
   */
  lemma TakeReplies(s: State, step: Step, c: ClientId)
    requires step.Take? && Enabled(s, step) && c in s.pushed
    ensures var s', m := Apply(s, step), step.m;
            && PushesOnto(s, s', c)
            && var sent := Sent(s, s', c);
               if c == s.phase.clients[s.phase.at] && m.RoomList? then
                 |sent| == 1 && sent[0].RoomList? && ListsThem(sent[0].names, s.server.rooms)
               else if c == s.phase.clients[s.phase.at] && m.RoomHistory?
                       && m.room in Names(s.server.rooms) && 0 <= m.eventCount <= 100 then
                 |sent| == 1 && Answers(sent[0], Retained(s.server.history, m.room), m.room, m.eventCount)
               else sent == []
  {
    TakeSends(s, step, c);
    match step.m
    case RoomList(_) =>
      ListCarriesNames(Names(s.server.rooms));
      SameElements(ListOf(Names(s.server.rooms)).names, Names(s.server.rooms));
      hide ListOf;
    case RoomHistory(room, n, _) =>
      NamedIs(s.server.rooms, room);
      if 0 <= n {
        ReplyIsOldest(room, Retained(s.server.history, room), n);
      }
      hide HistoryReply;
    case _ =>
  }

  lemma SameElements(a: seq<string>, b: seq<string>)
    requires Elements(a) == Elements(b)
    ensures forall name :: name in a <==> name in b
  {
    forall name
      ensures name in a <==> name in b
    {
      assert name in Elements(a) <==> name in Elements(b);
    }
  }
}
