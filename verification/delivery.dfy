/**
 Chat lines over whole runs: what a joined client is sent for a room, in which order, and what it
 shows after asking for the room's history.
 */
module Delivery {
  import opened Collections
  import opened Messages
  import opened Rooms
  import opened RoomLists
  import opened ServerSpec
  import opened ServerRun
  import opened Replicas
  import opened Convergence

  predicate JoinedIn(s: Server, c: ClientId, room: string) {
    Lists(s.rooms, room) && c in s.rooms[Find(s.rooms, room)].data.joined
  }

  /** How much of a room's log has been distributed: it moves only at the end of a tick. */
  function Delivered(s: State, room: string): int
    requires room in s.logs
  {
    |s.logs[room]| - |EventsIn(s.server, room)|
  }

  // ---- One step ----

  lemma {:induction false} LinesEcho(source: string, events: seq<RoomEvent>, name: string)
    ensures EchoesOf(LinesOf(source, events), name) == if source == name then AllOnWire(events) else []
  {
    if events != [] {
      var n := |events| - 1;
      LinesEcho(source, events[..n], name);
      assert LinesOf(source, events)[..n] == LinesOf(source, events[..n]);
      assert AllOnWire(events) == AllOnWire(events[..n]) + [OnWire(events[n])];
    }
  }

  lemma EchoesWithLast(earlier: seq<ServerRoom>, last: ServerRoom, c: ClientId, name: string)
    ensures EchoesOf(Echoes(earlier + [last], c), name) == EchoesOf(Echoes(earlier, c), name) +
            if c in last.data.joined && last.name == name then AllOnWire(last.data.events) else []
  {
    assert (earlier + [last])[..|earlier|] == earlier;
    LinesEcho(last.name, last.data.events, name);
    EchoesOfAppend(Echoes(earlier, c), if c in last.data.joined then RoomEchoes(last) else [], name);
  }

  /** Adding a room of a new name changes nothing about the rooms found before. */
  lemma FoundWithLast(earlier: seq<ServerRoom>, last: ServerRoom, name: string)
    requires !Lists(earlier, last.name)
    ensures var rooms := earlier + [last];
            && (Lists(rooms, name) <==> Lists(earlier, name) || last.name == name)
            && (Lists(earlier, name) ==> last.name != name && rooms[Find(rooms, name)] == earlier[Find(earlier, name)])
            && (last.name == name ==> rooms[Find(rooms, name)] == last)
  {
    FindWithLast(earlier, last, name);
  }

  /** Among the lines for one client, those of one room are all its undistributed events, or none. */
  lemma {:induction false} TickEchoes(rooms: seq<ServerRoom>, c: ClientId, name: string)
    requires WellNamed(rooms)
    ensures EchoesOf(Echoes(rooms, c), name) ==
            if Lists(rooms, name) && c in rooms[Find(rooms, name)].data.joined
            then AllOnWire(rooms[Find(rooms, name)].data.events) else []
  {
    if rooms != [] {
      var earlier, last := rooms[..|rooms| - 1], rooms[|rooms| - 1];
      assert rooms == earlier + [last] && WellNamed(earlier) && !Lists(earlier, last.name);
      hide Echoes, EchoesOf, Find, Lists, AllOnWire, WellNamed;
      TickEchoes(earlier, c, name);
      FoundWithLast(earlier, last, name);
      EchoesWithLast(earlier, last, c, name);
    }
  }

  lemma {:induction false} NoEchoes(messages: seq<Message>, name: string)
    requires forall i :: 0 <= i < |messages| ==> !messages[i].ChatEcho?
    ensures EchoesOf(messages, name) == []
  {
    if messages != [] {
      NoEchoes(messages[..|messages| - 1], name);
    }
  }

  /** A room is still there, its log has grown, nothing of it was distributed, and `c` is still joined if it was. */
  ghost predicate Undisturbed(s: Server, logs: Logs, s': Server, logs': Logs, c: ClientId, name: string) {
    && name in logs && name in logs' && logs[name] <= logs'[name]
    && |logs'[name]| - |EventsIn(s', name)| == |logs[name]| - |EventsIn(s, name)|
    && (JoinedIn(s, c, name) ==> JoinedIn(s', c, name))
  }

  lemma UpdateUndisturbed(s: Server, logs: Logs, i: nat, room: ServerRoom, c: ClientId, name: string)
    requires WellNamed(s.rooms) && i < |s.rooms| && room.name == s.rooms[i].name && name in logs
    requires name != room.name ||
      (room.data.events == s.rooms[i].data.events && (c in s.rooms[i].data.joined ==> c in room.data.joined))
    ensures Undisturbed(s, logs, s.(rooms := s.rooms[i := room]), logs, c, name)
  {
    UpdateKeepsNames(s.rooms, i, room, name);
  }

  lemma CreateUndisturbed(s: Server, logs: Logs, creator: ClientId, room: string, c: ClientId, name: string)
    requires LogAgrees(s, logs, name) && name in logs
    ensures Undisturbed(s, logs, Created(s, creator, room), LoggedRoom(logs, s, room), c, name)
  {
    FindWithLast(s.rooms, RoomState(room, false, ServerData([creator], [])), name);
  }

  lemma JoinUndisturbed(s: Server, logs: Logs, joiner: ClientId, room: string, c: ClientId, name: string)
    requires WellNamed(s.rooms) && name in logs
    ensures Undisturbed(s, logs, Joined(s, joiner, room), logs, c, name)
  {
    var i := Find(s.rooms, room);
    if i < |s.rooms| {
      UpdateUndisturbed(s, logs, i, s.rooms[i].(data := Join(s.rooms[i].data, joiner)), c, name);
    }
  }

  lemma DoomUndisturbed(s: Server, logs: Logs, room: string, c: ClientId, name: string)
    requires WellNamed(s.rooms) && name in logs
    ensures Undisturbed(s, logs, Doomed(s, room), logs, c, name)
  {
    var i := Find(s.rooms, room);
    if i < |s.rooms| {
      UpdateUndisturbed(s, logs, i, s.rooms[i].(doomed := true), c, name);
    }
  }

  lemma LineUndisturbed(s: Server, logs: Logs, i: nat, event: RoomEvent, c: ClientId)
    requires WellNamed(s.rooms) && i < |s.rooms| && s.rooms[i].name in logs
    ensures var name, data := s.rooms[i].name, s.rooms[i].data;
            Undisturbed(s, logs, s.(rooms := WithData(s.rooms, i, data.(events := data.events + [event]))),
                        logs[name := logs[name] + [event]], c, name)
  {
    var data := s.rooms[i].data;
    FindIs(s.rooms, i);
    UpdateKeepsNames(s.rooms, i, s.rooms[i].(data := data.(events := data.events + [event])), s.rooms[i].name);
  }

  lemma SaidUndisturbed(s: Server, logs: Logs, room: string, event: RoomEvent, c: ClientId, name: string)
    requires WellNamed(s.rooms) && LogAgrees(s, logs, room) && name in logs
    ensures Undisturbed(s, logs, Said(s, room, event), LoggedLine(logs, s, room, event), c, name)
  {
    var i := Find(s.rooms, room);
    if i < |s.rooms| {
      var data := s.rooms[i].data.(events := s.rooms[i].data.events + [event]);
      if name == room {
        LineUndisturbed(s, logs, i, event, c);
      } else {
        UpdateUndisturbed(s, logs, i, s.rooms[i].(data := data), c, name);
      }
    }
  }

  lemma SameUndisturbed(s: Server, logs: Logs, c: ClientId, name: string)
    requires name in logs
    ensures Undisturbed(s, logs, s, logs, c, name)
  {
  }

  /** A message moves no line from undistributed to distributed, and takes nobody out of a room. */
  lemma ProcessUndisturbed(s: Server, logs: Logs, c: ClientId, user: string, now: int, m: Message,
                           d: ClientId, name: string)
    requires WellNamed(s.rooms) && LogAgrees(s, logs, name) && name in logs
    requires m.ChatSend? ==> LogAgrees(s, logs, m.room)
    ensures Undisturbed(s, logs, Process(s, c, user, now, m).0, Logged(logs, s, user, now, m), d, name)
  {
    hide Undisturbed, LogAgrees, WellNamed;
    match m
    case RoomCreate(room) => CreateUndisturbed(s, logs, c, room, d, name);
    case RoomJoin(room) => JoinUndisturbed(s, logs, c, room, d, name);
    case RoomDestroy(room) => DoomUndisturbed(s, logs, room, d, name);
    case ChatSend(room, text) => SaidUndisturbed(s, logs, room, RoomEvent(now, user, text), d, name);
    case _ => SameUndisturbed(s, logs, d, name);
  }

  lemma {:induction false} StaysConnected(joined: seq<ClientId>, live: set<ClientId>, c: ClientId)
    ensures c in Connected(joined, live) <==> c in joined && c in live
  {
    if joined != [] {
      StaysConnected(joined[..|joined| - 1], live, c);
      assert joined == joined[..|joined| - 1] + [joined[|joined| - 1]];
    }
  }

  /** The events of a log from the `from`th to just before the `to`th, as messages carry them. */
  function Stretch(log: seq<RoomEvent>, from: int, to: int): seq<WireEvent>
    requires 0 <= from <= to <= |log|
  {
    AllOnWire(log[from..to])
  }

  lemma StretchJoins(log: seq<RoomEvent>, longer: seq<RoomEvent>, from: int, middle: int, to: int)
    requires 0 <= from <= middle <= |log| && middle <= to <= |longer| && log <= longer
    ensures Stretch(log, from, middle) + Stretch(longer, middle, to) == Stretch(longer, from, to)
  {
  }

  /** The room's log and how much of it is distributed only grow. */
  ghost predicate Advances(s: State, s': State, room: string) {
    && room in s.logs && room in s'.logs
    && s.logs[room] <= s'.logs[room]
    && 0 <= Delivered(s, room) <= Delivered(s', room) <= |s'.logs[room]|
  }

  predicate PushesOnto(s: State, s': State, c: ClientId) {
    c in s.pushed && c in s'.pushed && s.pushed[c] <= s'.pushed[c]
  }

  /** What a client was sent between two states. */
  function Sent(s: State, s': State, c: ClientId): seq<Message>
    requires PushesOnto(s, s', c)
  {
    s'.pushed[c][|s.pushed[c]|..]
  }

  /** Between two states a joined client is sent exactly the stretch of the log distributed meanwhile. */
  ghost predicate Hears(s: State, s': State, c: ClientId, room: string) {
    && Advances(s, s', room)
    && PushesOnto(s, s', c)
    && JoinedIn(s'.server, c, room)
    && EchoesOf(Sent(s, s', c), room) == Stretch(s'.logs[room], Delivered(s, room), Delivered(s', room))
  }

  /** A client that has not joined is sent nothing of the room. */
  ghost predicate HearsNothing(s: State, s': State, c: ClientId, room: string) {
    && Advances(s, s', room)
    && PushesOnto(s, s', c)
    && EchoesOf(Sent(s, s', c), room) == []
  }

  lemma HearsQuietly(s: State, s': State, c: ClientId, room: string)
    requires Inv(s) && PushesOnto(s, s', c)
    requires room in s.logs && room in s'.logs && s.logs[room] <= s'.logs[room]
    requires Delivered(s', room) == Delivered(s, room)
    requires forall i :: 0 <= i < |Sent(s, s', c)| ==> !Sent(s, s', c)[i].ChatEcho?
    requires JoinedIn(s.server, c, room) ==> JoinedIn(s'.server, c, room)
    ensures HearsNothing(s, s', c, room)
    ensures JoinedIn(s.server, c, room) ==> Hears(s, s', c, room)
  {
    assert LogAgrees(s.server, s.logs, room);
    NoEchoes(Sent(s, s', c), room);
    hide EventsIn, JoinedIn, Inv;
  }

  lemma RepliesAreNoEchoes(s: Server, c: ClientId, user: string, now: int, m: Message)
    ensures forall i :: 0 <= i < |Process(s, c, user, now, m).1| ==> !Process(s, c, user, now, m).1[i].ChatEcho?
  {
  }

  lemma TakeSends(s: State, step: Step, c: ClientId)
    requires step.Take? && Enabled(s, step) && c in s.pushed
    ensures PushesOnto(s, Apply(s, step), c)
    ensures var c0 := s.phase.clients[s.phase.at];
            Sent(s, Apply(s, step), c) ==
            if c == c0 then Process(s.server, c0, step.user, step.now, step.m).1 else []
  {
    hide Process, Logged;
  }

  lemma TakeServer(s: State, step: Step)
    requires step.Take? && Enabled(s, step)
    ensures var c0 := s.phase.clients[s.phase.at];
            && Apply(s, step).server == Process(s.server, c0, step.user, step.now, step.m).0
            && Apply(s, step).logs == Logged(s.logs, s.server, step.user, step.now, step.m)
  {
    hide Process, Logged;
  }

  lemma TakeUndisturbed(s: State, step: Step, c: ClientId, room: string)
    requires Inv(s) && step.Take? && Enabled(s, step) && room in s.logs
    ensures Undisturbed(s.server, s.logs, Apply(s, step).server, Apply(s, step).logs, c, room)
  {
    hide Undisturbed, LogAgrees, WellNamed, Process, Logged, Apply, ClientsAgree, QuietWhenIdle;
    TakeServer(s, step);
    assert LogAgrees(s.server, s.logs, room);
    assert step.m.ChatSend? ==> LogAgrees(s.server, s.logs, step.m.room);
    ProcessUndisturbed(s.server, s.logs, s.phase.clients[s.phase.at], step.user, step.now, step.m, c, room);
  }

  lemma TakeEchoesNothing(s: State, step: Step, c: ClientId)
    requires step.Take? && Enabled(s, step) && c in s.pushed
    ensures PushesOnto(s, Apply(s, step), c)
    ensures forall i :: 0 <= i < |Sent(s, Apply(s, step), c)| ==> !Sent(s, Apply(s, step), c)[i].ChatEcho?
  {
    TakeSends(s, step, c);
    RepliesAreNoEchoes(s.server, s.phase.clients[s.phase.at], step.user, step.now, step.m);
    hide Process, Apply;
  }

  lemma TakeHears(s: State, step: Step, c: ClientId, room: string)
    requires Inv(s) && step.Take? && Enabled(s, step) && c in s.live && room in s.logs
    ensures var s' := Apply(s, step);
            && HearsNothing(s, s', c, room) && Delivered(s', room) == Delivered(s, room)
            && (JoinedIn(s.server, c, room) ==> Hears(s, s', c, room))
  {
    TakeUndisturbed(s, step, c, room);
    TakeEchoesNothing(s, step, c);
    hide Apply, Process, JoinedIn, EventsIn, LogAgrees, Sent;
    HearsQuietly(s, Apply(s, step), c, room);
  }

  lemma OutputEchoes(s: Server, c: ClientId, inTick: bool, room: string)
    requires WellNamed(s.rooms)
    ensures EchoesOf(TickOutput(s, c, inTick, true), room) ==
            if JoinedIn(s, c, room) then AllOnWire(EventsIn(s, room)) else []
  {
    var told := if inTick then Broadcasts(s) else [];
    EchoesOfAppend(told, Echoes(s.rooms, c), room);
    NoEchoes(told, room);
    TickEchoes(s.rooms, c, room);
  }

  /** A room that outlives the tick has everything distributed, and keeps its live clients. */
  lemma EndTickDelivers(s: Server, logs: Logs, live: set<ClientId>, c: ClientId, room: string)
    requires RoomsAgree(s) && LogAgrees(s, logs, room) && Lists(EndTick(s, live).rooms, room) && c in live
    ensures EventsIn(EndTick(s, live), room) == []
    ensures JoinedIn(EndTick(s, live), c, room) == JoinedIn(s, c, room)
  {
    SurvivesTick(s, live, room);
    StaysConnected(s.rooms[Find(s.rooms, room)].data.joined, live, c);
  }

  lemma WholeSuffix(events: seq<RoomEvent>, log: seq<RoomEvent>)
    requires IsSuffix(events, log)
    ensures AllOnWire(events) == Stretch(log, |log| - |events|, |log|)
  {
  }

  lemma TickEndSends(s: State, c: ClientId)
    requires Inv(s) && Enabled(s, TickEnd) && c in s.live
    ensures PushesOnto(s, Apply(s, TickEnd), c)
    ensures Sent(s, Apply(s, TickEnd), c) == TickOutput(s.server, c, c in s.phase.clients, true)
  {
    hide TickOutput, EndTick;
  }

  lemma TickEndAdvances(s: State, c: ClientId, room: string)
    requires Inv(s) && Enabled(s, TickEnd) && c in s.live && room in s.logs && room in Apply(s, TickEnd).logs
    ensures var s' := Apply(s, TickEnd);
            && s'.logs[room] == s.logs[room]
            && EventsIn(s'.server, room) == []
            && JoinedIn(s'.server, c, room) == JoinedIn(s.server, c, room)
            && IsSuffix(EventsIn(s.server, room), s.logs[room])
  {
    assert LogAgrees(s.server, s.logs, room);
    NamedIs(Apply(s, TickEnd).server.rooms, room);
    EndTickDelivers(s.server, s.logs, s.live, c, room);
  }

  /** A client that is sent all undistributed events of a room, or none, hears accordingly. */
  lemma HearsOutput(s: State, s': State, c: ClientId, room: string)
    requires PushesOnto(s, s', c) && room in s.logs && room in s'.logs && s'.logs[room] == s.logs[room]
    requires IsSuffix(EventsIn(s.server, room), s.logs[room]) && EventsIn(s'.server, room) == []
    requires JoinedIn(s'.server, c, room) == JoinedIn(s.server, c, room)
    requires EchoesOf(Sent(s, s', c), room) ==
             if JoinedIn(s.server, c, room) then AllOnWire(EventsIn(s.server, room)) else []
    ensures Delivered(s', room) == |s'.logs[room]|
    ensures if JoinedIn(s.server, c, room) then Hears(s, s', c, room) else HearsNothing(s, s', c, room)
  {
    hide EventsIn, JoinedIn, EchoesOf;
    WholeSuffix(EventsIn(s.server, room), s.logs[room]);
  }

  lemma TickEndHears(s: State, c: ClientId, room: string)
    requires Inv(s) && Enabled(s, TickEnd) && c in s.live && room in s.logs && room in Apply(s, TickEnd).logs
    ensures var s' := Apply(s, TickEnd);
            && Delivered(s', room) == |s'.logs[room]|
            && if JoinedIn(s.server, c, room) then Hears(s, s', c, room) else HearsNothing(s, s', c, room)
  {
    TickEndSends(s, c);
    TickEndAdvances(s, c, room);
    OutputEchoes(s.server, c, c in s.phase.clients, room);
    HearsOutput(s, Apply(s, TickEnd), c, room);
  }

  lemma StepHears(s: State, step: Step, c: ClientId, room: string)
    requires Inv(s) && Enabled(s, step) && c in s.live && room in s.logs && room in Apply(s, step).logs
    ensures var s' := Apply(s, step);
            && (if JoinedIn(s.server, c, room) then Hears(s, s', c, room) else HearsNothing(s, s', c, room))
            && (!step.TickEnd? ==> Delivered(s', room) == Delivered(s, room))
  {
    match step
    case Take(_, _, _) => TakeHears(s, step, c, room);
    case TickEnd => TickEndHears(s, c, room);
    case _ =>
      SameServer(s, step);
      HearsQuietly(s, Apply(s, step), c, room);
  }

  // ---- Runs ----

  /** The room instance and the client's connection last from `s` through `steps`. */
  ghost predicate Lasts(s: State, steps: seq<Step>, c: ClientId, room: string)
    requires Legal(s, steps)
    decreases |steps|
  {
    && room in s.logs && c in s.live
    && (steps == [] || Lasts(Apply(s, steps[0]), steps[1..], c, room))
  }

  lemma SentJoins(s1: State, s2: State, s3: State, c: ClientId, room: string)
    requires PushesOnto(s1, s2, c) && PushesOnto(s2, s3, c)
    ensures PushesOnto(s1, s3, c) && Sent(s1, s3, c) == Sent(s1, s2, c) + Sent(s2, s3, c)
    ensures EchoesOf(Sent(s1, s3, c), room) == EchoesOf(Sent(s1, s2, c), room) + EchoesOf(Sent(s2, s3, c), room)
  {
    EchoesOfAppend(Sent(s1, s2, c), Sent(s2, s3, c), room);
  }

  lemma HearsTransitive(s1: State, s2: State, s3: State, c: ClientId, room: string)
    requires Hears(s1, s2, c, room) && Hears(s2, s3, c, room)
    ensures Hears(s1, s3, c, room)
  {
    SentJoins(s1, s2, s3, c, room);
    StretchJoins(s2.logs[room], s3.logs[room], Delivered(s1, room), Delivered(s2, room), Delivered(s3, room));
  }

  lemma HearsItself(s: State, c: ClientId, room: string)
    requires Inv(s) && c in s.live && room in s.logs && JoinedIn(s.server, c, room)
    ensures Hears(s, s, c, room)
  {
    HearsQuietly(s, s, c, room);
  }

  /**
   Once joined, and as long as the room and the connection last, a client is sent exactly the
   room's events from the first one not yet distributed when it joined, each once and in order.
   */
  lemma {:induction false} JoinedHearsAll(s: State, steps: seq<Step>, c: ClientId, room: string)
    requires Inv(s) && Legal(s, steps) && Lasts(s, steps, c, room) && JoinedIn(s.server, c, room)
    ensures Hears(s, Run(s, steps), c, room)
    decreases |steps|
  {
    if steps == [] {
      HearsItself(s, c, room);
    } else {
      var next := Apply(s, steps[0]);
      StepHears(s, steps[0], c, room);
      StepKeeps(s, steps[0]);
      JoinedHearsAll(next, steps[1..], c, room);
      HearsTransitive(s, next, Run(next, steps[1..]), c, room);
    }
  }

  /** Between ticks everything logged has been distributed, and a tick changes that only at its end. */
  lemma DeliveredAtTickStart(s: State, steps: seq<Step>, c: ClientId, room: string)
    requires Inv(s) && s.phase.Idle? && Legal(s, steps) && Lasts(s, steps, c, room) && TickEnd !in steps
    ensures room in Run(s, steps).logs && Delivered(Run(s, steps), room) == |s.logs[room]|
  {
    assert EventsIn(s.server, room) == [];
    DeliveredUnchanged(s, steps, c, room);
  }

  lemma {:induction false} DeliveredUnchanged(s: State, steps: seq<Step>, c: ClientId, room: string)
    requires Inv(s) && Legal(s, steps) && Lasts(s, steps, c, room) && TickEnd !in steps
    ensures room in Run(s, steps).logs && Delivered(Run(s, steps), room) == Delivered(s, room)
    decreases |steps|
  {
    if steps != [] {
      StepHears(s, steps[0], c, room);
      StepKeeps(s, steps[0]);
      DeliveredUnchanged(Apply(s, steps[0]), steps[1..], c, room);
    }
  }

  /** Of two clients in a room, what the later one to join hears is the end of what the other hears. */
  lemma OneOrderForAll(s1: State, steps: seq<Step>, more: seq<Step>, c: ClientId, d: ClientId, room: string)
    requires Inv(s1) && Legal(s1, steps) && Lasts(s1, steps, c, room) && JoinedIn(s1.server, c, room)
    requires Legal(Run(s1, steps), more)
    requires Lasts(Run(s1, steps), more, c, room) && Lasts(Run(s1, steps), more, d, room)
    requires JoinedIn(Run(s1, steps).server, d, room)
    ensures var s2 := Run(s1, steps);
            var s3 := Run(s2, more);
            && PushesOnto(s1, s3, c) && PushesOnto(s2, s3, d)
            && IsSuffix(EchoesOf(Sent(s2, s3, d), room), EchoesOf(Sent(s1, s3, c), room))
  {
    var s2 := Run(s1, steps);
    var s3 := Run(s2, more);
    RunKeeps(s1, steps);
    JoinedHearsAll(s1, steps, c, room);
    JoinedHearsAll(s2, more, c, room);
    JoinedHearsAll(s2, more, d, room);
    SentJoins(s1, s2, s3, c, room);
    assert EchoesOf(Sent(s2, s3, d), room) == EchoesOf(Sent(s2, s3, c), room);
  }

  // ---- What a joining client shows ----

  lemma KeepsListedAppend(a: seq<Message>, b: seq<Message>, room: string)
    requires KeepsListed(a, room) && KeepsListed(b, room)
    ensures KeepsListed(a + b, room)
  {
  }

  lemma ReplyKeepsListed(s: Server, c: ClientId, user: string, now: int, m: Message, room: string)
    requires Lists(s.rooms, room)
    ensures KeepsListed(Process(s, c, user, now, m).1, room)
  {
    if m.RoomList? {
      NamedIs(s.rooms, room);
      ListCarriesNames(Names(s.rooms));
      assert room in Elements(ListOf(Names(s.rooms)).names);
    }
  }

  lemma OutputKeepsListed(s: Server, c: ClientId, inTick: bool, room: string)
    requires room !in s.destroyed
    ensures KeepsListed(TickOutput(s, c, inTick, true), room)
  {
    EchoesSilent(s.rooms, c);
    assert KeepsListed(Broadcasts(s), room);
    KeepsListedAppend(Broadcasts(s), Echoes(s.rooms, c), room);
  }

  lemma SilentStepSends(s: State, step: Step, c: ClientId)
    requires Enabled(s, step) && c in s.pushed && !step.Take? && !step.TickEnd?
    ensures PushesOnto(s, Apply(s, step), c) && Sent(s, Apply(s, step), c) == []
  {
  }

  lemma TakeKeepsListed(s: State, step: Step, c: ClientId, room: string)
    requires step.Take? && Enabled(s, step) && c in s.pushed && Lists(s.server.rooms, room)
    ensures PushesOnto(s, Apply(s, step), c) && KeepsListed(Sent(s, Apply(s, step), c), room)
  {
    hide KeepsListed, Process, Lists, Apply;
    TakeSends(s, step, c);
    EmptyKeepsListed(room);
    ReplyKeepsListed(s.server, s.phase.clients[s.phase.at], step.user, step.now, step.m, room);
  }

  lemma TickEndKeepsListed(s: State, c: ClientId, room: string)
    requires Inv(s) && Enabled(s, TickEnd) && c in s.live && room in Apply(s, TickEnd).logs
    ensures PushesOnto(s, Apply(s, TickEnd), c) && KeepsListed(Sent(s, Apply(s, TickEnd), c), room)
  {
    hide KeepsListed, TickOutput, EndTick, Inv, Apply;
    TickEndSends(s, c);
    Undestroyed(s, room);
    OutputKeepsListed(s.server, c, c in s.phase.clients, room);
  }

  /** Nothing sent in a step takes a room off a client's list if the room outlives the step. */
  lemma StepKeepsListed(s: State, step: Step, c: ClientId, room: string)
    requires Inv(s) && Enabled(s, step) && c in s.live && room in s.logs && room in Apply(s, step).logs
    ensures PushesOnto(s, Apply(s, step), c) && KeepsListed(Sent(s, Apply(s, step), c), room)
  {
    LoggedIsListed(s, room);
    assert c in s.pushed;
    hide KeepsListed, Apply, Inv, Lists, Sent, PushesOnto;
    match step
    case Take(_, _, _) => TakeKeepsListed(s, step, c, room);
    case TickEnd => TickEndKeepsListed(s, c, room);
    case _ =>
      SilentStepSends(s, step, c);
      EmptyKeepsListed(room);
  }

  lemma EmptyKeepsListed(room: string)
    ensures KeepsListed([], room)
  {
  }

  lemma Undestroyed(s: State, room: string)
    requires Inv(s) && Enabled(s, TickEnd) && room in Apply(s, TickEnd).logs
    ensures room !in s.server.destroyed
  {
    NamedIs(Apply(s, TickEnd).server.rooms, room);
    SurvivesTick(s.server, s.live, room);
  }

  /** A history request of a client, about to be processed. */
  predicate Asks(s: State, step: Step, c: ClientId, room: string) {
    && step.Take? && Enabled(s, step) && c == s.phase.clients[s.phase.at]
    && step.m.RoomHistory? && step.m.room == room
  }

  ghost predicate NeverAsks(s: State, steps: seq<Step>, c: ClientId, room: string)
    requires Legal(s, steps)
    decreases |steps|
  {
    steps == [] || (!Asks(s, steps[0], c, room) && NeverAsks(Apply(s, steps[0]), steps[1..], c, room))
  }

  lemma EchoesNoHistory(s: Server, c: ClientId, inTick: bool, room: string)
    ensures NoHistoryOf(TickOutput(s, c, inTick, true), room)
  {
    OnlyEchoes(s.rooms, c);
  }

  lemma {:induction false} OnlyEchoes(rooms: seq<ServerRoom>, c: ClientId)
    ensures forall i :: 0 <= i < |Echoes(rooms, c)| ==> Echoes(rooms, c)[i].ChatEcho?
  {
    if rooms != [] {
      OnlyEchoes(rooms[..|rooms| - 1], c);
    }
  }

  lemma ReplyNoHistory(s: Server, c: ClientId, user: string, now: int, m: Message, room: string)
    requires !(m.RoomHistory? && m.room == room)
    ensures NoHistoryOf(Process(s, c, user, now, m).1, room)
  {
  }

  lemma StepNoHistory(s: State, step: Step, c: ClientId, room: string)
    requires Inv(s) && Enabled(s, step) && c in s.live && !Asks(s, step, c, room)
    ensures PushesOnto(s, Apply(s, step), c) && NoHistoryOf(Sent(s, Apply(s, step), c), room)
  {
    match step
    case Take(user, now, m) =>
      TakeSends(s, step, c);
      if c == s.phase.clients[s.phase.at] {
        ReplyNoHistory(s.server, c, user, now, m, room);
      }
    case TickEnd =>
      TickEndSends(s, c);
      EchoesNoHistory(s.server, c, c in s.phase.clients, room);
    case _ => SilentStepSends(s, step, c);
  }

  /** What a client was sent between two states keeps a room listed and its history as it is. */
  ghost predicate LeavesShown(s: State, s': State, c: ClientId, room: string) {
    PushesOnto(s, s', c) && KeepsListed(Sent(s, s', c), room) && NoHistoryOf(Sent(s, s', c), room)
  }

  lemma LeavesShownTransitive(s1: State, s2: State, s3: State, c: ClientId, room: string)
    requires LeavesShown(s1, s2, c, room) && LeavesShown(s2, s3, c, room)
    ensures LeavesShown(s1, s3, c, room)
  {
    assert Sent(s1, s3, c) == Sent(s1, s2, c) + Sent(s2, s3, c);
  }

  lemma {:induction false} RunLeavesShown(s: State, steps: seq<Step>, c: ClientId, room: string)
    requires Inv(s) && Legal(s, steps) && Lasts(s, steps, c, room) && NeverAsks(s, steps, c, room)
    ensures LeavesShown(s, Run(s, steps), c, room)
    decreases |steps|
  {
    if steps != [] {
      var next := Apply(s, steps[0]);
      StepNoHistory(s, steps[0], c, room);
      StepKeeps(s, steps[0]);
      StepKeepsListed(s, steps[0], c, room);
      RunLeavesShown(next, steps[1..], c, room);
      LeavesShownTransitive(s, next, Run(next, steps[1..]), c, room);
    }
  }

  /** Where the events of the reply start in the log, and how many there are. */
  function RepliedFrom(log: seq<RoomEvent>): (from: int)
    ensures 0 <= from <= |log|
  {
    if |log| <= HISTORY_KEPT then 0 else |log| - HISTORY_KEPT
  }

  function RepliedCount(log: seq<RoomEvent>, n: nat): (count: int)
    ensures 0 <= count && RepliedFrom(log) + count <= |log| && count <= HISTORY_KEPT
  {
    var retained := |log| - RepliedFrom(log);
    if n == 0 || retained <= n then retained else n
  }

  function RepliedTo(log: seq<RoomEvent>, n: nat): (to: int)
    ensures RepliedFrom(log) <= to <= |log| && to - RepliedFrom(log) <= HISTORY_KEPT
  {
    RepliedFrom(log) + RepliedCount(log, n)
  }

  lemma ReplyOfLog(room: string, log: seq<RoomEvent>, n: nat)
    ensures HistoryReply(room, Last(log, HISTORY_KEPT), n) ==
            RoomHistory(room, RepliedCount(log, n), Stretch(log, RepliedFrom(log), RepliedTo(log, n)))
  {
    assert Replied(Last(log, HISTORY_KEPT), n) == log[RepliedFrom(log)..RepliedTo(log, n)];
  }

  /** A history request within the limits: the answer, and nothing else changes. */
  lemma AsksGets(s: State, step: Step, c: ClientId, room: string)
    requires Inv(s) && Asks(s, step, c, room) && room in s.logs
    requires 0 <= step.m.eventCount <= ROOM_HISTORY_MAX_ENTRIES
    ensures var s', log, n := Apply(s, step), s.logs[room], step.m.eventCount;
            && s'.logs == s.logs && s'.server == s.server
            && PushesOnto(s, s', c)
            && Sent(s, s', c) ==
               [RoomHistory(room, RepliedCount(log, n), Stretch(log, RepliedFrom(log), RepliedTo(log, n)))]
  {
    assert LogAgrees(s.server, s.logs, room);
    TakeSends(s, step, c);
    hide Stretch, HistoryReply, RepliedFrom, RepliedTo, RepliedCount;
    ReplyOfLog(room, s.logs[room], step.m.eventCount);
  }

  /** The client's side: a history reply, then messages that leave it alone but for new lines. */
  lemma ShowsReplyThenLines(start: Replica, before: seq<Message>, reply: Message, after: seq<Message>, room: string)
    requires reply.RoomHistory? && reply.room == room && |reply.events| <= HISTORY_KEPT
    requires room in FollowAll(start, before).rooms && IsValidRoomName(room)
    requires KeepsListed(after, room) && NoHistoryOf(after, room)
    ensures Shown(FollowAll(start, before + [reply] + after).history, room) ==
            Last(reply.events + EchoesOf(after, room), HISTORY_KEPT)
  {
    var r := FollowAll(start, before);
    assert (before + [reply])[..|before|] == before;
    FollowAppend(start, before + [reply], after);
    ShowsEchoes(Follow(r, reply), after, room);
  }

  /** `s` answers the request, `s'` is any later state while the room and the connection last. */
  ghost predicate Answered(s: State, step: Step, steps: seq<Step>, c: ClientId, room: string) {
    && Asks(s, step, c, room) && 0 <= step.m.eventCount <= ROOM_HISTORY_MAX_ENTRIES
    && c in s.live && JoinedIn(s.server, c, room) && room in s.logs
    && Legal(Apply(s, step), steps)
    && Lasts(Apply(s, step), steps, c, room) && NeverAsks(Apply(s, step), steps, c, room)
  }

  lemma AnsweredSends(s: State, step: Step, steps: seq<Step>, c: ClientId, room: string)
    requires Inv(s) && Answered(s, step, steps, c, room)
    ensures var s1, log, n := Apply(s, step), s.logs[room], step.m.eventCount;
            var s' := Run(s1, steps);
            && Advances(s, s', room)
            && LeavesShown(s1, s', c, room)
            && c in s.pushed && s'.pushed[c] == s.pushed[c] +
               [RoomHistory(room, RepliedCount(log, n), Stretch(log, RepliedFrom(log), RepliedTo(log, n)))] +
               Sent(s1, s', c)
            && EchoesOf(Sent(s1, s', c), room) == Stretch(s'.logs[room], Delivered(s, room), Delivered(s', room))
  {
    var s1 := Apply(s, step);
    AsksGets(s, step, c, room);
    StepKeeps(s, step);
    JoinedHearsAll(s1, steps, c, room);
    RunLeavesShown(s1, steps, c, room);
  }

  lemma StretchOfLonger(log: seq<RoomEvent>, longer: seq<RoomEvent>, from: int, to: int)
    requires 0 <= from <= to <= |log| && log <= longer
    ensures Stretch(log, from, to) == Stretch(longer, from, to)
    ensures |Stretch(log, from, to)| == to - from
  {
    assert log[from..to] == longer[from..to];
  }

  /**
   A client that has joined a room and lists it asks for the room's history. While the room and the
   connection last and it does not ask again, it shows: the part of the log that was replied, then
   the log from the first event that was not yet distributed when it asked; of these the latest 999.
   */
  lemma ShowsAfterAsking(s: State, step: Step, steps: seq<Step>, c: ClientId, room: string, start: Replica)
    requires Inv(s) && Answered(s, step, steps, c, room) && c in s.pushed
    requires room in FollowAll(start, s.pushed[c]).rooms
    ensures var s', log := Run(Apply(s, step), steps), s.logs[room];
            && Advances(s, s', room) && c in s'.pushed
            && Shown(FollowAll(start, s'.pushed[c]).history, room) ==
               Last(Stretch(s'.logs[room], RepliedFrom(log), RepliedTo(log, step.m.eventCount)) +
                    Stretch(s'.logs[room], Delivered(s, room), Delivered(s', room)), HISTORY_KEPT)
  {
    var s1, log := Apply(s, step), s.logs[room];
    var s' := Run(s1, steps);
    var from, to := RepliedFrom(log), RepliedTo(log, step.m.eventCount);
    AnsweredSends(s, step, steps, c, room);
    AllValid(s.server.rooms, Find(s.server.rooms, room));
    StretchOfLonger(log, s'.logs[room], from, to);
    ShowsReplyThenLines(start, s.pushed[c], RoomHistory(room, RepliedCount(log, step.m.eventCount), Stretch(log, from, to)),
                        Sent(s1, s', c), room);
  }

  lemma {:induction false} OldRoomNotCreated(s: State, steps: seq<Step>, c: ClientId, room: string)
    requires Inv(s) && Legal(s, steps) && Lasts(s, steps, c, room) && TickEnd !in steps
    requires room !in s.server.created
    ensures room !in Run(s, steps).server.created
    decreases |steps|
  {
    if steps != [] {
      StepKeeps(s, steps[0]);
      StepCreatesOther(s, steps[0], room);
      OldRoomNotCreated(Apply(s, steps[0]), steps[1..], c, room);
    }
  }

  lemma StepCreatesOther(s: State, step: Step, room: string)
    requires Inv(s) && Enabled(s, step) && !step.TickEnd? && room in s.logs && room !in s.server.created
    ensures room !in Apply(s, step).server.created
  {
    LoggedIsListed(s, room);
    hide Apply, Inv, Process, Logged, Lists;
    if step.Take? {
      TakeServer(s, step);
      ProcessCreatesOther(s.server, s.phase.clients[s.phase.at], step.user, step.now, step.m, room);
    } else {
      SameServer(s, step);
    }
  }

  lemma LoggedIsListed(s: State, room: string)
    requires Inv(s) && room in s.logs
    ensures Lists(s.server.rooms, room)
  {
    assert LogAgrees(s.server, s.logs, room);
  }

  lemma ProcessCreatesOther(s: Server, c: ClientId, user: string, now: int, m: Message, room: string)
    requires Lists(s.rooms, room) && room !in s.created
    ensures room !in Process(s, c, user, now, m).0.created
  {
  }

  /**
   A tick starts at `s0`; in it, a connected client that has joined a room and was sent the room list
   asks for 100 events, no more than 100 are in the log, and then come any steps while the room and
   the connection last and it does not ask again.
   */
  ghost predicate JoinsInTick(s0: State, before: seq<Step>, step: Step, after: seq<Step>, c: ClientId, room: string) {
    && s0.phase.Idle?
    && Legal(s0, before) && TickEnd !in before && Lasts(s0, before, c, room)
    && var s := Run(s0, before);
       && Answered(s, step, after, c, room)
       && step.m.eventCount == 100 && |s.logs[room]| <= 100
       && c in s.active && c in s.pushed && HasList(s.pushed[c])
  }

  /**
   No gap on joining. At any later point the client shows the latest 999 of: every event up to its
   request, then every event since the start of that tick that was distributed.
   */
  lemma NoGapOnJoining(s0: State, before: seq<Step>, step: Step, after: seq<Step>, c: ClientId, room: string,
                       start: Replica)
    requires Reachable(s0) && JoinsInTick(s0, before, step, after, c, room)
    ensures var s := Run(s0, before);
            var s' := Run(Apply(s, step), after);
            && Advances(s, s', room) && c in s'.pushed
            && var log, p, q := s'.logs[room], |s0.logs[room]|, |s.logs[room]|;
               && p <= q <= |log| && p <= Delivered(s', room)
               && Shown(FollowAll(start, s'.pushed[c]).history, room) ==
                  Last(Stretch(log, 0, q) + Stretch(log, p, Delivered(s', room)), HISTORY_KEPT)
               && (s'.phase.Idle? ==> Delivered(s', room) == |log|)
  {
    var s := Run(s0, before);
    var s' := Run(Apply(s, step), after);
    ReachableKeeps(s0);
    RunKeeps(s0, before);
    ReachableRun(s0, before);
    DeliveredAtTickStart(s0, before, c, room);
    OldRoomNotCreated(s0, before, c, room);
    ListedUnlessNew(s, c, start, room);
    ShowsAfterAsking(s, step, after, c, room, start);
    StepKeeps(s, step);
    RunKeeps(Apply(s, step), after);
    AllDeliveredWhenIdle(s', room);
    SmallReply(s.logs[room]);
  }

  lemma SmallReply(log: seq<RoomEvent>)
    requires |log| <= 100
    ensures RepliedFrom(log) == 0 && RepliedTo(log, 100) == |log|
  {
  }

  lemma AllDeliveredWhenIdle(s: State, room: string)
    requires Inv(s) && room in s.logs
    ensures s.phase.Idle? ==> Delivered(s, room) == |s.logs[room]|
  {
    if s.phase.Idle? {
      assert EventsIn(s.server, room) == [];
    }
  }

  lemma ReachableRun(s: State, steps: seq<Step>)
    requires Reachable(s) && Legal(s, steps)
    ensures Reachable(Run(s, steps))
  {
    var rooms, first :| Legal(Started(rooms), first) && Run(Started(rooms), first) == s;
    RunAppend(Started(rooms), first, steps);
  }

  lemma {:induction false} RunAppend(s: State, first: seq<Step>, steps: seq<Step>)
    requires Legal(s, first) && Legal(Run(s, first), steps)
    ensures Legal(s, first + steps) && Run(s, first + steps) == Run(Run(s, first), steps)
    decreases |first|
  {
    if first == [] {
      assert first + steps == steps;
    } else {
      assert (first + steps)[1..] == first[1..] + steps;
      RunAppend(Apply(s, first[0]), first[1..], steps);
    }
  }
}
