/**
 Every client that has been sent the room list agrees with the server on the rooms, once it has
 handled what it was sent.
 */
module Convergence {
  import opened Collections
  import opened Messages
  import opened Rooms
  import opened RoomLists
  import opened ServerSpec
  import opened ServerRun
  import opened Replicas

  /** The rooms a client will list after handling all of `messages`. */
  function Seen(rooms: set<string>, messages: seq<Message>): set<string> {
    if messages == [] then rooms
    else RoomsAfter(Seen(rooms, messages[..|messages| - 1]), messages[|messages| - 1])
  }

  lemma {:induction false} SeenAppend(rooms: set<string>, a: seq<Message>, b: seq<Message>)
    ensures Seen(rooms, a + b) == Seen(Seen(rooms, a), b)
  {
    if b == [] {
      assert a + b == a;
    } else {
      assert (a + b)[..|a + b| - 1] == a + b[..|b| - 1];
      SeenAppend(rooms, a, b[..|b| - 1]);
    }
  }

  lemma {:induction false} SeenFollows(r: Replica, messages: seq<Message>)
    ensures FollowAll(r, messages).rooms == Seen(r.rooms, messages)
  {
    if messages != [] {
      SeenFollows(r, messages[..|messages| - 1]);
    }
  }

  /**
   What a client will list, once it is also told of the rooms created in this tick, is what the
   server lists, doomed rooms included: for one name, and for all.
   */
  ghost predicate AgreesOn(s: Server, seen: set<string>, name: string) {
    name in seen || name in s.created <==> Lists(s.rooms, name)
  }

  ghost predicate Agrees(s: Server, seen: set<string>) {
    forall name :: AgreesOn(s, seen, name)
  }

  /** Each message changes both sides alike. */
  lemma ProcessAgrees(s: Server, c: ClientId, user: string, now: int, m: Message, seen: set<string>, name: string)
    requires RoomsAgree(s) && AgreesOn(s, seen, name)
    ensures AgreesOn(Process(s, c, user, now, m).0, seen, name)
  {
    match m
    case RoomCreate(room) => FindWithLast(s.rooms, RoomState(room, false, ServerData([c], [])), name);
    case RoomJoin(room) =>
      var i := Find(s.rooms, room);
      if i < |s.rooms| {
        UpdateKeepsNames(s.rooms, i, s.rooms[i].(data := Join(s.rooms[i].data, c)), name);
      }
    case RoomDestroy(room) =>
      var i := Find(s.rooms, room);
      if i < |s.rooms| {
        UpdateKeepsNames(s.rooms, i, s.rooms[i].(doomed := true), name);
      }
    case ChatSend(room, text) => SaidAgreesOn(s, room, RoomEvent(now, user, text), seen, name);
    case _ =>
  }

  lemma SaidAgreesOn(s: Server, room: string, event: RoomEvent, seen: set<string>, name: string)
    requires RoomsAgree(s) && AgreesOn(s, seen, name)
    ensures AgreesOn(Said(s, room, event), seen, name)
  {
    var i := Find(s.rooms, room);
    if i < |s.rooms| {
      var data := s.rooms[i].data.(events := s.rooms[i].data.events + [event]);
      UpdateKeepsNames(s.rooms, i, s.rooms[i].(data := data), name);
    }
  }

  /** The room list reply brings the client level in the middle of a tick. */
  lemma ListAgrees(s: Server)
    requires RoomsAgree(s)
    ensures ValidNames(ListOf(Names(s.rooms)).names) == Elements(Names(s.rooms))
    ensures Agrees(s, Elements(Names(s.rooms)))
  {
    var names := Names(s.rooms);
    ListCarriesNames(names);
    forall name
      ensures name in names <==> Lists(s.rooms, name)
      ensures name in names ==> IsValidRoomName(name)
      ensures name in ListOf(names).names <==> name in names
    {
      NamedIs(s.rooms, name);
      if Lists(s.rooms, name) {
        AllValid(s.rooms, Find(s.rooms, name));
      }
      assert name in Elements(ListOf(names).names) <==> name in Elements(names);
    }
  }

  /** Messages that say nothing about which rooms there are. */
  ghost predicate Silent(messages: seq<Message>) {
    forall i :: 0 <= i < |messages| ==>
      !messages[i].RoomList? && !messages[i].RoomCreate? && !messages[i].RoomDestroy?
  }

  lemma {:induction false} SilentSeen(rooms: set<string>, messages: seq<Message>)
    requires Silent(messages)
    ensures Seen(rooms, messages) == rooms
  {
    if messages != [] {
      SilentSeen(rooms, messages[..|messages| - 1]);
    }
  }

  lemma {:induction false} EchoesSilent(rooms: seq<ServerRoom>, c: ClientId)
    ensures Silent(Echoes(rooms, c))
  {
    if rooms != [] {
      EchoesSilent(rooms[..|rooms| - 1], c);
    }
  }

  lemma {:induction false} CreatesSeen(rooms: set<string>, created: seq<string>)
    requires forall i :: 0 <= i < |created| ==> IsValidRoomName(created[i])
    ensures Seen(rooms, Creates(created)) == rooms + Elements(created)
  {
    if created != [] {
      var n := |created| - 1;
      CreatesSeen(rooms, created[..n]);
      assert Creates(created)[..n] == Creates(created[..n]);
      assert Elements(created) == Elements(created[..n]) + {created[n]};
    }
  }

  lemma {:induction false} DestroysSeen(rooms: set<string>, destroyed: seq<string>)
    ensures Seen(rooms, Destroys(destroyed)) == rooms - Elements(destroyed)
  {
    if destroyed != [] {
      var n := |destroyed| - 1;
      DestroysSeen(rooms, destroyed[..n]);
      assert Destroys(destroyed)[..n] == Destroys(destroyed[..n]);
      assert Elements(destroyed) == Elements(destroyed[..n]) + {destroyed[n]};
    }
  }

  lemma BroadcastsSeen(s: Server, rooms: set<string>)
    requires RoomsAgree(s)
    ensures Seen(rooms, Broadcasts(s)) == rooms + Elements(s.created) - Elements(s.destroyed)
  {
    forall i | 0 <= i < |s.created|
      ensures IsValidRoomName(s.created[i])
    {
      assert s.created[i] in s.created;
      AllValid(s.rooms, Find(s.rooms, s.created[i]));
    }
    CreatesSeen(rooms, s.created);
    DestroysSeen(rooms + Elements(s.created), s.destroyed);
    SeenAppend(rooms, Creates(s.created), Destroys(s.destroyed));
  }

  /** What the end of a tick tells a client about rooms: all creates, then all destroys. */
  lemma TickSeen(s: Server, c: ClientId, alive: bool, rooms: set<string>)
    requires RoomsAgree(s)
    ensures Seen(rooms, TickOutput(s, c, true, alive)) == rooms + Elements(s.created) - Elements(s.destroyed)
  {
    var echoes := if alive then Echoes(s.rooms, c) else [];
    BroadcastsSeen(s, rooms);
    EchoesSilent(s.rooms, c);
    SeenAppend(rooms, Broadcasts(s), echoes);
    SilentSeen(Seen(rooms, Broadcasts(s)), echoes);
  }

  /** After the sweep nothing is left to broadcast, and the client lists what the server lists. */
  lemma TickAgrees(s: Server, live: set<ClientId>, seen: set<string>)
    requires RoomsAgree(s) && Agrees(s, seen)
    ensures Agrees(EndTick(s, live), seen + Elements(s.created) - Elements(s.destroyed))
  {
    forall name
      ensures AgreesOn(EndTick(s, live), seen + Elements(s.created) - Elements(s.destroyed), name)
    {
      assert AgreesOn(s, seen, name);
      SurvivesTick(s, live, name);
    }
  }

  predicate HasList(messages: seq<Message>) {
    exists i :: 0 <= i < |messages| && messages[i].RoomList?
  }

  /** A connected client that has been sent the room list takes part in the tick and agrees. */
  ghost predicate ClientConverges(s: State, c: ClientId) {
    c in s.active && c in s.pushed && HasList(s.pushed[c]) ==>
      && (s.phase.Gathering? ==> c in s.phase.clients)
      && Agrees(s.server, Seen({}, s.pushed[c]))
  }

  lemma RepliesSilent(s: Server, c: ClientId, user: string, now: int, m: Message)
    requires !m.RoomList?
    ensures Silent(Process(s, c, user, now, m).1)
  {
  }

  lemma ListSeen(seen: set<string>, names: seq<string>)
    ensures Seen(seen, [RoomList(names)]) == ValidNames(names)
  {
    assert [RoomList(names)][..0] == [];
  }

  lemma SilentKeepsSeen(pushed: seq<Message>, replies: seq<Message>)
    requires Silent(replies)
    ensures Seen({}, pushed + replies) == Seen({}, pushed)
    ensures HasList(pushed + replies) == HasList(pushed)
  {
    SeenAppend({}, pushed, replies);
    SilentSeen(Seen({}, pushed), replies);
    ListFromBefore(pushed, replies);
  }

  /** The client whose message is processed: its reply, if any, does not upset the agreement. */
  lemma ReplyConverges(s: Server, c: ClientId, user: string, now: int, m: Message, pushed: seq<Message>)
    requires RoomsAgree(s) && (HasList(pushed) ==> Agrees(s, Seen({}, pushed)))
    ensures var (s', replies) := Process(s, c, user, now, m);
            HasList(pushed + replies) ==> Agrees(s', Seen({}, pushed + replies))
  {
    if m.RoomList? {
      var reply := ListOf(Names(s.rooms));
      SeenAppend({}, pushed, [reply]);
      ListSeen(Seen({}, pushed), reply.names);
      ListAgrees(s);
    } else {
      RepliesSilent(s, c, user, now, m);
      SilentKeepsSeen(pushed, Process(s, c, user, now, m).1);
      BystanderConverges(s, c, user, now, m, pushed);
    }
  }

  /** Any other client: what it was sent stays as good as it was. */
  lemma BystanderConverges(s: Server, c: ClientId, user: string, now: int, m: Message, pushed: seq<Message>)
    requires RoomsAgree(s) && (HasList(pushed) ==> Agrees(s, Seen({}, pushed)))
    ensures HasList(pushed) ==> Agrees(Process(s, c, user, now, m).0, Seen({}, pushed))
  {
    if HasList(pushed) {
      forall name
        ensures AgreesOn(Process(s, c, user, now, m).0, Seen({}, pushed), name)
      {
        assert AgreesOn(s, Seen({}, pushed), name);
        ProcessAgrees(s, c, user, now, m, Seen({}, pushed), name);
      }
    }
  }

  lemma TakeConverges(s: State, step: Step, c: ClientId)
    requires Inv(s) && step.Take? && Enabled(s, step) && ClientConverges(s, c)
    ensures ClientConverges(Apply(s, step), c)
  {
    var c0 := s.phase.clients[s.phase.at];
    if c in s.active {
      if c == c0 {
        ReplyConverges(s.server, c0, step.user, step.now, step.m, s.pushed[c]);
      } else {
        BystanderConverges(s.server, c0, step.user, step.now, step.m, s.pushed[c]);
      }
    }
  }

  lemma ListFromBefore(a: seq<Message>, b: seq<Message>)
    requires forall i :: 0 <= i < |b| ==> !b[i].RoomList?
    ensures HasList(a + b) == HasList(a)
  {
    if HasList(a) {
      var i :| 0 <= i < |a| && a[i].RoomList?;
      assert (a + b)[i].RoomList?;
    }
  }

  lemma TickEndConverges(s: State, c: ClientId)
    requires Inv(s) && Enabled(s, TickEnd) && ClientConverges(s, c)
    ensures ClientConverges(Apply(s, TickEnd), c)
  {
    if c in s.active && c in s.pushed {
      var output := TickOutput(s.server, c, c in s.phase.clients, c in s.live);
      EchoesSilent(s.server.rooms, c);
      ListFromBefore(s.pushed[c], output);
      if HasList(s.pushed[c]) {
        SeenAppend({}, s.pushed[c], output);
        TickSeen(s.server, c, c in s.live, Seen({}, s.pushed[c]));
        TickAgrees(s.server, s.live, Seen({}, s.pushed[c]));
      }
    }
  }

  lemma StepConverges(s: State, step: Step, c: ClientId)
    requires Inv(s) && Enabled(s, step) && ClientConverges(s, c)
    ensures ClientConverges(Apply(s, step), c)
  {
    match step
    case Take(_, _, _) => TakeConverges(s, step, c);
    case TickEnd => TickEndConverges(s, c);
    case Disconnect(d) => WithoutRemoves(s.active, d);
    case _ =>
  }

  lemma {:induction false} RunConverges(s: State, steps: seq<Step>, c: ClientId)
    requires Inv(s) && Legal(s, steps) && ClientConverges(s, c)
    ensures ClientConverges(Run(s, steps), c)
    decreases |steps|
  {
    if steps != [] {
      StepKeeps(s, steps[0]);
      StepConverges(s, steps[0], c);
      RunConverges(Apply(s, steps[0]), steps[1..], c);
    }
  }

  lemma ReachableConverges(s: State, c: ClientId)
    requires Reachable(s)
    ensures ClientConverges(s, c)
  {
    var rooms, steps :| Legal(Started(rooms), steps) && Run(Started(rooms), steps) == s;
    StartKeeps(rooms);
    RunConverges(Started(rooms), steps, c);
  }

  /** A room list makes whatever was listed before irrelevant. */
  lemma {:induction false} ListForgets(rooms1: set<string>, rooms2: set<string>, messages: seq<Message>)
    requires HasList(messages)
    ensures Seen(rooms1, messages) == Seen(rooms2, messages)
  {
    var last := messages[|messages| - 1];
    if !last.RoomList? {
      var i :| 0 <= i < |messages| && messages[i].RoomList?;
      assert messages[..|messages| - 1][i].RoomList?;
      ListForgets(rooms1, rooms2, messages[..|messages| - 1]);
    }
  }

  /**
   At every tick boundary of every run, a connected client that has been sent the room list will,
   after handling everything pushed to it, list exactly the server's rooms, whatever it listed before.
   */
  lemma RoomListsConverge(s: State, c: ClientId, before: Replica)
    requires Reachable(s) && s.phase.Idle?
    requires c in s.active && c in s.pushed && HasList(s.pushed[c])
    ensures FollowAll(before, s.pushed[c]).rooms == Elements(Names(s.server.rooms))
  {
    ReachableKeeps(s);
    ReachableConverges(s, c);
    SeenFollows(before, s.pushed[c]);
    ListForgets({}, before.rooms, s.pushed[c]);
    forall name
      ensures name in Seen({}, s.pushed[c]) <==> name in Names(s.server.rooms)
    {
      assert AgreesOn(s.server, Seen({}, s.pushed[c]), name);
      NamedIs(s.server.rooms, name);
    }
  }

  /** In the middle of a tick it will list exactly the server's rooms except, perhaps, those this tick created. */
  lemma ListedUnlessNew(s: State, c: ClientId, before: Replica, room: string)
    requires Reachable(s)
    requires c in s.active && c in s.pushed && HasList(s.pushed[c])
    requires room !in s.server.created
    ensures room in FollowAll(before, s.pushed[c]).rooms <==> Lists(s.server.rooms, room)
  {
    ReachableKeeps(s);
    ReachableConverges(s, c);
    SeenFollows(before, s.pushed[c]);
    ListForgets({}, before.rooms, s.pushed[c]);
    assert AgreesOn(s.server, Seen({}, s.pushed[c]), room);
  }
}
