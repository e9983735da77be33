/** A room that a window has joined is joined at the server too, or the join is still under way. */
module Joining {
  import opened Collections
  import opened Messages
  import opened Rooms
  import opened Replicas
  import opened Peers
  import Server = ServerSpec
  import Run = ServerRun
  import Links
  import ClientSpec
  import Selection
  import Convergence
  import Delivery

  /** Nothing here takes `room` off a client's list, or replaces the list. */
  ghost predicate Untouched(messages: seq<Message>, room: string) {
    RoomDestroy(room) !in messages && forall i :: 0 <= i < |messages| ==> !messages[i].RoomList?
  }

  /**
   While a connected client's window that was given the list has joined a room, and nothing under way
   or about to be broadcast takes the room away, the server has it joined or is about to take its join.
   */
  ghost predicate JoinInv(s: Run.State, c: ClientId, p: Peer, room: string) {
    c in s.active && p.link.phase.Open? && Convergence.HasList(p.link.down.taken)
    && ClientSpec.IsJoined(p.window, room)
    && Untouched(Links.Pending(p.link.down), room) && room !in s.server.destroyed
    ==>
      Delivery.JoinedIn(s.server, c, room) || RoomJoin(room) in Links.Pending(p.link.up)
  }

  /** A client that connected in the middle of a tick has been pushed nothing yet. */
  ghost predicate NewcomerUntold(s: Run.State, c: ClientId) {
    s.phase.Gathering? && c in s.active && c in s.pushed && c !in s.phase.clients ==> s.pushed[c] == []
  }

  lemma NewcomerStays(s: Run.State, step: Run.Step, c: ClientId)
    requires Run.Inv(s) && Run.Enabled(s, step) && NewcomerUntold(s, c)
    ensures NewcomerUntold(Run.Apply(s, step), c)
  {
    hide Server.Process, Server.EndTick, Server.TickOutput, Run.Logged;
    match step
    case Disconnect(d) => Run.WithoutRemoves(s.active, d);
    case _ =>
  }

  lemma TellKeepsPending(p: Peer, messages: seq<Message>)
    requires AllApplication(messages)
    ensures Links.Pending(Told(p, messages).link.down) == Links.Pending(p.link.down) + messages
    ensures Links.Pending(Told(p, messages).link.up) == Links.Pending(p.link.up)
  {
    Links.QueuedPending(p.link.down, messages);
    AllOfApplication(messages);
  }

  lemma UntouchedParts(a: seq<Message>, b: seq<Message>, room: string)
    ensures Untouched(a + b, room) <==> Untouched(a, room) && Untouched(b, room)
  {
    if Untouched(a + b, room) {
      assert forall i :: 0 <= i < |a| ==> a[i] == (a + b)[i];
      assert forall i :: 0 <= i < |b| ==> b[i] == (a + b)[|a| + i];
    }
  }

  // ---- The server moves ----

  lemma {:induction false} StaysInList(r: Replica, messages: seq<Message>, room: string)
    requires room in r.rooms && Untouched(messages, room)
    ensures room in FollowAll(r, messages).rooms
  {
    if messages != [] {
      var n := |messages| - 1;
      assert messages == messages[..n] + [messages[n]];
      UntouchedParts(messages[..n], [messages[n]], room);
      StaysInList(r, messages[..n], room);
      assert messages[n] in messages;
    }
  }

  /** A room that a client lists, and that nothing under way takes away, is a room of the server. */
  lemma ListedIsRoom(s: Run.State, c: ClientId, p: Peer, room: string)
    requires Run.Reachable(s) && PeerInv(s, c, p) && c in s.active && p.link.phase.Open?
    requires Convergence.HasList(s.pushed[c])
    requires ClientSpec.IsJoined(p.window, room) && Untouched(Links.Pending(p.link.down), room)
    ensures Lists(s.server.rooms, room)
  {
    NamedIs(p.window.rooms, room);
    FoldPending(s, c, p);
    StaysInList(ClientSpec.View(p.window), Links.Pending(p.link.down), room);
    Convergence.ReachableConverges(s, c);
    Convergence.SeenFollows(Start(p), s.pushed[c]);
    Convergence.ListForgets({}, Start(p).rooms, s.pushed[c]);
    assert Convergence.AgreesOn(s.server, Convergence.Seen({}, s.pushed[c]), room);
  }

  lemma DestroyedGrows(s: Server.Server, c: ClientId, user: string, now: int, m: Message)
    ensures s.destroyed <= Server.Process(s, c, user, now, m).0.destroyed
  {
  }

  /** Processing a message takes nobody out of a room. */
  lemma TakeKeepsJoined(s: Run.State, step: Run.Step, c: ClientId, room: string)
    requires Run.Inv(s) && step.Take? && Run.Enabled(s, step)
    ensures Delivery.JoinedIn(s.server, c, room) ==> Delivery.JoinedIn(Run.Apply(s, step).server, c, room)
    ensures room !in Run.Apply(s, step).server.destroyed ==> room !in s.server.destroyed
  {
    assert Run.LogAgrees(s.server, s.logs, room);
    Delivery.TakeServer(s, step);
    DestroyedGrows(s.server, s.phase.clients[s.phase.at], step.user, step.now, step.m);
    if Delivery.JoinedIn(s.server, c, room) {
      hide Server.Process, Run.Logged, Run.LogAgrees;
      Delivery.TakeUndisturbed(s, step, c, room);
    }
  }

  /** The end of a tick keeps who has joined a room, unless the room is destroyed. */
  lemma TickEndKeepsJoined(s: Run.State, c: ClientId, room: string)
    requires Run.Inv(s) && Run.Enabled(s, Run.TickEnd) && c in s.live && room !in s.server.destroyed
    ensures Delivery.JoinedIn(s.server, c, room) ==> Delivery.JoinedIn(Run.Apply(s, Run.TickEnd).server, c, room)
  {
    if Delivery.JoinedIn(s.server, c, room) {
      Run.SurvivesTick(s.server, s.live, room);
      assert Run.LogAgrees(s.server, s.logs, room);
      Delivery.EndTickDelivers(s.server, s.logs, s.live, c, room);
    }
  }

  lemma DestroyIsTold(s: Server.Server, c: ClientId, room: string)
    requires room in s.destroyed
    ensures RoomDestroy(room) in Server.TickOutput(s, c, true, true)
  {
    var i :| 0 <= i < |s.destroyed| && s.destroyed[i] == room;
    assert Server.Destroys(s.destroyed)[i] == RoomDestroy(room);
  }

  lemma NothingPushedNoList(s: Run.State, c: ClientId, p: Peer)
    requires PeerInv(s, c, p) && p.link.phase.Open? && s.pushed[c] == []
    ensures !Convergence.HasList(p.link.down.taken)
  {
    assert p.link.down.taken == [];
  }

  lemma TickEndJoin(s: Run.State, c: ClientId, p: Peer, room: string)
    requires Run.Inv(s) && Run.Enabled(s, Run.TickEnd) && PeerInv(s, c, p) && NewcomerUntold(s, c)
    requires JoinInv(s, c, p, room) && c in s.active
    requires Delivery.PushesOnto(s, Run.Apply(s, Run.TickEnd), c)
    requires AllApplication(Delivery.Sent(s, Run.Apply(s, Run.TickEnd), c))
    ensures JoinInv(Run.Apply(s, Run.TickEnd), c, Told(p, Delivery.Sent(s, Run.Apply(s, Run.TickEnd), c)), room)
  {
    var told := Delivery.Sent(s, Run.Apply(s, Run.TickEnd), c);
    Delivery.TickEndSends(s, c);
    TellKeepsPending(p, told);
    UntouchedParts(Links.Pending(p.link.down), told, room);
    hide Server.TickOutput, Server.EndTick, Links.Pending, Delivery.JoinedIn, AllApplication, ClientSpec.IsJoined;
    if room !in s.server.destroyed {
      TickEndKeepsJoined(s, c, room);
    } else if c in s.phase.clients {
      DestroyIsTold(s.server, c, room);
    } else if p.link.phase.Open? {
      NothingPushedNoList(s, c, p);
    }
  }

  /** Any other step of the server but taking a message of this client. */
  lemma ServerJoin(s: Run.State, step: Run.Step, c: ClientId, p: Peer, room: string)
    requires Run.Inv(s) && Run.Enabled(s, step) && PeerInv(s, c, p) && NewcomerUntold(s, c)
    requires step.Take? ==> c != s.phase.clients[s.phase.at]
    requires JoinInv(s, c, p, room)
    requires Delivery.PushesOnto(s, Run.Apply(s, step), c)
    requires AllApplication(Delivery.Sent(s, Run.Apply(s, step), c))
    ensures JoinInv(Run.Apply(s, step), c, Told(p, Delivery.Sent(s, Run.Apply(s, step), c)), room)
  {
    var told := Delivery.Sent(s, Run.Apply(s, step), c);
    TellKeepsPending(p, told);
    UntouchedParts(Links.Pending(p.link.down), told, room);
    hide Links.Pending, Delivery.JoinedIn, AllApplication, ClientSpec.IsJoined, Server.EndTick, Server.Process, Untouched;
    match step
    case Take(_, _, _) => TakeKeepsJoined(s, step, c, room);
    case TickEnd =>
      if c in s.active {
        TickEndJoin(s, c, p, room);
      }
    case Disconnect(d) => Run.WithoutRemoves(s.active, d);
    case _ =>
  }

  /** The server takes this client's next message. */
  lemma TakenJoin(s: Run.State, step: Run.Step, c: ClientId, p: Peer, room: string)
    requires Run.Reachable(s) && Run.Enabled(s, step) && PeerInv(s, c, p) && JoinInv(s, c, p, room)
    requires step.Take? && c == s.phase.clients[s.phase.at]
    requires p.link.up.inbox != [] && p.link.up.inbox[0] == step.m
    requires Delivery.PushesOnto(s, Run.Apply(s, step), c)
    requires AllApplication(Delivery.Sent(s, Run.Apply(s, step), c))
    ensures JoinInv(Run.Apply(s, step), c, Told(Taken(p), Delivery.Sent(s, Run.Apply(s, step), c)), room)
  {
    var s' := Run.Apply(s, step);
    var told := Delivery.Sent(s, s', c);
    Run.ReachableKeeps(s);
    TellKeepsPending(Taken(p), told);
    UntouchedParts(Links.Pending(p.link.down), told, room);
    TakeKeepsJoined(s, step, c, room);
    Links.PoppedPending(p.link.up);
    FirstTaken(p);
    hide Links.Pending, AllApplication, ClientSpec.IsJoined, Server.EndTick, Untouched, Run.Reachable, Run.Inv, PeerInv, Server.Process;
    if c in s.active && p.link.phase.Open? && ClientSpec.IsJoined(p.window, room) && step.m == RoomJoin(room)
       && Untouched(Links.Pending(p.link.down), room) && room !in s.server.destroyed {
      ListedIsRoom(s, c, p, room);
      JoinJoins(s, step, c, room);
    }
  }

  lemma JoinJoins(s: Run.State, step: Run.Step, c: ClientId, room: string)
    requires Run.Inv(s) && step.Take? && Run.Enabled(s, step) && c == s.phase.clients[s.phase.at]
    requires step.m == RoomJoin(room) && Lists(s.server.rooms, room)
    ensures Delivery.JoinedIn(Run.Apply(s, step).server, c, room)
  {
    var i := Find(s.server.rooms, room);
    UpdateKeepsNames(s.server.rooms, i, s.server.rooms[i].(data := Server.Join(s.server.rooms[i].data, c)), room);
  }

  // ---- The connection and the window move ----

  lemma WorkedJoin(s: Run.State, c: ClientId, p: Peer, step: Links.Step, room: string)
    requires PeerInv(s, c, p) && IsWork(step) && Links.Enabled(p.link, step) && JoinInv(s, c, p, room)
    ensures JoinInv(s, c, Worked(p, step), room)
  {
    match step
    case HelloArrives => Links.HelloKeeps(p.link);
    case AckArrives => Links.AckKeeps(p.link);
    case ClientPump(receive, heartbeat) => Links.ClientPumpKeeps(p.link, receive, heartbeat);
    case ServerPump(receive) => PumpKeepsTraffic(p.link, receive);
    case Break =>
  }

  lemma {:induction false} StaysApplication(messages: seq<Message>, m: Message)
    requires m in messages && IsApplication(m)
    ensures m in Application(messages)
  {
    if messages[0] != m {
      assert messages == [messages[0]] + messages[1..];
      StaysApplication(messages[1..], m);
    }
  }

  /** A window that has joined a room just now has queued the join. */
  lemma WindowJoin(s: Run.State, c: ClientId, p: Peer, w: ClientSpec.Window, before: bool, room: string)
    requires Selection.AsksRightly(p.window.sent, before, w, room)
    requires before && c in s.active && p.link.phase.Open? && Convergence.HasList(p.link.down.taken)
             && Untouched(Links.Pending(p.link.down), room) && room !in s.server.destroyed ==>
               || Delivery.JoinedIn(s.server, c, room)
               || RoomJoin(room) in Links.Pending(p.link.up)
               || !ClientSpec.IsJoined(w, room)
    ensures JoinInv(s, c, WithWindow(p, w), room)
  {
    var queued := w.sent[|p.window.sent|..];
    Links.QueuedPending(p.link.up, queued);
    hide Links.Pending, Delivery.JoinedIn, Untouched, ClientSpec.IsJoined, Convergence.HasList;
    if RoomJoin(room) in queued {
      StaysApplication(queued, RoomJoin(room));
    }
  }

  lemma ActedJoin(s: Run.State, c: ClientId, p: Peer, action: ClientSpec.Action, room: string)
    requires PeerInv(s, c, p) && !action.Receive? && ClientSpec.Possible(p.window, action) && JoinInv(s, c, p, room)
    ensures JoinInv(s, c, WithWindow(p, ClientSpec.Act(p.window, action)), room)
  {
    var w := ClientSpec.Act(p.window, action);
    Selection.ActAsks(p.window, action, room);
    hide ClientSpec.Act, Links.Pending, Delivery.JoinedIn, Untouched, ClientSpec.IsJoined, Convergence.HasList;
    WindowJoin(s, c, p, w, ClientSpec.IsJoined(p.window, room), room);
  }

  lemma DestroyUnjoins(w: ClientSpec.Window, room: string)
    requires ClientSpec.Clean(w.rooms)
    ensures !ClientSpec.IsJoined(ClientSpec.Handle(w, RoomDestroy(room)), room)
  {
    var w' := ClientSpec.Handle(w, RoomDestroy(room));
    ClientSpec.HandleFollows(w, RoomDestroy(room));
    NamedIs(w'.rooms, room);
    assert room in ClientSpec.View(w').rooms <==> room in Names(w'.rooms);
  }

  lemma HandledJoin(s: Run.State, c: ClientId, p: Peer, room: string)
    requires PeerInv(s, c, p) && p.link.down.inbox != [] && JoinInv(s, c, p, room)
    ensures JoinInv(s, c, Handled(p), room)
  {
    hide ClientSpec.Handle, Links.Pending, Delivery.JoinedIn, Untouched, ClientSpec.IsJoined, Convergence.HasList, Links.Inv;
    var m := p.link.down.inbox[0];
    Selection.HandleAsks(p.window, m, room);
    Links.PoppedPending(p.link.down);
    UntouchedParts([m], Links.Pending(PoppedDown(p).link.down), room);
    UntouchedOne(m, room);
    if m == RoomDestroy(room) {
      DestroyUnjoins(p.window, room);
    }
    if !m.RoomList? {
      Convergence.ListFromBefore(p.link.down.taken, [m]);
    }
    var before := Selection.WasJoined(p.window, ClientSpec.Receive(m), room);
    WindowJoin(s, c, PoppedDown(p), ClientSpec.Handle(p.window, m), before, room);
  }

  lemma UntouchedOne(m: Message, room: string)
    ensures m != RoomDestroy(room) && !m.RoomList? ==> Untouched([m], room)
    ensures Untouched([m], room) ==> m != RoomDestroy(room) && !m.RoomList?
  {
    assert [m][0] == m;
  }
}
