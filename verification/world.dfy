/**
 The whole system: the server, and for each client its connection and its window. Clients arrive at
 any time, connections break at any time, users do anything, and everyone moves in any order.
 */
module Worlds {
  import opened Collections
  import opened Messages
  import opened Rooms
  import opened Replicas
  import opened Peers
  import Server = ServerSpec
  import Run = ServerRun
  import Links
  import ClientSpec
  import Selection
  import Convergence
  import Delivery
  import Joining

  datatype World = World(server: Run.State, peers: map<ClientId, Peer>)

  datatype Step =
    | Arrive(c: ClientId, user: string, leftover: seq<ClientSpec.ClientRoom>)
    | Take(now: int)
    | Serve(step: Run.Step)
    | Work(c: ClientId, work: Links.Step)
    | Act(c: ClientId, action: ClientSpec.Action)
    | Handle(c: ClientId)

  function Started(rooms: seq<string>): World {
    World(Run.Started(rooms), map[])
  }

  /** The server takes the next message that has come in from the client whose turn it is, as a message of its user. */
  predicate CanTake(w: World) {
    && w.server.phase.Gathering? && w.server.phase.at < |w.server.phase.clients|
    && var c := w.server.phase.clients[w.server.phase.at];
       c in w.server.pushed && c in w.peers && w.peers[c].link.up.inbox != []
  }

  function NextTake(w: World, now: int): (step: Run.Step)
    requires CanTake(w)
    ensures step.Take? && Run.Enabled(w.server, step)
  {
    var link := w.peers[w.server.phase.clients[w.server.phase.at]].link;
    Run.Take(link.user, now, link.up.inbox[0])
  }

  ghost predicate Enabled(w: World, step: Step) {
    match step
    case Arrive(c, user, leftover) => Run.Enabled(w.server, Run.Connect(c)) && ClientSpec.Clean(leftover)
    case Take(_) => CanTake(w)
    case Serve(s) => Run.Enabled(w.server, s) && !s.Connect? && !s.Take? && (s.NextClient? ==> !CanTake(w))
    case Work(c, work) => c in w.peers && IsWork(work) && Links.Enabled(w.peers[c].link, work)
    case Act(c, action) =>
      c in w.peers && IsOpen(w.peers[c]) && !action.Receive? && ClientSpec.Possible(w.peers[c].window, action)
    case Handle(c) => c in w.peers && IsOpen(w.peers[c]) && w.peers[c].link.down.inbox != []
  }

  /** What a step of the server pushed for a client. */
  function NewlyPushed(s: Run.State, s': Run.State, c: ClientId): seq<Message> {
    if Delivery.PushesOnto(s, s', c) then Delivery.Sent(s, s', c) else []
  }

  function AllTold(peers: map<ClientId, Peer>, s: Run.State, s': Run.State): map<ClientId, Peer> {
    map c | c in peers :: Told(peers[c], NewlyPushed(s, s', c))
  }

  ghost function Apply(w: World, step: Step): World
    requires Enabled(w, step)
  {
    match step
    case Arrive(c, user, leftover) => World(Run.Apply(w.server, Run.Connect(c)), w.peers[c := Arriving(user, leftover)])
    case Take(now) =>
      var c := w.server.phase.clients[w.server.phase.at];
      var server := Run.Apply(w.server, NextTake(w, now));
      World(server, AllTold(w.peers[c := Taken(w.peers[c])], w.server, server))
    case Serve(s) =>
      var server := Run.Apply(w.server, s);
      World(server, AllTold(w.peers, w.server, server))
    case Work(c, work) => w.(peers := w.peers[c := Worked(w.peers[c], work)])
    case Act(c, action) =>
      w.(peers := w.peers[c := WithWindow(w.peers[c], ClientSpec.Act(w.peers[c].window, action))])
    case Handle(c) => w.(peers := w.peers[c := Handled(w.peers[c])])
  }

  // ---- What every step keeps ----

  ghost predicate ClientInv(s: Run.State, c: ClientId, p: Peer) {
    && PeerInv(s, c, p)
    && Joining.NewcomerUntold(s, c)
    && forall room :: Joining.JoinInv(s, c, p, room)
  }

  ghost predicate Inv(w: World) {
    && Run.Reachable(w.server)
    && w.peers.Keys == w.server.pushed.Keys
    && forall c :: c in w.peers ==> ClientInv(w.server, c, w.peers[c])
  }

  lemma StartKeeps(rooms: seq<string>)
    ensures Inv(Started(rooms))
  {
    var s := Run.Started(rooms);
    assert Run.Legal(s, []) && Run.Run(s, []) == s;
  }

  lemma ReplyIsApplication(s: Server.Server, c: ClientId, user: string, now: int, m: Message)
    ensures AllApplication(Server.Process(s, c, user, now, m).1)
  {
  }

  lemma OutputIsApplication(s: Server.Server, c: ClientId, inTick: bool, alive: bool)
    ensures AllApplication(Server.TickOutput(s, c, inTick, alive))
  {
    Delivery.OnlyEchoes(s.rooms, c);
  }

  /** The server pushes only onto the ends of the queues, and nothing the workers would absorb. */
  lemma ServerPushes(s: Run.State, step: Run.Step, c: ClientId)
    requires Run.Enabled(s, step) && c in s.pushed
    ensures Delivery.PushesOnto(s, Run.Apply(s, step), c)
    ensures AllApplication(Delivery.Sent(s, Run.Apply(s, step), c))
  {
    hide Server.Process, Server.TickOutput, Server.EndTick, AllApplication, Run.Logged;
    match step
    case Take(user, now, m) =>
      Delivery.TakeSends(s, step, c);
      ReplyIsApplication(s.server, s.phase.clients[s.phase.at], user, now, m);
      NothingIsApplication();
    case TickEnd =>
      var output := Server.TickOutput(s.server, c, c in s.phase.clients, c in s.live);
      assert Run.Apply(s, step).pushed[c] == s.pushed[c] + output;
      assert (s.pushed[c] + output)[|s.pushed[c]|..] == output;
      OutputIsApplication(s.server, c, c in s.phase.clients, c in s.live);
    case _ =>
      Delivery.SilentStepSends(s, step, c);
      NothingIsApplication();
  }

  lemma NothingIsApplication()
    ensures AllApplication([])
  {
  }

  lemma StillReachable(s: Run.State, step: Run.Step)
    requires Run.Reachable(s) && Run.Enabled(s, step)
    ensures Run.Reachable(Run.Apply(s, step))
  {
    var s' := Run.Apply(s, step);
    assert [step][1..] == [];
    assert Run.Legal(s', []) && Run.Run(s', []) == s';
    assert Run.Legal(s, [step]) && Run.Run(s, [step]) == s';
    Delivery.ReachableRun(s, [step]);
  }

  lemma SentIsSplit(s: Run.State, s': Run.State, c: ClientId)
    requires Delivery.PushesOnto(s, s', c)
    ensures s'.pushed[c] == s.pushed[c] + NewlyPushed(s, s', c)
  {
  }

  /** A client that the server's step does not concern but for what it is told. */
  lemma BystanderKeeps(s: Run.State, step: Run.Step, c: ClientId, p: Peer)
    requires Run.Reachable(s) && Run.Enabled(s, step) && ClientInv(s, c, p)
    requires step.Take? ==> c != s.phase.clients[s.phase.at]
    ensures ClientInv(Run.Apply(s, step), c, Told(p, NewlyPushed(s, Run.Apply(s, step), c)))
  {
    hide Run.Inv, PeerInv, Joining.JoinInv, Joining.NewcomerUntold, Run.Enabled, Run.Apply;
    var s' := Run.Apply(s, step);
    Run.ReachableKeeps(s);
    PeerKnown(s, c, p);
    ServerPushes(s, step, c);
    SentIsSplit(s, s', c);
    ToldKeeps(s, s', c, p, NewlyPushed(s, s', c));
    Joining.NewcomerStays(s, step, c);
    forall room
      ensures Joining.JoinInv(s', c, Told(p, NewlyPushed(s, s', c)), room)
    {
      Joining.ServerJoin(s, step, c, p, room);
    }
  }

  lemma PeerKnown(s: Run.State, c: ClientId, p: Peer)
    requires PeerInv(s, c, p)
    ensures c in s.pushed
  {
  }

  /** The client whose message the server takes. */
  lemma SpeakerKeeps(s: Run.State, step: Run.Step, c: ClientId, p: Peer)
    requires Run.Reachable(s) && Run.Enabled(s, step) && ClientInv(s, c, p)
    requires step.Take? && c == s.phase.clients[s.phase.at]
    requires p.link.up.inbox != [] && p.link.up.inbox[0] == step.m
    ensures ClientInv(Run.Apply(s, step), c, Told(Taken(p), NewlyPushed(s, Run.Apply(s, step), c)))
  {
    var s' := Run.Apply(s, step);
    Delivery.TakeSends(s, step, c);
    ListIsAnswered(s.server, c, step.user, step.now, step.m);
    hide Run.Inv, PeerInv, Joining.JoinInv, Joining.NewcomerUntold, Run.Apply, Server.Process, Convergence.HasList, AllApplication;
    Run.ReachableKeeps(s);
    PeerKnown(s, c, p);
    ServerPushes(s, step, c);
    SentIsSplit(s, s', c);
    TakenKeeps(s, s', c, p, NewlyPushed(s, s', c));
    Joining.NewcomerStays(s, step, c);
    forall room
      ensures Joining.JoinInv(s', c, Told(Taken(p), NewlyPushed(s, s', c)), room)
    {
      Joining.TakenJoin(s, step, c, p, room);
    }
  }

  lemma ListIsAnswered(s: Server.Server, c: ClientId, user: string, now: int, m: Message)
    ensures m.RoomList? ==> Convergence.HasList(Server.Process(s, c, user, now, m).1)
  {
    if m.RoomList? {
      assert Server.Process(s, c, user, now, m).1[0].RoomList?;
    }
  }

  lemma ArriveKeeps(w: World, c: ClientId, user: string, leftover: seq<ClientSpec.ClientRoom>)
    requires Inv(w) && Enabled(w, Arrive(c, user, leftover))
    ensures Inv(Apply(w, Arrive(c, user, leftover)))
  {
    var w' := Apply(w, Arrive(c, user, leftover));
    hide ClientSpec.Clean;
    var step := Run.Connect(c);
    StillReachable(w.server, step);
    forall d | d in w'.peers
      ensures ClientInv(w'.server, d, w'.peers[d])
    {
      if d == c {
        ArrivingKeeps(w'.server, c, user, leftover);
      } else {
        BystanderKeeps(w.server, step, d, w.peers[d]);
        ConnectTellsNobody(w.server, c, d, w.peers[d]);
      }
    }
  }

  lemma ConnectTellsNobody(s: Run.State, c: ClientId, d: ClientId, p: Peer)
    requires Run.Enabled(s, Run.Connect(c)) && d != c && d in s.pushed
    ensures Told(p, NewlyPushed(s, Run.Apply(s, Run.Connect(c)), d)) == p
  {
    assert NewlyPushed(s, Run.Apply(s, Run.Connect(c)), d) == [];
    assert Told(p, []) == p;
  }

  lemma SamePushed(s: Run.State, step: Run.Step)
    requires Run.Enabled(s, step) && !step.Connect?
    ensures Run.Apply(s, step).pushed.Keys == s.pushed.Keys
  {
    hide Server.Process, Server.TickOutput, Server.EndTick, Run.Logged;
  }

  lemma AllToldKeep(s: Run.State, step: Run.Step, peers: map<ClientId, Peer>)
    requires Run.Reachable(s) && Run.Enabled(s, step) && !step.Connect? && peers.Keys == s.pushed.Keys
    requires var s' := Run.Apply(s, step);
             forall c :: c in peers ==> ClientInv(s', c, Told(peers[c], NewlyPushed(s, s', c)))
    ensures var s' := Run.Apply(s, step);
            Inv(World(s', AllTold(peers, s, s')))
  {
    hide ClientInv, Run.Apply, Run.Enabled, Run.Reachable, NewlyPushed, Told;
    StillReachable(s, step);
    SamePushed(s, step);
  }

  lemma ServeKeeps(w: World, step: Run.Step)
    requires Inv(w) && Enabled(w, Serve(step))
    ensures Inv(Apply(w, Serve(step)))
  {
    hide ClientInv, Run.Apply, Run.Enabled, CanTake, Run.Reachable, NewlyPushed, Told, AllTold;
    forall c | c in w.peers
      ensures ClientInv(Run.Apply(w.server, step), c,
                        Told(w.peers[c], NewlyPushed(w.server, Run.Apply(w.server, step), c)))
    {
      BystanderKeeps(w.server, step, c, w.peers[c]);
    }
    AllToldKeep(w.server, step, w.peers);
  }

  lemma TakeKeeps(w: World, now: int)
    requires Inv(w) && CanTake(w)
    ensures Inv(Apply(w, Take(now)))
  {
    var step, c0 := NextTake(w, now), w.server.phase.clients[w.server.phase.at];
    var peers := w.peers[c0 := Taken(w.peers[c0])];
    assert step.Take? && step.m == w.peers[c0].link.up.inbox[0];
    assert Apply(w, Take(now)) ==
           World(Run.Apply(w.server, step), AllTold(peers, w.server, Run.Apply(w.server, step))) by {
      hide Run.Apply, AllTold;
    }
    hide Apply, ClientInv, Run.Apply, Run.Enabled, Run.Reachable, NewlyPushed, Told, AllTold, Taken, NextTake;
    forall c | c in peers
      ensures ClientInv(Run.Apply(w.server, step), c,
                        Told(peers[c], NewlyPushed(w.server, Run.Apply(w.server, step), c)))
    {
      if c == c0 {
        SpeakerKeeps(w.server, step, c, w.peers[c]);
      } else {
        BystanderKeeps(w.server, step, c, w.peers[c]);
      }
    }
    AllToldKeep(w.server, step, peers);
  }

  lemma OneClientKeeps(w: World, c: ClientId, p: Peer)
    requires Inv(w) && c in w.peers && ClientInv(w.server, c, p)
    ensures Inv(w.(peers := w.peers[c := p]))
  {
    hide ClientInv, Run.Reachable;
  }

  lemma WorkedClient(s: Run.State, c: ClientId, p: Peer, work: Links.Step)
    requires ClientInv(s, c, p) && IsWork(work) && Links.Enabled(p.link, work)
    ensures ClientInv(s, c, Worked(p, work))
  {
    hide PeerInv, Joining.JoinInv, Joining.NewcomerUntold;
    WorkedKeeps(s, c, p, work);
    forall room
      ensures Joining.JoinInv(s, c, Worked(p, work), room)
    {
      Joining.WorkedJoin(s, c, p, work, room);
    }
  }

  lemma ActedClient(s: Run.State, c: ClientId, p: Peer, action: ClientSpec.Action)
    requires ClientInv(s, c, p) && IsOpen(p) && !action.Receive? && ClientSpec.Possible(p.window, action)
    ensures ClientInv(s, c, WithWindow(p, ClientSpec.Act(p.window, action)))
  {
    hide PeerInv, Joining.JoinInv, Joining.NewcomerUntold;
    ActedKeeps(s, c, p, action);
    forall room
      ensures Joining.JoinInv(s, c, WithWindow(p, ClientSpec.Act(p.window, action)), room)
    {
      Joining.ActedJoin(s, c, p, action, room);
    }
  }

  lemma HandledClient(s: Run.State, c: ClientId, p: Peer)
    requires ClientInv(s, c, p) && IsOpen(p) && p.link.down.inbox != []
    ensures ClientInv(s, c, Handled(p))
  {
    hide PeerInv, Joining.JoinInv, Joining.NewcomerUntold;
    HandledKeeps(s, c, p);
    forall room
      ensures Joining.JoinInv(s, c, Handled(p), room)
    {
      Joining.HandledJoin(s, c, p, room);
    }
  }

  lemma StepKeeps(w: World, step: Step)
    requires Inv(w) && Enabled(w, step)
    ensures Inv(Apply(w, step))
  {
    match step
    case Arrive(c, user, leftover) => ArriveKeeps(w, c, user, leftover);
    case Take(now) => TakeKeeps(w, now);
    case Serve(s) => ServeKeeps(w, s);
    case _ => ClientStepKeeps(w, step);
  }

  lemma ClientStepKeeps(w: World, step: Step)
    requires Inv(w) && Enabled(w, step) && (step.Work? || step.Act? || step.Handle?)
    ensures Inv(Apply(w, step))
  {
    hide ClientInv, Inv, Worked, WithWindow, Handled;
    KnownClient(w, step.c);
    match step
    case Work(c, work) =>
      WorkedClient(w.server, c, w.peers[c], work);
      OneClientKeeps(w, c, Worked(w.peers[c], work));
    case Act(c, action) =>
      ActedClient(w.server, c, w.peers[c], action);
      OneClientKeeps(w, c, WithWindow(w.peers[c], ClientSpec.Act(w.peers[c].window, action)));
    case Handle(c) =>
      HandledClient(w.server, c, w.peers[c]);
      OneClientKeeps(w, c, Handled(w.peers[c]));
  }

  lemma KnownClient(w: World, c: ClientId)
    requires Inv(w) && c in w.peers
    ensures ClientInv(w.server, c, w.peers[c])
  {
    hide ClientInv;
  }

  // ---- Runs ----

  ghost predicate Legal(w: World, steps: seq<Step>)
    decreases |steps|
  {
    steps == [] || (Enabled(w, steps[0]) && Legal(Apply(w, steps[0]), steps[1..]))
  }

  ghost function After(w: World, steps: seq<Step>): World
    requires Legal(w, steps)
    decreases |steps|
  {
    if steps == [] then w else After(Apply(w, steps[0]), steps[1..])
  }

  lemma {:induction false} RunKeeps(w: World, steps: seq<Step>)
    requires Inv(w) && Legal(w, steps)
    ensures Inv(After(w, steps))
    decreases |steps|
  {
    if steps != [] {
      StepKeeps(w, steps[0]);
      RunKeeps(Apply(w, steps[0]), steps[1..]);
    }
  }

  /** A connected client whose connection works. */
  predicate Online(w: World, c: ClientId) {
    c in w.server.active && c in w.peers && w.peers[c].link.phase.Open? && c in w.server.pushed
  }

  /**
   At every tick boundary, folding everything that is under way to a client into the rooms its
   window lists gives exactly the server's rooms, once the list was pushed.
   */
  lemma PendingFoldsToRooms(rooms: seq<string>, steps: seq<Step>, c: ClientId)
    requires Legal(Started(rooms), steps)
    requires var w := After(Started(rooms), steps);
             Online(w, c) && w.server.phase.Idle? && Convergence.HasList(w.server.pushed[c])
    ensures var w := After(Started(rooms), steps);
            var p := w.peers[c];
            FollowAll(ClientSpec.View(p.window), Links.Pending(p.link.down)).rooms ==
            Elements(Names(w.server.server.rooms))
  {
    var w := After(Started(rooms), steps);
    StartKeeps(rooms);
    RunKeeps(Started(rooms), steps);
    assert ClientInv(w.server, c, w.peers[c]);
    FoldPending(w.server, c, w.peers[c]);
    Convergence.RoomListsConverge(w.server, c, Start(w.peers[c]));
  }

  /** Nothing is under way to or from the client, and the server is between ticks. */
  predicate Quiet(w: World, c: ClientId) {
    && Online(w, c) && w.server.phase.Idle?
    && Links.Pending(w.peers[c].link.up) == [] && Links.Pending(w.peers[c].link.down) == []
  }

  /** A client that sent something and has nothing under way was sent the room list. */
  lemma QuietHasList(s: Run.State, c: ClientId, p: Peer)
    requires PeerInv(s, c, p) && p.link.phase.Open? && Links.Pending(p.link.up) == []
    ensures Convergence.HasList(s.pushed[c])
    ensures Links.Pending(p.link.down) == [] ==>
              Convergence.HasList(p.link.down.taken) && Selection.Settled(p.window)
  {
    AllOfApplication(s.pushed[c]);
    assert p.link.down.taken + [] == p.link.down.taken;
    Links.SinglesApplication();
    ApplicationAppend([RoomList([])], p.window.sent);
    assert p.link.up.taken != [];
  }

  /**
   Whatever happened before: once everything under way has arrived, the window lists exactly the
   server's rooms, and the room it has selected is joined at the server; there is none only if the
   server has no rooms.
   */
  lemma QuietMeansAgreed(rooms: seq<string>, steps: seq<Step>, c: ClientId)
    requires Legal(Started(rooms), steps) && Quiet(After(Started(rooms), steps), c)
    ensures var w := After(Started(rooms), steps);
            var window := w.peers[c].window;
            && Elements(window.display) == Elements(Names(w.server.server.rooms))
            && (window.current == "" <==> w.server.server.rooms == [])
            && (window.current != "" ==> Delivery.JoinedIn(w.server.server, c, window.current))
  {
    var w := After(Started(rooms), steps);
    StartKeeps(rooms);
    RunKeeps(Started(rooms), steps);
    KnownClient(w, c);
    hide Links.Pending, Run.Reachable, Joining.JoinInv, Legal, After;
    QuietHasList(w.server, c, w.peers[c]);
    PendingFoldsToRooms(rooms, steps, c);
    ShownIsView(w.peers[c].window);
    SelectedIsNamed(w.peers[c].window, w.server.server.rooms);
    if w.peers[c].window.current != "" {
      SelectedIsJoined(w.server, c, w.peers[c]);
    }
  }

  lemma ShownIsView(window: ClientSpec.Window)
    requires Selection.Settled(window)
    ensures Elements(window.display) == FollowAll(ClientSpec.View(window), []).rooms
  {
  }

  lemma SelectedIsNamed(window: ClientSpec.Window, rooms: seq<Server.ServerRoom>)
    requires Selection.Settled(window) && Elements(window.display) == Elements(Names(rooms))
    ensures window.current == "" <==> rooms == []
    ensures window.current == "" || ClientSpec.IsJoined(window, window.current)
  {
    if rooms != [] {
      assert Names(rooms)[0] in Elements(window.display);
    }
    if window.display != [] {
      assert window.display[0] in Elements(Names(rooms));
      AllValid(window.rooms, Find(window.rooms, window.current));
    }
  }

  lemma SelectedIsJoined(s: Run.State, c: ClientId, p: Peer)
    requires Run.Reachable(s) && s.phase.Idle? && ClientInv(s, c, p) && c in s.active && p.link.phase.Open?
    requires Links.Pending(p.link.up) == [] && Links.Pending(p.link.down) == []
    requires Convergence.HasList(p.link.down.taken) && ClientSpec.IsJoined(p.window, p.window.current)
    ensures Delivery.JoinedIn(s.server, c, p.window.current)
  {
    Run.ReachableKeeps(s);
    assert Joining.JoinInv(s, c, p, p.window.current);
  }

  /** A window that has handled everything under way shows what all that was pushed makes. */
  lemma CaughtUp(rooms: seq<string>, steps: seq<Step>, c: ClientId)
    requires Legal(Started(rooms), steps)
    requires var w := After(Started(rooms), steps);
             c in w.peers && w.peers[c].link.phase.Open? && Links.Pending(w.peers[c].link.down) == []
    ensures var w := After(Started(rooms), steps);
            c in w.server.pushed && ClientSpec.View(w.peers[c].window) == FollowAll(Start(w.peers[c]), w.server.pushed[c])
  {
    var w := After(Started(rooms), steps);
    StartKeeps(rooms);
    RunKeeps(Started(rooms), steps);
    assert ClientInv(w.server, c, w.peers[c]);
    FoldPending(w.server, c, w.peers[c]);
  }
}
