/**
 If nobody acts, the system winds down: every move leaves less to do or changes nothing that matters,
 so any run of moves does only so much, and a client for which no move is left is at rest.
 */
module WindingDown {
  import opened Collections
  import opened Messages
  import opened Rooms
  import opened Worlds
  import opened Peers
  import opened Loads
  import Server = ServerSpec
  import Run = ServerRun
  import Links
  import ClientSpec
  import Delivery
  import Settling

  function PeerLoad(p: Peer, n: nat): nat {
    LinkLoad(p.link, n)
  }

  function PeersLoad(peers: map<ClientId, Peer>, clients: seq<ClientId>, n: nat): nat
    requires forall c :: c in clients ==> c in peers
  {
    if clients == [] then 0
    else PeersLoad(peers, clients[..|clients| - 1], n) + PeerLoad(peers[clients[|clients| - 1]], n)
  }

  /** `clients` lists all clients there ever were. */
  ghost predicate AllClients(w: World, clients: seq<ClientId>) {
    Distinct(clients) && forall c :: c in clients <==> c in w.peers
  }

  /** How much there is left to do. */
  ghost function Load(w: World, clients: seq<ClientId>): nat
    requires AllClients(w, clients)
  {
    ServerLoad(w.server.server, |clients|) + PeersLoad(w.peers, clients, |clients|)
  }

  lemma {:induction false} SamePeers(peers: map<ClientId, Peer>, peers': map<ClientId, Peer>, clients: seq<ClientId>, n: nat)
    requires forall c :: c in clients ==> c in peers && c in peers' && peers'[c] == peers[c]
    ensures PeersLoad(peers', clients, n) == PeersLoad(peers, clients, n)
  {
    if clients != [] {
      var earlier := clients[..|clients| - 1];
      assert clients == earlier + [clients[|clients| - 1]];
      SamePeers(peers, peers', earlier, n);
    }
  }

  /** One client's part changes. */
  lemma {:induction false} OnePeer(peers: map<ClientId, Peer>, peers': map<ClientId, Peer>, clients: seq<ClientId>, c: ClientId, n: nat)
    requires Distinct(clients) && c in clients
    requires forall d :: d in clients ==> d in peers && d in peers' && (d != c ==> peers'[d] == peers[d])
    ensures PeersLoad(peers', clients, n) == PeersLoad(peers, clients, n) - PeerLoad(peers[c], n) + PeerLoad(peers'[c], n)
  {
    var earlier, last := clients[..|clients| - 1], clients[|clients| - 1];
    assert clients == earlier + [last];
    if last == c {
      assert c !in earlier;
      SamePeers(peers, peers', earlier, n);
    } else {
      OnePeer(peers, peers', earlier, c, n);
    }
  }

  lemma ToldLoad(p: Peer, messages: seq<Message>, n: nat)
    ensures PeerLoad(Told(p, messages), n) == PeerLoad(p, n) + Sum(messages, false, n, 3)
  {
    QueuedLoad(p.link.down, messages, false, n);
  }

  lemma TakenLoad(p: Peer, n: nat)
    requires p.link.up.inbox != []
    ensures PeerLoad(Taken(p), n) == PeerLoad(p, n) - Cost(p.link.up.inbox[0], true, n)
  {
    PoppedLoad(p.link.up, true, n);
  }

  lemma Times(k: nat, most: nat)
    requires k > 0
    ensures k * most == (k - 1) * most + most
  {
  }

  /** Every client's part grows by no more than so much. */
  lemma {:induction false} EachGrows(peers: map<ClientId, Peer>, peers': map<ClientId, Peer>, clients: seq<ClientId>, n: nat, most: nat)
    requires forall c :: c in clients ==> c in peers && c in peers' && PeerLoad(peers'[c], n) <= PeerLoad(peers[c], n) + most
    ensures PeersLoad(peers', clients, n) <= PeersLoad(peers, clients, n) + |clients| * most
  {
    hide PeerLoad;
    if clients != [] {
      var earlier := clients[..|clients| - 1];
      assert clients == earlier + [clients[|clients| - 1]];
      EachGrows(peers, peers', earlier, n, most);
      Times(|clients|, most);
    }
  }

  // ---- A client's own moves ----

  /** The two messages of a request. */
  lemma RequestCost(room: string, n: nat)
    ensures Sum(ClientSpec.JoinRequest(room), true, n, 3) == 12
  {
    var request := ClientSpec.JoinRequest(room);
    assert request[1..] == [request[1]] && [request[1]][1..] == [];
    assert Sum([], true, n, 3) == 0 && Sum([request[1]], true, n, 3) == 8;
  }

  lemma HandleQueuesLittle(w: ClientSpec.Window, m: Message, n: nat)
    ensures Sum(ClientSpec.Handle(w, m).sent[|w.sent|..], true, n, 3) < Cost(m, false, n)
  {
    var sent := ClientSpec.Handle(w, m).sent;
    if sent == w.sent {
      assert sent[|w.sent|..] == [];
    } else {
      assert m.RoomList? || m.RoomCreate? || m.RoomDestroy?;
      hide ClientSpec.Handle;
      var room :| sent == w.sent + ClientSpec.JoinRequest(room);
      assert sent[|w.sent|..] == ClientSpec.JoinRequest(room);
      RequestCost(room, n);
    }
  }

  /** Handling a message leaves less to do. */
  lemma HandledLoad(p: Peer, n: nat)
    requires p.link.down.inbox != []
    ensures PeerLoad(Handled(p), n) < PeerLoad(p, n)
  {
    var m := p.link.down.inbox[0];
    PoppedLoad(p.link.down, false, n);
    HandleQueuesLittle(p.window, m, n);
    QueuedLoad(p.link.up, ClientSpec.Handle(p.window, m).sent[|p.window.sent|..], true, n);
    hide ClientSpec.Handle, PipeLoad, Sum;
  }

  /** A move that nobody and nothing outside prompts. */
  predicate IsMove(step: Step) {
    match step
    case Take(_) => true
    case Serve(s) => s.TickStart? || s.NextClient? || s.TickEnd?
    case Work(_, work) => IsLinkMove(work)
    case Handle(_) => true
    case _ => false
  }

  /** A move that does nothing: a worker's turn without messages, or the server's with nothing to tell. */
  ghost predicate Idles(w: World, step: Step)
    requires Enabled(w, step)
  {
    match step
    case Work(c, work) => c in w.peers && Worked(w.peers[c], work) == w.peers[c]
    case Serve(s) =>
      s.TickEnd? ==> w.server.server.created == [] && w.server.server.destroyed == [] && EventCount(w.server.server.rooms) == 0
    case _ => false
  }

  lemma OwnLoad(w: World, step: Step, clients: seq<ClientId>)
    requires AllClients(w, clients) && Enabled(w, step) && (step.Work? || step.Handle?) && IsMove(step)
    ensures AllClients(Apply(w, step), clients)
    ensures Load(Apply(w, step), clients) < Load(w, clients) || (Idles(w, step) && Apply(w, step) == w)
  {
    var w', c, n := Apply(w, step), step.c, |clients|;
    if step.Work? {
      MoveLoad(w.peers[c].link, step.work, n);
      if Idles(w, step) {
        assert w.peers[c := w.peers[c]] == w.peers;
      }
    } else {
      HandledLoad(w.peers[c], n);
    }
    hide LinkLoad, Handled, Links.Apply;
    OnePeer(w.peers, w'.peers, clients, c, n);
  }

  // ---- The server's moves ----

  lemma ToldNothing(p: Peer)
    ensures Told(p, []) == p
  {
    assert Links.Queued(p.link.down, []) == p.link.down;
  }

  lemma TakeSpeaks(w: World, now: int, c: ClientId)
    requires CanTake(w) && c in w.server.pushed
    ensures var s, step, c0 := w.server, NextTake(w, now), w.server.phase.clients[w.server.phase.at];
            var user := step.user;
            && step.m == w.peers[c0].link.up.inbox[0]
            && Run.Apply(s, step).server == Server.Process(s.server, c0, user, now, step.m).0
            && NewlyPushed(s, Run.Apply(s, step), c) ==
               if c == c0 then Server.Process(s.server, c0, user, now, step.m).1 else []
  {
    var step := NextTake(w, now);
    Delivery.TakeServer(w.server, step);
    Delivery.TakeSends(w.server, step, c);
    hide Server.Process, Run.Apply;
  }

  lemma TakePeers(w: World, now: int, c: ClientId)
    requires CanTake(w) && c in w.peers
    ensures var w', c0 := Apply(w, Take(now)), w.server.phase.clients[w.server.phase.at];
            && w'.server == Run.Apply(w.server, NextTake(w, now)) && w'.peers.Keys == w.peers.Keys
            && w'.peers[c] == Told(if c == c0 then Taken(w.peers[c]) else w.peers[c], NewlyPushed(w.server, w'.server, c))
  {
    hide Run.Apply, NewlyPushed, Told, Taken;
  }

  lemma KnownPushed(w: World, c: ClientId)
    requires Inv(w) && c in w.peers
    ensures c in w.server.pushed
  {
    hide Run.Reachable, ClientInv;
  }

  lemma SpeakerLoad(w: World, now: int, clients: seq<ClientId>)
    requires Inv(w) && AllClients(w, clients) && CanTake(w)
    ensures AllClients(Apply(w, Take(now)), clients)
    ensures Load(Apply(w, Take(now)), clients) < Load(w, clients)
  {
    hide Inv, PeerLoad, ServerLoad, Apply, Server.Process, Taken, Told, NewlyPushed, Run.Apply, NextTake;
    var w', c0, n := Apply(w, Take(now)), w.server.phase.clients[w.server.phase.at], |clients|;
    var m := NextTake(w, now).m;
    var user := NextTake(w, now).user;
    var told := Server.Process(w.server.server, c0, user, now, m).1;
    forall c | c in w.peers
      ensures c in w'.peers && (c != c0 ==> w'.peers[c] == w.peers[c])
    {
      KnownPushed(w, c);
      TakePeers(w, now, c);
      TakeSpeaks(w, now, c);
      ToldNothing(w.peers[c]);
    }
    KnownPushed(w, c0);
    TakePeers(w, now, c0);
    TakeSpeaks(w, now, c0);
    ProcessLoad(w.server.server, c0, user, now, m, n);
    TakenLoad(w.peers[c0], n);
    ToldLoad(Taken(w.peers[c0]), told, n);
    OnePeer(w.peers, w'.peers, clients, c0, n);
  }

  lemma ServePeers(w: World, step: Run.Step, c: ClientId)
    requires Enabled(w, Serve(step)) && c in w.peers
    ensures Run.Enabled(w.server, step)
    ensures var w' := Apply(w, Serve(step));
            && w'.server == Run.Apply(w.server, step) && w'.peers.Keys == w.peers.Keys
            && w'.peers[c] == Told(w.peers[c], NewlyPushed(w.server, w'.server, c))
  {
    hide Run.Apply, NewlyPushed, Told;
  }

  lemma ServeClients(w: World, step: Run.Step)
    requires Enabled(w, Serve(step))
    ensures Run.Enabled(w.server, step)
    ensures var w' := Apply(w, Serve(step)); w'.server == Run.Apply(w.server, step) && w'.peers.Keys == w.peers.Keys
  {
    hide Run.Apply, NewlyPushed, Told;
  }

  lemma QuietServer(s: Run.State, step: Run.Step)
    requires Run.Enabled(s, step) && (step.TickStart? || step.NextClient?)
    ensures Run.Apply(s, step).server == s.server
  {
  }

  /** Starting a tick and turning to the next client pushes nothing. */
  lemma QuietServeLoad(w: World, step: Run.Step, clients: seq<ClientId>)
    requires Inv(w) && AllClients(w, clients) && Enabled(w, Serve(step)) && (step.TickStart? || step.NextClient?)
    ensures AllClients(Apply(w, Serve(step)), clients) && Load(Apply(w, Serve(step)), clients) == Load(w, clients)
  {
    hide Inv, PeerLoad, ServerLoad, Run.Apply, Apply, Enabled, NewlyPushed, Told;
    ServeClients(w, step);
    QuietServer(w.server, step);
    var w' := Apply(w, Serve(step));
    forall c | c in w.peers
      ensures w'.peers[c] == w.peers[c]
    {
      KnownPushed(w, c);
      ServePeers(w, step, c);
      QuietPush(w.server, step, c);
      ToldNothing(w.peers[c]);
    }
    SamePeers(w.peers, w'.peers, clients, |clients|);
  }

  lemma QuietPush(s: Run.State, step: Run.Step, c: ClientId)
    requires Run.Enabled(s, step) && (step.TickStart? || step.NextClient?) && c in s.pushed
    ensures NewlyPushed(s, Run.Apply(s, step), c) == []
  {
    Delivery.SilentStepSends(s, step, c);
  }

  lemma TickEndPush(s: Run.State, c: ClientId)
    requires Run.Enabled(s, Run.TickEnd) && c in s.pushed
    ensures NewlyPushed(s, Run.Apply(s, Run.TickEnd), c) == Server.TickOutput(s.server, c, c in s.phase.clients, c in s.live)
    ensures Run.Apply(s, Run.TickEnd).server == Server.EndTick(s.server, s.live)
  {
    var output := Server.TickOutput(s.server, c, c in s.phase.clients, c in s.live);
    hide Server.TickOutput, Server.EndTick;
    assert Run.Apply(s, Run.TickEnd).pushed[c] == s.pushed[c] + output;
    assert (s.pushed[c] + output)[|s.pushed[c]|..] == output;
  }

  lemma TickEndServer(s: Run.State)
    requires Run.Enabled(s, Run.TickEnd)
    ensures Run.Apply(s, Run.TickEnd).server == Server.EndTick(s.server, s.live)
  {
    hide Server.TickOutput, Server.EndTick;
  }

  /** What a tick may tell any one client, times the clients, and what is left over. */
  lemma Shares(s: Server.Server, n: nat)
    ensures n * TickShare(s) + |s.created| + |s.destroyed| + EventCount(s.rooms) == ServerLoad(s, n)
  {
    var k, e := |s.created| + |s.destroyed|, EventCount(s.rooms);
    assert n * (16 * k + 4 * e) + k + e == (16 * n + 1) * k + (4 * n + 1) * e;
  }

  function TickShare(s: Server.Server): nat {
    16 * (|s.created| + |s.destroyed|) + 4 * EventCount(s.rooms)
  }

  lemma TickEndGrows(w: World, c: ClientId, n: nat)
    requires Inv(w) && Enabled(w, Serve(Run.TickEnd)) && c in w.peers
    ensures var w', s := Apply(w, Serve(Run.TickEnd)), w.server.server;
            && c in w'.peers
            && PeerLoad(w'.peers[c], n) <=
               PeerLoad(w.peers[c], n) + TickShare(s)
  {
    hide Inv, PeerLoad, Run.Apply, Apply, NewlyPushed, Told, Server.TickOutput, EventCount;
    KnownPushed(w, c);
    ServePeers(w, Run.TickEnd, c);
    TickEndPush(w.server, c);
    var inTick, alive := c in w.server.phase.clients, c in w.server.live;
    OutputCost(w.server.server, c, inTick, alive, n);
    ToldLoad(w.peers[c], Server.TickOutput(w.server.server, c, inTick, alive), n);
  }

  lemma TickEndPeers(w: World, clients: seq<ClientId>)
    requires Inv(w) && AllClients(w, clients) && Enabled(w, Serve(Run.TickEnd))
    ensures var w', n := Apply(w, Serve(Run.TickEnd)), |clients|;
            && AllClients(w', clients) && ServerLoad(w'.server.server, n) == 0
            && PeersLoad(w'.peers, clients, n) <= PeersLoad(w.peers, clients, n) + n * TickShare(w.server.server)
  {
    hide Inv, PeerLoad, Run.Apply, Apply, Enabled, EventCount, Server.EndTick, ServerLoad, TickShare;
    ServeClients(w, Run.TickEnd);
    var w', n, s := Apply(w, Serve(Run.TickEnd)), |clients|, w.server.server;
    forall c | c in clients
      ensures c in w'.peers && PeerLoad(w'.peers[c], n) <= PeerLoad(w.peers[c], n) + TickShare(s)
    {
      TickEndGrows(w, c, n);
    }
    TickEndServer(w.server);
    EndTickLoad(s, w.server.live, n);
    EachGrows(w.peers, w'.peers, clients, n, TickShare(s));
  }

  /** The end of a tick costs no more than what was to be told, and less if there was anything. */
  lemma TickEndLoad(w: World, clients: seq<ClientId>)
    requires Inv(w) && AllClients(w, clients) && Enabled(w, Serve(Run.TickEnd))
    ensures AllClients(Apply(w, Serve(Run.TickEnd)), clients)
    ensures Load(Apply(w, Serve(Run.TickEnd)), clients) <= Load(w, clients)
    ensures Load(Apply(w, Serve(Run.TickEnd)), clients) < Load(w, clients) || Idles(w, Serve(Run.TickEnd))
  {
    TickEndPeers(w, clients);
    Shares(w.server.server, |clients|);
    hide Inv, PeersLoad, Apply, Enabled, EventCount, ServerLoad, TickShare, AllClients;
  }

  // ---- Runs of moves ----

  /** Every move leaves less to do, or idles. */
  lemma MoveDescends(w: World, step: Step, clients: seq<ClientId>)
    requires Inv(w) && AllClients(w, clients) && Enabled(w, step) && IsMove(step)
    ensures AllClients(Apply(w, step), clients)
    ensures Load(Apply(w, step), clients) <= Load(w, clients)
    ensures Load(Apply(w, step), clients) < Load(w, clients) || Idles(w, step)
  {
    hide Inv, Load, AllClients, Apply, Idles;
    match step
    case Take(now) => SpeakerLoad(w, now, clients);
    case Serve(s) =>
      if s.TickEnd? {
        TickEndLoad(w, clients);
      } else {
        QuietServeLoad(w, s, clients);
        QuietIdles(w, s);
      }
    case _ => OwnLoad(w, step, clients);
  }

  lemma QuietIdles(w: World, step: Run.Step)
    requires Enabled(w, Serve(step)) && !step.TickEnd?
    ensures Idles(w, Serve(step))
  {
  }

  ghost predicate AllMoves(steps: seq<Step>) {
    forall i :: 0 <= i < |steps| ==> IsMove(steps[i])
  }

  /** How many moves of a run do something. */
  ghost function Done(w: World, steps: seq<Step>): nat
    requires Legal(w, steps)
    decreases |steps|
  {
    if steps == [] then 0 else (if Idles(w, steps[0]) then 0 else 1) + Done(Apply(w, steps[0]), steps[1..])
  }

  /** A run of moves does no more than there was to do. */
  lemma {:induction false} DoneIsBounded(w: World, steps: seq<Step>, clients: seq<ClientId>)
    requires Inv(w) && AllClients(w, clients) && Legal(w, steps) && AllMoves(steps)
    ensures AllClients(After(w, steps), clients)
    ensures Done(w, steps) + Load(After(w, steps), clients) <= Load(w, clients)
    decreases |steps|
  {
    hide Inv, Load, AllClients, Apply, Idles, Enabled, IsMove;
    if steps != [] {
      MoveDescends(w, steps[0], clients);
      StepKeeps(w, steps[0]);
      DoneIsBounded(Apply(w, steps[0]), steps[1..], clients);
    }
  }

  /** No move of the client's connection or window would do anything, and no message of it waits for a tick. */
  ghost predicate NothingToDo(w: World, c: ClientId) {
    && (forall step :: Enabled(w, step) && IsMove(step) && (step.Work? || step.Handle?) && step.c == c ==> Idles(w, step))
    && c in w.peers && w.peers[c].link.up.inbox == []
  }

  lemma IdleTurn(w: World, c: ClientId, work: Links.Step)
    requires NothingToDo(w, c) && IsWork(work) && IsLinkMove(work) && Links.Enabled(w.peers[c].link, work)
    ensures Links.Apply(w.peers[c].link, work) == w.peers[c].link
  {
    assert Enabled(w, Work(c, work)) && IsMove(Work(c, work));
    assert Idles(w, Work(c, work));
  }

  lemma ShorterWire(wire: seq<seq<Message>>)
    ensures wire != [] ==> wire[1..] != wire
  {
  }

  /** A turn that changes nothing had nothing to send and nothing to receive. */
  lemma TurnsWithoutChange(l: Links.Link)
    requires l.phase.Open?
    ensures Links.Apply(l, Links.ClientPump(false, false)) == l ==> l.up.out == []
    ensures Links.Apply(l, Links.ServerPump(false)) == l ==> l.down.out == []
    ensures l.down.wire != [] ==> Links.Apply(l, Links.ClientPump(true, false)) != l
    ensures l.up.wire != [] ==> Links.Apply(l, Links.ServerPump(true)) != l
  {
    ShorterWire(l.down.wire);
    ShorterWire(l.up.wire);
  }

  lemma PumpsIdle(w: World, c: ClientId)
    requires Online(w, c) && NothingToDo(w, c)
    ensures var l := w.peers[c].link; l.up.out == [] && l.down.out == [] && l.up.wire == [] && l.down.wire == []
  {
    var l := w.peers[c].link;
    hide NothingToDo, Links.Apply;
    TurnsWithoutChange(l);
    IdleTurn(w, c, Links.ClientPump(false, false));
    IdleTurn(w, c, Links.ServerPump(false));
    if l.down.wire != [] {
      IdleTurn(w, c, Links.ClientPump(true, false));
    }
    if l.up.wire != [] {
      IdleTurn(w, c, Links.ServerPump(true));
    }
  }

  /** Between ticks, a client for which there is nothing to do is at rest. */
  lemma NothingToDoIsQuiet(w: World, c: ClientId)
    requires Inv(w) && Online(w, c) && w.server.phase.Idle? && NothingToDo(w, c)
    ensures Quiet(w, c)
  {
    PumpsIdle(w, c);
    WindowIsOpen(w, c);
    var p := w.peers[c];
    assert p.link.down.inbox != [] ==> Enabled(w, Handle(c)) && !Idles(w, Handle(c));
    assert p.link.down.inbox == [];
    assert Concat<Message>([]) == [] && Application([]) == [];
  }

  lemma WindowIsOpen(w: World, c: ClientId)
    requires Inv(w) && Online(w, c)
    ensures IsOpen(w.peers[c])
  {
    KnownClient(w, c);
  }

  /**
   From any state that a run reaches, a run of moves can do no more than so much, however long it is;
   and whenever it is between ticks with nothing left to do for a connected client, the client's window
   lists the server's rooms and the server has it joined to its selected room.
   */
  lemma WindsDown(rooms: seq<string>, steps: seq<Step>, moves: seq<Step>, clients: seq<ClientId>, c: ClientId)
    requires Legal(Started(rooms), steps) && AllClients(After(Started(rooms), steps), clients)
    requires Legal(After(Started(rooms), steps), moves) && AllMoves(moves)
    ensures Done(After(Started(rooms), steps), moves) <= Load(After(Started(rooms), steps), clients)
    ensures var w := After(After(Started(rooms), steps), moves);
            Online(w, c) && w.server.phase.Idle? && NothingToDo(w, c) ==>
              var window := w.peers[c].window;
              && Elements(window.display) == Elements(Names(w.server.server.rooms))
              && (window.current != "" ==> Delivery.JoinedIn(w.server.server, c, window.current))
  {
    var w0 := After(Started(rooms), steps);
    var w := After(w0, moves);
    StartKeeps(rooms);
    RunKeeps(Started(rooms), steps);
    RunKeeps(w0, moves);
    hide Inv, Load, AllClients, Idles, IsMove, NothingToDo, Delivery.JoinedIn, Apply, Enabled;
    DoneIsBounded(w0, moves, clients);
    if Online(w, c) && w.server.phase.Idle? && NothingToDo(w, c) {
      NothingToDoIsQuiet(w, c);
      Settling.RunsJoin(Started(rooms), steps, moves);
      QuietMeansAgreed(rooms, steps + moves, c);
    }
  }
}
