/**
 From every reachable state the system can come to rest for a client: if nobody acts, nobody arrives
 or leaves and the client's connection holds, some sequence of moves of the workers, the window and
 the server leaves nothing under way.
 */
module Settling {
  import opened Collections
  import opened Messages
  import opened Rooms
  import opened Worlds
  import opened Peers
  import Server = ServerSpec
  import Run = ServerRun
  import Links
  import ClientSpec
  import Selection
  import Delivery

  /** A move that nobody outside has to make. */
  predicate Unprompted(step: Step) {
    match step
    case Take(_) => true
    case Serve(s) => s.TickStart? || s.NextClient? || s.TickEnd?
    case Work(_, work) => !work.Break?
    case Handle(_) => true
    case _ => false
  }

  ghost predicate CanReach(w: World, w': World) {
    exists steps: seq<Step> :: (forall i :: 0 <= i < |steps| ==> Unprompted(steps[i])) && Legal(w, steps) && After(w, steps) == w'
  }

  lemma ReachItself(w: World)
    ensures CanReach(w, w)
  {
    var steps: seq<Step> := [];
    assert Legal(w, steps) && After(w, steps) == w;
  }

  lemma {:induction false} RunsJoin(w: World, first: seq<Step>, steps: seq<Step>)
    requires Legal(w, first) && Legal(After(w, first), steps)
    ensures Legal(w, first + steps) && After(w, first + steps) == After(After(w, first), steps)
    decreases |first|
  {
    hide Apply, Enabled;
    if first == [] {
      assert first + steps == steps;
    } else {
      assert (first + steps)[1..] == first[1..] + steps;
      RunsJoin(Apply(w, first[0]), first[1..], steps);
    }
  }

  lemma ReachFurther(w1: World, w2: World, w3: World)
    requires CanReach(w1, w2) && CanReach(w2, w3)
    ensures CanReach(w1, w3)
  {
    var first: seq<Step> :| (forall i :: 0 <= i < |first| ==> Unprompted(first[i])) && Legal(w1, first) && After(w1, first) == w2;
    var more: seq<Step> :| (forall i :: 0 <= i < |more| ==> Unprompted(more[i])) && Legal(w2, more) && After(w2, more) == w3;
    RunsJoin(w1, first, more);
    assert forall i :: 0 <= i < |first + more| ==> Unprompted((first + more)[i]);
  }

  lemma ReachByStep(w: World, step: Step)
    requires Enabled(w, step) && Unprompted(step)
    ensures CanReach(w, Apply(w, step))
  {
    var steps := [step];
    assert steps[1..] == [];
    assert Legal(Apply(w, step), []) && After(Apply(w, step), []) == Apply(w, step);
    assert Legal(w, steps) && After(w, steps) == Apply(w, step);
  }

  // ---- The client's own moves ----

  /** Between ticks, everything in order, and the client's connection working. */
  ghost predicate AtRest(w: World, c: ClientId) {
    Inv(w) && Online(w, c) && w.server.phase.Idle?
  }

  /** `w` and `w'` differ in one client, and the step from one to the other needs nobody to act. */
  ghost predicate Moves(w: World, w': World, c: ClientId) {
    && AtRest(w', c) && CanReach(w, w')
    && c in w.peers && w' == w.(peers := w.peers[c := w'.peers[c]])
  }

  /** The connection's workers have only moved messages along. */
  ghost predicate Carried(p: Peer, p': Peer) {
    p'.window == p.window && Links.SameTraffic(p.link, p'.link)
  }

  lemma MovesItself(w: World, c: ClientId)
    requires AtRest(w, c)
    ensures Moves(w, w, c) && Carried(w.peers[c], w.peers[c])
  {
    ReachItself(w);
    assert w.peers[c := w.peers[c]] == w.peers;
  }

  lemma CarriedFurther(p1: Peer, p2: Peer, p3: Peer)
    requires Carried(p1, p2) && Carried(p2, p3)
    ensures Carried(p1, p3)
  {
    hide Links.Pending;
  }

  lemma MovesFurther(w1: World, w2: World, w3: World, c: ClientId)
    requires Moves(w1, w2, c) && Moves(w2, w3, c)
    ensures Moves(w1, w3, c)
    ensures Carried(w1.peers[c], w2.peers[c]) && Carried(w2.peers[c], w3.peers[c]) ==> Carried(w1.peers[c], w3.peers[c])
  {
    hide AtRest, CanReach, Carried;
    ReachFurther(w1, w2, w3);
    assert w1.peers[c := w2.peers[c]][c := w3.peers[c]] == w1.peers[c := w3.peers[c]];
    if Carried(w1.peers[c], w2.peers[c]) && Carried(w2.peers[c], w3.peers[c]) {
      CarriedFurther(w1.peers[c], w2.peers[c], w3.peers[c]);
    }
  }

  lemma WorkMoves(w: World, c: ClientId, work: Links.Step) returns (w': World)
    requires AtRest(w, c) && (work.ClientPump? || work.ServerPump?) && Links.Enabled(w.peers[c].link, work)
    ensures Moves(w, w', c) && w'.peers[c] == Worked(w.peers[c], work) && Carried(w.peers[c], w'.peers[c])
  {
    hide Inv, Links.Inv, CanReach, Links.Lossless, Application, Selection.Settled, Links.Flushed, Links.Arrived;
    var step := Work(c, work);
    w' := Apply(w, step);
    StepKeeps(w, step);
    ReachByStep(w, step);
    KnownLink(w, c);
    match work
    case ClientPump(receive, heartbeat) => Links.ClientPumpKeeps(w.peers[c].link, receive, heartbeat);
    case ServerPump(receive) => Links.ServerPumpKeeps(w.peers[c].link, receive);
  }

  lemma KnownLink(w: World, c: ClientId)
    requires Inv(w) && c in w.peers
    ensures Links.Inv(w.peers[c].link) && UpstreamAgrees(w.peers[c])
    ensures w.peers[c].link.phase.Open? ==> IsOpen(w.peers[c])
  {
    KnownClient(w, c);
  }

  lemma OpenAtRest(w: World, c: ClientId)
    requires AtRest(w, c)
    ensures c in w.peers && w.peers[c].link.phase.Open? && IsOpen(w.peers[c]) && Links.Inv(w.peers[c].link)
  {
    KnownLink(w, c);
  }

  /** What one turn of the server's worker leaves on the way. */
  lemma UpTurn(l: Links.Link, receive: bool)
    requires Links.Enabled(l, Links.ServerPump(receive))
    ensures var l' := Links.Apply(l, Links.ServerPump(receive));
            && l'.up.wire == (if receive then l.up.wire[1..] else l.up.wire) && l'.up.out == l.up.out
            && l'.down.out == []
  {
  }

  lemma DownTurn(l: Links.Link, receive: bool)
    requires Links.Enabled(l, Links.ClientPump(receive, false))
    ensures var l' := Links.Apply(l, Links.ClientPump(receive, false));
            && l'.down.wire == (if receive then l.down.wire[1..] else l.down.wire) && l'.down.out == l.down.out
            && l'.up.out == []
  {
  }

  /** Blocks on the way up arrive one by one. */
  lemma {:induction false} UpArrives(w: World, c: ClientId, n: nat) returns (w': World)
    requires AtRest(w, c) && |w.peers[c].link.up.wire| == n
    ensures Moves(w, w', c) && Carried(w.peers[c], w'.peers[c])
    ensures w'.peers[c].link.up.wire == [] && w'.peers[c].link.up.out == w.peers[c].link.up.out
    decreases n
  {
    hide AtRest, CanReach, Carried, Links.Inv, Links.Apply;
    OpenAtRest(w, c);
    var link := w.peers[c].link;
    if n == 0 {
      MovesItself(w, c);
      w' := w;
    } else {
      UpTurn(link, true);
      var next := WorkMoves(w, c, Links.ServerPump(true));
      w' := UpArrives(next, c, n - 1);
      MovesFurther(w, next, w', c);
    }
  }

  lemma {:induction false} DownArrives(w: World, c: ClientId, n: nat) returns (w': World)
    requires AtRest(w, c) && |w.peers[c].link.down.wire| == n
    ensures Moves(w, w', c) && Carried(w.peers[c], w'.peers[c])
    ensures w'.peers[c].link.down.wire == [] && w'.peers[c].link.down.out == w.peers[c].link.down.out
    decreases n
  {
    hide AtRest, CanReach, Carried, Links.Inv, Links.Apply;
    OpenAtRest(w, c);
    var link := w.peers[c].link;
    if n == 0 {
      MovesItself(w, c);
      w' := w;
    } else {
      DownTurn(link, true);
      var next := WorkMoves(w, c, Links.ClientPump(true, false));
      w' := DownArrives(next, c, n - 1);
      MovesFurther(w, next, w', c);
    }
  }

  lemma NothingOnWire(p: Links.Pipe)
    requires p.wire == [] && p.out == []
    ensures Links.Pending(p) == p.inbox
  {
    assert p.inbox + [] + [] == p.inbox;
  }

  /** Everything the client has queued reaches the server's inbox. */
  lemma UpDelivered(w: World, c: ClientId) returns (w': World)
    requires AtRest(w, c)
    ensures Moves(w, w', c) && Carried(w.peers[c], w'.peers[c])
    ensures w'.peers[c].link.up.inbox == Links.Pending(w.peers[c].link.up)
    ensures w'.peers[c].link.up.wire == [] && w'.peers[c].link.up.out == []
  {
    OpenAtRest(w, c);
    DownTurn(w.peers[c].link, false);
    var next := WorkMoves(w, c, Links.ClientPump(false, false));
    hide AtRest, CanReach, Links.Inv, Links.Apply, Links.Pending;
    w' := UpArrives(next, c, |next.peers[c].link.up.wire|);
    MovesFurther(w, next, w', c);
    NothingOnWire(w'.peers[c].link.up);
  }

  /** Everything the server has queued for the client reaches its inbox. */
  lemma DownDelivered(w: World, c: ClientId) returns (w': World)
    requires AtRest(w, c)
    ensures Moves(w, w', c) && Carried(w.peers[c], w'.peers[c])
    ensures w'.peers[c].link.down.inbox == Links.Pending(w.peers[c].link.down)
    ensures w'.peers[c].link.down.wire == [] && w'.peers[c].link.down.out == []
  {
    OpenAtRest(w, c);
    UpTurn(w.peers[c].link, false);
    var next := WorkMoves(w, c, Links.ServerPump(false));
    hide AtRest, CanReach, Links.Inv, Links.Apply, Links.Pending;
    w' := DownArrives(next, c, |next.peers[c].link.down.wire|);
    MovesFurther(w, next, w', c);
    NothingOnWire(w'.peers[c].link.down);
  }

  // ---- The window's moves ----

  ghost predicate OnlyHistory(messages: seq<Message>) {
    forall i :: 0 <= i < |messages| ==> messages[i].RoomHistory?
  }

  lemma {:induction false} RequestsAreApplication(messages: seq<Message>)
    requires ClientSpec.OnlyRequests(messages)
    ensures Application(messages) == messages
  {
    if messages != [] {
      RequestsAreApplication(messages[1..]);
    }
  }

  /** Handling a message may queue requests, and handling a history queues nothing. */
  lemma HandleTurn(p: Peer) returns (queued: seq<Message>)
    requires p.link.down.inbox != []
    ensures var p' := Handled(p);
            && p'.link.down.inbox == p.link.down.inbox[1..]
            && p'.link.down.wire == p.link.down.wire && p'.link.down.out == p.link.down.out
            && Links.Pending(p'.link.up) == Links.Pending(p.link.up) + queued
    ensures ClientSpec.OnlyRequests(queued) && (p.link.down.inbox[0].RoomHistory? ==> queued == [])
  {
    queued := ClientSpec.Handle(p.window, p.link.down.inbox[0]).sent[|p.window.sent|..];
    RequestsAreApplication(queued);
    hide Links.Pending;
    Links.QueuedPending(p.link.up, queued);
  }

  lemma HandleMoves(w: World, c: ClientId) returns (w': World)
    requires AtRest(w, c) && w.peers[c].link.down.inbox != []
    ensures Moves(w, w', c) && w'.peers[c] == Handled(w.peers[c])
  {
    var step := Handle(c);
    KnownLink(w, c);
    w' := Apply(w, step);
    hide Inv, Links.Inv, CanReach, ClientSpec.Handle;
    StepKeeps(w, step);
    ReachByStep(w, step);
  }

  /** `now` is `before` with requests added. */
  ghost predicate RequestsAdded(before: seq<Message>, now: seq<Message>) {
    before <= now && ClientSpec.OnlyRequests(now[|before|..])
  }

  lemma RequestsAddedFurther(a: seq<Message>, b: seq<Message>, c: seq<Message>)
    requires RequestsAdded(a, b) && RequestsAdded(b, c)
    ensures RequestsAdded(a, c)
  {
    assert c[|a|..] == b[|a|..] + c[|b|..];
  }

  lemma HandlesOne(w: World, c: ClientId) returns (w': World)
    requires AtRest(w, c) && w.peers[c].link.down.inbox != []
    ensures Moves(w, w', c)
    ensures var l, l' := w.peers[c].link, w'.peers[c].link;
            && l'.down.inbox == l.down.inbox[1..] && l'.down.wire == l.down.wire && l'.down.out == l.down.out
            && RequestsAdded(Links.Pending(l.up), Links.Pending(l'.up))
            && (l.down.inbox[0].RoomHistory? ==> Links.Pending(l'.up) == Links.Pending(l.up))
  {
    hide AtRest, CanReach, Links.Inv, Links.Pending, Handled, ClientSpec.OnlyRequests;
    OpenAtRest(w, c);
    var queued := HandleTurn(w.peers[c]);
    w' := HandleMoves(w, c);
    var before := Links.Pending(w.peers[c].link.up);
    assert (before + queued)[|before|..] == queued && before + [] == before;
  }

  lemma FirstHistory(messages: seq<Message>)
    requires OnlyHistory(messages) && messages != []
    ensures messages[0].RoomHistory? && OnlyHistory(messages[1..])
  {
  }

  lemma NothingAdded(messages: seq<Message>)
    ensures RequestsAdded(messages, messages)
  {
  }

  /** The window handles everything that has arrived. */
  lemma {:induction false} HandlesAll(w: World, c: ClientId, n: nat) returns (w': World)
    requires AtRest(w, c) && |w.peers[c].link.down.inbox| == n
    requires w.peers[c].link.down.wire == [] && w.peers[c].link.down.out == []
    ensures Moves(w, w', c) && Links.Pending(w'.peers[c].link.down) == []
    ensures RequestsAdded(Links.Pending(w.peers[c].link.up), Links.Pending(w'.peers[c].link.up))
    ensures OnlyHistory(w.peers[c].link.down.inbox) ==>
              Links.Pending(w'.peers[c].link.up) == Links.Pending(w.peers[c].link.up)
    decreases n
  {
    hide AtRest, CanReach, Links.Pending, RequestsAdded, OnlyHistory;
    OpenAtRest(w, c);
    var p := w.peers[c];
    if n == 0 {
      MovesItself(w, c);
      w' := w;
      NothingOnWire(p.link.down);
      NothingAdded(Links.Pending(p.link.up));
    } else {
      var next := HandlesOne(w, c);
      w' := HandlesAll(next, c, n - 1);
      MovesFurther(w, next, w', c);
      RequestsAddedFurther(Links.Pending(p.link.up), Links.Pending(next.peers[c].link.up), Links.Pending(w'.peers[c].link.up));
      if OnlyHistory(p.link.down.inbox) {
        FirstHistory(p.link.down.inbox);
      }
    }
  }

  /** The window catches up with the server. */
  lemma CatchesUp(w: World, c: ClientId) returns (w': World)
    requires AtRest(w, c)
    ensures Moves(w, w', c) && Links.Pending(w'.peers[c].link.down) == []
    ensures RequestsAdded(Links.Pending(w.peers[c].link.up), Links.Pending(w'.peers[c].link.up))
    ensures OnlyHistory(Links.Pending(w.peers[c].link.down)) ==>
              Links.Pending(w'.peers[c].link.up) == Links.Pending(w.peers[c].link.up)
  {
    hide AtRest, CanReach, Links.Pending, RequestsAdded, OnlyHistory;
    var next := DownDelivered(w, c);
    w' := HandlesAll(next, c, |next.peers[c].link.down.inbox|);
    MovesFurther(w, next, w', c);
  }

  // ---- A tick ----

  /** In a tick, everything in order, and the client's connection working. */
  ghost predicate InTick(w: World, c: ClientId) {
    Inv(w) && Online(w, c) && w.server.phase.Gathering? && w.server.phase.at <= |w.server.phase.clients|
  }

  /** The server has only taken from the front of this client's inbox and pushed for it. */
  ghost predicate Served(p: Peer, p': Peer) {
    && p'.window == p.window && p'.link.phase == p.link.phase
    && p'.link.up.wire == p.link.up.wire && p'.link.up.out == p.link.up.out
    && p'.link.down.wire == p.link.down.wire && p'.link.down.inbox == p.link.down.inbox
    && p.link.down.out <= p'.link.down.out
    && Run.IsSuffix(p'.link.up.inbox, p.link.up.inbox)
  }

  ghost predicate AllServed(w: World, w': World) {
    w'.peers.Keys == w.peers.Keys && w'.server.active == w.server.active
    && forall d :: d in w.peers ==> Served(w.peers[d], w'.peers[d])
  }

  lemma ServedFurther(p1: Peer, p2: Peer, p3: Peer)
    requires Served(p1, p2) && Served(p2, p3)
    ensures Served(p1, p3)
  {
    var a, b, c := p1.link.up.inbox, p2.link.up.inbox, p3.link.up.inbox;
    assert c == b[|b| - |c|..] == a[|a| - |c|..];
  }

  lemma AllServedFurther(w1: World, w2: World, w3: World)
    requires AllServed(w1, w2) && AllServed(w2, w3)
    ensures AllServed(w1, w3)
  {
    hide Served;
    forall d | d in w1.peers
      ensures Served(w1.peers[d], w3.peers[d])
    {
      ServedFurther(w1.peers[d], w2.peers[d], w3.peers[d]);
    }
  }

  lemma ToldServed(p: Peer, messages: seq<Message>)
    ensures Served(p, Told(p, messages)) && Told(p, messages).link.up == p.link.up
    ensures Told(p, messages).link.down.out == p.link.down.out + messages
  {
    assert p.link.up.inbox[0..] == p.link.up.inbox;
  }

  lemma TakenServed(p: Peer, messages: seq<Message>)
    requires p.link.up.inbox != []
    ensures Served(p, Told(Taken(p), messages)) && Told(Taken(p), messages).link.up.inbox == p.link.up.inbox[1..]
    ensures Told(Taken(p), messages).link.down.out == p.link.down.out + messages
  {
  }

  lemma TakeShape(w: World)
    requires CanTake(w)
    ensures var w', c0 := Apply(w, Take(0)), w.server.phase.clients[w.server.phase.at];
            && w'.server == Run.Apply(w.server, NextTake(w, 0))
            && w'.server.phase == w.server.phase && w'.server.active == w.server.active
            && w'.peers.Keys == w.peers.Keys
            && w'.peers[c0] == Told(Taken(w.peers[c0]), NewlyPushed(w.server, w'.server, c0))
            && forall d :: d in w.peers && d != c0 ==> w'.peers[d] == Told(w.peers[d], NewlyPushed(w.server, w'.server, d))
  {
    hide Server.Process, Run.Logged, NewlyPushed, Told, Taken;
  }

  lemma TakeServesAll(w: World)
    requires CanTake(w)
    ensures var w', c0 := Apply(w, Take(0)), w.server.phase.clients[w.server.phase.at];
            && AllServed(w, w')
            && w'.peers[c0].link.up.inbox == w.peers[c0].link.up.inbox[1..]
            && forall d :: d in w.peers ==>
                 w'.peers[d].link.down.out == w.peers[d].link.down.out + NewlyPushed(w.server, w'.server, d)
  {
    var w', c0 := Apply(w, Take(0)), w.server.phase.clients[w.server.phase.at];
    TakeShape(w);
    hide Apply, NextTake, NewlyPushed, Told, Taken, Served;
    TakenServed(w.peers[c0], NewlyPushed(w.server, w'.server, c0));
    forall d | d in w.peers
      ensures Served(w.peers[d], w'.peers[d])
      ensures w'.peers[d].link.down.out == w.peers[d].link.down.out + NewlyPushed(w.server, w'.server, d)
    {
      if d != c0 {
        ToldServed(w.peers[d], NewlyPushed(w.server, w'.server, d));
      }
    }
  }

  lemma StillOnline(w: World, w': World, c: ClientId)
    requires Online(w, c) && AllServed(w, w') && Inv(w')
    ensures Online(w', c)
  {
    assert Served(w.peers[c], w'.peers[c]);
  }

  /** What the server pushed in between is queued for the client. */
  ghost predicate GotPushed(w: World, w': World, c: ClientId) {
    && c in w.peers && c in w'.peers
    && w'.peers[c].link.down.out == w.peers[c].link.down.out + NewlyPushed(w.server, w'.server, c)
  }

  ghost predicate SameUp(w: World, w': World) {
    forall d :: d in w.peers && d in w'.peers ==> w'.peers[d].link.up == w.peers[d].link.up
  }

  /** The server takes one message. */
  lemma TakeServes(w: World, c: ClientId) returns (w': World)
    requires InTick(w, c) && CanTake(w)
    ensures InTick(w', c) && CanReach(w, w') && AllServed(w, w') && GotPushed(w, w', c)
    ensures w'.server == Run.Apply(w.server, NextTake(w, 0)) && w'.server.phase == w.server.phase
    ensures var c0 := w.server.phase.clients[w.server.phase.at];
            c0 in w'.peers && w'.peers[c0].link.up.inbox == w.peers[c0].link.up.inbox[1..]
  {
    var step := Take(0);
    w' := Apply(w, step);
    TakeShape(w);
    TakeServesAll(w);
    hide Inv, CanReach, Apply, NewlyPushed, AllServed, Run.Apply;
    StepKeeps(w, step);
    ReachByStep(w, step);
    StillOnline(w, w', c);
  }

  lemma ServeShape(w: World, step: Run.Step, c: ClientId)
    requires Enabled(w, Serve(step)) && (step.TickStart? || step.NextClient? || step.TickEnd?) && c in w.peers
    ensures var w' := Apply(w, Serve(step));
            && w'.server == Run.Apply(w.server, step) && w'.server.active == w.server.active
            && AllServed(w, w') && SameUp(w, w') && GotPushed(w, w', c)
  {
    var w' := Apply(w, Serve(step));
    assert w'.server.active == w.server.active by {
      hide Server.EndTick, Server.TickOutput, AllTold;
    }
    hide Run.Apply, NewlyPushed, Told, Served;
    forall d | d in w.peers
      ensures Served(w.peers[d], w'.peers[d])
      ensures w'.peers[d].link.up == w.peers[d].link.up
      ensures w'.peers[d].link.down.out == w.peers[d].link.down.out + NewlyPushed(w.server, w'.server, d)
    {
      ToldServed(w.peers[d], NewlyPushed(w.server, w'.server, d));
    }
  }

  lemma ServeServes(w: World, c: ClientId, step: Run.Step) returns (w': World)
    requires Run.Enabled(w.server, step) && (step.TickStart? || step.NextClient? || step.TickEnd?)
    requires Enabled(w, Serve(step)) && Inv(w) && Online(w, c)
    ensures Inv(w') && Online(w', c) && CanReach(w, w')
    ensures AllServed(w, w') && SameUp(w, w') && GotPushed(w, w', c)
    ensures w'.server == Run.Apply(w.server, step)
  {
    w' := Apply(w, Serve(step));
    ServeShape(w, step, c);
    hide Inv, CanReach, Apply, GotPushed, SameUp, AllServed, Run.Apply;
    StepKeeps(w, Serve(step));
    ReachByStep(w, Serve(step));
    StillOnline(w, w', c);
  }

  // ---- A tick with nothing to tell ----

  /** Nothing to broadcast and no line to distribute. */
  ghost predicate Calm(s: Server.Server) {
    && s.created == [] && s.destroyed == []
    && forall i :: 0 <= i < |s.rooms| ==> s.rooms[i].data.events == []
  }

  lemma IdleIsCalm(s: Run.State)
    requires Run.Inv(s) && s.phase.Idle?
    ensures Calm(s.server)
  {
    forall i | 0 <= i < |s.server.rooms|
      ensures s.server.rooms[i].data.events == []
    {
      FindIs(s.server.rooms, i);
      assert Run.EventsIn(s.server, s.server.rooms[i].name) == [];
    }
  }

  /** Requests keep the server calm, and are answered with histories if at all. */
  lemma RequestsKeepCalm(s: Server.Server, c: ClientId, user: string, now: int, m: Message)
    requires Calm(s) && ClientSpec.IsRequest(m)
    ensures Calm(Server.Process(s, c, user, now, m).0) && OnlyHistory(Server.Process(s, c, user, now, m).1)
  {
  }

  lemma {:induction false} CalmEchoesNothing(rooms: seq<Server.ServerRoom>, c: ClientId)
    requires forall i :: 0 <= i < |rooms| ==> rooms[i].data.events == []
    ensures Server.Echoes(rooms, c) == []
  {
    if rooms != [] {
      CalmEchoesNothing(rooms[..|rooms| - 1], c);
    }
  }

  lemma CalmTellsNothing(s: Server.Server, c: ClientId, inTick: bool, alive: bool)
    requires Calm(s)
    ensures Server.TickOutput(s, c, inTick, alive) == []
  {
    CalmEchoesNothing(s.rooms, c);
  }

  /** The inboxes of the clients whose turn is still to come hold nothing but requests. */
  ghost predicate RequestsWait(w: World, clients: seq<ClientId>, i: nat) {
    forall j :: i <= j < |clients| && clients[j] in w.peers ==> ClientSpec.OnlyRequests(w.peers[clients[j]].link.up.inbox)
  }

  ghost predicate NothingWaits(w: World, clients: seq<ClientId>, i: nat) {
    forall j :: i <= j < |clients| && clients[j] in w.peers ==> w.peers[clients[j]].link.up.inbox == []
  }

  /** A client was told nothing but histories. */
  ghost predicate ToldHistories(w: World, w': World, c: ClientId) {
    && c in w.peers && c in w'.peers
    && w.peers[c].link.down.out <= w'.peers[c].link.down.out
    && OnlyHistory(w'.peers[c].link.down.out[|w.peers[c].link.down.out|..])
  }

  lemma ToldHistoriesFurther(w1: World, w2: World, w3: World, c: ClientId)
    requires ToldHistories(w1, w2, c) && ToldHistories(w2, w3, c)
    ensures ToldHistories(w1, w3, c)
  {
    var a, b, d := w1.peers[c].link.down.out, w2.peers[c].link.down.out, w3.peers[c].link.down.out;
    assert d[|a|..] == b[|a|..] + d[|b|..];
  }

  lemma GotHistories(w: World, w': World, c: ClientId)
    requires GotPushed(w, w', c) && OnlyHistory(NewlyPushed(w.server, w'.server, c))
    ensures ToldHistories(w, w', c)
  {
    var out, more := w.peers[c].link.down.out, NewlyPushed(w.server, w'.server, c);
    assert (out + more)[|out|..] == more;
  }

  lemma StillRequests(w: World, w': World, clients: seq<ClientId>, i: nat, k: nat)
    requires AllServed(w, w') && i <= k
    ensures RequestsWait(w, clients, i) ==> RequestsWait(w', clients, k)
    ensures NothingWaits(w, clients, i) ==> NothingWaits(w', clients, k)
  {
    forall j | k <= j < |clients| && clients[j] in w'.peers
      ensures RequestsWait(w, clients, i) ==> ClientSpec.OnlyRequests(w'.peers[clients[j]].link.up.inbox)
      ensures NothingWaits(w, clients, i) ==> w'.peers[clients[j]].link.up.inbox == []
    {
      assert Served(w.peers[clients[j]], w'.peers[clients[j]]);
    }
  }

  lemma CalmTake(w: World, w': World, c: ClientId)
    requires InTick(w, c) && CanTake(w) && GotPushed(w, w', c) && w'.server == Run.Apply(w.server, NextTake(w, 0))
    requires Calm(w.server.server) && RequestsWait(w, w.server.phase.clients, w.server.phase.at)
    ensures Calm(w'.server.server) && ToldHistories(w, w', c)
  {
    var step, c0 := NextTake(w, 0), w.server.phase.clients[w.server.phase.at];
    assert ClientSpec.OnlyRequests(w.peers[c0].link.up.inbox);
    assert step.m == w.peers[c0].link.up.inbox[0] && step.Take?;
    hide Inv, Calm, Server.Process, NextTake, CanTake, Run.Apply, GotPushed, RequestsWait;
    RequestsKeepCalm(w.server.server, c0, step.user, step.now, step.m);
    Delivery.TakeServer(w.server, step);
    Delivery.TakeSends(w.server, step, c);
    GotHistories(w, w', c);
  }

  lemma CalmEnd(w: World, w': World, c: ClientId)
    requires InTick(w, c) && Run.Enabled(w.server, Run.TickEnd) && GotPushed(w, w', c)
    requires w'.server == Run.Apply(w.server, Run.TickEnd) && Calm(w.server.server)
    ensures ToldHistories(w, w', c)
  {
    Run.ReachableKeeps(w.server);
    hide Inv, Calm, Server.TickOutput, Run.Apply, GotPushed;
    CalmTellsNothing(w.server.server, c, c in w.server.phase.clients, true);
    Delivery.TickEndSends(w.server, c);
    GotHistories(w, w', c);
  }

  lemma CalmNext(w: World, w': World, c: ClientId)
    requires InTick(w, c) && Run.Enabled(w.server, Run.NextClient) && GotPushed(w, w', c)
    requires w'.server == Run.Apply(w.server, Run.NextClient)
    ensures ToldHistories(w, w', c) && w'.server.server == w.server.server
  {
    hide Inv, GotPushed;
    GotHistories(w, w', c);
  }

  /** How many messages of the client whose turn it is have come in. */
  function Waiting(w: World): nat {
    if CanTake(w) then |w.peers[w.server.phase.clients[w.server.phase.at]].link.up.inbox| else 0
  }

  /** The tick is over, all clients whose turn was still to come were heard. */
  ghost predicate Finished(w: World, w': World, c: ClientId) {
    && w.server.phase.Gathering?
    && AtRest(w', c) && CanReach(w, w') && AllServed(w, w')
    && NothingWaits(w', w.server.phase.clients, w.server.phase.at)
    && (Calm(w.server.server) && RequestsWait(w, w.server.phase.clients, w.server.phase.at) ==> ToldHistories(w, w', c))
  }

  lemma PhaseMoves(s: Run.State)
    ensures Run.Enabled(s, Run.TickEnd) ==> Run.Apply(s, Run.TickEnd).phase.Idle?
    ensures Run.Enabled(s, Run.NextClient) ==>
              Run.Apply(s, Run.NextClient) == s.(phase := Run.Gathering(s.phase.clients, s.phase.at + 1))
    ensures Run.Enabled(s, Run.TickStart) ==>
              Run.Apply(s, Run.TickStart) == s.(phase := Run.Gathering(s.active, 0))
  {
    hide Server.EndTick, Server.TickOutput;
  }

  lemma EndFinishes(w: World, c: ClientId) returns (w': World)
    requires InTick(w, c) && w.server.phase.at == |w.server.phase.clients|
    ensures Finished(w, w', c)
  {
    PhaseMoves(w.server);
    hide Inv, CanReach, AllServed, SameUp, GotPushed, Run.Apply, Calm, RequestsWait, ToldHistories, Online;
    w' := ServeServes(w, c, Run.TickEnd);
    if Calm(w.server.server) {
      CalmEnd(w, w', c);
    }
  }

  lemma ClientIsKnown(w: World, c: ClientId)
    requires Inv(w) && w.server.phase.Gathering? && c in w.server.phase.clients
    ensures c in w.peers && c in w.server.pushed
  {
    hide Run.Reachable, ClientInv;
    Run.ReachableKeeps(w.server);
    hide Run.RoomsAgree, Run.LogAgrees, Run.QuietWhenIdle;
  }

  lemma NobodyWaits(w: World)
    requires Inv(w) && w.server.phase.Gathering? && w.server.phase.at < |w.server.phase.clients| && !CanTake(w)
    ensures NothingWaits(w, w.server.phase.clients[w.server.phase.at..w.server.phase.at + 1], 0)
  {
    hide Inv;
    var c0 := w.server.phase.clients[w.server.phase.at];
    ClientIsKnown(w, c0);
    assert w.peers[c0].link.up.inbox == [];
  }

  lemma NextServes(w: World, c: ClientId) returns (w': World)
    requires InTick(w, c) && Run.Enabled(w.server, Run.NextClient) && !CanTake(w)
    ensures Inv(w') && Online(w', c) && CanReach(w, w') && AllServed(w, w') && ToldHistories(w, w', c)
    ensures w'.server == Run.Apply(w.server, Run.NextClient)
  {
    hide CanReach, AllServed, SameUp, GotPushed, Run.Apply, ToldHistories, CanTake;
    w' := ServeServes(w, c, Run.NextClient);
    CalmNext(w, w', c);
  }

  lemma NextShape(w: World, c: ClientId) returns (w': World)
    requires InTick(w, c) && w.server.phase.at < |w.server.phase.clients| && !CanTake(w)
    ensures InTick(w', c) && CanReach(w, w') && AllServed(w, w') && ToldHistories(w, w', c)
    ensures w'.server.server == w.server.server && w'.server.phase == Run.Gathering(w.server.phase.clients, w.server.phase.at + 1)
    ensures NothingWaits(w', w.server.phase.clients[w.server.phase.at..w.server.phase.at + 1], 0)
  {
    hide Inv, Online, CanReach, AllServed, NothingWaits, ToldHistories, CanTake, Run.Apply;
    PhaseMoves(w.server);
    NobodyWaits(w);
    w' := NextServes(w, c);
    StillRequests(w, w', w.server.phase.clients[w.server.phase.at..w.server.phase.at + 1], 0, 0);
  }

  /** A step takes the tick to the same client's next message, or to the next client when nothing waits. */
  ghost predicate Continues(w: World, next: World) {
    && w.server.phase.Gathering? && next.server.phase.Gathering?
    && next.server.phase.clients == w.server.phase.clients
    && (next.server.phase.at == w.server.phase.at ||
        (next.server.phase.at == w.server.phase.at + 1 <= |w.server.phase.clients|
         && NothingWaits(next, w.server.phase.clients[w.server.phase.at..w.server.phase.at + 1], 0)))
  }

  lemma HeardAfter(w: World, next: World, w': World)
    requires Continues(w, next) && AllServed(next, w')
    requires NothingWaits(w', w.server.phase.clients, next.server.phase.at)
    ensures NothingWaits(w', w.server.phase.clients, w.server.phase.at)
  {
    var clients, at := w.server.phase.clients, w.server.phase.at;
    hide AllServed, NothingWaits;
    if next.server.phase.at == at + 1 {
      StillRequests(next, w', clients[at..at + 1], 0, 0);
      OneAndRest(w', clients, at);
    }
  }

  /** Finishing after such a step is finishing. */
  lemma FinishedAfter(w: World, next: World, w': World, c: ClientId)
    requires CanReach(w, next) && AllServed(w, next) && Continues(w, next) && Finished(next, w', c)
    requires Calm(w.server.server) && RequestsWait(w, w.server.phase.clients, w.server.phase.at) ==>
               Calm(next.server.server) && ToldHistories(w, next, c)
    ensures Finished(w, w', c)
  {
    hide AtRest, CanReach, AllServed, NothingWaits, RequestsWait, Calm, ToldHistories;
    HeardAfter(w, next, w');
    ReachFurther(w, next, w');
    AllServedFurther(w, next, w');
    StillRequests(w, next, w.server.phase.clients, w.server.phase.at, next.server.phase.at);
    if ToldHistories(w, next, c) && ToldHistories(next, w', c) {
      ToldHistoriesFurther(w, next, w', c);
    }
  }

  lemma OneAndRest(w: World, clients: seq<ClientId>, at: nat)
    requires at < |clients| && NothingWaits(w, clients[at..at + 1], 0) && NothingWaits(w, clients, at + 1)
    ensures NothingWaits(w, clients, at)
  {
    assert clients[at..at + 1][0] == clients[at];
  }

  /** The next step of a tick that is not at its end. */
  lemma TickGoesOn(w: World, c: ClientId) returns (next: World)
    requires InTick(w, c) && w.server.phase.at < |w.server.phase.clients|
    ensures InTick(next, c) && CanReach(w, next) && AllServed(w, next) && Continues(w, next)
    ensures next.server.phase.at == w.server.phase.at ==> Waiting(next) < Waiting(w)
    ensures Calm(w.server.server) && RequestsWait(w, w.server.phase.clients, w.server.phase.at) ==>
              Calm(next.server.server) && ToldHistories(w, next, c)
  {
    hide Inv, Online, CanReach, AllServed, Calm, RequestsWait, ToldHistories, NothingWaits, Waiting, CanTake;
    if CanTake(w) {
      next := TakesOne(w, c);
    } else {
      next := NextShape(w, c);
    }
  }

  /** The server hears everyone and ends the tick. */
  lemma {:induction false} Finishes(w: World, c: ClientId) returns (w': World)
    requires InTick(w, c)
    ensures Finished(w, w', c)
    decreases |w.server.phase.clients| - w.server.phase.at, Waiting(w)
  {
    if w.server.phase.at == |w.server.phase.clients| {
      w' := EndFinishes(w, c);
    } else {
      hide Inv, Online, CanReach, AllServed, Calm, RequestsWait, ToldHistories, NothingWaits, Waiting, Finished;
      var next := TickGoesOn(w, c);
      w' := Finishes(next, c);
      FinishedAfter(w, next, w', c);
    }
  }

  lemma TakesOne(w: World, c: ClientId) returns (w': World)
    requires InTick(w, c) && CanTake(w)
    ensures InTick(w', c) && CanReach(w, w') && AllServed(w, w')
    ensures w'.server.phase == w.server.phase && Waiting(w') < Waiting(w)
    ensures Calm(w.server.server) && RequestsWait(w, w.server.phase.clients, w.server.phase.at) ==>
              Calm(w'.server.server) && ToldHistories(w, w', c)
  {
    hide Inv, CanReach, AllServed, GotPushed, Run.Apply, Calm, RequestsWait, ToldHistories, Online, NextTake;
    w' := TakeServes(w, c);
    if Calm(w.server.server) && RequestsWait(w, w.server.phase.clients, w.server.phase.at) {
      CalmTake(w, w', c);
    }
  }

  // ---- Coming to rest ----

  /** Nothing has come in from any connected client. */
  ghost predicate AllHeard(w: World) {
    NothingWaits(w, w.server.active, 0)
  }

  /** A whole tick: everyone is heard, and the client is told nothing but histories if all that waited were requests. */
  lemma Ticks(w: World, c: ClientId) returns (w': World)
    requires AtRest(w, c)
    ensures AtRest(w', c) && CanReach(w, w') && AllServed(w, w') && AllHeard(w')
    ensures RequestsWait(w, w.server.active, 0) ==> ToldHistories(w, w', c)
  {
    hide Inv, CanReach, AllServed, SameUp, GotPushed, Run.Apply, Calm, RequestsWait, ToldHistories, Online, NothingWaits;
    PhaseMoves(w.server);
    IdleIsCalmHere(w);
    var next := ServeServes(w, c, Run.TickStart);
    w' := Finishes(next, c);
    ReachFurther(w, next, w');
    AllServedFurther(w, next, w');
    SameActive(next, w');
    StillRequests(w, next, w.server.active, 0, 0);
    StartTells(w, next, c);
    if ToldHistories(next, w', c) {
      ToldHistoriesFurther(w, next, w', c);
    }
  }

  lemma IdleIsCalmHere(w: World)
    requires Inv(w) && w.server.phase.Idle?
    ensures Calm(w.server.server)
  {
    hide Calm, ClientInv;
    Run.ReachableKeeps(w.server);
    IdleIsCalm(w.server);
  }

  lemma SameActive(w: World, w': World)
    requires AllServed(w, w')
    ensures w'.server.active == w.server.active
  {
  }

  lemma StartTells(w: World, w': World, c: ClientId)
    requires GotPushed(w, w', c) && Run.Enabled(w.server, Run.TickStart) && w'.server == Run.Apply(w.server, Run.TickStart)
    ensures ToldHistories(w, w', c)
  {
    GotHistories(w, w', c);
  }

  /** Once everything the client queued has come in, a tick leaves nothing of it under way. */
  lemma TickEmptiesUp(w: World, w': World, c: ClientId)
    requires AtRest(w, c) && AtRest(w', c) && AllServed(w, w') && AllHeard(w')
    requires w.peers[c].link.up.wire == [] && w.peers[c].link.up.out == []
    ensures Links.Pending(w'.peers[c].link.up) == []
  {
    hide Inv;
    assert Served(w.peers[c], w'.peers[c]);
    var j :| 0 <= j < |w'.server.active| && w'.server.active[j] == c;
    NothingOnWire(w'.peers[c].link.up);
  }

  /** After a tick, what comes in from this client is all that comes in. */
  lemma OnlyTheirs(w: World, w': World, c: ClientId)
    requires AllHeard(w) && Moves(w, w', c) && ClientSpec.OnlyRequests(w'.peers[c].link.up.inbox)
    ensures RequestsWait(w', w'.server.active, 0)
  {
    hide AtRest, CanReach;
  }

  lemma {:induction false} HistoriesAreApplication(messages: seq<Message>)
    requires OnlyHistory(messages)
    ensures Application(messages) == messages
  {
    if messages != [] {
      HistoriesAreApplication(messages[1..]);
    }
  }

  /** A client with nothing under way that is told only histories has only histories under way. */
  lemma HistoriesPending(w: World, w': World, c: ClientId)
    requires ToldHistories(w, w', c) && Served(w.peers[c], w'.peers[c])
    requires Links.Pending(w.peers[c].link.down) == []
    ensures OnlyHistory(Links.Pending(w'.peers[c].link.down))
  {
    var p, p' := w.peers[c].link.down, w'.peers[c].link.down;
    var told := p'.out[|p.out|..];
    assert p'.out == p.out + told;
    HistoriesAreApplication(told);
    ApplicationAppend(p.out, told);
    assert Application(p.out) == [] && Application(Concat(p.wire)) == [] && p.inbox == [];
    assert Links.Pending(p') == told;
  }

  lemma RequestsFromNothing(messages: seq<Message>)
    requires RequestsAdded([], messages)
    ensures ClientSpec.OnlyRequests(messages)
  {
    assert messages[0..] == messages;
  }

  /** In the middle of a tick the tick goes on to its end; then the client's requests are heard. */
  lemma GetsHeard(w: World, c: ClientId) returns (w': World)
    requires Inv(w) && Online(w, c)
    ensures AtRest(w', c) && CanReach(w, w') && AllHeard(w') && Links.Pending(w'.peers[c].link.up) == []
  {
    var idle := EndsTick(w, c);
    hide Inv, Online, CanReach, AllServed, AllHeard, RequestsWait;
    var delivered := UpDelivered(idle, c);
    w' := Ticks(delivered, c);
    TickEmptiesUp(delivered, w', c);
    hide AtRest;
    ReachFurther(w, idle, delivered);
    ReachFurther(w, delivered, w');
  }

  lemma EndsTick(w: World, c: ClientId) returns (w': World)
    requires Inv(w) && Online(w, c)
    ensures AtRest(w', c) && CanReach(w, w')
  {
    if w.server.phase.Idle? {
      w' := w;
      ReachItself(w);
    } else {
      InTickHere(w, c);
      hide InTick;
      w' := Finishes(w, c);
    }
  }

  lemma InTickHere(w: World, c: ClientId)
    requires Inv(w) && Online(w, c) && w.server.phase.Gathering?
    ensures InTick(w, c)
  {
    hide ClientInv;
    Run.ReachableKeeps(w.server);
    hide Run.RoomsAgree, Run.LogAgrees;
  }

  /** Once heard, the client catches up, and the requests that this makes it send are heard and answered. */
  lemma GetsAnswers(w: World, c: ClientId) returns (w': World)
    requires AtRest(w, c) && AllHeard(w) && Links.Pending(w.peers[c].link.up) == []
    ensures AtRest(w', c) && CanReach(w, w')
    ensures Links.Pending(w'.peers[c].link.up) == [] && OnlyHistory(Links.Pending(w'.peers[c].link.down))
  {
    hide Inv, Online, CanReach, AllServed, AllHeard, RequestsWait, RequestsAdded, OnlyHistory, ToldHistories;
    var caught := CatchesUp(w, c);
    RequestsFromNothing(Links.Pending(caught.peers[c].link.up));
    var delivered := UpDelivered(caught, c);
    MovesFurther(w, caught, delivered, c);
    OnlyTheirs(w, delivered, c);
    w' := Ticks(delivered, c);
    TickEmptiesUp(delivered, w', c);
    OneServed(delivered, w', c);
    HistoriesPending(delivered, w', c);
    ReachFurther(w, delivered, w');
  }

  lemma OneServed(w: World, w': World, c: ClientId)
    requires AllServed(w, w') && c in w.peers
    ensures c in w'.peers && Served(w.peers[c], w'.peers[c])
  {
  }

  /**
   Whatever has happened, a connected client can come to rest without anyone acting, and then its
   window lists the server's rooms and the server has it joined to its selected room.
   */
  lemma ComesToRest(rooms: seq<string>, steps: seq<Step>, c: ClientId) returns (more: seq<Step>)
    requires Legal(Started(rooms), steps) && Online(After(Started(rooms), steps), c)
    ensures forall i :: 0 <= i < |more| ==> Unprompted(more[i])
    ensures Legal(Started(rooms), steps + more) && Quiet(After(Started(rooms), steps + more), c)
    ensures var w := After(Started(rooms), steps + more);
            var window := w.peers[c].window;
            && Elements(window.display) == Elements(Names(w.server.server.rooms))
            && (window.current != "" ==> Delivery.JoinedIn(w.server.server, c, window.current))
  {
    hide Unprompted, Delivery.JoinedIn;
    var w := After(Started(rooms), steps);
    StartKeeps(rooms);
    RunKeeps(Started(rooms), steps);
    more := Rests(w, c);
    RunsJoin(Started(rooms), steps, more);
    QuietMeansAgreed(rooms, steps + more, c);
  }

  lemma Rests(w: World, c: ClientId) returns (more: seq<Step>)
    requires Inv(w) && Online(w, c)
    ensures forall i :: 0 <= i < |more| ==> Unprompted(more[i])
    ensures Legal(w, more) && Quiet(After(w, more), c)
  {
    hide Inv, Online, AllHeard, OnlyHistory, RequestsAdded, Unprompted;
    var heard := GetsHeard(w, c);
    var answered := GetsAnswers(heard, c);
    var rested := CatchesUp(answered, c);
    ReachFurther(w, heard, answered);
    ReachFurther(w, answered, rested);
    more :| (forall i :: 0 <= i < |more| ==> Unprompted(more[i])) && Legal(w, more) && After(w, more) == rested;
  }
}
