/**
 A window that has joined a room, from the moment the server takes its request for the room's history:
 which of the room's events it then shows.
 */
module OwnHistories {
  import opened Collections
  import opened Messages
  import opened Rooms
  import opened Replicas
  import opened Worlds
  import opened Peers
  import opened Asking
  import Server = ServerSpec
  import Run = ServerRun
  import Links
  import ClientSpec
  import Selection
  import Convergence
  import Delivery
  import Gaps
  import Joining

  /** No history of the room is asked for. */
  ghost predicate NoneAsked(messages: seq<Message>, room: string) {
    forall i :: 0 <= i < |messages| ==> !(messages[i].RoomHistory? && messages[i].room == room)
  }

  lemma {:induction false} ApplicationNoneAsked(messages: seq<Message>, room: string)
    requires NoneAsked(messages, room)
    ensures NoneAsked(Application(messages), room)
  {
    if messages != [] {
      ApplicationNoneAsked(messages[1..], room);
    }
  }

  /** The window was given the list and has joined the room; nothing under way takes it away or asks for its history. */
  ghost predicate Attends(p: Peer, room: string) {
    && Convergence.HasList(p.link.down.taken) && ClientSpec.IsJoined(p.window, room)
    && Joining.Untouched(Links.Pending(p.link.down), room)
    && NoneAsked(Links.Pending(p.link.up), room)
  }

  /** The client is online and the room there, now and after each of the steps. */
  ghost predicate StaysOn(w: World, steps: seq<Step>, c: ClientId, room: string)
    requires Legal(w, steps)
    decreases |steps|
  {
    && Online(w, c) && room in w.server.logs
    && (steps == [] || StaysOn(Apply(w, steps[0]), steps[1..], c, room))
  }

  // ---- The window stays joined and does not ask again ----

  lemma SettledOnceListed(s: Run.State, c: ClientId, p: Peer)
    requires PeerInv(s, c, p) && Convergence.HasList(p.link.down.taken)
    ensures Selection.Settled(p.window)
  {
  }

  lemma NoneQueued(sent: seq<Message>, sent': seq<Message>, room: string)
    requires sent <= sent' && RoomJoin(room) !in sent'[|sent|..]
    requires ClientSpec.MayAsk(sent, sent')
             || exists m :: sent' == sent + [m] && (m.ChatSend? || m.RoomCreate? || m.RoomDestroy?)
    ensures NoneAsked(sent'[|sent|..], room)
  {
    var queued := sent'[|sent|..];
    if sent' != sent && ClientSpec.MayAsk(sent, sent') {
      var other :| sent' == sent + ClientSpec.JoinRequest(other);
      assert queued == ClientSpec.JoinRequest(other) && queued[0] == RoomJoin(other);
    }
  }

  /** A room that was joined and stays joined is not asked for again. */
  lemma NotAskedAgain(w: ClientSpec.Window, action: ClientSpec.Action, room: string) returns (queued: seq<Message>)
    requires Selection.Settled(w) && ClientSpec.Possible(w, action) && Selection.WasJoined(w, action, room)
    requires Lists(ClientSpec.Act(w, action).rooms, room)
    ensures ClientSpec.IsJoined(ClientSpec.Act(w, action), room)
    ensures ClientSpec.Act(w, action).sent == w.sent + queued && NoneAsked(queued, room)
  {
    hide ClientSpec.Act, ClientSpec.IsJoined, Selection.Settled, ClientSpec.Possible, Lists, NoneAsked, ClientSpec.MayAsk;
    Selection.SettledIsClean(w);
    Selection.StaysJoined(w, action, room);
    Selection.ActAsks(w, action, room);
    ActQueues(w, action);
    var sent := ClientSpec.Act(w, action).sent;
    NoneQueued(w.sent, sent, room);
    queued := sent[|w.sent|..];
  }

  lemma WindowAttends(p: Peer, w: ClientSpec.Window, queued: seq<Message>, room: string)
    requires Attends(p, room) && w.sent == p.window.sent + queued
    requires ClientSpec.IsJoined(w, room) && NoneAsked(queued, room)
    ensures Attends(WithWindow(p, w), room)
  {
    assert w.sent[|p.window.sent|..] == queued;
    Links.QueuedPending(p.link.up, queued);
    ApplicationNoneAsked(queued, room);
    hide Links.Pending, ClientSpec.IsJoined, Convergence.HasList;
  }

  lemma ActedAttends(s: Run.State, c: ClientId, p: Peer, action: ClientSpec.Action, room: string)
    requires PeerInv(s, c, p) && Attends(p, room) && !action.Receive? && ClientSpec.Possible(p.window, action)
    ensures Attends(WithWindow(p, ClientSpec.Act(p.window, action)), room)
  {
    var w := ClientSpec.Act(p.window, action);
    SettledOnceListed(s, c, p);
    Selection.SettledIsClean(p.window);
    ClientSpec.UserKeepsView(p.window, action);
    SameRooms(p.window, w, room);
    hide ClientSpec.Act, Attends, ClientSpec.View, Links.Inv;
    JoinedNow(p, room);
    var queued := NotAskedAgain(p.window, action, room);
    WindowAttends(p, w, queued, room);
  }

  lemma JoinedNow(p: Peer, room: string)
    requires Attends(p, room)
    ensures ClientSpec.IsJoined(p.window, room) && Lists(p.window.rooms, room)
  {
  }

  lemma SameRooms(w: ClientSpec.Window, w': ClientSpec.Window, room: string)
    requires room in ClientSpec.View(w).rooms ==> room in ClientSpec.View(w').rooms
    ensures Lists(w.rooms, room) ==> Lists(w'.rooms, room)
  {
    NamedIs(w.rooms, room);
    NamedIs(w'.rooms, room);
  }

  lemma PoppedAttends(p: Peer, room: string)
    requires Attends(p, room) && p.link.down.inbox != []
    ensures Attends(PoppedDown(p), room)
    ensures var m := p.link.down.inbox[0]; m != RoomDestroy(room) && !m.RoomList?
  {
    var m := p.link.down.inbox[0];
    Links.PoppedPending(p.link.down);
    Joining.UntouchedParts([m], Links.Pending(PoppedDown(p).link.down), room);
    Joining.UntouchedOne(m, room);
    ListStays(p.link.down.taken, [m]);
    hide Links.Pending, ClientSpec.IsJoined, Convergence.HasList, Joining.Untouched;
  }

  lemma HandledAttends(s: Run.State, c: ClientId, p: Peer, room: string)
    requires PeerInv(s, c, p) && Attends(p, room) && p.link.down.inbox != []
    ensures Attends(Handled(p), room)
  {
    var m := p.link.down.inbox[0];
    var w := ClientSpec.Handle(p.window, m);
    SettledOnceListed(s, c, p);
    Selection.SettledIsClean(p.window);
    PoppedAttends(p, room);
    ClientSpec.HandleFollows(p.window, m);
    SameRooms(p.window, w, room);
    JoinedNow(p, room);
    hide ClientSpec.Handle, Attends, ClientSpec.View, Links.Inv;
    var queued := NotAskedAgain(p.window, ClientSpec.Receive(m), room);
    WindowAttends(PoppedDown(p), w, queued, room);
  }

  lemma WorkedAttends(s: Run.State, c: ClientId, p: Peer, work: Links.Step, room: string)
    requires PeerInv(s, c, p) && Attends(p, room) && IsWork(work) && Links.Enabled(p.link, work)
    requires p.link.phase.Open? && Worked(p, work).link.phase.Open?
    ensures Attends(Worked(p, work), room)
  {
    match work
    case HelloArrives =>
    case AckArrives =>
    case ClientPump(receive, heartbeat) => Links.ClientPumpKeeps(p.link, receive, heartbeat);
    case ServerPump(receive) => PumpKeepsTraffic(p.link, receive);
    case Break =>
  }

  // ---- The server takes nothing away ----

  lemma ListIsLast(a: seq<Message>, b: seq<Message>)
    requires OneList(a + b) && Convergence.HasList(a)
    ensures NoList(b)
  {
    var i :| 0 <= i < |a| && a[i].RoomList?;
    forall j | 0 <= j < |b|
      ensures !b[j].RoomList?
    {
      assert (a + b)[i] == a[i] && (a + b)[|a| + j] == b[j];
    }
  }

  /** A window that was given the list is given no other. */
  lemma NoMoreLists(s: Run.State, c: ClientId, p: Peer)
    requires PeerInv(s, c, p) && AsksWell(s, c, p) && p.link.phase.Open? && Convergence.HasList(p.link.down.taken)
    ensures NoList(Links.Pending(p.link.down))
  {
    AllOfApplication(s.pushed[c]);
    hide Links.Pending, Convergence.HasList, NoList, WellAsked, OneList, AllApplication;
    assert s.pushed[c] == p.link.down.taken + Links.Pending(p.link.down);
    ListIsLast(p.link.down.taken, Links.Pending(p.link.down));
  }

  lemma NotDestroyed(messages: seq<Message>, room: string)
    requires KeepsListed(messages, room)
    ensures RoomDestroy(room) !in messages
  {
  }

  lemma UntouchedWithout(messages: seq<Message>, room: string)
    requires RoomDestroy(room) !in messages && NoList(messages)
    ensures Joining.Untouched(messages, room)
  {
  }

  /** What the server pushes while the room lasts does not take the room away. */
  lemma ToldAttends(s': Run.State, c: ClientId, p: Peer, told: seq<Message>, room: string)
    requires Attends(p, room) && AllApplication(told) && KeepsListed(told, room)
    requires PeerInv(s', c, Told(p, told)) && AsksWell(s', c, Told(p, told)) && p.link.phase.Open?
    ensures Attends(Told(p, told), room)
  {
    var p' := Told(p, told);
    Joining.TellKeepsPending(p, told);
    hide PeerInv, AsksWell, Links.Pending, ClientSpec.IsJoined, Convergence.HasList, AllApplication, KeepsListed;
    NoMoreLists(s', c, p');
    NotDestroyed(told, room);
    hide NoList;
    UntouchedWithout(Links.Pending(p'.link.down), room);
  }

  lemma TakenAttends(p: Peer, room: string)
    requires Attends(p, room) && p.link.up.inbox != []
    ensures Attends(Taken(p), room)
    ensures var m := p.link.up.inbox[0]; !(m.RoomHistory? && m.room == room)
  {
    Links.PoppedPending(p.link.up);
    assert Links.Pending(p.link.up)[0] == p.link.up.inbox[0];
    var rest := Links.Pending(Taken(p).link.up);
    assert rest == Links.Pending(p.link.up)[1..];
    hide Links.Pending, ClientSpec.IsJoined, Convergence.HasList, Joining.Untouched;
  }

  /** The server's part of a step of the whole, if it has one. */
  function ServerStep(w: World, step: Step): Option<Run.Step> {
    match step
    case Arrive(c, _, _) => Some(Run.Connect(c))
    case Take(now) => if CanTake(w) then Some(NextTake(w, now)) else None
    case Serve(s) => Some(s)
    case _ => None
  }

  /** What such a step makes of a client that was there before. */
  lemma ServerStepShape(w: World, step: Step, c: ClientId)
    requires Inv(w) && Enabled(w, step) && ServerStep(w, step).Some? && c in w.peers
    ensures var w', s := Apply(w, step), ServerStep(w, step).value;
            && Run.Enabled(w.server, s) && w'.server == Run.Apply(w.server, s) && c in w'.peers
            && var p, told := w.peers[c], NewlyPushed(w.server, w'.server, c);
               && (if step.Take? && c == w.server.phase.clients[w.server.phase.at]
                   then p.link.up.inbox != [] && s.m == p.link.up.inbox[0] && w'.peers[c] == Told(Taken(p), told)
                   else w'.peers[c] == Told(p, told))
  {
    if step.Arrive? {
      ConnectTellsNobody(w.server, step.c, c, w.peers[c]);
    }
    hide Run.Apply, Inv, Told, Taken, NewlyPushed, ClientSpec.Clean;
  }

  lemma PushedKeepsListed(s: Run.State, step: Run.Step, c: ClientId, room: string)
    requires Run.Reachable(s) && Run.Enabled(s, step) && c in s.active && room in s.logs && room in Run.Apply(s, step).logs
    ensures c in s.pushed
    ensures AllApplication(NewlyPushed(s, Run.Apply(s, step), c)) && KeepsListed(NewlyPushed(s, Run.Apply(s, step), c), room)
  {
    Run.ReachableKeeps(s);
    hide Run.Apply, Run.RoomsAgree, Run.LogAgrees, Run.QuietWhenIdle, KeepsListed, AllApplication;
    Delivery.StepKeepsListed(s, step, c, room);
    ServerPushes(s, step, c);
  }

  lemma ServedAttends(w: World, step: Step, c: ClientId, room: string)
    requires Inv(w) && AllAskWell(w) && Enabled(w, step) && ServerStep(w, step).Some?
    requires Online(w, c) && Attends(w.peers[c], room) && room in w.server.logs && room in Apply(w, step).server.logs
    ensures c in Apply(w, step).peers && Attends(Apply(w, step).peers[c], room)
  {
    var w', p := Apply(w, step), w.peers[c];
    StepKeeps(w, step);
    StepAsks(w, step);
    ServerStepShape(w, step, c);
    KnownClient(w', c);
    assert AsksWell(w'.server, c, w'.peers[c]);
    PushedKeepsListed(w.server, ServerStep(w, step).value, c, room);
    hide Inv, AllAskWell, Apply, Attends, AsksWell, PeerInv, NewlyPushed, AllApplication, KeepsListed, ServerStep, Run.Apply;
    var told := NewlyPushed(w.server, w'.server, c);
    if step.Take? && c == w.server.phase.clients[w.server.phase.at] {
      TakenAttends(p, room);
      ToldAttends(w'.server, c, Taken(p), told, room);
    } else {
      ToldAttends(w'.server, c, p, told, room);
    }
  }

  // ---- Runs ----

  lemma OtherClient(w: World, step: Step, c: ClientId)
    requires Enabled(w, step) && (step.Work? || step.Act? || step.Handle?) && step.c != c && c in w.peers
    ensures var w' := Apply(w, step); w'.server == w.server && c in w'.peers && w'.peers[c] == w.peers[c]
  {
    hide Worked, WithWindow, Handled;
  }

  lemma SameClient(w: World, step: Step)
    requires Enabled(w, step) && (step.Work? || step.Act? || step.Handle?)
    ensures var w', c := Apply(w, step), step.c;
            && w'.server == w.server && c in w'.peers
            && w'.peers[c] ==
               if step.Work? then Worked(w.peers[c], step.work)
               else if step.Act? then WithWindow(w.peers[c], ClientSpec.Act(w.peers[c].window, step.action))
               else Handled(w.peers[c])
  {
    hide Worked, WithWindow, Handled, ClientSpec.Act;
  }

  lemma OwnStepAttends(w: World, step: Step, c: ClientId, room: string)
    requires Inv(w) && Enabled(w, step) && (step.Work? || step.Act? || step.Handle?)
    requires Online(w, c) && Attends(w.peers[c], room) && Online(Apply(w, step), c)
    ensures Attends(Apply(w, step).peers[c], room) && Apply(w, step).server == w.server
  {
    hide Inv, Attends, PeerInv, Handled, WithWindow, Worked, Apply, ClientSpec.Act, Joining.JoinInv;
    KnownClient(w, c);
    if step.c != c {
      OtherClient(w, step, c);
    } else {
      SameClient(w, step);
      if step.Work? {
        WorkedAttends(w.server, c, w.peers[c], step.work, room);
      } else if step.Act? {
        ActedAttends(w.server, c, w.peers[c], step.action, room);
      } else {
        HandledAttends(w.server, c, w.peers[c], room);
      }
    }
  }

  /** A step that the server has no part in leaves it alone. */
  lemma StepAttends(w: World, step: Step, c: ClientId, room: string)
    requires Inv(w) && AllAskWell(w) && Enabled(w, step)
    requires Online(w, c) && Attends(w.peers[c], room) && room in w.server.logs
    requires Online(Apply(w, step), c) && room in Apply(w, step).server.logs
    ensures Attends(Apply(w, step).peers[c], room)
    ensures ServerStep(w, step).None? ==> Apply(w, step).server == w.server
  {
    if step.Work? || step.Act? || step.Handle? {
      OwnStepAttends(w, step, c, room);
    } else {
      hide Inv, Attends, AllAskWell, Apply, Online;
      ServedAttends(w, step, c, room);
    }
  }

  lemma ServerStepAsksNot(w: World, step: Step, c: ClientId, room: string)
    requires Inv(w) && Enabled(w, step) && ServerStep(w, step).Some? && Online(w, c) && Attends(w.peers[c], room)
    ensures Run.Enabled(w.server, ServerStep(w, step).value)
    ensures Apply(w, step).server == Run.Apply(w.server, ServerStep(w, step).value)
    ensures !Delivery.Asks(w.server, ServerStep(w, step).value, c, room)
  {
    ServerStepShape(w, step, c);
    if step.Take? && c == w.server.phase.clients[w.server.phase.at] {
      TakenAttends(w.peers[c], room);
    }
    hide Attends, Inv, Run.Apply;
  }

  lemma LiveWhileOnline(w: World, c: ClientId)
    requires Inv(w) && Online(w, c)
    ensures c in w.server.live
  {
    hide ClientInv;
    Run.ReachableKeeps(w.server);
    hide Run.RoomsAgree, Run.LogAgrees, Run.QuietWhenIdle;
  }

  lemma PartGoesOn(s: Run.State, step: Run.Step, rest: seq<Run.Step>, c: ClientId, room: string)
    requires Run.Enabled(s, step) && Run.Legal(Run.Apply(s, step), rest)
    requires room in s.logs && c in s.live && !Delivery.Asks(s, step, c, room)
    requires Delivery.Lasts(Run.Apply(s, step), rest, c, room) && Delivery.NeverAsks(Run.Apply(s, step), rest, c, room)
    ensures Run.Legal(s, [step] + rest) && Run.Run(s, [step] + rest) == Run.Run(Run.Apply(s, step), rest)
    ensures Delivery.Lasts(s, [step] + rest, c, room) && Delivery.NeverAsks(s, [step] + rest, c, room)
  {
    assert ([step] + rest)[1..] == rest;
    hide Run.Apply, Run.Enabled, Delivery.Asks;
  }

  /** The server's part of such a run is one in which the client does not ask for the room's history. */
  lemma {:induction false} ServersPart(w: World, steps: seq<Step>, c: ClientId, room: string) returns (part: seq<Run.Step>)
    requires Inv(w) && AllAskWell(w) && Legal(w, steps) && StaysOn(w, steps, c, room) && Attends(w.peers[c], room)
    ensures Run.Legal(w.server, part) && Run.Run(w.server, part) == After(w, steps).server
    ensures Delivery.Lasts(w.server, part, c, room) && Delivery.NeverAsks(w.server, part, c, room)
    decreases |steps|
  {
    hide Inv, AllAskWell, Attends, Apply, Enabled, ServerStep, Run.Apply, Run.Enabled, Delivery.Asks, Online;
    OnlineNow(w, steps, c, room);
    LiveWhileOnline(w, c);
    if steps == [] {
      part := [];
    } else {
      var step, next := steps[0], Apply(w, steps[0]);
      OnlineNow(next, steps[1..], c, room);
      StepAttends(w, step, c, room);
      StepKeeps(w, step);
      StepAsks(w, step);
      var rest := ServersPart(next, steps[1..], c, room);
      if ServerStep(w, step).Some? {
        ServerStepAsksNot(w, step, c, room);
        PartGoesOn(w.server, ServerStep(w, step).value, rest, c, room);
        part := [ServerStep(w, step).value] + rest;
      } else {
        part := rest;
      }
    }
  }

  lemma OnlineNow(w: World, steps: seq<Step>, c: ClientId, room: string)
    requires Legal(w, steps) && StaysOn(w, steps, c, room)
    ensures Online(w, c) && room in w.server.logs
  {
  }

  // ---- What the window shows ----

  /**
   The server is about to take a client's last request for the history of a room that the client's
   window has joined, and nothing under way or asked for takes the room away.
   */
  ghost predicate AsksNow(w: World, c: ClientId, room: string) {
    && CanTake(w) && c == w.server.phase.clients[w.server.phase.at] && Online(w, c)
    && var p := w.peers[c];
       && Convergence.HasList(p.link.down.taken) && ClientSpec.IsJoined(p.window, room)
       && Joining.Untouched(Links.Pending(p.link.down), room) && room !in w.server.server.destroyed
       && p.link.up.inbox[0].RoomHistory? && p.link.up.inbox[0].room == room
       && NoneAsked(Links.Pending(p.link.up)[1..], room)
  }

  /** A join that is still under way has its history request still under way behind it. */
  lemma JoinMeansAsked(sent: seq<Message>, taken: seq<Message>, pending: seq<Message>, i: nat, room: string)
    requires WellAsked(sent) && [RoomList([])] + sent == taken + pending
    requires i < |pending| && pending[i] == RoomJoin(room)
    ensures !NoneAsked(pending[1..], room)
  {
    var k, all := |taken|, [RoomList([])] + sent;
    assert pending[i] == all[k + i];
    assert sent[k - 1 + i] == RoomJoin(room) && WellAskedAt(sent, k - 1 + i);
    assert sent[k + i] == HistoryRequest(room) && pending[i + 1] == all[k + i + 1];
    assert pending[1..][i] == HistoryRequest(room);
  }

  /** The request is the window's own, and its join is not behind it. */
  lemma RequestFollowsJoin(sent: seq<Message>, taken: seq<Message>, pending: seq<Message>, room: string)
    requires WellAsked(sent) && [RoomList([])] + sent == taken + pending && pending != []
    requires pending[0].RoomHistory? && pending[0].room == room && NoneAsked(pending[1..], room)
    ensures pending[0] == HistoryRequest(room) && RoomJoin(room) !in pending
  {
    var k, all := |taken|, [RoomList([])] + sent;
    assert pending[0] == all[k];
    assert k > 0 && pending[0] == sent[k - 1] && WellAskedAt(sent, k - 1);
    hide NoneAsked, WellAsked, WellAskedAt;
    forall i | 0 <= i < |pending|
      ensures pending[i] != RoomJoin(room)
    {
      if pending[i] == RoomJoin(room) {
        JoinMeansAsked(sent, taken, pending, i, room);
      }
    }
  }

  lemma WindowsOwnRequest(s: Run.State, c: ClientId, p: Peer, room: string)
    requires PeerInv(s, c, p) && AsksWell(s, c, p) && p.link.phase.Open? && p.link.up.inbox != []
    requires p.link.up.inbox[0].RoomHistory? && p.link.up.inbox[0].room == room
    requires NoneAsked(Links.Pending(p.link.up)[1..], room)
    ensures p.link.up.inbox[0] == HistoryRequest(room) && RoomJoin(room) !in Links.Pending(p.link.up)
  {
    var pending := Links.Pending(p.link.up);
    Links.SinglesApplication();
    ApplicationAppend([RoomList([])], p.window.sent);
    AllOfApplication(p.window.sent);
    FirstTaken(p);
    assert pending[0] == p.link.up.inbox[0];
    hide WellAsked, NoneAsked, OneList, Application, Links.Pending;
    RequestFollowsJoin(p.window.sent, p.link.up.taken, pending, room);
  }

  /** When the request is taken, the server has the client joined: the join came first. */
  lemma AskIsJoined(w: World, c: ClientId, room: string)
    requires Inv(w) && AllAskWell(w) && AsksNow(w, c, room)
    ensures w.peers[c].link.up.inbox[0] == HistoryRequest(room)
    ensures Delivery.JoinedIn(w.server.server, c, room) && room in w.server.logs && c in w.server.live
    ensures room in FollowAll(Start(w.peers[c]), w.server.pushed[c]).rooms
  {
    var s, p := w.server, w.peers[c];
    KnownClient(w, c);
    assert AsksWell(s, c, p) && Joining.JoinInv(s, c, p, room);
    Run.ReachableKeeps(s);
    LiveWhileOnline(w, c);
    hide Inv, AllAskWell, PeerInv, AsksWell, Run.Inv, Links.Pending, NoneAsked, Joining.Untouched;
    WindowsOwnRequest(s, c, p, room);
    FoldPending(s, c, p);
    ViewLists(p.window, room);
    Joining.StaysInList(ClientSpec.View(p.window), Links.Pending(p.link.down), room);
    JoinedIsLogged(s, c, room);
  }

  lemma ViewLists(w: ClientSpec.Window, room: string)
    requires ClientSpec.IsJoined(w, room)
    ensures room in ClientSpec.View(w).rooms
  {
    NamedIs(w.rooms, room);
  }

  lemma JoinedIsLogged(s: Run.State, c: ClientId, room: string)
    requires Run.Inv(s) && Delivery.JoinedIn(s.server, c, room)
    ensures room in s.logs
  {
    assert Run.LogAgrees(s.server, s.logs, room);
  }

  /** From then on, what the window shows of the room once it has caught up: exactly these events. */
  lemma ShowsOwnHistory(w: World, now: int, more: seq<Step>, c: ClientId, room: string)
    requires Inv(w) && AllAskWell(w) && AsksNow(w, c, room)
    requires Legal(Apply(w, Take(now)), more) && StaysOn(Apply(w, Take(now)), more, c, room)
    requires var w' := After(Apply(w, Take(now)), more);
             Online(w', c) && Links.Pending(w'.peers[c].link.down) == []
    ensures var w' := After(Apply(w, Take(now)), more);
            && room in w.server.logs && Delivery.Advances(w.server, w'.server, room)
            && var positions := Gaps.ShownPositions(w.server, ROOM_HISTORY_MAX_ENTRIES, w'.server, room);
               && Gaps.Within(positions, w'.server.logs[room])
               && Shown(w'.peers[c].window.history, room) == Gaps.EventsAt(w'.server.logs[room], positions)
  {
    var ask, w1 := NextTake(w, now), Apply(w, Take(now));
    var part := AnsweredByServer(w, now, more, c, room);
    var w' := After(w1, more);
    AskIsJoined(w, c, room);
    ServerInv(w);
    hide Inv, AllAskWell, AsksNow, Apply, Delivery.Answered, Delivery.Advances, Run.Inv, StaysOn, Links.Pending, Gaps.ShownPositions, Gaps.Within;
    Gaps.ShowsPositions(w.server, ask, part, c, room, Start(w.peers[c]));
    EndsCaughtUp(w, now, more, c);
  }

  lemma ServerInv(w: World)
    requires Inv(w)
    ensures Run.Inv(w.server)
  {
    Run.ReachableKeeps(w.server);
  }

  /** The window has handled all that was pushed. */
  lemma EndsCaughtUp(w: World, now: int, more: seq<Step>, c: ClientId)
    requires Inv(w) && CanTake(w) && Legal(Apply(w, Take(now)), more) && c in w.peers
    requires var w' := After(Apply(w, Take(now)), more);
             Online(w', c) && Links.Pending(w'.peers[c].link.down) == []
    ensures var w' := After(Apply(w, Take(now)), more);
            c in w'.server.pushed && w'.peers[c].leftover == w.peers[c].leftover
            && ClientSpec.View(w'.peers[c].window) == FollowAll(Start(w.peers[c]), w'.server.pushed[c])
  {
    var w1 := Apply(w, Take(now));
    StepKeeps(w, Take(now));
    RunKeeps(w1, more);
    TakeKeepsLeftover(w, now, c);
    LeftoverStays(w1, more, c);
    KnownClient(After(w1, more), c);
    hide Inv, Apply, Legal, After;
    FoldPending(After(w1, more).server, c, After(w1, more).peers[c]);
  }

  lemma TakeKeepsLeftover(w: World, now: int, c: ClientId)
    requires CanTake(w) && c in w.peers
    ensures var w' := Apply(w, Take(now)); c in w'.peers && w'.peers[c].leftover == w.peers[c].leftover
  {
    hide Run.Apply;
  }

  lemma StepKeepsLeftover(w: World, step: Step, c: ClientId)
    requires Inv(w) && Enabled(w, step) && c in w.peers
    ensures var w' := Apply(w, step); c in w'.peers && w'.peers[c].leftover == w.peers[c].leftover
  {
    hide Run.Apply, Links.Apply, ClientSpec.Act, ClientSpec.Handle, ClientInv, ClientSpec.Clean;
  }

  lemma {:induction false} LeftoverStays(w: World, steps: seq<Step>, c: ClientId)
    requires Inv(w) && Legal(w, steps) && c in w.peers
    ensures var w' := After(w, steps); c in w'.peers && w'.peers[c].leftover == w.peers[c].leftover
    decreases |steps|
  {
    hide Inv, Apply, Enabled;
    if steps != [] {
      StepKeepsLeftover(w, steps[0], c);
      StepKeeps(w, steps[0]);
      LeftoverStays(Apply(w, steps[0]), steps[1..], c);
    }
  }

  lemma TakenAsk(w: World, c: ClientId, room: string)
    requires AsksNow(w, c, room)
    ensures Attends(Taken(w.peers[c]), room)
  {
    var p := w.peers[c];
    Links.PoppedPending(p.link.up);
    assert Links.Pending(Taken(p).link.up) == Links.Pending(p.link.up)[1..];
    hide Links.Pending, ClientSpec.IsJoined, Convergence.HasList, Joining.Untouched, NoneAsked;
  }

  lemma AskedAttends(w: World, now: int, c: ClientId, room: string)
    requires Inv(w) && AllAskWell(w) && AsksNow(w, c, room) && room in w.server.logs
    requires room in Apply(w, Take(now)).server.logs
    ensures c in Apply(w, Take(now)).peers && Attends(Apply(w, Take(now)).peers[c], room)
  {
    var step, w' := Take(now), Apply(w, Take(now));
    TakenAsk(w, c, room);
    StepKeeps(w, step);
    StepAsks(w, step);
    ServerStepShape(w, step, c);
    KnownClient(w', c);
    assert AsksWell(w'.server, c, w'.peers[c]);
    PushedKeepsListed(w.server, NextTake(w, now), c, room);
    hide Inv, AllAskWell, Apply, Attends, AsksWell, PeerInv, NewlyPushed, AllApplication, KeepsListed, Run.Apply;
    ToldAttends(w'.server, c, Taken(w.peers[c]), NewlyPushed(w.server, w'.server, c), room);
  }

  /** The server answers the request, and from then on the client does not ask again. */
  lemma AnsweredByServer(w: World, now: int, more: seq<Step>, c: ClientId, room: string) returns (part: seq<Run.Step>)
    requires Inv(w) && AllAskWell(w) && AsksNow(w, c, room)
    requires Legal(Apply(w, Take(now)), more) && StaysOn(Apply(w, Take(now)), more, c, room)
    ensures Delivery.Answered(w.server, NextTake(w, now), part, c, room)
    ensures NextTake(w, now).m.eventCount == ROOM_HISTORY_MAX_ENTRIES
    ensures Run.Run(Run.Apply(w.server, NextTake(w, now)), part) == After(Apply(w, Take(now)), more).server
  {
    var w1 := Apply(w, Take(now));
    AskIsJoined(w, c, room);
    AskedAttends(w, now, c, room);
    StepKeeps(w, Take(now));
    StepAsks(w, Take(now));
    assert w1.server == Run.Apply(w.server, NextTake(w, now));
    AsksOf(w, now, c, room);
    hide Inv, AllAskWell, Apply, Run.Apply, AsksNow, Attends, StaysOn;
    part := ServersPart(w1, more, c, room);
  }

  lemma AsksOf(w: World, now: int, c: ClientId, room: string)
    requires AsksNow(w, c, room) && w.peers[c].link.up.inbox[0] == HistoryRequest(room)
    ensures Delivery.Asks(w.server, NextTake(w, now), c, room)
    ensures NextTake(w, now).m.eventCount == ROOM_HISTORY_MAX_ENTRIES
  {
    hide NoneAsked, Joining.Untouched, Links.Pending;
  }

  /**
   Over all runs: a client's window has joined a room, the server takes the window's own request for
   the room's history, and the room and the connection last. Whenever the window has then handled
   everything under way, it shows exactly the replied events and those distributed since, the latest
   999 of these. No event between is missing exactly if no more than 100 were retained beyond those not
   yet distributed, or 999 or more were distributed since; and some are shown twice exactly if some of
   those not yet distributed were replied, and were distributed with no more than 998 in all.
   */
  lemma NoGapShown(rooms: seq<string>, steps: seq<Step>, now: int, more: seq<Step>, c: ClientId, room: string)
    requires Legal(Started(rooms), steps)
    requires AsksNow(After(Started(rooms), steps), c, room)
    requires var w1 := Apply(After(Started(rooms), steps), Take(now));
             && Legal(w1, more) && StaysOn(w1, more, c, room)
             && Online(After(w1, more), c) && Links.Pending(After(w1, more).peers[c].link.down) == []
    ensures var w := After(Started(rooms), steps);
            var w' := After(Apply(w, Take(now)), more);
            && room in w.server.logs && Delivery.Advances(w.server, w'.server, room)
            && var positions := Gaps.ShownPositions(w.server, ROOM_HISTORY_MAX_ENTRIES, w'.server, room);
               var waiting, since := |Run.EventsIn(w.server.server, room)|,
                                     Delivery.Delivered(w'.server, room) - Delivery.Delivered(w.server, room);
               var retained := |Server.Retained(w.server.server.history, room)|;
               && Gaps.Within(positions, w'.server.logs[room])
               && Shown(w'.peers[c].window.history, room) == Gaps.EventsAt(w'.server.logs[room], positions)
               && (Gaps.NoneSkipped(positions, Delivery.Delivered(w'.server, room)) <==>
                     retained <= ROOM_HISTORY_MAX_ENTRIES + waiting || since >= HISTORY_KEPT)
               && (Gaps.SomeDoubled(positions) <==>
                     waiting > 0 && retained < ROOM_HISTORY_MAX_ENTRIES + waiting && 0 < since < HISTORY_KEPT)
  {
    var w := After(Started(rooms), steps);
    StartKeeps(rooms);
    RunKeeps(Started(rooms), steps);
    StartAsks(rooms);
    RunAsks(Started(rooms), steps);
    hide Inv, AllAskWell, Legal, After, AsksNow, StaysOn, Apply, Links.Pending, Gaps.NoneSkipped, Gaps.SomeDoubled, Gaps.ShownPositions;
    ShowsOwnHistory(w, now, more, c, room);
    var part := AnsweredByServer(w, now, more, c, room);
    ServerInv(w);
    hide Run.Inv, Delivery.Answered, Delivery.Advances, Run.EventsIn;
    Gaps.NoneSkippedExactly(w.server, NextTake(w, now), part, c, room);
    Gaps.SomeDoubledExactly(w.server, NextTake(w, now), part, c, room);
  }
}
