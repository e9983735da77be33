/**
 A line from the one who says it to those who read it: the author shown is the name its sender
 connected with, and the text is what was sent.
 */
module Authorship {
  import opened Collections
  import opened Messages
  import opened Rooms
  import opened Replicas
  import opened Worlds
  import opened Peers
  import opened Asking
  import opened OwnHistories
  import Server = ServerSpec
  import Run = ServerRun
  import Links
  import ClientSpec
  import Selection
  import Convergence
  import Delivery
  import Joining

  // ---- The sender's name ----

  /** The server knows a client by the name it gave, from the moment it can take a message from it. */
  predicate Named(l: Links.Link, user: string) {
    match l.phase
    case Greeting => l.up == Links.EMPTY_PIPE.(wire := [[Hello(user)]])
    case Closed => l.user == user || l.up.inbox == []
    case _ => l.user == user
  }

  lemma WorkKeepsName(l: Links.Link, step: Links.Step, user: string)
    requires Named(l, user) && IsWork(step) && Links.Enabled(l, step)
    ensures Named(Links.Apply(l, step), user)
  {
    var hello := [Hello(user)];
    assert hello[0] == Hello(user) && Links.FirstWanted(hello, Links.IsHello) == Some(Hello(user));
  }

  lemma MovesKeepName(p: Peer, user: string)
    requires Named(p.link, user)
    ensures forall messages :: Named(Told(p, messages).link, user)
    ensures p.link.up.inbox != [] ==> Named(Taken(p).link, user)
    ensures p.link.down.inbox != [] ==> Named(PoppedDown(p).link, user)
    ensures IsOpen(p) ==> forall w: ClientSpec.Window | p.window.sent <= w.sent :: Named(WithWindow(p, w).link, user)
  {
  }

  lemma ServerStepKeepsName(w: World, step: Step, c: ClientId, user: string)
    requires Inv(w) && Enabled(w, step) && ServerStep(w, step).Some? && c in w.peers && Named(w.peers[c].link, user)
    ensures c in Apply(w, step).peers && Named(Apply(w, step).peers[c].link, user)
  {
    var p := w.peers[c];
    MovesKeepName(p, user);
    ServerStepShape(w, step, c);
    if p.link.up.inbox != [] {
      MovesKeepName(Taken(p), user);
    }
    hide Named, Inv, Apply, Run.Apply, Told, Taken, NewlyPushed;
  }

  lemma HandledKeepsName(p: Peer, user: string)
    requires Named(p.link, user) && IsOpen(p) && p.link.down.inbox != []
    ensures Named(Handled(p).link, user)
  {
    MovesKeepName(p, user);
    MovesKeepName(PoppedDown(p), user);
    hide Named, ClientSpec.Handle, WithWindow;
  }

  lemma StepKeepsName(w: World, step: Step, c: ClientId, user: string)
    requires Inv(w) && Enabled(w, step) && c in w.peers && Named(w.peers[c].link, user)
    ensures c in Apply(w, step).peers && Named(Apply(w, step).peers[c].link, user)
  {
    hide Named, Inv, Apply, ClientSpec.Act, Handled, WithWindow, Links.Apply;
    if step.Arrive? || step.Take? || step.Serve? {
      ServerStepKeepsName(w, step, c, user);
    } else if step.c != c {
      OtherClient(w, step, c);
    } else {
      SameClient(w, step);
      var p := w.peers[c];
      match step
      case Work(_, work) =>
        WorkKeepsName(p.link, work, user);
      case Act(_, action) => MovesKeepName(p, user);
      case Handle(_) => HandledKeepsName(p, user);
    }
  }

  lemma {:induction false} NameStays(w: World, steps: seq<Step>, c: ClientId, user: string)
    requires Inv(w) && Legal(w, steps) && c in w.peers && Named(w.peers[c].link, user)
    ensures c in After(w, steps).peers && Named(After(w, steps).peers[c].link, user)
    decreases |steps|
  {
    hide Inv, Apply, Enabled, Named;
    if steps != [] {
      StepKeepsName(w, steps[0], c, user);
      StepKeeps(w, steps[0]);
      NameStays(Apply(w, steps[0]), steps[1..], c, user);
    }
  }

  lemma {:induction false} ArrivedNamed(w: World, steps: seq<Step>, arrival: Step)
    requires Inv(w) && Legal(w, steps) && arrival.Arrive? && arrival in steps
    ensures arrival.c in After(w, steps).peers && Named(After(w, steps).peers[arrival.c].link, arrival.user)
    decreases |steps|
  {
    hide Inv, Enabled, Named;
    StepKeeps(w, steps[0]);
    if steps[0] == arrival {
      ArrivingNamed(w, arrival);
      NameStays(Apply(w, arrival), steps[1..], arrival.c, arrival.user);
    } else {
      assert arrival in steps[1..];
      ArrivedNamed(Apply(w, steps[0]), steps[1..], arrival);
    }
  }

  lemma ArrivingNamed(w: World, arrival: Step)
    requires Enabled(w, arrival) && arrival.Arrive?
    ensures arrival.c in Apply(w, arrival).peers && Named(Apply(w, arrival).peers[arrival.c].link, arrival.user)
  {
    hide Run.Apply, ClientSpec.Clean;
  }

  /** Over all runs: a message is taken as one of the user its sender said it was when it connected. */
  lemma TakenAsNamed(rooms: seq<string>, steps: seq<Step>, arrival: Step, now: int)
    requires Legal(Started(rooms), steps) && arrival.Arrive? && arrival in steps
    requires var w := After(Started(rooms), steps);
             CanTake(w) && w.server.phase.clients[w.server.phase.at] == arrival.c
    ensures NextTake(After(Started(rooms), steps), now).user == arrival.user
  {
    StartKeeps(rooms);
    ArrivedNamed(Started(rooms), steps, arrival);
    hide Inv, Legal, After;
  }

  // ---- The line ----

  /** A line of a listed room goes to the end of its log, as it was sent. */
  lemma SaidIsLogged(s: Run.State, step: Run.Step, room: string, text: string)
    requires Run.Inv(s) && Run.Enabled(s, step) && step.Take? && step.m == ChatSend(room, text)
    requires Lists(s.server.rooms, room)
    ensures var s' := Run.Apply(s, step);
            && room in s.logs && room in s'.logs
            && |s'.logs[room]| == |s.logs[room]| + 1
            && var event := s'.logs[room][|s.logs[room]|];
               event.user == step.user && event.text == text && event.timestamp == step.now
  {
    assert Run.LogAgrees(s.server, s.logs, room);
    Delivery.TakeServer(s, step);
    hide Server.Process, Run.Apply, Run.RoomsAgree;
  }

  lemma {:induction false} ShownBounded(r: Replica, messages: seq<Message>, room: string)
    requires |Shown(r.history, room)| <= HISTORY_KEPT
    ensures |Shown(FollowAll(r, messages).history, room)| <= HISTORY_KEPT
  {
    if messages != [] {
      ShownBounded(r, messages[..|messages| - 1], room);
    }
  }

  /** The entry of a history that stands for the event at a position of the log, counted from the end. */
  lemma EntryFromEnd(shown: seq<WireEvent>, earlier: seq<WireEvent>, log: seq<RoomEvent>, from: int, to: int, at: int)
    requires 0 <= from <= at < to <= |log| && to - at <= HISTORY_KEPT
    requires shown == Last(earlier + Delivery.Stretch(log, from, to), HISTORY_KEPT)
    ensures 0 <= |shown| - (to - at) < |shown| && Carries(shown[|shown| - (to - at)], log[at])
  {
    var lines := Delivery.Stretch(log, from, to);
    assert |lines| == to - from && lines[at - from] == OnWire(log[at]);
    OnWireCarries(log[at]);
    hide Carries, OnWire, Delivery.Stretch;
    assert (earlier + lines)[|earlier| + at - from] == lines[at - from];
  }

  /** What the client is pushed between two states of the server, and what it then shows. */
  lemma ShowsSince(s1: Run.State, part: seq<Run.Step>, c: ClientId, room: string, start: Replica)
    requires Run.Inv(s1) && Run.Legal(s1, part) && Delivery.Lasts(s1, part, c, room) && Delivery.NeverAsks(s1, part, c, room)
    requires Delivery.JoinedIn(s1.server, c, room) && c in s1.pushed
    requires start.history == map[] && room in FollowAll(start, s1.pushed[c]).rooms
    ensures var s' := Run.Run(s1, part);
            && Delivery.Advances(s1, s', room) && c in s'.pushed
            && Shown(FollowAll(start, s'.pushed[c]).history, room) ==
               Last(Shown(FollowAll(start, s1.pushed[c]).history, room) +
                    Delivery.Stretch(s'.logs[room], Delivery.Delivered(s1, room), Delivery.Delivered(s', room)), HISTORY_KEPT)
  {
    var s' := Run.Run(s1, part);
    AllValid(s1.server.rooms, Find(s1.server.rooms, room));
    Delivery.JoinedHearsAll(s1, part, c, room);
    Delivery.RunLeavesShown(s1, part, c, room);
    hide Run.Inv, Run.Legal, Run.Run, Delivery.Lasts, Delivery.NeverAsks, Follow, KeepsListed, NoHistoryOf, Delivery.Stretch;
    var before, sent := s1.pushed[c], Delivery.Sent(s1, s', c);
    assert s'.pushed[c] == before + sent;
    ShownBounded(start, before, room);
    FollowAppend(start, before, sent);
    ShowsEchoes(FollowAll(start, before), sent, room);
  }

  /** The client is online, and its window and the server agree that it has joined the room, which is there. */
  ghost predicate Reads(w: World, c: ClientId, room: string) {
    && Online(w, c) && room in w.server.logs
    && Attends(w.peers[c], room) && Delivery.JoinedIn(w.server.server, c, room)
  }

  lemma AttendedIsListed(s: Run.State, c: ClientId, p: Peer, room: string)
    requires PeerInv(s, c, p) && p.link.phase.Open? && Attends(p, room)
    ensures c in s.pushed && room in FollowAll(Start(p), s.pushed[c]).rooms
  {
    FoldPending(s, c, p);
    ViewLists(p.window, room);
    hide Links.Pending, ClientSpec.IsJoined, Convergence.HasList, Joining.Untouched, FollowAll, ClientSpec.View, NoneAsked;
    Joining.StaysInList(ClientSpec.View(p.window), Links.Pending(p.link.down), room);
  }

  /** The server takes a line in a room that the client reads: it still does, and nothing was sent out yet. */
  lemma LineTaken(w: World, now: int, c: ClientId, room: string)
    requires Inv(w) && AllAskWell(w) && CanTake(w) && Reads(w, c, room)
    requires Online(Apply(w, Take(now)), c) && room in Apply(w, Take(now)).server.logs
    ensures var w1 := Apply(w, Take(now));
            && Inv(w1) && AllAskWell(w1) && Reads(w1, c, room) && Run.Inv(w1.server)
            && Delivery.Delivered(w1.server, room) == Delivery.Delivered(w.server, room)
            && Start(w1.peers[c]) == Start(w.peers[c])
            && room in FollowAll(Start(w.peers[c]), w1.server.pushed[c]).rooms
  {
    var w1 := Apply(w, Take(now));
    StepAttends(w, Take(now), c, room);
    StepKeeps(w, Take(now));
    StepAsks(w, Take(now));
    LiveWhileOnline(w, c);
    ServerInv(w);
    ServerInv(w1);
    KnownClient(w1, c);
    TakeKeepsLeftover(w, now, c);
    assert w1.server == Run.Apply(w.server, NextTake(w, now));
    hide Inv, AllAskWell, Apply, Attends, PeerInv, Run.Inv, Run.Apply, FollowAll, Joining.JoinInv, ClientSpec.View;
    Delivery.TakeHears(w.server, NextTake(w, now), c, room);
    AttendedIsListed(w1.server, c, w1.peers[c], room);
  }

  /** What the window shows once it has caught up, counted from the end of the log. */
  lemma ShowsTail(w: World, now: int, more: seq<Step>, c: ClientId, room: string) returns (earlier: seq<WireEvent>)
    requires Inv(w) && AllAskWell(w) && CanTake(w) && Reads(w, c, room)
    requires Legal(Apply(w, Take(now)), more) && StaysOn(Apply(w, Take(now)), more, c, room)
    requires var w' := After(Apply(w, Take(now)), more);
             Online(w', c) && Links.Pending(w'.peers[c].link.down) == []
    ensures var w1, w' := Apply(w, Take(now)), After(Apply(w, Take(now)), more);
            && Delivery.Advances(w1.server, w'.server, room)
            && Delivery.Delivered(w1.server, room) == Delivery.Delivered(w.server, room)
            && Shown(w'.peers[c].window.history, room) ==
               Last(earlier + Delivery.Stretch(w'.server.logs[room], Delivery.Delivered(w1.server, room),
                                               Delivery.Delivered(w'.server, room)), HISTORY_KEPT)
  {
    hide Inv, AllAskWell, Apply, Attends, StaysOn, Run.Inv, FollowAll, Legal, After, Links.Pending, Delivery.Stretch,
      Delivery.Advances, Delivery.Delivered, CanTake, Delivery.JoinedIn;
    var w1 := Apply(w, Take(now));
    OnlineNow(w1, more, c, room);
    LineTaken(w, now, c, room);
    EndsCaughtUp(w, now, more, c);
    var part := ServersPart(w1, more, c, room);
    var start := Start(w.peers[c]);
    ShowsSince(w1.server, part, c, room, start);
    earlier := Shown(FollowAll(start, w1.server.pushed[c]).history, room);
  }

  lemma LineShows(w: World, now: int, text: string, more: seq<Step>, c: ClientId, room: string)
    requires Inv(w) && AllAskWell(w) && CanTake(w) && Reads(w, c, room)
    requires w.peers[w.server.phase.clients[w.server.phase.at]].link.up.inbox[0] == ChatSend(room, text)
    requires Legal(Apply(w, Take(now)), more) && StaysOn(Apply(w, Take(now)), more, c, room)
    requires var w' := After(Apply(w, Take(now)), more);
             Online(w', c) && Links.Pending(w'.peers[c].link.down) == []
    ensures var w' := After(Apply(w, Take(now)), more);
            && room in w.server.logs && room in w'.server.logs
            && var shown, since := Shown(w'.peers[c].window.history, room),
                                   Delivery.Delivered(w'.server, room) - |w.server.logs[room]|;
               0 < since <= 999 ==>
                 && since <= |shown|
                 && Carries(shown[|shown| - since], RoomEvent(now, NextTake(w, now).user, text))
  {
    hide Inv, AllAskWell, Legal, After, Reads, StaysOn, Apply, Links.Pending, Run.Inv, Run.Apply, Delivery.Stretch, FollowAll,
      NextTake, Delivery.Delivered, Carries;
    var step, w1 := NextTake(w, now), Apply(w, Take(now));
    ServerInv(w);
    ReadsListed(w, c, room);
    LoggedLine(w, now, text, room);
    var earlier := ShowsTail(w, now, more, c, room);
    LineInTail(w.server, w1.server, After(w1, more).server, earlier, Shown(After(w1, more).peers[c].window.history, room), room);
  }

  lemma LoggedLine(w: World, now: int, text: string, room: string)
    requires CanTake(w) && Run.Inv(w.server) && Lists(w.server.server.rooms, room)
    requires w.peers[w.server.phase.clients[w.server.phase.at]].link.up.inbox[0] == ChatSend(room, text)
    ensures var s, s1 := w.server, Apply(w, Take(now)).server;
            && room in s.logs && room in s1.logs && |s1.logs[room]| == |s.logs[room]| + 1
            && s1.logs[room][|s.logs[room]|] == RoomEvent(now, NextTake(w, now).user, text)
  {
    SaidIsLogged(w.server, NextTake(w, now), room, text);
    hide Run.Apply;
  }

  /**
   Over all runs: the server takes a line that a client sent to a room, and another reads that room, or
   the same one does. While the room and the reader's connection last, and whenever its window has then
   handled everything under way, it shows the line: by the name that the sender gave when it connected,
   with the text that was sent. The line is as far from the end as in the log of what was distributed,
   as long as that is no further than 999 lines.
   */
  lemma LineIsShown(rooms: seq<string>, steps: seq<Step>, arrival: Step, text: string, now: int, more: seq<Step>,
                    c: ClientId, room: string)
    requires Legal(Started(rooms), steps) && arrival.Arrive? && arrival in steps
    requires var w := After(Started(rooms), steps);
             && CanTake(w) && w.server.phase.clients[w.server.phase.at] == arrival.c
             && w.peers[arrival.c].link.up.inbox[0] == ChatSend(room, text)
             && Reads(w, c, room)
    requires var w1 := Apply(After(Started(rooms), steps), Take(now));
             && Legal(w1, more) && StaysOn(w1, more, c, room)
             && Online(After(w1, more), c) && Links.Pending(After(w1, more).peers[c].link.down) == []
    ensures var w := After(Started(rooms), steps);
            var w' := After(Apply(w, Take(now)), more);
            && room in w.server.logs && room in w'.server.logs
            && var shown, since := Shown(w'.peers[c].window.history, room),
                                   Delivery.Delivered(w'.server, room) - |w.server.logs[room]|;
               0 < since <= 999 ==>
                 && since <= |shown|
                 && var entry := shown[|shown| - since];
                    entry.user == arrival.user && entry.text == text && (now - entry.timestamp) % 0x1_0000_0000 == 0
  {
    hide Inv, AllAskWell, Legal, After, Reads, StaysOn, Apply, Links.Pending, NextTake, Online, CanTake, Started,
      Delivery.Delivered;
    StartKeeps(rooms);
    RunKeeps(Started(rooms), steps);
    StartAsks(rooms);
    RunAsks(Started(rooms), steps);
    TakenAsNamed(rooms, steps, arrival, now);
    LineShows(After(Started(rooms), steps), now, text, more, c, room);
  }

  lemma ReadsListed(w: World, c: ClientId, room: string)
    requires Reads(w, c, room)
    ensures Lists(w.server.server.rooms, room)
  {
  }

  /** The last line logged in `s1` is where it should be among what is shown in `s'`. */
  lemma LineInTail(s: Run.State, s1: Run.State, s': Run.State, earlier: seq<WireEvent>, shown: seq<WireEvent>, room: string)
    requires room in s.logs && Delivery.Advances(s1, s', room) && |s1.logs[room]| == |s.logs[room]| + 1
    requires Delivery.Delivered(s1, room) == Delivery.Delivered(s, room)
    requires shown == Last(earlier + Delivery.Stretch(s'.logs[room], Delivery.Delivered(s1, room), Delivery.Delivered(s', room)),
                           HISTORY_KEPT)
    ensures var since := Delivery.Delivered(s', room) - |s.logs[room]|;
            0 < since <= 999 ==> since <= |shown| && Carries(shown[|shown| - since], s1.logs[room][|s.logs[room]|])
  {
    var at, to := |s.logs[room]|, Delivery.Delivered(s', room);
    if 0 < to - at <= 999 {
      EntryFromEnd(shown, earlier, s'.logs[room], Delivery.Delivered(s1, room), to, at);
    }
  }
}
