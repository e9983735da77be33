/**
 What a window asks of the server over a whole run: the room list once, and a room's history only
 directly behind its join.
 */
module Asking {
  import opened Collections
  import opened Messages
  import opened Worlds
  import opened Peers
  import Server = ServerSpec
  import Run = ServerRun
  import Links
  import ClientSpec
  import Convergence
  import Delivery

  ghost predicate NoList(messages: seq<Message>) {
    forall i :: 0 <= i < |messages| ==> !messages[i].RoomList?
  }

  ghost predicate OneList(messages: seq<Message>) {
    forall i, j :: 0 <= i < j < |messages| ==> !(messages[i].RoomList? && messages[j].RoomList?)
  }

  function HistoryRequest(room: string): Message {
    RoomHistory(room, ROOM_HISTORY_MAX_ENTRIES, [])
  }

  ghost predicate WellAskedAt(messages: seq<Message>, i: nat)
    requires i < |messages|
  {
    && (messages[i].RoomJoin? ==> i + 1 < |messages| && messages[i + 1] == HistoryRequest(messages[i].room))
    && (messages[i].RoomHistory? ==>
          && messages[i] == HistoryRequest(messages[i].room)
          && 0 < i && messages[i - 1] == RoomJoin(messages[i].room))
  }

  /**
   Every join is directly followed by the room's history request, and every history request follows
   one; there is nothing that the workers would absorb.
   */
  ghost predicate WellAsked(messages: seq<Message>) {
    AllApplication(messages) && forall i :: 0 <= i < |messages| ==> WellAskedAt(messages, i)
  }

  lemma RequestKeeps(sent: seq<Message>, sent': seq<Message>)
    requires NoList(sent) && WellAsked(sent) && ClientSpec.MayAsk(sent, sent')
    ensures NoList(sent') && WellAsked(sent')
  {
    forall i | 0 <= i < |sent'|
      ensures WellAskedAt(sent', i) && IsApplication(sent'[i])
    {
      assert i < |sent| ==> WellAskedAt(sent, i) && IsApplication(sent[i]);
    }
  }

  lemma PushKeeps(sent: seq<Message>, m: Message)
    requires NoList(sent) && WellAsked(sent) && (m.ChatSend? || m.RoomCreate? || m.RoomDestroy?)
    ensures NoList(sent + [m]) && WellAsked(sent + [m])
  {
    forall i | 0 <= i < |sent + [m]|
      ensures WellAskedAt(sent + [m], i) && IsApplication((sent + [m])[i])
    {
      assert i < |sent| ==> WellAskedAt(sent, i) && IsApplication(sent[i]);
    }
  }

  /** What an action may queue: the request of one room, or a message of the user's. */
  lemma ActQueues(w: ClientSpec.Window, action: ClientSpec.Action)
    ensures var sent := ClientSpec.Act(w, action).sent;
            || ClientSpec.MayAsk(w.sent, sent)
            || exists m :: sent == w.sent + [m] && (m.ChatSend? || m.RoomCreate? || m.RoomDestroy?)
  {
    hide ClientSpec.Handle, ClientSpec.JoinIfNeeded;
  }

  lemma ActKeeps(w: ClientSpec.Window, action: ClientSpec.Action)
    requires NoList(w.sent) && WellAsked(w.sent)
    ensures NoList(ClientSpec.Act(w, action).sent) && WellAsked(ClientSpec.Act(w, action).sent)
  {
    hide ClientSpec.Act, ClientSpec.MayAsk, NoList, WellAsked;
    ActQueues(w, action);
    var sent := ClientSpec.Act(w, action).sent;
    if ClientSpec.MayAsk(w.sent, sent) {
      RequestKeeps(w.sent, sent);
    } else {
      var m :| sent == w.sent + [m] && (m.ChatSend? || m.RoomCreate? || m.RoomDestroy?);
      PushKeeps(w.sent, m);
    }
  }

  // ---- Over runs of the whole system ----

  /** One list is asked for and pushed, and histories are asked for as they should. */
  ghost predicate AsksWell(s: Run.State, c: ClientId, p: Peer) {
    && NoList(p.window.sent) && WellAsked(p.window.sent)
    && c in s.pushed && OneList(s.pushed[c])
    && (Convergence.HasList(s.pushed[c]) ==> p.link.up.taken != [])
  }

  ghost predicate AllAskWell(w: World) {
    forall c :: c in w.peers ==> AsksWell(w.server, c, w.peers[c])
  }

  lemma {:induction false} ApplicationNoList(messages: seq<Message>)
    requires NoList(messages)
    ensures NoList(Application(messages))
  {
    if messages != [] {
      ApplicationNoList(messages[1..]);
    }
  }

  /** After the first message, no list request comes in. */
  lemma LaterIsNoList(s: Run.State, c: ClientId, p: Peer)
    requires PeerInv(s, c, p) && NoList(p.window.sent) && p.link.up.inbox != [] && p.link.up.taken != []
    ensures !p.link.up.inbox[0].RoomList?
  {
    var up := p.link.up;
    FirstTaken(p);
    Links.SinglesApplication();
    ApplicationAppend([RoomList([])], p.window.sent);
    ApplicationNoList(p.window.sent);
    assert up.taken + up.inbox <= Application(up.sent);
    var k := |up.taken|;
    assert (up.taken + up.inbox)[k] == up.inbox[0] == Application(up.sent)[k];
    assert Application(up.sent)[k] == Application(p.window.sent)[k - 1];
  }

  /** More is pushed, without a list. */
  lemma PushedKeeps(s: Run.State, s': Run.State, c: ClientId, p: Peer, p': Peer, more: seq<Message>)
    requires AsksWell(s, c, p) && NoList(more)
    requires c in s'.pushed && s'.pushed[c] == s.pushed[c] + more
    requires p'.window == p.window && (p.link.up.taken != [] ==> p'.link.up.taken != [])
    ensures AsksWell(s', c, p')
  {
    Convergence.ListFromBefore(s.pushed[c], more);
    hide WellAsked;
  }

  /** The one list is pushed. */
  lemma ListPushed(s: Run.State, s': Run.State, c: ClientId, p: Peer, p': Peer, more: seq<Message>)
    requires AsksWell(s, c, p) && p.link.up.taken == [] && |more| <= 1
    requires c in s'.pushed && s'.pushed[c] == s.pushed[c] + more
    requires p'.window == p.window && p'.link.up.taken != []
    ensures AsksWell(s', c, p')
  {
    hide WellAsked;
    ListOrNot(s.pushed[c]);
  }

  lemma ListOrNot(messages: seq<Message>)
    ensures Convergence.HasList(messages) || NoList(messages)
  {
  }

  lemma RepliesNoList(s: Server.Server, c: ClientId, user: string, now: int, m: Message)
    ensures |Server.Process(s, c, user, now, m).1| <= 1
    ensures !m.RoomList? ==> NoList(Server.Process(s, c, user, now, m).1)
  {
  }

  lemma OutputNoList(s: Server.Server, c: ClientId, inTick: bool, alive: bool)
    ensures NoList(Server.TickOutput(s, c, inTick, alive))
  {
    Delivery.OnlyEchoes(s.rooms, c);
  }

  /** Only its own list request makes the server push a list for a client. */
  lemma StepPushesNoList(s: Run.State, step: Run.Step, c: ClientId)
    requires Run.Enabled(s, step) && c in s.pushed
    requires !(step.Take? && c == s.phase.clients[s.phase.at] && step.m.RoomList?)
    ensures c in Run.Apply(s, step).pushed
    ensures NoList(NewlyPushed(s, Run.Apply(s, step), c))
    ensures Run.Apply(s, step).pushed[c] == s.pushed[c] + NewlyPushed(s, Run.Apply(s, step), c)
  {
    ServerPushes(s, step, c);
    SentIsSplit(s, Run.Apply(s, step), c);
    hide Server.Process, Server.TickOutput, Server.EndTick, NoList, AllApplication, Run.Logged;
    match step
    case Take(user, now, m) =>
      Delivery.TakeSends(s, step, c);
      RepliesNoList(s.server, s.phase.clients[s.phase.at], user, now, m);
      NothingIsNoList();
    case TickEnd =>
      var output := Server.TickOutput(s.server, c, c in s.phase.clients, c in s.live);
      assert Run.Apply(s, step).pushed[c] == s.pushed[c] + output;
      assert (s.pushed[c] + output)[|s.pushed[c]|..] == output;
      OutputNoList(s.server, c, c in s.phase.clients, c in s.live);
    case _ =>
      Delivery.SilentStepSends(s, step, c);
      NothingIsNoList();
  }

  lemma NothingIsNoList()
    ensures NoList([])
  {
  }

  lemma TakeAsks(w: World, now: int, c: ClientId)
    requires Inv(w) && AllAskWell(w) && CanTake(w) && c in w.peers
    ensures var w' := Apply(w, Take(now)); c in w'.peers && AsksWell(w'.server, c, w'.peers[c])
  {
    var step, c0, p := NextTake(w, now), w.server.phase.clients[w.server.phase.at], w.peers[c];
    var s, s' := w.server, Run.Apply(w.server, step);
    KnownClient(w, c);
    assert AsksWell(s, c, p) && c in s.pushed;
    hide Inv, AllAskWell, Run.Apply, AsksWell, PeerInv, AllApplication, Convergence.HasList;
    if c == c0 && step.m.RoomList? {
      SpeaksOnce(s, c, p);
      ServerPushes(s, step, c);
      SentIsSplit(s, s', c);
      Delivery.TakeSends(s, step, c);
      RepliesNoList(s.server, c, step.user, now, step.m);
      ListPushed(s, s', c, p, Told(Taken(p), NewlyPushed(s, s', c)), NewlyPushed(s, s', c));
    } else {
      StepPushesNoList(s, step, c);
      PushedKeeps(s, s', c, p, Told(if c == c0 then Taken(p) else p, NewlyPushed(s, s', c)), NewlyPushed(s, s', c));
    }
  }

  lemma SpeaksOnce(s: Run.State, c: ClientId, p: Peer)
    requires PeerInv(s, c, p) && AsksWell(s, c, p) && p.link.up.inbox != [] && p.link.up.inbox[0].RoomList?
    ensures p.link.up.taken == []
  {
    if p.link.up.taken != [] {
      LaterIsNoList(s, c, p);
    }
  }

  lemma ServeAsks(w: World, step: Run.Step, c: ClientId)
    requires Inv(w) && AllAskWell(w) && Enabled(w, Serve(step)) && c in w.peers
    ensures var w' := Apply(w, Serve(step)); c in w'.peers && AsksWell(w'.server, c, w'.peers[c])
  {
    var s, s', p := w.server, Run.Apply(w.server, step), w.peers[c];
    assert AsksWell(s, c, p) && c in s.pushed;
    hide Inv, AllAskWell, Run.Apply, AsksWell, NoList;
    StepPushesNoList(s, step, c);
    PushedKeeps(s, s', c, p, Told(p, NewlyPushed(s, s', c)), NewlyPushed(s, s', c));
  }

  lemma ArriveAsks(w: World, step: Step, c: ClientId)
    requires Inv(w) && AllAskWell(w) && step.Arrive? && Enabled(w, step) && c in Apply(w, step).peers
    ensures var w' := Apply(w, step); AsksWell(w'.server, c, w'.peers[c])
  {
    if c != step.c {
      assert AsksWell(w.server, c, w.peers[c]);
    }
    hide Inv, AllAskWell, ClientSpec.Clean;
  }

  lemma WorkAsks(s: Run.State, c: ClientId, p: Peer, work: Links.Step)
    requires PeerInv(s, c, p) && AsksWell(s, c, p) && IsWork(work) && Links.Enabled(p.link, work)
    ensures AsksWell(s, c, Worked(p, work))
  {
    WorkKeepsTraffic(p.link, work);
    hide WellAsked, NoList, OneList;
  }

  lemma ActAsks(s: Run.State, c: ClientId, p: Peer, action: ClientSpec.Action)
    requires AsksWell(s, c, p)
    ensures AsksWell(s, c, WithWindow(p, ClientSpec.Act(p.window, action)))
  {
    ActKeeps(p.window, action);
    hide WellAsked, NoList, OneList, ClientSpec.Act;
  }

  lemma HandleAsks(s: Run.State, c: ClientId, p: Peer)
    requires AsksWell(s, c, p) && p.link.down.inbox != []
    ensures AsksWell(s, c, Handled(p))
  {
    ActKeeps(p.window, ClientSpec.Receive(p.link.down.inbox[0]));
    hide WellAsked, NoList, OneList, ClientSpec.Handle;
  }

  lemma OneAsks(w: World, c: ClientId, p: Peer)
    requires AllAskWell(w) && AsksWell(w.server, c, p)
    ensures AllAskWell(w.(peers := w.peers[c := p]))
  {
    hide AsksWell;
  }

  lemma OwnStepAsks(w: World, step: Step)
    requires Inv(w) && AllAskWell(w) && Enabled(w, step) && (step.Work? || step.Act? || step.Handle?)
    ensures AllAskWell(Apply(w, step))
  {
    KnownClient(w, step.c);
    assert AsksWell(w.server, step.c, w.peers[step.c]);
    hide Inv, AllAskWell, AsksWell, PeerInv, Worked, WithWindow, Handled;
    match step
    case Work(c, work) =>
      WorkAsks(w.server, c, w.peers[c], work);
      OneAsks(w, c, Worked(w.peers[c], work));
    case Act(c, action) =>
      ActAsks(w.server, c, w.peers[c], action);
      OneAsks(w, c, WithWindow(w.peers[c], ClientSpec.Act(w.peers[c].window, action)));
    case Handle(c) =>
      HandleAsks(w.server, c, w.peers[c]);
      OneAsks(w, c, Handled(w.peers[c]));
  }

  lemma StepAsks(w: World, step: Step)
    requires Inv(w) && AllAskWell(w) && Enabled(w, step)
    ensures AllAskWell(Apply(w, step))
  {
    if step.Work? || step.Act? || step.Handle? {
      OwnStepAsks(w, step);
    } else {
      hide Inv, AsksWell, Enabled;
      forall c | c in Apply(w, step).peers
        ensures AsksWell(Apply(w, step).server, c, Apply(w, step).peers[c])
      {
        OthersAsk(w, step, c);
      }
    }
  }

  lemma OthersAsk(w: World, step: Step, c: ClientId)
    requires Inv(w) && AllAskWell(w) && Enabled(w, step) && (step.Arrive? || step.Take? || step.Serve?)
    requires c in Apply(w, step).peers
    ensures AsksWell(Apply(w, step).server, c, Apply(w, step).peers[c])
  {
    hide Inv, AllAskWell, AsksWell;
    match step
    case Arrive(_, _, _) => ArriveAsks(w, step, c);
    case Take(now) => TakeAsks(w, now, c);
    case Serve(s) => ServeAsks(w, s, c);
  }

  lemma {:induction false} RunAsks(w: World, steps: seq<Step>)
    requires Inv(w) && AllAskWell(w) && Legal(w, steps)
    ensures AllAskWell(After(w, steps))
    decreases |steps|
  {
    hide Inv, AllAskWell, Enabled;
    if steps != [] {
      StepKeeps(w, steps[0]);
      StepAsks(w, steps[0]);
      RunAsks(Apply(w, steps[0]), steps[1..]);
    }
  }

  lemma StartAsks(rooms: seq<string>)
    ensures AllAskWell(Started(rooms))
  {
  }
}
