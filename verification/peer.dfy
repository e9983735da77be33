/** One client seen from both ends: its connection and its window, and what they have to do with the server's record. */
module Peers {
  import opened Collections
  import opened Messages
  import opened Rooms
  import opened Replicas
  import Run = ServerRun
  import Links
  import ClientSpec
  import Selection
  import Convergence

  /** `leftover`: the rooms that were still there from an earlier connection when the window opened. */
  datatype Peer = Peer(link: Links.Link, window: ClientSpec.Window, leftover: seq<ClientSpec.ClientRoom>)

  function Arriving(user: string, leftover: seq<ClientSpec.ClientRoom>): Peer {
    Peer(Links.Opened(user), ClientSpec.Opened(leftover), leftover)
  }

  /** What the window followed from. */
  function Start(p: Peer): Replica {
    ClientSpec.View(ClientSpec.Opened(p.leftover))
  }

  /** The server pushes messages for this client. */
  function Told(p: Peer, messages: seq<Message>): Peer {
    p.(link := p.link.(down := Links.Queued(p.link.down, messages)))
  }

  /** The server pops a message of this client. */
  function Taken(p: Peer): Peer
    requires p.link.up.inbox != []
  {
    p.(link := p.link.(up := Links.Popped(p.link.up)))
  }

  /** One of the two workers of the connection moves messages along. */
  function Worked(p: Peer, step: Links.Step): Peer
    requires Links.Enabled(p.link, step)
  {
    p.(link := Links.Apply(p.link, step))
  }

  /** The window changes, and what it queues goes to the connection. */
  function WithWindow(p: Peer, window: ClientSpec.Window): Peer
    requires p.window.sent <= window.sent
  {
    p.(link := p.link.(up := Links.Queued(p.link.up, window.sent[|p.window.sent|..])), window := window)
  }

  /** The window was opened: the client's worker runs. */
  predicate IsOpen(p: Peer) {
    p.link.up.sent != []
  }

  ghost predicate AllApplication(messages: seq<Message>) {
    forall i :: 0 <= i < |messages| ==> IsApplication(messages[i])
  }

  lemma {:induction false} AllOfApplication(messages: seq<Message>)
    requires AllApplication(messages)
    ensures Application(messages) == messages
  {
    if messages != [] {
      AllOfApplication(messages[1..]);
    }
  }

  /** What was queued for the server is the room list request, then everything the window queued. */
  ghost predicate UpstreamAgrees(p: Peer) {
    if IsOpen(p) then p.link.up.sent == [RoomList([])] + p.window.sent else p.window == ClientSpec.Opened(p.leftover)
  }

  /** What was queued for the client is what the server pushed, and the window follows what was popped. */
  ghost predicate DownstreamAgrees(s: Run.State, c: ClientId, p: Peer) {
    && c in s.pushed && p.link.down.sent == s.pushed[c] && AllApplication(s.pushed[c])
    && ClientSpec.View(p.window) == FollowAll(Start(p), p.link.down.taken)
  }

  /** The first message the server takes is the room list request, and it is answered. */
  ghost predicate ListFirst(s: Run.State, c: ClientId, p: Peer) {
    c in s.pushed && p.link.up.taken != [] ==> Convergence.HasList(s.pushed[c])
  }

  /** The window agrees with itself once it was given a room list. */
  ghost predicate WindowAgrees(taken: seq<Message>, w: ClientSpec.Window) {
    ClientSpec.Clean(w.rooms) && (Convergence.HasList(taken) ==> Selection.Settled(w))
  }

  ghost predicate PeerInv(s: Run.State, c: ClientId, p: Peer) {
    && Links.Inv(p.link)
    && UpstreamAgrees(p)
    && DownstreamAgrees(s, c, p)
    && WindowAgrees(p.link.down.taken, p.window)
    && ListFirst(s, c, p)
  }

  lemma ArrivingKeeps(s: Run.State, c: ClientId, user: string, leftover: seq<ClientSpec.ClientRoom>)
    requires c in s.pushed && s.pushed[c] == [] && ClientSpec.Clean(leftover)
    ensures PeerInv(s, c, Arriving(user, leftover))
  {
    assert Links.EMPTY_PIPE.(wire := [[Hello(user)]]) == Arriving(user, leftover).link.up;
    hide ClientSpec.Clean, Selection.Settled;
    assert Links.Lossless(Links.EMPTY_PIPE);
  }

  /** More was pushed for the client, and nothing else of it changed. */
  lemma ToldKeeps(s: Run.State, s': Run.State, c: ClientId, p: Peer, messages: seq<Message>)
    requires PeerInv(s, c, p)
    requires c in s'.pushed && s'.pushed[c] == s.pushed[c] + messages && AllApplication(messages)
    ensures PeerInv(s', c, Told(p, messages))
  {
    hide Links.Inv, WindowAgrees, FollowAll, ClientSpec.View;
    Links.StepKeeps(p.link, Links.ServerPush(messages));
    if p.link.up.taken != [] {
      ListStays(s.pushed[c], messages);
    }
  }

  lemma ListStays(a: seq<Message>, b: seq<Message>)
    requires Convergence.HasList(a)
    ensures Convergence.HasList(a + b)
  {
    var i :| 0 <= i < |a| && a[i].RoomList?;
    assert (a + b)[i].RoomList?;
  }

  lemma FirstTaken(p: Peer)
    requires Links.Inv(p.link) && UpstreamAgrees(p) && p.link.up.inbox != []
    ensures IsOpen(p) && (p.link.up.taken == [] ==> p.link.up.inbox[0] == RoomList([]))
  {
    var up := p.link.up;
    assert up.taken + up.inbox <= Application(up.sent);
    if IsOpen(p) {
      Links.SinglesApplication();
      ApplicationAppend([RoomList([])], p.window.sent);
      assert Application(up.sent)[0] == RoomList([]);
    }
  }

  /** The server took this client's next message, and pushed its replies. */
  lemma TakenKeeps(s: Run.State, s': Run.State, c: ClientId, p: Peer, replies: seq<Message>)
    requires PeerInv(s, c, p) && p.link.up.inbox != []
    requires c in s'.pushed && s'.pushed[c] == s.pushed[c] + replies && AllApplication(replies)
    requires p.link.up.inbox[0].RoomList? ==> Convergence.HasList(replies)
    ensures PeerInv(s', c, Told(Taken(p), replies))
  {
    FirstTaken(p);
    hide Links.Inv, WindowAgrees, FollowAll, ClientSpec.View;
    Links.StepKeeps(p.link, Links.ServerPop);
    Links.StepKeeps(Taken(p).link, Links.ServerPush(replies));
    if p.link.up.taken != [] {
      ListStays(s.pushed[c], replies);
    } else {
      ListAdded(s.pushed[c], replies);
    }
  }

  lemma ListAdded(a: seq<Message>, b: seq<Message>)
    requires Convergence.HasList(b)
    ensures Convergence.HasList(a + b)
  {
    var i :| 0 <= i < |b| && b[i].RoomList?;
    assert (a + b)[|a| + i].RoomList?;
  }

  predicate IsWork(step: Links.Step) {
    step.HelloArrives? || step.AckArrives? || step.ClientPump? || step.ServerPump? || step.Break?
  }

  lemma WorkedKeeps(s: Run.State, c: ClientId, p: Peer, step: Links.Step)
    requires PeerInv(s, c, p) && IsWork(step) && Links.Enabled(p.link, step)
    ensures PeerInv(s, c, Worked(p, step))
  {
    hide WindowAgrees, FollowAll, ClientSpec.View, Convergence.HasList;
    Links.StepKeeps(p.link, step);
    WorkKeepsTraffic(p.link, step);
  }

  /** Work changes what was queued only by the first room list request. */
  lemma WorkKeepsTraffic(l: Links.Link, step: Links.Step)
    requires Links.Inv(l) && IsWork(step) && Links.Enabled(l, step)
    ensures var l' := Links.Apply(l, step);
            && l'.down.sent == l.down.sent && l'.down.taken == l.down.taken && l'.up.taken == l.up.taken
            && l'.up.sent == (if step.AckArrives? then [RoomList([])] else l.up.sent)
            && (step.AckArrives? ==> l.up.sent == [])
  {
    match step
    case HelloArrives =>
    case AckArrives => Links.AckKeeps(l);
    case ClientPump(receive, heartbeat) => Links.ClientPumpKeeps(l, receive, heartbeat);
    case ServerPump(receive) => PumpKeepsTraffic(l, receive);
    case Break =>
  }

  lemma PumpKeepsTraffic(l: Links.Link, receive: bool)
    requires Links.Inv(l) && Links.Enabled(l, Links.ServerPump(receive))
    ensures Links.SameTraffic(l, Links.Apply(l, Links.ServerPump(receive)))
  {
    if l.phase.Open? {
      Links.ServerPumpKeeps(l, receive);
    } else {
      Links.EarlyPumpKeeps(l, receive);
    }
  }

  /** All of the invariant but what the window shows. */
  ghost predicate ConnectionInv(s: Run.State, c: ClientId, p: Peer) {
    && Links.Inv(p.link) && UpstreamAgrees(p) && ListFirst(s, c, p)
    && c in s.pushed && p.link.down.sent == s.pushed[c] && AllApplication(s.pushed[c])
  }

  lemma WithWindowKeeps(s: Run.State, c: ClientId, p: Peer, w: ClientSpec.Window)
    requires ConnectionInv(s, c, p) && IsOpen(p)
    requires p.window.sent <= w.sent
    requires WindowAgrees(p.link.down.taken, w) && ClientSpec.View(w) == FollowAll(Start(p), p.link.down.taken)
    ensures PeerInv(s, c, WithWindow(p, w))
  {
    hide Links.IsPrefix, Links.Lossless, WindowAgrees, FollowAll, ClientSpec.View, Convergence.HasList;
    var queued := w.sent[|p.window.sent|..];
    Links.StepKeeps(p.link, Links.ClientPush(queued));
    assert [RoomList([])] + p.window.sent + queued == [RoomList([])] + w.sent;
  }

  /** The user did something. */
  lemma ActedKeeps(s: Run.State, c: ClientId, p: Peer, action: ClientSpec.Action)
    requires PeerInv(s, c, p) && IsOpen(p) && !action.Receive? && ClientSpec.Possible(p.window, action)
    ensures PeerInv(s, c, WithWindow(p, ClientSpec.Act(p.window, action)))
  {
    var w := ClientSpec.Act(p.window, action);
    ActAgrees(p.link.down.taken, p.window, action);
    ClientSpec.UserKeepsView(p.window, action);
    hide Links.Inv, FollowAll, ClientSpec.View, ClientSpec.Act, Convergence.HasList, WindowAgrees, Start;
    WithWindowKeeps(s, c, p, w);
  }

  lemma ActAgrees(taken: seq<Message>, w: ClientSpec.Window, action: ClientSpec.Action)
    requires WindowAgrees(taken, w) && !action.Receive? && ClientSpec.Possible(w, action)
    ensures WindowAgrees(taken, ClientSpec.Act(w, action))
  {
    Selection.ActClean(w, action);
    if Convergence.HasList(taken) {
      Selection.ActSettles(w, action);
    }
  }

  /** A list settles the window; any other message keeps it settled if it was. */
  lemma HandleAgrees(taken: seq<Message>, w: ClientSpec.Window, m: Message)
    requires WindowAgrees(taken, w)
    ensures WindowAgrees(taken + [m], ClientSpec.Handle(w, m))
  {
    ClientSpec.HandleFollows(w, m);
    hide ClientSpec.Handle, ClientSpec.Clean, ClientSpec.View;
    if m.RoomList? {
      Selection.ListSettles(w, m.names);
    } else {
      Convergence.ListFromBefore(taken, [m]);
      if Convergence.HasList(taken) {
        Selection.HandleSettles(w, m);
      }
    }
  }

  /** The window's next message. */
  function Handled(p: Peer): Peer
    requires p.link.down.inbox != []
  {
    WithWindow(PoppedDown(p), ClientSpec.Handle(p.window, p.link.down.inbox[0]))
  }

  function PoppedDown(p: Peer): Peer
    requires p.link.down.inbox != []
  {
    p.(link := p.link.(down := Links.Popped(p.link.down)))
  }

  lemma PoppedDownKeeps(s: Run.State, c: ClientId, p: Peer)
    requires PeerInv(s, c, p) && p.link.down.inbox != []
    ensures ConnectionInv(s, c, PoppedDown(p))
  {
    hide Links.Inv, WindowAgrees, FollowAll, ClientSpec.View, Convergence.HasList;
    Links.StepKeeps(p.link, Links.ClientPop);
  }

  /** The window popped and handled its next message. */
  lemma HandledKeeps(s: Run.State, c: ClientId, p: Peer)
    requires PeerInv(s, c, p) && IsOpen(p) && p.link.down.inbox != []
    ensures PeerInv(s, c, Handled(p))
  {
    var m := p.link.down.inbox[0];
    var taken := p.link.down.taken;
    PoppedDownKeeps(s, c, p);
    HandleAgrees(taken, p.window, m);
    ClientSpec.HandleFollows(p.window, m);
    FollowAppend(Start(p), taken, [m]);
    FollowOne(FollowAll(Start(p), taken), m);
    hide Links.Inv, FollowAll, ClientSpec.View, ClientSpec.Handle, Convergence.HasList, Follow, ConnectionInv, WindowAgrees, Start;
    WithWindowKeeps(s, c, PoppedDown(p), ClientSpec.Handle(p.window, m));
  }

  lemma FollowOne(r: Replica, m: Message)
    ensures FollowAll(r, [m]) == Follow(r, m)
  {
    assert [m][..0] == [];
  }

  /** What a client will show once it has handled everything under way is what all that was pushed makes. */
  lemma FoldPending(s: Run.State, c: ClientId, p: Peer)
    requires PeerInv(s, c, p) && p.link.phase.Open?
    ensures FollowAll(ClientSpec.View(p.window), Links.Pending(p.link.down)) == FollowAll(Start(p), s.pushed[c])
  {
    AllOfApplication(s.pushed[c]);
    FollowAppend(Start(p), p.link.down.taken, Links.Pending(p.link.down));
  }
}
