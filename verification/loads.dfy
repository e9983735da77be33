/** How much there is left to do: a number for each message under way, by what handling it may cause. */
module Loads {
  import opened Collections
  import opened Messages
  import opened Rooms
  import Server = ServerSpec
  import Links

  /**
   What a message costs in the inbox of the server (`up`) or of the window, with `n` clients in all. It
   is more than what is queued because of it: a reply, a broadcast to every client, or a request.
   */
  function Cost(m: Message, up: bool, n: nat): nat {
    match m
    case Heartbeat => 2
    case RoomList(_) => if up then 17 else 13
    case RoomCreate(_) => if up then 16 * n + 2 else 13
    case RoomDestroy(_) => if up then 16 * n + 2 else 13
    case ChatSend(_, _) => 4 * n + 2
    case RoomHistory(_, _, _) => if up then 5 else 1
    case _ => 1
  }

  /** Each message costs a bit more the further it has to go. */
  function Sum(messages: seq<Message>, up: bool, n: nat, extra: nat): nat {
    if messages == [] then 0 else Cost(messages[0], up, n) + extra + Sum(messages[1..], up, n, extra)
  }

  lemma {:induction false} SumAppend(a: seq<Message>, b: seq<Message>, up: bool, n: nat, extra: nat)
    ensures Sum(a + b, up, n, extra) == Sum(a, up, n, extra) + Sum(b, up, n, extra)
  {
    if a == [] {
      assert a + b == b;
    } else {
      assert (a + b)[1..] == a[1..] + b;
      SumAppend(a[1..], b, up, n, extra);
    }
  }

  lemma {:induction false} SumExtra(messages: seq<Message>, up: bool, n: nat, extra: nat)
    ensures Sum(messages, up, n, extra) == Sum(messages, up, n, 0) + extra * |messages|
  {
    if messages != [] {
      SumExtra(messages[1..], up, n, extra);
    }
  }

  function WireLoad(wire: seq<seq<Message>>, up: bool, n: nat): nat {
    if wire == [] then 0 else 1 + Sum(wire[0], up, n, 1) + WireLoad(wire[1..], up, n)
  }

  lemma {:induction false} WireAppend(wire: seq<seq<Message>>, block: seq<Message>, up: bool, n: nat)
    ensures WireLoad(wire + [block], up, n) == WireLoad(wire, up, n) + 1 + Sum(block, up, n, 1)
  {
    if wire == [] {
      assert wire + [block] == [block] && [block][1..] == [];
    } else {
      assert (wire + [block])[1..] == wire[1..] + [block];
      WireAppend(wire[1..], block, up, n);
    }
  }

  function PipeLoad(p: Links.Pipe, up: bool, n: nat): nat {
    Sum(p.out, up, n, 3) + WireLoad(p.wire, up, n) + Sum(p.inbox, up, n, 0)
  }

  /** What a block leaves in the inbox, and the ACKs it is answered with, cost less than it did on the wire. */
  lemma {:induction false} ArrivalCost(block: seq<Message>, up: bool, n: nat)
    ensures Sum(Application(block), up, n, 0) + |block| + 2 * |Links.Acks(block)| <= Sum(block, up, n, 1)
    ensures |Links.Acks(block)| <= |block|
  {
    if block != [] {
      ArrivalCost(block[1..], up, n);
      if IsApplication(block[0]) {
        assert ([block[0]] + Application(block[1..]))[1..] == Application(block[1..]);
      }
      assert [] + Application(block[1..]) == Application(block[1..]) && [] + Links.Acks(block[1..]) == Links.Acks(block[1..]);
    }
  }

  lemma {:induction false} AcksCost(block: seq<Message>, up: bool, n: nat)
    ensures Sum(Links.Acks(block), up, n, 1) == 2 * |Links.Acks(block)|
  {
    if block != [] {
      AcksCost(block[1..], up, n);
      if block[0].Heartbeat? {
        assert ([Ack] + Links.Acks(block[1..]))[1..] == Links.Acks(block[1..]);
      }
      assert [] + Links.Acks(block[1..]) == Links.Acks(block[1..]);
    }
  }

  // ---- Connections ----

  lemma QueuedLoad(p: Links.Pipe, messages: seq<Message>, up: bool, n: nat)
    ensures PipeLoad(Links.Queued(p, messages), up, n) == PipeLoad(p, up, n) + Sum(messages, up, n, 3)
  {
    SumAppend(p.out, messages, up, n, 3);
  }

  lemma PoppedLoad(p: Links.Pipe, up: bool, n: nat)
    requires p.inbox != []
    ensures PipeLoad(Links.Popped(p), up, n) == PipeLoad(p, up, n) - Cost(p.inbox[0], up, n)
  {
  }

  lemma ArrivedLoad(p: Links.Pipe, up: bool, n: nat)
    requires p.wire != []
    ensures PipeLoad(Links.Arrived(p), up, n) + 1 + |p.wire[0]| + 2 * |Links.Acks(p.wire[0])| <= PipeLoad(p, up, n)
    ensures |Links.Acks(p.wire[0])| <= |p.wire[0]|
  {
    SumAppend(p.inbox, Application(p.wire[0]), up, n, 0);
    ArrivalCost(p.wire[0], up, n);
  }

  /** Sending what is queued, after some ACKs. */
  lemma FlushedLoad(p: Links.Pipe, own: seq<Message>, up: bool, n: nat)
    requires Sum(own, up, n, 1) == 2 * |own|
    ensures var block := own + p.out;
            PipeLoad(Links.Flushed(p, own), up, n) + 2 * |p.out| ==
            PipeLoad(p, up, n) + (if block == [] then 0 else 1 + 2 * |own|)
  {
    var block := own + p.out;
    if block == [] {
      assert own == [] && p.out == [];
    } else {
      WireAppend(p.wire, block, up, n);
      SumAppend(own, p.out, up, n, 1);
      SumExtra(p.out, up, n, 1);
      SumExtra(p.out, up, n, 3);
    }
  }

  /** A handshake that is not over costs the messages it still brings. */
  function LinkLoad(l: Links.Link, n: nat): nat {
    PipeLoad(l.up, true, n) + PipeLoad(l.down, false, n) +
    match l.phase case Greeting => 24 case Greeted => 20 case _ => 0
  }

  /** A turn of a worker that receives, answers and sends: it gets less, or nothing has changed. */
  lemma PumpLoad(p: Links.Pipe, other: Links.Pipe, receive: bool, up: bool, n: nat)
    requires receive ==> other.wire != []
    ensures var own := if receive then Links.Acks(other.wire[0]) else [];
            var p', other' := Links.Flushed(p, own), if receive then Links.Arrived(other) else other;
            || PipeLoad(p', up, n) + PipeLoad(other', !up, n) < PipeLoad(p, up, n) + PipeLoad(other, !up, n)
            || (p' == p && other' == other)
  {
    var own := if receive then Links.Acks(other.wire[0]) else [];
    if receive {
      AcksCost(other.wire[0], up, n);
      ArrivedLoad(other, !up, n);
    }
    FlushedLoad(p, own, up, n);
    assert [] + p.out == p.out;
  }

  /** The moves of a connection that nothing outside prompts; a heartbeat is prompted by the clock. */
  predicate IsLinkMove(work: Links.Step) {
    work.HelloArrives? || work.AckArrives? || (work.ClientPump? && !work.heartbeat) || work.ServerPump?
  }

  lemma HelloLoad(l: Links.Link, n: nat)
    requires l.phase.Greeting? && l.up.wire != []
    ensures LinkLoad(Links.TakeHello(l), n) < LinkLoad(l, n)
  {
    WireAppend(l.down.wire, [Ack], false, n);
    assert [Ack][1..] == [] && Sum([Ack], false, n, 1) == 2;
  }

  lemma AnswerLoad(l: Links.Link, n: nat)
    requires l.phase.Greeted? && l.down.wire != []
    ensures LinkLoad(Links.TakeAnswer(l), n) < LinkLoad(l, n)
  {
    WireAppend(l.up.wire, [RoomList([])], true, n);
    assert [RoomList([])][1..] == [] && Sum([RoomList([])], true, n, 1) == 18;
  }

  /** A move of a connection leaves less to do, or changes nothing. */
  lemma MoveLoad(l: Links.Link, work: Links.Step, n: nat)
    requires IsLinkMove(work) && Links.Enabled(l, work)
    ensures LinkLoad(Links.Apply(l, work), n) < LinkLoad(l, n) || Links.Apply(l, work) == l
  {
    match work
    case HelloArrives => HelloLoad(l, n);
    case AckArrives => AnswerLoad(l, n);
    case ClientPump(receive, _) =>
      PumpLoad(l.up, l.down, receive, true, n);
      OwnOnly(if receive then Links.Acks(l.down.wire[0]) else []);
    case ServerPump(receive) => PumpLoad(l.down, l.up, receive, false, n);
  }

  lemma OwnOnly(own: seq<Message>)
    ensures own + [] == own
  {
  }

  // ---- The server ----

  /** How many events wait to be distributed. */
  function EventCount(rooms: seq<Server.ServerRoom>): nat {
    if rooms == [] then 0 else EventCount(rooms[..|rooms| - 1]) + |rooms[|rooms| - 1].data.events|
  }

  lemma {:induction false} EventCountUpdate(rooms: seq<Server.ServerRoom>, i: nat, room: Server.ServerRoom)
    requires i < |rooms|
    ensures EventCount(rooms[i := room]) == EventCount(rooms) - |rooms[i].data.events| + |room.data.events|
  {
    var last := |rooms| - 1;
    if i == last {
      assert rooms[i := room][..last] == rooms[..last];
    } else {
      assert rooms[i := room][..last] == rooms[..last][i := room];
      EventCountUpdate(rooms[..last], i, room);
    }
  }

  /** What a tick's end will have to tell. */
  function ServerLoad(s: Server.Server, n: nat): nat {
    (16 * n + 1) * (|s.created| + |s.destroyed|) + (4 * n + 1) * EventCount(s.rooms)
  }

  lemma OneMoreTimes(a: nat, k: nat)
    ensures a * (k + 1) == a * k + a
  {
  }

  /** Only a line adds an event. */
  lemma ProcessEvents(s: Server.Server, c: ClientId, user: string, now: int, m: Message)
    ensures var s' := Server.Process(s, c, user, now, m).0;
            EventCount(s'.rooms) <= EventCount(s.rooms) + if m.ChatSend? then 1 else 0
  {
    match m
    case RoomCreate(room) =>
      if CanCreate(s.rooms, room) {
        assert Create(s.rooms, room, Server.ServerData([c], []))[..|s.rooms|] == s.rooms;
      }
    case RoomJoin(room) =>
      var i := Find(s.rooms, room);
      if i < |s.rooms| {
        EventCountUpdate(s.rooms, i, s.rooms[i].(data := Server.Join(s.rooms[i].data, c)));
      }
    case RoomDestroy(room) =>
      var i := Find(s.rooms, room);
      if i < |s.rooms| {
        EventCountUpdate(s.rooms, i, s.rooms[i].(doomed := true));
      }
    case ChatSend(room, text) =>
      var i := Find(s.rooms, room);
      if i < |s.rooms| {
        var data := s.rooms[i].data;
        EventCountUpdate(s.rooms, i, s.rooms[i].(data := data.(events := data.events + [RoomEvent(now, user, text)])));
      }
    case _ =>
  }

  lemma ProcessBroadcasts(s: Server.Server, c: ClientId, user: string, now: int, m: Message)
    ensures var s' := Server.Process(s, c, user, now, m).0;
            |s'.created| + |s'.destroyed| <= |s.created| + |s.destroyed| + if m.RoomCreate? || m.RoomDestroy? then 1 else 0
  {
  }

  lemma ReplyCost(s: Server.Server, c: ClientId, user: string, now: int, m: Message, n: nat)
    ensures Sum(Server.Process(s, c, user, now, m).1, false, n, 3) <=
            if m.RoomList? then 16 else if m.RoomHistory? then 4 else 0
  {
    var replies := Server.Process(s, c, user, now, m).1;
    if replies != [] {
      assert replies[1..] == [];
    }
  }

  lemma Monotone(a: nat, k: nat, k': nat)
    requires k' <= k
    ensures a * k' <= a * k
  {
  }

  /** Processing a message costs less than the message, with the reply and what is to be told later. */
  lemma ProcessLoad(s: Server.Server, c: ClientId, user: string, now: int, m: Message, n: nat)
    ensures var (s', replies) := Server.Process(s, c, user, now, m);
            ServerLoad(s', n) + Sum(replies, false, n, 3) < ServerLoad(s, n) + Cost(m, true, n)
  {
    ProcessEvents(s, c, user, now, m);
    ProcessBroadcasts(s, c, user, now, m);
    ReplyCost(s, c, user, now, m, n);
    hide Server.Process, EventCount, Sum;
    var s' := Server.Process(s, c, user, now, m).0;
    var k, k', e, e' := |s.created| + |s.destroyed|, |s'.created| + |s'.destroyed|, EventCount(s.rooms), EventCount(s'.rooms);
    OneMoreTimes(16 * n + 1, k);
    OneMoreTimes(4 * n + 1, e);
    Monotone(16 * n + 1, if m.RoomCreate? || m.RoomDestroy? then k + 1 else k, k');
    Monotone(4 * n + 1, if m.ChatSend? then e + 1 else e, e');
  }

  // ---- The end of a tick ----

  lemma {:induction false} BroadcastsCost(names: seq<string>, n: nat)
    ensures Sum(Server.Creates(names), false, n, 3) == 16 * |names|
    ensures Sum(Server.Destroys(names), false, n, 3) == 16 * |names|
  {
    if names != [] {
      BroadcastsCost(names[1..], n);
      assert Server.Creates(names)[1..] == Server.Creates(names[1..]);
      assert Server.Destroys(names)[1..] == Server.Destroys(names[1..]);
    }
  }

  lemma {:induction false} LinesCost(name: string, events: seq<RoomEvent>, n: nat)
    ensures Sum(Server.LinesOf(name, events), false, n, 3) == 4 * |events|
  {
    if events != [] {
      LinesCost(name, events[1..], n);
      assert Server.LinesOf(name, events)[1..] == Server.LinesOf(name, events[1..]);
    }
  }

  lemma {:induction false} EchoesCost(rooms: seq<Server.ServerRoom>, c: ClientId, n: nat)
    ensures Sum(Server.Echoes(rooms, c), false, n, 3) <= 4 * EventCount(rooms)
  {
    if rooms != [] {
      var last := rooms[|rooms| - 1];
      EchoesCost(rooms[..|rooms| - 1], c, n);
      LinesCost(last.name, last.data.events, n);
      SumAppend(Server.Echoes(rooms[..|rooms| - 1], c), if c in last.data.joined then Server.RoomEchoes(last) else [], false, n, 3);
    }
  }

  lemma OutputCost(s: Server.Server, c: ClientId, inTick: bool, alive: bool, n: nat)
    ensures Sum(Server.TickOutput(s, c, inTick, alive), false, n, 3) <=
            16 * (|s.created| + |s.destroyed|) + 4 * EventCount(s.rooms)
  {
    BroadcastsCost(s.created, n);
    BroadcastsCost(s.destroyed, n);
    EchoesCost(s.rooms, c, n);
    SumAppend(Server.Creates(s.created), Server.Destroys(s.destroyed), false, n, 3);
    hide Server.Echoes, EventCount, Server.Creates, Server.Destroys;
    SumAppend(if inTick then Server.Broadcasts(s) else [], if alive then Server.Echoes(s.rooms, c) else [], false, n, 3);
  }

  lemma {:induction false} SweepCount(rooms: seq<Server.ServerRoom>)
    requires forall i :: 0 <= i < |rooms| ==> rooms[i].data.events == []
    ensures EventCount(Sweep(rooms)) == 0
  {
    if rooms != [] {
      var earlier, last := rooms[..|rooms| - 1], rooms[|rooms| - 1];
      SweepCount(earlier);
      if last.doomed {
        assert Sweep(rooms) == Sweep(earlier);
      } else {
        assert Sweep(rooms)[..|Sweep(earlier)|] == Sweep(earlier);
      }
    }
  }

  lemma EndTickLoad(s: Server.Server, live: set<ClientId>, n: nat)
    ensures ServerLoad(Server.EndTick(s, live), n) == 0
  {
    SweepCount(Server.AllDistributed(s.rooms, live));
  }
}
