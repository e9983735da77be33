/**
 One client's connection: the queues at both ends, the blocks in transit, and the workers that move
 messages between them (src/server/workers/client-worker.cpp,
 src/client/workers/serverconnection-worker.cpp, src/shared/connection.cpp).
 */
module Links {
  import opened Collections
  import opened Messages

  // ---- One direction ----

  /** `sent` and `taken` are histories: what was ever queued at one end, and popped at the other. */
  datatype Pipe = Pipe(
    sent: seq<Message>,
    out: seq<Message>,
    wire: seq<seq<Message>>,
    inbox: seq<Message>,
    taken: seq<Message>)

  const EMPTY_PIPE := Pipe([], [], [], [], [])

  function Queued(p: Pipe, messages: seq<Message>): Pipe {
    p.(sent := p.sent + messages, out := p.out + messages)
  }

  /** Everything queued goes out in one block after the worker's own messages; no empty block is sent. */
  function Flushed(p: Pipe, own: seq<Message>): Pipe {
    var block := own + p.out;
    if block == [] then p else p.(out := [], wire := p.wire + [block])
  }

  /** A block arrives: what is not handled on the spot is queued. */
  function Arrived(p: Pipe): Pipe
    requires p.wire != []
  {
    p.(wire := p.wire[1..], inbox := p.inbox + Application(p.wire[0]))
  }

  function Popped(p: Pipe): Pipe
    requires p.inbox != []
  {
    p.(inbox := p.inbox[1..], taken := p.taken + [p.inbox[0]])
  }

  /** What is still to be popped at the far end. */
  function Pending(p: Pipe): seq<Message> {
    p.inbox + Application(Concat(p.wire)) + Application(p.out)
  }

  /** Nothing is lost, doubled or reordered. */
  ghost predicate Lossless(p: Pipe) {
    Application(p.sent) == p.taken + Pending(p)
  }

  lemma QueuedPending(p: Pipe, messages: seq<Message>)
    ensures Pending(Queued(p, messages)) == Pending(p) + Application(messages)
    ensures Lossless(p) ==> Lossless(Queued(p, messages))
  {
    ApplicationAppend(p.sent, messages);
    ApplicationAppend(p.out, messages);
    hide Application, Concat;
  }

  lemma FlushedPending(p: Pipe, own: seq<Message>)
    requires Application(own) == []
    ensures Pending(Flushed(p, own)) == Pending(p)
    ensures Lossless(p) ==> Lossless(Flushed(p, own))
  {
    var block := own + p.out;
    ConcatAppend(p.wire, [block]);
    ConcatSingle(block);
    ApplicationAppend(Concat(p.wire), block);
    ApplicationAppend(own, p.out);
  }

  lemma ArrivedPending(p: Pipe)
    requires p.wire != []
    ensures Pending(Arrived(p)) == Pending(p)
    ensures Lossless(p) ==> Lossless(Arrived(p))
  {
    ApplicationAppend(p.wire[0], Concat(p.wire[1..]));
  }

  lemma PoppedPending(p: Pipe)
    requires p.inbox != []
    ensures [p.inbox[0]] + Pending(Popped(p)) == Pending(p)
    ensures Lossless(p) ==> Lossless(Popped(p))
  {
    assert p.inbox == [p.inbox[0]] + p.inbox[1..];
  }

  // ---- Both directions ----

  /** Before HELLO arrives; before ACK arrives; both workers running; connection lost. */
  datatype Phase = Greeting | Greeted | Open | Closed

  /** `user`: the name the server knows the client by, once HELLO has arrived. */
  datatype Link = Link(phase: Phase, user: string, up: Pipe, down: Pipe)

  datatype Step =
    | HelloArrives
    | AckArrives
    | ClientPump(receive: bool, heartbeat: bool)
    | ServerPump(receive: bool)
    | ClientPush(messages: seq<Message>)
    | ClientPop
    | ServerPush(messages: seq<Message>)
    | ServerPop
    | Break

  /** The client has connected and sent its HELLO. */
  function Opened(user: string): Link {
    Link(Greeting, "", EMPTY_PIPE.(wire := [[Hello(user)]]), EMPTY_PIPE)
  }

  predicate IsHello(m: Message) {
    m.Hello?
  }

  predicate IsAnswer(m: Message) {
    m.Ack? || m.Nak?
  }

  /** The first message of a block that is waited for. */
  function FirstWanted(block: seq<Message>, wanted: Message -> bool): (found: Option<Message>)
    ensures found.Some? ==> wanted(found.value)
  {
    if block == [] then None else if wanted(block[0]) then Some(block[0]) else FirstWanted(block[1..], wanted)
  }

  /** One ACK for each HEARTBEAT. */
  function Acks(block: seq<Message>): seq<Message> {
    if block == [] then [] else (if block[0].Heartbeat? then [Ack] else []) + Acks(block[1..])
  }

  predicate Enabled(l: Link, step: Step) {
    match step
    case HelloArrives => l.phase.Greeting? && l.up.wire != []
    case AckArrives => l.phase.Greeted? && l.down.wire != []
    case ClientPump(receive, _) => l.phase.Open? && (receive ==> l.down.wire != [])
    case ServerPump(receive) => (l.phase.Greeted? || l.phase.Open?) && (receive ==> l.up.wire != [])
    case ClientPush(_) => l.phase.Open? || l.phase.Closed?
    case ClientPop => l.down.inbox != []
    case ServerPush(_) => true
    case ServerPop => l.up.inbox != []
    case Break => true
  }

  /** `wait_for` looks for one message, and throws away the rest of the block. */
  function TakeHello(l: Link): Link
    requires l.up.wire != []
  {
    var l1 := l.(up := l.up.(wire := l.up.wire[1..]));
    match FirstWanted(l.up.wire[0], IsHello)
    case None => l1
    case Some(m) => l1.(phase := Greeted, user := m.user, down := l1.down.(wire := l1.down.wire + [[Ack]]))
  }

  /** On ACK the client's worker starts, and asks for the room list before anything else. */
  function TakeAnswer(l: Link): Link
    requires l.down.wire != []
  {
    var l1 := l.(down := l.down.(wire := l.down.wire[1..]));
    match FirstWanted(l.down.wire[0], IsAnswer)
    case None => l1
    case Some(m) =>
      if m.Ack? then
        l1.(phase := Open, up := l1.up.(sent := l1.up.sent + [RoomList([])], wire := l1.up.wire + [[RoomList([])]]))
      else l1.(phase := Closed)
  }

  function Apply(l: Link, step: Step): Link
    requires Enabled(l, step)
  {
    match step
    case HelloArrives => TakeHello(l)
    case AckArrives => TakeAnswer(l)
    case ClientPump(receive, heartbeat) =>
      var acks := if receive then Acks(l.down.wire[0]) else [];
      l.(down := if receive then Arrived(l.down) else l.down,
         up := Flushed(l.up, acks + if heartbeat then [Heartbeat] else []))
    case ServerPump(receive) =>
      var acks := if receive then Acks(l.up.wire[0]) else [];
      l.(up := if receive then Arrived(l.up) else l.up, down := Flushed(l.down, acks))
    case ClientPush(messages) => l.(up := Queued(l.up, messages))
    case ClientPop => l.(down := Popped(l.down))
    case ServerPush(messages) => l.(down := Queued(l.down, messages))
    case ServerPop => l.(up := Popped(l.up))
    case Break => Link(Closed, l.user, l.up.(wire := []), l.down.(wire := []))
  }

  ghost predicate IsPrefix(p: Pipe) {
    p.taken + p.inbox <= Application(p.sent)
  }

  ghost predicate Inv(l: Link) {
    match l.phase
    case Greeting =>
      && (exists user :: l.up == EMPTY_PIPE.(wire := [[Hello(user)]]))
      && Lossless(l.down) && l.down.wire == [] && l.down.inbox == [] && l.down.taken == []
    case Greeted =>
      && l.up == EMPTY_PIPE
      && Lossless(l.down) && l.down.wire != [] && l.down.wire[0] == [Ack] && l.down.inbox == [] && l.down.taken == []
    case Open => Lossless(l.up) && Lossless(l.down) && |l.up.sent| > 0 && l.up.sent[0] == RoomList([])
    case Closed => IsPrefix(l.up) && IsPrefix(l.down)
  }

  lemma {:induction false} AcksAbsorbed(block: seq<Message>)
    ensures Application(Acks(block)) == [] && Application(Acks(block) + [Heartbeat]) == []
  {
    if block != [] {
      AcksAbsorbed(block[1..]);
      ApplicationAppend(if block[0].Heartbeat? then [Ack] else [], Acks(block[1..]));
    }
    ApplicationAppend(Acks(block), [Heartbeat]);
  }

  lemma LosslessIsPrefix(p: Pipe)
    requires Lossless(p)
    ensures IsPrefix(p)
  {
  }

  lemma QueuedPrefix(p: Pipe, messages: seq<Message>)
    requires IsPrefix(p)
    ensures IsPrefix(Queued(p, messages))
  {
    ApplicationAppend(p.sent, messages);
  }

  lemma PoppedPrefix(p: Pipe)
    requires IsPrefix(p) && p.inbox != []
    ensures IsPrefix(Popped(p))
  {
    assert p.taken + [p.inbox[0]] + p.inbox[1..] == p.taken + p.inbox;
  }

  lemma SinglesApplication()
    ensures Application([Ack]) == [] && Application([RoomList([])]) == [RoomList([])]
  {
  }

  /** HELLO travels alone, so nothing is thrown away with it; neither is anything behind the ACK. */
  lemma HelloKeeps(l: Link)
    requires Inv(l) && l.phase.Greeting?
    ensures l.up.wire != [] && Inv(TakeHello(l)) && TakeHello(l).phase.Greeted?
    ensures Pending(TakeHello(l).down) == Pending(l.down)
  {
    assert IsHello(l.up.wire[0][0]);
    assert [] + [[Ack]] == [[Ack]] && Concat<Message>([]) == [];
    ConcatSingle([Ack]);
    SinglesApplication();
  }

  lemma AckKeeps(l: Link)
    requires Inv(l) && l.phase.Greeted?
    ensures Inv(TakeAnswer(l)) && TakeAnswer(l).phase.Open?
    ensures Pending(TakeAnswer(l).down) == Pending(l.down)
    ensures Pending(TakeAnswer(l).up) == [RoomList([])] && TakeAnswer(l).up.taken == []
    ensures l.up.sent == [] && TakeAnswer(l).up.sent == [RoomList([])]
    ensures TakeAnswer(l).down.sent == l.down.sent && TakeAnswer(l).down.taken == l.down.taken
  {
    assert FirstWanted([Ack], IsAnswer) == Some(Ack);
    var rest := l.down.wire[1..];
    ApplicationAppend([Ack], Concat(rest));
    SinglesApplication();
    ConcatSingle([RoomList([])]);
    assert [] + [[RoomList([])]] == [[RoomList([])]];
  }

  /** Both workers only move messages along. */
  ghost predicate SameTraffic(l: Link, l': Link) {
    && l'.up.sent == l.up.sent && l'.up.taken == l.up.taken && Pending(l'.up) == Pending(l.up)
    && l'.down.sent == l.down.sent && l'.down.taken == l.down.taken && Pending(l'.down) == Pending(l.down)
  }

  lemma FlushedAfterArrived(p: Pipe, other: Pipe, receive: bool, own: seq<Message>)
    requires Lossless(p) && Lossless(other) && Application(own) == []
    requires receive ==> other.wire != []
    ensures var other' := if receive then Arrived(other) else other;
            && Lossless(other') && Pending(other') == Pending(other)
            && other'.sent == other.sent && other'.taken == other.taken
    ensures Lossless(Flushed(p, own)) && Pending(Flushed(p, own)) == Pending(p)
    ensures Flushed(p, own).sent == p.sent && Flushed(p, own).taken == p.taken && Flushed(p, own).inbox == p.inbox
  {
    FlushedPending(p, own);
    if receive {
      ArrivedPending(other);
    }
  }

  lemma ClientPumpKeeps(l: Link, receive: bool, heartbeat: bool)
    requires Inv(l) && Enabled(l, ClientPump(receive, heartbeat))
    ensures Inv(Apply(l, ClientPump(receive, heartbeat)))
    ensures SameTraffic(l, Apply(l, ClientPump(receive, heartbeat)))
  {
    hide Lossless, Pending, Arrived, Flushed;
    var acks := if receive then Acks(l.down.wire[0]) else [];
    var own := acks + if heartbeat then [Heartbeat] else [];
    if receive {
      AcksAbsorbed(l.down.wire[0]);
    }
    assert acks + [] == acks && [] + [Heartbeat] == [Heartbeat];
    FlushedAfterArrived(l.up, l.down, receive, own);
  }

  lemma ServerPumpKeeps(l: Link, receive: bool)
    requires Inv(l) && Enabled(l, ServerPump(receive)) && l.phase.Open?
    ensures Inv(Apply(l, ServerPump(receive))) && SameTraffic(l, Apply(l, ServerPump(receive)))
  {
    hide Lossless, Pending, Arrived, Flushed;
    if receive {
      AcksAbsorbed(l.up.wire[0]);
    }
    FlushedAfterArrived(l.down, l.up, receive, if receive then Acks(l.up.wire[0]) else []);
  }

  /** The server's worker may send before the client has seen the ACK; the ACK is still in front. */
  lemma EarlyPumpKeeps(l: Link, receive: bool)
    requires Inv(l) && Enabled(l, ServerPump(receive)) && l.phase.Greeted?
    ensures Inv(Apply(l, ServerPump(receive))) && SameTraffic(l, Apply(l, ServerPump(receive)))
  {
    FlushedPending(l.down, []);
  }

  lemma PushKeeps(l: Link, step: Step)
    requires Inv(l) && Enabled(l, step) && (step.ClientPush? || step.ServerPush?)
    ensures Inv(Apply(l, step))
  {
    hide Lossless, Pending, IsPrefix;
    match step
    case ClientPush(messages) =>
      QueuedPending(l.up, messages);
      if l.phase.Closed? {
        QueuedPrefix(l.up, messages);
      }
    case ServerPush(messages) =>
      QueuedPending(l.down, messages);
      if l.phase.Closed? {
        QueuedPrefix(l.down, messages);
      }
  }

  lemma PopKeeps(l: Link, step: Step)
    requires Inv(l) && Enabled(l, step) && (step.ClientPop? || step.ServerPop?)
    ensures Inv(Apply(l, step))
  {
    hide Lossless, Pending, IsPrefix;
    match step
    case ClientPop =>
      PoppedPending(l.down);
      if l.phase.Closed? {
        PoppedPrefix(l.down);
      }
    case ServerPop =>
      PoppedPending(l.up);
      if l.phase.Closed? {
        PoppedPrefix(l.up);
      }
  }

  lemma BreakKeeps(l: Link)
    requires Inv(l)
    ensures Inv(Apply(l, Break))
  {
    if !l.phase.Closed? {
      LosslessIsPrefix(l.down);
    }
    if l.phase.Open? {
      LosslessIsPrefix(l.up);
    }
  }

  lemma StepKeeps(l: Link, step: Step)
    requires Inv(l) && Enabled(l, step)
    ensures Inv(Apply(l, step))
  {
    hide Inv, Apply;
    match step
    case HelloArrives => HelloArrivesKeeps(l);
    case AckArrives => AckArrivesKeeps(l);
    case ClientPump(receive, heartbeat) => ClientPumpKeeps(l, receive, heartbeat);
    case ServerPump(receive) =>
      if l.phase.Open? {
        ServerPumpKeeps(l, receive);
      } else {
        EarlyPumpKeeps(l, receive);
      }
    case ClientPop => PopKeeps(l, step);
    case ServerPop => PopKeeps(l, step);
    case Break => BreakKeeps(l);
    case _ => PushKeeps(l, step);
  }

  lemma HelloArrivesKeeps(l: Link)
    requires Inv(l) && Enabled(l, HelloArrives)
    ensures Inv(Apply(l, HelloArrives))
  {
    HelloKeeps(l);
  }

  lemma AckArrivesKeeps(l: Link)
    requires Inv(l) && Enabled(l, AckArrives)
    ensures Inv(Apply(l, AckArrives))
  {
    AckKeeps(l);
  }

  // ---- Runs ----

  predicate Legal(l: Link, steps: seq<Step>)
    decreases |steps|
  {
    steps == [] || (Enabled(l, steps[0]) && Legal(Apply(l, steps[0]), steps[1..]))
  }

  function Run(l: Link, steps: seq<Step>): Link
    requires Legal(l, steps)
    decreases |steps|
  {
    if steps == [] then l else Run(Apply(l, steps[0]), steps[1..])
  }

  lemma {:induction false} RunKeeps(l: Link, steps: seq<Step>)
    requires Inv(l) && Legal(l, steps)
    ensures Inv(Run(l, steps))
    decreases |steps|
  {
    if steps != [] {
      StepKeeps(l, steps[0]);
      RunKeeps(Apply(l, steps[0]), steps[1..]);
    }
  }

  /** However a connection runs: what is popped at one end is a prefix of what was queued at the other. */
  lemma TakenIsPrefix(user: string, steps: seq<Step>)
    requires Legal(Opened(user), steps)
    ensures var l := Run(Opened(user), steps);
            && l.down.taken <= Application(l.down.sent)
            && l.up.taken <= Application(l.up.sent)
            && (l.phase.Open? ==> Application(l.up.sent) == l.up.taken + Pending(l.up) &&
                                  Application(l.down.sent) == l.down.taken + Pending(l.down))
  {
    RunKeeps(Opened(user), steps);
  }
}
