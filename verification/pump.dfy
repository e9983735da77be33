/**
 The two workers of a connection as they run: waiting in the handshake, moving messages between
 queues and blocks, and the client's heartbeat.
 */
module Pumps {
  import opened Collections
  import opened Messages
  import opened Links

  // ---- Waiting for a message ----

  /** One attempt to receive: a block or nothing, and the time that has passed when it was made. */
  datatype Poll = Poll(block: Option<seq<Message>>, elapsed: int)

  function Wanted(poll: Poll, wanted: Message -> bool): Option<Message> {
    match poll.block case None => None case Some(block) => FirstWanted(block, wanted)
  }

  /**
   `wait_for`, `wait_for_ack_or_nak`: polls until a block holds a wanted message or the time is up.
   All other messages of the blocks it used are gone.
   */
  method WaitFor(polls: seq<Poll>, wanted: Message -> bool, timeout: int) returns (found: Option<Message>, used: nat)
    requires polls != [] && polls[|polls| - 1].elapsed >= timeout
    ensures 0 < used <= |polls| && found == Wanted(polls[used - 1], wanted)
    ensures forall i :: 0 <= i < used - 1 ==> Wanted(polls[i], wanted).None? && polls[i].elapsed < timeout
    ensures found.None? ==> polls[used - 1].elapsed >= timeout
  {
    used := 0;
    while true
      invariant used < |polls|
      invariant forall i :: 0 <= i < used ==> Wanted(polls[i], wanted).None? && polls[i].elapsed < timeout
      decreases |polls| - used
    {
      var poll := polls[used];
      used := used + 1;
      if poll.block.Some? {
        found := SearchBlock(poll.block.value, wanted);
        if found.Some? {
          return;
        }
      }
      if poll.elapsed >= timeout {
        return None, used;
      }
    }
  }

  method SearchBlock(block: seq<Message>, wanted: Message -> bool) returns (found: Option<Message>)
    ensures found == FirstWanted(block, wanted)
  {
    for i := 0 to |block|
      invariant FirstWanted(block, wanted) == FirstWanted(block[i..], wanted)
    {
      assert block[i..][1..] == block[i + 1..];
      if wanted(block[i]) {
        return Some(block[i]);
      }
    }
    found := None;
  }

  /** What is found in a block is wanted and nothing before it is, and nothing is found if nothing is wanted. */
  lemma {:induction false} FoundIsFirst(block: seq<Message>, wanted: Message -> bool)
    ensures FirstWanted(block, wanted).None? <==> forall i :: 0 <= i < |block| ==> !wanted(block[i])
    ensures FirstWanted(block, wanted).Some? ==>
              exists k :: 0 <= k < |block| && block[k] == FirstWanted(block, wanted).value && wanted(block[k]) &&
                forall j :: 0 <= j < k ==> !wanted(block[j])
  {
    if block != [] {
      if wanted(block[0]) {
        assert block[0] == FirstWanted(block, wanted).value;
      } else {
        var rest := block[1..];
        FoundIsFirst(rest, wanted);
        assert forall i :: 0 < i < |block| ==> block[i] == rest[i - 1];
        if FirstWanted(rest, wanted).Some? {
          var k :| 0 <= k < |rest| && rest[k] == FirstWanted(block, wanted).value && wanted(rest[k]) &&
            forall j :: 0 <= j < k ==> !wanted(rest[j]);
          assert block[k + 1] == rest[k];
        } else {
          forall i | 0 <= i < |block|
            ensures !wanted(block[i])
          {
            if i > 0 {
              assert block[i] == rest[i - 1];
            }
          }
        }
      }
    }
  }

  /** What a wait finds is the first wanted message of everything that arrived. */
  lemma {:induction false} FirstOfAll(blocks: seq<seq<Message>>, last: seq<Message>, wanted: Message -> bool)
    requires forall i :: 0 <= i < |blocks| ==> FirstWanted(blocks[i], wanted).None?
    ensures FirstWanted(Concat(blocks) + last, wanted) == FirstWanted(last, wanted)
  {
    if blocks == [] {
      assert Concat(blocks) + last == last;
    } else {
      FirstOfAll(blocks[1..], last, wanted);
      SkipsUnwanted(blocks[0], Concat(blocks[1..]) + last, wanted);
      assert Concat(blocks) + last == blocks[0] + (Concat(blocks[1..]) + last);
    }
  }

  lemma {:induction false} SkipsUnwanted(a: seq<Message>, b: seq<Message>, wanted: Message -> bool)
    requires FirstWanted(a, wanted).None?
    ensures FirstWanted(a + b, wanted) == FirstWanted(b, wanted)
  {
    if a == [] {
      assert a + b == b;
    } else {
      assert (a + b)[1..] == a[1..] + b;
      SkipsUnwanted(a[1..], b, wanted);
    }
  }

  // ---- Moving messages ----

  /** A received block: what goes to the queue, and what is answered at once. */
  method Unpack(block: seq<Message>) returns (queued: seq<Message>, answers: seq<Message>)
    ensures queued == Application(block) && answers == Acks(block)
  {
    hide Application, Acks;
    queued, answers := [], [];
    assert block[0..] == block;
    for i := 0 to |block|
      invariant queued + Application(block[i..]) == Application(block)
      invariant answers + Acks(block[i..]) == Acks(block)
    {
      NextOf(block, i);
      if block[i].Heartbeat? {
        answers := answers + [Ack];
      } else if IsApplication(block[i]) {
        queued := queued + [block[i]];
      }
    }
    NothingLeft();
    assert block[|block|..] == [];
  }

  lemma NothingLeft()
    ensures Application([]) == [] && Acks([]) == []
  {
  }

  lemma NextOf(block: seq<Message>, i: nat)
    requires i < |block|
    ensures Application(block[i..]) == (if IsApplication(block[i]) then [block[i]] else []) + Application(block[i + 1..])
    ensures Acks(block[i..]) == (if block[i].Heartbeat? then [Ack] else []) + Acks(block[i + 1..])
  {
    assert block[i..][1..] == block[i + 1..];
  }

  /** Every heartbeat is acknowledged once, and each other message that is not about the connection is queued once. */
  lemma AnsweredOrQueued(block: seq<Message>, m: Message)
    ensures |Acks(block)| == multiset(block)[Heartbeat] && forall i :: 0 <= i < |Acks(block)| ==> Acks(block)[i] == Ack
    ensures multiset(Application(block))[m] == if m in [Ack, Heartbeat] || m.Nak? then 0 else multiset(block)[m]
  {
    AcksCounted(block);
    QueuedCounted(block, m);
  }

  lemma {:induction false} AcksCounted(block: seq<Message>)
    ensures |Acks(block)| == multiset(block)[Heartbeat]
    ensures forall i :: 0 <= i < |Acks(block)| ==> Acks(block)[i] == Ack
  {
    if block != [] {
      AcksCounted(block[1..]);
      CountFirst(block, Heartbeat);
    }
  }

  lemma {:induction false} QueuedCounted(block: seq<Message>, m: Message)
    ensures multiset(Application(block))[m] == if IsApplication(m) then multiset(block)[m] else 0
  {
    if block != [] {
      QueuedCounted(block[1..], m);
      CountFirst(block, m);
      if IsApplication(block[0]) {
        assert Application(block)[1..] == Application(block[1..]);
        CountFirst(Application(block), m);
      } else {
        assert Application(block) == Application(block[1..]);
      }
    }
  }

  lemma CountFirst(messages: seq<Message>, m: Message)
    requires messages != []
    ensures multiset(messages)[m] == multiset(messages[1..])[m] + if messages[0] == m then 1 else 0
  {
    assert messages == [messages[0]] + messages[1..];
  }

  /** Pops everything queued, to be sent after the worker's own messages. */
  method PopAll(own: seq<Message>, queue: seq<Message>) returns (sent: seq<Message>)
    ensures sent == own + queue
  {
    sent := own;
    var rest := queue;
    while rest != []
      invariant sent + rest == own + queue
      decreases |rest|
    {
      sent, rest := sent + [rest[0]], rest[1..];
    }
  }

  /** The server's side of a connection: one turn of `client_worker`. */
  class ClientWorker {
    var messagesIn: seq<Message>
    var messagesOut: seq<Message>

    constructor ()
      ensures messagesIn == [] && messagesOut == []
    {
      messagesIn, messagesOut := [], [];
    }

    method Iterate(block: Option<seq<Message>>) returns (sent: seq<Message>)
      modifies this
      ensures messagesIn == old(messagesIn) + if block.Some? then Application(block.value) else []
      ensures messagesOut == []
      ensures sent == (if block.Some? then Acks(block.value) else []) + old(messagesOut)
    {
      sent := [];
      if block.Some? {
        var queued, answers := Unpack(block.value);
        messagesIn, sent := messagesIn + queued, answers;
      }
      sent := PopAll(sent, messagesOut);
      messagesOut := [];
    }
  }

  /** What is sent goes out as one block, and nothing if there is nothing to send. */
  function Written(wire: seq<seq<Message>>, sent: seq<Message>): seq<seq<Message>> {
    if sent == [] then wire else wire + [sent]
  }

  /** A turn on a connection is the step of the server's worker in a run of the connection. */
  method ServerTurn(worker: ClientWorker, l: Link, receive: bool) returns (l': Link)
    requires Enabled(l, ServerPump(receive)) && worker.messagesIn == l.up.inbox && worker.messagesOut == l.down.out
    modifies worker
    ensures l' == Apply(l, ServerPump(receive))
    ensures worker.messagesIn == l'.up.inbox && worker.messagesOut == l'.down.out
  {
    var sent := worker.Iterate(if receive then Some(l.up.wire[0]) else None);
    l' := l.(up := l.up.(wire := if receive then l.up.wire[1..] else l.up.wire, inbox := worker.messagesIn),
             down := l.down.(wire := Written(l.down.wire, sent), out := worker.messagesOut));
    assert l.up.inbox + [] == l.up.inbox;
  }

  // ---- The heartbeat ----

  /** 30 seconds, in nanoseconds of the clock. */
  const QUIET_TIMEOUT := 30_000_000_000

  /** When the server was last heard of, the heartbeat that is not answered yet, and the flag for the window. */
  datatype Pulse = Pulse(lastReceived: int, heartbeatSent: Option<int>, waiting: bool)

  /** Whether a turn received a block, and the clock when it did, when it checks, and when it acts. */
  datatype Turn = Turn(received: bool, t1: int, t2: int, t3: int)

  datatype Beat = Nothing | Send | GiveUp

  /** The flag is a global, left as an earlier connection had it. */
  function Started(now: int, waiting: bool): Pulse {
    Pulse(now, None, waiting)
  }

  function Heard(p: Pulse, turn: Turn): Pulse {
    if turn.received then Pulse(turn.t1, None, false) else p
  }

  function Judged(p: Pulse, turn: Turn): Beat {
    if turn.t2 - p.lastReceived <= QUIET_TIMEOUT then Nothing
    else match p.heartbeatSent
      case None => Send
      case Some(sent) => if turn.t3 - sent > QUIET_TIMEOUT then GiveUp else Nothing
  }

  function Beaten(p: Pulse, turn: Turn): Pulse {
    if Judged(p, turn).Send? then p.(heartbeatSent := Some(turn.t3), waiting := true) else p
  }

  /** The client's side of a connection: turns of the loop of `server_message_worker`. */
  class ServerMessageWorker {
    var lastReceived: int
    var heartbeatSent: Option<int>
    var waitingOnServer: bool
    var messagesIn: seq<Message>
    var messagesOut: seq<Message>

    ghost function Value(): Pulse
      reads this
    {
      Pulse(lastReceived, heartbeatSent, waitingOnServer)
    }

    constructor (now: int, waiting: bool)
      ensures Value() == Started(now, waiting) && messagesIn == [] && messagesOut == []
    {
      lastReceived, heartbeatSent, waitingOnServer := now, None, waiting;
      messagesIn, messagesOut := [], [];
    }

    /** A turn that gives up ends the loop before anything is sent. */
    method Iterate(block: Option<seq<Message>>, turn: Turn) returns (sent: seq<Message>, goesOn: bool)
      requires turn.received == block.Some?
      modifies this
      ensures var p := Heard(old(Value()), turn);
              Value() == Beaten(p, turn) && (goesOn <==> !Judged(p, turn).GiveUp?)
      ensures messagesIn == old(messagesIn) + if block.Some? then Application(block.value) else []
      ensures goesOn ==>
                && messagesOut == []
                && sent == (if block.Some? then Acks(block.value) else []) +
                           (if Judged(Heard(old(Value()), turn), turn).Send? then [Heartbeat] else []) + old(messagesOut)
      ensures !goesOn ==> sent == [] && messagesOut == old(messagesOut)
      ensures lastReceived == if block.Some? then turn.t1 else old(lastReceived)
      ensures var quiet, outstanding := turn.t2 - lastReceived > 30_000_000_000, block.None? && old(heartbeatSent).Some?;
              && (goesOn <==> !(quiet && outstanding && turn.t3 - old(heartbeatSent).value > 30_000_000_000))
              && heartbeatSent == (if quiet && !outstanding then Some(turn.t3) else if block.Some? then None else old(heartbeatSent))
              && (goesOn ==> sent == (if block.Some? then Acks(block.value) else []) +
                                     (if quiet && !outstanding then [Heartbeat] else []) + old(messagesOut))
    {
      hide Application, Acks;
      sent := [];
      if block.Some? {
        var queued, answers := Unpack(block.value);
        messagesIn, sent := messagesIn + queued, answers;
        lastReceived, heartbeatSent, waitingOnServer := turn.t1, None, false;
      }
      if turn.t2 - lastReceived > QUIET_TIMEOUT {
        if heartbeatSent.None? {
          sent := sent + [Heartbeat];
          heartbeatSent, waitingOnServer := Some(turn.t3), true;
        } else if turn.t3 - heartbeatSent.value > QUIET_TIMEOUT {
          return [], false;
        }
      }
      sent := PopAll(sent, messagesOut);
      messagesOut := [];
      goesOn := true;
    }
  }

  /** The clock never runs backwards, from one reading to the next. */
  ghost predicate Monotone(start: int, turns: seq<Turn>) {
    turns == [] ||
    var earlier, last := turns[..|turns| - 1], turns[|turns| - 1];
    Monotone(start, earlier) && Latest(start, earlier) <= last.t1 <= last.t2 <= last.t3
  }

  function Latest(start: int, turns: seq<Turn>): int {
    if turns == [] then start else turns[|turns| - 1].t3
  }

  function After(p: Pulse, turns: seq<Turn>): Pulse {
    if turns == [] then p
    else
      var turn := turns[|turns| - 1];
      Beaten(Heard(After(p, turns[..|turns| - 1]), turn), turn)
  }

  /** When the last block was received, or the connection started. */
  function LastHeard(start: int, turns: seq<Turn>): int {
    if turns == [] then start
    else if turns[|turns| - 1].received then turns[|turns| - 1].t1
    else LastHeard(start, turns[..|turns| - 1])
  }

  /** How many heartbeats were sent since then. */
  function Outstanding(p: Pulse, turns: seq<Turn>): nat {
    if turns == [] then 0
    else
      var earlier, turn := turns[..|turns| - 1], turns[|turns| - 1];
      (if turn.received then 0 else Outstanding(p, earlier)) +
      (if Judged(Heard(After(p, earlier), turn), turn).Send? then 1 else 0)
  }

  predicate NeverHeard(turns: seq<Turn>) {
    forall i :: 0 <= i < |turns| ==> !turns[i].received
  }

  /**
   At most one heartbeat is outstanding; while one is, the window is told to wait, and it was sent
   more than a timeout after the server was last heard of. The window waits for no other reason but
   the flag's value when the connection started, until the server is first heard of.
   */
  lemma {:induction false} OneHeartbeatOutstanding(start: int, waiting: bool, turns: seq<Turn>)
    requires Monotone(start, turns)
    ensures var p := After(Started(start, waiting), turns);
            && p.lastReceived == LastHeard(start, turns) <= Latest(start, turns)
            && Outstanding(Started(start, waiting), turns) == (if p.heartbeatSent.Some? then 1 else 0)
            && (p.heartbeatSent.Some? ==>
                  p.waiting && LastHeard(start, turns) + QUIET_TIMEOUT < p.heartbeatSent.value <= Latest(start, turns))
            && (p.waiting <==> p.heartbeatSent.Some? || (waiting && NeverHeard(turns)))
  {
    if turns != [] {
      var earlier, turn := turns[..|turns| - 1], turns[|turns| - 1];
      OneHeartbeatOutstanding(start, waiting, earlier);
      assert turns == earlier + [turn];
    }
  }

  /** When the heartbeat that is not answered yet was sent: after 30 seconds of silence, if none was since. */
  function BeatTime(start: int, turns: seq<Turn>): Option<int> {
    if turns == [] then None
    else
      var earlier, turn := turns[..|turns| - 1], turns[|turns| - 1];
      var before := if turn.received then None else BeatTime(start, earlier);
      if before.None? && turn.t2 - LastHeard(start, turns) > 30_000_000_000 then Some(turn.t3) else before
  }

  /** In the last of these turns a heartbeat is due: none is outstanding, and the server was silent for too long. */
  predicate Due(start: int, turns: seq<Turn>)
    requires turns != []
  {
    var earlier, turn := turns[..|turns| - 1], turns[|turns| - 1];
    && (turn.received || BeatTime(start, earlier).None?)
    && turn.t2 - LastHeard(start, turns) > 30_000_000_000
  }

  /** In the last of these turns the worker ends: one is outstanding, for too long as well. */
  predicate Overdue(start: int, turns: seq<Turn>)
    requires turns != []
  {
    var earlier, turn := turns[..|turns| - 1], turns[|turns| - 1];
    && !turn.received && BeatTime(start, earlier).Some?
    && turn.t2 - LastHeard(start, turns) > 30_000_000_000
    && turn.t3 - BeatTime(start, earlier).value > 30_000_000_000
  }

  /** One pass of the loop: what arrives, what the window has queued by then, and the clock. */
  datatype Input = Input(block: Option<seq<Message>>, queued: seq<Message>, t1: int, t2: int, t3: int)

  function TurnOf(input: Input): Turn {
    Turn(input.block.Some?, input.t1, input.t2, input.t3)
  }

  function TurnsOf(inputs: seq<Input>): seq<Turn> {
    if inputs == [] then [] else TurnsOf(inputs[..|inputs| - 1]) + [TurnOf(inputs[|inputs| - 1])]
  }

  /** The last of these passes writes its answers, a heartbeat if one is due, and what was queued. */
  ghost predicate LastWrites(start: int, inputs: seq<Input>, written: seq<Message>)
    requires inputs != []
  {
    var input := inputs[|inputs| - 1];
    && !Overdue(start, TurnsOf(inputs))
    && written == (if input.block.Some? then Acks(input.block.value) else []) +
                  (if Due(start, TurnsOf(inputs)) then [Heartbeat] else []) + input.queued
  }

  lemma OneMoreTurn(start: int, earlier: seq<Input>, input: Input)
    ensures var before, turns := TurnsOf(earlier), TurnsOf(earlier + [input]);
            var heard := if input.block.Some? then input.t1 else LastHeard(start, before);
            var beat := if input.block.Some? then None else BeatTime(start, before);
            var quiet := input.t2 - heard > 30_000_000_000;
            && turns != []
            && LastHeard(start, turns) == heard
            && BeatTime(start, turns) == (if beat.None? && quiet then Some(input.t3) else beat)
            && (Due(start, turns) <==> beat.None? && quiet)
            && (Overdue(start, turns) <==> beat.Some? && quiet && input.t3 - beat.value > 30_000_000_000)
  {
    var before, turns := TurnsOf(earlier), TurnsOf(earlier + [input]);
    assert (earlier + [input])[..|earlier|] == earlier;
    assert turns == before + [TurnOf(input)];
    assert turns[..|turns| - 1] == before && turns[|turns| - 1] == TurnOf(input);
  }

  lemma ThenWrites(start: int, earlier: seq<Input>, input: Input)
    requires !Overdue(start, TurnsOf(earlier + [input]))
    ensures LastWrites(start, earlier + [input],
                       (if input.block.Some? then Acks(input.block.value) else []) +
                       (if Due(start, TurnsOf(earlier + [input])) then [Heartbeat] else []) + input.queued)
  {
    hide Overdue, Due, TurnsOf, Acks;
  }

  /** One pass, by a worker that knows when the server was last heard of and which heartbeat is outstanding. */
  method Pass(worker: ServerMessageWorker, start: int, ghost earlier: seq<Input>, input: Input)
    returns (sent: seq<Message>, goesOn: bool)
    requires worker.lastReceived == LastHeard(start, TurnsOf(earlier)) && worker.messagesOut == []
    requires worker.heartbeatSent == BeatTime(start, TurnsOf(earlier))
    modifies worker
    ensures goesOn <==> !Overdue(start, TurnsOf(earlier + [input]))
    ensures goesOn ==>
              && LastWrites(start, earlier + [input], sent)
              && worker.lastReceived == LastHeard(start, TurnsOf(earlier + [input])) && worker.messagesOut == []
              && worker.heartbeatSent == BeatTime(start, TurnsOf(earlier + [input]))
  {
    OneMoreTurn(start, earlier, input);
    if !Overdue(start, TurnsOf(earlier + [input])) {
      ThenWrites(start, earlier, input);
    }
    hide Heard, Judged, Beaten, Acks, TurnsOf, LastHeard, BeatTime, Due, Overdue, LastWrites;
    worker.messagesOut := input.queued;
    sent, goesOn := worker.Iterate(input.block, TurnOf(input));
  }

  /** What each pass wrote, as long as the loop went on. */
  ghost predicate AllWrite(start: int, inputs: seq<Input>, written: seq<seq<Message>>) {
    |written| <= |inputs| && forall k :: 0 <= k < |written| ==> LastWrites(start, inputs[..k + 1], written[k])
  }

  lemma OneMoreWritten(start: int, inputs: seq<Input>, written: seq<seq<Message>>, sent: seq<Message>)
    requires AllWrite(start, inputs, written) && |written| < |inputs|
    requires LastWrites(start, inputs[..|written| + 1], sent)
    ensures AllWrite(start, inputs, written + [sent])
  {
    hide LastWrites;
  }

  /**
   The loop of `server_message_worker`: a heartbeat goes out in exactly the turns in which one is due,
   and the loop ends in exactly the first turn in which one is overdue.
   */
  method WorkServer(start: int, waiting: bool, inputs: seq<Input>) returns (written: seq<seq<Message>>)
    ensures AllWrite(start, inputs, written)
    ensures |written| < |inputs| ==> Overdue(start, TurnsOf(inputs[..|written| + 1]))
  {
    var worker := new ServerMessageWorker(start, waiting);
    written := [];
    for k := 0 to |inputs|
      invariant |written| == k && worker.messagesOut == [] && AllWrite(start, inputs, written)
      invariant worker.lastReceived == LastHeard(start, TurnsOf(inputs[..k]))
      invariant worker.heartbeatSent == BeatTime(start, TurnsOf(inputs[..k]))
    {
      hide LastWrites, AllWrite, LastHeard, BeatTime, Overdue, TurnsOf;
      assert inputs[..k] + [inputs[k]] == inputs[..k + 1];
      var sent, goesOn := Pass(worker, start, inputs[..k], inputs[k]);
      if !goesOn {
        return;
      }
      OneMoreWritten(start, inputs, written, sent);
      written := written + [sent];
    }
  }

  /** The worker gives up only after more than two timeouts in which nothing was received. */
  lemma GivesUpAfterSilence(start: int, waiting: bool, turns: seq<Turn>, turn: Turn)
    requires Monotone(start, turns + [turn])
    requires Judged(Heard(After(Started(start, waiting), turns), turn), turn).GiveUp?
    ensures !turn.received && turn.t3 - LastHeard(start, turns + [turn]) > 2 * QUIET_TIMEOUT
  {
    assert (turns + [turn])[..|turns|] == turns;
    OneHeartbeatOutstanding(start, waiting, turns);
  }

  /**
   A turn on a connection is the step of the client's worker in a run of the connection, with a
   heartbeat if one is due; or the loss of the connection, if the worker gives up.
   */
  method ClientTurn(worker: ServerMessageWorker, l: Link, turn: Turn) returns (l': Link)
    requires Enabled(l, ClientPump(turn.received, false))
    requires worker.messagesIn == l.down.inbox && worker.messagesOut == l.up.out
    modifies worker
    ensures var beat := Judged(Heard(old(worker.Value()), turn), turn);
            && worker.Value() == Beaten(Heard(old(worker.Value()), turn), turn)
            && l' == (if beat.GiveUp? then Apply(l, Break) else Apply(l, ClientPump(turn.received, beat.Send?)))
    ensures worker.messagesIn == l'.down.inbox && worker.messagesOut == l'.up.out
  {
    ghost var p := Heard(worker.Value(), turn);
    var sent, goesOn := worker.Iterate(if turn.received then Some(l.down.wire[0]) else None, turn);
    assert l.down.inbox + [] == l.down.inbox;
    if goesOn {
      l' := l.(down := l.down.(wire := if turn.received then l.down.wire[1..] else l.down.wire, inbox := worker.messagesIn),
               up := l.up.(wire := Written(l.up.wire, sent), out := worker.messagesOut));
    } else {
      assert !turn.received;
      l' := l.(phase := Closed, up := l.up.(wire := []), down := l.down.(wire := []));
    }
  }
}
