/** The messages of include/tavernmx/messaging.h, as values rather than JSON objects. */
module Messages {
  import opened Collections

  type ClientId = nat

  /** Most entries a history request may ask for. */
  const ROOM_HISTORY_MAX_ENTRIES := 100

  /** Both sides keep histories in ring buffers of this capacity, so one fewer event than this. */
  const CHAT_ROOM_HISTORY_SIZE := 1000

  const HISTORY_KEPT := CHAT_ROOM_HISTORY_SIZE - 1

  datatype RoomEvent = RoomEvent(timestamp: int, user: string, text: string)

  /** An event as a message carries it: its timestamp is cut to 32 bits. */
  datatype WireEvent = WireEvent(timestamp: int, user: string, text: string)

  function ToInt32(x: int): (r: int)
    ensures -0x8000_0000 <= r < 0x8000_0000
    ensures -0x8000_0000 <= x < 0x8000_0000 ==> r == x
    ensures (x - r) % 0x1_0000_0000 == 0
  {
    (x + 0x8000_0000) % 0x1_0000_0000 - 0x8000_0000
  }

  function OnWire(event: RoomEvent): WireEvent {
    WireEvent(ToInt32(event.timestamp), event.user, event.text)
  }

  function AllOnWire(events: seq<RoomEvent>): (w: seq<WireEvent>) {
    seq(|events|, i requires 0 <= i < |events| => OnWire(events[i]))
  }

  datatype Message =
    | Ack
    | Nak(error: string)
    | Hello(user: string)
    | Heartbeat
    | RoomList(names: seq<string>)
    | RoomCreate(room: string)
    | RoomJoin(room: string)
    | RoomDestroy(room: string)
    | RoomHistory(room: string, eventCount: int, events: seq<WireEvent>)
    | ChatSend(room: string, text: string)
    | ChatEcho(room: string, event: WireEvent)

  /** What the two message pumps queue for processing rather than answer or drop themselves. */
  predicate IsApplication(m: Message) {
    !m.Ack? && !m.Nak? && !m.Heartbeat?
  }

  function Application(messages: seq<Message>): seq<Message> {
    if messages == [] then []
    else (if IsApplication(messages[0]) then [messages[0]] else []) + Application(messages[1..])
  }

  lemma {:induction false} ApplicationAppend(a: seq<Message>, b: seq<Message>)
    ensures Application(a + b) == Application(a) + Application(b)
  {
    if a == [] {
      assert a + b == b;
    } else {
      assert (a + b)[1..] == a[1..] + b;
      hide IsApplication;
      ApplicationAppend(a[1..], b);
      var first, more := if IsApplication(a[0]) then [a[0]] else [], Application(a[1..]);
      assert first + (more + Application(b)) == first + more + Application(b);
    }
  }

  /** A message carries an event: author and text as they are, the time as 32 bits can tell it. */
  ghost predicate Carries(wire: WireEvent, event: RoomEvent) {
    && wire.user == event.user && wire.text == event.text
    && -0x8000_0000 <= wire.timestamp < 0x8000_0000
    && (event.timestamp - wire.timestamp) % 0x1_0000_0000 == 0
  }

  lemma OnWireCarries(event: RoomEvent)
    ensures Carries(OnWire(event), event)
  {
  }

  /** The chat lines of one room in a stream of messages, in order. */
  function EchoesOf(messages: seq<Message>, room: string): seq<WireEvent> {
    if messages == [] then []
    else
      var before, m := EchoesOf(messages[..|messages| - 1], room), messages[|messages| - 1];
      if m.ChatEcho? && m.room == room then before + [m.event] else before
  }

  lemma {:induction false} EchoesOfAppend(a: seq<Message>, b: seq<Message>, room: string)
    ensures EchoesOf(a + b, room) == EchoesOf(a, room) + EchoesOf(b, room)
  {
    if b == [] {
      assert a + b == a;
    } else {
      var last := |b| - 1;
      assert (a + b)[..|a + b| - 1] == a + b[..last];
      EchoesOfAppend(a, b[..last], room);
    }
  }

  /** An empty history message, before any event is added to it. */
  function EmptyHistory(room: string): Message {
    RoomHistory(room, 0, [])
  }

  /** `add_room_history_event`: the count is kept in step with the list. */
  method AddHistoryEvent(m: Message, event: RoomEvent) returns (m': Message, count: int)
    requires m.RoomHistory?
    ensures m' == RoomHistory(m.room, m.eventCount + 1, m.events + [OnWire(event)])
    ensures count == m'.eventCount
    ensures m.eventCount == |m.events| ==> count == |m'.events|
    ensures m'.events[..|m.events|] == m.events && |m'.events| == |m.events| + 1
    ensures Carries(m'.events[|m.events|], event)
  {
    OnWireCarries(event);
    m' := m.(events := m.events + [OnWire(event)]);
    count := m'.eventCount + 1;
    m' := m'.(eventCount := count);
  }

  /** The events a reply to a request for `n` takes from the retained ones: all of them if `n` is 0. */
  function Replied(retained: seq<RoomEvent>, n: nat): seq<RoomEvent> {
    if n == 0 then retained else First(retained, n)
  }

  function HistoryReply(room: string, retained: seq<RoomEvent>, n: nat): Message {
    var events := Replied(retained, n);
    RoomHistory(room, |events|, AllOnWire(events))
  }

  /** `get_room_history` over the retained events, oldest first. */
  method BuildHistory(room: string, retained: seq<RoomEvent>, n: nat) returns (m: Message)
    ensures m == HistoryReply(room, retained, n)
    ensures m.RoomHistory? && m.room == room && m.eventCount == |m.events| <= |retained|
    ensures |m.events| == if 0 < n < |retained| then n else |retained|
    ensures forall i :: 0 <= i < |m.events| ==> Carries(m.events[i], retained[i])
  {
    m := EmptyHistory(room);
    var i := 0;
    while i < |retained|
      invariant i <= |retained| && (n != 0 ==> i < n)
      invariant m == RoomHistory(room, i, AllOnWire(retained[..i]))
    {
      var count: int;
      assert AllOnWire(retained[..i + 1]) == AllOnWire(retained[..i]) + [OnWire(retained[i])];
      m, count := AddHistoryEvent(m, retained[i]);
      i := i + 1;
      if count == n {
        assert retained[..i] == Replied(retained, n);
        return;
      }
    }
    assert retained[..i] == Replied(retained, n);
  }

  /**
   A reply carries the oldest retained events, its count is their number, and it holds no more
   than asked for exactly when something was asked for or nothing is retained.
   */
  lemma ReplyIsOldest(room: string, retained: seq<RoomEvent>, n: nat)
    ensures var m := HistoryReply(room, retained, n);
            && m.eventCount == |m.events|
            && |m.events| == (if 0 < n < |retained| then n else |retained|)
            && (forall i :: 0 <= i < |m.events| ==> Carries(m.events[i], retained[i]))
            && (m.eventCount <= n <==> n > 0 || retained == [])
  {
  }

  /** Asked for nothing, the server replies with everything it has. */
  lemma ZeroAsksForAll(room: string, event: RoomEvent)
    ensures HistoryReply(room, [event, event], 0).eventCount == 2
  {
  }
}
