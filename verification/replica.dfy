/**
 What a client's message handler makes of the rooms and the chat histories, whatever the user
 selects: the part of src/client/workers/chatwindow-worker.cpp that must follow the server.
 */
module Replicas {
  import opened Collections
  import opened Messages
  import opened Rooms

  datatype Replica = Replica(rooms: set<string>, history: map<string, seq<WireEvent>>)

  const EMPTY := Replica({}, map[])

  function ValidNames(names: seq<string>): set<string> {
    set name | name in names && IsValidRoomName(name)
  }

  /** The set of rooms after one message. */
  function RoomsAfter(rooms: set<string>, m: Message): set<string> {
    match m
    case RoomList(names) => ValidNames(names)
    case RoomCreate(room) => if IsValidRoomName(room) then rooms + {room} else rooms
    case RoomDestroy(room) => rooms - {room}
    case _ => rooms
  }

  function Shown(history: map<string, seq<WireEvent>>, room: string): seq<WireEvent> {
    if room in history then history[room] else []
  }

  /** `update_rooms` drops the histories of rooms that are not listed. */
  function Kept(history: map<string, seq<WireEvent>>, rooms: set<string>): map<string, seq<WireEvent>> {
    map room | room in history && room in rooms :: history[room]
  }

  function Follow(r: Replica, m: Message): Replica {
    var rooms := RoomsAfter(r.rooms, m);
    match m
    case RoomList(names) => Replica(rooms, Kept(r.history, rooms))
    case RoomCreate(room) => if rooms != r.rooms then Replica(rooms, Kept(r.history, rooms)) else r
    case RoomDestroy(room) => if rooms != r.rooms then Replica(rooms, Kept(r.history, rooms)) else r
    case RoomHistory(room, _, events) =>
      if room in r.rooms then r.(history := r.history[room := Last(events, HISTORY_KEPT)]) else r
    case ChatEcho(room, event) =>
      r.(history := r.history[room := Last(Shown(r.history, room) + [event], HISTORY_KEPT)])
    case _ => r
  }

  function FollowAll(r: Replica, messages: seq<Message>): Replica {
    if messages == [] then r
    else Follow(FollowAll(r, messages[..|messages| - 1]), messages[|messages| - 1])
  }

  lemma {:induction false} FollowAppend(r: Replica, a: seq<Message>, b: seq<Message>)
    ensures FollowAll(r, a + b) == FollowAll(FollowAll(r, a), b)
  {
    if b == [] {
      assert a + b == a;
    } else {
      assert (a + b)[..|a + b| - 1] == a + b[..|b| - 1];
      FollowAppend(r, a, b[..|b| - 1]);
    }
  }

  /** Nothing in `messages` takes `room` out of a client's list. */
  ghost predicate KeepsListed(messages: seq<Message>, room: string) {
    forall i :: 0 <= i < |messages| ==>
      && messages[i] != RoomDestroy(room)
      && (messages[i].RoomList? ==> room in messages[i].names)
  }

  ghost predicate NoHistoryOf(messages: seq<Message>, room: string) {
    forall i :: 0 <= i < |messages| ==> !(messages[i].RoomHistory? && messages[i].room == room)
  }

  /**
   While a room stays listed and its history is not rewritten, the client shows the latest of what
   it showed before followed by the room's chat lines, each once and in order.
   */
  lemma {:induction false} ShowsEchoes(r: Replica, messages: seq<Message>, room: string)
    requires room in r.rooms && IsValidRoomName(room) && |Shown(r.history, room)| <= HISTORY_KEPT
    requires KeepsListed(messages, room) && NoHistoryOf(messages, room)
    ensures room in FollowAll(r, messages).rooms
    ensures Shown(FollowAll(r, messages).history, room) ==
            Last(Shown(r.history, room) + EchoesOf(messages, room), HISTORY_KEPT)
  {
    if messages == [] {
      assert Shown(r.history, room) + [] == Shown(r.history, room);
    } else {
      var earlier, m := messages[..|messages| - 1], messages[|messages| - 1];
      ShowsEchoes(r, earlier, room);
      var before := Shown(r.history, room) + EchoesOf(earlier, room);
      if m.ChatEcho? && m.room == room {
        LastOfAppend(before, [m.event], HISTORY_KEPT);
        assert before + [m.event] == Shown(r.history, room) + EchoesOf(messages, room);
      }
    }
  }

  /** Histories are kept for listed rooms only. */
  ghost predicate HistoryListed(r: Replica) {
    forall room :: room in r.history ==> room in r.rooms
  }

  /** A message keeps it so, except exactly a chat line of a room that is not listed. */
  lemma StaysListed(r: Replica, m: Message)
    requires HistoryListed(r)
    ensures HistoryListed(Follow(r, m)) <==> (m.ChatEcho? ==> m.room in r.rooms)
  {
    if m.ChatEcho? {
      assert m.room in Follow(r, m).history;
    }
  }

  /**
   A line of a room that was destroyed in the same tick follows the room's ROOM_DESTROY, and is
   kept under the name; if the name is created again, the old line is shown in the new room.
   */
  lemma OldLineInNewRoom(r: Replica, room: string, event: WireEvent)
    requires room in r.rooms && IsValidRoomName(room)
    ensures var r' := FollowAll(r, [RoomDestroy(room), ChatEcho(room, event)]);
            room !in r'.rooms && Shown(r'.history, room) == [event]
    ensures var r' := FollowAll(r, [RoomDestroy(room), ChatEcho(room, event), RoomCreate(room)]);
            room in r'.rooms && Shown(r'.history, room) == [event]
  {
    var two := [RoomDestroy(room), ChatEcho(room, event)];
    assert two[..1] == [RoomDestroy(room)] && two[..1][..0] == [];
    var three := two + [RoomCreate(room)];
    assert three == [RoomDestroy(room), ChatEcho(room, event), RoomCreate(room)];
    assert three[..2] == two;
    assert FollowAll(r, two[..1]) == Follow(r, RoomDestroy(room));
  }
}
