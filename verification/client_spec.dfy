/**
 The client's chat window, on values: the rooms it lists, the one that is selected, the histories it
 shows, and what its handlers queue for the server.
 */
module ClientSpec {
  import opened Collections
  import opened Messages
  import opened Rooms
  import opened Replicas
  import opened Commands

  /** `data` says whether the room was joined. */
  type ClientRoom = RoomState<bool>

  datatype Window = Window(
    rooms: seq<ClientRoom>,
    // The screen: the names on display, the selected entry and its name, and the histories.
    display: seq<string>,
    index: nat,
    current: string,
    history: map<string, seq<WireEvent>>,
    // Everything queued for the server so far.
    sent: seq<Message>)

  /** A new screen; the rooms are a global and may be left over from an earlier connection. */
  function Opened(leftover: seq<ClientRoom>): Window {
    Window(leftover, [], 0, "", map[], [])
  }

  /** What the user does, and the messages that arrive. */
  datatype Action =
    | Receive(m: Message)
    | Pick(index: nat)
    | Submit(input: string)

  function IndexOf(names: seq<string>, name: string): (i: nat)
    ensures i <= |names|
    ensures i < |names| ==> names[i] == name
    ensures forall j :: 0 <= j < i ==> names[j] != name
  {
    if names == [] || names[0] == name then 0 else 1 + IndexOf(names[1..], name)
  }

  function SelectByName(w: Window, name: string): (w': Window)
    ensures w'.sent == w.sent && w'.rooms == w.rooms
  {
    var i := IndexOf(w.display, name);
    if i < |w.display| then w.(index := i, current := name) else w
  }

  /** `update_rooms`: the first room becomes the selected one, and histories of other rooms go. */
  function UpdateRooms(w: Window): (w': Window)
    ensures w'.sent == w.sent && w'.rooms == w.rooms
  {
    var names := Names(w.rooms);
    w.(display := names, index := 0, current := if names == [] then "" else names[0],
       history := Kept(w.history, Elements(names)))
  }

  function JoinRequest(room: string): seq<Message> {
    [RoomJoin(room), RoomHistory(room, ROOM_HISTORY_MAX_ENTRIES, [])]
  }

  /** What the handlers of messages may queue. */
  predicate IsRequest(m: Message) {
    m.RoomJoin? || m.RoomHistory?
  }

  ghost predicate OnlyRequests(messages: seq<Message>) {
    forall i :: 0 <= i < |messages| ==> IsRequest(messages[i])
  }

  /** A handler queues nothing, or the join of one room with its history request. */
  ghost predicate MayAsk(sent: seq<Message>, sent': seq<Message>) {
    sent' == sent || exists room :: sent' == sent + JoinRequest(room)
  }

  predicate IsJoined(w: Window, room: string) {
    Lists(w.rooms, room) && w.rooms[Find(w.rooms, room)].data
  }

  /** `issue_room_join_if_needed` */
  function JoinIfNeeded(w: Window, room: string): (w': Window)
    ensures w.sent <= w'.sent && OnlyRequests(w'.sent[|w.sent|..]) && MayAsk(w.sent, w'.sent)
  {
    if room == "" || !Lists(w.rooms, room) || IsJoined(w, room) then w
    else
      var i := Find(w.rooms, room);
      w.(rooms := w.rooms[i := w.rooms[i].(data := true)], sent := w.sent + JoinRequest(room))
  }

  /** The rooms of a ROOM_LIST, created in its order; invalid and repeated names are skipped. */
  function Created(names: seq<string>): seq<ClientRoom> {
    if names == [] then [] else Create(Created(names[..|names| - 1]), names[|names| - 1], false)
  }

  /** A new list of rooms: show it, go back to the room selected before if it is there, and join. */
  function WithRooms(w: Window, rooms: seq<ClientRoom>): (w': Window)
    ensures w.sent <= w'.sent && OnlyRequests(w'.sent[|w.sent|..]) && MayAsk(w.sent, w'.sent)
  {
    var w1 := SelectByName(UpdateRooms(w.(rooms := rooms)), w.current);
    JoinIfNeeded(w1, w1.current)
  }

  /** The rooms after one was destroyed. It joins only if the destroyed room was the selected one. */
  function WithoutRoom(w: Window, room: string): (w': Window)
    ensures w.sent <= w'.sent && OnlyRequests(w'.sent[|w.sent|..]) && MayAsk(w.sent, w'.sent)
  {
    var w1 := UpdateRooms(w.(rooms := Sweep(Doom(w.rooms, room))));
    if w.current == room then JoinIfNeeded(w1, w1.current) else SelectByName(w1, w.current)
  }

  function Handle(w: Window, m: Message): (w': Window)
    ensures w.sent <= w'.sent && OnlyRequests(w'.sent[|w.sent|..]) && MayAsk(w.sent, w'.sent)
  {
    match m
    case RoomList(names) => WithRooms(w, Created(names))
    case RoomCreate(room) => if CanCreate(w.rooms, room) then WithRooms(w, Create(w.rooms, room, false)) else w
    case RoomDestroy(room) => if Lists(w.rooms, room) then WithoutRoom(w, room) else w
    case RoomHistory(room, _, events) =>
      if Lists(w.rooms, room) then w.(history := w.history[room := Last(events, HISTORY_KEPT)]) else w
    case ChatEcho(room, event) =>
      w.(history := w.history[room := Last(Shown(w.history, room) + [event], HISTORY_KEPT)])
    case _ => w
  }

  function Act(w: Window, action: Action): (w': Window)
    ensures w.sent <= w'.sent
  {
    match action
    case Receive(m) => Handle(w, m)
    case Pick(i) =>
      var w1 := w.(index := i, current := if i < |w.display| then w.display[i] else "");
      JoinIfNeeded(w1, w1.current)
    case Submit(input) =>
      if input == "" then w
      else if input[0] == '/' then Commanded(w, Tokens(input, ' '))
      else if w.current != "" then Push(w, ChatSend(w.current, input))
      else w
  }

  /** A command asks the server; a wrong one is ignored. */
  function Commanded(w: Window, tokens: seq<string>): (w': Window)
    ensures w.sent <= w'.sent
  {
    if |tokens| != 2 then w
    else if Lower(tokens[0]) == "/create_room" then
      if IsValidRoomName(tokens[1]) then Push(w, RoomCreate(tokens[1])) else w
    else if Lower(tokens[0]) == "/destroy_room" then
      if Lists(w.rooms, tokens[1]) then Push(w, RoomDestroy(tokens[1])) else w
    else w
  }

  function Push(w: Window, m: Message): Window {
    w.(sent := w.sent + [m])
  }

  /** The list box reports only entries it has. */
  predicate Possible(w: Window, action: Action) {
    action.Pick? ==> action.index < |w.display|
  }

  // ---- The rooms follow the server, whatever is selected ----

  ghost predicate NoneDoomed(rooms: seq<ClientRoom>) {
    forall i :: 0 <= i < |rooms| ==> !rooms[i].doomed
  }

  ghost predicate Clean(rooms: seq<ClientRoom>) {
    WellNamed(rooms) && NoneDoomed(rooms)
  }

  lemma CreateNames(rooms: seq<ClientRoom>, room: string)
    ensures Elements(Names(Create(rooms, room, false))) ==
            Elements(Names(rooms)) + if IsValidRoomName(room) then {room} else {}
  {
    NamedIs(rooms, room);
    if CanCreate(rooms, room) {
      assert Names(Create(rooms, room, false)) == Names(rooms) + [room];
    } else if IsValidRoomName(room) {
      assert room in Names(rooms);
    }
  }

  lemma CreateClean(rooms: seq<ClientRoom>, room: string)
    requires Clean(rooms)
    ensures Clean(Create(rooms, room, false))
    ensures Elements(Names(Create(rooms, room, false))) ==
            Elements(Names(rooms)) + if IsValidRoomName(room) then {room} else {}
  {
    CreateNames(rooms, room);
    hide Names, Elements;
    CreateKeepsNames(rooms, room, false);
  }

  lemma ValidWithLast(names: seq<string>, last: string)
    ensures ValidNames(names + [last]) == ValidNames(names) + if IsValidRoomName(last) then {last} else {}
  {
  }

  lemma {:induction false} CreatedClean(names: seq<string>)
    ensures Clean(Created(names))
    ensures Elements(Names(Created(names))) == ValidNames(names)
  {
    if names != [] {
      var earlier, last := names[..|names| - 1], names[|names| - 1];
      assert names == earlier + [last];
      hide ValidNames, Clean, Elements, Create;
      CreatedClean(earlier);
      CreateClean(Created(earlier), last);
      ValidWithLast(earlier, last);
    }
  }

  lemma JoinedClean(rooms: seq<ClientRoom>, i: nat)
    requires Clean(rooms) && i < |rooms|
    ensures var rooms' := rooms[i := rooms[i].(data := true)];
            Clean(rooms') && Names(rooms') == Names(rooms)
  {
    UpdateKeepsNames(rooms, i, rooms[i].(data := true), "");
  }

  /** Dooming one room and sweeping takes away that room and no other. */
  lemma DestroyFinds(rooms: seq<ClientRoom>, room: string, name: string)
    requires Clean(rooms)
    ensures var rooms' := Sweep(Doom(rooms, room));
            && (Lists(rooms', name) <==> Lists(rooms, name) && name != room)
            && (Lists(rooms', name) ==> rooms'[Find(rooms', name)] == rooms[Find(rooms, name)])
  {
    var i := Find(rooms, room);
    if i < |rooms| {
      UpdateKeepsNames(rooms, i, rooms[i].(doomed := true), name);
    }
    SweepFinds(Doom(rooms, room), name);
  }

  lemma DestroyNames(rooms: seq<ClientRoom>, room: string)
    requires Clean(rooms)
    ensures Elements(Names(Sweep(Doom(rooms, room)))) == Elements(Names(rooms)) - {room}
  {
    var rooms' := Sweep(Doom(rooms, room));
    hide Sweep, Doom, Lists, Clean, Names;
    forall name
      ensures name in Names(rooms') <==> name in Names(rooms) && name != room
    {
      DestroyFinds(rooms, room, name);
      NamedIs(rooms, name);
      NamedIs(rooms', name);
    }
  }

  lemma DestroyWellNamed(rooms: seq<ClientRoom>, room: string)
    requires WellNamed(rooms)
    ensures WellNamed(Sweep(Doom(rooms, room)))
  {
    var i := Find(rooms, room);
    if i < |rooms| {
      UpdateKeepsNames(rooms, i, rooms[i].(doomed := true), room);
    }
    SweepKeepsNames(Doom(rooms, room));
  }

  lemma DestroyClean(rooms: seq<ClientRoom>, room: string)
    requires Clean(rooms)
    ensures Clean(Sweep(Doom(rooms, room)))
  {
    var rooms' := Sweep(Doom(rooms, room));
    DestroyWellNamed(rooms, room);
    hide Sweep, Doom;
    forall i | 0 <= i < |rooms'|
      ensures !rooms'[i].doomed
    {
      FindIs(rooms', i);
      DestroyFinds(rooms, room, rooms'[i].name);
    }
  }

  function View(w: Window): Replica {
    Replica(Elements(Names(w.rooms)), w.history)
  }

  lemma JoinKeepsView(w: Window, room: string)
    requires Clean(w.rooms)
    ensures var w' := JoinIfNeeded(w, room);
            && Clean(w'.rooms) && Names(w'.rooms) == Names(w.rooms)
            && w'.history == w.history && w'.display == w.display && w'.index == w.index && w'.current == w.current
  {
    if Lists(w.rooms, room) {
      JoinedClean(w.rooms, Find(w.rooms, room));
    }
  }

  lemma NewRoomsView(w: Window, rooms: seq<ClientRoom>)
    requires Clean(rooms)
    ensures Clean(WithRooms(w, rooms).rooms)
    ensures View(WithRooms(w, rooms)) == Replica(Elements(Names(rooms)), Kept(w.history, Elements(Names(rooms))))
  {
    var w1 := SelectByName(UpdateRooms(w.(rooms := rooms)), w.current);
    JoinKeepsView(w1, w1.current);
  }

  lemma DestroyedView(w: Window, room: string)
    requires Clean(w.rooms)
    ensures Clean(WithoutRoom(w, room).rooms)
    ensures var rooms := View(w).rooms - {room};
            View(WithoutRoom(w, room)) == Replica(rooms, Kept(w.history, rooms))
  {
    var w1 := UpdateRooms(w.(rooms := Sweep(Doom(w.rooms, room))));
    DestroyClean(w.rooms, room);
    DestroyNames(w.rooms, room);
    hide Sweep, Doom, Clean;
    JoinKeepsView(w1, w1.current);
  }

  /** The handler does to rooms and histories what following the server means. */
  lemma HandleFollows(w: Window, m: Message)
    requires Clean(w.rooms)
    ensures Clean(Handle(w, m).rooms) && View(Handle(w, m)) == Follow(View(w), m)
  {
    hide Clean, WithRooms, WithoutRoom, Created, Create, Kept, Find, Last;
    match m
    case RoomList(names) =>
      CreatedClean(names);
      NewRoomsView(w, Created(names));
    case RoomCreate(room) =>
      NamedIs(w.rooms, room);
      CreateClean(w.rooms, room);
      if CanCreate(w.rooms, room) {
        NewRoomsView(w, Create(w.rooms, room, false));
      }
    case RoomDestroy(room) =>
      NamedIs(w.rooms, room);
      DestroyedView(w, room);
    case RoomHistory(room, _, _) => NamedIs(w.rooms, room);
    case _ =>
  }

  /** What the user does leaves rooms and histories alone. */
  lemma UserKeepsView(w: Window, action: Action)
    requires Clean(w.rooms) && !action.Receive?
    ensures Clean(Act(w, action).rooms) && View(Act(w, action)) == View(w)
  {
    if action.Pick? {
      var name := if action.index < |w.display| then w.display[action.index] else "";
      JoinKeepsView(w.(index := action.index, current := name), name);
    }
  }
}
