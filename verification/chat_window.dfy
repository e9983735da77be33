/** The client's handlers as they run, changing the rooms, the screen and the queue in place. */
module ChatWindows {
  import opened Collections
  import opened Messages
  import opened Rooms
  import opened RoomManagers
  import opened HistoryStores
  import opened Replicas
  import opened ClientSpec
  import opened Commands
  import opened Selection
  import opened UserInput

  class ChatWindow {
    const rooms: RoomManager<bool>
    const history: HistoryStore<WireEvent>
    var roomNames: seq<string>
    var currentIndex: nat
    var currentName: string
    /** Everything pushed so far; the connection's worker pops from a copy of its own. */
    var messagesOut: seq<Message>

    ghost predicate Valid()
      reads this, rooms, rooms.activeRooms, history, history.repr
    {
      && rooms.Valid() && history.Valid()
      && this !in history.repr && rooms !in history.repr
      && forall room :: room in rooms.activeRooms ==> room !in history.repr
    }

    ghost function Value(): Window
      reads this, rooms, rooms.activeRooms, history
    {
      Window(rooms.Value(), roomNames, currentIndex, currentName, history.contents, messagesOut)
    }

    /** A new screen over the rooms that are still there from an earlier connection. */
    constructor (rooms: RoomManager<bool>)
      requires rooms.Valid()
      ensures Valid() && Value() == Opened(rooms.Value()) && this.rooms == rooms && fresh(history) && fresh(history.repr)
    {
      this.rooms := rooms;
      history := new HistoryStore<WireEvent>();
      roomNames, currentIndex, currentName, messagesOut := [], 0, "", [];
    }

    method SelectRoomByName(name: string)
      requires Valid()
      modifies this
      ensures Valid() && Value() == SelectByName(old(Value()), name)
    {
      hide RoomManager.Valid, HistoryStore.Valid, RoomManager.Value;
      for i := 0 to |roomNames|
        invariant forall j :: 0 <= j < i ==> roomNames[j] != name
        invariant Valid() && Value() == old(Value())
      {
        if roomNames[i] == name {
          FoundName(roomNames, name, i);
          currentIndex, currentName := i, name;
          return;
        }
      }
    }

    /** Shows the manager's rooms. */
    method ShowRooms()
      requires Valid()
      modifies this, history
      ensures Valid() && Value() == UpdateRooms(old(Value())) && history.repr == old(history.repr)
    {
      NamesKnown(rooms);
      hide RoomManager.Valid, HistoryStore.Valid, RoomManager.Value, Names;
      ghost var w := Value();
      roomNames := rooms.roomNames;
      currentIndex := 0;
      if |roomNames| > 0 {
        currentName := roomNames[0];
      } else {
        currentName := "";
      }
      history.Keep(roomNames);
      KeptIsKept(w.history, Names(w.rooms));
    }

    /** The join and the history request, with the mark between them. */
    method IssueRoomJoin(room: Room<bool>)
      requires Valid() && room in rooms.activeRooms
      modifies this, room`data
      ensures Valid()
      ensures var w, i := old(Value()), Find(old(Value()).rooms, room.name);
              && i < |w.rooms|
              && Value() == w.(rooms := w.rooms[i := w.rooms[i].(data := true)], sent := w.sent + JoinRequest(room.name))
    {
      hide RoomManager.Valid, HistoryStore.Valid, RoomManager.Value, Find;
      messagesOut := messagesOut + [RoomJoin(room.name)];
      SetData(rooms, room, true);
      messagesOut := messagesOut + [RoomHistory(room.name, ROOM_HISTORY_MAX_ENTRIES, [])];
    }

    /** `issue_room_join_if_needed` */
    method IssueRoomJoinIfNeeded(name: string)
      requires Valid()
      modifies this, rooms.activeRooms
      ensures Valid() && Value() == JoinIfNeeded(old(Value()), name)
    {
      if name == "" {
        return;
      }
      var room := rooms.Lookup(name);
      if room != null {
        RoomAt(rooms, room);
        if !room.data {
          hide RoomManager.Valid, HistoryStore.Valid, RoomManager.Value, Find, JoinRequest, ChatWindow.Valid;
          IssueRoomJoin(room);
        }
      }
    }
  
    /** What may have happened to the objects the window is made of. */
    twostate predicate GrowsOnly()
      reads this, rooms, history
    {
      && (forall o :: o in history.repr ==> o in old(history.repr) || fresh(o))
      && (forall i :: 0 <= i < |rooms.activeRooms| ==>
            rooms.activeRooms[i] in old(rooms.activeRooms) || fresh(rooms.activeRooms[i]))
    }

    /** After the list of rooms changed: show it, go back to the selected room, join if needed. */
    method ShowAndSelect()
      requires Valid()
      modifies this, rooms.activeRooms, history
      ensures Valid() && history.repr == old(history.repr) && rooms.activeRooms == old(rooms.activeRooms)
      ensures Value() == WithRooms(old(Value()), old(Value()).rooms)
    {
      hide RoomManager.Valid, HistoryStore.Valid, RoomManager.Value, JoinIfNeeded, SelectByName, UpdateRooms;
      var before := currentName;
      ShowRooms();
      SelectRoomByName(before);
      IssueRoomJoinIfNeeded(currentName);
    }

    /** `clear`, then one room for each name. */
    method ReplaceRooms(names: seq<string>)
      requires Valid()
      modifies rooms
      ensures Valid() && Value() == old(Value()).(rooms := Created(names))
      ensures forall i :: 0 <= i < |rooms.activeRooms| ==> fresh(rooms.activeRooms[i])
    {
      hide RoomManager.Valid, HistoryStore.Valid, RoomManager.Value, Create;
      rooms.Clear();
      for i := 0 to |names|
        invariant Valid() && Value() == old(Value()).(rooms := Created(names[..i]))
        invariant forall j :: 0 <= j < |rooms.activeRooms| ==> fresh(rooms.activeRooms[j])
      {
        assert names[..i + 1][..i] == names[..i];
        var room := rooms.CreateRoom(names[i], false);
      }
      assert names[..|names|] == names;
    }

    method HandleRoomList(names: seq<string>)
      requires Valid()
      modifies this, rooms, history
      ensures Valid() && GrowsOnly() && Value() == Handle(old(Value()), RoomList(names))
    {
      hide RoomManager.Valid, HistoryStore.Valid, RoomManager.Value, WithRooms, Created;
      ReplaceRooms(names);
      SameCurrent(old(Value()), Created(names));
      ShowAndSelect();
    }

    method HandleRoomCreate(name: string)
      requires Valid()
      modifies this, rooms, rooms.activeRooms, history
      ensures Valid() && GrowsOnly() && Value() == Handle(old(Value()), RoomCreate(name))
    {
      hide RoomManager.Valid, HistoryStore.Valid, RoomManager.Value, WithRooms, CanCreate;
      ghost var w := Value();
      var room := rooms.CreateRoom(name, false);
      if room != null {
        SameCurrent(w, Create(w.rooms, name, false));
        ShowAndSelect();
      }
    }

    method HandleRoomDestroy(name: string)
      requires Valid()
      modifies this, rooms, rooms.activeRooms, history
      ensures Valid() && GrowsOnly() && Value() == Handle(old(Value()), RoomDestroy(name))
    {
      hide RoomManager.Valid, HistoryStore.Valid, RoomManager.Value, Find, Sweep, Doom, UpdateRooms, SelectByName, JoinIfNeeded;
      var before := currentName;
      var room := rooms.Lookup(name);
      if room != null {
        MarkDestroyed(rooms, room);
        rooms.RemoveDestroyedRooms();
        assert forall i :: 0 <= i < |rooms.activeRooms| ==> rooms.activeRooms[i] in old(rooms.activeRooms);
        ShowRooms();
        if before == name {
          IssueRoomJoinIfNeeded(currentName);
        } else {
          SelectRoomByName(before);
        }
      }
    }

    method HandleRoomHistory(name: string, events: seq<WireEvent>, ghost m: Message)
      requires Valid() && m.RoomHistory? && m.room == name && m.events == events
      modifies history, history.repr
      ensures Valid() && GrowsOnly() && Value() == Handle(old(Value()), m)
    {
      hide RoomManager.Valid, HistoryStore.Valid, RoomManager.Value, Find, Last;
      var room := rooms.Lookup(name);
      if room != null {
        history.Rewrite(name, events);
      }
    }

    method HandleChatEcho(name: string, event: WireEvent)
      requires Valid()
      modifies history, history.repr
      ensures Valid() && GrowsOnly() && Value() == Handle(old(Value()), ChatEcho(name, event))
    {
      hide RoomManager.Valid, HistoryStore.Valid, RoomManager.Value, Last;
      history.Insert(name, event);
    }

    /** One turn of the message loop of MSG_UPDATE. */
    method HandleMessage(m: Message)
      requires Valid()
      modifies this, rooms, rooms.activeRooms, history, history.repr
      ensures Valid() && GrowsOnly() && Value() == Handle(old(Value()), m)
    {
      hide ChatWindow.Valid, ChatWindow.Value, WithRooms, WithoutRoom, Created, Create, CanCreate, Lists, Last, Shown;
      match m
      case RoomList(names) => HandleRoomList(names);
      case RoomCreate(room) => HandleRoomCreate(room);
      case RoomDestroy(room) => HandleRoomDestroy(room);
      case RoomHistory(room, _, events) => HandleRoomHistory(room, events, m);
      case ChatEcho(room, event) => HandleChatEcho(room, event);
      case _ =>
    }

    /** The user picked an entry of the list: MSG_ROOM_CHANGED. */
    method RoomChanged(index: nat)
      requires Valid()
      modifies this, rooms.activeRooms
      ensures Valid() && Value() == Act(old(Value()), Pick(index))
      ensures roomNames == old(roomNames) && currentIndex == index
      ensures currentName == if index < |roomNames| then roomNames[index] else ""
      ensures messagesOut == old(messagesOut) +
              if currentName == "" || !Lists(old(Value()).rooms, currentName) || IsJoined(old(Value()), currentName) then []
              else [RoomJoin(currentName), RoomHistory(currentName, 100, [])]
    {
      PickQueues(Value(), index);
      hide RoomManager.Valid, HistoryStore.Valid, RoomManager.Value, JoinIfNeeded, IsJoined, Lists, Act;
      currentIndex := index;
      if index < |roomNames| {
        currentName := roomNames[index];
      } else {
        currentName := "";
      }
      IssueRoomJoinIfNeeded(currentName);
    }

    /** The user submitted the input line: MSG_CHAT_SUBMIT. */
    method ChatSubmit(input: string)
      requires Valid()
      modifies this`messagesOut
      ensures Valid() && Value() == Act(old(Value()), Submit(input))
      ensures input == "" ==> messagesOut == old(messagesOut)
      ensures input != "" && input[0] != '/' ==>
                messagesOut == old(messagesOut) + if currentName == "" then [] else [ChatSend(currentName, input)]
      ensures Settled(old(Value())) && input != "" && input[0] != '/' && roomNames != [] ==>
                currentIndex < |roomNames| && messagesOut == old(messagesOut) + [ChatSend(roomNames[currentIndex], input)]
      ensures Settled(old(Value())) ==> Queues(old(Value()), input, Value())
    {
      SettledSubmit(Value(), input);
      hide Settled, Queues, RoomManager.Valid, HistoryStore.Valid, RoomManager.Value, Commanded, Tokens, Act;
      if input == "" {
        return;
      }
      if input[0] == '/' {
        var tokens := Tokenize(input, ' ');
        FirstWord(input, ' ');
        RunCommand(tokens);
      } else if currentName != "" {
        messagesOut := messagesOut + [ChatSend(currentName, input)];
      }
    }

    method RunCommand(tokens: seq<string>)
      requires Valid() && tokens != []
      modifies this`messagesOut
      ensures Valid() && Value() == Commanded(old(Value()), tokens)
    {
      hide RoomManager.Valid, HistoryStore.Valid, RoomManager.Value, Find;
      var command := Lower(tokens[0]);
      if command == "/create_room" {
        if |tokens| == 2 && IsValidRoomName(tokens[1]) {
          messagesOut := messagesOut + [RoomCreate(tokens[1])];
        }
      } else if command == "/destroy_room" {
        if |tokens| == 2 {
          var room := rooms.Lookup(tokens[1]);
          if room != null {
            messagesOut := messagesOut + [RoomDestroy(room.name)];
          }
        }
      }
    }
  }

  /** What submitting a line does, and what that means in a window that agrees with itself. */
  lemma SettledSubmit(w: Window, input: string)
    ensures Act(w, Submit(input)) ==
            if input == "" then w
            else if input[0] == '/' then Commanded(w, Tokens(input, ' '))
            else if w.current != "" then w.(sent := w.sent + [ChatSend(w.current, input)])
            else w
    ensures Settled(w) ==>
              && Queues(w, input, Act(w, Submit(input)))
              && (w.display != [] ==> w.index < |w.display| && w.current == w.display[w.index] && w.current != "")
  {
    if Settled(w) {
      SubmitQueues(w, input);
      NoEmptyNames(w.rooms);
    }
  }

  /** What picking an entry changes and queues. */
  lemma PickQueues(w: Window, i: nat)
    ensures var w', name := Act(w, Pick(i)), if i < |w.display| then w.display[i] else "";
            && w' == JoinIfNeeded(w.(index := i, current := name), name)
            && w'.display == w.display && w'.index == i && w'.current == name && w'.history == w.history
            && w'.sent == w.sent +
               if name == "" || !Lists(w.rooms, name) || IsJoined(w, name) then []
               else [RoomJoin(name), RoomHistory(name, 100, [])]
  {
  }

  lemma SameCurrent(w: Window, rooms: seq<ClientRoom>)
    ensures WithRooms(w.(rooms := rooms), rooms) == WithRooms(w, rooms)
  {
  }

  lemma FoundName(names: seq<string>, name: string, i: nat)
    requires i < |names| && names[i] == name && forall j :: 0 <= j < i ==> names[j] != name
    ensures IndexOf(names, name) == i
  {
  }

  lemma KeptIsKept(history: map<string, seq<WireEvent>>, names: seq<string>)
    ensures (map room | room in history && room in names :: history[room]) == Kept(history, Elements(names))
  {
  }
}
