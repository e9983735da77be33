/**
 The selected room of the chat window: after any sequence of messages and user actions it is a
 listed room that was joined, or there is no room at all.
 */
module Selection {
  import opened Collections
  import opened Messages
  import opened Rooms
  import opened Replicas
  import opened ClientSpec
  import opened Commands

  /** Nothing to select and nothing selected, or the entry, its name and a joined room agree. */
  ghost predicate SelectionAgrees(w: Window) {
    if w.display == [] then w.index == 0 && w.current == ""
    else w.index < |w.display| && w.display[w.index] == w.current && IsJoined(w, w.current)
  }

  ghost predicate Settled(w: Window) {
    Clean(w.rooms) && w.display == Names(w.rooms) && SelectionAgrees(w)
  }

  /** The name selected among `names` if `before` was selected earlier. */
  function Chosen(names: seq<string>, before: string): string {
    if before in names then before else if names == [] then "" else names[0]
  }

  lemma JoinJoins(w: Window, room: string)
    requires Clean(w.rooms) && Lists(w.rooms, room)
    ensures IsJoined(JoinIfNeeded(w, room), room)
  {
    var i := Find(w.rooms, room);
    AllValid(w.rooms, i);
    UpdateKeepsNames(w.rooms, i, w.rooms[i].(data := true), room);
  }

  lemma JoinSettles(w: Window)
    requires Clean(w.rooms) && w.display == Names(w.rooms)
    requires if w.display == [] then w.index == 0 && w.current == ""
             else w.index < |w.display| && w.display[w.index] == w.current
    ensures Settled(JoinIfNeeded(w, w.current))
  {
    JoinKeepsView(w, w.current);
    if w.display != [] {
      NamedIs(w.rooms, w.current);
      JoinJoins(w, w.current);
    }
  }

  lemma SelectChooses(w: Window, before: string)
    ensures var w' := SelectByName(UpdateRooms(w), before);
            && w'.rooms == w.rooms && w'.display == Names(w.rooms) && w'.current == Chosen(w'.display, before)
            && w'.sent == w.sent
            && (if w'.display == [] then w'.index == 0 && w'.current == ""
                else w'.index < |w'.display| && w'.display[w'.index] == w'.current)
  {
  }

  lemma NewRoomsSettle(w: Window, rooms: seq<ClientRoom>)
    requires Clean(rooms)
    ensures Settled(WithRooms(w, rooms))
    ensures WithRooms(w, rooms).current == Chosen(Names(rooms), w.current)
  {
    var w0 := w.(rooms := rooms);
    SelectChooses(w0, w.current);
    var w1 := SelectByName(UpdateRooms(w0), w.current);
    JoinSettles(w1);
    JoinKeepsView(w1, w1.current);
  }

  /** Destroying the selected room selects the first of the others, and joins it. */
  lemma LosingSelectedSettles(w: Window, room: string)
    requires Settled(w) && w.current == room && Lists(w.rooms, room)
    ensures Settled(WithoutRoom(w, room))
    ensures WithoutRoom(w, room).current == Chosen(Names(WithoutRoom(w, room).rooms), room)
  {
    var w0 := w.(rooms := Sweep(Doom(w.rooms, room)));
    var w1 := UpdateRooms(w0);
    DestroyClean(w.rooms, room);
    DestroyFinds(w.rooms, room, room);
    NamedIs(w0.rooms, room);
    hide Sweep, Doom, Clean;
    JoinSettles(w1);
    JoinKeepsView(w1, w1.current);
  }

  /** Destroying another room goes back to the selected one, which is still joined. */
  lemma LosingAnotherSettles(w: Window, room: string)
    requires Settled(w) && w.current != room && Lists(w.rooms, room)
    ensures Settled(WithoutRoom(w, room)) && WithoutRoom(w, room).current == w.current
    ensures w.current in Names(WithoutRoom(w, room).rooms)
  {
    var w0 := w.(rooms := Sweep(Doom(w.rooms, room)));
    DestroyClean(w.rooms, room);
    DestroyFinds(w.rooms, room, w.current);
    NamedIs(w0.rooms, w.current);
    hide Sweep, Doom, Clean;
    SelectChooses(w0, w.current);
  }

  /**
   A message changes the selection only if the selected room goes: then the first room of the new
   list is selected, or none if there is none.
   */
  lemma HandleSettles(w: Window, m: Message)
    requires Settled(w)
    ensures Settled(Handle(w, m))
    ensures Handle(w, m).current == Chosen(Names(Handle(w, m).rooms), w.current)
  {
    hide Clean, WithRooms, WithoutRoom, Created, Create, Kept, Find, Last;
    match m
    case RoomList(names) =>
      CreatedClean(names);
      NewRoomsKeepNames(w, Created(names));
      NewRoomsSettle(w, Created(names));
    case RoomCreate(room) =>
      CreateClean(w.rooms, room);
      if CanCreate(w.rooms, room) {
        NewRoomsKeepNames(w, Create(w.rooms, room, false));
        NewRoomsSettle(w, Create(w.rooms, room, false));
      }
    case RoomDestroy(room) =>
      if Lists(w.rooms, room) {
        if w.current == room {
          LosingSelectedSettles(w, room);
        } else {
          LosingAnotherSettles(w, room);
        }
      }
    case _ =>
  }

  lemma NewRoomsKeepNames(w: Window, rooms: seq<ClientRoom>)
    requires Clean(rooms)
    ensures Names(WithRooms(w, rooms).rooms) == Names(rooms)
  {
    var w1 := SelectByName(UpdateRooms(w.(rooms := rooms)), w.current);
    JoinKeepsView(w1, w1.current);
  }

  lemma ActSettles(w: Window, action: Action)
    requires Settled(w) && Possible(w, action)
    ensures Settled(Act(w, action))
  {
    match action
    case Receive(m) => HandleSettles(w, m);
    case Pick(i) => JoinSettles(w.(index := i, current := w.display[i]));
    case _ =>
  }

  // ---- Every joined room was asked for ----

  /** A join of `room` was queued, with its history request, exactly if it was not joined before and now is. */
  ghost predicate AsksRightly(sent: seq<Message>, before: bool, w: Window, room: string) {
    && sent <= w.sent
    && (RoomJoin(room) in w.sent[|sent|..] <==> IsJoined(w, room) && !before)
    && (RoomJoin(room) in w.sent[|sent|..] ==> w.sent[|sent|..] == JoinRequest(room))
  }

  lemma JoinMarks(w: Window, selected: string, room: string)
    requires Clean(w.rooms)
    ensures var w' := JoinIfNeeded(w, selected);
            && (IsJoined(w', room) <==> IsJoined(w, room) || (room == selected && Lists(w.rooms, room)))
            && w'.sent == w.sent + if Lists(w.rooms, selected) && !IsJoined(w, selected) then JoinRequest(selected) else []
  {
    var i := Find(w.rooms, selected);
    if i < |w.rooms| {
      AllValid(w.rooms, i);
      UpdateKeepsNames(w.rooms, i, w.rooms[i].(data := true), room);
    }
  }

  lemma JoinAsksRightly(w: Window, selected: string, before: bool, room: string)
    requires Clean(w.rooms)
    requires IsJoined(w, room) ==> before
    requires before && Lists(w.rooms, room) ==> IsJoined(w, room)
    ensures AsksRightly(w.sent, before, JoinIfNeeded(w, selected), room)
  {
    JoinMarks(w, selected, room);
    hide JoinIfNeeded, IsJoined, Lists, Clean;
    assert (w.sent + JoinRequest(selected))[|w.sent|..] == JoinRequest(selected);
    assert (w.sent + [])[|w.sent|..] == [];
  }

  lemma {:induction false} CreatedUnjoined(names: seq<string>, room: string)
    ensures Lists(Created(names), room) ==> !Created(names)[Find(Created(names), room)].data
  {
    if names != [] {
      var n := |names| - 1;
      CreatedUnjoined(names[..n], room);
      FindWithLast(Created(names[..n]), RoomState(names[n], false, false), room);
    }
  }

  /** Over a list message nothing counts as joined before it: all its rooms are new. */
  predicate WasJoined(w: Window, action: Action, room: string) {
    IsJoined(w, room) && !(action.Receive? && action.m.RoomList?)
  }

  lemma ListAsks(w: Window, names: seq<string>, room: string)
    ensures AsksRightly(w.sent, false, WithRooms(w, Created(names)), room)
  {
    var w0 := w.(rooms := Created(names));
    CreatedClean(names);
    CreatedUnjoined(names, room);
    SelectChooses(w0, w.current);
    var w1 := SelectByName(UpdateRooms(w0), w.current);
    hide Created, UpdateRooms, SelectByName, Clean, AsksRightly;
    JoinAsksRightly(w1, w1.current, false, room);
  }

  lemma CreateAsks(w: Window, created: string, room: string)
    requires Clean(w.rooms) && CanCreate(w.rooms, created)
    ensures AsksRightly(w.sent, IsJoined(w, room), WithRooms(w, Create(w.rooms, created, false)), room)
  {
    var w0 := w.(rooms := Create(w.rooms, created, false));
    CreateClean(w.rooms, created);
    FindWithLast(w.rooms, RoomState(created, false, false), room);
    SelectChooses(w0, w.current);
    var w1 := SelectByName(UpdateRooms(w0), w.current);
    assert IsJoined(w0, room) == IsJoined(w, room);
    hide UpdateRooms, SelectByName, Clean, AsksRightly;
    JoinAsksRightly(w1, w1.current, IsJoined(w, room), room);
  }

  lemma DestroyMarks(w: Window, destroyed: string, room: string)
    requires Clean(w.rooms)
    ensures var w1 := UpdateRooms(w.(rooms := Sweep(Doom(w.rooms, destroyed))));
            && Clean(w1.rooms) && w1.sent == w.sent
            && (IsJoined(w1, room) <==> IsJoined(w, room) && room != destroyed)
            && (Lists(w1.rooms, room) <==> Lists(w.rooms, room) && room != destroyed)
  {
    DestroyClean(w.rooms, destroyed);
    DestroyFinds(w.rooms, destroyed, room);
    hide Sweep, Doom, Clean, Names, Kept;
  }

  lemma DestroyAsks(w: Window, destroyed: string, room: string)
    requires Clean(w.rooms)
    ensures AsksRightly(w.sent, IsJoined(w, room), WithoutRoom(w, destroyed), room)
  {
    var w1 := UpdateRooms(w.(rooms := Sweep(Doom(w.rooms, destroyed))));
    DestroyMarks(w, destroyed, room);
    hide Sweep, Doom, Clean, UpdateRooms, SelectByName, AsksRightly;
    if w.current == destroyed {
      JoinAsksRightly(w1, w1.current, IsJoined(w, room), room);
    } else {
      hide Find;
      UnjoinedAsks(w.sent, IsJoined(w, room), SelectByName(w1, w.current), room);
    }
  }

  lemma UnjoinedAsks(sent: seq<Message>, before: bool, w: Window, room: string)
    requires w.sent == sent && (IsJoined(w, room) ==> before)
    ensures AsksRightly(sent, before, w, room)
  {
  }

  lemma PushAsks(w: Window, m: Message, room: string)
    requires !m.RoomJoin?
    ensures AsksRightly(w.sent, IsJoined(w, room), Push(w, m), room)
  {
  }

  /** `w` differs from `w0` neither in its rooms nor in what is queued. */
  lemma SameAsks(w0: Window, w: Window, room: string)
    requires w.rooms == w0.rooms && w.sent == w0.sent
    ensures AsksRightly(w0.sent, IsJoined(w0, room), w, room)
  {
  }

  lemma ActAsks(w: Window, action: Action, room: string)
    requires Clean(w.rooms) && Possible(w, action)
    ensures AsksRightly(w.sent, WasJoined(w, action, room), Act(w, action), room)
  {
    hide AsksRightly, WithRooms, WithoutRoom, Created, Create, JoinIfNeeded, IsJoined, Kept, Clean, Names;
    match action
    case Receive(m) => HandleAsks(w, m, room);
    case Pick(i) =>
      var w1 := w.(index := i, current := w.display[i]);
      SameAsks(w, w1, room);
      SameJoined(w, w1, room);
      JoinAsksRightly(w1, w1.current, IsJoined(w, room), room);
    case Submit(input) => SubmitAsks(w, input, room);
  }

  lemma SubmitAsks(w: Window, input: string, room: string)
    ensures AsksRightly(w.sent, IsJoined(w, room), Act(w, Submit(input)), room)
  {
    SameAsks(w, w, room);
    if input != "" {
      PushAsks(w, ChatSend(w.current, input), room);
      CommandAsks(w, Tokens(input, ' '), room);
    }
    hide AsksRightly, IsJoined, Commanded;
  }

  lemma CommandAsks(w: Window, tokens: seq<string>, room: string)
    ensures AsksRightly(w.sent, IsJoined(w, room), Commanded(w, tokens), room)
  {
    SameAsks(w, w, room);
    if |tokens| == 2 {
      PushAsks(w, RoomCreate(tokens[1]), room);
      PushAsks(w, RoomDestroy(tokens[1]), room);
    }
    hide AsksRightly, IsJoined, Lower;
  }

  lemma SameJoined(w0: Window, w: Window, room: string)
    requires w.rooms == w0.rooms
    ensures IsJoined(w, room) == IsJoined(w0, room)
    ensures IsJoined(w, room) ==> Lists(w.rooms, room)
  {
  }

  lemma HandleAsks(w: Window, m: Message, room: string)
    requires Clean(w.rooms)
    ensures AsksRightly(w.sent, WasJoined(w, Receive(m), room), Handle(w, m), room)
  {
    hide AsksRightly, WithRooms, WithoutRoom, Created, Create, IsJoined, Kept, Clean, Names, Last;
    SameAsks(w, w, room);
    match m
    case RoomList(names) => ListAsks(w, names, room);
    case RoomCreate(name) =>
      if CanCreate(w.rooms, name) {
        CreateAsks(w, name, room);
      }
    case RoomDestroy(name) =>
      if Lists(w.rooms, name) {
        DestroyAsks(w, name, room);
      }
    case _ => SameAsks(w, Handle(w, m), room);
  }

  // ---- Runs of the window ----

  predicate AllPossible(w: Window, actions: seq<Action>) {
    actions == [] ||
    (AllPossible(w, actions[..|actions| - 1]) && Possible(After(w, actions[..|actions| - 1]), actions[|actions| - 1]))
  }

  function After(w: Window, actions: seq<Action>): Window {
    if actions == [] then w else Act(After(w, actions[..|actions| - 1]), actions[|actions| - 1])
  }

  lemma {:induction false} RunSettles(w: Window, actions: seq<Action>)
    requires Settled(w) && AllPossible(w, actions)
    ensures Settled(After(w, actions))
  {
    if actions != [] {
      var n := |actions| - 1;
      RunSettles(w, actions[..n]);
      ActSettles(After(w, actions[..n]), actions[n]);
    }
  }

  /** After the first `from` messages queued, a join of the room directly followed by its history request. */
  ghost predicate AskedSince(from: nat, sent: seq<Message>, room: string) {
    exists i :: from <= i && i + 1 < |sent| && sent[i] == RoomJoin(room) && sent[i..i + 2] == JoinRequest(room)
  }

  lemma StillAsked(from: nat, sent: seq<Message>, longer: seq<Message>, room: string)
    requires sent <= longer && AskedSince(from, sent, room)
    ensures AskedSince(from, longer, room)
  {
    var i :| from <= i && i + 1 < |sent| && sent[i] == RoomJoin(room) && sent[i..i + 2] == JoinRequest(room);
    assert longer[i] == RoomJoin(room) && longer[i..i + 2] == sent[i..i + 2];
  }

  /** If a room was not joined, or not even listed, and now is joined, it was asked for in between. */
  lemma {:induction false} JoinedWasAsked(w: Window, actions: seq<Action>, room: string)
    requires Settled(w) && AllPossible(w, actions) && !IsJoined(w, room)
    ensures w.sent <= After(w, actions).sent
    ensures IsJoined(After(w, actions), room) ==> AskedSince(|w.sent|, After(w, actions).sent, room)
  {
    hide Settled, IsJoined, Act, Possible;
    if actions != [] {
      var n := |actions| - 1;
      var before := After(w, actions[..n]);
      JoinedWasAsked(w, actions[..n], room);
      RunSettles(w, actions[..n]);
      ActAsks(before, actions[n], room);
      if WasJoined(before, actions[n], room) {
        StillAsked(|w.sent|, before.sent, After(w, actions).sent, room);
      } else if IsJoined(After(w, actions), room) {
        var sent := After(w, actions).sent;
        var i := |before.sent|;
        assert sent[i] == sent[i..][0] && sent[i..i + 2] == JoinRequest(room);
      }
    }
  }

  function Joins(messages: seq<Message>, room: string): nat {
    if messages == [] then 0
    else Joins(messages[..|messages| - 1], room) + if messages[|messages| - 1] == RoomJoin(room) then 1 else 0
  }

  lemma {:induction false} JoinsAppend(a: seq<Message>, b: seq<Message>, room: string)
    ensures Joins(a + b, room) == Joins(a, room) + Joins(b, room)
  {
    if b == [] {
      assert a + b == a;
    } else {
      assert (a + b)[..|a + b| - 1] == a + b[..|b| - 1];
      JoinsAppend(a, b[..|b| - 1], room);
    }
  }

  lemma {:induction false} NoJoins(messages: seq<Message>, room: string)
    requires RoomJoin(room) !in messages
    ensures Joins(messages, room) == 0
  {
    if messages != [] {
      NoJoins(messages[..|messages| - 1], room);
    }
  }

  lemma OneJoin(room: string)
    ensures Joins(JoinRequest(room), room) == 1
  {
    assert JoinRequest(room)[..1] == [RoomJoin(room)] && [RoomJoin(room)][..0] == [];
    assert Joins([RoomJoin(room)], room) == 1;
  }

  /** One action queues a join exactly when the room turns from not joined to joined. */
  lemma ActJoins(w: Window, action: Action, room: string)
    requires Settled(w) && Possible(w, action)
    ensures Joins(Act(w, action).sent, room) ==
            Joins(w.sent, room) + if IsJoined(Act(w, action), room) && !WasJoined(w, action, room) then 1 else 0
  {
    SettledIsClean(w);
    hide Settled, IsJoined, WasJoined, Act, Possible, JoinRequest;
    ActAsks(w, action, room);
    var sent := Act(w, action).sent;
    var queued := sent[|w.sent|..];
    assert sent == w.sent + queued;
    JoinsAppend(w.sent, queued, room);
    OneJoin(room);
    if RoomJoin(room) !in queued {
      NoJoins(queued, room);
    }
  }

  /** The room stays listed throughout, and no list message makes it a new one. */
  predicate Stays(w: Window, actions: seq<Action>, room: string) {
    && Lists(After(w, actions).rooms, room)
    && (actions == [] ||
        (&& Stays(w, actions[..|actions| - 1], room)
         && !(actions[|actions| - 1].Receive? && actions[|actions| - 1].m.RoomList?)))
  }

  /** A joined room stays joined as long as it is listed, but for a list message. */
  lemma StaysJoined(w: Window, action: Action, room: string)
    requires Settled(w) && Possible(w, action) && WasJoined(w, action, room)
    requires Lists(Act(w, action).rooms, room)
    ensures IsJoined(Act(w, action), room)
  {
    hide Created, Clean, Kept, Names, Last;
    match action
    case Receive(m) =>
      if m.RoomCreate? && CanCreate(w.rooms, m.room) {
        CreateStaysJoined(w, m.room, room);
      } else if m.RoomDestroy? && Lists(w.rooms, m.room) {
        DestroyStaysJoined(w, m.room, room);
      }
    case Pick(i) =>
      var w1 := w.(index := i, current := w.display[i]);
      SameJoined(w, w1, room);
      JoinMarks(w1, w1.current, room);
    case _ =>
  }

  lemma CreateStaysJoined(w: Window, created: string, room: string)
    requires Clean(w.rooms) && IsJoined(w, room)
    ensures IsJoined(WithRooms(w, Create(w.rooms, created, false)), room)
  {
    var w0 := w.(rooms := Create(w.rooms, created, false));
    CreateClean(w.rooms, created);
    FindWithLast(w.rooms, RoomState(created, false, false), room);
    SelectChooses(w0, w.current);
    var w1 := SelectByName(UpdateRooms(w0), w.current);
    assert IsJoined(w0, room);
    hide UpdateRooms, SelectByName, Clean;
    JoinMarks(w1, w1.current, room);
  }

  lemma DestroyStaysJoined(w: Window, destroyed: string, room: string)
    requires Clean(w.rooms) && IsJoined(w, room) && Lists(w.rooms, destroyed)
    requires Lists(WithoutRoom(w, destroyed).rooms, room)
    ensures IsJoined(WithoutRoom(w, destroyed), room)
  {
    var w1 := UpdateRooms(w.(rooms := Sweep(Doom(w.rooms, destroyed))));
    DestroyClean(w.rooms, destroyed);
    DestroyFinds(w.rooms, destroyed, room);
    JoinKeepsView(w1, w1.current);
    NamedIs(w1.rooms, room);
    NamedIs(WithoutRoom(w, destroyed).rooms, room);
    hide Sweep, Doom, Clean, Names, Kept;
    JoinMarks(w1, w1.current, room);
  }

  /** As long as a room stays, it is asked for at most once: exactly when it turns joined. */
  lemma {:induction false} AskedOnce(w: Window, actions: seq<Action>, room: string)
    requires Settled(w) && AllPossible(w, actions) && Stays(w, actions, room)
    ensures IsJoined(w, room) ==> IsJoined(After(w, actions), room)
    ensures Joins(After(w, actions).sent, room) ==
            Joins(w.sent, room) + if IsJoined(After(w, actions), room) && !IsJoined(w, room) then 1 else 0
  {
    hide Settled, IsJoined, Act, Possible;
    if actions != [] {
      var n := |actions| - 1;
      var before := After(w, actions[..n]);
      AskedOnce(w, actions[..n], room);
      RunSettles(w, actions[..n]);
      ActJoins(before, actions[n], room);
      if IsJoined(before, room) {
        StaysJoined(before, actions[n], room);
      }
    }
  }

  /** A room list settles a window, whatever it was like. */
  lemma ListSettles(w: Window, names: seq<string>)
    ensures Settled(Handle(w, RoomList(names)))
  {
    CreatedClean(names);
    NewRoomsSettle(w, Created(names));
  }

  lemma ActClean(w: Window, action: Action)
    requires Clean(w.rooms)
    ensures Clean(Act(w, action).rooms)
  {
    if action.Receive? {
      HandleFollows(w, action.m);
    } else {
      UserKeepsView(w, action);
    }
  }

  /** Every joined room was asked for after the first `from` messages queued. */
  ghost predicate JoinedAsked(from: nat, w: Window) {
    from <= |w.sent| && forall room :: IsJoined(w, room) ==> AskedSince(from, w.sent, room)
  }

  /** Any action keeps it so, and a list makes it so. */
  lemma ActKeepsAsked(from: nat, w: Window, action: Action)
    requires Clean(w.rooms) && Possible(w, action) && from <= |w.sent|
    requires JoinedAsked(from, w) || (action.Receive? && action.m.RoomList?)
    ensures JoinedAsked(from, Act(w, action))
  {
    var w' := Act(w, action);
    hide Act, IsJoined;
    forall room | IsJoined(w', room)
      ensures AskedSince(from, w'.sent, room)
    {
      ActAsks(w, action, room);
      if WasJoined(w, action, room) {
        StillAsked(from, w.sent, w'.sent, room);
      } else {
        var i := |w.sent|;
        assert w'.sent[i] == w'.sent[i..][0] && w'.sent[i..i + 2] == JoinRequest(room);
      }
    }
  }

  /** Whatever is selected was asked for in this connection, after the first `from` messages queued. */
  ghost predicate SelectedAsked(from: nat, w: Window) {
    w.current == "" || AskedSince(from, w.sent, w.current)
  }

  lemma {:induction false} RunKeepsAsked(from: nat, w: Window, actions: seq<Action>)
    requires Settled(w) && AllPossible(w, actions) && JoinedAsked(from, w)
    ensures Settled(After(w, actions)) && JoinedAsked(from, After(w, actions))
  {
    hide Settled, JoinedAsked, Act, Possible;
    if actions != [] {
      var n := |actions| - 1;
      var before := After(w, actions[..n]);
      RunKeepsAsked(from, w, actions[..n]);
      SettledIsClean(before);
      ActSettles(before, actions[n]);
      AskedFrom(from, before);
      ActKeepsAsked(from, before, actions[n]);
    }
  }

  lemma SettledIsClean(w: Window)
    requires Settled(w)
    ensures Clean(w.rooms)
  {
  }

  lemma AskedFrom(from: nat, w: Window)
    requires JoinedAsked(from, w)
    ensures from <= |w.sent|
  {
  }

  lemma {:induction false} RunClean(w: Window, actions: seq<Action>)
    requires Clean(w.rooms) && AllPossible(w, actions)
    ensures Clean(After(w, actions).rooms)
  {
    if actions != [] {
      RunClean(w, actions[..|actions| - 1]);
      ActClean(After(w, actions[..|actions| - 1]), actions[|actions| - 1]);
    }
  }

  lemma {:induction false} AfterJoins(w: Window, first: seq<Action>, actions: seq<Action>)
    requires AllPossible(w, first + actions)
    ensures AllPossible(w, first) && AllPossible(After(w, first), actions)
    ensures After(w, first + actions) == After(After(w, first), actions)
  {
    if actions == [] {
      assert first + actions == first;
    } else {
      assert (first + actions)[..|first + actions| - 1] == first + actions[..|actions| - 1];
      AfterJoins(w, first, actions[..|actions| - 1]);
    }
  }

  /**
   Over any clean leftover rooms: from the first list on, and from every later one on, the window
   agrees with itself and the selected room was asked for since that list.
   */
  lemma ListMakesAsked(leftover: seq<ClientRoom>, actions: seq<Action>, k: nat)
    requires Clean(leftover) && AllPossible(Opened(leftover), actions)
    requires k < |actions| && actions[k].Receive? && actions[k].m.RoomList?
    ensures var w := After(Opened(leftover), actions);
            Settled(w) && SelectedAsked(|After(Opened(leftover), actions[..k]).sent|, w)
  {
    var w0, before := Opened(leftover), After(Opened(leftover), actions[..k]);
    var first, more := actions[..k + 1], actions[k + 1..];
    assert actions == first + more && first[..k] == actions[..k];
    AfterJoins(w0, first, more);
    RunClean(w0, actions[..k]);
    hide Settled, SelectedAsked, JoinedAsked, Act, Clean;
    ListSettles(before, actions[k].m.names);
    ListIsHandled(before, actions[k]);
    ActKeepsAsked(|before.sent|, before, actions[k]);
    RunKeepsAsked(|before.sent|, After(w0, first), more);
    SettledSelected(|before.sent|, After(w0, actions));
  }

  lemma ListIsHandled(w: Window, action: Action)
    requires action.Receive?
    ensures Act(w, action) == Handle(w, action.m)
  {
  }

  lemma SettledSelected(from: nat, w: Window)
    requires Settled(w) && JoinedAsked(from, w)
    ensures SelectedAsked(from, w)
  {
  }

  /**
   From a first connection's window on, whatever arrives and whatever the user does: either there is
   no room and no selection, or the selected entry and name agree, the room is listed and joined,
   and a join directly followed by a history request was queued for it.
   */
  lemma SelectedIsJoined(actions: seq<Action>)
    requires AllPossible(Opened([]), actions)
    ensures var w := After(Opened([]), actions);
            && w.display == Names(w.rooms)
            && SelectionAgrees(w)
            && (w.rooms != [] ==> Lists(w.rooms, w.current) && AskedSince(0, w.sent, w.current))
  {
    var w := After(Opened([]), actions);
    RunSettles(Opened([]), actions);
    JoinedWasAsked(Opened([]), actions, w.current);
  }

  /** Leftover rooms that can do no harm: none, or a single one that was not joined. */
  predicate Harmless(leftover: seq<ClientRoom>) {
    leftover == [] || (|leftover| == 1 && !leftover[0].data)
  }

  /** The window agrees with itself, or nothing has changed its rooms yet and nothing is on display. */
  ghost predicate Unharmed(leftover: seq<ClientRoom>, w: Window) {
    JoinedAsked(0, w) && Clean(w.rooms) && (Settled(w) || (w.rooms == leftover && Unshown(w)))
  }

  predicate Unshown(w: Window) {
    w.display == [] && w.index == 0 && w.current == ""
  }

  lemma RoomsHaveNames(rooms: seq<ClientRoom>)
    ensures rooms != [] ==> Elements(Names(rooms)) != {}
  {
    if rooms != [] {
      assert Names(rooms)[0] in Elements(Names(rooms));
    }
  }

  /** A single unjoined room that goes before anything is shown leaves a window without rooms. */
  lemma OnlyRoomGoes(w: Window)
    requires |w.rooms| == 1 && Clean(w.rooms) && Unshown(w)
    ensures Settled(WithoutRoom(w, w.rooms[0].name))
  {
    var room := w.rooms[0].name;
    AllValid(w.rooms, 0);
    DestroyClean(w.rooms, room);
    DestroyNames(w.rooms, room);
    var rooms := Sweep(Doom(w.rooms, room));
    assert Elements(Names(w.rooms)) == {room};
    RoomsHaveNames(rooms);
  }

  lemma UnshownHandles(leftover: seq<ClientRoom>, w: Window, m: Message)
    requires |leftover| == 1 && w.rooms == leftover && Unshown(w) && Clean(w.rooms)
    ensures var w' := Handle(w, m); Settled(w') || (w'.rooms == leftover && Unshown(w'))
  {
    match m
    case RoomList(names) => ListSettles(w, names);
    case RoomCreate(room) =>
      if CanCreate(w.rooms, room) {
        CreateClean(w.rooms, room);
        NewRoomsSettle(w, Create(w.rooms, room, false));
      }
    case RoomDestroy(room) =>
      if Lists(w.rooms, room) {
        OnlyRoomGoes(w);
      }
    case _ =>
  }

  lemma HarmlessStays(leftover: seq<ClientRoom>, w: Window, action: Action)
    requires Harmless(leftover) && Clean(leftover) && Unharmed(leftover, w) && Possible(w, action)
    ensures Unharmed(leftover, Act(w, action))
  {
    ActClean(w, action);
    ActKeepsAsked(0, w, action);
    hide Clean, JoinedAsked;
    if Settled(w) {
      ActSettles(w, action);
    } else if action.Receive? {
      assert leftover != [] by {
        if leftover == [] {
          EmptySettled(w);
        }
      }
      hide Settled, Handle;
      UnshownHandles(leftover, w, action.m);
    } else {
      hide Settled;
      UserKeepsUnshown(w, action);
    }
  }

  lemma EmptySettled(w: Window)
    requires w.rooms == [] && Unshown(w)
    ensures Settled(w)
  {
  }

  lemma UserKeepsUnshown(w: Window, action: Action)
    requires Unshown(w) && Possible(w, action) && !action.Receive?
    ensures Unshown(Act(w, action)) && Act(w, action).rooms == w.rooms
  {
  }

  lemma {:induction false} HarmlessRuns(leftover: seq<ClientRoom>, actions: seq<Action>)
    requires Harmless(leftover) && Clean(leftover) && AllPossible(Opened(leftover), actions)
    ensures Unharmed(leftover, After(Opened(leftover), actions))
  {
    if actions == [] {
      NothingJoined(leftover);
    } else {
      var n := |actions| - 1;
      hide Unharmed, Harmless, Act, Possible;
      HarmlessRuns(leftover, actions[..n]);
      HarmlessStays(leftover, After(Opened(leftover), actions[..n]), actions[n]);
    }
  }

  lemma NothingJoined(leftover: seq<ClientRoom>)
    requires Harmless(leftover)
    ensures JoinedAsked(0, Opened(leftover))
  {
  }

  /** A room that goes before anything is shown: the first of the others is selected, and no join queued. */
  lemma GoneBeforeShown(w: Window, room: string, rooms: seq<ClientRoom>)
    requires Unshown(w) && Lists(w.rooms, room) && room != "" && rooms == Sweep(Doom(w.rooms, room)) && Clean(rooms)
    ensures Handle(w, RoomDestroy(room)) == UpdateRooms(w.(rooms := rooms))
  {
    hide Sweep, Doom, Clean, UpdateRooms, SelectByName, Lists, JoinIfNeeded;
    SelectsNothing(w.(rooms := rooms));
  }

  lemma SelectsNothing(w: Window)
    requires Clean(w.rooms)
    ensures SelectByName(UpdateRooms(w), "") == UpdateRooms(w)
  {
    NoEmptyNames(w.rooms);
  }

  /** With two leftover rooms: the news that the first is destroyed selects another that was not asked for. */
  lemma SecondSelectedUnasked(leftover: seq<ClientRoom>) returns (m: Message)
    requires Clean(leftover) && |leftover| >= 2
    ensures !SelectedAsked(0, Handle(Opened(leftover), m))
  {
    m := RoomDestroy(leftover[0].name);
    var rooms := Sweep(Doom(leftover, leftover[0].name));
    FindIs(leftover, 0);
    FindIs(leftover, 1);
    AllValid(leftover, 0);
    DestroyFinds(leftover, leftover[0].name, leftover[1].name);
    DestroyClean(leftover, leftover[0].name);
    AllValid(rooms, 0);
    GoneBeforeShown(Opened(leftover), leftover[0].name, rooms);
    hide Sweep, Doom, Find, Clean, WellNamed, Handle;
    NothingAsked([]);
  }

  lemma NoEmptyNames(rooms: seq<ClientRoom>)
    requires Clean(rooms)
    ensures forall i :: 0 <= i < |rooms| ==> Names(rooms)[i] != ""
  {
    forall i | 0 <= i < |rooms|
      ensures Names(rooms)[i] != ""
    {
      AllValid(rooms, i);
    }
  }

  lemma NothingAsked(sent: seq<Message>)
    requires sent == []
    ensures forall room :: !AskedSince(0, sent, room)
  {
  }

  /** With a leftover room marked joined: the news of a new room selects the old one without asking for it. */
  lemma JoinedSelectedUnasked(leftover: seq<ClientRoom>) returns (m: Message)
    requires Clean(leftover) && |leftover| == 1 && leftover[0].data
    ensures !SelectedAsked(0, Handle(Opened(leftover), m))
  {
    var name := if leftover[0].name == "a" then "b" else "a";
    m := RoomCreate(name);
    AllValid(leftover, 0);
    var rooms := leftover + [RoomState(name, false, false)];
    FindWithLast(leftover, RoomState(name, false, false), leftover[0].name);
    assert Names(rooms)[0] == leftover[0].name && Names(rooms)[1] == name && Find(leftover, leftover[0].name) == 0;
    assert leftover[0].name != "" && "" !in Names(rooms);
    var w0 := Opened(leftover).(rooms := rooms);
    SelectChooses(w0, "");
    FindWithLast(leftover, RoomState(name, false, false), name);
    assert CanCreate(leftover, name) && Create(leftover, name, false) == rooms;
    var w1 := SelectByName(UpdateRooms(w0), "");
    assert w1.current == leftover[0].name && IsJoined(w1, w1.current);
    hide Kept, SelectByName, UpdateRooms, Find;
    NothingAsked([]);
  }

  /**
   Whatever arrives and whatever the user does, the selected room was asked for in this connection,
   exactly if there are no leftover rooms or a single one that is not marked as joined.
   */
  lemma SelectedAskedExactly(leftover: seq<ClientRoom>)
    requires Clean(leftover)
    ensures Harmless(leftover) <==>
            forall actions :: AllPossible(Opened(leftover), actions) ==> SelectedAsked(0, After(Opened(leftover), actions))
  {
    if Harmless(leftover) {
      forall actions | AllPossible(Opened(leftover), actions)
        ensures SelectedAsked(0, After(Opened(leftover), actions))
      {
        HarmlessRuns(leftover, actions);
        UnharmedAsked(leftover, After(Opened(leftover), actions));
      }
    } else {
      var m: Message;
      if |leftover| >= 2 {
        m := SecondSelectedUnasked(leftover);
      } else {
        m := JoinedSelectedUnasked(leftover);
      }
      OneMessage(Opened(leftover), m);
    }
  }

  lemma UnharmedAsked(leftover: seq<ClientRoom>, w: Window)
    requires Unharmed(leftover, w)
    ensures SelectedAsked(0, w)
  {
    hide Clean, AskedSince;
  }

  lemma OneMessage(w: Window, m: Message)
    ensures AllPossible(w, [Receive(m)]) && After(w, [Receive(m)]) == Handle(w, m)
  {
    assert [Receive(m)][..0] == [];
    hide Handle;
  }

  lemma FirstOfTwoGoes(a: ClientRoom, b: ClientRoom)
    requires !b.doomed && a.name != b.name
    ensures Sweep(Doom([a, b], a.name)) == [b]
  {
    var a' := a.(doomed := true);
    assert Find([a, b], a.name) == 0;
    assert Doom([a, b], a.name) == [a', b];
    assert [a', b][..1] == [a'] && [a'][..0] == [];
    assert Sweep([a']) == [];
  }

  /**
   With rooms left over from an earlier connection, the broadcast that one of them was destroyed may
   come before the first list: then another is selected that this connection never asked to join.
   */
  lemma LeftoverSelectedUnjoined()
    ensures var w := Handle(Opened([RoomState("a", false, false), RoomState("b", false, false)]), RoomDestroy("a"));
            w.current == "b" && !IsJoined(w, "b") && w.sent == []
  {
    var a, b: ClientRoom := RoomState("a", false, false), RoomState("b", false, false);
    FirstOfTwoGoes(a, b);
    OneRoomClean(b);
    assert Find([a, b], "a") == 0 && Find([b], "b") == 0;
    GoneBeforeShown(Opened([a, b]), "a", [b]);
    hide Sweep, Doom, Kept, Find, Handle;
  }

  lemma OneRoomClean(room: ClientRoom)
    requires IsValidRoomName(room.name) && !room.doomed
    ensures Clean([room])
  {
    assert [room][..0] == [];
  }

  /** One leftover room that is marked joined and a ROOM_CREATE before the first list: the mark suppresses the join. */
  lemma LeftoverMarkSuppressesJoin()
    ensures var w := Handle(Opened([RoomState("a", false, true)]), RoomCreate("b"));
            w.current == "a" && IsJoined(w, "a") && w.sent == []
  {
    var a, b: ClientRoom := RoomState("a", false, true), RoomState("b", false, false);
    assert Find([a], "b") == 1 && Find([a, b], "a") == 0;
    assert [a] + [b] == [a, b];
    hide Kept;
  }
}
