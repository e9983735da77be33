/** Rooms as objects, and the manager that creates, finds and sweeps them in place. */
module RoomManagers {
  import opened Collections
  import opened Rooms

  class Room<D> {
    const name: string
    var destroyRequested: bool
    var data: D

    constructor (name: string, data: D)
      ensures this.name == name && !destroyRequested && this.data == data
    {
      this.name, this.data, destroyRequested := name, data, false;
    }

    ghost function Value(): RoomState<D>
      reads this
    {
      RoomState(name, destroyRequested, data)
    }

    method RequestDestroy()
      modifies this`destroyRequested
      ensures destroyRequested
    {
      destroyRequested := true;
    }
  }

  ghost function Values<D>(rooms: seq<Room<D>>): (values: seq<RoomState<D>>)
    reads rooms
    ensures |values| == |rooms|
    ensures forall i :: 0 <= i < |rooms| ==> values[i] == rooms[i].Value()
  {
    seq(|rooms|, i requires 0 <= i < |rooms| reads rooms => rooms[i].Value())
  }

  ghost predicate Apart<D>(rooms: seq<Room<D>>) {
    forall i, j :: 0 <= i < j < |rooms| ==> rooms[i] != rooms[j]
  }

  /** `erase_if`: the rooms not marked for destruction, in their order. */
  method Survivors<D>(rooms: seq<Room<D>>) returns (kept: seq<Room<D>>)
    requires Apart(rooms)
    ensures Values(kept) == Sweep(Values(rooms))
    ensures Apart(kept) && forall room :: room in kept ==> room in rooms
    ensures |kept| <= |rooms| && (|kept| == |rooms| ==> kept == rooms)
  {
    kept := [];
    ghost var values := Values(rooms);
    for i := 0 to |rooms|
      invariant |kept| <= i && (|kept| == i ==> kept == rooms[..i])
      invariant Values(kept) == Sweep(values[..i])
      invariant Apart(kept) && forall room :: room in kept ==> room in rooms[..i]
    {
      ghost var before := kept;
      assert values[..i + 1][..i] == values[..i];
      if !rooms[i].destroyRequested {
        assert rooms[i] !in rooms[..i];
        kept := kept + [rooms[i]];
        assert Values(kept) == Values(before) + [values[i]];
      } else {
        assert Sweep(values[..i]) + [] == Sweep(values[..i]);
      }
    }
    assert values[..|rooms|] == values;
  }

  method NamesOf<D>(rooms: seq<Room<D>>) returns (names: seq<string>)
    ensures names == Names(Values(rooms))
  {
    names := [];
    for i := 0 to |rooms|
      invariant names == Names(Values(rooms))[..i]
    {
      names := names + [rooms[i].name];
    }
  }

  lemma NamesKnown<D>(manager: RoomManager<D>)
    requires manager.Valid()
    ensures manager.roomNames == Names(manager.Value())
  {
  }

  /** A room that a manager handed out is found under its name. */
  lemma RoomAt<D>(manager: RoomManager<D>, room: Room<D>)
    requires manager.Valid() && room in manager.activeRooms
    ensures var i := Find(manager.Value(), room.name);
            && i < |manager.activeRooms| && manager.activeRooms[i] == room && manager.Value()[i] == room.Value()
            && forall j :: 0 <= j < |manager.activeRooms| && j != i ==> manager.activeRooms[j] != room
  {
    var i :| 0 <= i < |manager.activeRooms| && manager.activeRooms[i] == room;
    FindIs(manager.Value(), i);
  }

  /** An assignment to such a room, seen from the manager. */
  method SetData<D>(manager: RoomManager<D>, room: Room<D>, data: D)
    requires manager.Valid() && room in manager.activeRooms
    modifies room`data
    ensures manager.Valid()
    ensures var i, rooms := Find(old(manager.Value()), room.name), old(manager.Value());
            i < |rooms| && manager.Value() == rooms[i := rooms[i].(data := data)]
  {
    ghost var rooms, i := manager.Value(), Find(manager.Value(), room.name);
    RoomAt(manager, room);
    UpdateKeepsNames(rooms, i, rooms[i].(data := data), "");
    hide WellNamed, Find, Names, Apart;
    room.data := data;
    assert manager.Value() == rooms[i := rooms[i].(data := data)];
  }

  /** The same for the destroy flag. */
  method MarkDestroyed<D>(manager: RoomManager<D>, room: Room<D>)
    requires manager.Valid() && room in manager.activeRooms
    modifies room`destroyRequested
    ensures manager.Valid() && manager.Value() == Doom(old(manager.Value()), room.name)
  {
    ghost var rooms, i := manager.Value(), Find(manager.Value(), room.name);
    RoomAt(manager, room);
    UpdateKeepsNames(rooms, i, rooms[i].(doomed := true), "");
    hide WellNamed, Find, Names, Apart;
    room.RequestDestroy();
    assert manager.Value() == rooms[i := rooms[i].(doomed := true)];
  }

  /** What it takes to create a room, and what is then there. */
  lemma CanCreateNamed<D>(rooms: seq<RoomState<D>>, name: string, data: D)
    requires WellNamed(rooms)
    ensures CanCreate(rooms, name) <==> IsValidRoomName(name) && name !in Names(rooms)
    ensures var rooms', named := Create(rooms, name, data), rooms + [RoomState(name, false, data)];
            && WellNamed(rooms') && rooms' == (if CanCreate(rooms, name) then named else rooms)
            && Names(named) == Names(rooms) + [name]
  {
    NamedIs(rooms, name);
    CreateKeepsNames(rooms, name, data);
  }

  class RoomManager<D> {
    var activeRooms: seq<Room<D>>
    var roomNames: seq<string>

    /** The list of names is the names of the rooms, which are valid and distinct. */
    ghost predicate Valid()
      reads this, activeRooms
    {
      && roomNames == Names(Value())
      && WellNamed(Value())
      && Apart(activeRooms)
    }

    ghost function Value(): seq<RoomState<D>>
      reads this, activeRooms
    {
      Values(activeRooms)
    }

    constructor ()
      ensures Valid() && Value() == [] && activeRooms == []
    {
      activeRooms, roomNames := [], [];
    }

    method CreateRoom(name: string, data: D) returns (room: Room?<D>)
      requires Valid()
      modifies this
      ensures Valid() && Value() == Create(old(Value()), name, data)
      ensures room != null <==> CanCreate(old(Value()), name)
      ensures room != null <==> IsValidRoomName(name) && name !in old(roomNames)
      ensures room != null ==> room.name == name && room.data == data && !room.destroyRequested
      ensures roomNames == old(roomNames) + if room != null then [name] else []
      ensures room == null ==> activeRooms == old(activeRooms)
      ensures room != null ==> fresh(room) && activeRooms == old(activeRooms) + [room]
    {
      ghost var before := Value();
      CanCreateNamed(before, name, data);
      hide WellNamed, Names, Find, IsValidRoomName, Create, CanCreate;
      if !IsValidRoomName(name) {
        return null;
      }
      if name in roomNames {
        return null;
      }
      var created := new Room(name, data);
      assert Values(activeRooms) == before;
      Add(created);
      room := created;
    }

    method Add(room: Room<D>)
      requires Apart(activeRooms) && room !in activeRooms
      requires WellNamed(Value() + [room.Value()]) && roomNames + [room.name] == Names(Value() + [room.Value()])
      modifies this
      ensures Valid() && Value() == old(Value()) + [room.Value()]
      ensures activeRooms == old(activeRooms) + [room] && roomNames == old(roomNames) + [room.name]
    {
      hide WellNamed, Names;
      ghost var before := Value();
      roomNames := roomNames + [room.name];
      activeRooms := activeRooms + [room];
      assert Value() == before + [room.Value()];
    }

    /** `operator[]` */
    method Lookup(name: string) returns (room: Room?<D>)
      requires Valid()
      ensures room != null <==> Lists(Value(), name)
      ensures room != null ==> room in activeRooms && room == activeRooms[Find(Value(), name)] && room.name == name
    {
      for i := 0 to |activeRooms|
        invariant forall j :: 0 <= j < i ==> activeRooms[j].name != name
      {
        if activeRooms[i].name == name {
          FindIs(Value(), i);
          return activeRooms[i];
        }
      }
      room := null;
    }

    method Clear()
      modifies this
      ensures Valid() && Value() == [] && activeRooms == []
    {
      activeRooms, roomNames := [], [];
    }

    lemma Parts()
      requires Valid()
      ensures Apart(activeRooms) && Value() == Values(activeRooms) && WellNamed(Sweep(Value()))
    {
      SweepKeepsNames(Value());
    }

    /** The names are rebuilt only if a room went. */
    method RemoveDestroyedRooms()
      requires Valid()
      modifies this
      ensures Valid() && Value() == Sweep(old(Value()))
      ensures forall room :: room in activeRooms ==> room in old(activeRooms)
    {
      Parts();
      hide WellNamed, Sweep, Names, Find, Apart, Values, RoomManager.Valid, RoomManager.Value;
      var kept := Survivors(activeRooms);
      if |kept| < |activeRooms| {
        var names := NamesOf(kept);
        Replace(kept, names);
      }
    }

    /** Both lists at once. */
    method Replace(rooms: seq<Room<D>>, names: seq<string>)
      requires names == Names(Values(rooms)) && WellNamed(Values(rooms)) && Apart(rooms)
      modifies this
      ensures Valid() && activeRooms == rooms && Value() == old(Values(rooms))
    {
      activeRooms, roomNames := rooms, names;
    }
  }
}
