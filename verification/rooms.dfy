/** Rooms and the manager both sides keep them in: include/tavernmx/room.h and src/shared/room.cpp. */
module Rooms {
  import opened Collections

  const MAX_ROOM_NAME_SIZE := 25

  predicate IsAlphanumeric(c: char) {
    '0' <= c <= '9' || 'A' <= c <= 'Z' || 'a' <= c <= 'z'
  }

  predicate IsValidRoomName(name: string) {
    && 0 < |name| <= MAX_ROOM_NAME_SIZE
    && name[0] != '-' && name[|name| - 1] != '-'
    && forall i :: 0 <= i < |name| ==> IsAlphanumeric(name[i]) || name[i] == '-'
  }

  function Dashes(n: nat): (s: string)
    ensures |s| == n && forall i :: 0 <= i < n ==> s[i] == '-'
  {
    seq(n, _ => '-')
  }

  /** A name of one character is valid exactly if it is an ASCII letter or digit. */
  lemma OneCharacterName(c: char)
    ensures IsValidRoomName([c]) <==>
            0x30 <= c as int <= 0x39 || 0x41 <= c as int <= 0x5A || 0x61 <= c as int <= 0x7A
  {
    assert [c][0] == c;
  }

  /** Two valid names with any number of hyphens between them are valid exactly if they are short enough. */
  lemma JoinedNames(a: string, hyphens: nat, b: string)
    requires IsValidRoomName(a) && IsValidRoomName(b)
    ensures IsValidRoomName(a + Dashes(hyphens) + b) <==> |a| + hyphens + |b| <= 25
  {
    var name := a + Dashes(hyphens) + b;
    forall i | 0 <= i < |name|
      ensures IsAlphanumeric(name[i]) || name[i] == '-'
    {
      assert name[i] == if i < |a| then a[i] else if i < |a| + hyphens then '-' else b[i - |a| - hyphens];
    }
  }

  /** And there are no others: a longer valid name is a shorter one, hyphens, and one more letter or digit. */
  lemma LongerNames(name: string) returns (a: string, hyphens: nat)
    requires IsValidRoomName(name) && |name| > 1
    ensures IsValidRoomName(a) && IsValidRoomName(name[|name| - 1..])
    ensures name == a + Dashes(hyphens) + name[|name| - 1..]
  {
    var end := |name| - 1;
    while name[end - 1] == '-'
      invariant 0 < end < |name|
      invariant forall i :: end <= i < |name| - 1 ==> name[i] == '-'
      decreases end
    {
      end := end - 1;
    }
    a, hyphens := name[..end], |name| - 1 - end;
    assert name == a + Dashes(hyphens) + name[|name| - 1..];
  }

  /** No valid name is empty or longer than 25, starts or ends with a hyphen, or holds anything else. */
  lemma NameHolds(name: string, i: nat)
    requires IsValidRoomName(name) && i < |name|
    ensures 1 <= |name| <= 25 && name[0] != '-' && name[|name| - 1] != '-'
    ensures name[i] == '-' || IsValidRoomName([name[i]])
  {
  }

  /** The value of a room; `data` is what the derived room classes add. */
  datatype RoomState<+D> = RoomState(name: string, doomed: bool, data: D)

  function Names<D>(rooms: seq<RoomState<D>>): (names: seq<string>)
    ensures |names| == |rooms|
    ensures forall i :: 0 <= i < |rooms| ==> names[i] == rooms[i].name
  {
    seq(|rooms|, i requires 0 <= i < |rooms| => rooms[i].name)
  }

  /** The index of the room called `name`, or the number of rooms. */
  function Find<D>(rooms: seq<RoomState<D>>, name: string): (i: nat)
    ensures i <= |rooms|
    ensures i < |rooms| ==> rooms[i].name == name
    ensures forall j :: 0 <= j < i ==> rooms[j].name != name
  {
    if rooms == [] || rooms[0].name == name then 0 else 1 + Find(rooms[1..], name)
  }

  predicate Lists<D>(rooms: seq<RoomState<D>>, name: string) {
    Find(rooms, name) < |rooms|
  }

  predicate CanCreate<D>(rooms: seq<RoomState<D>>, name: string) {
    IsValidRoomName(name) && !Lists(rooms, name)
  }

  function Create<D>(rooms: seq<RoomState<D>>, name: string, data: D): seq<RoomState<D>> {
    if CanCreate(rooms, name) then rooms + [RoomState(name, false, data)] else rooms
  }

  function Doom<D>(rooms: seq<RoomState<D>>, name: string): seq<RoomState<D>> {
    var i := Find(rooms, name);
    if i == |rooms| then rooms else rooms[i := rooms[i].(doomed := true)]
  }

  /** The rooms that are not marked for destruction, in their order. */
  function Sweep<D>(rooms: seq<RoomState<D>>): seq<RoomState<D>> {
    if rooms == [] then []
    else
      var last := rooms[|rooms| - 1];
      Sweep(rooms[..|rooms| - 1]) + (if last.doomed then [] else [last])
  }

  /** Names are valid, and no room has the name of an earlier one. */
  predicate WellNamed<D>(rooms: seq<RoomState<D>>) {
    rooms == [] ||
    var earlier, last := rooms[..|rooms| - 1], rooms[|rooms| - 1];
    WellNamed(earlier) && !Lists(earlier, last.name) && IsValidRoomName(last.name)
  }

  lemma {:induction false} FindInAppend<D>(rooms: seq<RoomState<D>>, more: seq<RoomState<D>>, name: string)
    ensures Find(rooms + more, name) ==
            if Lists(rooms, name) then Find(rooms, name) else |rooms| + Find(more, name)
  {
    if rooms == [] {
      assert rooms + more == more;
    } else {
      assert (rooms + more)[1..] == rooms[1..] + more;
      FindInAppend(rooms[1..], more, name);
    }
  }

  lemma FindWithLast<D>(rooms: seq<RoomState<D>>, last: RoomState<D>, name: string)
    ensures Find(rooms + [last], name) ==
            if Lists(rooms, name) then Find(rooms, name)
            else if last.name == name then |rooms| else |rooms| + 1
  {
    FindInAppend(rooms, [last], name);
  }

  /** In a well-named list a room is where its name is found. */
  lemma {:induction false} FindIs<D>(rooms: seq<RoomState<D>>, i: nat)
    requires WellNamed(rooms) && i < |rooms|
    ensures Find(rooms, rooms[i].name) == i
  {
    var earlier, last := rooms[..|rooms| - 1], rooms[|rooms| - 1];
    assert rooms == earlier + [last];
    FindWithLast(earlier, last, rooms[i].name);
    if i < |earlier| {
      FindIs(earlier, i);
    }
  }

  lemma NamesDistinct<D>(rooms: seq<RoomState<D>>)
    requires WellNamed(rooms)
    ensures Distinct(Names(rooms))
  {
    forall i, j | 0 <= i < j < |rooms|
      ensures Names(rooms)[i] != Names(rooms)[j]
    {
      FindIs(rooms, i);
      FindIs(rooms, j);
    }
  }

  lemma NamedIs<D>(rooms: seq<RoomState<D>>, name: string)
    ensures Lists(rooms, name) <==> name in Names(rooms)
  {
    if Lists(rooms, name) {
      assert Names(rooms)[Find(rooms, name)] == name;
    }
  }

  /** Lookups depend on the names alone. */
  lemma {:induction false} SameNames<D>(rooms: seq<RoomState<D>>, rooms': seq<RoomState<D>>, name: string)
    requires Names(rooms) == Names(rooms')
    ensures Find(rooms', name) == Find(rooms, name)
    ensures WellNamed(rooms') == WellNamed(rooms)
  {
    var i, i' := Find(rooms, name), Find(rooms', name);
    assert |rooms| == |Names(rooms)| == |rooms'|;
    assert forall k :: 0 <= k < |rooms| ==> rooms'[k].name == Names(rooms)[k] == rooms[k].name;
    if rooms != [] {
      var last := |rooms| - 1;
      assert Names(rooms[..last]) == Names(rooms)[..last] == Names(rooms'[..last]);
      SameNames(rooms[..last], rooms'[..last], rooms[last].name);
    }
  }

  /** Replacing a room by one of the same name changes no lookup. */
  lemma UpdateKeepsNames<D>(rooms: seq<RoomState<D>>, i: nat, room: RoomState<D>, name: string)
    requires WellNamed(rooms) && i < |rooms| && room.name == rooms[i].name
    ensures WellNamed(rooms[i := room]) && Names(rooms[i := room]) == Names(rooms)
    ensures Find(rooms[i := room], name) == Find(rooms, name)
  {
    assert Names(rooms[i := room]) == Names(rooms);
    SameNames(rooms, rooms[i := room], name);
  }

  lemma CreateKeepsNames<D>(rooms: seq<RoomState<D>>, name: string, data: D)
    requires WellNamed(rooms)
    ensures WellNamed(Create(rooms, name, data))
  {
    if CanCreate(rooms, name) {
      assert Create(rooms, name, data)[..|rooms|] == rooms;
    }
  }

  /** A sweep finds exactly the rooms that are not doomed, unchanged. */
  lemma {:induction false} SweepFinds<D>(rooms: seq<RoomState<D>>, name: string)
    requires WellNamed(rooms)
    ensures Lists(Sweep(rooms), name) <==> Lists(rooms, name) && !rooms[Find(rooms, name)].doomed
    ensures Lists(Sweep(rooms), name) ==>
              Sweep(rooms)[Find(Sweep(rooms), name)] == rooms[Find(rooms, name)]
  {
    if rooms != [] {
      var earlier, last := rooms[..|rooms| - 1], rooms[|rooms| - 1];
      assert rooms == earlier + [last];
      SweepFinds(earlier, name);
      FindWithLast(earlier, last, name);
      FindWithLast(Sweep(earlier), last, name);
      assert Sweep(earlier) + [] == Sweep(earlier);
    }
  }

  lemma {:induction false} SweepKeepsNames<D>(rooms: seq<RoomState<D>>)
    requires WellNamed(rooms)
    ensures WellNamed(Sweep(rooms))
  {
    if rooms != [] {
      var earlier, last := rooms[..|rooms| - 1], rooms[|rooms| - 1];
      SweepKeepsNames(earlier);
      if last.doomed {
        assert Sweep(rooms) == Sweep(earlier);
      } else {
        SweepFinds(earlier, last.name);
        assert Sweep(rooms)[..|Sweep(earlier)|] == Sweep(earlier);
      }
    }
  }

  /** A sweep keeps the order of the rooms it keeps. */
  lemma {:induction false} SweepInOrder<D>(rooms: seq<RoomState<D>>, i: nat, j: nat)
    requires WellNamed(rooms) && i < j < |rooms| && !rooms[i].doomed && !rooms[j].doomed
    ensures Find(Sweep(rooms), rooms[i].name) < Find(Sweep(rooms), rooms[j].name) < |Sweep(rooms)|
  {
    var earlier, last := rooms[..|rooms| - 1], rooms[|rooms| - 1];
    assert Sweep(earlier) + [] == Sweep(earlier);
    FindIs(earlier, i);
    SweepFinds(earlier, rooms[i].name);
    FindWithLast(Sweep(earlier), last, rooms[i].name);
    FindWithLast(Sweep(earlier), last, rooms[j].name);
    if j < |earlier| {
      SweepInOrder(earlier, i, j);
    } else {
      SweepFinds(earlier, last.name);
    }
  }

  /** A run of the operations of the manager, and of `request_destroy` on a room looked up in it. */
  datatype Operation<D> = CreateRoom(name: string, data: D) | RequestDestroy(name: string) | RemoveDestroyed | Clear

  function Managed<D>(ops: seq<Operation<D>>): seq<RoomState<D>> {
    if ops == [] then []
    else
      var rooms := Managed(ops[..|ops| - 1]);
      match ops[|ops| - 1]
      case CreateRoom(name, data) => Create(rooms, name, data)
      case RequestDestroy(name) => Doom(rooms, name)
      case RemoveDestroyed => Sweep(rooms)
      case Clear => []
  }

  /** Over any run the names stay valid and distinct, and a lookup finds exactly the listed names. */
  lemma {:induction false} ManagerAgrees<D>(ops: seq<Operation<D>>, name: string)
    ensures WellNamed(Managed(ops)) && Distinct(Names(Managed(ops)))
    ensures Lists(Managed(ops), name) <==> name in Names(Managed(ops))
    ensures Lists(Managed(ops), name) ==> IsValidRoomName(name)
  {
    if ops != [] {
      var rooms := Managed(ops[..|ops| - 1]);
      ManagerAgrees(ops[..|ops| - 1], name);
      match ops[|ops| - 1]
      case CreateRoom(n, data) => CreateKeepsNames(rooms, n, data);
      case RequestDestroy(n) =>
        var i := Find(rooms, n);
        if i < |rooms| {
          UpdateKeepsNames(rooms, i, rooms[i].(doomed := true), n);
        }
      case RemoveDestroyed => SweepKeepsNames(rooms);
      case Clear =>
    }
    NamedIs(Managed(ops), name);
    NamesDistinct(Managed(ops));
    if Lists(Managed(ops), name) {
      AllValid(Managed(ops), Find(Managed(ops), name));
    }
  }

  lemma {:induction false} AllValid<D>(rooms: seq<RoomState<D>>, i: nat)
    requires WellNamed(rooms) && i < |rooms|
    ensures IsValidRoomName(rooms[i].name)
  {
    if i < |rooms| - 1 {
      AllValid(rooms[..|rooms| - 1], i);
    }
  }
}
