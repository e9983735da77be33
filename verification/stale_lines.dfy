/**
 Chat lines said in the tick in which their room is destroyed: they are pushed after the room's
 ROOM_DESTROY, and the client keeps them under the name of a room it no longer lists.
 */
module StaleLines {
  import opened Collections
  import opened Messages
  import opened Rooms
  import opened ServerSpec
  import opened ServerRun
  import opened Replicas
  import opened Convergence
  import opened Delivery

  /** The client neither lists the room nor has a history of it. */
  ghost predicate Forgotten(r: Replica, room: string) {
    room !in r.rooms && room !in r.history
  }

  /** The room has a history only if it is listed. */
  ghost predicate Orderly(r: Replica, room: string) {
    room in r.history ==> room in r.rooms
  }

  /** A room that is created is listed from then on, whatever was kept under its name. */
  lemma {:induction false} CreatesMakeOrder(r: Replica, created: seq<string>, room: string)
    requires Orderly(r, room) || (room in created && IsValidRoomName(room))
    ensures Orderly(FollowAll(r, Creates(created)), room)
  {
    if created != [] {
      var n := |created| - 1;
      assert Creates(created)[..n] == Creates(created[..n]);
      assert created == created[..n] + [created[n]];
      if Orderly(r, room) || room in created[..n] {
        CreatesMakeOrder(r, created[..n], room);
      }
    }
  }

  lemma {:induction false} DestroysForget(r: Replica, destroyed: seq<string>, room: string)
    requires Orderly(r, room)
    ensures Orderly(FollowAll(r, Destroys(destroyed)), room)
    ensures room in destroyed ==> Forgotten(FollowAll(r, Destroys(destroyed)), room)
  {
    if destroyed != [] {
      var n := |destroyed| - 1;
      DestroysForget(r, destroyed[..n], room);
      assert Destroys(destroyed)[..n] == Destroys(destroyed[..n]);
      assert destroyed == destroyed[..n] + [destroyed[n]];
    }
  }

  lemma BroadcastsForget(s: Server, r: Replica, room: string)
    requires Orderly(r, room) || (room in s.created && IsValidRoomName(room))
    requires room in s.destroyed
    ensures Forgotten(FollowAll(r, Broadcasts(s)), room)
  {
    CreatesMakeOrder(r, s.created, room);
    FollowAppend(r, Creates(s.created), Destroys(s.destroyed));
    DestroysForget(FollowAll(r, Creates(s.created)), s.destroyed, room);
  }

  /** Chat lines are kept for any room, listed or not. */
  lemma {:induction false} KeepsAnyLines(r: Replica, lines: seq<Message>, room: string)
    requires forall i :: 0 <= i < |lines| ==> lines[i].ChatEcho?
    requires |Shown(r.history, room)| <= HISTORY_KEPT
    ensures FollowAll(r, lines).rooms == r.rooms
    ensures Shown(FollowAll(r, lines).history, room) ==
            Last(Shown(r.history, room) + EchoesOf(lines, room), HISTORY_KEPT)
  {
    if lines == [] {
      assert Shown(r.history, room) + [] == Shown(r.history, room);
    } else {
      var earlier, m := lines[..|lines| - 1], lines[|lines| - 1];
      KeepsAnyLines(r, earlier, room);
      if m.room == room {
        var before := Shown(r.history, room) + EchoesOf(earlier, room);
        LastOfAppend(before, [m.event], HISTORY_KEPT);
        assert before + [m.event] == Shown(r.history, room) + EchoesOf(lines, room);
      }
    }
  }

  lemma OutputGoesStale(s: Server, c: ClientId, r: Replica, room: string)
    requires WellNamed(s.rooms) && room in s.destroyed
    requires Orderly(r, room) || (room in s.created && IsValidRoomName(room))
    ensures var r' := FollowAll(r, TickOutput(s, c, true, true));
            && room !in r'.rooms
            && Shown(r'.history, room) ==
               if JoinedIn(s, c, room) then Last(AllOnWire(EventsIn(s, room)), HISTORY_KEPT) else []
  {
    var told := FollowAll(r, Broadcasts(s));
    FollowAppend(r, Broadcasts(s), Echoes(s.rooms, c));
    BroadcastsForget(s, r, room);
    OnlyEchoes(s.rooms, c);
    KeepsAnyLines(told, Echoes(s.rooms, c), room);
    TickEchoes(s.rooms, c, room);
    hide Broadcasts, Echoes, EchoesOf, FollowAll, Last, WellNamed;
    assert [] + EchoesOf(Echoes(s.rooms, c), room) == EchoesOf(Echoes(s.rooms, c), room);
  }

  lemma ListedOrderly(r: Replica, created: seq<string>, room: string)
    requires (room in r.rooms || room in created) && IsValidRoomName(room)
    ensures Orderly(r, room) || (room in created && IsValidRoomName(room))
  {
  }

  /** A client that was sent the list lists a destroyed room already, or will once it is told of its creation. */
  lemma ListedOrCreated(s: State, c: ClientId, start: Replica, room: string)
    requires Reachable(s) && c in s.active && c in s.pushed && HasList(s.pushed[c])
    requires room in s.server.destroyed
    ensures room in FollowAll(start, s.pushed[c]).rooms || room in s.server.created
    ensures IsValidRoomName(room)
  {
    ReachableKeeps(s);
    ReachableConverges(s, c);
    SeenFollows(start, s.pushed[c]);
    ListForgets({}, start.rooms, s.pushed[c]);
    assert AgreesOn(s.server, Seen({}, s.pushed[c]), room);
    AllValid(s.server.rooms, Find(s.server.rooms, room));
  }

  /**
   After a tick that destroys a room, a client that was sent the list no longer lists the room, and
   shows under its name exactly the lines said in that tick if it had joined, and nothing if not,
   whatever it may have kept under the name before.
   */
  lemma StaleLinesExactly(s: State, c: ClientId, start: Replica, room: string)
    requires Reachable(s) && Enabled(s, TickEnd) && room in s.server.destroyed
    requires c in s.active && c in s.pushed && HasList(s.pushed[c])
    ensures PushesOnto(s, Apply(s, TickEnd), c)
    ensures var r := FollowAll(start, Apply(s, TickEnd).pushed[c]);
            && room !in r.rooms
            && Shown(r.history, room) ==
               if JoinedIn(s.server, c, room) then Last(AllOnWire(EventsIn(s.server, room)), HISTORY_KEPT) else []
  {
    hide TickOutput, EndTick, JoinedIn, EventsIn, Shown, LogAgrees, Reachable, Apply, Agrees, Orderly, HasList, QuietWhenIdle;
    ListedOrCreated(s, c, start, room);
    ReachableConverges(s, c);
    ReachableKeeps(s);
    TickEndSends(s, c);
    ListedOrderly(FollowAll(start, s.pushed[c]), s.server.created, room);
    var output := TickOutput(s.server, c, true, true);
    assert Apply(s, TickEnd).pushed[c] == s.pushed[c] + Sent(s, Apply(s, TickEnd), c);
    assert c in s.phase.clients;
    FollowAppend(start, s.pushed[c], output);
    OutputGoesStale(s.server, c, FollowAll(start, s.pushed[c]), room);
  }

  /** If the name is created again before anything rewrites its history, the stale lines are shown in the new room. */
  lemma ShownInNewRoom(r: Replica, room: string)
    requires IsValidRoomName(room) && room !in r.rooms
    ensures var r' := Follow(r, RoomCreate(room));
            room in r'.rooms && Shown(r'.history, room) == Shown(r.history, room)
  {
  }
}
