/**
 A run after which a client that has joined a room and got its history lacks one of the room's lines:
 101 lines are said in one tick, and in the next the client joins and asks for 100.
 */
module MissedLines {
  import opened Collections
  import opened Messages
  import opened Rooms
  import opened RoomLists
  import opened ServerSpec
  import opened ServerRun
  import opened Replicas
  import opened Convergence
  import opened Delivery

  function Lines(n: nat): (lines: seq<RoomEvent>)
    ensures |lines| == n
    ensures forall i :: 0 <= i < n ==> lines[i] == RoomEvent(i, "u", "x")
  {
    seq(n, i => RoomEvent(i, "u", "x"))
  }

  function OneRoom(joined: seq<ClientId>, events: seq<RoomEvent>): seq<ServerRoom> {
    [RoomState("a", false, ServerData(joined, events))]
  }

  lemma OneRoomFound(joined: seq<ClientId>, events: seq<RoomEvent>)
    ensures Find(OneRoom(joined, events), "a") == 0 && Names(OneRoom(joined, events)) == ["a"]
  {
  }

  /** In the first tick, the client was sent the list and `n` lines were said. */
  function Saying(n: nat): State {
    State(Server(OneRoom([], Lines(n)), if n == 0 then map[] else map["a" := Lines(n)], [], []),
          Gathering([0], 0), [0], {0}, map[0 := [RoomList(["a"])]], map["a" := Lines(n)])
  }

  /** After it. */
  function AfterSaying(n: nat, phase: Phase, joined: seq<ClientId>): State {
    State(Server(OneRoom(joined, []), if n == 0 then map[] else map["a" := Lines(n)], [], []),
          phase, [0], {0}, map[0 := [RoomList(["a"])]], map["a" := Lines(n)])
  }

  /** Connected, at the start of its first tick. */
  function Arrived(phase: Phase): State {
    State(Server(OneRoom([], []), map[], [], []), phase, [0], {0}, map[0 := []], map["a" := []])
  }

  lemma StartIs()
    ensures var s := Started(["a"]);
            Enabled(s, Connect(0)) && Apply(s, Connect(0)) == Arrived(Idle)
  {
    var s := Started(["a"]);
    assert ["a"][..0] == [];
    assert WithRooms(["a"]).rooms == OneRoom([], []);
    OneRoomFound([], []);
    assert s.logs == map["a" := []];
    assert [] + [0] == [0] && {} + {0} == {0};
    assert s.pushed[0 := []] == map[0 := []];
  }

  lemma ListIsAnswered()
    ensures var s, step := Arrived(Gathering([0], 0)), Take("u", 0, RoomList([]));
            Enabled(s, step) && Apply(s, step) == Saying(0)
  {
    var s := Arrived(Gathering([0], 0));
    OneRoomFound([], []);
    OrderKept(["a"]);
    assert Lines(0) == [];
    assert [] + [RoomList(["a"])] == [RoomList(["a"])];
    assert s.pushed[0 := [RoomList(["a"])]] == map[0 := [RoomList(["a"])]];
  }

  lemma StartsSaying() returns (steps: seq<Step>)
    ensures Legal(Started(["a"]), steps) && Run(Started(["a"]), steps) == Saying(0)
  {
    StartIs();
    ListIsAnswered();
    var third := Take("u", 0, RoomList([]));
    steps := [Connect(0), TickStart, third];
    assert steps[1..] == [TickStart, third] && [TickStart, third][1..] == [third] && [third][1..] == [];
    assert Apply(Arrived(Idle), TickStart) == Arrived(Gathering([0], 0));
    hide Apply, Saying, Started;
    assert Legal(Saying(0), []) && Run(Saying(0), []) == Saying(0);
    assert Legal(Arrived(Gathering([0], 0)), [third]) && Run(Arrived(Gathering([0], 0)), [third]) == Saying(0);
    assert Legal(Arrived(Idle), [TickStart, third]) && Run(Arrived(Idle), [TickStart, third]) == Saying(0);
  }

  lemma SaysOne(n: nat)
    requires n < HISTORY_KEPT
    ensures var step := Take("u", n, ChatSend("a", "x"));
            Enabled(Saying(n), step) && Apply(Saying(n), step) == Saying(n + 1)
  {
    var s, event := Saying(n), RoomEvent(n, "u", "x");
    OneRoomFound([], Lines(n));
    assert Lines(n + 1) == Lines(n) + [event];
    assert Retained(s.server.history, "a") == Lines(n);
    assert OneRoom([], Lines(n))[0 := RoomState("a", false, ServerData([], Lines(n + 1)))] == OneRoom([], Lines(n + 1));
    assert s.server.history["a" := Lines(n + 1)] == map["a" := Lines(n + 1)] == s.logs["a" := Lines(n + 1)];
    assert [RoomList(["a"])] + [] == [RoomList(["a"])];
    assert s.pushed[0 := [RoomList(["a"])]] == s.pushed;
  }

  lemma {:induction false} SaysMany(n: nat) returns (steps: seq<Step>)
    requires n <= HISTORY_KEPT
    ensures Legal(Saying(0), steps) && Run(Saying(0), steps) == Saying(n)
  {
    hide Saying, Apply;
    if n == 0 {
      steps := [];
    } else {
      var earlier := SaysMany(n - 1);
      var step := Take("u", n - 1, ChatSend("a", "x"));
      SaysOne(n - 1);
      assert [step][1..] == [];
      RunAppend(Saying(0), earlier, [step]);
      steps := earlier + [step];
    }
  }

  lemma JoinIsTaken(n: nat)
    ensures var s, step := AfterSaying(n, Gathering([0], 0), []), Take("u", 0, RoomJoin("a"));
            Enabled(s, step) && Apply(s, step) == AfterSaying(n, Gathering([0], 0), [0])
  {
    var s := AfterSaying(n, Gathering([0], 0), []);
    OneRoomFound([], []);
    assert [] + [0] == [0];
    assert OneRoom([], [])[0 := RoomState("a", false, ServerData([0], []))] == OneRoom([0], []);
    assert [RoomList(["a"])] + [] == [RoomList(["a"])];
    assert s.pushed[0 := [RoomList(["a"])]] == s.pushed;
  }

  /** The first tick ends, and in the second the client joins. */
  lemma Joins(n: nat) returns (steps: seq<Step>)
    ensures Legal(Saying(n), steps) && Run(Saying(n), steps) == AfterSaying(n, Gathering([0], 0), [0])
  {
    var s1, s2, s3 := Saying(n).(phase := Gathering([0], 1)), AfterSaying(n, Idle, []), AfterSaying(n, Gathering([0], 0), []);
    var step := Take("u", 0, RoomJoin("a"));
    assert Apply(Saying(n), NextClient) == s1;
    assert Apply(s2, TickStart) == s3;
    EndsQuietly(n);
    JoinIsTaken(n);
    steps := [NextClient, TickEnd, TickStart, step];
    assert steps[1..] == [TickEnd, TickStart, step] && [TickEnd, TickStart, step][1..] == [TickStart, step];
    assert [TickStart, step][1..] == [step] && [step][1..] == [];
    hide Apply, AfterSaying, Saying;
    var last := AfterSaying(n, Gathering([0], 0), [0]);
    assert Legal(last, []) && Run(last, []) == last;
    assert Legal(s3, [step]) && Run(s3, [step]) == last;
    assert Legal(s2, [TickStart, step]) && Run(s2, [TickStart, step]) == last;
    assert Legal(s1, [TickEnd, TickStart, step]) && Run(s1, [TickEnd, TickStart, step]) == last;
  }

  /** Nobody has joined the room and nothing was created or destroyed: nothing is sent. */
  lemma NothingTold(n: nat)
    ensures TickOutput(Saying(n).server, 0, true, true) == []
  {
    var rooms := OneRoom([], Lines(n));
    assert rooms[..0] == [];
    assert Echoes(rooms[..0], 0) == [] && 0 !in rooms[0].data.joined;
    assert Echoes(rooms, 0) == [];
  }

  lemma EndsQuietly(n: nat)
    ensures var s := Saying(n).(phase := Gathering([0], 1));
            Enabled(s, TickEnd) && Apply(s, TickEnd) == AfterSaying(n, Idle, [])
  {
    var s := Saying(n).(phase := Gathering([0], 1));
    NothingTold(n);
    SweptIs(n);
    OneRoomFound([], []);
    hide TickOutput, EndTick;
    assert [RoomList(["a"])] + [] == [RoomList(["a"])];
    var s' := Apply(s, TickEnd);
    assert s'.pushed == map[0 := [RoomList(["a"])]];
    assert s'.logs == map["a" := Lines(n)];
  }

  lemma OneSwept()
    ensures Sweep(OneRoom([], [])) == OneRoom([], [])
  {
    var rooms := OneRoom([], []);
    assert rooms[..0] == [] && Sweep(rooms[..0]) == [] && !rooms[0].doomed;
  }

  lemma OneDistributed(events: seq<RoomEvent>)
    ensures AllDistributed(OneRoom([], events), {0}) == OneRoom([], [])
  {
  }

  lemma NothingErased(history: History)
    ensures history - Elements([]) == history
  {
  }

  lemma SweptIs(n: nat)
    ensures EndTick(Saying(n).server, {0}) == AfterSaying(n, Idle, []).server
  {
    OneDistributed(Lines(n));
    OneSwept();
    NothingErased(Saying(n).server.history);
    hide Sweep, AllDistributed, OneRoom, Elements, Lines;
  }

  /** Joined and sent the list, the client asks for 100 events and lacks the hundred and first. */
  lemma LineMissed() returns (s: State, ask: Step)
    ensures Reachable(s) && Answered(s, ask, [], 0, "a") && ask.m.eventCount == ROOM_HISTORY_MAX_ENTRIES
    ensures 0 in s.pushed && "a" in FollowAll(EMPTY, s.pushed[0]).rooms
    ensures var s' := Apply(s, ask);
            && "a" in s'.logs && 0 in s'.pushed && 100 < Delivered(s', "a") <= |s'.logs["a"]|
            && OnWire(s'.logs["a"][100]) !in Shown(FollowAll(EMPTY, s'.pushed[0]).history, "a")
  {
    var first := StartsSaying();
    var second := SaysMany(101);
    var third := Joins(101);
    s := AfterSaying(101, Gathering([0], 0), [0]);
    ask := Take("u", 0, RoomHistory("a", 100, []));
    assert Reachable(Saying(0));
    ReachableRun(Saying(0), second);
    ReachableRun(Saying(101), third);
    ReachableKeeps(s);
    MissesLast(s, ask);
  }

  lemma MissesLast(s: State, ask: Step)
    requires s == AfterSaying(101, Gathering([0], 0), [0]) && ask == Take("u", 0, RoomHistory("a", 100, [])) && Inv(s)
    ensures Answered(s, ask, [], 0, "a")
    ensures "a" in FollowAll(EMPTY, s.pushed[0]).rooms
    ensures var s' := Apply(s, ask);
            && "a" in s'.logs && 0 in s'.pushed && 100 < Delivered(s', "a") <= |s'.logs["a"]|
            && OnWire(s'.logs["a"][100]) !in Shown(FollowAll(EMPTY, s'.pushed[0]).history, "a")
  {
    OneRoomFound([0], []);
    assert [RoomList(["a"])][..0] == [];
    var s' := Apply(s, ask);
    AsksGets(s, ask, 0, "a");
    ShowsAfterAsking(s, ask, [], 0, "a", EMPTY);
    var log := Lines(101);
    var shown := Stretch(log, 0, 100) + Stretch(log, 101, 101);
    assert Shown(FollowAll(EMPTY, s'.pushed[0]).history, "a") == shown;
    forall i | 0 <= i < |shown|
      ensures shown[i] != OnWire(log[100])
    {
      assert shown[i] == OnWire(log[i]);
    }
  }
}
