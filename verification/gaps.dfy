/**
 Which events of a room a joining client shows after it asked for the room's history: exactly when
 some are missing, and exactly when some are shown twice.
 */
module Gaps {
  import opened Collections
  import opened Messages
  import opened Rooms
  import opened RoomLists
  import opened ServerSpec
  import opened ServerRun
  import opened Replicas
  import opened Convergence
  import opened Delivery

  // ---- Positions in the log ----

  function Range(from: int, to: int): (r: seq<int>)
    requires from <= to
    ensures |r| == to - from
    ensures forall k :: 0 <= k < |r| ==> r[k] == from + k
  {
    seq(to - from, k => from + k)
  }

  /** The positions of the replied events and of those distributed since; of these the latest 999. */
  function Positions(from: int, to: int, p: int, end: int): seq<int>
    requires from <= to && p <= end
  {
    Last(Range(from, to) + Range(p, end), HISTORY_KEPT)
  }

  ghost predicate Within(positions: seq<int>, log: seq<RoomEvent>) {
    forall k :: 0 <= k < |positions| ==> 0 <= positions[k] < |log|
  }

  /** The events at some positions of a log, as messages carry them. */
  function EventsAt(log: seq<RoomEvent>, positions: seq<int>): (events: seq<WireEvent>)
    requires Within(positions, log)
  {
    seq(|positions|, k requires 0 <= k < |positions| => OnWire(log[positions[k]]))
  }

  lemma StretchIs(log: seq<RoomEvent>, from: int, to: int)
    requires 0 <= from <= to <= |log|
    ensures |Stretch(log, from, to)| == to - from
    ensures forall k :: 0 <= k < to - from ==> Stretch(log, from, to)[k] == OnWire(log[from + k])
  {
  }

  lemma StretchesAt(log: seq<RoomEvent>, from: int, to: int, p: int, end: int)
    requires 0 <= from <= to <= |log| && 0 <= p <= end <= |log|
    ensures Within(Positions(from, to, p, end), log)
    ensures Last(Stretch(log, from, to) + Stretch(log, p, end), HISTORY_KEPT) == EventsAt(log, Positions(from, to, p, end))
  {
    hide Stretch, OnWire, Range;
    StretchIs(log, from, to);
    StretchIs(log, p, end);
    var first, second := Range(from, to), Range(p, end);
    var all, pos := Stretch(log, from, to) + Stretch(log, p, end), first + second;
    forall k | 0 <= k < |pos|
      ensures 0 <= pos[k] < |log| && all[k] == OnWire(log[pos[k]])
    {
      assert pos[k] == if k < |first| then first[k] else second[k - |first|];
    }
  }

  /** From the oldest event shown up to what was distributed, every event is shown. */
  ghost predicate NoneSkipped(positions: seq<int>, end: int) {
    forall i :: positions != [] && positions[0] <= i < end ==> i in positions
  }

  ghost predicate SomeDoubled(positions: seq<int>) {
    exists j, k :: 0 <= j < k < |positions| && positions[j] == positions[k]
  }

  lemma RangeHas(from: int, to: int, i: int)
    requires from <= to
    ensures i in Range(from, to) <==> from <= i < to
  {
    if from <= i < to {
      assert Range(from, to)[i - from] == i;
    }
  }

  /** If 999 or more were distributed since, only these are shown; otherwise also the end of the reply. */
  lemma PositionsAre(from: int, to: int, p: int, end: int) returns (k: nat)
    requires from <= to <= from + HISTORY_KEPT && p <= end
    ensures end - p >= HISTORY_KEPT ==> Positions(from, to, p, end) == Range(end - HISTORY_KEPT, end)
    ensures end - p < HISTORY_KEPT ==>
              && from + k <= to && (from < to ==> from + k < to)
              && Positions(from, to, p, end) == Range(from + k, to) + Range(p, end)
  {
    var total := to - from + end - p;
    k := if total <= HISTORY_KEPT then 0 else total - HISTORY_KEPT;
  }

  lemma SkipsExactly(from: int, to: int, p: int, end: int)
    requires from <= to <= from + HISTORY_KEPT && p <= end && (to < p ==> from < to)
    ensures NoneSkipped(Positions(from, to, p, end), end) <==> p <= to || end - p >= HISTORY_KEPT
  {
    var positions := Positions(from, to, p, end);
    var k := PositionsAre(from, to, p, end);
    if end - p >= HISTORY_KEPT {
      forall i | positions[0] <= i < end
        ensures i in positions
      {
        RangeHas(end - HISTORY_KEPT, end, i);
      }
    } else {
      forall i
        ensures i in positions <==> from + k <= i < to || p <= i < end
      {
        RangeHas(from + k, to, i);
        RangeHas(p, end, i);
      }
      if to < p {
        assert positions[0] == from + k;
        assert to !in positions;
      }
    }
  }

  lemma DoublesExactly(from: int, to: int, p: int, end: int)
    requires from <= to <= from + HISTORY_KEPT && p <= end && (end == p || to <= end)
    ensures SomeDoubled(Positions(from, to, p, end)) <==> from < to && p < to && p < end && end - p < HISTORY_KEPT
  {
    var positions := Positions(from, to, p, end);
    var k := PositionsAre(from, to, p, end);
    if end - p < HISTORY_KEPT && from < to && p < to && p < end {
      var i := to - 1 - from - k;
      var j := to - from - k + to - 1 - p;
      assert positions[i] == to - 1 && positions[j] == to - 1;
    }
  }

  // ---- What a window shows ----

  /** A room's undistributed events are distributed all at once or not at all. */
  lemma {:induction false} DistributedTogether(s: State, steps: seq<Step>, c: ClientId, room: string)
    requires Inv(s) && Legal(s, steps) && Lasts(s, steps, c, room)
    ensures var s' := Run(s, steps);
            && room in s'.logs && s.logs[room] <= s'.logs[room]
            && (Delivered(s', room) == Delivered(s, room) || |s.logs[room]| <= Delivered(s', room))
    decreases |steps|
  {
    if steps != [] {
      var next := Apply(s, steps[0]);
      StepHears(s, steps[0], c, room);
      StepKeeps(s, steps[0]);
      DistributedTogether(next, steps[1..], c, room);
      if steps[0].TickEnd? {
        TickEndHears(s, c, room);
      }
      hide Hears, HearsNothing, JoinedIn, Apply, Inv;
    }
  }

  /** Which events a client shows that asked for `n` of them at `s`, and has handled all it was sent up to `s'`. */
  function ShownPositions(s: State, n: nat, s': State, room: string): seq<int>
    requires room in s.logs && room in s'.logs && Delivered(s, room) <= Delivered(s', room)
  {
    Positions(RepliedFrom(s.logs[room]), RepliedTo(s.logs[room], n), Delivered(s, room), Delivered(s', room))
  }

  /** What the window shows are the events at these positions, in this order. */
  lemma ShowsPositions(s: State, step: Step, steps: seq<Step>, c: ClientId, room: string, start: Replica)
    requires Inv(s) && Answered(s, step, steps, c, room) && c in s.pushed
    requires room in FollowAll(start, s.pushed[c]).rooms
    ensures var s' := Run(Apply(s, step), steps);
            && Advances(s, s', room) && c in s'.pushed
            && var positions := ShownPositions(s, step.m.eventCount, s', room);
               && Within(positions, s'.logs[room])
               && Shown(FollowAll(start, s'.pushed[c]).history, room) == EventsAt(s'.logs[room], positions)
  {
    ShowsAfterAsking(s, step, steps, c, room, start);
    var s', log := Run(Apply(s, step), steps), s.logs[room];
    StretchesAt(s'.logs[room], RepliedFrom(log), RepliedTo(log, step.m.eventCount), Delivered(s, room), Delivered(s', room));
  }

  lemma CountsKnown(s: State, room: string)
    requires Inv(s) && room in s.logs
    ensures |Retained(s.server.history, room)| == |s.logs[room]| - RepliedFrom(s.logs[room])
    ensures 0 <= Delivered(s, room) == |s.logs[room]| - |EventsIn(s.server, room)|
  {
    assert LogAgrees(s.server, s.logs, room);
  }

  lemma AnsweredAdvances(s: State, step: Step, steps: seq<Step>, c: ClientId, room: string)
    requires Inv(s) && Answered(s, step, steps, c, room)
    ensures var s' := Run(Apply(s, step), steps);
            && Advances(s, s', room)
            && (Delivered(s', room) == Delivered(s, room) || |s.logs[room]| <= Delivered(s', room))
  {
    AnsweredSends(s, step, steps, c, room);
    AsksGets(s, step, c, room);
    StepKeeps(s, step);
    DistributedTogether(Apply(s, step), steps, c, room);
  }

  /**
   No event is missing exactly if everything was asked for, or no more is retained than was asked for
   and than is still to be distributed together, or 999 events or more were distributed since.
   */
  lemma NoneSkippedExactly(s: State, step: Step, steps: seq<Step>, c: ClientId, room: string)
    requires Inv(s) && Answered(s, step, steps, c, room)
    ensures var s', n := Run(Apply(s, step), steps), step.m.eventCount;
            && Advances(s, s', room)
            && (NoneSkipped(ShownPositions(s, n, s', room), Delivered(s', room)) <==>
                || n == 0
                || |Retained(s.server.history, room)| <= n + |EventsIn(s.server, room)|
                || Delivered(s', room) - Delivered(s, room) >= HISTORY_KEPT)
  {
    var s', log := Run(Apply(s, step), steps), s.logs[room];
    AnsweredAdvances(s, step, steps, c, room);
    CountsKnown(s, room);
    hide Inv, Answered, Advances, EventsIn, Retained, Positions, NoneSkipped;
    SkipsExactly(RepliedFrom(log), RepliedTo(log, step.m.eventCount), Delivered(s, room), Delivered(s', room));
  }

  /**
   Some event is shown twice exactly if the room had undistributed events when it was asked for, some of
   them were replied, and since then they and no more than 998 events in all were distributed.
   */
  lemma SomeDoubledExactly(s: State, step: Step, steps: seq<Step>, c: ClientId, room: string)
    requires Inv(s) && Answered(s, step, steps, c, room)
    ensures var s', n := Run(Apply(s, step), steps), step.m.eventCount;
            && Advances(s, s', room)
            && (SomeDoubled(ShownPositions(s, n, s', room)) <==>
                && EventsIn(s.server, room) != []
                && (n == 0 || |Retained(s.server.history, room)| < n + |EventsIn(s.server, room)|)
                && 0 < Delivered(s', room) - Delivered(s, room) < HISTORY_KEPT)
  {
    var s', log := Run(Apply(s, step), steps), s.logs[room];
    AnsweredAdvances(s, step, steps, c, room);
    CountsKnown(s, room);
    hide Inv, Answered, Advances, EventsIn, Retained, Positions, SomeDoubled;
    DoublesExactly(RepliedFrom(log), RepliedTo(log, step.m.eventCount), Delivered(s, room), Delivered(s', room));
  }
}
