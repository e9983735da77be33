/** A tick of the server's loop is one of the runs that the theorems about the server speak of. */
module TickRuns {
  import opened Collections
  import opened Messages
  import opened Rooms
  import opened ServerSpec
  import opened ServerTicks
  import opened ServerLoops
  import Run = ServerRun
  import Delivery

  /** In the middle of a tick that started with these pushed, and now stands at `g`. */
  ghost predicate Follows(s: Run.State, before: map<ClientId, seq<Message>>, g: Gathered) {
    s.phase.Gathering? && s.server == g.server && s.pushed == Plus(before, g.replies)
  }

  ghost predicate SameClients(s: Run.State, s': Run.State) {
    s'.active == s.active && s'.live == s.live
  }

  /** The messages a run takes, with their users and times. */
  function Takes(steps: seq<Run.Step>): seq<Run.Step> {
    if steps == [] then [] else (if steps[0].Take? then [steps[0]] else []) + Takes(steps[1..])
  }

  lemma {:induction false} TakesAppend(a: seq<Run.Step>, b: seq<Run.Step>)
    ensures Takes(a + b) == Takes(a) + Takes(b)
  {
    if a == [] {
      assert a + b == b;
    } else {
      assert (a + b)[1..] == a[1..] + b;
      TakesAppend(a[1..], b);
      var first, more := if a[0].Take? then [a[0]] else [], Takes(a[1..]);
      assert first + (more + Takes(b)) == first + more + Takes(b);
    }
  }

  /** Everything that came in from one client, in order, at consecutive readings of the clock. */
  function TakesFrom(user: string, messages: seq<Message>, clock: nat -> int, taken: nat): seq<Run.Step> {
    seq(|messages|, i requires 0 <= i < |messages| => Run.Take(user, clock(taken + i), messages[i]))
  }

  /** Everything that came in, client by client. */
  function AllTakes(clients: seq<ClientId>, inboxes: map<ClientId, seq<Message>>, users: map<ClientId, string>,
                    clock: nat -> int, taken: nat): seq<Run.Step>
    requires forall c :: c in clients ==> c in inboxes && c in users
  {
    if clients == [] then []
    else TakesFrom(users[clients[0]], inboxes[clients[0]], clock, taken) +
         AllTakes(clients[1..], inboxes, users, clock, taken + |inboxes[clients[0]]|)
  }

  lemma TakeFollows(s: Run.State, before: map<ClientId, seq<Message>>, g: Gathered, user: string, m: Message, clock: nat -> int)
    requires Follows(s, before, g)
    requires Run.Enabled(s, Run.Take(user, clock(g.taken), m))
    ensures var s' := Run.Apply(s, Run.Take(user, clock(g.taken), m));
            && Follows(s', before, TakeOne(g, s.phase.clients[s.phase.at], user, m, clock))
            && s'.phase == s.phase && SameClients(s, s')
  {
    hide Process, Run.Logged;
    PlusOne(before, g, s.phase.clients[s.phase.at], user, m, clock);
  }

  lemma {:induction false} TakeAllRuns(s: Run.State, before: map<ClientId, seq<Message>>, g: Gathered, user: string,
                                       messages: seq<Message>, clock: nat -> int) returns (steps: seq<Run.Step>)
    requires Follows(s, before, g) && s.phase.at < |s.phase.clients| && s.phase.clients[s.phase.at] in s.pushed
    ensures Run.Legal(s, steps)
    ensures var s' := Run.Run(s, steps);
            && Follows(s', before, TakeAll(g, s.phase.clients[s.phase.at], user, messages, clock))
            && s'.phase == s.phase && SameClients(s, s')
    ensures Takes(steps) == TakesFrom(user, messages, clock, g.taken)
    ensures TakeAll(g, s.phase.clients[s.phase.at], user, messages, clock).taken == g.taken + |messages|
    decreases |messages|
  {
    hide Process, Run.Logged, Run.Apply, Follows, TakeOne;
    if messages == [] {
      steps := [];
    } else {
      var step := Run.Take(user, clock(g.taken), messages[0]);
      FollowsPhase(s, before, g);
      TakeFollows(s, before, g, user, messages[0], clock);
      CountsOne(g, s.phase.clients[s.phase.at], user, messages[0], clock);
      var next, c := Run.Apply(s, step), s.phase.clients[s.phase.at];
      StillPushed(s, step, c);
      var rest := TakeAllRuns(next, before, TakeOne(g, c, user, messages[0], clock), user, messages[1..], clock);
      steps := [step] + rest;
      assert steps[1..] == rest;
      assert [step] + TakesFrom(user, messages[1..], clock, g.taken + 1) == TakesFrom(user, messages, clock, g.taken);
    }
  }

  lemma FollowsPhase(s: Run.State, before: map<ClientId, seq<Message>>, g: Gathered)
    requires Follows(s, before, g)
    ensures s.phase.Gathering? && s.pushed.Keys == before.Keys
  {
  }

  lemma StillPushed(s: Run.State, step: Run.Step, c: ClientId)
    requires Run.Enabled(s, step) && step.Take? && c in s.pushed
    ensures c in Run.Apply(s, step).pushed
  {
    hide Process, Run.Logged;
  }

  lemma NextFollows(s: Run.State, before: map<ClientId, seq<Message>>, g: Gathered)
    requires Follows(s, before, g) && Run.Enabled(s, Run.NextClient)
    ensures var s' := Run.Apply(s, Run.NextClient);
            && Follows(s', before, g) && SameClients(s, s')
            && s'.phase == Run.Gathering(s.phase.clients, s.phase.at + 1)
  {
  }

  lemma {:induction false} GatherRuns(s: Run.State, before: map<ClientId, seq<Message>>, g: Gathered,
                                      inboxes: map<ClientId, seq<Message>>, users: map<ClientId, string>,
                                      clock: nat -> int) returns (steps: seq<Run.Step>)
    requires Follows(s, before, g) && s.phase.at <= |s.phase.clients|
    requires forall c :: c in s.phase.clients ==> c in inboxes && c in users && c in before
    ensures Run.Legal(s, steps)
    ensures var s' := Run.Run(s, steps);
            && Follows(s', before, GatherAll(g, s.phase.clients[s.phase.at..], inboxes, users, clock))
            && s'.phase == Run.Gathering(s.phase.clients, |s.phase.clients|) && SameClients(s, s')
    ensures Takes(steps) == AllTakes(s.phase.clients[s.phase.at..], inboxes, users, clock, g.taken)
    decreases |s.phase.clients| - s.phase.at
  {
    hide Run.Apply, Follows, TakeAll;
    FollowsPhase(s, before, g);
    var clients, at := s.phase.clients, s.phase.at;
    GatherUnfolds(g, clients, at, inboxes, users, clock);
    if at == |clients| {
      steps := [];
    } else {
      var c := clients[at];
      var takes := TakeAllRuns(s, before, g, users[c], inboxes[c], clock);
      var heard, g1 := Run.Run(s, takes), TakeAll(g, c, users[c], inboxes[c], clock);
      NextFollows(heard, before, g1);
      var next := Run.Apply(heard, Run.NextClient);
      var rest := GatherRuns(next, before, g1, inboxes, users, clock);
      steps := takes + ([Run.NextClient] + rest);
      assert ([Run.NextClient] + rest)[1..] == rest;
      Delivery.RunAppend(s, takes, [Run.NextClient] + rest);
      TakesAppend(takes, [Run.NextClient] + rest);
      assert clients[at..][1..] == clients[at + 1..];
    }
  }

  lemma TickEndOutput(s: Run.State)
    requires Run.Enabled(s, Run.TickEnd)
    ensures var s' := Run.Apply(s, Run.TickEnd);
            && s'.phase.Idle? && SameClients(s, s') && s'.server == EndTick(s.server, s.live)
            && s'.pushed == map c | c in s.pushed :: s.pushed[c] + TickOutput(s.server, c, c in s.phase.clients, c in s.live)
  {
    hide EndTick, TickOutput;
  }

  /**
   What `ServerLoops.Tick` is specified to do to the server and to send is what some run of steps
   from a tick's start to its end does; that run takes exactly what came in, client by client and in order.
   */
  lemma TickIsRun(s: Run.State, inboxes: map<ClientId, seq<Message>>, users: map<ClientId, string>, clock: nat -> int)
    returns (steps: seq<Run.Step>)
    requires s.phase.Idle? && forall c :: c in s.active ==> c in inboxes && c in users && c in s.pushed
    ensures Run.Legal(s, steps) && Takes(steps) == AllTakes(s.active, inboxes, users, clock, 0)
    ensures var s', g := Run.Run(s, steps), GatherAll(Gathered(s.server, map[], 0), s.active, inboxes, users, clock);
            && s'.phase.Idle? && SameClients(s, s')
            && s'.server == EndTick(g.server, s.live)
            && s'.pushed.Keys == s.pushed.Keys
            && forall c :: c in s.pushed && c in s.live ==>
                 s'.pushed[c] == AllOutput(Plus(s.pushed, g.replies), g.server, s.active)[c]
  {
    hide EndTick, TickOutput, Process, Takes, AllTakes, GatherAll;
    var first, g0 := Run.Apply(s, Run.TickStart), Gathered(s.server, map[], 0);
    NoReplies(s.pushed);
    var middle := GatherRuns(first, s.pushed, g0, inboxes, users, clock);
    var last := Run.Run(first, middle);
    assert first.phase.clients[0..] == s.active;
    TickEndOutput(last);
    steps := [Run.TickStart] + (middle + [Run.TickEnd]);
    assert [Run.TickEnd][1..] == [];
    Delivery.RunAppend(first, middle, [Run.TickEnd]);
    assert steps[1..] == middle + [Run.TickEnd];
    TakesBetween(middle);
  }

  lemma TakesBetween(middle: seq<Run.Step>)
    ensures Takes([Run.TickStart] + (middle + [Run.TickEnd])) == Takes(middle)
  {
    assert [Run.TickEnd][1..] == [];
    TakesAppend(middle, [Run.TickEnd]);
  }

  lemma NoReplies(outboxes: map<ClientId, seq<Message>>)
    ensures Plus(outboxes, map[]) == outboxes
  {
    forall c | c in outboxes
      ensures outboxes[c] + RepliesTo(map[], c) == outboxes[c]
    {
    }
  }
}
