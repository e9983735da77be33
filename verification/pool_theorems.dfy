/** What holds of the pool in every interleaving. */
module PoolTheorems {
  import opened Collections
  import opened ThreadPool
  import opened PoolInvariants

  /** How far a worker is from leaving, once the pool is stopping. */
  function Rank(pc: WorkerPc): nat {
    match pc
    case Taking => 14
    case Counting(_) => 13
    case Unlocking(_) => 12
    case Running(_) => 11
    case Starting | Finishing => 10
    case Decrementing => 9
    case Releasing => 8
    case ReadsWaiting => 7
    case ReadsRunning => 6
    case ReadsTasks => 5
    case Notifies => 4
    case Relocking | Parked => 3
    case Checking => 2
    case TestsStop => 1
    case Exited => 0
  }

  lemma {:induction false} StartingCounts(n: nat)
    ensures Count(seq(n, _ => Starting), Counted) == n
  {
    if n > 0 {
      assert seq(n, _ => Starting)[..n - 1] == seq(n - 1, _ => Starting);
      StartingCounts(n - 1);
    }
  }

  lemma CreatedKeeps(threadCount: nat, submitterCount: nat)
    ensures Inv(Created(threadCount, submitterCount))
  {
    var s := Created(threadCount, submitterCount);
    StartingCounts(threadCount);
    forall task
      ensures Conserved(s, task)
    {
      NothingInHand(s.workers, task);
    }
  }

  lemma SameWorkers(s: Pool, step: Step)
    requires Enabled(s, step)
    ensures |Apply(s, step).workers| == |s.workers|
  {
  }

  lemma {:induction false} RunKeeps(s: Pool, steps: seq<Step>)
    requires Inv(s) && Legal(s, steps)
    ensures Inv(Run(s, steps))
    ensures |Run(s, steps).workers| == |s.workers|
    decreases |steps|
  {
    if steps != [] {
      var next := Apply(s, steps[0]);
      StepKeeps(s, steps[0]);
      SameWorkers(s, steps[0]);
      RunKeeps(next, steps[1..]);
    }
  }

  // ---- What holds in every interleaving ----

  /** The states of a pool of `threadCount` workers, however its threads are scheduled. */
  ghost predicate Reachable(s: Pool, threadCount: nat) {
    exists submitterCount: nat, steps: seq<Step> ::
      Legal(Created(threadCount, submitterCount), steps) && s == Run(Created(threadCount, submitterCount), steps)
  }

  lemma ReachableKeeps(s: Pool, threadCount: nat)
    requires Reachable(s, threadCount)
    ensures Inv(s) && |s.workers| == threadCount
  {
    var submitterCount: nat, steps: seq<Step> :|
      Legal(Created(threadCount, submitterCount), steps) && s == Run(Created(threadCount, submitterCount), steps);
    CreatedKeeps(threadCount, submitterCount);
    RunKeeps(Created(threadCount, submitterCount), steps);
  }

  /** No lost wakeup: a waiter with nothing to wait for has a worker about to look and notify. */
  lemma NoLostWakeup(s: Pool, threadCount: nat)
    requires Reachable(s, threadCount) && s.owner.Blocked? && AllDone(s)
    ensures exists i :: 0 <= i < |s.workers| && WillLookAgain(s.workers[i])
  {
    ReachableKeeps(s, threadCount);
  }

  /** Left alone, a worker that is past its decrement does notify, within five steps of its own. */
  lemma {:induction false} LookingNotifies(s: Pool, i: nat) returns (k: nat)
    requires LockExcludes(s) && s.owner.Blocked? && s.waiting && AllDone(s)
    requires i < |s.workers| && WillLookAgain(s.workers[i]) && !s.workers[i].Counting?
    ensures k == Rank(s.workers[i]) - 3 <= 5 && Legal(s, seq(k, _ => WorkerStep(i)))
    ensures Run(s, seq(k, _ => WorkerStep(i))).owner.RelocksDone?
    decreases Rank(s.workers[i])
  {
    var s' := WorkerNext(s, i);
    if s.workers[i].Notifies? {
      k := 1;
      assert seq(1, _ => WorkerStep(i))[1..] == [];
    } else {
      LockKept(s, WorkerStep(i));
      var rest := LookingNotifies(s', i);
      k := rest + 1;
      assert seq(k, _ => WorkerStep(i))[1..] == seq(rest, _ => WorkerStep(i));
    }
  }

  /** When `wait` succeeds, everything submitted so far has finished, each task as often as submitted. */
  lemma WaitMeansFinished(s: Pool, threadCount: nat)
    requires Reachable(s, threadCount) && s.owner.TestsDone? && AllDone(s)
    ensures multiset(s.submitted) == s.finished
    ensures OwnerNext(s).owner.ClearsWaiting? && OwnerNext(s).finished == s.finished
  {
    ReachableKeeps(s, threadCount);
    CountBounds(s.workers, Counted);
    assert s.taken == s.submitted;
    forall task
      ensures multiset(s.submitted)[task] == s.finished[task]
    {
      forall i | 0 <= i < |s.workers|
        ensures !Has(s.workers[i], task)
      {
        assert !Counted(s.workers[i]) && !Holds(s.workers[i]);
      }
      NothingInHand(s.workers, task);
      assert Conserved(s, task);
    }
  }

  /** The tasks that threads have called `detach_task` with, in the order in which they got the lock. */
  function Asked(steps: seq<Step>): seq<Task> {
    if steps == [] then [] else (if steps[0].Submit? then [steps[0].task] else []) + Asked(steps[1..])
  }

  /** The task that the holder of the lock is about to queue. */
  function BeingQueued(s: Pool): seq<Task> {
    if s.lock.BySubmitter? && s.lock.j < |s.submitters| && s.submitters[s.lock.j].Emplacing?
    then [s.submitters[s.lock.j].task] else []
  }

  function Called(s: Pool): seq<Task> {
    s.submitted + BeingQueued(s)
  }

  lemma StepQueues(s: Pool, step: Step)
    requires LockExcludes(s) && Enabled(s, step)
    ensures Called(Apply(s, step)) == Called(s) + if step.Submit? then [step.task] else []
  {
    match step
    case WorkerStep(i) => WorkerLocks(s, i);
    case _ =>
  }

  lemma InvLocks(s: Pool)
    requires Inv(s)
    ensures LockExcludes(s)
  {
  }

  lemma {:induction false} RunQueues(s: Pool, steps: seq<Step>)
    requires Inv(s) && Legal(s, steps)
    ensures Called(Run(s, steps)) == Called(s) + Asked(steps)
    decreases |steps|
  {
    hide Inv, Called, Apply, Enabled, LockExcludes, Asked;
    if steps != [] {
      var next, first := Apply(s, steps[0]), if steps[0].Submit? then [steps[0].task] else [];
      InvLocks(s);
      StepKeeps(s, steps[0]);
      StepQueues(s, steps[0]);
      RunQueues(next, steps[1..]);
      AskedFirst(steps);
      Regroup(Called(s), first, Asked(steps[1..]));
    } else {
      AskedNothing();
    }
  }

  lemma AskedNothing()
    ensures Asked([]) == []
  {
  }

  lemma AskedFirst(steps: seq<Step>)
    requires steps != []
    ensures Asked(steps) == (if steps[0].Submit? then [steps[0].task] else []) + Asked(steps[1..])
  {
  }

  lemma Regroup(a: seq<Task>, b: seq<Task>, c: seq<Task>)
    ensures a + b + c == a + (b + c)
  {
  }

  /**
   Every task that a thread calls the pool with is queued, in that order and once each, but for one
   that its caller is about to queue.
   */
  lemma QueuedAsAsked(threadCount: nat, submitterCount: nat, steps: seq<Step>)
    requires Legal(Created(threadCount, submitterCount), steps)
    ensures var s := Run(Created(threadCount, submitterCount), steps);
            s.submitted + BeingQueued(s) == Asked(steps)
  {
    CreatedKeeps(threadCount, submitterCount);
    RunQueues(Created(threadCount, submitterCount), steps);
  }

  /** When `wait` succeeds, exactly the tasks that the pool was ever called with have finished. */
  lemma WaitFinishesAll(threadCount: nat, submitterCount: nat, steps: seq<Step>)
    requires Legal(Created(threadCount, submitterCount), steps)
    requires var s := Run(Created(threadCount, submitterCount), steps); s.owner.TestsDone? && AllDone(s)
    ensures multiset(Asked(steps)) == Run(Created(threadCount, submitterCount), steps).finished
  {
    var s := Run(Created(threadCount, submitterCount), steps);
    assert Reachable(s, threadCount);
    WaitMeansFinished(s, threadCount);
    ReachableKeeps(s, threadCount);
    QueuedAsAsked(threadCount, submitterCount, steps);
  }

  /** Tasks are dequeued once each in order, and each is queued, in one worker's hands, or finished. */
  lemma TasksAccountedFor(s: Pool, threadCount: nat, task: Task)
    requires Reachable(s, threadCount)
    ensures s.submitted == s.taken + s.tasks
    ensures multiset(s.submitted)[task] ==
            multiset(s.tasks)[task] + InHand(s.workers, task) + s.finished[task]
    ensures s.running == Count(s.workers, Counted) <= threadCount
  {
    ReachableKeeps(s, threadCount);
    CountBounds(s.workers, Counted);
    assert Conserved(s, task);
    assert multiset(s.submitted) == multiset(s.taken) + multiset(s.tasks);
  }

  /**
   A client is refused while `tasks_running` has reached the thread count: exactly when every worker
   is between the increment for a task, or its creation, and its decrement. Tasks that are queued
   do not count.
   */
  lemma RefusesExactly(s: Pool, threadCount: nat)
    requires Reachable(s, threadCount)
    ensures s.running >= threadCount <==> forall i :: 0 <= i < |s.workers| ==> Counted(s.workers[i])
  {
    ReachableKeeps(s, threadCount);
    CountBounds(s.workers, Counted);
  }

  /** A pool whose threads have not started yet refuses a client although it has nothing to do. */
  lemma RefusesBeforeStart(threadCount: nat)
    ensures exists s: Pool :: Reachable(s, threadCount) && s.running >= threadCount && s.submitted == []
  {
    var s := Created(threadCount, 0);
    assert Legal(s, []) && Run(s, []) == s;
    assert Reachable(s, threadCount);
  }

  /**
   No task waits while a worker sleeps: if the pool is running and a worker is parked, there are
   at least as many workers on their way to the queue and notifies still due as queued tasks.
   */
  lemma NoTaskLeftToSleepers(s: Pool, threadCount: nat)
    requires Reachable(s, threadCount) && s.workersRunning && Parked in s.workers
    ensures |s.tasks| <= Count(s.workers, Seeking) + Count(s.submitters, OwesNotify)
    ensures s.tasks != [] ==>
              || (exists i :: 0 <= i < |s.workers| && Seeking(s.workers[i]))
              || (exists j :: 0 <= j < |s.submitters| && OwesNotify(s.submitters[j]))
  {
    ReachableKeeps(s, threadCount);
    CountBounds(s.workers, Seeking);
    CountBounds(s.submitters, OwesNotify);
  }

  /** While the owner waits, some worker can step or some thread is in the middle of submitting. */
  lemma WaitingIsNotDeadlock(s: Pool, threadCount: nat)
    requires 0 < threadCount && Reachable(s, threadCount) && s.owner.Blocked?
    ensures || (exists i :: 0 <= i < |s.workers| && WorkerCanStep(s, i))
            || (exists j :: 0 <= j < |s.submitters| && !s.submitters[j].Away?)
  {
    ReachableKeeps(s, threadCount);
    match s.lock
    case ByWorker(i) => assert WorkerCanStep(s, i);
    case BySubmitter(j) => assert !s.submitters[j].Away?;
    case ByOwner =>
    case Free =>
      if forall i :: 0 <= i < |s.workers| ==> !WorkerCanStep(s, i) {
        AllParkedMeansOwed(s);
      }
  }

  lemma AllParkedMeansOwed(s: Pool)
    requires Inv(s) && s.lock.Free? && s.owner.Blocked? && s.workers != []
    requires forall i :: 0 <= i < |s.workers| ==> !WorkerCanStep(s, i)
    ensures exists j :: 0 <= j < |s.submitters| && !s.submitters[j].Away?
  {
    forall i | 0 <= i < |s.workers|
      ensures s.workers[i].Parked?
    {
      assert !WorkerCanStep(s, i);
      assert s.workers[i] in s.workers;
    }
    assert s.workers[0] in s.workers;
    CountBounds(s.workers, Seeking);
    CountBounds(s.workers, Counted);
    CountBounds(s.submitters, OwesNotify);
  }

  function Remaining(workers: seq<WorkerPc>): nat {
    if workers == [] then 0 else Rank(workers[|workers| - 1]) + Remaining(workers[..|workers| - 1])
  }

  lemma {:induction false} RemainingUpdate(workers: seq<WorkerPc>, i: nat, pc: WorkerPc)
    requires i < |workers|
    ensures Remaining(workers[i := pc]) == Remaining(workers) - Rank(workers[i]) + Rank(pc)
  {
    var last := |workers| - 1;
    if i == last {
      assert workers[i := pc][..last] == workers[..last];
    } else {
      assert workers[i := pc][..last] == workers[..last][i := pc];
      RemainingUpdate(workers[..last], i, pc);
    }
  }

  lemma {:induction false} RemainingZero(workers: seq<WorkerPc>)
    ensures Remaining(workers) == 0 <==> forall i :: 0 <= i < |workers| ==> workers[i].Exited?
  {
    if workers != [] {
      var last := |workers| - 1;
      RemainingZero(workers[..last]);
      assert forall i :: 0 <= i < last ==> workers[..last][i] == workers[i];
      assert Rank(workers[last]) == 0 <==> workers[last].Exited?;
    }
  }

  /** Once stopping, a step takes its worker strictly nearer its exit. */
  lemma StoppingDescends(s: Pool, i: nat)
    requires WorkerCanStep(s, i) && !s.workersRunning
    ensures var s' := WorkerNext(s, i);
            s'.workers == s.workers[i := s'.workers[i]] && Rank(s'.workers[i]) < Rank(s.workers[i])
  {
  }

  /**
   After `destroy_threads` has notified, nobody is parked, every worker step brings the workers
   nearer to having all exited, and no other step takes them further away.
   */
  lemma JoinCountsDown(s: Pool, threadCount: nat, step: Step)
    requires Reachable(s, threadCount) && s.owner.Joining? && Enabled(s, step)
    ensures Parked !in s.workers
    ensures Remaining(Apply(s, step).workers) <= Remaining(s.workers)
    ensures step.WorkerStep? ==> Remaining(Apply(s, step).workers) < Remaining(s.workers)
  {
    ReachableKeeps(s, threadCount);
    if step.WorkerStep? {
      StoppingDescends(s, step.i);
      RemainingUpdate(s.workers, step.i, WorkerNext(s, step.i).workers[step.i]);
    }
  }

  /**
   ... and until they have all exited, some worker can step or some thread is in the middle of
   submitting; once they have, the joins go through. So `destroy_threads` returns.
   */
  lemma JoinIsNotDeadlock(s: Pool, threadCount: nat)
    requires Reachable(s, threadCount) && s.owner.Joining?
    ensures Remaining(s.workers) > 0 ==>
              || (exists i :: 0 <= i < |s.workers| && WorkerCanStep(s, i))
              || (exists j :: 0 <= j < |s.submitters| && !s.submitters[j].Away?)
    ensures Remaining(s.workers) == 0 ==> OwnerCanStep(s)
  {
    ReachableKeeps(s, threadCount);
    RemainingZero(s.workers);
    if Remaining(s.workers) > 0 {
      var i :| 0 <= i < |s.workers| && !s.workers[i].Exited?;
      assert s.workers[i] in s.workers;
      match s.lock
      case ByWorker(k) => assert WorkerCanStep(s, k);
      case BySubmitter(j) => assert !s.submitters[j].Away?;
      case ByOwner =>
      case Free => assert WorkerCanStep(s, i);
    }
  }
}
