/** What every step of the pool keeps: the lock, the count of running tasks, the queue, and every wakeup that is owed. */
module PoolInvariants {
  import opened Collections
  import opened ThreadPool

  // ---- Counting workers ----

  function Count<T>(s: seq<T>, p: T -> bool): nat {
    if s == [] then 0 else (if p(s[|s| - 1]) then 1 else 0) + Count(s[..|s| - 1], p)
  }

  function Bit(b: bool): nat {
    if b then 1 else 0
  }

  lemma {:induction false} CountUpdate<T>(s: seq<T>, p: T -> bool, i: nat, x: T)
    requires i < |s|
    ensures Count(s[i := x], p) == Count(s, p) - Bit(p(s[i])) + Bit(p(x))
  {
    var last := |s| - 1;
    if i == last {
      assert s[i := x][..last] == s[..last];
    } else {
      assert s[i := x][..last] == s[..last][i := x];
      CountUpdate(s[..last], p, i, x);
    }
  }

  lemma {:induction false} CountBounds<T>(s: seq<T>, p: T -> bool)
    ensures Count(s, p) <= |s|
    ensures Count(s, p) == 0 <==> forall i :: 0 <= i < |s| ==> !p(s[i])
    ensures Count(s, p) == |s| <==> forall i :: 0 <= i < |s| ==> p(s[i])
  {
    if s != [] {
      var last := |s| - 1;
      CountBounds(s[..last], p);
      assert forall i :: 0 <= i < last ==> s[..last][i] == s[i];
    }
  }

  /** Counted in `tasks_running`: from ++ (or creation) up to --. */
  predicate Counted(pc: WorkerPc) {
    pc.Starting? || pc.Decrementing? || pc.Unlocking? || pc.Running? || pc.Finishing?
  }

  /** On the way to the queue: will test it before doing anything else. */
  predicate Seeking(pc: WorkerPc) {
    pc.Relocking? || pc.Checking? || pc.TestsStop? || pc.Taking?
  }

  predicate OwesNotify(pc: SubmitterPc) {
    pc.Emplaced? || pc.NotifiesOne?
  }

  /** Between its decrement and its notify; or about to count the task it has just dequeued. */
  predicate WillLookAgain(pc: WorkerPc) {
    pc.Releasing? || pc.ReadsWaiting? || pc.ReadsRunning? || pc.ReadsTasks? || pc.Notifies? || pc.Counting?
  }

  /** A worker has dequeued `task` and not finished it. */
  predicate Has(pc: WorkerPc, task: Task) {
    pc == Counting(task) || pc == Unlocking(task) || pc == Running(task)
  }

  /** How many workers have `task` in hand. */
  function InHand(workers: seq<WorkerPc>, task: Task): nat {
    if workers == [] then 0
    else Bit(Has(workers[|workers| - 1], task)) + InHand(workers[..|workers| - 1], task)
  }

  lemma {:induction false} InHandUpdate(workers: seq<WorkerPc>, i: nat, pc: WorkerPc, task: Task)
    requires i < |workers|
    ensures InHand(workers[i := pc], task) ==
            InHand(workers, task) - Bit(Has(workers[i], task)) + Bit(Has(pc, task))
  {
    var last := |workers| - 1;
    if i == last {
      assert workers[i := pc][..last] == workers[..last];
    } else {
      assert workers[i := pc][..last] == workers[..last][i := pc];
      InHandUpdate(workers[..last], i, pc, task);
    }
  }

  lemma {:induction false} WakeInHand(workers: seq<WorkerPc>, task: Task)
    ensures InHand(Wake(workers), task) == InHand(workers, task)
  {
    if workers != [] {
      var last := |workers| - 1;
      assert Wake(workers)[..last] == Wake(workers[..last]);
      WakeInHand(workers[..last], task);
    }
  }

  lemma {:induction false} NothingInHand(workers: seq<WorkerPc>, task: Task)
    requires forall i :: 0 <= i < |workers| ==> !Has(workers[i], task)
    ensures InHand(workers, task) == 0
  {
    if workers != [] {
      NothingInHand(workers[..|workers| - 1], task);
    }
  }

  // ---- The invariant ----

  ghost predicate LockExcludes(s: Pool) {
    && (forall i :: 0 <= i < |s.workers| ==> (Holds(s.workers[i]) <==> s.lock == ByWorker(i)))
    && (forall j :: 0 <= j < |s.submitters| ==>
          ((s.submitters[j].Emplacing? || s.submitters[j].Emplaced?) <==> s.lock == BySubmitter(j)))
    && (OwnerHolds(s.owner) <==> s.lock == ByOwner)
    && (s.lock.ByWorker? ==> s.lock.i < |s.workers|)
    && (s.lock.BySubmitter? ==> s.lock.j < |s.submitters|)
  }

  ghost predicate RunningCounts(s: Pool) {
    s.running == Count(s.workers, Counted)
  }

  /** Tasks leave the queue once each, in the order they were submitted. */
  ghost predicate QueueInOrder(s: Pool) {
    s.taken + s.tasks == s.submitted
  }

  /** Every dequeued task is in some worker's hands or finished, as often as it was dequeued. */
  ghost predicate TasksConserved(s: Pool) {
    forall task :: Conserved(s, task)
  }

  ghost predicate Conserved(s: Pool, task: Task) {
    multiset(s.taken)[task] == InHand(s.workers, task) + s.finished[task]
  }

  ghost predicate TaskThere(s: Pool) {
    forall i :: 0 <= i < |s.workers| ==>
      && (s.workers[i].TestsStop? ==> s.tasks != [] || !s.workersRunning)
      && (s.workers[i].Taking? ==> s.tasks != [] && s.workersRunning)
  }

  /** A blocked waiter with nothing left to wait for is still owed a look. */
  ghost predicate WakeupOwed(s: Pool) {
    && (s.owner.Blocked? || s.owner.RelocksDone? || s.owner.TestsDone? ==> s.waiting)
    && (s.owner.Blocked? && AllDone(s) ==>
          exists i :: 0 <= i < |s.workers| && WillLookAgain(s.workers[i]))
  }

  /** While a worker is parked, every queued task has a worker coming for it or a notify due. */
  ghost predicate NoTaskStranded(s: Pool) {
    s.workersRunning && Parked in s.workers ==>
      |s.tasks| <= Count(s.workers, Seeking) + Count(s.submitters, OwesNotify)
  }

  ghost predicate StopReaches(s: Pool) {
    && (s.workersRunning <==> !(s.owner.Stopped? || s.owner.NotifiesAll? || s.owner.Joining? || s.owner.Destroyed?))
    && (s.owner.Joining? || s.owner.Destroyed? ==> Parked !in s.workers)
    && (s.workersRunning ==> Exited !in s.workers)
    && (s.owner.Joining? ==> s.owner.next <= |s.workers|)
    && (s.owner.Joining? ==> forall i :: 0 <= i < s.owner.next ==> s.workers[i].Exited?)
    && (s.owner.Destroyed? ==> forall i :: 0 <= i < |s.workers| ==> s.workers[i].Exited?)
  }

  ghost predicate Inv(s: Pool) {
    && LockExcludes(s)
    && RunningCounts(s)
    && QueueInOrder(s)
    && TasksConserved(s)
    && TaskThere(s)
    && WakeupOwed(s)
    && NoTaskStranded(s)
    && StopReaches(s)
  }

  // ---- Every step keeps it ----

  /** What a step does to the lock, by whether the worker holds it before and after. */
  lemma WorkerLocks(s: Pool, i: nat)
    requires WorkerCanStep(s, i)
    requires Holds(s.workers[i]) <==> s.lock == ByWorker(i)
    ensures var s' := WorkerNext(s, i);
            && s'.workers == s.workers[i := s'.workers[i]]
            && s'.submitters == s.submitters
            && OwnerHolds(s'.owner) == OwnerHolds(s.owner)
            && (Holds(s'.workers[i]) <==> s'.lock == ByWorker(i))
            && (s'.lock == s.lock || (s.lock in {Free, ByWorker(i)} && s'.lock in {Free, ByWorker(i)}))
  {
  }

  lemma WorkerKeepsLock(s: Pool, i: nat)
    requires LockExcludes(s) && WorkerCanStep(s, i)
    ensures LockExcludes(WorkerNext(s, i))
  {
    WorkerLocks(s, i);
  }

  lemma OwnerKeepsLock(s: Pool)
    requires LockExcludes(s) && OwnerCanStep(s)
    ensures LockExcludes(OwnerNext(s))
  {
    var s' := OwnerNext(s);
    assert forall k :: 0 <= k < |s.workers| ==> Holds(s'.workers[k]) == Holds(s.workers[k]);
  }

  lemma LockKept(s: Pool, step: Step)
    requires LockExcludes(s) && Enabled(s, step)
    ensures LockExcludes(Apply(s, step))
  {
    match step
    case WorkerStep(i) => WorkerKeepsLock(s, i);
    case OwnerStep => OwnerKeepsLock(s);
    case _ =>
  }

  lemma {:induction false} WakeCounts(workers: seq<WorkerPc>, p: WorkerPc -> bool)
    requires p(Parked) == p(Relocking)
    ensures Count(Wake(workers), p) == Count(workers, p)
  {
    if workers != [] {
      var last := |workers| - 1;
      assert Wake(workers)[..last] == Wake(workers[..last]);
      WakeCounts(workers[..last], p);
    }
  }

  lemma WorkerCounts(s: Pool, i: nat)
    requires WorkerCanStep(s, i)
    ensures var s' := WorkerNext(s, i);
            s'.workers == s.workers[i := s'.workers[i]] &&
            s'.running == s.running - Bit(Counted(s.workers[i])) + Bit(Counted(s'.workers[i]))
  {
  }

  lemma RunningKept(s: Pool, step: Step)
    requires RunningCounts(s) && Enabled(s, step)
    ensures RunningCounts(Apply(s, step))
  {
    match step
    case WorkerStep(i) =>
      WorkerCounts(s, i);
      CountUpdate(s.workers, Counted, i, WorkerNext(s, i).workers[i]);
    case SpuriousWorkerWake(i) => CountUpdate(s.workers, Counted, i, Relocking);
    case NotifyOne(j, i) => CountUpdate(s.workers, Counted, i, Relocking);
    case OwnerStep => WakeCounts(s.workers, Counted);
    case _ =>
  }

  lemma QueueKept(s: Pool, step: Step)
    requires QueueInOrder(s) && Enabled(s, step)
    ensures QueueInOrder(Apply(s, step))
  {
    if step.WorkerStep? && s.workers[step.i].Taking? {
      assert s.tasks == [s.tasks[0]] + s.tasks[1..];
    }
  }

  lemma TakingCounts(taken: seq<Task>, first: Task, task: Task)
    ensures multiset(taken + [first])[task] == multiset(taken)[task] + Bit(first == task)
  {
    assert multiset(taken + [first]) == multiset(taken) + multiset{first};
  }

  /** What a step takes from the queue and finishes, and what it leaves in the worker's hands. */
  lemma WorkerHandles(s: Pool, i: nat, task: Task)
    requires WorkerCanStep(s, i)
    ensures var s', pc := WorkerNext(s, i), s.workers[i];
            && s'.workers == s.workers[i := s'.workers[i]]
            && s'.taken == (if pc.Taking? then s.taken + [s.tasks[0]] else s.taken)
            && s'.finished == (if pc.Running? then s.finished + multiset{pc.task} else s.finished)
            && Bit(Has(s'.workers[i], task)) ==
               Bit(Has(pc, task)) + Bit(pc.Taking? && s.tasks[0] == task) - Bit(pc == Running(task))
  {
  }

  lemma WorkerConserves(s: Pool, i: nat, task: Task)
    requires WorkerCanStep(s, i) && Conserved(s, task)
    ensures Conserved(WorkerNext(s, i), task)
  {
    var s' := WorkerNext(s, i);
    WorkerHandles(s, i, task);
    InHandUpdate(s.workers, i, s'.workers[i], task);
    if s.workers[i].Taking? {
      TakingCounts(s.taken, s.tasks[0], task);
    }
  }

  lemma TaskKept(s: Pool, step: Step, task: Task)
    requires Conserved(s, task) && Enabled(s, step)
    ensures Conserved(Apply(s, step), task)
  {
    hide InHand, WorkerNext;
    match step
    case WorkerStep(i) => WorkerConserves(s, i, task);
    case SpuriousWorkerWake(i) => InHandUpdate(s.workers, i, Relocking, task);
    case NotifyOne(j, i) => InHandUpdate(s.workers, i, Relocking, task);
    case OwnerStep => WakeInHand(s.workers, task);
    case _ =>
  }

  lemma TasksKept(s: Pool, step: Step)
    requires TasksConserved(s) && Enabled(s, step)
    ensures TasksConserved(Apply(s, step))
  {
    forall task
      ensures Conserved(Apply(s, step), task)
    {
      assert Conserved(s, task);
      TaskKept(s, step, task);
    }
  }

  lemma WorkerKeepsTaskThere(s: Pool, i: nat)
    requires LockExcludes(s) && TaskThere(s) && WorkerCanStep(s, i)
    ensures TaskThere(WorkerNext(s, i))
  {
    var s' := WorkerNext(s, i);
    forall k | 0 <= k < |s.workers| && k != i
      ensures s'.workers[k] == s.workers[k]
      ensures Holds(s.workers[i]) ==> !Holds(s.workers[k])
    {
    }
  }

  lemma TaskThereKept(s: Pool, step: Step)
    requires LockExcludes(s) && TaskThere(s) && Enabled(s, step)
    ensures TaskThere(Apply(s, step))
  {
    match step
    case WorkerStep(i) => WorkerKeepsTaskThere(s, i);
    case OwnerStep =>
      var s' := OwnerNext(s);
      assert forall k :: 0 <= k < |s.workers| ==>
        s'.workers[k].Relocking? || (s'.workers[k] == s.workers[k] && (s.owner.Stops? ==> !Holds(s.workers[k])));
    case _ =>
  }

  /** Nobody but a worker can finish the last task, and that worker will look again. */
  lemma WorkerLooksAgain(s: Pool, i: nat)
    requires WorkerCanStep(s, i) && s.running >= 0
    ensures var s' := WorkerNext(s, i);
            && s'.waiting == s.waiting && s'.workers == s.workers[i := s'.workers[i]]
            && (s'.owner == s.owner || (s.owner.Blocked? && s'.owner.RelocksDone?))
            && (s'.owner.Blocked? && s.waiting && AllDone(s') ==>
                if AllDone(s) then WillLookAgain(s.workers[i]) ==> WillLookAgain(s'.workers[i])
                else WillLookAgain(s'.workers[i]))
  {
  }

  lemma WakeupStillOwed(s: Pool, step: Step)
    requires RunningCounts(s) && WakeupOwed(s) && Enabled(s, step)
    ensures WakeupOwed(Apply(s, step))
  {
    hide Count, WorkerNext;
    var s' := Apply(s, step);
    if step.WorkerStep? {
      WorkerLooksAgain(s, step.i);
      if s'.owner.Blocked? && AllDone(s') {
        var k :| 0 <= k < |s.workers| && (AllDone(s) ==> WillLookAgain(s.workers[k]));
        assert WillLookAgain(s'.workers[if AllDone(s) then k else step.i]);
      }
    } else if s'.owner.Blocked? && AllDone(s') {
      var k :| 0 <= k < |s.workers| && WillLookAgain(s.workers[k]);
      assert WillLookAgain(s'.workers[k]);
    }
  }

  lemma StillParked(workers: seq<WorkerPc>, i: nat, pc: WorkerPc)
    requires i < |workers| && (workers[i].Parked? || !pc.Parked?)
    ensures Parked in workers[i := pc] ==> Parked in workers
  {
    if Parked in workers[i := pc] {
      var k :| 0 <= k < |workers| && workers[i := pc][k].Parked?;
      assert workers[k].Parked?;
    }
  }

  lemma WorkerStrandsNone(s: Pool, i: nat)
    requires NoTaskStranded(s) && TaskThere(s) && WorkerCanStep(s, i)
    ensures NoTaskStranded(WorkerNext(s, i))
  {
    var s' := WorkerNext(s, i);
    WorkerCounts(s, i);
    CountUpdate(s.workers, Seeking, i, s'.workers[i]);
    if s'.workers[i].Parked? {
      assert s'.tasks == [] || !s'.workersRunning;
    } else {
      StillParked(s.workers, i, s'.workers[i]);
      assert s'.workersRunning ==>
        |s'.tasks| - Bit(Seeking(s'.workers[i])) <= |s.tasks| - Bit(Seeking(s.workers[i]));
    }
  }

  lemma StillNoTaskStranded(s: Pool, step: Step)
    requires NoTaskStranded(s) && TaskThere(s) && StopReaches(s) && Enabled(s, step)
    ensures NoTaskStranded(Apply(s, step))
  {
    hide Count, WorkerNext;
    var s' := Apply(s, step);
    match step
    case WorkerStep(i) => WorkerStrandsNone(s, i);
    case SpuriousWorkerWake(i) =>
      CountUpdate(s.workers, Seeking, i, Relocking);
      StillParked(s.workers, i, Relocking);
    case Submit(j, task) => CountUpdate(s.submitters, OwesNotify, j, Emplacing(task));
    case SubmitterStep(j) => CountUpdate(s.submitters, OwesNotify, j, s'.submitters[j]);
    case NotifyOne(j, i) =>
      CountUpdate(s.workers, Seeking, i, Relocking);
      StillParked(s.workers, i, Relocking);
      CountUpdate(s.submitters, OwesNotify, j, Away);
    case _ =>
  }

  lemma WorkerKeepsStop(s: Pool, i: nat)
    requires StopReaches(s) && TaskThere(s) && WorkerCanStep(s, i)
    ensures StopReaches(WorkerNext(s, i))
  {
    var s' := WorkerNext(s, i);
    WorkerCounts(s, i);
    assert forall k :: 0 <= k < |s.workers| && k != i ==> s'.workers[k] == s.workers[k];
    if Parked in s'.workers && !s'.workers[i].Parked? {
      StillParked(s.workers, i, s'.workers[i]);
    }
    assert s'.workersRunning ==> !s'.workers[i].Exited?;
    assert s'.workers[i].Parked? ==> s'.workersRunning;
  }

  lemma OwnerKeepsStop(s: Pool)
    requires StopReaches(s) && OwnerCanStep(s)
    ensures StopReaches(OwnerNext(s))
  {
    var s' := OwnerNext(s);
    assert forall k :: 0 <= k < |s.workers| ==>
      s'.workers[k] == s.workers[k] || (s.workers[k].Parked? && s'.workers[k].Relocking?);
  }

  lemma StopStillReaches(s: Pool, step: Step)
    requires StopReaches(s) && TaskThere(s) && Enabled(s, step)
    ensures StopReaches(Apply(s, step))
  {
    match step
    case WorkerStep(i) => WorkerKeepsStop(s, i);
    case OwnerStep => OwnerKeepsStop(s);
    case SpuriousWorkerWake(i) => StillParked(s.workers, i, Relocking);
    case NotifyOne(j, i) => StillParked(s.workers, i, Relocking);
    case _ =>
  }

  lemma StepKeeps(s: Pool, step: Step)
    requires Inv(s) && Enabled(s, step)
    ensures Inv(Apply(s, step))
  {
    LockKept(s, step);
    RunningKept(s, step);
    QueueKept(s, step);
    TasksKept(s, step);
    TaskThereKept(s, step);
    WakeupStillOwed(s, step);
    StillNoTaskStranded(s, step);
    StopStillReaches(s, step);
  }
}
