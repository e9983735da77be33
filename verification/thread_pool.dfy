/**
 The pool that runs client connections: include/thread-pool/BS_thread_pool.hpp, as a state machine.
 Every access to shared state is a step of its own; `waiting`, `tasks_running` and `tasks` are
 read outside the lock one after the other. Any number of threads may submit tasks; one thread
 calls `wait` and destroys the pool. A condition variable may wake a thread that nobody notified.
 */
module ThreadPool {
  import opened Collections

  type Task = nat

  /** Where a worker is in `worker`. */
  datatype WorkerPc =
    | Starting                // the thread exists and has not yet taken the lock
    | Decrementing            // holds the lock, before --tasks_running
    | Releasing               // holds the lock, after --tasks_running
    | ReadsWaiting            // about to read `waiting`, without the lock
    | ReadsRunning            // `waiting` was true; about to read `tasks_running`
    | ReadsTasks              // `tasks_running` was 0; about to read `tasks`
    | Notifies                // `tasks` was empty; about to notify tasks_done_cv
    | Relocking               // wants the lock, to look for a task
    | Checking                // holds the lock, about to test the wait condition
    | Parked                  // blocked on task_available_cv
    | TestsStop               // holds the lock, the wait condition held
    | Taking                  // holds the lock, about to pop a task
    | Counting(task: Task)    // holds the lock, before ++tasks_running
    | Unlocking(task: Task)   // holds the lock, after ++tasks_running
    | Running(task: Task)
    | Finishing               // the task returned; wants the lock
    | Exited

  /** Where a thread is in `detach_task`. */
  datatype SubmitterPc = Away | Emplacing(task: Task) | Emplaced | NotifiesOne

  /** Where the owner of the pool is in `wait` and `destroy_threads`. */
  datatype OwnerPc =
    | Elsewhere
    | SetsWaiting             // holds the lock
    | TestsDone               // holds the lock
    | Blocked                 // on tasks_done_cv
    | RelocksDone
    | ClearsWaiting           // holds the lock
    | Waited                  // `wait` has returned
    | Stops                   // holds the lock, before workers_running = false
    | Stopped                 // holds the lock
    | NotifiesAll
    | Joining(next: nat)
    | Destroyed

  datatype Lock = Free | ByWorker(i: nat) | BySubmitter(j: nat) | ByOwner

  datatype Pool = Pool(
    lock: Lock,
    tasks: seq<Task>,
    running: int,
    waiting: bool,
    workersRunning: bool,
    workers: seq<WorkerPc>,
    submitters: seq<SubmitterPc>,
    owner: OwnerPc,
    // What has happened so far: tasks in the order they were queued and dequeued, and the finished ones.
    submitted: seq<Task>,
    taken: seq<Task>,
    finished: multiset<Task>)

  /** `create_threads`: every worker counts as running until it first looks for a task. */
  function Created(threadCount: nat, submitterCount: nat): Pool {
    Pool(Free, [], threadCount, false, true, seq(threadCount, _ => Starting),
         seq(submitterCount, _ => Away), Elsewhere, [], [], multiset{})
  }

  datatype Step =
    | WorkerStep(i: nat)
    | SpuriousWorkerWake(i: nat)
    | Submit(j: nat, task: Task)
    | SubmitterStep(j: nat)
    | NotifyOne(j: nat, i: nat)
    | NotifyNobody(j: nat)
    | OwnerStep
    | SpuriousOwnerWake
    | CallWait
    | Destroy

  predicate WantsLock(pc: WorkerPc) {
    pc.Starting? || pc.Finishing? || pc.Relocking?
  }

  predicate Holds(pc: WorkerPc) {
    pc.Decrementing? || pc.Releasing? || pc.Checking? || pc.TestsStop? || pc.Taking? || pc.Counting? || pc.Unlocking?
  }

  predicate OwnerHolds(pc: OwnerPc) {
    pc.SetsWaiting? || pc.TestsDone? || pc.ClearsWaiting? || pc.Stops? || pc.Stopped?
  }

  predicate AllDone(s: Pool) {
    s.running == 0 && s.tasks == []
  }

  predicate WorkerCanStep(s: Pool, i: nat) {
    && i < |s.workers|
    && !s.workers[i].Parked? && !s.workers[i].Exited?
    && (WantsLock(s.workers[i]) ==> s.lock.Free?)
    && (s.workers[i].Taking? ==> s.tasks != [])
  }

  predicate OwnerCanStep(s: Pool) {
    match s.owner
    case Elsewhere | Blocked | Waited | Destroyed => false
    case RelocksDone => s.lock.Free?
    case Joining(next) => next < |s.workers| ==> s.workers[next].Exited?
    case _ => true
  }

  predicate Enabled(s: Pool, step: Step) {
    match step
    case WorkerStep(i) => WorkerCanStep(s, i)
    case SpuriousWorkerWake(i) => i < |s.workers| && s.workers[i].Parked?
    case Submit(j, task) => j < |s.submitters| && s.submitters[j].Away? && s.lock.Free?
    case SubmitterStep(j) => j < |s.submitters| && (s.submitters[j].Emplacing? || s.submitters[j].Emplaced?)
    case NotifyOne(j, i) =>
      j < |s.submitters| && s.submitters[j].NotifiesOne? && i < |s.workers| && s.workers[i].Parked?
    case NotifyNobody(j) =>
      j < |s.submitters| && s.submitters[j].NotifiesOne? && Parked !in s.workers
    case OwnerStep => OwnerCanStep(s)
    case SpuriousOwnerWake => s.owner.Blocked?
    case CallWait => (s.owner.Elsewhere? || s.owner.Waited?) && s.lock.Free?
    case Destroy => s.owner.Waited? && s.lock.Free?
  }

  function Wake(workers: seq<WorkerPc>): seq<WorkerPc> {
    seq(|workers|, i requires 0 <= i < |workers| => if workers[i].Parked? then Relocking else workers[i])
  }

  function WorkerNext(s: Pool, i: nat): Pool
    requires WorkerCanStep(s, i)
  {
    match s.workers[i]
    case Starting | Finishing => s.(lock := ByWorker(i), workers := s.workers[i := Decrementing])
    case Decrementing => s.(running := s.running - 1, workers := s.workers[i := Releasing])
    case Releasing => s.(lock := Free, workers := s.workers[i := ReadsWaiting])
    case ReadsWaiting => s.(workers := s.workers[i := if s.waiting then ReadsRunning else Relocking])
    case ReadsRunning => s.(workers := s.workers[i := if s.running == 0 then ReadsTasks else Relocking])
    case ReadsTasks => s.(workers := s.workers[i := if s.tasks == [] then Notifies else Relocking])
    case Notifies =>
      s.(workers := s.workers[i := Relocking], owner := if s.owner.Blocked? then RelocksDone else s.owner)
    case Relocking => s.(lock := ByWorker(i), workers := s.workers[i := Checking])
    case Checking =>
      if s.tasks != [] || !s.workersRunning then s.(workers := s.workers[i := TestsStop])
      else s.(lock := Free, workers := s.workers[i := Parked])
    case TestsStop =>
      if !s.workersRunning then s.(lock := Free, workers := s.workers[i := Exited])
      else s.(workers := s.workers[i := Taking])
    case Taking =>
      s.(tasks := s.tasks[1..], taken := s.taken + [s.tasks[0]], workers := s.workers[i := Counting(s.tasks[0])])
    case Counting(task) => s.(running := s.running + 1, workers := s.workers[i := Unlocking(task)])
    case Unlocking(task) => s.(lock := Free, workers := s.workers[i := Running(task)])
    case Running(task) => s.(finished := s.finished + multiset{task}, workers := s.workers[i := Finishing])
    case _ => s
  }

  function SubmitterNext(s: Pool, j: nat): Pool
    requires Enabled(s, SubmitterStep(j))
  {
    match s.submitters[j]
    case Emplacing(task) =>
      s.(tasks := s.tasks + [task], submitted := s.submitted + [task], submitters := s.submitters[j := Emplaced])
    case _ => s.(lock := Free, submitters := s.submitters[j := NotifiesOne])
  }

  function OwnerNext(s: Pool): Pool
    requires OwnerCanStep(s)
  {
    match s.owner
    case SetsWaiting => s.(waiting := true, owner := TestsDone)
    case TestsDone => if AllDone(s) then s.(owner := ClearsWaiting) else s.(lock := Free, owner := Blocked)
    case RelocksDone => s.(lock := ByOwner, owner := TestsDone)
    case ClearsWaiting => s.(lock := Free, waiting := false, owner := Waited)
    case Stops => s.(workersRunning := false, owner := Stopped)
    case Stopped => s.(lock := Free, owner := NotifiesAll)
    case NotifiesAll => s.(workers := Wake(s.workers), owner := Joining(0))
    case Joining(next) => s.(owner := if next < |s.workers| then Joining(next + 1) else Destroyed)
    case _ => s
  }

  function Apply(s: Pool, step: Step): Pool
    requires Enabled(s, step)
  {
    match step
    case WorkerStep(i) => WorkerNext(s, i)
    case SpuriousWorkerWake(i) => s.(workers := s.workers[i := Relocking])
    case Submit(j, task) => s.(lock := BySubmitter(j), submitters := s.submitters[j := Emplacing(task)])
    case SubmitterStep(j) => SubmitterNext(s, j)
    case NotifyOne(j, i) => s.(submitters := s.submitters[j := Away], workers := s.workers[i := Relocking])
    case NotifyNobody(j) => s.(submitters := s.submitters[j := Away])
    case OwnerStep => OwnerNext(s)
    case SpuriousOwnerWake => s.(owner := RelocksDone)
    case CallWait => s.(lock := ByOwner, owner := SetsWaiting)
    case Destroy => s.(lock := ByOwner, owner := Stops)
  }

  predicate Legal(s: Pool, steps: seq<Step>)
    decreases |steps|
  {
    steps == [] || (Enabled(s, steps[0]) && Legal(Apply(s, steps[0]), steps[1..]))
  }

  function Run(s: Pool, steps: seq<Step>): Pool
    requires Legal(s, steps)
    decreases |steps|
  {
    if steps == [] then s else Run(Apply(s, steps[0]), steps[1..])
  }
}
