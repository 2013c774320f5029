/**
 The job manager as a transition system: submitters, deleters, a sweeper, a
 shutdown caller and any number of worker threads share one lock, one unbounded
 FIFO queue and the job records.

 A critical section is one step if it makes at most one access to data that some
 thread touches without the lock.  The others are split at those accesses: the sweep
 and shutdown read each status and finish time in a step of its own, and a worker that
 claims a job reads the cancel event in one step and stores the status in another.
 Every store made without the lock (a queue put or get, each terminal field store, each
 cancel event set by shutdown) is a step of its own.
 */
module JobProtocol {
  import opened Wrappers

  type JobId = nat

  datatype Status = Queued | Running | Completed | Failed | Cancelled

  predicate Terminal(st: Status) {
    st.Completed? || st.Failed? || st.Cancelled?
  }

  /** Where the one reference a worker could use to run the job is: an auxiliary
      variable, read by no step. */
  datatype Place = InFlight | InQueue | AtWorker(w: nat) | Gone

  /** A job object.  `runs` counts the calls made to its job function; it and
      `place` are auxiliary. */
  datatype Job = Job(status: Status, progress: real, error: Option<string>,
                     finishedAt: Option<int>, cancel: bool, runs: nat, place: Place)

  const FRESH := Job(Queued, 0.0, None, None, false, 0, InFlight)

  datatype Item = Work(job: JobId) | Sentinel

  /** How a job left the worker's `try`: never claimed, or the way its function ended. */
  datatype How = NotClaimed | Returned | CancelRaised | ExceptionRaised(text: string) | BaseRaised(text: string)

  /** A worker thread's program counter.  Cleared: inside its claim, having read the
      cancel event clear and not yet stored the status; it holds the lock.  `done` counts
      the terminal stores already made. */
  datatype Pc =
    | Waiting
    | Took(job: JobId)
    | Claiming(job: JobId)
    | Cleared(job: JobId)
    | Calling(job: JobId)
    | Ending(job: JobId, how: How, done: nat)
    | Exited
    | Died

  /** The sweep loop: jobs still to read, jobs read as terminal, jobs found expired. */
  datatype Sweep = Off | Sweeping(now: int, todo: set<JobId>, seen: set<JobId>, expired: set<JobId>)

  datatype Shutdown =
    | Idle
    | Scanning(todo: set<JobId>, found: set<JobId>)
    | Cancelling(found: set<JobId>)
    | Posting(left: nat)
    | Joining

  datatype Config = Config(workers: int, ttl: int, maxQueue: int)

  /** `jobs` is the manager's store; `table` holds every accepted job object, also
      after it left the store.  `inflight` are the submits between the unlock and the
      put, `starting` the threads start() has yet to spawn, `threads` the length of
      the thread list.  `behind` is auxiliary: what was in flight at the last sentinel put
      since the last start(). */
  datatype State = State(
    running: bool, starting: nat, threads: nat, pending: int,
    jobs: set<JobId>, table: map<JobId, Job>, inflight: set<JobId>, queue: seq<Item>,
    workers: seq<Pc>, sweep: Sweep, shut: Shutdown, behind: Option<set<JobId>>)

  const INITIAL := State(false, 0, 0, 0, {}, map[], {}, [], [], Off, Idle, None)

  /** Some worker is between the two accesses of its claim. */
  predicate InClaim(s: State) {
    exists w :: 0 <= w < |s.workers| && s.workers[w].Cleared?
  }

  predicate LockFree(s: State) {
    s.sweep.Off? && !s.shut.Scanning? && !InClaim(s)
  }

  function JobOf(pc: Pc): Option<JobId> {
    match pc
    case Took(j) => Some(j)
    case Claiming(j) => Some(j)
    case Cleared(j) => Some(j)
    case Calling(j) => Some(j)
    case Ending(j, _, _) => Some(j)
    case _ => None
  }

  predicate Live(pc: Pc) {
    !pc.Exited? && !pc.Died?
  }

  function FinalStatus(how: How): Status {
    match how
    case NotClaimed => Cancelled
    case CancelRaised => Cancelled
    case Returned => Completed
    case ExceptionRaised(_) => Failed
    case BaseRaised(_) => Failed
  }

  /** Index of the store that publishes the terminal status. */
  function LastStore(how: How): nat {
    if how.NotClaimed? || how.CancelRaised? then 1 else 2
  }

  /** One terminal store of the worker, in program order. */
  function Stored(job: Job, how: How, done: nat, now: int): Job {
    if done == 0 then job.(finishedAt := Some(now))
    else if done == 1 && how.Returned? then job.(progress := 100.0)
    else if done == 1 && (how.ExceptionRaised? || how.BaseRaised?) then job.(error := Some(how.text))
    else job.(status := FinalStatus(how))
  }

  datatype Label =
    | Start | Spawn | SpawnFails
    | ShutLock | ShutRead(j: JobId) | ShutUnlock | ShutCancel(j: JobId) | ShutCancelled | Post | Posted | Joined
    | Accept(j: JobId) | Put(j: JobId) | Delete(j: JobId)
    | SweepLock(now: int) | SweepStatus(j: JobId) | SweepStamp(j: JobId) | SweepUnlock
    | Get(w: nat) | Decrement(w: nat) | Claim(w: nat) | Launch(w: nat)
    | Progress(w: nat, value: real) | Finish(w: nat, how: How) | Store(w: nat, now: int)

  predicate Full(c: Config, s: State) {
    c.maxQueue > 0 && s.pending >= c.maxQueue
  }

  predicate Enabled(c: Config, s: State, l: Label) {
    match l
    case Start => !s.running && s.shut.Idle? && s.starting == 0
    case Spawn => s.starting > 0
    case SpawnFails => s.starting > 0
    case ShutLock => s.shut.Idle? && s.starting == 0 && LockFree(s)
    case ShutRead(j) => s.shut.Scanning? && j in s.shut.todo && j in s.table
    case ShutUnlock => s.shut.Scanning? && s.shut.todo == {}
    case ShutCancel(j) => s.shut.Cancelling? && j in s.shut.found && j in s.table
    case ShutCancelled => s.shut.Cancelling? && s.shut.found == {}
    case Post => s.shut.Posting? && s.shut.left > 0
    case Posted => s.shut.Posting? && s.shut.left == 0
    case Joined => s.shut.Joining?
    case Accept(j) => LockFree(s) && s.running && !Full(c, s) && j !in s.table
    case Put(j) => j in s.inflight && j in s.table
    case Delete(j) => LockFree(s) && j in s.jobs && j in s.table
    case SweepLock(_) => LockFree(s)
    case SweepStatus(j) => s.sweep.Sweeping? && j in s.sweep.todo && j in s.table
    case SweepStamp(j) => s.sweep.Sweeping? && j in s.sweep.seen && j in s.table
    case SweepUnlock => s.sweep.Sweeping? && s.sweep.todo == {} && s.sweep.seen == {}
    case Get(w) => w < |s.workers| && s.workers[w].Waiting? && s.queue != [] &&
                   (s.queue[0].Work? ==> s.queue[0].job in s.table)
    case Decrement(w) => w < |s.workers| && s.workers[w].Took? && LockFree(s)
    case Claim(w) => w < |s.workers| && s.workers[w].Claiming? && LockFree(s) && s.workers[w].job in s.table
    case Launch(w) => w < |s.workers| && s.workers[w].Cleared? && s.workers[w].job in s.table
    case Progress(w, _) => w < |s.workers| && s.workers[w].Calling? && s.workers[w].job in s.table
    case Finish(w, how) => w < |s.workers| && s.workers[w].Calling? && !how.NotClaimed?
    case Store(w, _) => w < |s.workers| && s.workers[w].Ending? && s.workers[w].job in s.table
  }

  // ---- start, shutdown ---------------------------------------------------

  function DoStart(c: Config, s: State): State {
    s.(running := true, starting := if c.workers > 1 then c.workers else 1, behind := None)
  }

  function DoSpawn(s: State): State
    requires s.starting > 0
  {
    s.(starting := s.starting - 1, threads := s.threads + 1, workers := s.workers + [Waiting])
  }

  function DoShutLock(s: State): State {
    s.(running := false, shut := Scanning(s.jobs, {}))
  }

  function DoShutRead(s: State, j: JobId): State
    requires s.shut.Scanning? && j in s.table
  {
    s.(shut := Scanning(s.shut.todo - {j},
                        if Terminal(s.table[j].status) then s.shut.found else s.shut.found + {j}))
  }

  function DoShutCancel(s: State, j: JobId): State
    requires s.shut.Cancelling? && j in s.table
  {
    s.(shut := Cancelling(s.shut.found - {j}), table := s.table[j := s.table[j].(cancel := true)])
  }

  function DoPost(s: State): State
    requires s.shut.Posting? && s.shut.left > 0
  {
    s.(shut := Posting(s.shut.left - 1), queue := s.queue + [Sentinel], behind := Some(s.inflight))
  }

  // ---- submit, delete, sweep ---------------------------------------------

  function DoAccept(s: State, j: JobId): State {
    s.(pending := s.pending + 1, jobs := s.jobs + {j}, table := s.table[j := FRESH], inflight := s.inflight + {j})
  }

  function DoPut(s: State, j: JobId): State
    requires j in s.table
  {
    s.(inflight := s.inflight - {j}, queue := s.queue + [Work(j)],
       table := s.table[j := s.table[j].(place := InQueue)])
  }

  function DoDelete(s: State, j: JobId): State
    requires j in s.table
  {
    s.(jobs := s.jobs - {j}, table := s.table[j := s.table[j].(cancel := true)])
  }

  function DoSweepStatus(s: State, j: JobId): State
    requires s.sweep.Sweeping? && j in s.table
  {
    s.(sweep := s.sweep.(todo := s.sweep.todo - {j},
                         seen := if Terminal(s.table[j].status) then s.sweep.seen + {j} else s.sweep.seen))
  }

  predicate Overdue(c: Config, now: int, job: Job) {
    job.finishedAt.Some? && now - job.finishedAt.value >= c.ttl
  }

  function DoSweepStamp(c: Config, s: State, j: JobId): State
    requires s.sweep.Sweeping? && j in s.table
  {
    s.(sweep := s.sweep.(seen := s.sweep.seen - {j},
                         expired := if Overdue(c, s.sweep.now, s.table[j]) then s.sweep.expired + {j}
                                    else s.sweep.expired))
  }

  function DoSweepUnlock(s: State): State
    requires s.sweep.Sweeping?
  {
    s.(jobs := s.jobs - s.sweep.expired, sweep := Off)
  }

  // ---- workers -----------------------------------------------------------

  function Move(s: State, w: nat, pc: Pc): State
    requires w < |s.workers|
  {
    s.(workers := s.workers[w := pc])
  }

  function DoGet(s: State, w: nat): State
    requires w < |s.workers| && s.queue != []
    requires s.queue[0].Work? ==> s.queue[0].job in s.table
  {
    match s.queue[0]
    case Sentinel => Move(s, w, Exited).(queue := s.queue[1..])
    case Work(j) =>
      Move(s, w, Took(j)).(queue := s.queue[1..],
                           table := s.table[j := s.table[j].(place := AtWorker(w))])
  }

  function DoDecrement(s: State, w: nat): State
    requires w < |s.workers| && s.workers[w].Took?
  {
    Move(s, w, Claiming(s.workers[w].job)).(pending := s.pending - 1)
  }

  /** The claim's lock and its read of the cancel event; a set event ends it. */
  function DoClaim(s: State, w: nat): State
    requires w < |s.workers| && s.workers[w].Claiming? && s.workers[w].job in s.table
  {
    var j := s.workers[w].job;
    Move(s, w, if s.table[j].cancel then Ending(j, NotClaimed, 0) else Cleared(j))
  }

  /** The claim's store of the status, its unlock, and the call of the job function. */
  function DoLaunch(s: State, w: nat): State
    requires w < |s.workers| && s.workers[w].Cleared? && s.workers[w].job in s.table
  {
    var j := s.workers[w].job;
    var job := s.table[j];
    Move(s, w, Calling(j)).(table := s.table[j := job.(status := Running, runs := job.runs + 1)])
  }

  function DoProgress(s: State, w: nat, value: real): State
    requires w < |s.workers| && s.workers[w].Calling? && s.workers[w].job in s.table
  {
    var j := s.workers[w].job;
    s.(table := s.table[j := s.table[j].(progress := value)])
  }

  function DoFinish(s: State, w: nat, how: How): State
    requires w < |s.workers| && s.workers[w].Calling?
  {
    Move(s, w, Ending(s.workers[w].job, how, 0))
  }

  function DoStore(s: State, w: nat, now: int): State
    requires w < |s.workers| && s.workers[w].Ending? && s.workers[w].job in s.table
  {
    var Ending(j, how, done) := s.workers[w];
    var job := Stored(s.table[j], how, done, now);
    if done < LastStore(how) then
      Move(s, w, Ending(j, how, done + 1)).(table := s.table[j := job])
    else
      Move(s, w, if how.BaseRaised? then Died else Waiting).(table := s.table[j := job.(place := Gone)])
  }

  function After(c: Config, s: State, l: Label): State
    requires Enabled(c, s, l)
  {
    match l
    case Start => DoStart(c, s)
    case Spawn => DoSpawn(s)
    case SpawnFails => s.(starting := 0)
    case ShutLock => DoShutLock(s)
    case ShutRead(j) => DoShutRead(s, j)
    case ShutUnlock => s.(shut := Cancelling(s.shut.found))
    case ShutCancel(j) => DoShutCancel(s, j)
    case ShutCancelled => s.(shut := Posting(s.threads))
    case Post => DoPost(s)
    case Posted => s.(shut := Joining)
    case Joined => s.(shut := Idle, threads := 0)
    case Accept(j) => DoAccept(s, j)
    case Put(j) => DoPut(s, j)
    case Delete(j) => DoDelete(s, j)
    case SweepLock(now) => s.(sweep := Sweeping(now, s.jobs, {}, {}))
    case SweepStatus(j) => DoSweepStatus(s, j)
    case SweepStamp(j) => DoSweepStamp(c, s, j)
    case SweepUnlock => DoSweepUnlock(s)
    case Get(w) => DoGet(s, w)
    case Decrement(w) => DoDecrement(s, w)
    case Claim(w) => DoClaim(s, w)
    case Launch(w) => DoLaunch(s, w)
    case Progress(w, value) => DoProgress(s, w, value)
    case Finish(w, how) => DoFinish(s, w, how)
    case Store(w, now) => DoStore(s, w, now)
  }

  /** `t` is reached from `s` by the interleaving `ls`. */
  predicate Run(c: Config, s: State, ls: seq<Label>, t: State)
    decreases |ls|
  {
    if ls == [] then s == t else Enabled(c, s, ls[0]) && Run(c, After(c, s, ls[0]), ls[1..], t)
  }

  /** Each label of `ls` is enabled when it is reached. */
  predicate Possible(c: Config, s: State, ls: seq<Label>)
    decreases |ls|
  {
    ls == [] || (Enabled(c, s, ls[0]) && Possible(c, After(c, s, ls[0]), ls[1..]))
  }
}
