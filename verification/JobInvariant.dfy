/** The inductive invariant of the job protocol, and that every step keeps it. */
module JobInvariant {
  import opened Wrappers
  import opened Sums
  import opened JobProtocol

  // ---- weights -----------------------------------------------------------

  function WorkOne(it: Item): nat { if it.Work? then 1 else 0 }
  function SentinelOne(it: Item): nat { if it.Sentinel? then 1 else 0 }
  function TookOne(pc: Pc): nat { if pc.Took? then 1 else 0 }
  function LiveOne(pc: Pc): nat { if Live(pc) then 1 else 0 }
  function DiedOne(pc: Pc): nat { if pc.Died? then 1 else 0 }

  function Sentinels(s: State): nat { Sum(s.queue, SentinelOne) }
  function LiveWorkers(s: State): nat { Sum(s.workers, LiveOne) }
  function DeadWorkers(s: State): nat { Sum(s.workers, DiedOne) }

  /** Sentinels the manager still owes to the threads on its list. */
  function Credit(s: State): nat {
    match s.shut
    case Posting(left) => left
    case Joining => 0
    case _ => s.threads
  }

  // ---- one job -----------------------------------------------------------

  predicate Untouched(job: Job) {
    job.status == Queued && job.runs == 0 && job.finishedAt.None? && job.error.None?
  }

  /** What a worker's program counter says about the job it holds. */
  predicate Matches(pc: Pc, job: Job) {
    match pc
    case Took(_) => Untouched(job)
    case Claiming(_) => Untouched(job)
    case Cleared(_) => Untouched(job)
    case Calling(_) => job.status == Running && job.runs == 1 && job.finishedAt.None? && job.error.None?
    case Ending(_, how, done) =>
      && done <= LastStore(how)
      && (if how.NotClaimed? then job.status == Queued && job.runs == 0 && job.cancel
          else job.status == Running && job.runs == 1)
      && (done > 0 ==> job.finishedAt.Some?)
      && (done > 1 && how.Returned? ==> job.progress == 100.0)
      && (done > 1 && (how.ExceptionRaised? || how.BaseRaised?) ==> job.error.Some?)
      && (!how.ExceptionRaised? && !how.BaseRaised? ==> job.error.None?)
    case _ => true
  }

  /** A job no worker will touch again. */
  predicate Settled(job: Job) {
    && Terminal(job.status)
    && job.finishedAt.Some?
    && (job.status == Failed ==> job.error.Some? && job.runs == 1)
    && (job.status == Completed ==> job.progress == 100.0 && job.error.None? && job.runs == 1)
    && (job.status == Cancelled ==> job.error.None? && job.runs <= 1 && (job.runs == 0 ==> job.cancel))
  }

  predicate Sound(s: State, j: JobId, job: Job) {
    match job.place
    case InFlight => j in s.inflight && Untouched(job)
    case InQueue => Work(j) in s.queue && Untouched(job)
    case AtWorker(w) => w < |s.workers| && JobOf(s.workers[w]) == Some(j) && Matches(s.workers[w], job)
    case Gone => Settled(job)
  }

  // ---- the conjuncts -----------------------------------------------------

  ghost predicate Shape(s: State) {
    && s.jobs <= s.table.Keys
    && (s.sweep.Sweeping? ==> s.sweep.todo + s.sweep.seen + s.sweep.expired <= s.table.Keys)
    && (s.shut.Scanning? ==> s.shut.todo + s.shut.found <= s.table.Keys)
    && (s.shut.Cancelling? ==> s.shut.found <= s.table.Keys)
  }

  /** Every accepted job is in one place, and its fields fit that place. */
  ghost predicate Located(s: State) {
    forall j :: j in s.table ==> Sound(s, j, s.table[j])
  }

  ghost predicate InFlightPointed(s: State) {
    forall j :: j in s.inflight ==> j in s.table && s.table[j].place == InFlight
  }

  ghost predicate QueuePointed(s: State) {
    && (forall k :: 0 <= k < |s.queue| && s.queue[k].Work? ==>
          s.queue[k].job in s.table && s.table[s.queue[k].job].place == InQueue)
    && (forall k, l :: 0 <= k < l < |s.queue| && s.queue[k].Work? ==> s.queue[k] != s.queue[l])
  }

  ghost predicate WorkersPointed(s: State) {
    forall w :: 0 <= w < |s.workers| && JobOf(s.workers[w]).Some? ==>
      JobOf(s.workers[w]).value in s.table && s.table[JobOf(s.workers[w]).value].place == AtWorker(w)
  }

  ghost predicate Placed(s: State) {
    Shape(s) && Located(s) && InFlightPointed(s) && QueuePointed(s) && WorkersPointed(s)
  }

  /** An unfinished job can be found in the store, or was already told to stop. */
  ghost predicate Covered(s: State) {
    forall j :: j in s.table && !Terminal(s.table[j].status) ==> s.table[j].cancel || j in s.jobs
  }

  predicate Marked(s: State, j: JobId) {
    match s.shut
    case Scanning(todo, found) => j in todo || j in found
    case Cancelling(found) => j in found
    case _ => false
  }

  /** Once the manager is stopped, every unfinished job is told to stop or about to be. */
  ghost predicate Halted(s: State) {
    !s.running ==>
      forall j :: j in s.table && !Terminal(s.table[j].status) ==> s.table[j].cancel || Marked(s, j)
  }

  ghost predicate SweepSound(c: Config, s: State) {
    s.sweep.Sweeping? ==>
      && (forall j :: j in s.sweep.seen && j in s.table ==> Terminal(s.table[j].status))
      && (forall j :: j in s.sweep.expired && j in s.table ==>
            Terminal(s.table[j].status) && Overdue(c, s.sweep.now, s.table[j]))
  }

  ghost predicate Guarded(c: Config, s: State) {
    Covered(s) && Halted(s) && SweepSound(c, s)
  }

  /** The backlog counter is exactly the jobs no worker has uncounted yet. */
  predicate Backlog(c: Config, s: State) {
    && s.pending == |s.inflight| + Sum(s.queue, WorkOne) + Sum(s.workers, TookOne)
    && (c.maxQueue > 0 ==> s.pending <= c.maxQueue)
  }

  /** Sentinels are conserved: one for each worker still to stop, one left over for each that died. */
  predicate Balanced(s: State) {
    Sentinels(s) + Credit(s) == LiveWorkers(s) + DeadWorkers(s)
  }

  predicate Phases(s: State) {
    && (!s.running ==> s.starting == 0)
    && (s.running ==> s.behind.None?)
    && (!s.shut.Idle? ==> !s.running)
    && (!s.running && s.shut.Idle? ==> s.threads == 0)
  }

  /** Jobs queued behind the last sentinel. */
  function TailJobs(q: seq<Item>): set<JobId> {
    if q == [] || q[|q| - 1].Sentinel? then {} else TailJobs(q[..|q| - 1]) + {q[|q| - 1].job}
  }

  /** After the last sentinel, what is behind it is what was in flight when it was put. */
  predicate Stranding(s: State) {
    !s.running && Credit(s) == 0 && s.behind.Some? ==> TailJobs(s.queue) + s.inflight == s.behind.value
  }

  predicate Counted(c: Config, s: State) {
    Backlog(c, s) && Balanced(s) && Phases(s) && Stranding(s)
  }

  /** The lock: a worker inside its claim, a sweep and a snapshot exclude each other. */
  ghost predicate Exclusive(s: State) {
    && (InClaim(s) ==> s.sweep.Off? && !s.shut.Scanning?)
    && (s.sweep.Sweeping? ==> !s.shut.Scanning?)
    && (forall v, w :: 0 <= v < w < |s.workers| && s.workers[v].Cleared? ==> !s.workers[w].Cleared?)
  }

  ghost predicate Inv(c: Config, s: State) {
    Placed(s) && Guarded(c, s) && Counted(c, s) && Exclusive(s)
  }

  /** A terminal job has been given up, with all its fields in place. */
  lemma TerminalIsSettled(c: Config, s: State, j: JobId)
    requires Inv(c, s) && j in s.table && Terminal(s.table[j].status)
    ensures s.table[j].place.Gone? && Settled(s.table[j])
  {
    assert Sound(s, j, s.table[j]);
  }

  lemma InitialInv(c: Config)
    ensures Inv(c, INITIAL)
  {
  }

  // ---- Placed ------------------------------------------------------------

  lemma AcceptPointed(c: Config, s: State, j: JobId)
    requires Placed(s) && Enabled(c, s, Accept(j))
    ensures Shape(DoAccept(s, j)) && InFlightPointed(DoAccept(s, j))
    ensures QueuePointed(DoAccept(s, j)) && WorkersPointed(DoAccept(s, j))
  {
  }

  lemma AcceptPlaced(c: Config, s: State, j: JobId)
    requires Placed(s) && Enabled(c, s, Accept(j))
    ensures Placed(DoAccept(s, j))
  {
    var t := DoAccept(s, j);
    forall i | i in t.table ensures Sound(t, i, t.table[i]) {
      if i != j {
        assert Sound(s, i, s.table[i]);
      }
    }
    AcceptPointed(c, s, j);
  }

  lemma PutPlaced(c: Config, s: State, j: JobId)
    requires Inv(c, s) && Enabled(c, s, Put(j))
    ensures Placed(DoPut(s, j))
  {
    var t := DoPut(s, j);
    assert t.queue[|s.queue|] == Work(j);
    forall i | i in t.table ensures Sound(t, i, t.table[i]) {
      if i != j && t.table[i].place.InQueue? {
        assert Work(i) in s.queue;
      }
    }
  }

  lemma PostPlaced(c: Config, s: State)
    requires Inv(c, s) && Enabled(c, s, Post)
    ensures Placed(DoPost(s))
  {
    var t := DoPost(s);
    forall i | i in t.table ensures Sound(t, i, t.table[i]) {
      if t.table[i].place.InQueue? {
        assert Work(i) in s.queue;
      }
    }
  }

  lemma GetLocated(c: Config, s: State, w: nat)
    requires Placed(s) && Enabled(c, s, Get(w))
    ensures Located(DoGet(s, w))
  {
    var t := DoGet(s, w);
    forall i | i in t.table ensures Sound(t, i, t.table[i]) {
      assert Sound(s, i, s.table[i]);
      if t.table[i].place.InQueue? {
        var k :| 0 <= k < |s.queue| && s.queue[k] == Work(i);
        assert k > 0;
        assert t.queue[k - 1] == Work(i);
      }
    }
  }

  lemma GetPointed(c: Config, s: State, w: nat)
    requires Placed(s) && Enabled(c, s, Get(w))
    ensures Shape(DoGet(s, w)) && InFlightPointed(DoGet(s, w))
    ensures QueuePointed(DoGet(s, w)) && WorkersPointed(DoGet(s, w))
  {
    var t := DoGet(s, w);
    assert forall k :: 0 <= k < |t.queue| ==> t.queue[k] == s.queue[k + 1];
  }

  lemma GetPlaced(c: Config, s: State, w: nat)
    requires Placed(s) && Enabled(c, s, Get(w))
    ensures Placed(DoGet(s, w))
  {
    GetLocated(c, s, w);
    GetPointed(c, s, w);
  }

  /** The thread that holds a job moves on and rewrites that job alone. */
  lemma OwnerPlaced(s: State, t: State, w: nat, j: JobId, pc: Pc, job: Job)
    requires Placed(s)
    requires w < |s.workers| && JobOf(s.workers[w]) == Some(j) && j in s.table
    requires t == s.(workers := s.workers[w := pc], table := s.table[j := job], pending := t.pending)
    requires
      || (JobOf(pc) == Some(j) && job.place == AtWorker(w) && Matches(pc, job))
      || (JobOf(pc) == None && job.place == Gone && Settled(job))
    ensures Placed(t)
  {
    forall i | i in t.table ensures Sound(t, i, t.table[i]) {
      assert Sound(s, i, s.table[i]);
    }
    forall v | 0 <= v < |t.workers| && JobOf(t.workers[v]).Some?
      ensures JobOf(t.workers[v]).value in t.table && t.table[JobOf(t.workers[v]).value].place == AtWorker(v)
    {
      if v != w {
        assert JobOf(s.workers[v]).value in s.table;
      }
    }
    assert s.table[j].place == AtWorker(w);
  }

  lemma DecrementPlaced(c: Config, s: State, w: nat)
    requires Placed(s) && Enabled(c, s, Decrement(w))
    ensures Placed(DoDecrement(s, w))
  {
    var j := s.workers[w].job;
    assert JobOf(s.workers[w]) == Some(j);
    assert Sound(s, j, s.table[j]);
    assert s.table == s.table[j := s.table[j]];
    OwnerPlaced(s, DoDecrement(s, w), w, j, Claiming(j), s.table[j]);
  }

  lemma ClaimPlaced(c: Config, s: State, w: nat)
    requires Placed(s) && Enabled(c, s, Claim(w))
    ensures Placed(DoClaim(s, w))
  {
    var j := s.workers[w].job;
    assert JobOf(s.workers[w]) == Some(j);
    assert Sound(s, j, s.table[j]);
    assert s.table == s.table[j := s.table[j]];
    var t := DoClaim(s, w);
    OwnerPlaced(s, t, w, j, t.workers[w], s.table[j]);
  }

  lemma LaunchPlaced(c: Config, s: State, w: nat)
    requires Placed(s) && Enabled(c, s, Launch(w))
    ensures Placed(DoLaunch(s, w))
  {
    var j := s.workers[w].job;
    assert JobOf(s.workers[w]) == Some(j);
    assert Sound(s, j, s.table[j]);
    var t := DoLaunch(s, w);
    OwnerPlaced(s, t, w, j, t.workers[w], t.table[j]);
  }

  lemma ProgressPlaced(c: Config, s: State, w: nat, value: real)
    requires Placed(s) && Enabled(c, s, Progress(w, value))
    ensures Placed(DoProgress(s, w, value))
  {
    var j := s.workers[w].job;
    assert JobOf(s.workers[w]) == Some(j);
    assert Sound(s, j, s.table[j]);
    var t := DoProgress(s, w, value);
    assert t.workers == s.workers[w := s.workers[w]];
    OwnerPlaced(s, t, w, j, s.workers[w], t.table[j]);
  }

  lemma FinishPlaced(c: Config, s: State, w: nat, how: How)
    requires Placed(s) && Enabled(c, s, Finish(w, how))
    ensures Placed(DoFinish(s, w, how))
  {
    var j := s.workers[w].job;
    assert JobOf(s.workers[w]) == Some(j);
    assert Sound(s, j, s.table[j]);
    assert s.table == s.table[j := s.table[j]];
    OwnerPlaced(s, DoFinish(s, w, how), w, j, Ending(j, how, 0), s.table[j]);
  }

  lemma StorePlaced(c: Config, s: State, w: nat, now: int)
    requires Placed(s) && Enabled(c, s, Store(w, now))
    ensures Placed(DoStore(s, w, now))
  {
    var j := s.workers[w].job;
    assert JobOf(s.workers[w]) == Some(j);
    assert Sound(s, j, s.table[j]);
    var t := DoStore(s, w, now);
    OwnerPlaced(s, t, w, j, t.workers[w], t.table[j]);
  }

  lemma CancelPlaced(s: State, t: State, j: JobId)
    requires Placed(s) && j in s.table
    requires t == s.(table := s.table[j := s.table[j].(cancel := true)], jobs := t.jobs, shut := t.shut)
    requires Shape(t)
    ensures Placed(t)
  {
    forall i | i in t.table ensures Sound(t, i, t.table[i]) {
      assert Sound(s, i, s.table[i]);
    }
  }

  lemma SpawnPlaced(c: Config, s: State)
    requires Inv(c, s) && Enabled(c, s, Spawn)
    ensures Placed(DoSpawn(s))
  {
  }

  /** The steps that touch no job, no queue and no worker. */
  predicate Bookkeeping(l: Label) {
    l.Start? || l.SpawnFails? ||
    l.ShutLock? || l.ShutRead? || l.ShutUnlock? || l.ShutCancelled? || l.Posted? || l.Joined? ||
    l.SweepLock? || l.SweepStatus? || l.SweepStamp? || l.SweepUnlock?
  }

  lemma LoopPlaced(c: Config, s: State, l: Label)
    requires Placed(s) && Enabled(c, s, l) && Bookkeeping(l)
    ensures Placed(After(c, s, l))
  {
    var t := After(c, s, l);
    assert t.table == s.table && t.queue == s.queue && t.workers == s.workers && t.inflight == s.inflight;
    forall i | i in t.table ensures Sound(t, i, t.table[i]) {
      assert Sound(s, i, s.table[i]);
    }
    assert Shape(t);
  }

  lemma ShutCancelPlaced(c: Config, s: State, j: JobId)
    requires Placed(s) && Enabled(c, s, ShutCancel(j))
    ensures Placed(DoShutCancel(s, j))
  {
    CancelPlaced(s, DoShutCancel(s, j), j);
  }

  lemma DeletePlaced(c: Config, s: State, j: JobId)
    requires Placed(s) && Enabled(c, s, Delete(j))
    ensures Placed(DoDelete(s, j))
  {
    CancelPlaced(s, DoDelete(s, j), j);
  }

  /** The steps of the worker that holds a job. */
  predicate Holds(l: Label) {
    l.Decrement? || l.Claim? || l.Launch? || l.Progress? || l.Finish? || l.Store?
  }

  lemma QueuePlaced(c: Config, s: State, l: Label)
    requires Inv(c, s) && Enabled(c, s, l)
    requires !Bookkeeping(l) && !Holds(l)
    ensures Placed(After(c, s, l))
  {
    match l
    case Accept(j) => AcceptPlaced(c, s, j);
    case Put(j) => PutPlaced(c, s, j);
    case Post => PostPlaced(c, s);
    case Get(w) => GetPlaced(c, s, w);
    case ShutCancel(j) => ShutCancelPlaced(c, s, j);
    case Delete(j) => DeletePlaced(c, s, j);
    case Spawn => SpawnPlaced(c, s);
  }

  lemma HolderPlaced(c: Config, s: State, l: Label)
    requires Placed(s) && Enabled(c, s, l)
    requires Holds(l)
    ensures Placed(After(c, s, l))
  {
    match l
    case Decrement(w) => DecrementPlaced(c, s, w);
    case Claim(w) => ClaimPlaced(c, s, w);
    case Launch(w) => LaunchPlaced(c, s, w);
    case Progress(w, value) => ProgressPlaced(c, s, w, value);
    case Finish(w, how) => FinishPlaced(c, s, w, how);
    case Store(w, now) => StorePlaced(c, s, w, now);
  }

  lemma PlacedKept(c: Config, s: State, l: Label)
    requires Inv(c, s) && Enabled(c, s, l)
    ensures Placed(After(c, s, l))
  {
    if Bookkeeping(l) {
      LoopPlaced(c, s, l);
    } else if Holds(l) {
      HolderPlaced(c, s, l);
    } else {
      QueuePlaced(c, s, l);
    }
  }

  // ---- Guarded -----------------------------------------------------------

  /** The job whose record a step may write, or whose claim it decides. */
  function Writes(s: State, l: Label): Option<JobId> {
    match l
    case ShutCancel(j) => Some(j)
    case Put(j) => Some(j)
    case Delete(j) => Some(j)
    case Get(w) => if s.queue != [] && s.queue[0].Work? then Some(s.queue[0].job) else None
    case Claim(w) => if w < |s.workers| then JobOf(s.workers[w]) else None
    case Launch(w) => if w < |s.workers| then JobOf(s.workers[w]) else None
    case Progress(w, _) => if w < |s.workers| then JobOf(s.workers[w]) else None
    case Store(w, _) => if w < |s.workers| then JobOf(s.workers[w]) else None
    case _ => None
  }

  lemma WritesOnly(c: Config, s: State, l: Label, j: JobId)
    requires Enabled(c, s, l) && j in s.table && Writes(s, l) != Some(j)
    ensures j in After(c, s, l).table && After(c, s, l).table[j] == s.table[j]
  {
  }

  /** What no step takes back: the cancel event, a started run, a terminal status
      and the fields that came with it. */
  predicate Forward(before: Job, after: Job) {
    && (before.cancel ==> after.cancel)
    && before.runs <= after.runs
    && (Terminal(before.status) ==> after.(cancel := true) == before.(cancel := true))
  }

  lemma WorkerForward(c: Config, s: State, l: Label, j: JobId)
    requires Placed(s) && Enabled(c, s, l) && j in s.table && Writes(s, l) == Some(j)
    requires l.Claim? || l.Launch? || l.Progress? || l.Store?
    ensures Forward(s.table[j], After(c, s, l).table[j])
    ensures Terminal(After(c, s, l).table[j].status) ==> After(c, s, l).table[j].finishedAt.Some?
  {
    assert JobOf(s.workers[l.w]) == Some(j);
    assert Sound(s, j, s.table[j]);
  }

  lemma QueueForward(c: Config, s: State, l: Label, j: JobId)
    requires Placed(s) && Enabled(c, s, l) && j in s.table && Writes(s, l) == Some(j)
    requires l.Put? || l.Get? || l.ShutCancel? || l.Delete?
    ensures Forward(s.table[j], After(c, s, l).table[j])
    ensures After(c, s, l).table[j].status == s.table[j].status
  {
    assert Sound(s, j, s.table[j]);
  }

  lemma ForwardKept(c: Config, s: State, l: Label, j: JobId)
    requires Placed(s) && Enabled(c, s, l) && j in s.table
    ensures j in After(c, s, l).table
    ensures Forward(s.table[j], After(c, s, l).table[j])
  {
    if Writes(s, l) != Some(j) {
      WritesOnly(c, s, l, j);
    } else if l.Claim? || l.Launch? || l.Progress? || l.Store? {
      WorkerForward(c, s, l, j);
    } else {
      QueueForward(c, s, l, j);
    }
  }

  /** Where a job that is being ended, or has ended, was one step before. */
  predicate EndedFrom(s: State, t: State, j: JobId)
    requires j in s.table && j in t.table
  {
    match t.table[j].place
    case AtWorker(w) =>
      w < |t.workers| && t.workers[w].Ending? && !t.workers[w].how.NotClaimed? ==>
        s.table[j].place == AtWorker(w) && w < |s.workers| && s.workers[w] == t.workers[w]
    case Gone =>
      s.table[j].place == Gone && t.table[j].status == s.table[j].status && t.table[j].runs == s.table[j].runs
    case _ => true
  }

  lemma OthersStay(c: Config, s: State, l: Label, j: JobId)
    requires Placed(s) && Enabled(c, s, l) && j in s.table && Writes(s, l) != Some(j)
    requires l.Finish? || l.Store? ==> s.workers[l.w].job != j
    requires s.table[j].place.AtWorker?
    ensures var w := s.table[j].place.w;
            w < |s.workers| && w < |After(c, s, l).workers|
            && (After(c, s, l).workers[w].Ending? ==> After(c, s, l).workers[w] == s.workers[w])
  {
    assert Sound(s, j, s.table[j]);
  }

  /** Only the worker that holds a job moves it through its end. */
  lemma EndingStep(c: Config, s: State, l: Label, j: JobId)
    requires Placed(s) && Enabled(c, s, l) && j in s.table && j in After(c, s, l).table
    requires l.Finish? || l.Store? ==> s.workers[l.w].job != j
    ensures EndedFrom(s, After(c, s, l), j)
  {
    assert Sound(s, j, s.table[j]);
    if Writes(s, l) != Some(j) {
      WritesOnly(c, s, l, j);
      if s.table[j].place.AtWorker? {
        OthersStay(c, s, l, j);
      }
    } else if l.Claim? || l.Launch? || l.Progress? {
      assert JobOf(s.workers[l.w]) == Some(j);
    }
  }

  /** The fields a job's reader sees. */
  predicate SameFields(a: Job, b: Job) {
    a.status == b.status && a.progress == b.progress && a.error == b.error && a.finishedAt == b.finishedAt
  }

  /** The single-writer rule: whatever step changes a field of an accepted job is made by
      the worker that holds it, and there is at most one. */
  lemma SingleWriter(c: Config, s: State, l: Label, j: JobId)
    requires Placed(s) && Enabled(c, s, l) && j in s.table && j in After(c, s, l).table
    requires !SameFields(s.table[j], After(c, s, l).table[j])
    ensures l.Launch? || l.Progress? || l.Store?
    ensures l.w < |s.workers| && JobOf(s.workers[l.w]) == Some(j)
    ensures forall v :: 0 <= v < |s.workers| && JobOf(s.workers[v]) == Some(j) ==> v == l.w
  {
    if Writes(s, l) != Some(j) {
      WritesOnly(c, s, l, j);
    }
  }

  /** A new table entry is the fresh job of an accepted submit. */
  lemma NewEntry(c: Config, s: State, l: Label, j: JobId)
    requires Enabled(c, s, l) && j in After(c, s, l).table && j !in s.table
    ensures l == Accept(j)
  {
  }

  lemma CoveredKept(c: Config, s: State, l: Label)
    requires Placed(s) && Guarded(c, s) && Enabled(c, s, l)
    ensures Covered(After(c, s, l))
  {
    var t := After(c, s, l);
    forall j | j in t.table && !Terminal(t.table[j].status) ensures t.table[j].cancel || j in t.jobs {
      if j !in s.table {
        NewEntry(c, s, l, j);
      } else {
        ForwardKept(c, s, l, j);
        if l.SweepUnlock? {
        } else if l.Delete? {
        } else {
          assert s.jobs <= t.jobs;
        }
      }
    }
  }

  lemma HaltedKept(c: Config, s: State, l: Label)
    requires Placed(s) && Guarded(c, s) && Phases(s) && Enabled(c, s, l)
    ensures Halted(After(c, s, l))
  {
    var t := After(c, s, l);
    if !t.running {
      forall j | j in t.table && !Terminal(t.table[j].status) ensures t.table[j].cancel || Marked(t, j) {
        if j !in s.table {
          NewEntry(c, s, l, j);
        } else {
          ForwardKept(c, s, l, j);
        }
      }
    }
  }

  lemma SweepSoundKept(c: Config, s: State, l: Label)
    requires Placed(s) && SweepSound(c, s) && Enabled(c, s, l)
    ensures SweepSound(c, After(c, s, l))
  {
    var t := After(c, s, l);
    if t.sweep.Sweeping? {
      forall j | j in t.table && (j in t.sweep.seen || j in t.sweep.expired)
        ensures Terminal(t.table[j].status)
        ensures j in t.sweep.expired ==> Overdue(c, t.sweep.now, t.table[j])
      {
        assert j in s.table;
        ForwardKept(c, s, l, j);
      }
    }
  }

  lemma GuardedKept(c: Config, s: State, l: Label)
    requires Inv(c, s) && Enabled(c, s, l)
    ensures Guarded(c, After(c, s, l))
  {
    CoveredKept(c, s, l);
    HaltedKept(c, s, l);
    SweepSoundKept(c, s, l);
  }

  // ---- Counted -----------------------------------------------------------

  lemma MoveSums(s: State, w: nat, pc: Pc)
    requires w < |s.workers|
    ensures Sum(Move(s, w, pc).workers, TookOne) + TookOne(s.workers[w]) == Sum(s.workers, TookOne) + TookOne(pc)
    ensures LiveWorkers(Move(s, w, pc)) + LiveOne(s.workers[w]) == LiveWorkers(s) + LiveOne(pc)
    ensures DeadWorkers(Move(s, w, pc)) + DiedOne(s.workers[w]) == DeadWorkers(s) + DiedOne(pc)
  {
    SumUpdate(s.workers, w, pc, TookOne);
    SumUpdate(s.workers, w, pc, LiveOne);
    SumUpdate(s.workers, w, pc, DiedOne);
  }

  lemma TailOfRest(q: seq<Item>)
    requires q != []
    requires q[0].Sentinel? || Sentinel in q[1..]
    ensures TailJobs(q[1..]) == TailJobs(q)
  {
    if |q| == 1 {
    } else if q[|q| - 1].Sentinel? {
    } else {
      var r := q[..|q| - 1];
      assert q[1..][..|q| - 2] == r[1..];
      assert q[1..][|q| - 2] == q[|q| - 1];
      if !q[0].Sentinel? {
        var k :| 0 <= k < |q[1..]| && q[1..][k] == Sentinel;
        assert k < |r[1..]| && r[1..][k] == Sentinel;
      }
      TailOfRest(r);
    }
  }

  lemma GetCounted(c: Config, s: State, w: nat)
    requires Inv(c, s) && Enabled(c, s, Get(w))
    ensures Counted(c, DoGet(s, w))
  {
    var pc := if s.queue[0].Sentinel? then Exited else Took(s.queue[0].job);
    MoveSums(s, w, pc);
    if !s.running && Credit(s) == 0 {
      SumAtLeast(s.workers, w, LiveOne);
      if s.queue[0].Work? {
        assert Sum(s.queue[1..], SentinelOne) > 0;
        var k := SumWitness(s.queue[1..], SentinelOne);
        assert s.queue[1..][k] == Sentinel;
      }
      TailOfRest(s.queue);
    }
  }

  lemma TailPut(q: seq<Item>, j: JobId)
    ensures TailJobs(q + [Work(j)]) == TailJobs(q) + {j}
  {
    assert (q + [Work(j)])[..|q|] == q;
  }

  lemma PutCounted(c: Config, s: State, j: JobId)
    requires Inv(c, s) && Enabled(c, s, Put(j))
    ensures Counted(c, DoPut(s, j))
  {
    SumAppend(s.queue, Work(j), WorkOne);
    SumAppend(s.queue, Work(j), SentinelOne);
    TailPut(s.queue, j);
    assert j !in s.inflight - {j} && s.inflight == s.inflight - {j} + {j};
  }

  lemma PostCounted(c: Config, s: State)
    requires Inv(c, s) && Enabled(c, s, Post)
    ensures Counted(c, DoPost(s))
  {
    SumAppend(s.queue, Sentinel, WorkOne);
    SumAppend(s.queue, Sentinel, SentinelOne);
  }

  lemma SpawnCounted(c: Config, s: State)
    requires Inv(c, s) && Enabled(c, s, Spawn)
    ensures Counted(c, DoSpawn(s))
  {
    SumAppend(s.workers, Waiting, TookOne);
    SumAppend(s.workers, Waiting, LiveOne);
    SumAppend(s.workers, Waiting, DiedOne);
  }

  lemma DecrementCounted(c: Config, s: State, w: nat)
    requires Counted(c, s) && Enabled(c, s, Decrement(w))
    ensures Counted(c, DoDecrement(s, w))
  {
    MoveSums(s, w, Claiming(s.workers[w].job));
  }

  /** A worker step that neither takes from the queue nor touches the counter. */
  lemma MoveCounted(c: Config, s: State, t: State, w: nat, pc: Pc)
    requires Counted(c, s) && w < |s.workers|
    requires t == s.(workers := s.workers[w := pc], table := t.table)
    requires !s.workers[w].Took? && !pc.Took? && !pc.Exited? && Live(s.workers[w])
    ensures Counted(c, t)
  {
    MoveSums(s, w, pc);
  }

  lemma ClaimCounted(c: Config, s: State, w: nat)
    requires Counted(c, s) && Enabled(c, s, Claim(w))
    ensures Counted(c, DoClaim(s, w))
  {
    MoveCounted(c, s, DoClaim(s, w), w, DoClaim(s, w).workers[w]);
  }

  lemma LaunchCounted(c: Config, s: State, w: nat)
    requires Counted(c, s) && Enabled(c, s, Launch(w))
    ensures Counted(c, DoLaunch(s, w))
  {
    MoveCounted(c, s, DoLaunch(s, w), w, DoLaunch(s, w).workers[w]);
  }

  lemma FinishCounted(c: Config, s: State, w: nat, how: How)
    requires Counted(c, s) && Enabled(c, s, Finish(w, how))
    ensures Counted(c, DoFinish(s, w, how))
  {
    MoveCounted(c, s, DoFinish(s, w, how), w, DoFinish(s, w, how).workers[w]);
  }

  lemma StoreCounted(c: Config, s: State, w: nat, now: int)
    requires Counted(c, s) && Enabled(c, s, Store(w, now))
    ensures Counted(c, DoStore(s, w, now))
  {
    MoveCounted(c, s, DoStore(s, w, now), w, DoStore(s, w, now).workers[w]);
  }

  lemma AcceptCounted(c: Config, s: State, j: JobId)
    requires Inv(c, s) && Enabled(c, s, Accept(j))
    ensures Counted(c, DoAccept(s, j))
  {
    assert j !in s.inflight;
  }

  lemma OtherCounted(c: Config, s: State, l: Label)
    requires Counted(c, s) && Enabled(c, s, l)
    requires Bookkeeping(l) || l.Delete? || l.ShutCancel? || l.Progress?
    ensures Counted(c, After(c, s, l))
  {
    var t := After(c, s, l);
    assert t.queue == s.queue && t.workers == s.workers && t.pending == s.pending && t.inflight == s.inflight;
    if l.Start? {
      assert t.running && t.behind.None? && Credit(t) == Credit(s);
    } else {
      assert t.behind == s.behind && Credit(t) == Credit(s);
    }
  }

  lemma HolderCounted(c: Config, s: State, l: Label)
    requires Counted(c, s) && Enabled(c, s, l) && Holds(l) && !l.Progress?
    ensures Counted(c, After(c, s, l))
  {
    match l
    case Decrement(w) => DecrementCounted(c, s, w);
    case Claim(w) => ClaimCounted(c, s, w);
    case Launch(w) => LaunchCounted(c, s, w);
    case Finish(w, how) => FinishCounted(c, s, w, how);
    case Store(w, now) => StoreCounted(c, s, w, now);
  }

  lemma QueueCounted(c: Config, s: State, l: Label)
    requires Inv(c, s) && Enabled(c, s, l)
    requires l.Accept? || l.Put? || l.Post? || l.Spawn? || l.Get?
    ensures Counted(c, After(c, s, l))
  {
    match l
    case Accept(j) => AcceptCounted(c, s, j);
    case Put(j) => PutCounted(c, s, j);
    case Post => PostCounted(c, s);
    case Spawn => SpawnCounted(c, s);
    case Get(w) => GetCounted(c, s, w);
  }

  lemma CountedKept(c: Config, s: State, l: Label)
    requires Inv(c, s) && Enabled(c, s, l)
    ensures Counted(c, After(c, s, l))
  {
    if Bookkeeping(l) || l.Delete? || l.ShutCancel? || l.Progress? {
      OtherCounted(c, s, l);
    } else if Holds(l) {
      HolderCounted(c, s, l);
    } else {
      QueueCounted(c, s, l);
    }
  }

  // ---- Exclusive ---------------------------------------------------------

  /** Only a claim puts a worker inside its claim. */
  lemma OnlyClaimClears(c: Config, s: State, l: Label, w: nat)
    requires Enabled(c, s, l) && w < |After(c, s, l).workers| && After(c, s, l).workers[w].Cleared?
    ensures l == Claim(w) || (w < |s.workers| && s.workers[w] == After(c, s, l).workers[w])
  {
  }

  lemma ExclusiveKept(c: Config, s: State, l: Label)
    requires Exclusive(s) && Enabled(c, s, l)
    ensures Exclusive(After(c, s, l))
  {
    var t := After(c, s, l);
    forall v, w | 0 <= v < w < |t.workers| && t.workers[v].Cleared? ensures !t.workers[w].Cleared? {
      OnlyClaimClears(c, s, l, v);
      if t.workers[w].Cleared? {
        OnlyClaimClears(c, s, l, w);
      }
    }
    if InClaim(t) {
      var w :| 0 <= w < |t.workers| && t.workers[w].Cleared?;
      OnlyClaimClears(c, s, l, w);
    }
  }

  /** Every step of every thread keeps the invariant. */
  lemma InvKept(c: Config, s: State, l: Label)
    requires Inv(c, s) && Enabled(c, s, l)
    ensures Inv(c, After(c, s, l))
  {
    PlacedKept(c, s, l);
    GuardedKept(c, s, l);
    CountedKept(c, s, l);
    ExclusiveKept(c, s, l);
  }
}
