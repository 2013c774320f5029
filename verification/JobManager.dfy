/**
 The job manager as objects updated in place.  Each method is one atomic section,
 executed by whatever thread reaches it; its postcondition is the step of the protocol
 it performs.  Interleave makes the calls of any possible run, so what is
 proved of the protocol's runs holds of the objects.
 */
module JobManager {
  import opened Wrappers
  import opened JobProtocol
  import opened JobInvariant
  import JobTheorems

  class JobRecord {
    const id: JobId
    var status: Status
    var progress: real
    var error: Option<string>
    var finishedAt: Option<int>
    var cancelEvent: bool
    ghost var runs: nat
    ghost var place: Place

    constructor (id: JobId)
      ensures this.id == id && View() == FRESH
    {
      this.id := id;
      status, progress, error, finishedAt, cancelEvent := Queued, 0.0, None, None, false;
      runs, place := 0, InFlight;
    }

    ghost function View(): Job
      reads this
    {
      Job(status, progress, error, finishedAt, cancelEvent, runs, place)
    }

    /** The terminal store numbered `done` of a job that ended as `how`. */
    method StoreTerminal(how: How, done: nat, now: int)
      modifies this
      ensures View() == Stored(old(View()), how, done, now)
    {
      if done == 0 {
        finishedAt := Some(now);
      } else if done == 1 && how.Returned? {
        progress := 100.0;
      } else if done == 1 && (how.ExceptionRaised? || how.BaseRaised?) {
        error := Some(how.text);
      } else {
        status := FinalStatus(how);
      }
    }
  }

  /** What submit() gives its caller. */
  datatype Submission = Accepted(job: JobRecord) | Refused | NotRunning(job: JobRecord)

  /** The job records after one terminal store; the last one also gives the job up. */
  function StoredTable(table: map<JobId, Job>, id: JobId, how: How, done: nat, now: int): map<JobId, Job>
    requires id in table
  {
    var job := Stored(table[id], how, done, now);
    table[id := if done < LastStore(how) then job else job.(place := Gone)]
  }

  lemma StoreIsMove(s: State, w: nat, now: int)
    requires w < |s.workers| && s.workers[w].Ending? && s.workers[w].job in s.table
    ensures var Ending(id, how, done) := s.workers[w];
            DoStore(s, w, now) ==
            Move(s.(table := StoredTable(s.table, id, how, done, now)), w,
                 if done < LastStore(how) then Ending(id, how, done + 1)
                 else if how.BaseRaised? then Died else Waiting)
  {
  }

  predicate BySweep(l: Label) {
    l.SweepLock? || l.SweepStatus? || l.SweepStamp? || l.SweepUnlock?
  }

  predicate ByClaimer(l: Label) {
    l.Get? || l.Decrement? || l.Claim? || l.Launch?
  }

  predicate ByCaller(l: Label) {
    !BySweep(l) && !l.Get? && !Holds(l)
  }

  class Manager {
    const config: Config
    var running: bool
    var starting: nat
    var threads: nat
    var pending: int
    var jobs: map<JobId, JobRecord>
    /** Every accepted job object by its id: what a reference to it denotes. */
    var heap: map<JobId, JobRecord>
    var inflight: set<JobId>
    var queue: seq<Item>
    var workers: seq<Pc>
    var sweep: Sweep
    var shut: Shutdown
    ghost var behind: Option<set<JobId>>

    ghost predicate Valid()
      reads this
    {
      && (forall j :: j in heap ==> heap[j].id == j)
      && (forall j :: j in jobs ==> j in heap && heap[j] == jobs[j])
    }

    ghost function Table(): map<JobId, Job>
      reads this`heap, heap.Values
    {
      map j | j in heap :: heap[j].View()
    }

    ghost function View(): State
      reads this, heap.Values
    {
      State(running, starting, threads, pending, jobs.Keys, Table(), inflight, queue, workers, sweep, shut, behind)
    }

    constructor (config: Config)
      ensures Valid() && View() == INITIAL && this.config == config
    {
      this.config := config;
      running, starting, threads, pending := false, 0, 0, 0;
      jobs, heap, inflight, queue, workers := map[], map[], {}, [], [];
      sweep, shut, behind := Off, Idle, None;
    }

    /** Two ids never denote one object, so a store to one changes one entry. */
    twostate lemma OneWritten(id: JobId)
      requires Valid() && old(heap) == heap && id in heap
      requires forall i :: i in heap && heap[i] != heap[id] ==> heap[i].View() == old(heap[i].View())
      ensures Table() == old(Table())[id := heap[id].View()]
    {
      assert forall i :: i in heap && i != id ==> heap[i] != heap[id];
    }

    // ---- start -----------------------------------------------------------

    /** start() up to its loop; a second call does nothing. */
    method Start()
      requires Valid() && (running || Enabled(config, View(), JobProtocol.Start))
      modifies this`running, this`starting, this`behind
      ensures Valid()
      ensures View() == if old(running) then old(View()) else After(config, old(View()), JobProtocol.Start)
    {
      if running {
        return;
      }
      running := true;
      behind := None;
      starting := if config.workers > 1 then config.workers else 1;
    }

    /** One turn of start()'s loop. */
    method SpawnWorker()
      requires Valid() && Enabled(config, View(), Spawn)
      modifies this`workers, this`threads, this`starting
      ensures Valid() && View() == After(config, old(View()), Spawn)
    {
      workers := workers + [Waiting];
      threads := threads + 1;
      starting := starting - 1;
    }

    /** A thread of that loop cannot be started: start() raises, and leaves the manager
        running with the threads it has. */
    method AbandonStart()
      requires Valid() && Enabled(config, View(), SpawnFails)
      modifies this`starting
      ensures Valid() && View() == After(config, old(View()), SpawnFails)
    {
      starting := 0;
    }

    // ---- submit, get, delete ---------------------------------------------

    /** submit()'s critical section.  A refused or rejected submit changes nothing. */
    method Submit(id: JobId, now: int) returns (r: Submission)
      requires Valid() && LockFree(View()) && id !in heap
      modifies this`pending, this`jobs, this`heap, this`inflight
      ensures Valid()
      ensures r.Accepted? <==> old(running) && (config.maxQueue <= 0 || old(pending) < config.maxQueue)
      ensures r.Accepted? ==>
                && fresh(r.job) && r.job.id == id && heap == old(heap)[id := r.job]
                && View() == After(config, old(View()), Accept(id))
      ensures !r.Accepted? ==> View() == old(View()) && heap == old(heap)
      ensures r.NotRunning? <==> !old(running)
      ensures r.NotRunning? ==>
                && fresh(r.job) && r.job.id == id
                && r.job.View() == FRESH.(status := Failed, finishedAt := Some(now),
                                          error := Some("Service is shutting down; job not accepted"))
    {
      var job := new JobRecord(id);
      if !running {
        job.finishedAt := Some(now);
        job.error := Some("Service is shutting down; job not accepted");
        job.status := Failed;
        return NotRunning(job);
      }
      if config.maxQueue > 0 && pending >= config.maxQueue {
        return Refused;
      }
      Admit(job);
      r := Accepted(job);
    }

    /** The stores of an accepted submit. */
    method Admit(job: JobRecord)
      requires Valid() && job.id !in heap && job.View() == FRESH
      modifies this`pending, this`jobs, this`heap, this`inflight
      ensures Valid() && heap == old(heap)[job.id := job]
      ensures View() == DoAccept(old(View()), job.id)
    {
      AddRecord(job);
      ghost var between := View();
      pending := pending + 1;
      jobs := jobs[job.id := job];
      inflight := inflight + {job.id};
      assert jobs.Keys == between.jobs + {job.id} && Table() == between.table;
    }

    method AddRecord(job: JobRecord)
      requires Valid() && job.id !in heap && job.View() == FRESH
      modifies this`heap
      ensures Valid() && heap == old(heap)[job.id := job]
      ensures View() == old(View()).(table := old(View()).table[job.id := FRESH])
    {
      heap := heap[job.id := job];
      assert Table() == old(Table())[job.id := FRESH];
    }

    /** submit()'s put, made after the lock is released. */
    method Put(id: JobId)
      requires Valid() && Enabled(config, View(), JobProtocol.Put(id))
      modifies this`queue, this`inflight, heap[id]
      ensures Valid() && View() == After(config, old(View()), JobProtocol.Put(id))
    {
      ghost var before := View();
      queue := queue + [Work(id)];
      inflight := inflight - {id};
      heap[id].place := InQueue;
      OneWritten(id);
      assert View() == DoPut(before, id);
    }

    method Lookup(id: JobId) returns (job: Option<JobRecord>)
      requires Valid() && LockFree(View())
      ensures job.Some? <==> id in jobs
      ensures job.Some? ==> job.value == jobs[id] && job.value.id == id
    {
      job := if id in jobs then Some(jobs[id]) else None;
    }

    /** delete(): the pop and the cancel are one critical section. */
    method Delete(id: JobId) returns (found: bool)
      requires Valid() && LockFree(View())
      modifies this`jobs, if id in heap then {heap[id]} else {}
      ensures Valid()
      ensures found <==> id in old(jobs)
      ensures View() == if found then After(config, old(View()), JobProtocol.Delete(id)) else old(View())
    {
      if id !in jobs {
        return false;
      }
      ghost var before := View();
      var job := jobs[id];
      jobs := jobs - {id};
      job.cancelEvent := true;
      OneWritten(id);
      found := true;
    }

    // ---- sweep -----------------------------------------------------------

    method BeginSweep(now: int)
      requires Valid() && Enabled(config, View(), SweepLock(now))
      modifies this`sweep
      ensures Valid() && View() == After(config, old(View()), SweepLock(now))
    {
      sweep := Sweeping(now, jobs.Keys, {}, {});
    }

    method ReadStatus(id: JobId)
      requires Valid() && Enabled(config, View(), SweepStatus(id))
      modifies this`sweep
      ensures Valid() && View() == After(config, old(View()), SweepStatus(id))
    {
      ghost var before := View();
      sweep := sweep.(todo := sweep.todo - {id},
                      seen := if Terminal(heap[id].status) then sweep.seen + {id} else sweep.seen);
      assert Table() == before.table;
      assert View() == DoSweepStatus(before, id);
    }

    method ReadStamp(id: JobId)
      requires Valid() && Enabled(config, View(), SweepStamp(id))
      modifies this`sweep
      ensures Valid() && View() == After(config, old(View()), SweepStamp(id))
    {
      ghost var before := View();
      assert before.table[id] == heap[id].View();
      var stamp := heap[id].finishedAt;
      var late := stamp.Some? && sweep.now - stamp.value >= config.ttl;
      sweep := sweep.(seen := sweep.seen - {id},
                      expired := if late then sweep.expired + {id} else sweep.expired);
      assert Table() == before.table;
      assert View() == DoSweepStamp(config, before, id);
    }

    method EndSweep() returns (removed: nat)
      requires Valid() && Enabled(config, View(), SweepUnlock)
      modifies this`jobs, this`sweep
      ensures Valid() && View() == After(config, old(View()), SweepUnlock)
      ensures removed == |old(sweep).expired|
    {
      removed := |sweep.expired|;
      jobs := jobs - sweep.expired;
      sweep := Off;
    }

    ghost predicate IsOverdue(now: int, id: JobId)
      reads this, heap.Values
    {
      && id in heap && heap[id].status in {Completed, Failed, Cancelled}
      && heap[id].finishedAt.Some? && now - heap[id].finishedAt.value >= config.ttl
    }

    ghost function OverdueJobs(now: int): set<JobId>
      reads this, heap.Values
    {
      set id | id in jobs && IsOverdue(now, id)
    }

    /** sweep() when no worker stores meanwhile: it evicts exactly the overdue jobs. */
    method SweepAll(now: int) returns (removed: nat)
      requires Valid() && LockFree(View())
      modifies this`jobs
      ensures Valid()
      ensures jobs.Keys == old(jobs.Keys) - old(OverdueJobs(now))
      ensures removed == |old(OverdueJobs(now))|
    {
      var todo, expired := jobs.Keys, {};
      while todo != {}
        invariant todo <= jobs.Keys
        invariant expired == set id | id in jobs && id !in todo && IsOverdue(now, id)
      {
        var id :| id in todo;
        var job := jobs[id];
        if Terminal(job.status) && job.finishedAt.Some? && now - job.finishedAt.value >= config.ttl {
          expired := expired + {id};
        }
        todo := todo - {id};
      }
      assert expired == OverdueJobs(now);
      removed := |expired|;
      jobs := jobs - expired;
    }

    // ---- shutdown --------------------------------------------------------

    method BeginShutdown()
      requires Valid() && Enabled(config, View(), ShutLock)
      modifies this`running, this`shut
      ensures Valid() && View() == After(config, old(View()), ShutLock)
    {
      running := false;
      shut := Scanning(jobs.Keys, {});
    }

    method ReadForShutdown(id: JobId)
      requires Valid() && Enabled(config, View(), ShutRead(id))
      modifies this`shut
      ensures Valid() && View() == After(config, old(View()), ShutRead(id))
    {
      shut := Scanning(shut.todo - {id}, if Terminal(heap[id].status) then shut.found else shut.found + {id});
    }

    /** Releasing the lock after the snapshot, and leaving the cancel loop and the
        sentinel loop, only move shutdown's program counter. */
    method NextPhase()
      requires Valid()
      requires
        || Enabled(config, View(), ShutUnlock)
        || Enabled(config, View(), ShutCancelled)
        || Enabled(config, View(), Posted)
      modifies this`shut
      ensures Valid()
      ensures old(shut).Scanning? ==> View() == After(config, old(View()), ShutUnlock)
      ensures old(shut).Cancelling? ==> View() == After(config, old(View()), ShutCancelled)
      ensures old(shut).Posting? ==> View() == After(config, old(View()), Posted)
    {
      shut := match shut
        case Scanning(_, found) => Cancelling(found)
        case Cancelling(_) => Posting(threads)
        case _ => Joining;
    }

    method CancelForShutdown(id: JobId)
      requires Valid() && Enabled(config, View(), ShutCancel(id))
      modifies this`shut, heap[id]
      ensures Valid() && View() == After(config, old(View()), ShutCancel(id))
    {
      ghost var before := View();
      shut := Cancelling(shut.found - {id});
      heap[id].cancelEvent := true;
      OneWritten(id);
    }

    method PostSentinel()
      requires Valid() && Enabled(config, View(), Post)
      modifies this`queue, this`shut, this`behind
      ensures Valid() && View() == After(config, old(View()), Post)
    {
      queue := queue + [Sentinel];
      shut := Posting(shut.left - 1);
      behind := Some(inflight);
    }

    /** Every join has returned or timed out; the thread list is cleared. */
    method Join()
      requires Valid() && Enabled(config, View(), Joined)
      modifies this`threads, this`shut
      ensures Valid() && View() == After(config, old(View()), Joined)
    {
      threads := 0;
      shut := Idle;
    }

    // ---- workers ---------------------------------------------------------

    method TakeItem(w: nat) returns (item: Item)
      requires Valid() && Enabled(config, View(), Get(w))
      modifies this`queue, this`workers, heap.Values`place
      ensures Valid() && View() == After(config, old(View()), Get(w)) && item == old(queue)[0]
    {
      ghost var before := View();
      item := queue[0];
      queue := queue[1..];
      if item.Sentinel? {
        workers := workers[w := Exited];
        return;
      }
      workers := workers[w := Took(item.job)];
      heap[item.job].place := AtWorker(w);
      OneWritten(item.job);
      assert View() == DoGet(before, w);
    }

    method UncountTaken(w: nat)
      requires Valid() && Enabled(config, View(), Decrement(w))
      modifies this`pending, this`workers
      ensures Valid() && View() == After(config, old(View()), Decrement(w))
    {
      pending := pending - 1;
      workers := workers[w := Claiming(workers[w].job)];
    }

    /** _claim() up to its read of the cancel event: under the lock delete() takes, but
        not shutdown's cancel loop. */
    method ReadClaim(w: nat) returns (mine: bool)
      requires Valid() && Enabled(config, View(), Claim(w))
      modifies this`workers
      ensures Valid() && View() == After(config, old(View()), Claim(w))
      ensures mine <==> !old(heap[workers[w].job].cancelEvent)
    {
      var job := heap[workers[w].job];
      assert Table()[job.id] == job.View();
      mine := !job.cancelEvent;
      workers := workers[w := if mine then Cleared(job.id) else Ending(job.id, NotClaimed, 0)];
    }

    /** Its store of the status, and the call of the job function that follows. */
    method LaunchJob(w: nat)
      requires Valid() && Enabled(config, View(), Launch(w))
      modifies this`workers, heap.Values
      ensures Valid() && View() == After(config, old(View()), Launch(w))
    {
      ghost var before := View();
      var id := workers[w].job;
      PublishRunning(id);
      MoveWorker(w, Calling(id));
      assert View() == DoLaunch(before, w);
    }

    method PublishRunning(id: JobId)
      requires Valid() && id in heap
      modifies heap[id]
      ensures Table() == old(Table())[id := old(Table()[id]).(status := Running, runs := old(Table()[id]).runs + 1)]
    {
      heap[id].status := Running;
      heap[id].runs := heap[id].runs + 1;
      OneWritten(id);
    }

    method ReportProgress(w: nat, value: real)
      requires Valid() && Enabled(config, View(), Progress(w, value))
      modifies heap.Values`progress
      ensures Valid() && View() == After(config, old(View()), Progress(w, value))
    {
      ghost var before := View();
      var job := heap[workers[w].job];
      job.progress := value;
      OneWritten(job.id);
    }

    method LeaveFunction(w: nat, how: How)
      requires Valid() && Enabled(config, View(), Finish(w, how))
      modifies this`workers
      ensures Valid() && View() == After(config, old(View()), Finish(w, how))
    {
      workers := workers[w := Ending(workers[w].job, how, 0)];
    }

    /** The next terminal store: finished_at, then error or progress, and status last. */
    method StoreNext(w: nat, now: int)
      requires Valid() && Enabled(config, View(), Store(w, now))
      modifies this`workers, heap.Values
      ensures Valid() && View() == After(config, old(View()), Store(w, now))
    {
      ghost var before := View();
      var Ending(id, how, done) := workers[w];
      StoreField(id, how, done, now);
      assert View() == before.(table := StoredTable(before.table, id, how, done, now));
      MoveWorker(w, if done < LastStore(how) then Ending(id, how, done + 1)
                    else if how.BaseRaised? then Died else Waiting);
      StoreIsMove(before, w, now);
    }

    method MoveWorker(w: nat, pc: Pc)
      requires Valid() && w < |workers|
      modifies this`workers
      ensures Valid() && View() == Move(old(View()), w, pc)
    {
      workers := workers[w := pc];
    }

    /** The store itself. */
    method StoreField(id: JobId, how: How, done: nat, now: int)
      requires Valid() && id in heap
      modifies heap[id]
      ensures Table() == StoredTable(old(Table()), id, how, done, now)
    {
      heap[id].StoreTerminal(how, done, now);
      if done >= LastStore(how) {
        heap[id].place := Gone;
      }
      OneWritten(id);
    }

    // ---- any interleaving ------------------------------------------------

    /** The call that performs a step of start, submit, delete or shutdown. */
    method CallerStep(l: Label)
      requires Valid() && Enabled(config, View(), l)
      requires ByCaller(l)
      modifies this, heap.Values
      ensures Valid() && View() == After(config, old(View()), l) && Grown(old(heap.Values))
    {
      match l {
        case Start => Start();
        case Spawn => SpawnWorker();
        case SpawnFails => AbandonStart();
        case ShutLock => BeginShutdown();
        case ShutRead(j) => ReadForShutdown(j);
        case ShutUnlock => NextPhase();
        case ShutCancel(j) => CancelForShutdown(j);
        case ShutCancelled => NextPhase();
        case Post => PostSentinel();
        case Posted => NextPhase();
        case Joined => Join();
        case Accept(j) => var _ := Submit(j, 0);
        case Put(j) => Put(j);
        case Delete(j) => var _ := Delete(j);
      }
    }

    /** The call that performs a step of the sweep. */
    method SweepStep(l: Label)
      requires Valid() && Enabled(config, View(), l)
      requires BySweep(l)
      modifies this, heap.Values
      ensures Valid() && View() == After(config, old(View()), l) && Grown(old(heap.Values))
    {
      match l {
        case SweepLock(now) => BeginSweep(now);
        case SweepStatus(j) => ReadStatus(j);
        case SweepStamp(j) => ReadStamp(j);
        case SweepUnlock => var _ := EndSweep();
      }
    }

    /** The call that performs a step of a worker up to its call of the job function. */
    method ClaimStep(l: Label)
      requires Valid() && Enabled(config, View(), l)
      requires ByClaimer(l)
      modifies this, heap.Values
      ensures Valid() && View() == After(config, old(View()), l) && Grown(old(heap.Values))
    {
      match l {
        case Get(w) => var _ := TakeItem(w);
        case Decrement(w) => UncountTaken(w);
        case Claim(w) => var _ := ReadClaim(w);
        case Launch(w) => LaunchJob(w);
      }
    }

    /** The call that performs a step of a worker from there on. */
    method CallStep(l: Label)
      requires Valid() && Enabled(config, View(), l)
      requires l.Progress? || l.Finish? || l.Store?
      modifies this, heap.Values
      ensures Valid() && View() == After(config, old(View()), l) && Grown(old(heap.Values))
    {
      match l {
        case Progress(w, value) => ReportProgress(w, value);
        case Finish(w, how) => LeaveFunction(w, how);
        case Store(w, now) => StoreNext(w, now);
      }
    }

    /** No record was added but new ones. */
    twostate predicate Grown(before: set<JobRecord>)
      reads this`heap
    {
      forall o :: o in heap.Values ==> o in before || fresh(o)
    }

    /** Every run of the protocol is a run of these calls, in the order of its steps. */
    method Interleave(ls: seq<Label>)
      requires Valid() && Possible(config, View(), ls)
      modifies this, heap.Values
      ensures Valid() && Run(config, old(View()), ls, View())
    {
      for k := 0 to |ls|
        invariant Valid() && Grown(old(heap.Values))
        invariant Run(config, old(View()), ls[..k], View()) && Possible(config, View(), ls[k..])
      {
        JobTheorems.RunAppend(config, old(View()), ls[..k], View(), ls[k]);
        assert ls[..k] + [ls[k]] == ls[..k + 1] && ls[k..][0] == ls[k] && ls[k..][1..] == ls[k + 1..];
        if ByCaller(ls[k]) {
          CallerStep(ls[k]);
        } else if BySweep(ls[k]) {
          SweepStep(ls[k]);
        } else if ByClaimer(ls[k]) {
          ClaimStep(ls[k]);
        } else {
          CallStep(ls[k]);
        }
      }
      assert ls[..|ls|] == ls;
    }
  }

  /** From a new manager on, whatever calls are made in whatever order the protocol
      allows, the objects are in a reachable state and the invariant holds. */
  method FromStart(config: Config, ls: seq<Label>) returns (m: Manager)
    requires Possible(config, INITIAL, ls)
    ensures fresh(m) && m.config == config && m.Valid()
    ensures JobTheorems.Reachable(config, m.View()) && Inv(config, m.View())
  {
    m := new Manager(config);
    m.Interleave(ls);
    JobTheorems.ReachableInv(config, m.View());
  }
}
