/** What every interleaving of the job protocol guarantees. */
module JobTheorems {
  import opened Wrappers
  import opened Sums
  import opened JobProtocol
  import opened JobInvariant

  // ---- runs --------------------------------------------------------------

  ghost predicate Reachable(c: Config, s: State) {
    exists ls :: Run(c, INITIAL, ls, s)
  }

  lemma {:induction false} RunInv(c: Config, s: State, ls: seq<Label>, t: State)
    requires Inv(c, s) && Run(c, s, ls, t)
    ensures Inv(c, t)
    decreases |ls|
  {
    if ls != [] {
      InvKept(c, s, ls[0]);
      RunInv(c, After(c, s, ls[0]), ls[1..], t);
    }
  }

  /** The invariant holds in every reachable state. */
  lemma ReachableInv(c: Config, s: State)
    requires Reachable(c, s)
    ensures Inv(c, s)
  {
    var ls :| Run(c, INITIAL, ls, s);
    InitialInv(c);
    RunInv(c, INITIAL, ls, s);
  }

  lemma {:induction false} RunAppend(c: Config, s: State, ls: seq<Label>, t: State, l: Label)
    requires Run(c, s, ls, t) && Enabled(c, t, l)
    ensures Run(c, s, ls + [l], After(c, t, l))
    decreases |ls|
  {
    if ls == [] {
      assert Run(c, After(c, t, l), [], After(c, t, l));
      assert [l][1..] == [];
    } else {
      assert (ls + [l])[1..] == ls[1..] + [l];
      RunAppend(c, After(c, s, ls[0]), ls[1..], t, l);
    }
  }

  lemma ReachableStep(c: Config, s: State, l: Label)
    requires Reachable(c, s) && Enabled(c, s, l)
    ensures Reachable(c, After(c, s, l))
  {
    var ls :| Run(c, INITIAL, ls, s);
    RunAppend(c, INITIAL, ls, s, l);
  }

  // ---- backlog -----------------------------------------------------------

  /** The counter is the submits before their put, the queued jobs and the jobs taken
      but not yet uncounted; so it is never negative, and never above the limit. */
  lemma BacklogConserved(c: Config, s: State)
    requires Reachable(c, s)
    ensures s.pending == |s.inflight| + Sum(s.queue, WorkOne) + Sum(s.workers, TookOne)
    ensures s.pending >= 0
    ensures c.maxQueue > 0 ==> s.pending <= c.maxQueue
  {
    ReachableInv(c, s);
  }

  /** Waiting jobs, counted where they are. */
  function Unstarted(s: State): nat {
    |s.inflight| + Sum(s.queue, WorkOne) + Sum(s.workers, TookOne)
  }

  /** A running manager accepts a new job exactly when no limit is set or fewer jobs than
      the limit wait. */
  lemma AcceptedIff(c: Config, s: State, j: JobId)
    requires Reachable(c, s) && s.running && LockFree(s) && j !in s.table
    ensures Enabled(c, s, Accept(j)) <==> c.maxQueue <= 0 || Unstarted(s) < c.maxQueue
  {
    BacklogConserved(c, s);
  }

  /** What an accepted submit does to what is observed: one new job, queued, with nothing
      set, in the store and counted. */
  lemma AcceptAdds(c: Config, s: State, j: JobId)
    requires Reachable(c, s) && Enabled(c, s, Accept(j))
    ensures var t := After(c, s, Accept(j));
            && t.table.Keys == s.table.Keys + {j} && t.jobs == s.jobs + {j} && Unstarted(t) == Unstarted(s) + 1
            && t.table[j].status == Queued && t.table[j].progress == 0.0 && t.table[j].error.None?
            && t.table[j].finishedAt.None? && !t.table[j].cancel
  {
    ReachableInv(c, s);
  }

  // ---- what is enabled ---------------------------------------------------

  /** Nobody is in the sweep, in shutdown's snapshot or in the middle of a claim. */
  predicate Unlocked(s: State) {
    s.sweep.Off? && !s.shut.Scanning? && forall w :: 0 <= w < |s.workers| ==> !s.workers[w].Cleared?
  }

  /** What each step waits for, as its thread sees it. */
  predicate Available(c: Config, s: State, l: Label) {
    match l
    case Start => !s.running && s.shut.Idle?
    case Spawn => s.starting > 0
    case SpawnFails => s.starting > 0
    case ShutLock => s.shut.Idle? && s.starting == 0 && Unlocked(s)
    case ShutRead(j) => s.shut.Scanning? && j in s.shut.todo
    case ShutUnlock => s.shut.Scanning? && s.shut.todo == {}
    case ShutCancel(j) => s.shut.Cancelling? && j in s.shut.found
    case ShutCancelled => s.shut.Cancelling? && s.shut.found == {}
    case Post => s.shut.Posting? && s.shut.left > 0
    case Posted => s.shut == Posting(0)
    case Joined => s.shut.Joining?
    case Accept(j) => Unlocked(s) && s.running && j !in s.table && (c.maxQueue <= 0 || Unstarted(s) < c.maxQueue)
    case Put(j) => j in s.inflight
    case Delete(j) => Unlocked(s) && j in s.jobs
    case SweepLock(_) => Unlocked(s)
    case SweepStatus(j) => s.sweep.Sweeping? && j in s.sweep.todo
    case SweepStamp(j) => s.sweep.Sweeping? && j in s.sweep.seen
    case SweepUnlock => s.sweep.Sweeping? && s.sweep.todo == {} && s.sweep.seen == {}
    case Get(w) => w < |s.workers| && s.workers[w].Waiting? && s.queue != []
    case Decrement(w) => w < |s.workers| && s.workers[w].Took? && Unlocked(s)
    case Claim(w) => w < |s.workers| && s.workers[w].Claiming? && Unlocked(s)
    case Launch(w) => w < |s.workers| && s.workers[w].Cleared?
    case Progress(w, _) => w < |s.workers| && s.workers[w].Calling?
    case Finish(w, how) => w < |s.workers| && s.workers[w].Calling? && !how.NotClaimed?
    case Store(w, _) => w < |s.workers| && s.workers[w].Ending?
  }

  lemma WorkerEnabledIff(c: Config, s: State, l: Label)
    requires Placed(s) && (l.Get? || Holds(l))
    ensures Enabled(c, s, l) <==> Available(c, s, l)
  {
    if l.Get? && s.queue != [] && s.queue[0].Work? {
      assert s.queue[0].job in s.table;
    }
    if (l.Claim? || l.Launch? || l.Progress? || l.Store?) && l.w < |s.workers| && JobOf(s.workers[l.w]).Some? {
      assert JobOf(s.workers[l.w]).value in s.table;
    }
  }

  lemma CallerEnabledIff(c: Config, s: State, l: Label)
    requires Placed(s) && Phases(s) && Backlog(c, s) && !l.Get? && !Holds(l)
    ensures Enabled(c, s, l) <==> Available(c, s, l)
  {
    if l.Put? && l.j in s.inflight {
      assert l.j in s.table;
    }
  }

  /** No thread waits for anything else: in a reachable state each step is enabled exactly
      when its thread is there and, if it takes the lock, the lock is free. */
  lemma EnabledIff(c: Config, s: State, l: Label)
    requires Reachable(c, s)
    ensures Enabled(c, s, l) <==> Available(c, s, l)
  {
    ReachableInv(c, s);
    if l.Get? || Holds(l) {
      WorkerEnabledIff(c, s, l);
    } else {
      CallerEnabledIff(c, s, l);
    }
  }

  // ---- one job's life ----------------------------------------------------

  predicate Edge(a: Status, b: Status) {
    a == b || (a == Queued && (b == Running || b == Cancelled)) || (a == Running && Terminal(b))
  }

  lemma WorkerEdge(c: Config, s: State, l: Label, j: JobId)
    requires Placed(s) && Enabled(c, s, l) && j in s.table && Writes(s, l) == Some(j)
    requires l.Claim? || l.Launch? || l.Progress? || l.Store?
    ensures j in After(c, s, l).table && Edge(s.table[j].status, After(c, s, l).table[j].status)
  {
    assert JobOf(s.workers[l.w]) == Some(j);
    assert Sound(s, j, s.table[j]);
  }

  /** Between any two consecutive stores the observed status moves along one edge. */
  lemma StatusStep(c: Config, s: State, l: Label, j: JobId)
    requires Reachable(c, s) && Enabled(c, s, l) && j in s.table
    ensures j in After(c, s, l).table
    ensures Edge(s.table[j].status, After(c, s, l).table[j].status)
  {
    ReachableInv(c, s);
    if Writes(s, l) != Some(j) {
      WritesOnly(c, s, l, j);
    } else if l.Claim? || l.Launch? || l.Progress? || l.Store? {
      WorkerEdge(c, s, l, j);
    } else {
      QueueForward(c, s, l, j);
    }
  }

  /** In every state between individual stores, a terminal job carries all its fields. */
  lemma TerminalIsComplete(c: Config, s: State, j: JobId)
    requires Reachable(c, s) && j in s.table && Terminal(s.table[j].status)
    ensures s.table[j].finishedAt.Some?
    ensures s.table[j].status == Failed ==> s.table[j].error.Some?
    ensures s.table[j].status == Completed ==> s.table[j].progress == 100.0 && s.table[j].error.None?
    ensures s.table[j].status == Cancelled && s.table[j].runs == 0 ==> s.table[j].cancel
  {
    ReachableInv(c, s);
    assert Sound(s, j, s.table[j]);
  }

  /** The record after the first `n` terminal stores, the k-th made at `times(k)`. */
  function StoredUpTo(job: Job, how: How, n: nat, times: nat -> int): Job {
    if n == 0 then job else Stored(StoredUpTo(job, how, n - 1, times), how, n - 1, times(n - 1))
  }

  /** Made one after the other, the stores publish the terminal status last and nothing
      is missing by then; before that the job looks as unfinished as it was. */
  lemma StoresInOrder(job: Job, how: How, n: nat, times: nat -> int)
    requires n <= LastStore(how) + 1
    ensures var after := StoredUpTo(job, how, n, times);
            && after.status == (if n <= LastStore(how) then job.status else FinalStatus(how))
            && (n > 0 ==> after.finishedAt == Some(times(0)))
            && (n > LastStore(how) && how.Returned? ==> after.progress == 100.0)
            && (n > LastStore(how) && (how.ExceptionRaised? || how.BaseRaised?) ==> after.error == Some(how.text))
  {
    if n > 0 {
      StoresInOrder(job, how, n - 1, times);
      if n > 1 {
        StoresInOrder(job, how, n - 2, times);
      }
    }
  }

  lemma {:induction false} RunForward(c: Config, s: State, ls: seq<Label>, t: State, j: JobId)
    requires Inv(c, s) && Run(c, s, ls, t) && j in s.table
    ensures j in t.table && Forward(s.table[j], t.table[j])
    decreases |ls|
  {
    if ls != [] {
      var u := After(c, s, ls[0]);
      InvKept(c, s, ls[0]);
      ForwardKept(c, s, ls[0], j);
      RunForward(c, u, ls[1..], t, j);
    }
  }

  /** A terminal status is permanent: no later interleaving changes the record again. */
  lemma TerminalIsPermanent(c: Config, s: State, ls: seq<Label>, t: State, j: JobId)
    requires Reachable(c, s) && Run(c, s, ls, t) && j in s.table && Terminal(s.table[j].status)
    ensures j in t.table && t.table[j].(cancel := true) == s.table[j].(cancel := true)
  {
    ReachableInv(c, s);
    RunForward(c, s, ls, t, j);
  }

  /** A job function is entered at most once. */
  lemma AtMostOnce(c: Config, s: State, j: JobId)
    requires Reachable(c, s) && j in s.table
    ensures s.table[j].runs <= 1
    ensures s.table[j].status == Queued ==> s.table[j].runs == 0
    ensures s.table[j].status in {Running, Completed, Failed} ==> s.table[j].runs == 1
  {
    ReachableInv(c, s);
    assert Sound(s, j, s.table[j]);
  }

  /** A worker has read the job's cancel event clear and has yet to start the job. */
  predicate Launching(s: State, j: JobId) {
    Cleared(j) in s.workers
  }

  /** A claim that meets a set cancel event does not go on. */
  lemma NotLaunchingKept(c: Config, s: State, l: Label, j: JobId)
    requires Enabled(c, s, l) && !Launching(s, j) && j in s.table && s.table[j].cancel
    ensures !Launching(After(c, s, l), j)
  {
    var t := After(c, s, l);
    if Launching(t, j) {
      var w :| 0 <= w < |t.workers| && t.workers[w] == Cleared(j);
      OnlyClaimClears(c, s, l, w);
    }
  }

  lemma CancelledStep(c: Config, s: State, l: Label, j: JobId)
    requires Inv(c, s) && Enabled(c, s, l)
    requires j in s.table && s.table[j].cancel && s.table[j].runs == 0 && !Launching(s, j)
    ensures var t := After(c, s, l);
            j in t.table && t.table[j].cancel && t.table[j].runs == 0 && !Launching(t, j)
  {
    ForwardKept(c, s, l, j);
    NotLaunchingKept(c, s, l, j);
    if Writes(s, l) != Some(j) {
      WritesOnly(c, s, l, j);
    } else if l.Claim? || l.Launch? || l.Progress? || l.Store? {
      assert JobOf(s.workers[l.w]) == Some(j);
      assert Sound(s, j, s.table[j]);
    }
  }

  lemma {:induction false} CancelledRun(c: Config, s: State, ls: seq<Label>, t: State, j: JobId)
    requires Inv(c, s) && Run(c, s, ls, t)
    requires j in s.table && s.table[j].cancel && s.table[j].runs == 0 && !Launching(s, j)
    ensures j in t.table && t.table[j].runs == 0 && t.table[j].status in {Queued, Cancelled}
    decreases |ls|
  {
    if ls == [] {
      assert Sound(s, j, s.table[j]);
    } else {
      InvKept(c, s, ls[0]);
      CancelledStep(c, s, ls[0], j);
      CancelledRun(c, After(c, s, ls[0]), ls[1..], t, j);
    }
  }

  /** A queued job whose cancel event is set, and whose claim has not already read it
      clear, is never run by any later interleaving, restarts included. */
  lemma CancelledIsNeverRun(c: Config, s: State, ls: seq<Label>, t: State, j: JobId)
    requires Reachable(c, s) && Run(c, s, ls, t)
    requires j in s.table && s.table[j].cancel && s.table[j].status == Queued && !Launching(s, j)
    ensures j in t.table && t.table[j].runs == 0 && t.table[j].status in {Queued, Cancelled}
  {
    ReachableInv(c, s);
    assert Sound(s, j, s.table[j]);
    CancelledRun(c, s, ls, t, j);
  }

  /** A job whose function has been called more often in some continuation that calls no start(). */
  ghost predicate CanStart(c: Config, s: State, j: JobId)
    requires j in s.table
  {
    exists ls, t :: Run(c, s, ls, t) && Start !in ls && j in t.table && t.table[j].runs > s.table[j].runs
  }

  /** A worker inside its claim can always finish it. */
  lemma LaunchingCanStart(c: Config, s: State, j: JobId)
    requires Reachable(c, s) && j in s.table && Launching(s, j)
    ensures CanStart(c, s, j)
  {
    var w :| 0 <= w < |s.workers| && s.workers[w] == Cleared(j);
    var t := After(c, s, Launch(w));
    assert Run(c, t, [Launch(w)][1..], t);
    assert Run(c, s, [Launch(w)], t) && t.table[j].runs > s.table[j].runs;
  }

  /** A queued job whose cancel event is set can still be run exactly when a worker is
      between the two accesses of its claim. */
  lemma CancelledCanStartIff(c: Config, s: State, j: JobId)
    requires Reachable(c, s) && j in s.table && s.table[j].cancel && s.table[j].status == Queued
    ensures CanStart(c, s, j) <==> Launching(s, j)
  {
    if Launching(s, j) {
      LaunchingCanStart(c, s, j);
    } else if CanStart(c, s, j) {
      var ls, t :| Run(c, s, ls, t) && Start !in ls && j in t.table && t.table[j].runs > s.table[j].runs;
      CancelledIsNeverRun(c, s, ls, t, j);
      assert false;
    }
  }

  /** The lock admits one worker to that place at a time. */
  lemma OneLaunching(c: Config, s: State, i: JobId, j: JobId)
    requires Reachable(c, s) && Launching(s, i) && Launching(s, j)
    ensures i == j
  {
    ReachableInv(c, s);
    var v :| 0 <= v < |s.workers| && s.workers[v] == Cleared(i);
    var w :| 0 <= w < |s.workers| && s.workers[w] == Cleared(j);
  }

  /** A job deleted while queued leaves the store for good and is never started: delete
      takes the lock, so no claim is in its middle. */
  lemma DeletedIsNeverRun(c: Config, s: State, ls: seq<Label>, t: State, j: JobId)
    requires Reachable(c, s) && Enabled(c, s, Delete(j)) && Run(c, After(c, s, Delete(j)), ls, t)
    requires s.table[j].status == Queued
    ensures j !in After(c, s, Delete(j)).jobs
    ensures j in t.table && t.table[j].runs == 0 && t.table[j].status in {Queued, Cancelled}
  {
    ReachableStep(c, s, Delete(j));
    if Launching(After(c, s, Delete(j)), j) {
      assert false;
    }
    CancelledIsNeverRun(c, After(c, s, Delete(j)), ls, t, j);
  }

  /** Job `j` is being ended, or has ended, the way `how` says. */
  predicate EndsAs(s: State, j: JobId, how: How)
    requires j in s.table
  {
    var job := s.table[j];
    match job.place
    case AtWorker(w) =>
      && w < |s.workers| && s.workers[w].Ending? && s.workers[w].job == j && s.workers[w].how == how
      && (s.workers[w].done > 1 ==> TellsText(job, how))
    case Gone => job.status == FinalStatus(how) && TellsText(job, how)
    case _ => false
  }

  predicate TellsText(job: Job, how: How) {
    how.ExceptionRaised? || how.BaseRaised? ==> job.error == Some(how.text)
  }

  lemma StoreEndsAs(c: Config, s: State, l: Label, j: JobId, how: How)
    requires Inv(c, s) && Enabled(c, s, l) && j in s.table && EndsAs(s, j, how) && !how.NotClaimed?
    requires l.Store? && s.workers[l.w].job == j
    ensures EndsAs(After(c, s, l), j, how)
  {
    assert JobOf(s.workers[l.w]) == Some(j);
    assert Sound(s, j, s.table[j]);
  }

  /** A job being ended or over is written by nobody but its holder's stores, a delete and
      shutdown. */
  lemma EndingIsNotWritten(c: Config, s: State, l: Label, j: JobId, how: How)
    requires Inv(c, s) && Enabled(c, s, l) && j in s.table && EndsAs(s, j, how)
    requires l.Store? || l.Finish? ==> s.workers[l.w].job != j
    requires Writes(s, l) == Some(j)
    ensures l == Delete(j) || l == ShutCancel(j)
  {
    assert Sound(s, j, s.table[j]);
  }

  lemma WorkerStays(c: Config, s: State, l: Label, j: JobId, how: How)
    requires Enabled(c, s, l) && j in s.table && EndsAs(s, j, how) && s.table[j].place.AtWorker?
    requires l.Store? || l.Finish? ==> s.workers[l.w].job != j
    ensures var w := s.table[j].place.w;
            w < |After(c, s, l).workers| && After(c, s, l).workers[w] == s.workers[w]
  {
  }

  lemma OtherEndsAs(c: Config, s: State, l: Label, j: JobId, how: How)
    requires Inv(c, s) && Enabled(c, s, l) && j in s.table && EndsAs(s, j, how) && !how.NotClaimed?
    requires l.Store? || l.Finish? ==> s.workers[l.w].job != j
    ensures j in After(c, s, l).table && EndsAs(After(c, s, l), j, how)
  {
    if Writes(s, l) != Some(j) {
      WritesOnly(c, s, l, j);
      if s.table[j].place.AtWorker? {
        WorkerStays(c, s, l, j, how);
      }
    } else {
      EndingIsNotWritten(c, s, l, j, how);
    }
  }

  lemma EndsAsStep(c: Config, s: State, l: Label, j: JobId, how: How)
    requires Inv(c, s) && Enabled(c, s, l) && j in s.table && EndsAs(s, j, how) && !how.NotClaimed?
    ensures j in After(c, s, l).table && EndsAs(After(c, s, l), j, how)
  {
    ForwardKept(c, s, l, j);
    assert Sound(s, j, s.table[j]);
    if l.Store? && s.workers[l.w].job == j {
      StoreEndsAs(c, s, l, j, how);
    } else if l.Finish? && s.workers[l.w].job == j {
      assert JobOf(s.workers[l.w]) == Some(j);
    } else {
      OtherEndsAs(c, s, l, j, how);
    }
  }

  lemma {:induction false} EndsAsRun(c: Config, s: State, ls: seq<Label>, t: State, j: JobId, how: How)
    requires Inv(c, s) && Run(c, s, ls, t) && j in s.table && EndsAs(s, j, how) && !how.NotClaimed?
    ensures j in t.table && EndsAs(t, j, how)
    decreases |ls|
  {
    if ls != [] {
      InvKept(c, s, ls[0]);
      EndsAsStep(c, s, ls[0], j, how);
      EndsAsRun(c, After(c, s, ls[0]), ls[1..], t, j, how);
    }
  }

  /** However its function ended, and whatever happens meanwhile, that is what the record
      says once the job is terminal: the status, and the text of the exception. */
  lemma EndsAsFinished(c: Config, s: State, w: nat, how: How, ls: seq<Label>, t: State)
    requires Reachable(c, s) && Enabled(c, s, Finish(w, how)) && Run(c, After(c, s, Finish(w, how)), ls, t)
    ensures var j := s.workers[w].job;
            && j in t.table
            && (Terminal(t.table[j].status) ==>
                  && t.table[j].status == (match how
                                           case Returned => Completed
                                           case CancelRaised => Cancelled
                                           case _ => Failed)
                  && (how.ExceptionRaised? || how.BaseRaised? ==> t.table[j].error == Some(how.text)))
  {
    var j := s.workers[w].job;
    ReachableInv(c, s);
    assert JobOf(s.workers[w]) == Some(j);
    assert Sound(s, j, s.table[j]);
    InvKept(c, s, Finish(w, how));
    EndsAsRun(c, After(c, s, Finish(w, how)), ls, t, j, how);
    RunInv(c, After(c, s, Finish(w, how)), ls, t);
    if Terminal(t.table[j].status) {
      TerminalIsSettled(c, t, j);
    }
  }

  // ---- owners ------------------------------------------------------------

  /** No two workers hold the same job. */
  lemma SingleOwner(c: Config, s: State, v: nat, w: nat)
    requires Reachable(c, s) && v < |s.workers| && w < |s.workers|
    requires JobOf(s.workers[v]).Some? && JobOf(s.workers[v]) == JobOf(s.workers[w])
    ensures v == w
  {
    ReachableInv(c, s);
  }

  function Held(ws: seq<Pc>): set<JobId> {
    if ws == [] then {}
    else Held(ws[1..]) + if JobOf(ws[0]).Some? then {JobOf(ws[0]).value} else {}
  }

  lemma HeldBound(ws: seq<Pc>)
    ensures |Held(ws)| <= Sum(ws, LiveOne)
  {
    if ws != [] {
      HeldBound(ws[1..]);
      if JobOf(ws[0]).Some? {
        var one := {JobOf(ws[0]).value};
        assert |Held(ws[1..]) + one| <= |Held(ws[1..])| + |one|;
      }
    }
  }

  lemma HeldBy(ws: seq<Pc>, w: nat)
    requires w < |ws| && JobOf(ws[w]).Some?
    ensures JobOf(ws[w]).value in Held(ws)
  {
    if w > 0 {
      HeldBy(ws[1..], w - 1);
    }
  }

  function RunningJobs(s: State): set<JobId> {
    set j | j in s.table && s.table[j].status == Running
  }

  lemma SubsetSize(a: set<JobId>, b: set<JobId>)
    requires a <= b
    ensures |a| <= |b|
  {
    if a != {} {
      var x :| x in a;
      SubsetSize(a - {x}, b - {x});
    }
  }

  /** Running jobs never outnumber the live worker threads. */
  lemma RunningBound(c: Config, s: State)
    requires Reachable(c, s)
    ensures |RunningJobs(s)| <= LiveWorkers(s)
  {
    ReachableInv(c, s);
    forall j | j in RunningJobs(s) ensures j in Held(s.workers) {
      assert Sound(s, j, s.table[j]);
      HeldBy(s.workers, s.table[j].place.w);
    }
    HeldBound(s.workers);
    SubsetSize(RunningJobs(s), Held(s.workers));
  }

  // ---- the store ---------------------------------------------------------

  /** A job enters the store only by its submit, and leaves it only by its own delete or
      with a sweep that has it on its list. */
  lemma StoreChanges(c: Config, s: State, l: Label, j: JobId)
    requires Enabled(c, s, l)
    ensures j !in s.jobs ==> (j in After(c, s, l).jobs <==> l == Accept(j))
    ensures j in s.jobs ==>
              (j !in After(c, s, l).jobs <==> l == Delete(j) || (l.SweepUnlock? && j in s.sweep.expired))
  {
  }

  /** Progress is the value the job function stores, and only that field changes. */
  lemma ProgressIsStored(c: Config, s: State, w: nat, value: real)
    requires Reachable(c, s) && Enabled(c, s, Progress(w, value))
    ensures var j := s.workers[w].job; var t := After(c, s, Progress(w, value));
            t == s.(table := s.table[j := s.table[j].(progress := value)])
  {
  }

  // ---- sweep -------------------------------------------------------------

  /** The sweep removes finished jobs past the TTL and nothing else. */
  lemma SweepRemovesOnlyOverdue(c: Config, s: State, j: JobId)
    requires Reachable(c, s) && Enabled(c, s, SweepUnlock)
    requires j in s.jobs && j !in After(c, s, SweepUnlock).jobs
    ensures j in s.table && Terminal(s.table[j].status)
    ensures s.table[j].finishedAt.Some? && s.sweep.now - s.table[j].finishedAt.value >= c.ttl
  {
    ReachableInv(c, s);
  }

  predicate SweepHas(s: State, j: JobId) {
    s.sweep.Sweeping? && (j in s.sweep.todo || j in s.sweep.seen || j in s.sweep.expired)
  }

  lemma SweepHasKept(c: Config, s: State, l: Label, j: JobId, now: int)
    requires Inv(c, s) && Enabled(c, s, l) && !l.SweepUnlock?
    requires SweepHas(s, j) && s.sweep.now == now
    requires j in s.table && Terminal(s.table[j].status) && Overdue(c, now, s.table[j])
    ensures var t := After(c, s, l);
            SweepHas(t, j) && t.sweep.now == now
            && j in t.table && Terminal(t.table[j].status) && Overdue(c, now, t.table[j])
  {
    ForwardKept(c, s, l, j);
    if !l.SweepStatus? && !l.SweepStamp? {
      assert After(c, s, l).sweep == s.sweep;
    }
  }

  lemma {:induction false} SweepKeepsTrack(c: Config, s: State, ls: seq<Label>, t: State, j: JobId, now: int)
    requires Inv(c, s) && Run(c, s, ls, t) && SweepUnlock !in ls
    requires SweepHas(s, j) && s.sweep.now == now
    requires j in s.table && Terminal(s.table[j].status) && Overdue(c, now, s.table[j])
    ensures SweepHas(t, j)
    decreases |ls|
  {
    if ls != [] {
      InvKept(c, s, ls[0]);
      SweepHasKept(c, s, ls[0], j, now);
      SweepKeepsTrack(c, After(c, s, ls[0]), ls[1..], t, j, now);
    }
  }

  /** Whatever the workers store meanwhile, a job that was finished and past the TTL
      when the sweep took the lock is gone when it releases it. */
  lemma SweepRemovesAllOverdue(c: Config, s: State, now: int, ls: seq<Label>, t: State, j: JobId)
    requires Reachable(c, s) && Enabled(c, s, SweepLock(now))
    requires Run(c, After(c, s, SweepLock(now)), ls, t) && SweepUnlock !in ls && Enabled(c, t, SweepUnlock)
    requires j in s.jobs && j in s.table && s.table[j].status in {Completed, Failed, Cancelled}
    requires s.table[j].finishedAt.Some? && now - s.table[j].finishedAt.value >= c.ttl
    ensures j !in After(c, t, SweepUnlock).jobs
  {
    ReachableStep(c, s, SweepLock(now));
    ReachableInv(c, s);
    ReachableInv(c, After(c, s, SweepLock(now)));
    SweepKeepsTrack(c, After(c, s, SweepLock(now)), ls, t, j, now);
  }

  // ---- shutdown ----------------------------------------------------------

  /** Accepted, unfinished jobs are in the store or told to stop, at every moment. */
  lemma NoWindow(c: Config, s: State, j: JobId)
    requires Reachable(c, s) && j in s.table && !Terminal(s.table[j].status)
    ensures j in s.jobs || s.table[j].cancel
  {
    ReachableInv(c, s);
  }

  /** The manager is stopped and shutdown is past its cancel loop. */
  predicate Stopped(s: State) {
    !s.running && !s.shut.Scanning? && !s.shut.Cancelling?
  }

  /** Once shutdown's cancel loop is over, every accepted unfinished job is told to stop. */
  lemma ShutdownCoversAll(c: Config, s: State, j: JobId)
    requires Reachable(c, s) && Stopped(s)
    requires j in s.table && !Terminal(s.table[j].status)
    ensures s.table[j].cancel
  {
    ReachableInv(c, s);
  }

  predicate AllTold(s: State) {
    !s.running && forall j :: j in s.table && !Terminal(s.table[j].status) ==> s.table[j].cancel
  }

  lemma ToldKept(c: Config, s: State, l: Label)
    requires Inv(c, s) && AllTold(s) && Enabled(c, s, l) && !l.Start?
    ensures AllTold(After(c, s, l))
  {
    var t := After(c, s, l);
    forall i | i in t.table && !Terminal(t.table[i].status) ensures t.table[i].cancel {
      if i !in s.table {
        NewEntry(c, s, l, i);
      } else {
        ForwardKept(c, s, l, i);
      }
    }
  }

  lemma OnlyLaunchStarts(c: Config, s: State, l: Label, j: JobId)
    requires Placed(s) && Enabled(c, s, l) && j in s.table && !Launching(s, j)
    ensures j in After(c, s, l).table && After(c, s, l).table[j].runs == s.table[j].runs
    ensures After(c, s, l).table[j].status == Running ==> s.table[j].status == Running
  {
    assert Sound(s, j, s.table[j]);
    if Writes(s, l) != Some(j) {
      WritesOnly(c, s, l, j);
    } else if l.Claim? || l.Launch? || l.Progress? || l.Store? {
      assert JobOf(s.workers[l.w]) == Some(j);
    } else {
      QueueForward(c, s, l, j);
    }
  }

  /** A terminal job is at no worker, so no claim can reach it. */
  lemma TerminalStaysPut(c: Config, s: State, l: Label, j: JobId)
    requires Inv(c, s) && Enabled(c, s, l) && j in s.table && Terminal(s.table[j].status)
    ensures !Launching(After(c, s, l), j)
  {
    TerminalIsSettled(c, s, j);
    var t := After(c, s, l);
    if Launching(t, j) {
      var w :| 0 <= w < |t.workers| && t.workers[w] == Cleared(j);
      OnlyClaimClears(c, s, l, w);
      assert false;
    }
  }

  lemma ToldStep(c: Config, s: State, l: Label, j: JobId)
    requires Inv(c, s) && AllTold(s) && Enabled(c, s, l) && j in s.table && !Launching(s, j)
    ensures After(c, s, l).table[j].runs == s.table[j].runs
    ensures After(c, s, l).table[j].status == Running ==> s.table[j].status == Running
    ensures !Launching(After(c, s, l), j)
  {
    if s.table[j].cancel {
      NotLaunchingKept(c, s, l, j);
    } else {
      TerminalStaysPut(c, s, l, j);
    }
    OnlyLaunchStarts(c, s, l, j);
  }

  lemma {:induction false} NoNewJob(c: Config, s: State, ls: seq<Label>, t: State, j: JobId)
    requires !s.running && Run(c, s, ls, t) && Start !in ls && j in t.table
    ensures j in s.table
    decreases |ls|
  {
    if ls != [] {
      NoNewJob(c, After(c, s, ls[0]), ls[1..], t, j);
      if j !in s.table {
        NewEntry(c, s, ls[0], j);
        assert false;
      }
    }
  }

  lemma {:induction false} NothingStarts(c: Config, s: State, ls: seq<Label>, t: State, j: JobId)
    requires Inv(c, s) && AllTold(s) && Run(c, s, ls, t) && Start !in ls && j in t.table && !Launching(s, j)
    ensures j in s.table && t.table[j].runs == s.table[j].runs
    ensures t.table[j].status == Running ==> s.table[j].status == Running
    decreases |ls|
  {
    if ls != [] {
      InvKept(c, s, ls[0]);
      ToldKept(c, s, ls[0]);
      NoNewJob(c, After(c, s, ls[0]), ls[1..], t, j);
      if j !in s.table {
        NewEntry(c, s, ls[0], j);
        assert false;
      }
      ToldStep(c, s, ls[0], j);
      NothingStarts(c, After(c, s, ls[0]), ls[1..], t, j);
    }
  }

  /** After the cancel loop no job starts before the next start(), except the one, if
      any, whose worker had already read its cancel event clear. */
  lemma NothingStartsAfterShutdown(c: Config, s: State, ls: seq<Label>, t: State, j: JobId)
    requires Reachable(c, s) && Stopped(s) && Run(c, s, ls, t) && Start !in ls && j in t.table
    requires !Launching(s, j)
    ensures j in s.table && t.table[j].runs == s.table[j].runs
    ensures t.table[j].status == Running ==> s.table[j].status == Running
  {
    ReachableInv(c, s);
    NothingStarts(c, s, ls, t, j);
  }

  /** Exactly which jobs can still start once the cancel loop is over: the one whose
      worker is between the two accesses of its claim, so at most one. */
  lemma StartsAfterShutdownIff(c: Config, s: State, j: JobId)
    requires Reachable(c, s) && Stopped(s) && j in s.table
    ensures CanStart(c, s, j) <==> Launching(s, j)
    ensures forall i :: i in s.table && CanStart(c, s, i) && CanStart(c, s, j) ==> i == j
  {
    forall i | i in s.table ensures CanStart(c, s, i) <==> Launching(s, i) {
      if Launching(s, i) {
        LaunchingCanStart(c, s, i);
      } else if CanStart(c, s, i) {
        var ls, t :| Run(c, s, ls, t) && Start !in ls && i in t.table && t.table[i].runs > s.table[i].runs;
        NothingStartsAfterShutdown(c, s, ls, t, i);
        assert false;
      }
    }
    forall i | i in s.table && CanStart(c, s, i) && CanStart(c, s, j) ensures i == j {
      OneLaunching(c, s, i, j);
    }
  }

  /** The cancel event of `j` is set only by its delete or by shutdown. */
  lemma OnlyTheseTell(c: Config, s: State, l: Label, j: JobId)
    requires Reachable(c, s) && Enabled(c, s, l) && j in s.table && !s.table[j].cancel
    ensures j in After(c, s, l).table
    ensures After(c, s, l).table[j].cancel <==> l == Delete(j) || l == ShutCancel(j)
  {
    ReachableInv(c, s);
    ForwardKept(c, s, l, j);
    if Writes(s, l) != Some(j) {
      WritesOnly(c, s, l, j);
    } else if l.Claim? || l.Launch? || l.Progress? || l.Store? {
      assert JobOf(s.workers[l.w]) == Some(j);
    }
  }

  /** Shutdown is about to tell `j`. */
  predicate OnList(s: State, j: JobId) {
    (s.shut.Scanning? || s.shut.Cancelling?) && j in s.shut.found
  }

  lemma {:induction false} FinishedIsLeftAlone(c: Config, s: State, ls: seq<Label>, t: State, j: JobId)
    requires Reachable(c, s) && Run(c, s, ls, t) && Delete(j) !in ls
    requires j in s.table && Terminal(s.table[j].status) && !s.table[j].cancel && !OnList(s, j)
    ensures j in t.table && !t.table[j].cancel && !OnList(t, j)
    decreases |ls|
  {
    if ls != [] {
      var u := After(c, s, ls[0]);
      ReachableInv(c, s);
      ForwardKept(c, s, ls[0], j);
      OnlyTheseTell(c, s, ls[0], j);
      ReachableStep(c, s, ls[0]);
      FinishedIsLeftAlone(c, u, ls[1..], t, j);
    }
  }

  /** A job that is finished before shutdown looks at it is never told to stop by it. */
  lemma ShutdownSparesFinished(c: Config, s: State, ls: seq<Label>, t: State, j: JobId)
    requires Reachable(c, s) && Enabled(c, s, ShutLock) && Run(c, s, ls, t) && Delete(j) !in ls
    requires j in s.table && Terminal(s.table[j].status) && !s.table[j].cancel
    ensures j in t.table && !t.table[j].cancel
  {
    FinishedIsLeftAlone(c, s, ls, t, j);
  }

  // ---- the worker pool ---------------------------------------------------

  /** Sentinels are conserved over every run, restarts and dead workers included. */
  lemma SentinelsConserved(c: Config, s: State)
    requires Reachable(c, s)
    ensures Sentinels(s) + Credit(s) == LiveWorkers(s) + DeadWorkers(s)
  {
    ReachableInv(c, s);
  }

  /** While the manager runs and no stale sentinel is queued, the pool has lost exactly
      the workers that died, from whatever start() they came; so it is empty exactly
      when as many died as the last start() created, none if it could create none. */
  lemma PoolIsEmptyIff(c: Config, s: State)
    requires Reachable(c, s) && s.running && s.shut.Idle? && Sentinels(s) == 0
    ensures LiveWorkers(s) + DeadWorkers(s) == s.threads
    ensures LiveWorkers(s) == 0 <==> DeadWorkers(s) == s.threads
  {
    ReachableInv(c, s);
  }

  /** Fewer deaths than threads: some worker is live in every such state. */
  lemma PoolSurvives(c: Config, s: State)
    requires Reachable(c, s) && s.running && s.shut.Idle? && DeadWorkers(s) < s.threads
    ensures LiveWorkers(s) > 0
  {
    ReachableInv(c, s);
  }

  /** The steps that leave the thread list and the threads to come as they are, or move one
      from these to that. */
  predicate Spawning(l: Label) {
    !l.Start? && !l.SpawnFails? && !l.ShutLock?
  }

  lemma {:induction false} ThreadsAdd(c: Config, s: State, ls: seq<Label>, t: State)
    requires Reachable(c, s) && s.shut.Idle? && Run(c, s, ls, t)
    requires forall l :: l in ls ==> Spawning(l)
    ensures t.threads + t.starting == s.threads + s.starting && t.shut.Idle?
    decreases |ls|
  {
    if ls != [] {
      assert ls[0] in ls;
      ReachableStep(c, s, ls[0]);
      ThreadsAdd(c, After(c, s, ls[0]), ls[1..], t);
    }
  }

  /** start() creates as many workers as configured, and one if fewer than one is. */
  lemma StartCreatesWorkers(c: Config, s: State, ls: seq<Label>, t: State)
    requires Reachable(c, s) && Enabled(c, s, Start) && Run(c, After(c, s, Start), ls, t)
    requires (forall l :: l in ls ==> Spawning(l)) && t.starting == 0
    ensures t.threads == if c.workers >= 1 then c.workers else 1
  {
    ReachableInv(c, s);
    ReachableStep(c, s, Start);
    ThreadsAdd(c, After(c, s, Start), ls, t);
  }

  // ---- drain -------------------------------------------------------------

  /** Every sentinel is put, and start() has not been called again. */
  predicate Draining(s: State) {
    !s.running && Credit(s) == 0
  }

  /** A worker waiting for an item always has a sentinel to come. */
  lemma NoWorkerWaitsForever(c: Config, s: State, w: nat)
    requires Reachable(c, s) && Draining(s) && w < |s.workers| && s.workers[w].Waiting?
    ensures Sentinel in s.queue
    ensures Enabled(c, s, Get(w))
  {
    ReachableInv(c, s);
    SumAtLeast(s.workers, w, LiveOne);
    var k := SumWitness(s.queue, SentinelOne);
    assert s.queue[k] == Sentinel;
    if s.queue[0].Work? {
      assert s.queue[0].job in s.table;
    }
  }

  /** The steps that make the drain progress: puts in flight and worker steps. */
  predicate Drains(l: Label) {
    l.Put? || l.Get? || l.Decrement? || l.Claim? || l.Launch? || l.Finish? || l.Store?
  }

  function PcWeight(pc: Pc): nat {
    match pc
    case Waiting => 1
    case Took(_) => 11
    case Claiming(_) => 10
    case Cleared(_) => 9
    case Calling(_) => 8
    case Ending(_, _, done) => if done == 0 then 6 else if done == 1 then 5 else 4
    case _ => 0
  }

  function Remaining(s: State): nat {
    13 * |s.inflight| + 12 * |s.queue| + Sum(s.workers, PcWeight)
  }

  lemma WorkerWeighs(s: State, t: State, w: nat)
    requires w < |s.workers| == |t.workers| && t.workers == s.workers[w := t.workers[w]]
    ensures Sum(t.workers, PcWeight) + PcWeight(s.workers[w]) == Sum(s.workers, PcWeight) + PcWeight(t.workers[w])
  {
    SumUpdate(s.workers, w, t.workers[w], PcWeight);
  }

  lemma StoreDrains(c: Config, s: State, w: nat, now: int)
    requires Placed(s) && Enabled(c, s, Store(w, now))
    ensures Remaining(DoStore(s, w, now)) < Remaining(s)
  {
    assert JobOf(s.workers[w]) == Some(s.workers[w].job);
    assert Sound(s, s.workers[w].job, s.table[s.workers[w].job]);
    WorkerWeighs(s, DoStore(s, w, now), w);
  }

  lemma WorkerDrains(c: Config, s: State, l: Label)
    requires Placed(s) && Enabled(c, s, l)
    requires l.Get? || l.Decrement? || l.Claim? || l.Launch? || l.Finish? || l.Store?
    ensures Remaining(After(c, s, l)) < Remaining(s)
  {
    if l.Store? {
      StoreDrains(c, s, l.w, l.now);
    } else {
      WorkerWeighs(s, After(c, s, l), l.w);
    }
  }

  lemma DrainingKept(c: Config, s: State, l: Label)
    requires Phases(s) && Draining(s) && Enabled(c, s, l) && !l.Start?
    ensures Draining(After(c, s, l)) && After(c, s, l).behind == s.behind
  {
  }

  lemma OtherStepsWeighNothing(c: Config, s: State, l: Label)
    requires Phases(s) && Draining(s) && Enabled(c, s, l) && !l.Start? && !Drains(l)
    ensures Remaining(After(c, s, l)) == Remaining(s)
  {
    assert !l.Accept? && !l.Spawn? && !l.Post?;
    var t := After(c, s, l);
    assert t.workers == s.workers && t.queue == s.queue && t.inflight == s.inflight;
  }

  lemma DrainStep(c: Config, s: State, l: Label)
    requires Inv(c, s) && Draining(s) && Enabled(c, s, l) && !l.Start?
    ensures Draining(After(c, s, l)) && After(c, s, l).behind == s.behind
    ensures Remaining(After(c, s, l)) + (if Drains(l) then 1 else 0) <= Remaining(s)
  {
    DrainingKept(c, s, l);
    if l.Put? {
      assert |s.inflight - {l.j}| == |s.inflight| - 1;
    } else if Drains(l) {
      WorkerDrains(c, s, l);
    } else {
      OtherStepsWeighNothing(c, s, l);
    }
  }

  function DrainCount(ls: seq<Label>): nat {
    if ls == [] then 0 else (if Drains(ls[0]) then 1 else 0) + DrainCount(ls[1..])
  }

  /** The drain is finite: no run without a restart holds more than Remaining(s) of its steps. */
  lemma {:induction false} DrainBounded(c: Config, s: State, ls: seq<Label>, t: State)
    requires Inv(c, s) && Draining(s) && Run(c, s, ls, t) && Start !in ls
    ensures Inv(c, t) && Draining(t) && t.behind == s.behind
    ensures Remaining(t) + DrainCount(ls) <= Remaining(s)
    decreases |ls|
  {
    if ls != [] {
      InvKept(c, s, ls[0]);
      DrainStep(c, s, ls[0]);
      DrainBounded(c, After(c, s, ls[0]), ls[1..], t);
    }
  }

  /** No drain step is left to take, with no sweep or snapshot holding the lock. */
  ghost predicate Quiescent(c: Config, s: State) {
    s.sweep.Off? && !s.shut.Scanning? && forall l :: Drains(l) ==> !Enabled(c, s, l)
  }

  /** While a worker is live some worker has a step to take: that one, whatever it is
      doing, or the one that is inside its claim. */
  lemma LiveWorkerSteps(c: Config, s: State, w: nat) returns (l: Label)
    requires Reachable(c, s) && Draining(s) && s.sweep.Off? && !s.shut.Scanning?
    requires w < |s.workers| && Live(s.workers[w])
    ensures Drains(l) && Enabled(c, s, l)
  {
    ReachableInv(c, s);
    if InClaim(s) {
      var v :| 0 <= v < |s.workers| && s.workers[v].Cleared?;
      assert JobOf(s.workers[v]).value in s.table;
      return Launch(v);
    }
    var pc := s.workers[w];
    assert JobOf(pc).Some? ==> JobOf(pc).value in s.table;
    match pc
    case Waiting =>
      NoWorkerWaitsForever(c, s, w);
      l := Get(w);
    case Took(_) => l := Decrement(w);
    case Claiming(_) => l := Claim(w);
    case Calling(_) => l := Finish(w, Returned);
    case Ending(_, _, _) => l := Store(w, 0);
  }

  lemma InFlightPuts(c: Config, s: State, j: JobId)
    requires Reachable(c, s) && j in s.inflight
    ensures Drains(Put(j)) && Enabled(c, s, Put(j))
  {
    ReachableInv(c, s);
  }

  /** The drain never stops early: where it can go no further every worker is gone and
      every submit has put its job. */
  lemma DrainEndsEmpty(c: Config, s: State)
    requires Reachable(c, s) && Draining(s) && Quiescent(c, s)
    ensures forall w :: 0 <= w < |s.workers| ==> !Live(s.workers[w])
    ensures LiveWorkers(s) == 0 && s.inflight == {}
  {
    forall w | 0 <= w < |s.workers| ensures !Live(s.workers[w]) {
      if Live(s.workers[w]) {
        var l := LiveWorkerSteps(c, s, w);
        assert false;
      }
    }
    SumZero(s.workers, LiveOne);
    if s.inflight != {} {
      var j :| j in s.inflight;
      InFlightPuts(c, s, j);
      assert false;
    }
  }

  function QueuedJobs(q: seq<Item>): set<JobId> {
    set k | 0 <= k < |q| && q[k].Work? :: q[k].job
  }

  lemma QueuedSnoc(q: seq<Item>, it: Item)
    ensures QueuedJobs(q + [it]) == QueuedJobs(q) + if it.Work? then {it.job} else {}
  {
    var r := q + [it];
    forall j | j in QueuedJobs(q) ensures j in QueuedJobs(r) {
      var k :| 0 <= k < |q| && q[k] == Work(j);
      assert r[k] == Work(j);
    }
    assert r[|q|] == it;
  }

  lemma TailIsQueued(q: seq<Item>)
    ensures TailJobs(q) <= QueuedJobs(q)
    ensures Sum(q, SentinelOne) == 0 ==> TailJobs(q) == QueuedJobs(q)
  {
    if q != [] {
      var n := |q| - 1;
      assert q == q[..n] + [q[n]];
      SumAppend(q[..n], q[n], SentinelOne);
      TailIsQueued(q[..n]);
      QueuedSnoc(q[..n], q[n]);
    }
  }

  ghost function Unfinished(s: State): set<JobId> {
    set j | j in s.table && !Terminal(s.table[j].status)
  }

  /** With no live worker and nothing in flight, the unfinished jobs are the queued ones. */
  lemma UnfinishedAreQueued(s: State)
    requires Placed(s) && s.inflight == {} && forall w :: 0 <= w < |s.workers| ==> !Live(s.workers[w])
    ensures Unfinished(s) == QueuedJobs(s.queue)
  {
    forall j | j in Unfinished(s) ensures j in QueuedJobs(s.queue) {
      assert Sound(s, j, s.table[j]);
      assert Work(j) in s.queue;
      var k :| 0 <= k < |s.queue| && s.queue[k] == Work(j);
    }
    forall j | j in QueuedJobs(s.queue) ensures j in Unfinished(s) {
      var k :| 0 <= k < |s.queue| && s.queue[k] == Work(j);
      assert Sound(s, j, s.table[j]);
    }
  }

  /** What the drain leaves unfinished is what is still in the queue, untouched and told
      to stop; if no worker died it is exactly what was in flight at the last sentinel. */
  lemma DrainLeaves(c: Config, s: State)
    requires Reachable(c, s) && Draining(s) && Quiescent(c, s)
    ensures Unfinished(s) == QueuedJobs(s.queue)
    ensures Sentinels(s) == DeadWorkers(s)
    ensures s.behind.Some? ==> s.behind.value <= Unfinished(s)
    ensures s.behind.Some? && DeadWorkers(s) == 0 ==> Unfinished(s) == s.behind.value
  {
    ReachableInv(c, s);
    DrainEndsEmpty(c, s);
    TailIsQueued(s.queue);
    UnfinishedAreQueued(s);
  }

  lemma {:induction false} ReachableRun(c: Config, s: State, ls: seq<Label>, t: State)
    requires Reachable(c, s) && Run(c, s, ls, t)
    ensures Reachable(c, t)
    decreases |ls|
  {
    if ls != [] {
      ReachableStep(c, s, ls[0]);
      ReachableRun(c, After(c, s, ls[0]), ls[1..], t);
    }
  }

  function Put1(l: Label): seq<Item> {
    if l.Put? then [Work(l.j)] else if l.Post? then [Sentinel] else []
  }

  /** What a run puts on the queue, in order, and how many items it takes. */
  function Puts(ls: seq<Label>): seq<Item> {
    if ls == [] then []
    else Put1(ls[0]) + Puts(ls[1..])
  }

  function Gets(ls: seq<Label>): nat {
    if ls == [] then 0 else (if ls[0].Get? then 1 else 0) + Gets(ls[1..])
  }

  lemma FifoStep(q: seq<Item>, l: Label, r: seq<Item>, puts: seq<Item>, gets: nat, end: seq<Item>)
    requires if l.Get? then q != [] && r == q[1..] else r == q + Put1(l)
    requires gets <= |r + puts| && end == (r + puts)[gets..]
    ensures var n := gets + (if l.Get? then 1 else 0);
            n <= |q + (Put1(l) + puts)| && end == (q + (Put1(l) + puts))[n..]
  {
    var all := q + (Put1(l) + puts);
    if l.Get? {
      assert all[1..] == r + puts;
      assert all[1..][gets..] == all[gets + 1..];
    } else {
      assert all == r + puts;
    }
  }

  lemma QueueStep(c: Config, s: State, l: Label)
    requires Enabled(c, s, l)
    ensures if l.Get? then s.queue != [] && After(c, s, l).queue == s.queue[1..]
            else After(c, s, l).queue == s.queue + Put1(l)
  {
  }

  /** The queue is first in, first out: over any run it is what was there and what was
      put, in order, without as many items from the front as were taken. */
  lemma {:induction false} QueueIsFifo(c: Config, s: State, ls: seq<Label>, t: State)
    requires Run(c, s, ls, t)
    ensures Gets(ls) <= |s.queue + Puts(ls)| && t.queue == (s.queue + Puts(ls))[Gets(ls)..]
    decreases |ls|
  {
    if ls != [] {
      QueueIsFifo(c, After(c, s, ls[0]), ls[1..], t);
      QueueStep(c, s, ls[0]);
      FifoStep(s.queue, ls[0], After(c, s, ls[0]).queue, Puts(ls[1..]), Gets(ls[1..]), t.queue);
    }
  }

  /** The jobs behind a sentinel that has `d` sentinels behind it. */
  function JobsBehind(q: seq<Item>, d: nat): set<JobId> {
    if q == [] then {}
    else
      var n := |q| - 1;
      if q[n].Work? then JobsBehind(q[..n], d) + {q[n].job}
      else if d == 0 then {}
      else JobsBehind(q[..n], d - 1)
  }

  lemma {:induction false} SuffixIsBehind(a: seq<Item>, b: seq<Item>)
    requires a != [] && a[|a| - 1].Sentinel?
    ensures JobsBehind(a + b, Sum(b, SentinelOne)) == QueuedJobs(b)
    decreases |b|
  {
    if b == [] {
      assert a + b == a;
    } else {
      var n := |b| - 1;
      assert (a + b)[..|a + b| - 1] == a + b[..n];
      SumAppend(b[..n], b[n], SentinelOne);
      assert b == b[..n] + [b[n]];
      SuffixIsBehind(a, b[..n]);
      QueuedSnoc(b[..n], b[n]);
    }
  }

  /** Let shutdown put its last sentinel in `s`, and let the drain run to its end `t`
      with no restart, whichever workers die.  What never finishes is what is left in the
      queue, with as many sentinels as workers died.  If none died, that is exactly the
      submits that were between their unlock and their put in `s`. */
  lemma StrandedExactly(c: Config, s: State, ls: seq<Label>, t: State)
    requires Reachable(c, s) && s.shut == Posting(1)
    requires Run(c, After(c, s, Post), ls, t) && Start !in ls
    requires Quiescent(c, t)
    ensures Unfinished(t) == QueuedJobs(t.queue) && Sentinels(t) == DeadWorkers(t)
    ensures DeadWorkers(t) == 0 ==> Unfinished(t) == s.inflight
  {
    var u := After(c, s, Post);
    ReachableInv(c, s);
    ReachableStep(c, s, Post);
    ReachableInv(c, u);
    DrainBounded(c, u, ls, t);
    ReachableRun(c, u, ls, t);
    DrainLeaves(c, t);
  }

  lemma LastTaken(items: seq<Item>, taken: nat)
    requires taken <= |items|
    ensures taken > 0 && items[taken - 1].Sentinel? ==>
              JobsBehind(items, Sum(items[taken..], SentinelOne)) == QueuedJobs(items[taken..])
  {
    if taken > 0 && items[taken - 1].Sentinel? {
      SuffixIsBehind(items[..taken], items[taken..]);
      assert items[..taken] + items[taken..] == items;
    }
  }

  /** Which jobs those are, whichever workers die: of all items queued in `s` and put
      since, the ones that were not taken.  If the last item taken is a sentinel, the jobs
      left are those behind that sentinel, the one with as many sentinels behind it as
      workers died. */
  lemma StrandedBehindSentinel(c: Config, s: State, ls: seq<Label>, t: State)
    requires Reachable(c, s) && s.shut == Posting(1)
    requires Run(c, After(c, s, Post), ls, t) && Start !in ls
    requires Quiescent(c, t)
    ensures var items := s.queue + [Sentinel] + Puts(ls);
            && Gets(ls) <= |items| && Unfinished(t) == QueuedJobs(items[Gets(ls)..])
            && (Gets(ls) > 0 && items[Gets(ls) - 1].Sentinel? ==> Unfinished(t) == JobsBehind(items, DeadWorkers(t)))
  {
    StrandedExactly(c, s, ls, t);
    QueueIsFifo(c, After(c, s, Post), ls, t);
    LastTaken(s.queue + [Sentinel] + Puts(ls), Gets(ls));
  }

  // ---- what the protocol does not promise, run by run ---------------------

  const ONE := Config(1, 3600, 0)

  /** One more step of a concrete run, ending in the state written out. */
  lemma Take(ls: seq<Label>, s: State, l: Label, t: State) returns (ls': seq<Label>)
    requires Run(ONE, INITIAL, ls, s) && Enabled(ONE, s, l) && t == After(ONE, s, l)
    ensures Run(ONE, INITIAL, ls', t)
  {
    RunAppend(ONE, INITIAL, ls, s, l);
    ls' := ls + [l];
  }

  const STARTED := State(true, 0, 1, 0, {}, map[], {}, [], [Waiting], Off, Idle, None)
  const ACCEPTED := State(true, 0, 1, 1, {0}, map[0 := FRESH], {0}, [], [Waiting], Off, Idle, None)

  lemma AcceptedRun() returns (ls: seq<Label>)
    ensures Run(ONE, INITIAL, ls, ACCEPTED)
  {
    ls := Take([], INITIAL, Start, INITIAL.(running := true, starting := 1));
    ls := Take(ls, INITIAL.(running := true, starting := 1), Spawn, STARTED);
    ls := Take(ls, STARTED, Accept(0), ACCEPTED);
  }

  const UNSTAFFED := State(true, 0, 0, 1, {0}, map[0 := FRESH.(place := InQueue)], {}, [Work(0)], [], Off, Idle, None)

  /** A start() that cannot start its first thread leaves a manager that is running,
      accepts work and has no worker. */
  lemma StartCanLeaveNoWorker() returns (ls: seq<Label>)
    ensures Run(ONE, INITIAL, ls, UNSTAFFED)
    ensures LiveWorkers(UNSTAFFED) == 0 && UNSTAFFED.running
  {
    var s := INITIAL.(running := true, starting := 1);
    ls := Take([], INITIAL, Start, s);
    var t := s.(starting := 0);
    ls := Take(ls, s, SpawnFails, t);
    var u := t.(pending := 1, jobs := {0}, table := map[0 := FRESH], inflight := {0});
    ls := Take(ls, t, Accept(0), u);
    assert {0} - {0} == {} && [] + [Work(0)] == [Work(0)];
    assert u.table[0 := FRESH.(place := InQueue)] == UNSTAFFED.table;
    ls := Take(ls, u, Put(0), UNSTAFFED);
  }

  const TOLD := FRESH.(cancel := true)
  const POSTING := ACCEPTED.(running := false, table := map[0 := TOLD], shut := Posting(1))

  const TELLING := ACCEPTED.(running := false, shut := Cancelling({0}))

  lemma TellingRun() returns (ls: seq<Label>)
    ensures Run(ONE, INITIAL, ls, TELLING)
  {
    ls := AcceptedRun();
    var s := ACCEPTED.(running := false, shut := Scanning({0}, {}));
    ls := Take(ls, ACCEPTED, ShutLock, s);
    assert {0} - {0} == {} && {} + {0} == {0};
    var t := s.(shut := Scanning({}, {0}));
    ls := Take(ls, s, ShutRead(0), t);
    ls := Take(ls, t, ShutUnlock, TELLING);
  }

  lemma ShutRun() returns (ls: seq<Label>)
    ensures Run(ONE, INITIAL, ls, POSTING)
  {
    ls := TellingRun();
    var s := TELLING.(shut := Cancelling({}), table := map[0 := TOLD]);
    assert ACCEPTED.table[0 := TOLD] == map[0 := TOLD] && {0} - {0} == {};
    ls := Take(ls, TELLING, ShutCancel(0), s);
    ls := Take(ls, s, ShutCancelled, POSTING);
  }

  const LATE := POSTING.(shut := Joining, inflight := {}, behind := Some({0}), queue := [Sentinel, Work(0)],
                         table := map[0 := TOLD.(place := InQueue)])

  lemma LatePutRun() returns (ls: seq<Label>)
    ensures Run(ONE, INITIAL, ls, LATE)
  {
    ls := ShutRun();
    var s := POSTING.(shut := Posting(0), queue := [Sentinel], behind := Some({0}));
    assert [] + [Sentinel] == [Sentinel];
    ls := Take(ls, POSTING, Post, s);
    var t := s.(shut := Joining);
    ls := Take(ls, s, Posted, t);
    assert [Sentinel] + [Work(0)] == LATE.queue && {0} - {0} == {};
    assert t.table[0 := TOLD.(place := InQueue)] == LATE.table;
    ls := Take(ls, t, Put(0), LATE);
  }

  const STRANDED := State(false, 0, 0, 1, {0}, map[0 := TOLD.(place := InQueue)], {}, [Work(0)], [Exited],
                          Off, Idle, Some({0}))

  /** A put after the unlock can land behind the sentinels: an accepted job that stays
      queued with no worker left, told to stop but never terminal. */
  lemma AcceptedJobCanStayQueued() returns (ls: seq<Label>)
    ensures Run(ONE, INITIAL, ls, STRANDED)
    ensures LiveWorkers(STRANDED) == 0 && DeadWorkers(STRANDED) == 0
    ensures STRANDED.table[0].status == Queued && STRANDED.table[0].cancel
  {
    ls := LatePutRun();
    var s := LATE.(queue := [Work(0)], workers := [Exited]);
    assert LATE.queue[1..] == [Work(0)] && LATE.workers[0 := Exited] == [Exited];
    ls := Take(ls, LATE, Get(0), s);
    ls := Take(ls, s, Joined, STRANDED);
    assert STRANDED.workers[1..] == [];
  }

  function WithJob(s: State, pc: Pc, job: Job): State {
    s.(workers := [pc], table := map[0 := job])
  }

  const HELD := FRESH.(place := AtWorker(0))
  const CALLED := HELD.(status := Running, runs := 1)
  const TAKEN := State(true, 0, 1, 1, {0}, map[0 := HELD], {}, [], [Took(0)], Off, Idle, None)
  const CLAIMING := WithJob(TAKEN, Claiming(0), HELD).(pending := 0)
  const CALLING := State(true, 0, 1, 0, {0}, map[0 := CALLED], {}, [], [Calling(0)], Off, Idle, None)

  lemma TakenRun() returns (ls: seq<Label>)
    ensures Run(ONE, INITIAL, ls, TAKEN)
  {
    ls := AcceptedRun();
    var s := ACCEPTED.(inflight := {}, queue := [Work(0)], table := map[0 := FRESH.(place := InQueue)]);
    assert [] + [Work(0)] == s.queue && {0} - {0} == {};
    assert ACCEPTED.table[0 := FRESH.(place := InQueue)] == s.table;
    ls := Take(ls, ACCEPTED, Put(0), s);
    assert s.queue[1..] == [] && s.workers[0 := Took(0)] == TAKEN.workers;
    assert s.table[0 := HELD] == TAKEN.table;
    ls := Take(ls, s, Get(0), TAKEN);
  }

  lemma ClaimingRun() returns (ls: seq<Label>)
    ensures Run(ONE, INITIAL, ls, CLAIMING)
  {
    ls := TakenRun();
    assert TAKEN.workers[0 := Claiming(0)] == CLAIMING.workers;
    ls := Take(ls, TAKEN, Decrement(0), CLAIMING);
  }

  lemma CallingRun() returns (ls: seq<Label>)
    ensures Run(ONE, INITIAL, ls, CALLING)
  {
    ls := ClaimingRun();
    var u := WithJob(CLAIMING, Cleared(0), HELD);
    assert CLAIMING.workers[0 := Cleared(0)] == u.workers;
    ls := Take(ls, CLAIMING, Claim(0), u);
    assert u.workers[0 := Calling(0)] == CALLING.workers && u.table[0 := CALLED] == CALLING.table;
    ls := Take(ls, u, Launch(0), CALLING);
  }

  const CANCELLING := CLAIMING.(running := false, shut := Cancelling({0}))

  lemma CancellingRun() returns (ls: seq<Label>)
    ensures Run(ONE, INITIAL, ls, CANCELLING)
  {
    ls := ClaimingRun();
    var s := CLAIMING.(running := false, shut := Scanning({0}, {}));
    ls := Take(ls, CLAIMING, ShutLock, s);
    assert {0} - {0} == {} && {} + {0} == {0};
    var t := s.(shut := Scanning({}, {0}));
    ls := Take(ls, s, ShutRead(0), t);
    ls := Take(ls, t, ShutUnlock, CANCELLING);
  }

  const RACED := WithJob(CANCELLING, Calling(0), CALLED.(cancel := true)).(shut := Posting(1))

  const OVERTAKEN := WithJob(CANCELLING, Cleared(0), HELD.(cancel := true)).(shut := Cancelling({}))

  lemma OvertakenRun() returns (ls: seq<Label>)
    ensures Run(ONE, INITIAL, ls, OVERTAKEN)
  {
    ls := CancellingRun();
    var s := WithJob(CANCELLING, Cleared(0), HELD);
    assert CANCELLING.workers[0 := Cleared(0)] == s.workers;
    ls := Take(ls, CANCELLING, Claim(0), s);
    assert {0} - {0} == {} && s.table[0 := HELD.(cancel := true)] == OVERTAKEN.table;
    ls := Take(ls, s, ShutCancel(0), OVERTAKEN);
  }

  /** The claim reads the event, shutdown sets it and finishes its cancel loop, the claim
      goes on: a queued job that was told to stop is started all the same. */
  lemma CancelledJobCanStart() returns (ls: seq<Label>)
    ensures Run(ONE, INITIAL, ls, RACED)
    ensures Stopped(RACED) && RACED.table[0].status == Running && RACED.table[0].runs == 1
  {
    ls := OvertakenRun();
    var u := OVERTAKEN.(shut := Posting(1));
    ls := Take(ls, OVERTAKEN, ShutCancelled, u);
    assert u.workers[0 := Calling(0)] == RACED.workers && u.table[0 := CALLED.(cancel := true)] == RACED.table;
    ls := Take(ls, u, Launch(0), RACED);
  }

  const BAIL := BaseRaised("bail out")
  const BAILED := CALLED.(finishedAt := Some(1), error := Some("bail out"), status := Failed, place := Gone)
  const DEAD := CALLING.(table := map[0 := BAILED], workers := [Died])

  const STAMPED := WithJob(CALLING, Ending(0, BAIL, 1), CALLED.(finishedAt := Some(1)))

  lemma StampedRun() returns (ls: seq<Label>)
    ensures Run(ONE, INITIAL, ls, STAMPED)
  {
    ls := CallingRun();
    var s := WithJob(CALLING, Ending(0, BAIL, 0), CALLED);
    assert CALLING.workers[0 := Ending(0, BAIL, 0)] == s.workers;
    ls := Take(ls, CALLING, Finish(0, BAIL), s);
    assert s.workers[0 := Ending(0, BAIL, 1)] == STAMPED.workers;
    ls := Take(ls, s, Store(0, 1), STAMPED);
  }

  lemma DeadWorkerRun() returns (ls: seq<Label>)
    ensures Run(ONE, INITIAL, ls, DEAD)
  {
    ls := StampedRun();
    var u := WithJob(STAMPED, Ending(0, BAIL, 2), CALLED.(finishedAt := Some(1), error := Some("bail out")));
    assert STAMPED.workers[0 := Ending(0, BAIL, 2)] == u.workers;
    ls := Take(ls, STAMPED, Store(0, 2), u);
    assert u.workers[0 := Died] == DEAD.workers;
    ls := Take(ls, u, Store(0, 3), DEAD);
  }

  const STALE := State(false, 0, 0, 0, {0}, map[0 := BAILED], {}, [Sentinel], [Died], Off, Idle, Some({}))

  lemma LastSentinelRun() returns (ls: seq<Label>)
    ensures Run(ONE, INITIAL, ls, DEAD.(running := false, shut := Posting(1)))
  {
    ls := DeadWorkerRun();
    var s := DEAD.(running := false, shut := Scanning({0}, {}));
    ls := Take(ls, DEAD, ShutLock, s);
    assert {0} - {0} == {};
    ls := Take(ls, s, ShutRead(0), s.(shut := Scanning({}, {})));
    s := s.(shut := Scanning({}, {}));
    ls := Take(ls, s, ShutUnlock, s.(shut := Cancelling({})));
    s := s.(shut := Cancelling({}));
    ls := Take(ls, s, ShutCancelled, s.(shut := Posting(1)));
  }

  lemma StaleSentinelRun() returns (ls: seq<Label>)
    ensures Run(ONE, INITIAL, ls, STALE)
  {
    ls := LastSentinelRun();
    var s := DEAD.(running := false, shut := Posting(1));
    ls := Take(ls, s, Post, s.(shut := Posting(0), queue := [Sentinel], behind := Some({})));
    s := s.(shut := Posting(0), queue := [Sentinel], behind := Some({}));
    ls := Take(ls, s, Posted, s.(shut := Joining));
    ls := Take(ls, s.(shut := Joining), Joined, STALE);
  }

  const EMPTY_POOL := State(true, 0, 1, 0, {0}, map[0 := BAILED], {}, [], [Died, Exited], Off, Idle, None)

  const RESTARTED := EMPTY_POOL.(queue := [Sentinel], workers := [Died, Waiting])

  lemma RestartedRun() returns (ls: seq<Label>)
    ensures Run(ONE, INITIAL, ls, RESTARTED)
  {
    ls := StaleSentinelRun();
    var s := STALE.(running := true, starting := 1, behind := None);
    ls := Take(ls, STALE, Start, s);
    assert s.workers + [Waiting] == RESTARTED.workers;
    ls := Take(ls, s, Spawn, RESTARTED);
  }

  /** A worker that dies leaves its sentinel to the next start(): the manager runs,
      accepts work, and has no worker. */
  lemma RestartCanLoseItsWorker() returns (ls: seq<Label>)
    ensures Run(ONE, INITIAL, ls, EMPTY_POOL)
    ensures LiveWorkers(EMPTY_POOL) == 0 && DeadWorkers(EMPTY_POOL) == 1
  {
    ls := RestartedRun();
    assert RESTARTED.workers[1 := Exited] == EMPTY_POOL.workers && RESTARTED.queue[1..] == [];
    ls := Take(ls, RESTARTED, Get(1), EMPTY_POOL);
    assert EMPTY_POOL.workers[1..] == [Exited] && [Exited][1..] == [];
  }
}
