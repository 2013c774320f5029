/**
 The running jobs with their encodes: each called job function runs at most one encode
 process, which shares the job's cancel event.  What shutdown does to the children that
 are alive when it is called.
 */
module LiveEncodes {
  import opened Wrappers
  import opened JobProtocol
  import opened JobInvariant
  import JobTheorems
  import EP = EncodeProcess

  /** `encodes` holds every call of run_encode made so far, by its job. */
  datatype Live = Live(jobs: State, encodes: map<JobId, EP.State>)

  datatype Event = JobStep(step: Label) | Begin(j: JobId) | EncodeStep(j: JobId, move: EP.Label)

  const START := Live(INITIAL, map[])

  /** The encodes see the cancel events of the jobs. */
  function Shared(jobs: State, encodes: map<JobId, EP.State>): map<JobId, EP.State> {
    map j | j in encodes :: if j in jobs.table then encodes[j].(cancel := jobs.table[j].cancel) else encodes[j]
  }

  /** A job function ends only after its run_encode; a cancel event is set only by the
      jobs' own steps. */
  predicate Can(c: Config, effective: bool, y: Live, e: Event) {
    match e
    case JobStep(l) =>
      Enabled(c, y.jobs, l) &&
      (l.Finish? ==> var j := y.jobs.workers[l.w].job; j in y.encodes ==> y.encodes[j].main.Ended?)
    case Begin(j) => Calling(j) in y.jobs.workers && j in y.jobs.table && j !in y.encodes
    case EncodeStep(j, l) => j in y.encodes && EP.Enabled(effective, y.encodes[j], l) && !l.SetCancel?
  }

  function Then(c: Config, effective: bool, y: Live, e: Event): Live
    requires Can(c, effective, y, e)
  {
    match e
    case JobStep(l) => Live(After(c, y.jobs, l), Shared(After(c, y.jobs, l), y.encodes))
    case Begin(j) => y.(encodes := y.encodes[j := EP.INITIAL.(cancel := y.jobs.table[j].cancel)])
    case EncodeStep(j, l) => y.(encodes := y.encodes[j := EP.After(effective, y.encodes[j], l)])
  }

  predicate Runs(c: Config, effective: bool, y: Live, es: seq<Event>, z: Live)
    decreases |es|
  {
    if es == [] then y == z
    else Can(c, effective, y, es[0]) && Runs(c, effective, Then(c, effective, y, es[0]), es[1..], z)
  }

  ghost predicate Reaches(c: Config, effective: bool, y: Live) {
    exists es :: Runs(c, effective, START, es, y)
  }

  // ---- the invariant -----------------------------------------------------

  /** An encode is a reachable process with its job's cancel event; until run_encode ends,
      some worker is calling the job's function. */
  predicate Attached(effective: bool, y: Live, j: JobId)
    requires j in y.encodes
  {
    && EP.Inv(effective, y.encodes[j])
    && j in y.jobs.table && y.encodes[j].cancel == y.jobs.table[j].cancel
    && (y.encodes[j].main.Ended? || Calling(j) in y.jobs.workers)
  }

  ghost predicate LiveInv(c: Config, effective: bool, y: Live) {
    Inv(c, y.jobs) && forall j :: j in y.encodes ==> Attached(effective, y, j)
  }

  /** A call ends only with Finish. */
  lemma CallStays(c: Config, s: State, l: Label, w: nat)
    requires Enabled(c, s, l) && w < |s.workers| && s.workers[w].Calling?
    requires l.Finish? ==> l.w != w
    ensures w < |After(c, s, l).workers| && After(c, s, l).workers[w] == s.workers[w]
  {
  }

  lemma CancelKeepsInv(effective: bool, s: EP.State, cancel: bool)
    requires EP.Inv(effective, s) && (s.cancel ==> cancel)
    ensures EP.Inv(effective, s.(cancel := cancel))
  {
    if s.cancel == cancel {
      assert s.(cancel := cancel) == s;
    } else {
      EP.InvKept(effective, s, EP.SetCancel);
    }
  }

  lemma JobKeepsAttached(c: Config, effective: bool, y: Live, l: Label, j: JobId)
    requires LiveInv(c, effective, y) && Can(c, effective, y, JobStep(l)) && j in y.encodes
    ensures Attached(effective, Then(c, effective, y, JobStep(l)), j)
  {
    assert Attached(effective, y, j);
    ForwardKept(c, y.jobs, l, j);
    var t := After(c, y.jobs, l);
    CancelKeepsInv(effective, y.encodes[j], t.table[j].cancel);
    if !y.encodes[j].main.Ended? {
      var w :| 0 <= w < |y.jobs.workers| && y.jobs.workers[w] == Calling(j);
      CallStays(c, y.jobs, l, w);
      assert t.workers[w] == Calling(j);
    }
  }

  lemma EncodeKeepsAttached(effective: bool, y: Live, j: JobId, l: EP.Label)
    requires j in y.encodes && Attached(effective, y, j) && EP.Enabled(effective, y.encodes[j], l) && !l.SetCancel?
    ensures Attached(effective, y.(encodes := y.encodes[j := EP.After(effective, y.encodes[j], l)]), j)
  {
    EP.InvKept(effective, y.encodes[j], l);
  }

  lemma LiveInvKept(c: Config, effective: bool, y: Live, e: Event)
    requires LiveInv(c, effective, y) && Can(c, effective, y, e)
    ensures LiveInv(c, effective, Then(c, effective, y, e))
  {
    var z := Then(c, effective, y, e);
    match e
    case JobStep(l) =>
      InvKept(c, y.jobs, l);
      forall j | j in z.encodes ensures Attached(effective, z, j) {
        JobKeepsAttached(c, effective, y, l, j);
      }
    case Begin(j) =>
      forall i | i in z.encodes ensures Attached(effective, z, i) {
        assert i != j ==> Attached(effective, y, i);
      }
    case EncodeStep(j, l) =>
      EncodeKeepsAttached(effective, y, j, l);
      forall i | i in z.encodes ensures Attached(effective, z, i) {
        assert Attached(effective, y, i);
      }
  }

  lemma {:induction false} RunsInv(c: Config, effective: bool, y: Live, es: seq<Event>, z: Live)
    requires LiveInv(c, effective, y) && Runs(c, effective, y, es, z)
    ensures LiveInv(c, effective, z)
    decreases |es|
  {
    if es != [] {
      LiveInvKept(c, effective, y, es[0]);
      RunsInv(c, effective, Then(c, effective, y, es[0]), es[1..], z);
    }
  }

  lemma ReachesInv(c: Config, effective: bool, y: Live)
    requires Reaches(c, effective, y)
    ensures LiveInv(c, effective, y)
  {
    var es :| Runs(c, effective, START, es, y);
    InitialInv(c);
    RunsInv(c, effective, START, es, y);
  }

  // ---- shutdown reaches the children -------------------------------------

  /** Steps of the watcher of job `j`. */
  function WatchSteps(es: seq<Event>, j: JobId): nat {
    if es == [] then 0
    else (if es[0].EncodeStep? && es[0].j == j && EP.WatcherMoves(es[0].move) then 1 else 0) + WatchSteps(es[1..], j)
  }

  predicate Told(y: Live, j: JobId) {
    j in y.encodes && y.encodes[j].cancel && EP.Started(y.encodes[j])
  }

  lemma ToldStep(c: Config, effective: bool, y: Live, e: Event, j: JobId)
    requires LiveInv(c, effective, y) && Can(c, effective, y, e) && Told(y, j)
    ensures Told(Then(c, effective, y, e), j)
    ensures EP.WatchRank(Then(c, effective, y, e).encodes[j].watcher) + WatchSteps([e], j)
            <= EP.WatchRank(y.encodes[j].watcher)
  {
    assert Attached(effective, y, j) && [e][1..] == [];
    match e
    case JobStep(l) => ForwardKept(c, y.jobs, l, j);
    case Begin(_) =>
    case EncodeStep(i, l) =>
      if i == j {
        EP.CancelStep(effective, y.encodes[j], l);
      }
  }

  /** A watcher that is told has at most five steps left, whatever everybody else does. */
  lemma {:induction false} ToldRun(c: Config, effective: bool, y: Live, es: seq<Event>, z: Live, j: JobId)
    requires LiveInv(c, effective, y) && Runs(c, effective, y, es, z) && Told(y, j)
    ensures Told(z, j)
    ensures EP.WatchRank(z.encodes[j].watcher) + WatchSteps(es, j) <= EP.WatchRank(y.encodes[j].watcher)
    decreases |es|
  {
    if es != [] {
      var u := Then(c, effective, y, es[0]);
      LiveInvKept(c, effective, y, es[0]);
      ToldStep(c, effective, y, es[0], j);
      assert [es[0]][1..] == [];
      ToldRun(c, effective, u, es[1..], z, j);
    }
  }

  lemma StoppingStep(c: Config, effective: bool, y: Live, e: Event, j: JobId)
    requires LiveInv(c, effective, y) && Can(c, effective, y, e) && j in y.encodes && EP.Stopping(y.encodes[j])
    ensures j in Then(c, effective, y, e).encodes && EP.Stopping(Then(c, effective, y, e).encodes[j])
  {
    assert Attached(effective, y, j);
    match e
    case JobStep(l) =>
    case Begin(_) =>
    case EncodeStep(i, l) =>
      if i == j {
        EP.StoppingKept(effective, y.encodes[j], l);
      }
  }

  lemma {:induction false} StoppingRun(c: Config, effective: bool, y: Live, es: seq<Event>, z: Live, j: JobId)
    requires LiveInv(c, effective, y) && Runs(c, effective, y, es, z) && j in y.encodes && EP.Stopping(y.encodes[j])
    ensures j in z.encodes && EP.Stopping(z.encodes[j])
    decreases |es|
  {
    if es != [] {
      LiveInvKept(c, effective, y, es[0]);
      StoppingStep(c, effective, y, es[0], j);
      StoppingRun(c, effective, Then(c, effective, y, es[0]), es[1..], z, j);
    }
  }

  /** A job whose encode is going on is unfinished, so shutdown's cancel loop told it. */
  lemma OngoingIsTold(c: Config, effective: bool, y: Live, j: JobId)
    requires LiveInv(c, effective, y) && JobTheorems.Stopped(y.jobs)
    requires j in y.encodes && !y.encodes[j].main.Ended?
    ensures y.encodes[j].cancel
  {
    assert Attached(effective, y, j);
    var w :| 0 <= w < |y.jobs.workers| && y.jobs.workers[w] == Calling(j);
    assert JobOf(y.jobs.workers[w]) == Some(j);
    assert Sound(y.jobs, j, y.jobs.table[j]);
  }

  lemma StoppedAtZero(effective: bool, w: EP.Watcher, s: EP.State)
    requires EP.Inv(effective, s) && EP.Started(s) && EP.WatchRank(s.watcher) + 5 <= EP.WatchRank(w)
    ensures EP.Stopping(s)
  {
    assert s.watcher.Stopped?;
    EP.OverIsStopping(effective, s);
  }

  lemma ToldStops(c: Config, effective: bool, y: Live, es: seq<Event>, z: Live, j: JobId)
    requires LiveInv(c, effective, y) && Runs(c, effective, y, es, z) && Told(y, j)
    requires WatchSteps(es, j) >= 5
    ensures j in z.encodes && EP.Stopping(z.encodes[j])
  {
    ToldRun(c, effective, y, es, z, j);
    RunsInv(c, effective, y, es, z);
    assert Attached(effective, z, j);
    StoppedAtZero(effective, y.encodes[j].watcher, z.encodes[j]);
  }

  lemma StartedIff(effective: bool, s: EP.State)
    requires EP.Inv(effective, s)
    ensures EP.Started(s) <==> !s.watcher.NotStarted?
  {
  }

  /** What shutdown is for: past its cancel loop, five steps of its watcher after that, no
      child of a run_encode with a watcher outlives it: it has exited or is being killed.
      If run_encode is over already, no step is needed. */
  lemma ShutdownStopsEncodes(c: Config, effective: bool, y: Live, es: seq<Event>, z: Live, j: JobId)
    requires Reaches(c, effective, y) && JobTheorems.Stopped(y.jobs)
    requires j in y.encodes && !y.encodes[j].watcher.NotStarted?
    requires Runs(c, effective, y, es, z)
    requires WatchSteps(es, j) >= 5 || y.encodes[j].main.Ended?
    ensures j in z.encodes && EP.Stopping(z.encodes[j])
  {
    ReachesInv(c, effective, y);
    assert Attached(effective, y, j);
    StartedIff(effective, y.encodes[j]);
    if y.encodes[j].main.Ended? {
      EP.OverIsStopping(effective, y.encodes[j]);
      StoppingRun(c, effective, y, es, z, j);
    } else {
      OngoingIsTold(c, effective, y, j);
      ToldStops(c, effective, y, es, z, j);
    }
  }
}
