/**
 The service as a whole: the job protocol with run_encode_job as every job's function,
 which runs one encode process and one publish protocol.
 */
module Service {
  import opened Wrappers
  import opened JobProtocol
  import opened JobInvariant
  import EP = EncodeProcess
  import opened FileSystem
  import P = Publish

  /** One call of run_encode_job: the file system it met, everything that happened to it,
      and the process run_encode ran, if it got that far. */
  datatype Call = Call(fs: Fs, inputs: P.Inputs, process: Option<EP.State>)

  function ReportOf(call: Call): P.Report {
    P.RunJob(call.fs, call.inputs)
  }

  /** The call's encode result is how a reachable process run ended. */
  ghost predicate Genuine(effective: bool, call: Call) {
    && P.Ready(call.fs)
    && (ReportOf(call).encoded ==>
          call.process.Some? && EP.Reachable(effective, call.process.value)
          && call.process.value.main == EP.Ended(call.inputs.encode))
  }

  /** How the worker's `try` sees the call: only HandBrakeCancelled is a cancellation; an
      exception that aborted the read loop may be any. */
  predicate Seen(outcome: P.Outcome, how: How) {
    match outcome
    case Done => how.Returned?
    case Raised(FromEncode(o)) =>
      if o.Cancelled? then how.CancelRaised?
      else how.ExceptionRaised? || (o.ReadAborted? && how.BaseRaised?)
    case Raised(_) => how.ExceptionRaised?
  }

  /** The running jobs and, for each job whose function has ended, that call. */
  datatype System = System(jobs: State, calls: map<JobId, Call>)

  /** Which calls a job's function can make, and how the worker sees them end. */
  type Fit = (JobId, Call, How) -> bool

  datatype Event = Event(step: Label, call: Option<Call>)

  predicate CancelShared(s: State, j: JobId, call: Call)
    requires j in s.table
  {
    call.process.Some? && call.process.value.cancel ==> s.table[j].cancel
  }

  /** run_encode gets the job's own cancel event. */
  predicate Can(c: Config, fit: Fit, y: System, e: Event) {
    && Enabled(c, y.jobs, e.step)
    && (e.step.Finish? ==>
          var j := y.jobs.workers[e.step.w].job;
          && e.call.Some? && j in y.jobs.table
          && fit(j, e.call.value, e.step.how) && CancelShared(y.jobs, j, e.call.value))
  }

  function Then(c: Config, fit: Fit, y: System, e: Event): System
    requires Can(c, fit, y, e)
  {
    System(After(c, y.jobs, e.step),
           if e.step.Finish? then y.calls[y.jobs.workers[e.step.w].job := e.call.value] else y.calls)
  }

  predicate Runs(c: Config, fit: Fit, y: System, es: seq<Event>, z: System)
    decreases |es|
  {
    if es == [] then y == z else Can(c, fit, y, es[0]) && Runs(c, fit, Then(c, fit, y, es[0]), es[1..], z)
  }

  const START := System(INITIAL, map[])

  // ---- every end is explained by its call --------------------------------

  predicate Justified(fit: Fit, y: System, j: JobId, how: How)
    requires j in y.jobs.table
  {
    j in y.calls && fit(j, y.calls[j], how) && CancelShared(y.jobs, j, y.calls[j])
  }

  ghost predicate Explained(fit: Fit, y: System, j: JobId)
    requires j in y.jobs.table
  {
    var job := y.jobs.table[j];
    match job.place
    case AtWorker(w) =>
      w < |y.jobs.workers| && y.jobs.workers[w].Ending? && !y.jobs.workers[w].how.NotClaimed? ==>
        Justified(fit, y, j, y.jobs.workers[w].how)
    case Gone =>
      job.runs > 0 ==>
        exists how: How :: !how.NotClaimed? && FinalStatus(how) == job.status && Justified(fit, y, j, how)
    case _ => true
  }

  ghost predicate Accounted(fit: Fit, y: System) {
    forall j :: j in y.jobs.table ==> Explained(fit, y, j)
  }

  lemma FinishExplained(c: Config, fit: Fit, y: System, e: Event, j: JobId)
    requires Placed(y.jobs) && Can(c, fit, y, e) && e.step.Finish? && j == y.jobs.workers[e.step.w].job
    ensures Explained(fit, Then(c, fit, y, e), j)
  {
    assert JobOf(y.jobs.workers[e.step.w]) == Some(j);
    assert Sound(y.jobs, j, y.jobs.table[j]);
  }

  lemma StoreExplained(c: Config, fit: Fit, y: System, e: Event, j: JobId)
    requires Placed(y.jobs) && Accounted(fit, y) && Can(c, fit, y, e)
    requires e.step.Store? && j == y.jobs.workers[e.step.w].job
    ensures Explained(fit, Then(c, fit, y, e), j)
  {
    var how := y.jobs.workers[e.step.w].how;
    var z := Then(c, fit, y, e);
    assert JobOf(y.jobs.workers[e.step.w]) == Some(j);
    assert Sound(y.jobs, j, y.jobs.table[j]) && Explained(fit, y, j);
    if !how.NotClaimed? {
      assert Justified(fit, z, j, how);
    }
  }

  lemma KeptExplained(fit: Fit, y: System, z: System, j: JobId)
    requires j in y.jobs.table && j in z.jobs.table && Explained(fit, y, j)
    requires EndedFrom(y.jobs, z.jobs, j) && Forward(y.jobs.table[j], z.jobs.table[j])
    requires j in y.calls ==> j in z.calls && z.calls[j] == y.calls[j]
    ensures Explained(fit, z, j)
  {
    var job := z.jobs.table[j];
    if job.place.Gone? && job.runs > 0 {
      var how: How :| !how.NotClaimed? && FinalStatus(how) == job.status && Justified(fit, y, j, how);
      assert Justified(fit, z, j, how);
    }
  }

  /** A step that is not about `j`'s end leaves its explanation standing. */
  lemma OtherExplained(c: Config, fit: Fit, y: System, e: Event, j: JobId)
    requires Placed(y.jobs) && Can(c, fit, y, e) && j in y.jobs.table && Explained(fit, y, j)
    requires e.step.Finish? || e.step.Store? ==> y.jobs.workers[e.step.w].job != j
    ensures j in Then(c, fit, y, e).jobs.table && Explained(fit, Then(c, fit, y, e), j)
  {
    var z := Then(c, fit, y, e);
    ForwardKept(c, y.jobs, e.step, j);
    EndingStep(c, y.jobs, e.step, j);
    KeptExplained(fit, y, z, j);
  }

  lemma AccountedKept(c: Config, fit: Fit, y: System, e: Event)
    requires Placed(y.jobs) && Accounted(fit, y) && Can(c, fit, y, e)
    ensures Accounted(fit, Then(c, fit, y, e))
  {
    var z := Then(c, fit, y, e);
    forall j | j in z.jobs.table ensures Explained(fit, z, j) {
      if j !in y.jobs.table {
        NewEntry(c, y.jobs, e.step, j);
      } else if e.step.Finish? && y.jobs.workers[e.step.w].job == j {
        FinishExplained(c, fit, y, e, j);
      } else if e.step.Store? && y.jobs.workers[e.step.w].job == j {
        StoreExplained(c, fit, y, e, j);
      } else {
        assert Explained(fit, y, j);
        OtherExplained(c, fit, y, e, j);
      }
    }
  }

  lemma {:induction false} RunsAccounted(c: Config, fit: Fit, y: System, es: seq<Event>, z: System)
    requires Inv(c, y.jobs) && Accounted(fit, y) && Runs(c, fit, y, es, z)
    ensures Inv(c, z.jobs) && Accounted(fit, z)
    decreases |es|
  {
    if es != [] {
      InvKept(c, y.jobs, es[0].step);
      AccountedKept(c, fit, y, es[0]);
      RunsAccounted(c, fit, Then(c, fit, y, es[0]), es[1..], z);
    }
  }

  // ---- what a terminal status means --------------------------------------

  /** The service's own fit: a genuine call with the job's id, seen as it ended. */
  ghost function ServiceFit(effective: bool, ids: JobId -> string): Fit {
    (j: JobId, call: Call, how: How) =>
      Genuine(effective, call) && call.inputs.req.id == ids(j) && Seen(ReportOf(call).outcome, how)
  }

  ghost predicate Reaches(c: Config, effective: bool, ids: JobId -> string, y: System) {
    exists es :: Runs(c, ServiceFit(effective, ids), START, es, y)
  }

  lemma GoneHasCall(fit: Fit, y: System, j: JobId) returns (how: How)
    requires Accounted(fit, y) && j in y.jobs.table && y.jobs.table[j].place.Gone? && y.jobs.table[j].runs > 0
    ensures !how.NotClaimed? && FinalStatus(how) == y.jobs.table[j].status && Justified(fit, y, j, how)
  {
    assert Explained(fit, y, j);
    how :| !how.NotClaimed? && FinalStatus(how) == y.jobs.table[j].status && Justified(fit, y, j, how);
  }

  /** Every job whose function was called and that is over has a genuine call behind it. */
  lemma EndedJobHasCall(c: Config, effective: bool, ids: JobId -> string, y: System, j: JobId) returns (how: How)
    requires Reaches(c, effective, ids, y) && j in y.jobs.table
    requires Terminal(y.jobs.table[j].status) && y.jobs.table[j].runs > 0
    ensures Inv(c, y.jobs)
    ensures !how.NotClaimed? && FinalStatus(how) == y.jobs.table[j].status
    ensures Justified(ServiceFit(effective, ids), y, j, how)
  {
    var fit := ServiceFit(effective, ids);
    var es :| Runs(c, fit, START, es, y);
    InitialInv(c);
    RunsAccounted(c, fit, START, es, y);
    TerminalIsSettled(c, y.jobs, j);
    how := GoneHasCall(fit, y, j);
  }

  lemma SeenAborts(outcome: P.Outcome, how: How)
    requires Seen(outcome, how) && how.BaseRaised?
    ensures outcome == P.Raised(P.FromEncode(EP.ReadAborted))
  {
  }

  /** A job can cost its worker only by an exception that aborted the read loop: no encode
      error, no cancel and no failing call of the publish step does. */
  lemma OnlyAbortsCostAWorker(c: Config, effective: bool, ids: JobId -> string, y: System, w: nat)
    requires Reaches(c, effective, ids, y) && w < |y.jobs.workers|
    requires y.jobs.workers[w].Ending? && y.jobs.workers[w].how.BaseRaised?
    ensures y.jobs.workers[w].job in y.calls
    ensures ReportOf(y.calls[y.jobs.workers[w].job]).outcome == P.Raised(P.FromEncode(EP.ReadAborted))
  {
    var fit := ServiceFit(effective, ids);
    var es :| Runs(c, fit, START, es, y);
    InitialInv(c);
    RunsAccounted(c, fit, START, es, y);
    var j := y.jobs.workers[w].job;
    assert JobOf(y.jobs.workers[w]) == Some(j);
    assert Explained(fit, y, j);
    SeenAborts(ReportOf(y.calls[j]).outcome, y.jobs.workers[w].how);
  }

  lemma ReachesInv(c: Config, effective: bool, ids: JobId -> string, y: System)
    requires Reaches(c, effective, ids, y)
    ensures Inv(c, y.jobs)
  {
    var fit := ServiceFit(effective, ids);
    var es :| Runs(c, fit, START, es, y);
    InitialInv(c);
    RunsAccounted(c, fit, START, es, y);
  }

  /** HandBrakeCancelled comes only from a process whose cancel event was set. */
  lemma CancelNeedsEvent(effective: bool, call: Call)
    requires Genuine(effective, call)
    requires ReportOf(call).outcome == P.Raised(P.FromEncode(EP.Cancelled))
    ensures call.process.Some? && call.process.value.cancel
    ensures call.process.value.child.Gone? && call.process.value.child.code != 0
  {
    P.EncodeErrorsComeFromEncode(call.fs, call.inputs);
    EP.CancelledMeans(effective, call.process.value);
  }

  /** What a successful call leaves: the output path holds the entry the staging path had
      at the rename, and names the claimed file exactly when the staging path did. */
  ghost predicate Published(call: Call) {
    P.Claims(call.fs, call.inputs) &&
    var p := P.PlanOf(call.fs, call.inputs.req).value;
    var k := P.AtRename(call.fs, call.inputs);
    var r := ReportOf(call);
    && r.renamed && r.outputPath == Some(p.dst) && P.StillOurs(call.fs, call.inputs)
    && p.staging in k.names && p.dst in r.fs.names && r.fs.names[p.dst] == k.names[p.staging]
    && (P.NamesClaimed(call.fs, call.inputs, r.fs, p.dst) <==> P.NamesClaimed(call.fs, call.inputs, k, p.staging))
  }

  /** What any other call leaves: the output path as the others left it, and no staging
      entry if the call got as far as removing it; with nobody else there, only then. */
  ghost predicate NothingPublished(call: Call) {
    var r := ReportOf(call);
    && !r.renamed
    && (P.PlanOf(call.fs, call.inputs.req).Success? ==>
          var p := P.PlanOf(call.fs, call.inputs.req).value;
          && (P.OthersSpare(call.inputs, p.dst) ==> SameEntry(call.fs, r.fs, p.dst))
          && (P.Claims(call.fs, call.inputs) && P.Removes(call.fs, call.inputs) ==> p.staging !in r.fs.names)
          && (P.Claims(call.fs, call.inputs) && P.OthersSpare(call.inputs, p.staging) ==>
                (p.staging in r.fs.names <==> !P.Removes(call.fs, call.inputs))))
  }

  lemma DonePublishes(call: Call)
    requires P.Ready(call.fs) && ReportOf(call).outcome.Done?
    ensures Published(call)
  {
    P.SucceedsIff(call.fs, call.inputs);
    P.PublishedIsClaimed(call.fs, call.inputs);
  }

  lemma RaisedStaging(call: Call)
    requires P.Ready(call.fs) && ReportOf(call).outcome.Raised? && P.Claims(call.fs, call.inputs)
    ensures var p := P.PlanOf(call.fs, call.inputs.req).value;
            && (P.Removes(call.fs, call.inputs) ==> p.staging !in ReportOf(call).fs.names)
            && (P.OthersSpare(call.inputs, p.staging) ==>
                  (p.staging in ReportOf(call).fs.names <==> !P.Removes(call.fs, call.inputs)))
  {
    var p := P.PlanOf(call.fs, call.inputs.req).value;
    if P.Removes(call.fs, call.inputs) {
      P.FailureLeavesNoStaging(call.fs, call.inputs);
    }
    if P.OthersSpare(call.inputs, p.staging) {
      P.StagingLeftIff(call.fs, call.inputs);
    }
  }

  lemma RaisedPublishesNothing(call: Call)
    requires P.Ready(call.fs) && ReportOf(call).outcome.Raised?
    ensures NothingPublished(call)
  {
    P.SucceedsIff(call.fs, call.inputs);
    if P.PlanOf(call.fs, call.inputs.req).Success? {
      var p := P.PlanOf(call.fs, call.inputs.req).value;
      if P.OthersSpare(call.inputs, p.dst) {
        P.FailureKeepsOutput(call.fs, call.inputs);
      }
      if P.Claims(call.fs, call.inputs) {
        RaisedStaging(call);
      }
    }
  }

  lemma CompletedCall(effective: bool, call: Call, how: How)
    requires Genuine(effective, call) && Seen(ReportOf(call).outcome, how) && how.Returned?
    ensures call.process.Some? && call.process.value.child == EP.Gone(0)
    ensures call.process.value.eof && !call.process.value.expired
    ensures Published(call)
  {
    P.SucceedsIff(call.fs, call.inputs);
    DonePublishes(call);
    EP.ReturnsIff(effective, call.process.value);
  }

  /** COMPLETED: the child read to its end exited 0 in time, the staging path led to the
      claimed file at the check, its entry at the rename is what the output path derived
      for this job holds, and progress is 100. */
  lemma CompletedMeans(c: Config, effective: bool, ids: JobId -> string, y: System, j: JobId)
    requires Reaches(c, effective, ids, y) && j in y.jobs.table && y.jobs.table[j].status == Completed
    ensures y.jobs.table[j].progress == 100.0 && y.jobs.table[j].finishedAt.Some?
    ensures j in y.calls
    ensures var call := y.calls[j];
            && call.process.Some? && call.process.value.child == EP.Gone(0)
            && call.process.value.eof && !call.process.value.expired
    ensures Published(y.calls[j]) && y.calls[j].inputs.req.id == ids(j)
  {
    ReachesInv(c, effective, ids, y);
    TerminalIsSettled(c, y.jobs, j);
    var how := EndedJobHasCall(c, effective, ids, y, j);
    CompletedCall(effective, y.calls[j], how);
  }

  lemma CancelledCall(effective: bool, call: Call, how: How)
    requires Genuine(effective, call) && Seen(ReportOf(call).outcome, how) && how.CancelRaised?
    ensures call.process.Some? && call.process.value.cancel
    ensures call.process.value.child.Gone? && call.process.value.child.code != 0
    ensures NothingPublished(call)
  {
    CancelNeedsEvent(effective, call);
    RaisedPublishesNothing(call);
  }

  /** CANCELLED: the job's cancel event is set, and either it was never claimed or its
      child was told to stop, did not exit 0, and nothing was published. */
  lemma CancelledMeans(c: Config, effective: bool, ids: JobId -> string, y: System, j: JobId)
    requires Reaches(c, effective, ids, y) && j in y.jobs.table && y.jobs.table[j].status == Cancelled
    ensures y.jobs.table[j].cancel
    ensures y.jobs.table[j].runs > 0 ==>
              && j in y.calls && y.calls[j].process.Some?
              && y.calls[j].process.value.cancel && y.calls[j].process.value.child.Gone?
              && y.calls[j].process.value.child.code != 0
              && NothingPublished(y.calls[j])
  {
    ReachesInv(c, effective, ids, y);
    TerminalIsSettled(c, y.jobs, j);
    if y.jobs.table[j].runs > 0 {
      var how := EndedJobHasCall(c, effective, ids, y, j);
      CancelledCall(effective, y.calls[j], how);
    }
  }

  /** run_encode was entered and its child is alive after the call. */
  predicate LeftChild(call: Call) {
    ReportOf(call).encoded && call.process.Some? && call.process.value.child.Alive?
  }

  lemma FailedCall(effective: bool, call: Call, how: How)
    requires Genuine(effective, call) && Seen(ReportOf(call).outcome, how) && (how.ExceptionRaised? || how.BaseRaised?)
    ensures ReportOf(call).outcome.Raised? && NothingPublished(call)
    ensures ReportOf(call).outcome.e != P.FromEncode(EP.Cancelled)
  {
    RaisedPublishesNothing(call);
  }

  /** FAILED: the call raised something else, nothing was published, and the error text is
      there.  A child that is still alive had no watcher or survived a kill. */
  lemma FailedMeans(c: Config, effective: bool, ids: JobId -> string, y: System, j: JobId)
    requires Reaches(c, effective, ids, y) && j in y.jobs.table && y.jobs.table[j].status == Failed
    ensures y.jobs.table[j].error.Some?
    ensures j in y.calls && ReportOf(y.calls[j]).outcome.Raised? && NothingPublished(y.calls[j])
    ensures ReportOf(y.calls[j]).outcome.e != P.FromEncode(EP.Cancelled)
    ensures LeftChild(y.calls[j]) ==>
              y.calls[j].inputs.encode.WatcherFailed? || (y.calls[j].inputs.encode.KillStuck? && !effective)
  {
    ReachesInv(c, effective, ids, y);
    TerminalIsSettled(c, y.jobs, j);
    var how := EndedJobHasCall(c, effective, ids, y, j);
    FailedCall(effective, y.calls[j], how);
    if LeftChild(y.calls[j]) {
      EP.NoChildLeftBehind(effective, y.calls[j].process.value);
    }
  }

  lemma SeenDecides(outcome: P.Outcome, how: How)
    requires Seen(outcome, how)
    ensures FinalStatus(how) ==
            if outcome.Done? then Completed else if outcome.e == P.FromEncode(EP.Cancelled) then Cancelled else Failed
  {
  }

  /** The status a job ends with is decided by how its function ended, and by nothing else. */
  lemma StatusIff(c: Config, effective: bool, ids: JobId -> string, y: System, j: JobId)
    requires Reaches(c, effective, ids, y) && j in y.jobs.table
    requires Terminal(y.jobs.table[j].status) && y.jobs.table[j].runs > 0
    ensures j in y.calls
    ensures y.jobs.table[j].status == Completed <==> ReportOf(y.calls[j]).outcome == P.Done
    ensures y.jobs.table[j].status == Cancelled <==>
            ReportOf(y.calls[j]).outcome == P.Raised(P.FromEncode(EP.Cancelled))
    ensures y.jobs.table[j].status == Failed <==>
            ReportOf(y.calls[j]).outcome.Raised? && ReportOf(y.calls[j]).outcome.e != P.FromEncode(EP.Cancelled)
  {
    var how := EndedJobHasCall(c, effective, ids, y, j);
    SeenDecides(ReportOf(y.calls[j]).outcome, how);
  }

  /** A job whose child was stopped by a cancel ends CANCELLED, if the function gets as far
      as to re-raise. */
  lemma CancelledEncodeCancelsJob(c: Config, effective: bool, ids: JobId -> string, y: System, j: JobId)
    requires Reaches(c, effective, ids, y) && j in y.jobs.table
    requires Terminal(y.jobs.table[j].status) && y.jobs.table[j].runs > 0
    requires j in y.calls && y.calls[j].process.Some? && y.calls[j].process.value.main == EP.Ended(EP.Cancelled)
    requires P.Claims(y.calls[j].fs, y.calls[j].inputs) && P.Reraises(y.calls[j].fs, y.calls[j].inputs)
    ensures y.jobs.table[j].status == Cancelled && y.jobs.table[j].cancel
  {
    StatusIff(c, effective, ids, y, j);
    var how := EndedJobHasCall(c, effective, ids, y, j);
    P.ReportIs(y.calls[j].fs, y.calls[j].inputs);
    P.EncodeErrorIsReraised(y.calls[j].fs, y.calls[j].inputs);
    CancelledMeans(c, effective, ids, y, j);
  }

  /** Two completed jobs never publish over each other: with distinct ids they were given
      distinct output paths, whatever their sources. */
  lemma OutputsNeverCollide(c: Config, effective: bool, ids: JobId -> string, y: System, j: JobId, k: JobId)
    requires Reaches(c, effective, ids, y) && ids(j) != ids(k)
    requires j in y.jobs.table && y.jobs.table[j].status == Completed
    requires k in y.jobs.table && y.jobs.table[k].status == Completed
    ensures j in y.calls && k in y.calls
    ensures ReportOf(y.calls[j]).outputPath != ReportOf(y.calls[k]).outputPath
  {
    CompletedMeans(c, effective, ids, y, j);
    CompletedMeans(c, effective, ids, y, k);
    P.OutputPathsDiffer(y.calls[j].fs, y.calls[j].inputs.req, y.calls[k].fs, y.calls[k].inputs.req);
  }
}
