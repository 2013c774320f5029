/**
 run_encode as three parties: the child process, the thread that watches for a cancel,
 and the main thread that reads stdout, reaps the child and decides the outcome.

 Every poll, wait, kill and read of the cancel event is a step of its own.  A killed
 child does not exit 0; whether a kill always ends the child within the ten seconds
 main waits for it is a parameter.
 */
module EncodeProcess {
  import opened Wrappers

  datatype Child = Unborn | Alive(doomed: bool) | Gone(code: int)

  datatype Killer = ByWatcher | AfterAbort | AfterTimeout

  /** _watch_cancel's program counter. */
  datatype Watcher = NotStarted | Polling | Listening | Grace | Repolling | Killing | Stopped

  /** How run_encode leaves: it returns, or raises. */
  datatype Outcome =
    | Completed | Cancelled | ExitError | TimedOut | ReadAborted | KillStuck
    | SpawnFailed   // Popen raised
    | WatcherFailed // the watcher thread could not be started

  datatype Main =
    | Spawning
    | Starting      // the child is there, the watcher thread not yet
    | Reading
    | Finally       // the first test of the finally: not completed and poll() is None
    | AbortKill | AbortReap
    | PollAgain     // its second test: poll() is None
    | TimedWait | TimeoutKill | TimeoutReap
    | FinalWait | JoinWatcher | Judging | CheckCancel
    | Ended(outcome: Outcome)

  datatype State = State(child: Child, watcher: Watcher, main: Main, cancel: bool,
                         eof: bool, aborted: bool, expired: bool, code: Option<int>, kills: set<Killer>)

  const INITIAL := State(Unborn, NotStarted, Spawning, false, false, false, false, None, {})

  datatype Label =
    | Spawn | SpawnFails | StartWatcher | WatcherFails | ReadLine | ReachEof | AbortRead
    | MainStep              // any step main can take without waiting for anybody
    | Reap                  // a wait() returns
    | WaitExpires           // wait(timeout=timeout) gives up
    | ReapFails             // wait(timeout=10) after a kill gives up
    | Watch | WatchExpires  // the watcher's step; its wait(0.25) or wait(0.2) running out
    | Exit(code: int) | SetCancel

  predicate IsAlive(s: State) { s.child.Alive? }

  predicate Enabled(effective: bool, s: State, l: Label) {
    match l
    case Spawn => s.main.Spawning?
    case SpawnFails => s.main.Spawning?
    case StartWatcher => s.main.Starting?
    case WatcherFails => s.main.Starting?
    case ReadLine => s.main.Reading?
    case ReachEof => s.main.Reading?
    case AbortRead => s.main.Reading?
    case MainStep =>
      s.main.Finally? || s.main.AbortKill? || s.main.PollAgain? || s.main.TimeoutKill? ||
      s.main.JoinWatcher? || s.main.Judging? || s.main.CheckCancel?
    case Reap =>
      (s.main.AbortReap? || s.main.TimedWait? || s.main.TimeoutReap? || s.main.FinalWait?) && s.child.Gone?
    case WaitExpires => s.main.TimedWait? && IsAlive(s)
    case ReapFails => (s.main.AbortReap? || s.main.TimeoutReap?) && IsAlive(s) && !effective
    case Watch =>
      s.watcher.Polling? || (s.watcher.Listening? && s.cancel) || (s.watcher.Grace? && s.child.Gone?) ||
      s.watcher.Repolling? || s.watcher.Killing?
    case WatchExpires => (s.watcher.Listening? && !s.cancel) || (s.watcher.Grace? && IsAlive(s))
    case Exit(code) => IsAlive(s) && (s.child.doomed ==> code != 0)
    case SetCancel => true
  }

  /** kill() signals a child that has not been seen to exit, and does nothing to one that has. */
  function Killed(s: State, who: Killer): State {
    s.(child := if s.child.Alive? then Alive(true) else s.child, kills := s.kills + {who})
  }

  function MainAfter(s: State): State {
    match s.main
    case Finally => s.(main := if s.aborted && IsAlive(s) then AbortKill else PollAgain)
    case AbortKill => Killed(s, AfterAbort).(main := AbortReap)
    case PollAgain => s.(main := if IsAlive(s) then TimedWait else FinalWait)
    case TimeoutKill => Killed(s, AfterTimeout).(main := TimeoutReap)
    case JoinWatcher => s.(main := if s.aborted then Ended(ReadAborted) else Judging)
    case Judging => s.(main := if s.code == Some(0) then Ended(Completed) else CheckCancel)
    case CheckCancel => s.(main := Ended(if s.cancel then Cancelled else ExitError))
    case _ => s
  }

  function ReapAfter(s: State): State
    requires s.child.Gone?
  {
    match s.main
    case TimeoutReap => s.(main := Ended(TimedOut))
    case FinalWait => s.(main := JoinWatcher, code := Some(s.child.code))
    case _ => s.(main := FinalWait)
  }

  function WatchAfter(s: State): State {
    match s.watcher
    case Polling => s.(watcher := if IsAlive(s) then Listening else Stopped)
    case Listening => s.(watcher := Grace)
    case Grace => s.(watcher := Stopped)
    case Repolling => s.(watcher := if IsAlive(s) then Killing else Stopped)
    case Killing => Killed(s, ByWatcher).(watcher := Stopped)
    case _ => s
  }

  function After(effective: bool, s: State, l: Label): State
    requires Enabled(effective, s, l)
  {
    match l
    case Spawn => s.(child := Alive(false), main := Starting)
    case SpawnFails => s.(main := Ended(SpawnFailed))
    case StartWatcher => s.(watcher := Polling, main := Reading)
    case WatcherFails => s.(main := Ended(WatcherFailed))
    case ReadLine => s
    case ReachEof => s.(main := Finally, eof := true)
    case AbortRead => s.(main := Finally, aborted := true)
    case MainStep => MainAfter(s)
    case Reap => ReapAfter(s)
    case WaitExpires => s.(main := TimeoutKill, expired := true)
    case ReapFails => s.(main := Ended(KillStuck))
    case Watch => WatchAfter(s)
    case WatchExpires => s.(watcher := if s.watcher.Listening? then Polling else Repolling)
    case Exit(code) => s.(child := Gone(code))
    case SetCancel => s.(cancel := true)
  }

  predicate Run(effective: bool, s: State, ls: seq<Label>, t: State)
    decreases |ls|
  {
    if ls == [] then s == t
    else Enabled(effective, s, ls[0]) && Run(effective, After(effective, s, ls[0]), ls[1..], t)
  }

  ghost predicate Reachable(effective: bool, s: State) {
    exists ls :: Run(effective, INITIAL, ls, s)
  }

  // ---- the invariant -----------------------------------------------------

  predicate Verdict(s: State, o: Outcome) {
    match o
    case Completed => s.eof && !s.aborted && !s.expired && s.child == Gone(0)
    case Cancelled => s.eof && !s.aborted && !s.expired && s.child.Gone? && s.child.code != 0 && s.cancel
    case ExitError => s.eof && !s.aborted && !s.expired && s.child.Gone? && s.child.code != 0
    case TimedOut => s.eof && !s.aborted && s.expired && s.child.Gone? && AfterTimeout in s.kills
    case ReadAborted => s.aborted && !s.eof && !s.expired && s.child.Gone?
    case KillStuck => s.eof != s.aborted && s.eof == s.expired && (AfterAbort in s.kills || AfterTimeout in s.kills)
    case WatcherFailed => !s.eof && !s.aborted && !s.expired
    case SpawnFailed => s.child.Unborn? && !s.eof && !s.aborted && !s.expired
  }

  predicate Phase(s: State) {
    match s.main
    case Spawning => s == INITIAL.(cancel := s.cancel)
    case Starting => !s.eof && !s.aborted && !s.expired && s.code.None?
    case Reading => !s.eof && !s.aborted && !s.expired && s.code.None?
    case Finally => s.eof != s.aborted && !s.expired && s.code.None?
    case AbortKill => s.aborted && !s.eof && !s.expired && s.code.None?
    case AbortReap => s.aborted && !s.eof && !s.expired && s.code.None? && AfterAbort in s.kills
    case PollAgain => s.eof != s.aborted && !s.expired && s.code.None? && (s.aborted ==> s.child.Gone?)
    case TimedWait => s.eof && !s.aborted && !s.expired && s.code.None?
    case TimeoutKill => s.eof && !s.aborted && s.expired && s.code.None?
    case TimeoutReap => s.eof && !s.aborted && s.expired && s.code.None? && AfterTimeout in s.kills
    case FinalWait => s.eof != s.aborted && !s.expired && s.child.Gone? && s.code.None?
    case JoinWatcher => s.eof != s.aborted && !s.expired && s.child.Gone? && s.code == Some(s.child.code)
    case Judging => s.eof && !s.aborted && !s.expired && s.child.Gone? && s.code == Some(s.child.code)
    case CheckCancel => s.eof && !s.aborted && !s.expired && s.child.Gone? && s.child.code != 0
    case Ended(o) => Verdict(s, o)
  }

  predicate Inv(effective: bool, s: State) {
    && Phase(s)
    && (s.child.Unborn? <==> s.main.Spawning? || s.main == Ended(SpawnFailed))
    && (s.watcher.NotStarted? <==>
          s.child.Unborn? || s.main.Starting? || s.main == Ended(WatcherFailed))
    && (s.watcher.NotStarted? ==> ByWatcher !in s.kills)
    && (s.watcher.Grace? || s.watcher.Repolling? || s.watcher.Killing? ==> s.cancel)
    && (ByWatcher in s.kills ==> s.cancel)
    && (AfterAbort in s.kills ==> s.aborted)
    && (AfterTimeout in s.kills ==> s.expired)
    && (s.child.Alive? ==> (s.child.doomed <==> s.kills != {}))
    && (s.watcher.Stopped? ==> s.child.Gone? || (s.child.Alive? && s.child.doomed))
    && (s.main == Ended(KillStuck) ==> !effective)
  }

  lemma MainKept(effective: bool, s: State, l: Label)
    requires Inv(effective, s) && Enabled(effective, s, l) && (l.MainStep? || l.Reap?)
    ensures Inv(effective, After(effective, s, l))
  {
  }

  lemma WatcherKept(effective: bool, s: State, l: Label)
    requires Inv(effective, s) && Enabled(effective, s, l) && (l.Watch? || l.WatchExpires?)
    ensures Inv(effective, After(effective, s, l))
  {
  }

  lemma OtherKept(effective: bool, s: State, l: Label)
    requires Inv(effective, s) && Enabled(effective, s, l) && !l.MainStep? && !l.Reap? && !l.Watch? && !l.WatchExpires?
    ensures Inv(effective, After(effective, s, l))
  {
  }

  lemma InvKept(effective: bool, s: State, l: Label)
    requires Inv(effective, s) && Enabled(effective, s, l)
    ensures Inv(effective, After(effective, s, l))
  {
    if l.MainStep? || l.Reap? {
      MainKept(effective, s, l);
    } else if l.Watch? || l.WatchExpires? {
      WatcherKept(effective, s, l);
    } else {
      OtherKept(effective, s, l);
    }
  }

  lemma {:induction false} RunInv(effective: bool, s: State, ls: seq<Label>, t: State)
    requires Inv(effective, s) && Run(effective, s, ls, t)
    ensures Inv(effective, t)
    decreases |ls|
  {
    if ls != [] {
      InvKept(effective, s, ls[0]);
      RunInv(effective, After(effective, s, ls[0]), ls[1..], t);
    }
  }

  lemma ReachableInv(effective: bool, s: State)
    requires Reachable(effective, s)
    ensures Inv(effective, s)
  {
    var ls :| Run(effective, INITIAL, ls, s);
    RunInv(effective, INITIAL, ls, s);
  }

  // ---- what the outcome means --------------------------------------------

  /** A normal return happens exactly when stdout was read to its end, the wait after it
      did not run out, and the child exited 0, whether or not a cancel was set. */
  lemma ReturnsIff(effective: bool, s: State)
    requires Reachable(effective, s) && s.main.Ended?
    ensures s.main.outcome == Completed <==> s.eof && !s.expired && s.child == Gone(0)
  {
    ReachableInv(effective, s);
  }

  /** A cancellation is reported only with the event set and a child that failed. */
  lemma CancelledMeans(effective: bool, s: State)
    requires Reachable(effective, s) && s.main == Ended(Cancelled)
    ensures s.cancel && s.child.Gone? && s.child.code != 0 && s.eof && !s.expired
  {
    ReachableInv(effective, s);
  }

  /** Every other way out, by what went before it. */
  lemma OutcomeMeans(effective: bool, s: State)
    requires Reachable(effective, s) && s.main.Ended?
    ensures s.main.outcome == ReadAborted || (s.main.outcome == KillStuck && !s.expired) <==> s.aborted
    ensures s.main.outcome == TimedOut || (s.main.outcome == KillStuck && s.expired) <==> s.expired
    ensures s.main.outcome == SpawnFailed <==> s.child.Unborn?
    ensures s.main.outcome == WatcherFailed <==> !s.child.Unborn? && s.watcher.NotStarted?
    ensures s.main.outcome == ExitError ==> s.child.Gone? && s.child.code != 0
  {
    ReachableInv(effective, s);
  }

  predicate Failed(child: Child) {
    child.Gone? && child.code != 0
  }

  /** What the step that ends run_encode decides, from what main can see just before it:
      one outcome for each case, and no other. */
  lemma OutcomeIff(effective: bool, s: State, l: Label)
    requires Reachable(effective, s) && !s.main.Ended? && Enabled(effective, s, l) && After(effective, s, l).main.Ended?
    ensures var o := After(effective, s, l).main.outcome;
            && (o == Completed <==> s.eof && !s.expired && s.child == Gone(0))
            && (o == Cancelled <==> s.eof && !s.expired && Failed(s.child) && s.cancel)
            && (o == ExitError <==> s.eof && !s.expired && Failed(s.child) && !s.cancel)
            && (o == TimedOut <==> s.expired && s.child.Gone?)
            && (o == KillStuck <==> (s.expired || s.aborted) && s.child.Alive?)
            && (o == ReadAborted <==> s.aborted && s.child.Gone?)
            && (o == SpawnFailed <==> s.child.Unborn?)
            && (o == WatcherFailed <==> !s.child.Unborn? && s.watcher.NotStarted?)
  {
    ReachableInv(effective, s);
  }

  lemma {:induction false} ToldNeverErrs(effective: bool, s: State, ls: seq<Label>, t: State)
    requires s.cancel && s.main != Ended(ExitError) && Run(effective, s, ls, t)
    ensures t.cancel && t.main != Ended(ExitError)
    decreases |ls|
  {
    if ls != [] {
      ToldNeverErrs(effective, After(effective, s, ls[0]), ls[1..], t);
    }
  }

  /** A cancel set before run_encode ends is reported as such, whatever killed the child:
      if stdout ended, the wait after it did not run out and the child failed, the outcome is
      Cancelled.  An ExitError means no cancel was set at any time before. */
  lemma CancelIsReported(effective: bool, s: State, ls: seq<Label>, t: State)
    requires Reachable(effective, s) && s.cancel && !s.main.Ended?
    requires Run(effective, s, ls, t) && t.main.Ended?
    ensures t.eof && !t.expired && Failed(t.child) ==> t.main == Ended(Cancelled)
    ensures t.main != Ended(ExitError)
  {
    ReachableInv(effective, s);
    RunInv(effective, s, ls, t);
    ToldNeverErrs(effective, s, ls, t);
  }

  /** A kill follows only a cancel, a timeout after the end of stdout, or an aborted read. */
  lemma KillsHaveCauses(effective: bool, s: State)
    requires Reachable(effective, s)
    ensures ByWatcher in s.kills ==> s.cancel
    ensures AfterTimeout in s.kills ==> s.eof && s.expired
    ensures AfterAbort in s.kills ==> s.aborted
    ensures s.child.Alive? && s.child.doomed ==> s.cancel || s.expired || s.aborted
  {
    ReachableInv(effective, s);
    if s.child.Alive? && s.child.doomed {
      var k :| k in s.kills;
      assert k.ByWatcher? || k.AfterAbort? || k.AfterTimeout?;
    }
  }

  /** No way out leaves the child alive but two: a watcher thread that could not be
      started, after which nobody has killed the child or ever will, and a kill that did
      not end the child in time. */
  lemma NoChildLeftBehind(effective: bool, s: State)
    requires Reachable(effective, s) && s.main.Ended?
    ensures s.child.Alive? ==> s.main.outcome == WatcherFailed || (s.main.outcome == KillStuck && !effective)
    ensures s.child.Alive? && s.main.outcome == WatcherFailed ==> s.kills == {} && s.watcher.NotStarted?
  {
    ReachableInv(effective, s);
    if s.child.Alive? && s.main.outcome == WatcherFailed {
      assert s.kills == {} by {
        forall k | k in s.kills ensures false {
          match k
          case ByWatcher =>
          case AfterAbort =>
          case AfterTimeout =>
        }
      }
    }
  }

  /** The child has exited or a kill is on its way. */
  predicate Stopping(s: State) {
    s.child.Gone? || (s.child.Alive? && s.child.doomed)
  }

  lemma StoppingKept(effective: bool, s: State, l: Label)
    requires Inv(effective, s) && Enabled(effective, s, l) && Stopping(s)
    ensures Stopping(After(effective, s, l))
  {
  }

  /** After run_encode, and after the watcher, a child that had one is stopping. */
  lemma OverIsStopping(effective: bool, s: State)
    requires Inv(effective, s) && !s.watcher.NotStarted? && (s.main.Ended? || s.watcher.Stopped?)
    ensures Stopping(s)
  {
  }

  /** The watcher never gives up on a live child it did not kill. */
  lemma WatcherFinishes(effective: bool, s: State)
    requires Reachable(effective, s) && s.watcher.Stopped?
    ensures Stopping(s)
  {
    ReachableInv(effective, s);
  }

  // ---- cancellation reaches the child ------------------------------------

  predicate WatcherMoves(l: Label) {
    l.Watch? || l.WatchExpires?
  }

  function WatchRank(w: Watcher): nat {
    match w
    case Polling => 5
    case Listening => 4
    case Grace => 3
    case Repolling => 2
    case Killing => 1
    case _ => 0
  }

  function WatchCount(ls: seq<Label>): nat {
    if ls == [] then 0 else (if WatcherMoves(ls[0]) then 1 else 0) + WatchCount(ls[1..])
  }

  /** The watcher is never blocked before it stops. */
  lemma WatcherNeverStuck(effective: bool, s: State)
    requires Reachable(effective, s) && !s.watcher.NotStarted? && !s.watcher.Stopped?
    ensures Enabled(effective, s, Watch) || Enabled(effective, s, WatchExpires)
  {
    ReachableInv(effective, s);
  }

  /** The watcher thread was started. */
  predicate Started(s: State) {
    !s.main.Spawning? && !s.main.Starting? && !s.watcher.NotStarted?
  }

  lemma CancelStep(effective: bool, s: State, l: Label)
    requires s.cancel && Started(s) && Enabled(effective, s, l)
    ensures After(effective, s, l).cancel && Started(After(effective, s, l))
    ensures WatchRank(After(effective, s, l).watcher) + (if WatcherMoves(l) then 1 else 0) <= WatchRank(s.watcher)
  {
  }

  /** Once the cancel event is set the watcher's remaining steps are numbered, whatever
      the child and main do meanwhile; so a stalled encode is cancellable. */
  lemma {:induction false} CancelIsBounded(effective: bool, s: State, ls: seq<Label>, t: State)
    requires s.cancel && Started(s) && Run(effective, s, ls, t)
    ensures WatchRank(t.watcher) + WatchCount(ls) <= WatchRank(s.watcher)
    ensures Started(t)
    decreases |ls|
  {
    if ls != [] {
      CancelStep(effective, s, ls[0]);
      CancelIsBounded(effective, After(effective, s, ls[0]), ls[1..], t);
    }
  }

  /** With the watcher started, five of its steps after a cancel the child has exited or
      is being killed. */
  lemma CancelReachesChild(effective: bool, s: State, ls: seq<Label>, t: State)
    requires Reachable(effective, s) && s.cancel && !s.watcher.NotStarted? && Run(effective, s, ls, t)
    requires WatchCount(ls) >= 5
    ensures Stopping(t)
  {
    ReachableInv(effective, s);
    CancelIsBounded(effective, s, ls, t);
    RunInv(effective, s, ls, t);
  }

  // ---- runs written out --------------------------------------------------

  lemma {:induction false} RunAppend(effective: bool, s: State, ls: seq<Label>, t: State, l: Label)
    requires Run(effective, s, ls, t) && Enabled(effective, t, l)
    ensures Run(effective, s, ls + [l], After(effective, t, l))
    decreases |ls|
  {
    if ls == [] {
      assert [l][1..] == [];
    } else {
      assert (ls + [l])[1..] == ls[1..] + [l];
      RunAppend(effective, After(effective, s, ls[0]), ls[1..], t, l);
    }
  }

  lemma Take(effective: bool, ls: seq<Label>, s: State, l: Label, t: State) returns (ls': seq<Label>)
    requires Run(effective, INITIAL, ls, s) && Enabled(effective, s, l) && t == After(effective, s, l)
    ensures Run(effective, INITIAL, ls', t)
  {
    RunAppend(effective, INITIAL, ls, s, l);
    ls' := ls + [l];
  }

  const BORN := INITIAL.(child := Alive(false), main := Starting)
  const READING := State(Alive(false), Polling, Reading, false, false, false, false, None, {})

  lemma ReadingRun(effective: bool) returns (ls: seq<Label>)
    ensures Run(effective, INITIAL, ls, READING)
  {
    ls := Take(effective, [], INITIAL, Spawn, BORN);
    ls := Take(effective, ls, BORN, StartWatcher, READING);
  }

  /** The child outlives a run_encode that could not start its watcher. */
  lemma UnwatchedChildSurvives(effective: bool) returns (ls: seq<Label>)
    ensures Run(effective, INITIAL, ls, BORN.(main := Ended(WatcherFailed)))
  {
    ls := Take(effective, [], INITIAL, Spawn, BORN);
    ls := Take(effective, ls, BORN, WatcherFails, BORN.(main := Ended(WatcherFailed)));
  }

  const STUCK := State(Alive(true), Polling, Ended(KillStuck), false, false, true, false, None, {AfterAbort})

  lemma UnkillableChildSurvives() returns (ls: seq<Label>)
    ensures Run(false, INITIAL, ls, STUCK)
  {
    ls := ReadingRun(false);
    var s := READING.(main := Finally, aborted := true);
    ls := Take(false, ls, READING, AbortRead, s);
    ls := Take(false, ls, s, MainStep, s.(main := AbortKill));
    var t := STUCK.(main := AbortReap);
    assert {} + {AfterAbort} == {AfterAbort};
    ls := Take(false, ls, s.(main := AbortKill), MainStep, t);
    ls := Take(false, ls, t, ReapFails, STUCK);
  }

  /** run_encode can leave a live child behind. */
  ghost predicate LeavesChild(effective: bool, o: Outcome) {
    exists s :: Reachable(effective, s) && s.main == Ended(o) && s.child.Alive?
  }

  /** Exactly two outcomes can leave it alive. */
  lemma LeavesChildIff(effective: bool, o: Outcome)
    ensures LeavesChild(effective, o) <==> o == WatcherFailed || (o == KillStuck && !effective)
  {
    if LeavesChild(effective, o) {
      var s :| Reachable(effective, s) && s.main == Ended(o) && s.child.Alive?;
      NoChildLeftBehind(effective, s);
    }
    if o == WatcherFailed {
      var ls := UnwatchedChildSurvives(effective);
      assert Reachable(effective, BORN.(main := Ended(WatcherFailed)));
    } else if o == KillStuck && !effective {
      var ls := UnkillableChildSurvives();
      assert Reachable(effective, STUCK);
    }
  }

  const NOTICED := State(Gone(0), Grace, Finally, true, true, false, false, None, {})
  const LATE := State(Gone(0), Grace, Ended(Completed), true, true, false, false, Some(0), {})

  lemma NoticedRun(effective: bool) returns (ls: seq<Label>)
    ensures Run(effective, INITIAL, ls, NOTICED)
  {
    ls := ReadingRun(effective);
    ls := Take(effective, ls, READING, Watch, READING.(watcher := Listening));
    var told := READING.(watcher := Listening, cancel := true);
    ls := Take(effective, ls, READING.(watcher := Listening), SetCancel, told);
    var s := READING.(watcher := Grace, cancel := true);
    ls := Take(effective, ls, told, Watch, s);
    ls := Take(effective, ls, s, Exit(0), s.(child := Gone(0)));
    ls := Take(effective, ls, s.(child := Gone(0)), ReachEof, NOTICED);
  }

  /** A cancel that the watcher has already noticed does not undo a clean exit. */
  lemma LateCancelIsNoCancel(effective: bool) returns (ls: seq<Label>)
    ensures Run(effective, INITIAL, ls, LATE)
  {
    ls := NoticedRun(effective);
    ls := Take(effective, ls, NOTICED, MainStep, NOTICED.(main := PollAgain));
    ls := Take(effective, ls, NOTICED.(main := PollAgain), MainStep, NOTICED.(main := FinalWait));
    var s := NOTICED.(main := JoinWatcher, code := Some(0));
    ls := Take(effective, ls, NOTICED.(main := FinalWait), Reap, s);
    ls := Take(effective, ls, s, MainStep, s.(main := Judging));
    ls := Take(effective, ls, s.(main := Judging), MainStep, LATE);
  }

  /** From the finally to the join of the watcher, with a child that has exited. */
  lemma ReapedRun(effective: bool, ls: seq<Label>, s: State) returns (ls': seq<Label>, t: State)
    requires Run(effective, INITIAL, ls, s) && s.main.Finally? && s.child.Gone?
    ensures t == s.(main := JoinWatcher, code := Some(s.child.code)) && Run(effective, INITIAL, ls', t)
  {
    ls' := Take(effective, ls, s, MainStep, s.(main := PollAgain));
    ls' := Take(effective, ls', s.(main := PollAgain), MainStep, s.(main := FinalWait));
    t := s.(main := JoinWatcher, code := Some(s.child.code));
    ls' := Take(effective, ls', s.(main := FinalWait), Reap, t);
  }

  /** A child that fails while it prints, with or without a cancel. */
  lemma FailedRun(effective: bool, cancel: bool) returns (ls: seq<Label>)
    ensures Run(effective, INITIAL, ls, READING.(child := Gone(1), cancel := cancel, eof := true, main := Finally))
  {
    ls := ReadingRun(effective);
    var s := READING.(cancel := cancel);
    if cancel {
      ls := Take(effective, ls, READING, SetCancel, s);
    }
    ls := Take(effective, ls, s, Exit(1), s.(child := Gone(1)));
    ls := Take(effective, ls, s.(child := Gone(1)), ReachEof, s.(child := Gone(1), eof := true, main := Finally));
  }

  lemma JudgedRun(effective: bool, ls: seq<Label>, s: State) returns (t: State)
    requires Run(effective, INITIAL, ls, s) && s.main.JoinWatcher? && !s.aborted
    requires s.code.Some? && s.code != Some(0)
    ensures Reachable(effective, t) && t.main == Ended(if s.cancel then Cancelled else ExitError)
  {
    var judging, checking := s.(main := Judging), s.(main := CheckCancel);
    var ls' := Take(effective, ls, s, MainStep, judging);
    ls' := Take(effective, ls', judging, MainStep, checking);
    t := s.(main := Ended(if s.cancel then Cancelled else ExitError));
    ls' := Take(effective, ls', checking, MainStep, t);
  }

  lemma FailedEnds(effective: bool, cancel: bool) returns (t: State)
    ensures Reachable(effective, t) && t.main == Ended(if cancel then Cancelled else ExitError)
  {
    var ls := FailedRun(effective, cancel);
    var s := READING.(child := Gone(1), cancel := cancel, eof := true, main := Finally);
    var u: State;
    ls, u := ReapedRun(effective, ls, s);
    t := JudgedRun(effective, ls, u);
  }

  const EXPIRED := READING.(eof := true, main := TimeoutKill, expired := true)

  lemma ExpiredRun(effective: bool) returns (ls: seq<Label>)
    ensures Run(effective, INITIAL, ls, EXPIRED)
  {
    ls := ReadingRun(effective);
    var s := READING.(eof := true, main := Finally);
    ls := Take(effective, ls, READING, ReachEof, s);
    ls := Take(effective, ls, s, MainStep, s.(main := PollAgain));
    ls := Take(effective, ls, s.(main := PollAgain), MainStep, s.(main := TimedWait));
    ls := Take(effective, ls, s.(main := TimedWait), WaitExpires, EXPIRED);
  }

  lemma TimeoutEnds(effective: bool) returns (t: State)
    ensures Reachable(effective, t) && t.main == Ended(TimedOut)
  {
    var ls := ExpiredRun(effective);
    var v := EXPIRED.(main := TimeoutReap, child := Alive(true), kills := {AfterTimeout});
    assert {} + {AfterTimeout} == {AfterTimeout};
    ls := Take(effective, ls, EXPIRED, MainStep, v);
    ls := Take(effective, ls, v, Exit(1), v.(child := Gone(1)));
    t := v.(child := Gone(1), main := Ended(TimedOut));
    ls := Take(effective, ls, v.(child := Gone(1)), Reap, t);
  }

  lemma AbortEnds(effective: bool) returns (t: State)
    ensures Reachable(effective, t) && t.main == Ended(ReadAborted)
  {
    var ls := ReadingRun(effective);
    var s := READING.(aborted := true, main := Finally);
    ls := Take(effective, ls, READING, AbortRead, s);
    var u := s.(child := Gone(1));
    ls := Take(effective, ls, s, Exit(1), u);
    var v: State;
    ls, v := ReapedRun(effective, ls, u);
    t := v.(main := Ended(ReadAborted));
    ls := Take(effective, ls, v, MainStep, t);
  }

  /** None of the outcomes is there for show: each can happen. */
  lemma EveryOutcomeHappens(effective: bool, o: Outcome)
    requires o == KillStuck ==> !effective
    ensures exists s :: Reachable(effective, s) && s.main == Ended(o)
  {
    match o
    case Completed =>
      var ls := LateCancelIsNoCancel(effective);
      assert Reachable(effective, LATE);
    case Cancelled => var t := FailedEnds(effective, true);
    case ExitError => var t := FailedEnds(effective, false);
    case TimedOut => var t := TimeoutEnds(effective);
    case ReadAborted => var t := AbortEnds(effective);
    case KillStuck =>
      var ls := UnkillableChildSurvives();
      assert Reachable(effective, STUCK);
    case WatcherFailed =>
      var ls := UnwatchedChildSurvives(effective);
      assert Reachable(effective, BORN.(main := Ended(WatcherFailed)));
    case SpawnFailed =>
      var ls := Take(effective, [], INITIAL, SpawnFails, INITIAL.(main := Ended(SpawnFailed)));
      assert Reachable(effective, INITIAL.(main := Ended(SpawnFailed)));
  }
}
