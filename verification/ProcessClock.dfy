/**
 The three-party machine of run_encode with a clock, in seconds: what its timeouts bound,
 and what they do not.

 The waits take time: for the child after the end of stdout (the timeout), for the child
 after a kill (ten seconds) and for the watcher (one).  So do Popen, the start of the
 watcher and the read loop, without a limit.  Main's other steps take none.
 */
module ProcessClock {
  import opened Wrappers
  import opened EncodeProcess

  const REAP := 10.0
  const JOIN := 1.0

  /** How long main may stay where it is. */
  function Limit(timeout: real, m: Main): Option<real> {
    match m
    case Spawning => None
    case Starting => None
    case Reading => None
    case Ended(_) => None
    case TimedWait => Some(timeout)
    case AbortReap => Some(REAP)
    case TimeoutReap => Some(REAP)
    case JoinWatcher => Some(JOIN)
    case _ => Some(0.0)
  }

  /** A step and the time that passes before it. */
  datatype Tick = Tick(delay: real, step: Label)

  /** The time since the start, the part of it after the read loop and before the end, and
      the part main has spent where it is. */
  datatype Clock = Clock(now: real, after: real, here: real)

  const ZERO := Clock(0.0, 0.0, 0.0)

  function Passed(timeout: real, s: State, k: Clock, delay: real, t: State): Clock {
    Clock(k.now + delay, if Limit(timeout, s.main).Some? then k.after + delay else k.after,
          if t.main == s.main then k.here + delay else 0.0)
  }

  /** A wait ends by its limit, and gives up exactly there. */
  predicate OnTime(timeout: real, s: State, k: Clock, t: Tick) {
    && t.delay >= 0.0
    && (Limit(timeout, s.main).Some? ==>
          var limit := Limit(timeout, s.main).value;
          k.here + t.delay <= limit && (t.step.WaitExpires? || t.step.ReapFails? ==> k.here + t.delay == limit))
  }

  predicate TimedRun(effective: bool, timeout: real, s: State, k: Clock, ts: seq<Tick>, t: State, m: Clock)
    decreases |ts|
  {
    if ts == [] then s == t && k == m
    else
      && Enabled(effective, s, ts[0].step) && OnTime(timeout, s, k, ts[0])
      && var u := After(effective, s, ts[0].step);
         TimedRun(effective, timeout, u, Passed(timeout, s, k, ts[0].delay, u), ts[1..], t, m)
  }

  /** The longest wait before the last one of main, the join of the watcher. */
  function Waited(timeout: real, s: State): real {
    if s.aborted then REAP else timeout
  }

  /** How much time an outcome can have taken after the read loop. */
  predicate EndsInTime(timeout: real, s: State, o: Outcome, after: real) {
    match o
    case Completed => after <= timeout + JOIN
    case Cancelled => after <= timeout + JOIN
    case ExitError => after <= timeout + JOIN
    case TimedOut => timeout <= after <= timeout + REAP
    case ReadAborted => after <= REAP + JOIN
    case KillStuck => after == (if s.aborted then 0.0 else timeout) + REAP
    case _ => after == 0.0
  }

  predicate InTime(timeout: real, s: State, k: Clock) {
    && k.here >= 0.0
    && match s.main
       case AbortReap => k.after == k.here <= REAP
       case TimedWait => k.after == k.here <= timeout
       case TimeoutKill => k.after == timeout && k.here == 0.0
       case TimeoutReap => k.after == timeout + k.here && k.here <= REAP
       case FinalWait => 0.0 <= k.after <= Waited(timeout, s) && k.here == 0.0
       case JoinWatcher => 0.0 <= k.after <= Waited(timeout, s) + k.here && k.here <= JOIN
       case Judging => 0.0 <= k.after <= timeout + JOIN && k.here == 0.0
       case CheckCancel => 0.0 <= k.after <= timeout + JOIN && k.here == 0.0
       case Ended(o) => EndsInTime(timeout, s, o, k.after)
       case Finally => k.after == 0.0 && k.here == 0.0
       case AbortKill => k.after == 0.0 && k.here == 0.0
       case PollAgain => k.after == 0.0 && k.here == 0.0
       case _ => k.after == 0.0
  }

  lemma MainInTime(effective: bool, timeout: real, s: State, k: Clock, t: Tick)
    requires timeout >= 0.0 && Inv(effective, s) && InTime(timeout, s, k)
    requires Enabled(effective, s, t.step) && OnTime(timeout, s, k, t)
    requires t.step.MainStep?
    ensures var u := After(effective, s, t.step); InTime(timeout, u, Passed(timeout, s, k, t.delay, u))
  {
  }

  lemma ReapInTime(effective: bool, timeout: real, s: State, k: Clock, t: Tick)
    requires timeout >= 0.0 && Inv(effective, s) && InTime(timeout, s, k)
    requires Enabled(effective, s, t.step) && OnTime(timeout, s, k, t)
    requires t.step.Reap?
    ensures var u := After(effective, s, t.step); InTime(timeout, u, Passed(timeout, s, k, t.delay, u))
  {
  }

  /** The steps into and out of the read loop, and a wait that gives up. */
  lemma LeaveInTime(effective: bool, timeout: real, s: State, k: Clock, t: Tick)
    requires timeout >= 0.0 && Inv(effective, s) && InTime(timeout, s, k)
    requires Enabled(effective, s, t.step) && OnTime(timeout, s, k, t)
    requires t.step.Spawn? || t.step.SpawnFails? || t.step.StartWatcher? || t.step.WatcherFails? || t.step.ReachEof? ||
             t.step.AbortRead? || t.step.WaitExpires? || t.step.ReapFails?
    ensures var u := After(effective, s, t.step); InTime(timeout, u, Passed(timeout, s, k, t.delay, u))
  {
  }

  /** A step of another party leaves main where it is. */
  lemma StayInTime(effective: bool, timeout: real, s: State, k: Clock, t: Tick)
    requires timeout >= 0.0 && Inv(effective, s) && InTime(timeout, s, k)
    requires Enabled(effective, s, t.step) && OnTime(timeout, s, k, t)
    requires t.step.Watch? || t.step.WatchExpires? || t.step.Exit? || t.step.SetCancel? || t.step.ReadLine?
    ensures var u := After(effective, s, t.step); InTime(timeout, u, Passed(timeout, s, k, t.delay, u))
  {
  }

  lemma InTimeKept(effective: bool, timeout: real, s: State, k: Clock, t: Tick)
    requires timeout >= 0.0 && Inv(effective, s) && InTime(timeout, s, k)
    requires Enabled(effective, s, t.step) && OnTime(timeout, s, k, t)
    ensures var u := After(effective, s, t.step); InTime(timeout, u, Passed(timeout, s, k, t.delay, u))
  {
    if t.step.MainStep? {
      MainInTime(effective, timeout, s, k, t);
    } else if t.step.Reap? {
      ReapInTime(effective, timeout, s, k, t);
    } else if t.step.Watch? || t.step.WatchExpires? || t.step.Exit? || t.step.SetCancel? || t.step.ReadLine? {
      StayInTime(effective, timeout, s, k, t);
    } else {
      LeaveInTime(effective, timeout, s, k, t);
    }
  }

  lemma {:induction false} TimedInv(effective: bool, timeout: real, s: State, k: Clock, ts: seq<Tick>,
                                   t: State, m: Clock)
    requires timeout >= 0.0 && Inv(effective, s) && InTime(timeout, s, k)
    requires TimedRun(effective, timeout, s, k, ts, t, m)
    ensures Inv(effective, t) && InTime(timeout, t, m)
    decreases |ts|
  {
    if ts != [] {
      var u := After(effective, s, ts[0].step);
      InvKept(effective, s, ts[0].step);
      InTimeKept(effective, timeout, s, k, ts[0]);
      TimedInv(effective, timeout, u, Passed(timeout, s, k, ts[0].delay, u), ts[1..], t, m);
    }
  }

  /** What the timeouts bound: from the end of the read loop, clean or aborted, to the end
      of run_encode at most the timeout and eleven seconds pass, whatever the child and the
      watcher do meanwhile; and it times out no sooner than the timeout, and no later than
      ten seconds after it. */
  lemma EndIsBounded(effective: bool, timeout: real, ts: seq<Tick>, t: State, m: Clock)
    requires timeout >= 0.0 && TimedRun(effective, timeout, INITIAL, ZERO, ts, t, m)
    ensures m.after <= timeout + 11.0
    ensures t.aborted ==> m.after <= 11.0
    ensures t.main == Ended(TimedOut) ==> timeout <= m.after <= timeout + 10.0
    ensures t.main.Ended? && t.main.outcome in {Completed, Cancelled, ExitError} ==> m.after <= timeout + 1.0
    ensures t.main == Ended(KillStuck) ==> m.after == (if t.aborted then 10.0 else timeout + 10.0)
  {
    TimedInv(effective, timeout, INITIAL, ZERO, ts, t, m);
  }

  /** Main is never held up beyond that: at the limit of any wait it has a step, or the
      killed child is about to exit. */
  lemma LimitIsNoDeadlock(effective: bool, timeout: real, s: State, k: Clock) returns (l: Label)
    requires Reachable(effective, s) && Limit(timeout, s.main).Some?
    requires k.here == Limit(timeout, s.main).value
    ensures Enabled(effective, s, l) && OnTime(timeout, s, k, Tick(0.0, l))
    ensures l.MainStep? || l.Reap? || l.WaitExpires? || l.ReapFails? || (l.Exit? && s.child == Alive(true))
  {
    ReachableInv(effective, s);
    if s.main.AbortReap? || s.main.TimedWait? || s.main.TimeoutReap? || s.main.FinalWait? {
      l := if s.child.Gone? then Reap
           else if s.main.TimedWait? then WaitExpires
           else if effective then Exit(1)
           else ReapFails;
    } else {
      l := MainStep;
    }
  }

  lemma {:induction false} ReadsTakeTime(effective: bool, timeout: real, n: nat, k: Clock)
    returns (ts: seq<Tick>, m: Clock)
    ensures TimedRun(effective, timeout, READING, k, ts, READING, m)
    ensures m.now == k.now + n as real && m.after == k.after
    ensures forall i :: 0 <= i < |ts| ==> ts[i] == Tick(1.0, ReadLine)
    decreases n
  {
    ts, m := [], k;
    if n > 0 {
      var u := Passed(timeout, READING, k, 1.0, READING);
      var rest, r := ReadsTakeTime(effective, timeout, n - 1, u);
      ts, m := [Tick(1.0, ReadLine)] + rest, r;
      assert ts[1..] == rest;
    }
  }

  /** What they do not: the read loop.  For any bound computed from the timeout there is a
      run still reading after it, a line every second, never killed and never expired. */
  lemma {:induction false} ReadLoopIsUnbounded(effective: bool, timeout: real, bound: real -> nat)
    returns (ts: seq<Tick>, m: Clock)
    ensures TimedRun(effective, timeout, INITIAL, ZERO, ts, READING, m)
    ensures m.now > bound(timeout) as real && forall i :: 0 <= i < |ts| ==> ts[i].delay <= 1.0
  {
    var lines, r := ReadsTakeTime(effective, timeout, bound(timeout) + 1, ZERO);
    m := r;
    var rest := [Tick(0.0, StartWatcher)] + lines;
    ts := [Tick(0.0, Spawn)] + rest;
    assert ts[1..] == rest && rest[1..] == lines;
    assert TimedRun(effective, timeout, BORN, ZERO, rest, READING, m);
  }

  // ---- the bound is attained ---------------------------------------------

  lemma {:induction false} TimedAppend(timeout: real, s: State, k: Clock, ts: seq<Tick>, t: State, m: Clock, tick: Tick)
    requires TimedRun(true, timeout, s, k, ts, t, m)
    requires Enabled(true, t, tick.step) && OnTime(timeout, t, m, tick)
    ensures var u := After(true, t, tick.step);
            TimedRun(true, timeout, s, k, ts + [tick], u, Passed(timeout, t, m, tick.delay, u))
    decreases |ts|
  {
    if ts == [] {
      assert [] + [tick] == [tick] && [tick][1..] == [];
      var u := After(true, t, tick.step);
      var end := Passed(timeout, t, m, tick.delay, u);
      assert TimedRun(true, timeout, u, end, [], u, end);
    } else {
      assert (ts + [tick])[1..] == ts[1..] + [tick];
      var v := After(true, s, ts[0].step);
      TimedAppend(timeout, v, Passed(timeout, s, k, ts[0].delay, v), ts[1..], t, m, tick);
    }
  }

  /** One more step of a timed run from the start. */
  lemma Pass(timeout: real, ts: seq<Tick>, s: State, k: Clock, delay: real, l: Label, t: State)
    returns (us: seq<Tick>, m: Clock)
    requires TimedRun(true, timeout, INITIAL, ZERO, ts, s, k) && Enabled(true, s, l) && t == After(true, s, l)
    requires OnTime(timeout, s, k, Tick(delay, l))
    ensures TimedRun(true, timeout, INITIAL, ZERO, us, t, m) && m == Passed(timeout, s, k, delay, t)
  {
    TimedAppend(timeout, INITIAL, ZERO, ts, s, k, Tick(delay, l));
    us, m := ts + [Tick(delay, l)], Passed(timeout, s, k, delay, t);
  }

  const WAITING := READING.(eof := true, main := TimedWait)

  lemma WaitingRun(timeout: real) returns (ts: seq<Tick>)
    ensures TimedRun(true, timeout, INITIAL, ZERO, ts, WAITING, ZERO)
  {
    var m: Clock;
    ts, m := Pass(timeout, [], INITIAL, ZERO, 0.0, Spawn, BORN);
    ts, m := Pass(timeout, ts, BORN, ZERO, 0.0, StartWatcher, READING);
    var s := READING.(eof := true, main := Finally);
    ts, m := Pass(timeout, ts, READING, ZERO, 0.0, ReachEof, s);
    ts, m := Pass(timeout, ts, s, ZERO, 0.0, MainStep, s.(main := PollAgain));
    ts, m := Pass(timeout, ts, s.(main := PollAgain), ZERO, 0.0, MainStep, WAITING);
  }

  const JOINING := WAITING.(child := Gone(0), main := JoinWatcher, code := Some(0))

  lemma JoiningRun(timeout: real) returns (ts: seq<Tick>)
    requires timeout >= 0.0
    ensures TimedRun(true, timeout, INITIAL, ZERO, ts, JOINING, Clock(timeout, timeout, 0.0))
  {
    var m: Clock;
    ts := WaitingRun(timeout);
    var s := WAITING.(child := Gone(0));
    var here, there := Clock(timeout, timeout, timeout), Clock(timeout, timeout, 0.0);
    ts, m := Pass(timeout, ts, WAITING, ZERO, timeout, Exit(0), s);
    assert m == here;
    ts, m := Pass(timeout, ts, s, here, 0.0, Reap, s.(main := FinalWait));
    assert m == there;
    ts, m := Pass(timeout, ts, s.(main := FinalWait), there, 0.0, Reap, JOINING);
  }

  /** A child that uses the whole timeout, and a watcher that does not end: run_encode
      returns after the timeout and one second, not before. */
  lemma BoundIsAttained(timeout: real) returns (ts: seq<Tick>, t: State, m: Clock)
    requires timeout >= 0.0
    ensures TimedRun(true, timeout, INITIAL, ZERO, ts, t, m)
    ensures t.main == Ended(Completed) && m.after == timeout + 1.0
  {
    ts := JoiningRun(timeout);
    var s := JOINING.(main := Judging);
    ts, m := Pass(timeout, ts, JOINING, Clock(timeout, timeout, 0.0), 1.0, MainStep, s);
    t := s.(main := Ended(Completed));
    ts, m := Pass(timeout, ts, s, m, 0.0, MainStep, t);
  }
}
