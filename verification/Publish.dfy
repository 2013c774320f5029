/**
 run_encode_job: claim a staging name, encode into it, check that it still is the
 claimed file, publish it by rename, and clean up on every way out.

 Between any two system calls other processes may make calls of their own (the lists in
 `Gaps`; `during` holds the encoder's), and any system call may fail (`Faults`).
 */
module Publish {
  import opened Wrappers
  import opened FileSystem
  import EncodeProcess
  import Paths
  import Presets

  datatype Exn =
    | PathNotAllowed
    | SourceNotFound
    | BadPreset(error: Presets.PresetError)
    | OsError
    | Unserializable
    | FromEncode(how: EncodeProcess.Outcome)

  datatype Outcome = Done | Raised(e: Exn)

  /** How validate_source_path refuses a path. */
  datatype Refusal = OutsideRoots | Missing

  datatype Request = Request(validated: Result<Path, Refusal>, doc: Presets.Children, preset: string,
                             id: string, token: string)

  datatype Gaps = Gaps(beforeClaim: seq<Op>, during: seq<Op>, beforeStat: seq<Op>, beforeClose: seq<Op>,
                       beforeRename: seq<Op>, beforeCleanup: seq<Op>, beforeRemove: seq<Op>, beforeFinal: seq<Op>)

  datatype Faults = Faults(claim: bool, temp: bool, dump: bool, stat: bool, close: bool, replace: bool,
                           cleanupClose: bool, finalClose: bool, remove: bool)

  const NO_FAULTS := Faults(false, false, false, false, false, false, false, false, false)

  /** `hint` is the inode number the kernel would reuse for the claim; `encode` is how
      run_encode leaves.  If os.close is repeated, `handlerOwner` and `finalOwner` are the
      descriptor of another thread that may have been given the number meanwhile. */
  datatype Inputs = Inputs(req: Request, hint: Ino, gaps: Gaps, faults: Faults, encode: EncodeProcess.Outcome,
                           handlerOwner: Option<nat>, finalOwner: Option<nat>)

  datatype Plan = Plan(src: Path, dst: Path, staging: Path, encoder: string)

  function PathsOf(fs: Fs, src: Path, id: string, ext: string, token: string, encoder: string): Result<Plan, Exn> {
    match Paths.DeriveOutputPath(src, id, ext)
    case Failure(_) => Failure(PathNotAllowed)
    case Success(dst) =>
      if RealPath(fs, dst, MAX_LINKS) == src then Failure(PathNotAllowed)
      else match Paths.DeriveStagingPath(src, id, ext, token)
        case Failure(_) => Failure(PathNotAllowed)
        case Success(staging) => Success(Plan(src, dst, staging, encoder))
  }

  /** Everything run_encode_job decides before it touches the disk. */
  function PlanOf(fs: Fs, req: Request): Result<Plan, Exn> {
    match req.validated
    case Failure(OutsideRoots) => Failure(PathNotAllowed)
    case Failure(Missing) => Failure(SourceNotFound)
    case Success(src) =>
      match Presets.FindPreset(req.doc, req.preset)
      case Failure(e) => Failure(BadPreset(e))
      case Success(leaf) =>
        match Presets.EncoderOf(leaf)
        case Failure(e) => Failure(BadPreset(e))
        case Success(encoder) =>
          match Presets.ExtensionOf(leaf)
          case Failure(e) => Failure(BadPreset(e))
          case Success(ext) => PathsOf(fs, src, req.id, ext, req.token, encoder)
  }

  /** Where the job stands: `open` is whether the variable fd still holds a descriptor,
      `closes` counts the calls of os.close. */
  datatype Attempt = Attempt(fs: Fs, open: bool, closes: nat, outcome: Outcome, renamed: bool)

  /** Once run_encode has returned: the identity check, the close and the rename. */
  function Publishing(fs: Fs, p: Plan, i: Inputs): Attempt {
    if i.faults.stat || Resolve(fs, p.staging).None? then Attempt(fs, true, 0, Raised(OsError), false)
    else if Resolve(fs, p.staging) != fs.mine then Attempt(fs, true, 0, Raised(PathNotAllowed), false)
    else
      var closed := Released(ApplyAll(fs, i.gaps.beforeClose));
      if i.faults.close then Attempt(closed, true, 1, Raised(OsError), false)
      else
        var ready := ApplyAll(closed, i.gaps.beforeRename);
        if i.faults.replace || p.staging !in ready.names then Attempt(ready, false, 1, Raised(OsError), false)
        else Attempt(Renamed(ready, p.staging, p.dst), false, 1, Done, true)
  }

  function AtEncodeEnd(fs: Fs, i: Inputs): Fs {
    ApplyAll(fs, i.gaps.during)
  }

  /** The state the identity check sees. */
  function AtCheck(fs: Fs, i: Inputs): Fs {
    ApplyAll(AtEncodeEnd(fs, i), i.gaps.beforeStat)
  }

  /** The inner try: the encode and the publishing. */
  function Encoding(fs: Fs, p: Plan, i: Inputs): Attempt {
    if i.encode != EncodeProcess.Completed then
      Attempt(AtEncodeEnd(fs, i), true, 0, Raised(FromEncode(i.encode)), false)
    else Publishing(AtCheck(fs, i), p, i)
  }

  function AtCleanup(a: Attempt, i: Inputs): Fs {
    ApplyAll(a.fs, i.gaps.beforeCleanup)
  }

  datatype Closed = Closed(fs: Fs, ok: bool)

  /** os.close of the claimed descriptor.  It is released even when the call reports an
      error.  Repeated after that, the call closes whatever other descriptor has the number
      by then, and raises if none has. */
  function CloseCall(fs: Fs, fault: bool, owner: Option<nat>): Closed {
    if fs.mine.Some? then Closed(Released(fs), !fault)
    else if owner.Some? && owner.value in fs.fds then Closed(Apply(fs, Close(owner.value)), !fault)
    else Closed(fs, false)
  }

  /** The handler's close, if the variable fd asks for it. */
  function HandlerClose(a: Attempt, i: Inputs): Closed {
    if a.open then CloseCall(AtCleanup(a, i), i.faults.cleanupClose, i.handlerOwner) else Closed(AtCleanup(a, i), true)
  }

  function AtRemove(a: Attempt, i: Inputs): Fs {
    ApplyAll(HandlerClose(a, i).fs, i.gaps.beforeRemove)
  }

  /** The inner try's handler. */
  function Cleanup(a: Attempt, p: Plan, i: Inputs): Attempt {
    if !HandlerClose(a, i).ok then Attempt(HandlerClose(a, i).fs, true, a.closes + 1, Raised(OsError), false)
    else
      var fs := AtRemove(a, i);
      Attempt(if p.staging in fs.names && !i.faults.remove then Unlinked(fs, p.staging) else fs,
              false, a.closes + (if a.open then 1 else 0), a.outcome, false)
  }

  /** `tried` is whether the removal of the preset file is attempted. */
  datatype Report = Report(fs: Fs, outcome: Outcome, claimed: bool, encoded: bool, renamed: bool,
                           closes: nat, tried: bool, outputPath: Option<Path>)

  function TryBody(fs: Fs, p: Plan, i: Inputs): Attempt {
    if i.faults.dump then Attempt(fs, true, 0, Raised(Unserializable), false)
    else
      var a := Encoding(fs, p, i);
      if a.outcome.Done? then a else Cleanup(a, p, i)
  }

  /** The state the last close meets, if it is made. */
  function AtFinal(a: Attempt, i: Inputs): Fs {
    ApplyAll(a.fs, i.gaps.beforeFinal)
  }

  /** The outer finally: the last close, and the removal of the preset file. */
  function Finish(a: Attempt, p: Plan, i: Inputs): Report {
    var encoded := !i.faults.dump;
    if a.open then
      var last := CloseCall(AtFinal(a, i), i.faults.finalClose, i.finalOwner);
      Report(last.fs, if last.ok then a.outcome else Raised(OsError), true, encoded, a.renamed,
             a.closes + 1, last.ok, Some(p.dst))
    else Report(a.fs, a.outcome, true, encoded, a.renamed, a.closes, true, Some(p.dst))
  }

  function AtClaim(fs: Fs, i: Inputs): Fs {
    ApplyAll(fs, i.gaps.beforeClaim)
  }

  /** The exclusive claim of the staging name succeeds. */
  predicate Claims(fs: Fs, i: Inputs) {
    PlanOf(fs, i.req).Success? && !i.faults.claim && PlanOf(fs, i.req).value.staging !in AtClaim(fs, i).names
  }

  function WithClaim(fs: Fs, i: Inputs): Fs
    requires Claims(fs, i)
  {
    Claimed(AtClaim(fs, i), PlanOf(fs, i.req).value.staging, i.hint)
  }

  function RunJob(fs: Fs, i: Inputs): Report {
    match PlanOf(fs, i.req)
    case Failure(e) => Report(fs, Raised(e), false, false, false, 0, false, None)
    case Success(p) =>
      if !Claims(fs, i) then Report(AtClaim(fs, i), Raised(PathNotAllowed), false, false, false, 0, false, None)
      else if i.faults.temp then
        Report(WithClaim(fs, i), Raised(OsError), true, false, false, 0, false, Some(p.dst))
      else Finish(TryBody(WithClaim(fs, i), p, i), p, i)
  }

  // ---- the imperative form -----------------------------------------------

  class Host {
    var fs: Fs

    constructor (fs: Fs)
      ensures this.fs == fs
    {
      this.fs := fs;
    }

    /** Other processes run. */
    method Others(ops: seq<Op>)
      modifies this
      ensures fs == ApplyAll(old(fs), ops) && fs.mine == old(fs).mine
    {
      MineKept(fs, ops);
      var rest := ops;
      while rest != []
        invariant ApplyAll(fs, rest) == ApplyAll(old(fs), ops)
        decreases |rest|
      {
        fs := Apply(fs, rest[0]);
        rest := rest[1..];
      }
    }

    method OpenExclusive(p: Path, hint: Ino, fault: bool) returns (ok: bool)
      modifies this
      ensures ok <==> !fault && p !in old(fs).names
      ensures fs == if ok then Claimed(old(fs), p, hint) else old(fs)
    {
      ok := !fault && p !in fs.names;
      if ok {
        fs := Claimed(fs, p, hint);
      }
    }

    method CloseFd(fault: bool, owner: Option<nat>) returns (ok: bool)
      modifies this
      ensures Closed(fs, ok) == CloseCall(old(fs), fault, owner)
    {
      if fs.mine.Some? {
        ok := !fault;
        fs := Released(fs);
      } else if owner.Some? && owner.value in fs.fds {
        ok := !fault;
        fs := Apply(fs, Close(owner.value));
      } else {
        ok := false;
      }
    }

    method RemovePartial(p: Path, fault: bool)
      modifies this
      ensures fs == if p in old(fs).names && !fault then Unlinked(old(fs), p) else old(fs)
    {
      if p in fs.names && !fault {
        fs := Unlinked(fs, p);
      }
    }
  }

  /** The job fields run_encode_job sets. */
  class JobInfo {
    var encoderUsed: Option<string>
    var outputPath: Option<Path>
    var message: string

    constructor ()
      ensures outputPath == None && encoderUsed == None
    {
      encoderUsed, outputPath, message := None, None, "";
    }
  }

  /** The inner try of run_encode_job with its handler; fd is false for _CLOSED. */
  method EncodeAndPublish(host: Host, p: Plan, i: Inputs)
    returns (outcome: Outcome, fd: bool, closes: nat, renamed: bool)
    requires host.fs.mine.Some?
    modifies host
    ensures var a := Encoding(old(host.fs), p, i);
            Attempt(host.fs, fd, closes, outcome, renamed) == if a.outcome.Done? then a else Cleanup(a, p, i)
  {
    outcome, fd, closes, renamed := TryPublish(host, p, i);
    if outcome.Done? {
      return;
    }
    host.Others(i.gaps.beforeCleanup);
    if fd {
      closes := closes + 1;
      var ok := host.CloseFd(i.faults.cleanupClose, i.handlerOwner);
      if !ok {
        outcome := Raised(OsError);
        return;
      }
      fd := false;
    }
    host.Others(i.gaps.beforeRemove);
    host.RemovePartial(p.staging, i.faults.remove);
  }

  /** The inner try, step by step. */
  method TryPublish(host: Host, p: Plan, i: Inputs) returns (outcome: Outcome, fd: bool, closes: nat, renamed: bool)
    requires host.fs.mine.Some?
    modifies host
    ensures Attempt(host.fs, fd, closes, outcome, renamed) == Encoding(old(host.fs), p, i)
  {
    fd, closes, renamed := true, 0, false;
    host.Others(i.gaps.during);
    if i.encode != EncodeProcess.Completed {
      outcome := Raised(FromEncode(i.encode));
      return;
    }
    host.Others(i.gaps.beforeStat);
    if i.faults.stat || Resolve(host.fs, p.staging).None? {
      outcome := Raised(OsError);
      return;
    }
    if Resolve(host.fs, p.staging) != host.fs.mine {
      outcome := Raised(PathNotAllowed);
      return;
    }
    host.Others(i.gaps.beforeClose);
    closes := 1;
    var _ := host.CloseFd(i.faults.close, None);
    if i.faults.close {
      outcome := Raised(OsError);
      return;
    }
    fd := false;
    host.Others(i.gaps.beforeRename);
    if i.faults.replace || p.staging !in host.fs.names {
      outcome := Raised(OsError);
      return;
    }
    host.fs := Renamed(host.fs, p.staging, p.dst);
    renamed := true;
    outcome := Done;
  }

  method RunEncodeJob(host: Host, job: JobInfo, i: Inputs)
    returns (outcome: Outcome, closes: nat, tried: bool)
    modifies host, job
    ensures host.fs == RunJob(old(host.fs), i).fs && outcome == RunJob(old(host.fs), i).outcome
    ensures closes == RunJob(old(host.fs), i).closes && tried == RunJob(old(host.fs), i).tried
    ensures if Claims(old(host.fs), i) then
              var p := PlanOf(old(host.fs), i.req).value;
              && job.outputPath == Some(p.dst) && job.encoderUsed == Some(p.encoder) && job.message == "Encoding"
            else
              job.outputPath == old(job.outputPath) && job.encoderUsed == old(job.encoderUsed)
              && job.message == old(job.message)
  {
    closes, tried := 0, false;
    var plan := PlanOf(host.fs, i.req);
    if plan.Failure? {
      outcome := Raised(plan.error);
      return;
    }
    var p := plan.value;
    host.Others(i.gaps.beforeClaim);
    var claimed := host.OpenExclusive(p.staging, i.hint, i.faults.claim);
    if !claimed {
      outcome := Raised(PathNotAllowed);
      return;
    }
    job.encoderUsed := Some(p.encoder);
    job.outputPath := Some(p.dst);
    job.message := "Encoding";
    if i.faults.temp {
      outcome := Raised(OsError);
      return;
    }
    var fd, renamed := true, false;
    if i.faults.dump {
      outcome := Raised(Unserializable);
    } else {
      outcome, fd, closes, renamed := EncodeAndPublish(host, p, i);
    }
    tried := true;
    if fd {
      host.Others(i.gaps.beforeFinal);
      closes := closes + 1;
      tried := host.CloseFd(i.faults.finalClose, i.finalOwner);
      if !tried {
        outcome := Raised(OsError);
      }
    }
  }

  // ---- identity ----------------------------------------------------------

  /** The initial state: a consistent file system, with this job's descriptor not yet open. */
  ghost predicate Ready(fs: Fs) {
    Valid(fs) && fs.mine.None?
  }

  lemma ClaimIsFresh(fs: Fs, i: Inputs)
    requires Ready(fs) && Claims(fs, i)
    ensures Valid(WithClaim(fs, i)) && WithClaim(fs, i).mine.Some?
    ensures WithClaim(fs, i).mine.value in WithClaim(fs, i).files
    ensures WithClaim(fs, i).mine.value !in AtClaim(fs, i).files
    ensures WithClaim(fs, i).names ==
            AtClaim(fs, i).names[PlanOf(fs, i.req).value.staging := Hard(WithClaim(fs, i).mine.value)]
  {
    HeldThroughout(fs, i.gaps.beforeClaim);
    ClaimedValid(AtClaim(fs, i), PlanOf(fs, i.req).value.staging, i.hint);
  }

  lemma CheckState(fs: Fs, i: Inputs)
    requires Ready(fs) && Claims(fs, i)
    ensures var c := WithClaim(fs, i); var k := AtCheck(c, i);
            && Valid(k) && k.mine == c.mine && c.mine.Some?
            && c.mine.value in c.files && c.mine.value in k.files
            && k.files[c.mine.value].serial == c.files[c.mine.value].serial
  {
    ClaimIsFresh(fs, i);
    HeldThroughout(WithClaim(fs, i), i.gaps.during);
    HeldThroughout(AtEncodeEnd(WithClaim(fs, i), i), i.gaps.beforeStat);
  }

  /** The staging path still leads to the file this job claimed: the same file, not just
      the same number. */
  ghost predicate StillOurs(fs: Fs, i: Inputs)
    requires Claims(fs, i)
  {
    var c := WithClaim(fs, i);
    var k := AtCheck(c, i);
    var r := Resolve(k, PlanOf(fs, i.req).value.staging);
    && r.Some? && r.value in k.files && c.mine.value in c.files
    && k.files[r.value].serial == c.files[c.mine.value].serial
  }

  /** Because the descriptor is held, comparing inode numbers passes exactly when the
      staging path still leads to the claimed file, whatever other processes did. */
  lemma CheckIsIdentity(fs: Fs, i: Inputs)
    requires Ready(fs) && Claims(fs, i)
    ensures Resolve(AtCheck(WithClaim(fs, i), i), PlanOf(fs, i.req).value.staging) == AtCheck(WithClaim(fs, i), i).mine
            <==> StillOurs(fs, i)
  {
    CheckState(fs, i);
    var k := AtCheck(WithClaim(fs, i), i);
    var r := Resolve(k, PlanOf(fs, i.req).value.staging);
    if r.Some? {
      WalkInFiles(k, PlanOf(fs, i.req).value.staging, MAX_LINKS);
    }
  }

  /** The state the rename meets: the descriptor is closed by then. */
  function AtRename(fs: Fs, i: Inputs): Fs
    requires Claims(fs, i)
  {
    ApplyAll(Released(ApplyAll(AtCheck(WithClaim(fs, i), i), i.gaps.beforeClose)), i.gaps.beforeRename)
  }

  lemma EncodingSucceedsIff(fs: Fs, i: Inputs)
    requires Ready(fs) && Claims(fs, i)
    ensures Encoding(WithClaim(fs, i), PlanOf(fs, i.req).value, i).outcome.Done? <==>
      && i.encode == EncodeProcess.Completed
      && !i.faults.stat && StillOurs(fs, i) && !i.faults.close && !i.faults.replace
      && PlanOf(fs, i.req).value.staging in AtRename(fs, i).names
  {
    CheckIsIdentity(fs, i);
    CheckState(fs, i);
  }

  /** Only the inner try's own success survives the handler and the finally. */
  lemma DoneIffEncoded(c: Fs, p: Plan, i: Inputs)
    ensures Finish(TryBody(c, p, i), p, i).outcome.Done? <==> !i.faults.dump && Encoding(c, p, i).outcome.Done?
    ensures Finish(TryBody(c, p, i), p, i).renamed <==> !i.faults.dump && Encoding(c, p, i).outcome.Done?
  {
  }

  /** A run succeeds exactly when the encode did, the staging path is still ours at the
      check, and the rename and every call before it go through. */
  lemma SucceedsIff(fs: Fs, i: Inputs)
    requires Ready(fs)
    ensures RunJob(fs, i).outcome.Done? <==>
      && Claims(fs, i) && !i.faults.temp && !i.faults.dump
      && i.encode == EncodeProcess.Completed
      && !i.faults.stat && StillOurs(fs, i) && !i.faults.close && !i.faults.replace
      && PlanOf(fs, i.req).value.staging in AtRename(fs, i).names
    ensures RunJob(fs, i).renamed <==> RunJob(fs, i).outcome.Done?
  {
    if Claims(fs, i) && !i.faults.temp {
      var p := PlanOf(fs, i.req).value;
      EncodingSucceedsIff(fs, i);
      DoneIffEncoded(WithClaim(fs, i), p, i);
    }
  }

  predicate KnownFormat(format: string) {
    format in {"av_mkv", "av_mp4", "av_webm"}
  }

  lemma FormatsAreKnown(leaf: Presets.Node)
    requires leaf.Leaf?
    ensures KnownFormat(leaf.format) <==> Presets.ExtensionOf(leaf).Success?
    ensures KnownFormat(leaf.format) ==> Presets.ExtensionOf(leaf) == Success(leaf.format[3..])
    ensures !KnownFormat(leaf.format) ==> Presets.ExtensionOf(leaf) == Failure(Presets.BadFormat)
  {
    assert "av_mkv"[3..] == "mkv" && "av_mp4"[3..] == "mp4" && "av_webm"[3..] == "webm";
  }

  /** Which exception the preparations raise, in the order they are tried: for the path, for
      a preset not found, for its encoder, for its format, and then for the tokens or an
      output path that leads to the source.  Otherwise the plan is for the first leaf of that
      name, with its encoder. */
  lemma PlanIs(fs: Fs, req: Request, leaf: Presets.Node)
    ensures req.validated == Failure(OutsideRoots) ==> PlanOf(fs, req) == Failure(PathNotAllowed)
    ensures req.validated == Failure(Missing) ==> PlanOf(fs, req) == Failure(SourceNotFound)
    ensures req.validated.Success? && !Presets.HasLeaf(Presets.Leaves(req.doc), req.preset) ==>
              PlanOf(fs, req) == Failure(BadPreset(Presets.NotFound))
    ensures req.validated.Success? && Presets.IsFirstLeaf(Presets.Leaves(req.doc), req.preset, leaf) ==>
              if leaf.encoder.None? || leaf.encoder == Some("") then
                PlanOf(fs, req) == Failure(BadPreset(Presets.NoEncoder))
              else if !KnownFormat(leaf.format) then PlanOf(fs, req) == Failure(BadPreset(Presets.BadFormat))
              else PlannedFor(fs, req, leaf.format[3..], leaf.encoder.value)
  {
    Presets.FindPresetIsFirst(req.doc, req.preset);
    if req.validated.Success? && Presets.IsFirstLeaf(Presets.Leaves(req.doc), req.preset, leaf) {
      Presets.FirstLeafIsFound(req.doc, req.preset, leaf);
      FormatsAreKnown(leaf);
    }
  }

  /** With a usable preset: the plan, or PathNotAllowed for an unsafe token or for an output
      path that leads to the source. */
  predicate PlannedFor(fs: Fs, req: Request, ext: string, encoder: string)
    requires req.validated.Success?
  {
    var src := req.validated.value;
    var dst, staging := Paths.DeriveOutputPath(src, req.id, ext), Paths.DeriveStagingPath(src, req.id, ext, req.token);
    if dst.Failure? || staging.Failure? || RealPath(fs, dst.value, MAX_LINKS) == src then
      PlanOf(fs, req) == Failure(PathNotAllowed)
    else PlanOf(fs, req) == Success(Plan(src, dst.value, staging.value, encoder))
  }

  lemma PlanNamesDiffer(fs: Fs, req: Request)
    requires PlanOf(fs, req).Success?
    ensures var p := PlanOf(fs, req).value; p.staging != p.dst && RealPath(fs, p.dst, MAX_LINKS) != p.src
    ensures req.validated == Success(PlanOf(fs, req).value.src)
  {
    var ext := Presets.ExtensionOf(Presets.FindPreset(req.doc, req.preset).value).value;
    Paths.StagingIsNotOutput(req.validated.value, req.id, ext, req.token);
  }

  /** What a plan's two names are, and that its id and token are safe tokens. */
  lemma PlanPaths(fs: Fs, req: Request) returns (ext: string)
    requires PlanOf(fs, req).Success?
    ensures var p := PlanOf(fs, req).value;
            && Paths.DeriveOutputPath(p.src, req.id, ext) == Success(p.dst)
            && Paths.DeriveStagingPath(p.src, req.id, ext, req.token) == Success(p.staging)
  {
    ext := Presets.ExtensionOf(Presets.FindPreset(req.doc, req.preset).value).value;
  }

  /** Jobs with distinct ids publish to distinct paths, whatever their sources. */
  lemma OutputPathsDiffer(fs1: Fs, req1: Request, fs2: Fs, req2: Request)
    requires PlanOf(fs1, req1).Success? && PlanOf(fs2, req2).Success? && req1.id != req2.id
    ensures PlanOf(fs1, req1).value.dst != PlanOf(fs2, req2).value.dst
  {
    var ext1 := PlanPaths(fs1, req1);
    var ext2 := PlanPaths(fs2, req2);
    var p1, p2 := PlanOf(fs1, req1).value, PlanOf(fs2, req2).value;
    if p1.dst == p2.dst {
      Paths.OutputInjective(p1.src, req1.id, ext1, p2.src, req2.id, ext2);
    }
  }

  /** Nor does any of the names of one job equal any of another's, when ids hold no dash
      and tokens are hexadecimal, as the service makes them. */
  lemma PlansAreDisjoint(fs1: Fs, req1: Request, fs2: Fs, req2: Request)
    requires PlanOf(fs1, req1).Success? && PlanOf(fs2, req2).Success? && req1.id != req2.id
    requires '-' !in req1.id && '-' !in req2.id && Paths.IsHex(req1.token) && Paths.IsHex(req2.token)
    ensures var p1, p2 := PlanOf(fs1, req1).value, PlanOf(fs2, req2).value;
            p1.dst != p2.dst && p1.dst != p2.staging && p1.staging != p2.dst && p1.staging != p2.staging
  {
    var ext1 := PlanPaths(fs1, req1);
    var ext2 := PlanPaths(fs2, req2);
    var p1, p2 := PlanOf(fs1, req1).value, PlanOf(fs2, req2).value;
    OutputPathsDiffer(fs1, req1, fs2, req2);
    Paths.FamiliesDisjoint(p1.src, req1.id, ext1, p2.src, req2.id, ext2, req2.token);
    Paths.FamiliesDisjoint(p2.src, req2.id, ext2, p1.src, req1.id, ext1, req1.token);
    if p1.staging == p2.staging {
      Paths.StagingInjective(p1.src, req1.id, ext1, req1.token, p2.src, req2.id, ext2, req2.token);
    }
  }

  lemma RenamePublishes(fs: Fs, p: Path, q: Path)
    requires p in fs.names && p != q
    ensures q in Renamed(fs, p, q).names && Renamed(fs, p, q).names[q] == fs.names[p]
    ensures fs.names[p].Hard? && fs.names[p].ino in fs.files ==>
              fs.names[p].ino in Renamed(fs, p, q).files
              && Renamed(fs, p, q).files[fs.names[p].ino] == fs.files[fs.names[p].ino]
  {
    var g := fs.(names := (fs.names - {p})[q := fs.names[p]]);
    assert q in g.names && g.names[q] == fs.names[p];
  }

  lemma ReleaseKeeps(fs: Fs, p: Path, n: Ino)
    requires p in fs.names && fs.names[p] == Hard(n) && n in fs.files
    ensures n in Released(fs).files && Released(fs).files[n] == fs.files[n]
  {
    var g := fs.(mine := None);
    assert p in g.names && g.names[p] == Hard(n);
  }

  /** `q` names the file this job claimed: that number, and not another file's by now. */
  ghost predicate NamesClaimed(fs: Fs, i: Inputs, g: Fs, q: Path)
    requires Claims(fs, i)
  {
    var c := WithClaim(fs, i);
    var n := c.mine.value;
    && q in g.names && g.names[q] == Hard(n)
    && n in g.files && n in c.files && g.files[n].serial == c.files[n].serial
  }

  /** Success publishes the very entry the staging path has at the rename, whatever ran
      before it; so the output path names the claimed file, with the contents it had then,
      exactly when the staging path still did.  The staging name is gone, unless somebody
      had made the output path another name of the same file. */
  lemma PublishedIsClaimed(fs: Fs, i: Inputs)
    requires Ready(fs) && RunJob(fs, i).outcome.Done?
    ensures var p := PlanOf(fs, i.req).value; var k := AtRename(fs, i); var r := RunJob(fs, i);
            && r.outputPath == Some(p.dst)
            && p.staging in k.names && p.dst in r.fs.names && r.fs.names[p.dst] == k.names[p.staging]
            && (p.staging in r.fs.names <==>
                  p.dst in k.names && k.names[p.staging].Hard? && k.names[p.dst] == k.names[p.staging])
    ensures var p := PlanOf(fs, i.req).value; var k := AtRename(fs, i); var r := RunJob(fs, i);
            && (NamesClaimed(fs, i, r.fs, p.dst) <==> NamesClaimed(fs, i, k, p.staging))
            && (NamesClaimed(fs, i, r.fs, p.dst) ==>
                  r.fs.files[WithClaim(fs, i).mine.value] == k.files[WithClaim(fs, i).mine.value])
  {
    SucceedsIff(fs, i);
    CheckIsIdentity(fs, i);
    CheckState(fs, i);
    PlanNamesDiffer(fs, i.req);
    var p := PlanOf(fs, i.req).value;
    var k := AtRename(fs, i);
    assert RunJob(fs, i).fs == Renamed(k, p.staging, p.dst);
    RenamePublishes(k, p.staging, p.dst);
  }

  /** With nobody in between the check and the rename, the output path names the claimed
      file, with the contents it had at the check, exactly when the entry the check saw
      was not a symbolic link. */
  lemma PublishedUndisturbed(fs: Fs, i: Inputs)
    requires Ready(fs) && RunJob(fs, i).outcome.Done?
    requires i.gaps.beforeClose == [] && i.gaps.beforeRename == []
    ensures var p := PlanOf(fs, i.req).value;
            var n := WithClaim(fs, i).mine.value;
            var k := AtCheck(WithClaim(fs, i), i);
            var r := RunJob(fs, i);
            && p.staging in k.names && p.dst in r.fs.names && r.fs.names[p.dst] == k.names[p.staging]
            && (NamesClaimed(fs, i, r.fs, p.dst) <==> !k.names[p.staging].Link?)
            && (NamesClaimed(fs, i, r.fs, p.dst) ==> n in k.files && r.fs.files[n] == k.files[n])
  {
    SucceedsIff(fs, i);
    CheckIsIdentity(fs, i);
    CheckState(fs, i);
    PublishedIsClaimed(fs, i);
    var p := PlanOf(fs, i.req).value;
    var k := AtCheck(WithClaim(fs, i), i);
    assert AtRename(fs, i) == Released(k);
    if k.names[p.staging].Hard? {
      ReleaseKeeps(k, p.staging, WithClaim(fs, i).mine.value);
    }
  }

  /** A file whose only name is unlinked, and that nobody holds, is freed. */
  lemma NumberIsFreed(before: Fs, p: Path, n: Ino, g: Fs)
    requires Valid(before) && n !in before.files
    requires g.names == before.names[p := Hard(n)] && g.fds == before.fds && g.mine.None?
    ensures n !in Unlinked(g, p).files
  {
    var u := g.(names := g.names - {p});
    assert !Linked(u, n) && !Held(u, n);
  }

  /** Between the close and the rename the number can be given to another file, and that
      one is published under it: nothing is compared after the close. */
  lemma ForeignFileIsPublished(fs: Fs, i: Inputs)
    requires Ready(fs) && Claims(fs, i)
    requires i.faults == NO_FAULTS && i.encode == EncodeProcess.Completed
    requires i.gaps.during == [] && i.gaps.beforeStat == [] && i.gaps.beforeClose == []
    requires var p := PlanOf(fs, i.req).value;
             i.gaps.beforeRename == [Unlink(p.staging), Create(p.staging, WithClaim(fs, i).mine.value)]
    ensures RunJob(fs, i).outcome.Done?
    ensures var dst := PlanOf(fs, i.req).value.dst; var n := WithClaim(fs, i).mine.value; var r := RunJob(fs, i);
            && dst in r.fs.names && r.fs.names[dst] == Hard(n) && !NamesClaimed(fs, i, r.fs, dst)
  {
    var p := PlanOf(fs, i.req).value;
    var c := WithClaim(fs, i);
    var n := c.mine.value;
    ClaimIsFresh(fs, i);
    assert AtCheck(c, i) == c && ApplyAll(c, i.gaps.beforeClose) == c;
    assert c.names[p.staging] == Hard(n);
    ReleaseKeeps(c, p.staging, n);
    HeldThroughout(fs, i.gaps.beforeClaim);
    var g := Released(c);
    var u := Unlinked(g, p.staging);
    NumberIsFreed(AtClaim(fs, i), p.staging, n, g);
    var t := Created(u, p.staging, n);
    var ops := i.gaps.beforeRename;
    assert Apply(g, ops[0]) == u && ops[1..] == [Create(p.staging, n)] && Apply(u, ops[1]) == t;
    assert ApplyAll(u, ops[1..]) == ApplyAll(t, ops[1..][1..]);
    assert AtRename(fs, i) == t;
    CheckIsIdentity(fs, i);
    SucceedsIff(fs, i);
    PublishedIsClaimed(fs, i);
  }

  /** A rename writes to no file: a symbolic link at the output path is replaced, and
      what it led to keeps its name and its contents. */
  lemma RenameWritesNothing(fs: Fs, p: Path, q: Path, other: Path)
    requires p in fs.names && other != p && other != q
    ensures SameEntry(fs, Renamed(fs, p, q), other)
    ensures forall n :: n in Renamed(fs, p, q).files ==> n in fs.files && Renamed(fs, p, q).files[n] == fs.files[n]
    ensures other in fs.names && fs.names[other].Hard? && fs.names[other].ino in fs.files ==>
              fs.names[other].ino in Renamed(fs, p, q).files
  {
    var g := fs.(names := (fs.names - {p})[q := fs.names[p]]);
    assert other in fs.names ==> other in g.names && g.names[other] == fs.names[other];
  }

  lemma WalkLink(fs: Fs, p: Path, t: Path, n: Ino)
    requires p in fs.names && fs.names[p] == Link(t) && t in fs.names && fs.names[t] == Hard(n)
    ensures Resolve(fs, p) == Some(n)
  {
    assert Walk(fs, t, MAX_LINKS - 1) == Some(n);
  }

  /** The other case exists: a staging file renamed aside and replaced by a link to it
      passes the check, and the link is what gets published. */
  lemma LinkIsPublishedAsIs(fs: Fs, i: Inputs, aside: Path)
    requires Ready(fs) && Claims(fs, i)
    requires i.faults == NO_FAULTS && i.encode == EncodeProcess.Completed
    requires aside !in WithClaim(fs, i).names
    requires var staging := PlanOf(fs, i.req).value.staging;
             i.gaps.during == [Rename(staging, aside), Symlink(staging, aside)]
    requires i.gaps.beforeStat == [] && i.gaps.beforeClose == [] && i.gaps.beforeRename == []
    ensures RunJob(fs, i).outcome.Done?
    ensures var dst := PlanOf(fs, i.req).value.dst;
            dst in RunJob(fs, i).fs.names && RunJob(fs, i).fs.names[dst] == Link(aside)
  {
    var p := PlanOf(fs, i.req).value;
    var c := WithClaim(fs, i);
    ClaimIsFresh(fs, i);
    var n := c.mine.value;
    assert c.names[p.staging] == Hard(n);
    var moved := Renamed(c, p.staging, aside);
    RenamePublishes(c, p.staging, aside);
    assert p.staging !in moved.names && moved.names[aside] == Hard(n);
    var linked := Apply(moved, Symlink(p.staging, aside));
    var ops := i.gaps.during;
    assert Apply(c, ops[0]) == moved && ops[1..] == [Symlink(p.staging, aside)];
    assert ApplyAll(moved, ops[1..]) == ApplyAll(linked, ops[1..][1..]);
    assert ApplyAll(linked, []) == linked;
    assert AtCheck(c, i) == linked;
    WalkLink(linked, p.staging, aside, n);
    assert Resolve(linked, p.staging) == linked.mine;
    assert AtRename(fs, i) == Released(linked);
    CheckIsIdentity(fs, i);
    SucceedsIff(fs, i);
    PublishedIsClaimed(fs, i);
  }

  // ---- every way out -----------------------------------------------------

  lemma ReleasedHasNone(fs: Fs, ops: seq<Op>)
    requires Valid(fs)
    ensures Valid(Released(fs)) && Released(fs).mine.None?
    ensures Valid(ApplyAll(Released(fs), ops)) && ApplyAll(Released(fs), ops).mine.None?
  {
    CollectValid(fs.(mine := None));
    HeldThroughout(Released(fs), ops);
  }

  /** The publishing gets to its close. */
  predicate PassesCheck(k: Fs, p: Plan, i: Inputs) {
    !i.faults.stat && Resolve(k, p.staging).Some? && Resolve(k, p.staging) == k.mine
  }

  lemma PublishingByCase(k: Fs, p: Plan, i: Inputs)
    requires Valid(k) && k.mine.Some?
    ensures var a := Publishing(k, p, i); var closes := PassesCheck(k, p, i);
            && Valid(a.fs) && a.open == (!closes || i.faults.close) && a.fs.mine.Some? == !closes
            && a.closes == (if closes then 1 else 0) && (a.open ==> a.outcome.Raised?)
  {
    HeldThroughout(k, i.gaps.beforeClose);
    var open := ApplyAll(k, i.gaps.beforeClose);
    ReleasedHasNone(open, i.gaps.beforeRename);
    var ready := ApplyAll(Released(open), i.gaps.beforeRename);
    if p.staging in ready.names {
      RenamedValid(ready, p.staging, p.dst);
    }
  }

  /** The close that releases the descriptor before the rename is reached. */
  ghost predicate ReachesClose(fs: Fs, i: Inputs)
    requires Claims(fs, i)
  {
    !i.faults.dump && i.encode == EncodeProcess.Completed && !i.faults.stat && StillOurs(fs, i)
  }

  /** The handler is reached with the descriptor still open. */
  ghost predicate HandlerCloses(fs: Fs, i: Inputs)
    requires Claims(fs, i)
  {
    !i.faults.dump && !ReachesClose(fs, i)
  }

  /** The handler's close is the second one, and finds the number in another thread's hands. */
  ghost predicate HandlerOwned(fs: Fs, i: Inputs)
    requires Claims(fs, i)
  {
    var k := AtCleanup(Encoding(WithClaim(fs, i), PlanOf(fs, i.req).value, i), i);
    i.handlerOwner.Some? && i.handlerOwner.value in k.fds
  }

  /** The close that the handler makes fails: its first, or a repeated one. */
  ghost predicate BadClose(fs: Fs, i: Inputs)
    requires Claims(fs, i)
  {
    || (ReachesClose(fs, i) && i.faults.close && (i.faults.cleanupClose || !HandlerOwned(fs, i)))
    || (HandlerCloses(fs, i) && i.faults.cleanupClose)
  }

  /** The last close is a repeated one, and finds the number in another thread's hands. */
  ghost predicate FinalOwned(fs: Fs, i: Inputs)
    requires Claims(fs, i)
  {
    var p := PlanOf(fs, i.req).value;
    var k := AtFinal(Cleanup(Encoding(WithClaim(fs, i), p, i), p, i), i);
    i.finalOwner.Some? && i.finalOwner.value in k.fds
  }

  lemma ReachesCloseIff(fs: Fs, i: Inputs)
    requires Ready(fs) && Claims(fs, i) && !i.faults.dump && i.encode == EncodeProcess.Completed
    ensures PassesCheck(AtCheck(WithClaim(fs, i), i), PlanOf(fs, i.req).value, i) <==> ReachesClose(fs, i)
  {
    CheckIsIdentity(fs, i);
    CheckState(fs, i);
  }

  /** Where the inner try leaves the descriptor. */
  lemma EncodingByCase(fs: Fs, i: Inputs)
    requires Ready(fs) && Claims(fs, i) && !i.faults.dump
    ensures var a := Encoding(WithClaim(fs, i), PlanOf(fs, i.req).value, i);
            && Valid(a.fs) && a.open == (HandlerCloses(fs, i) || i.faults.close)
            && a.fs.mine.Some? == HandlerCloses(fs, i)
            && a.closes == (if HandlerCloses(fs, i) then 0 else 1)
            && (a.open ==> a.outcome.Raised?)
  {
    ClaimIsFresh(fs, i);
    HeldThroughout(WithClaim(fs, i), i.gaps.during);
    if i.encode == EncodeProcess.Completed {
      ReachesCloseIff(fs, i);
      CheckState(fs, i);
      PublishingByCase(AtCheck(WithClaim(fs, i), i), PlanOf(fs, i.req).value, i);
    }
  }

  lemma CloseCallCloses(fs: Fs, fault: bool, owner: Option<nat>)
    requires Valid(fs)
    ensures Valid(CloseCall(fs, fault, owner).fs) && CloseCall(fs, fault, owner).fs.mine.None?
    ensures CloseCall(fs, fault, owner).fs.names == fs.names
  {
    if fs.mine.Some? {
      ReleasedHasNone(fs, []);
    } else if owner.Some? {
      ApplyValid(fs, Close(owner.value));
    }
  }

  /** The handler fails on its close exactly in the cases of BadClose. */
  lemma CleanupFailsIff(fs: Fs, i: Inputs)
    requires Ready(fs) && Claims(fs, i) && !i.faults.dump
    requires Encoding(WithClaim(fs, i), PlanOf(fs, i.req).value, i).outcome.Raised?
    ensures HandlerClose(Encoding(WithClaim(fs, i), PlanOf(fs, i.req).value, i), i).ok <==> !BadClose(fs, i)
  {
    EncodingByCase(fs, i);
    HeldThroughout(Encoding(WithClaim(fs, i), PlanOf(fs, i.req).value, i).fs, i.gaps.beforeCleanup);
  }

  lemma HandlerCloseByCase(a: Attempt, i: Inputs)
    requires Valid(a.fs) && (a.open || a.fs.mine.None?)
    ensures Valid(HandlerClose(a, i).fs) && HandlerClose(a, i).fs.mine.None?
    ensures HandlerClose(a, i).fs.names == AtCleanup(a, i).names
  {
    HeldThroughout(a.fs, i.gaps.beforeCleanup);
    CloseCallCloses(AtCleanup(a, i), i.faults.cleanupClose, i.handlerOwner);
  }

  /** What the handler leaves: the claimed descriptor is released in any case. */
  lemma CleanupByCase(fs: Fs, i: Inputs)
    requires Ready(fs) && Claims(fs, i) && !i.faults.dump
    requires Encoding(WithClaim(fs, i), PlanOf(fs, i.req).value, i).outcome.Raised?
    ensures var b := Cleanup(Encoding(WithClaim(fs, i), PlanOf(fs, i.req).value, i), PlanOf(fs, i.req).value, i);
            && Valid(b.fs) && b.open == BadClose(fs, i) && b.fs.mine.None?
            && b.closes == if ReachesClose(fs, i) && i.faults.close then 2 else 1
  {
    var p := PlanOf(fs, i.req).value;
    var a := Encoding(WithClaim(fs, i), p, i);
    EncodingByCase(fs, i);
    CleanupFailsIff(fs, i);
    HandlerCloseByCase(a, i);
    HeldThroughout(HandlerClose(a, i).fs, i.gaps.beforeRemove);
    CollectValid(AtRemove(a, i).(names := AtRemove(a, i).names - {p.staging}));
  }

  /** How often os.close is called, whatever fails and whatever a repeated call meets.
      Never, exactly when the preset's temporary file cannot be made, and then the
      descriptor leaks; once, exactly when the first call succeeds or is the last; else
      the call is repeated after the descriptor is gone, and closes another thread's if
      one has the number.  The removal of the preset file is attempted exactly when the
      last call succeeds. */
  lemma ClosedOnceIff(fs: Fs, i: Inputs)
    requires Ready(fs) && Claims(fs, i)
    ensures RunJob(fs, i).closes ==
            if i.faults.temp then 0
            else (if ReachesClose(fs, i) && i.faults.close then 2 else 1) + (if BadClose(fs, i) then 1 else 0)
    ensures RunJob(fs, i).tried <==>
            && !i.faults.temp
            && (BadClose(fs, i) ==> FinalOwned(fs, i) && !i.faults.finalClose)
            && (i.faults.dump ==> !i.faults.finalClose)
    ensures RunJob(fs, i).fs.mine.Some? <==> i.faults.temp
  {
    ClaimIsFresh(fs, i);
    var c := WithClaim(fs, i);
    if !i.faults.temp && i.faults.dump {
      HeldThroughout(c, i.gaps.beforeFinal);
      CloseCallCloses(AtFinal(TryBody(c, PlanOf(fs, i.req).value, i), i), i.faults.finalClose, i.finalOwner);
    } else if !i.faults.temp {
      var p := PlanOf(fs, i.req).value;
      var a := Encoding(c, p, i);
      EncodingByCase(fs, i);
      if a.outcome.Raised? {
        CleanupByCase(fs, i);
        var b := Cleanup(a, p, i);
        HeldThroughout(b.fs, i.gaps.beforeFinal);
        CloseCallCloses(AtFinal(b, i), i.faults.finalClose, i.finalOwner);
      }
    }
  }

  /** A repeated close that succeeds has closed a descriptor of another thread. */
  lemma RepeatedCloseHitsAnother(fs: Fs, fault: bool, owner: Option<nat>)
    requires fs.mine.None? && CloseCall(fs, fault, owner).ok
    ensures exists d :: d in fs.fds && d !in CloseCall(fs, fault, owner).fs.fds
  {
    assert owner.value in fs.fds && owner.value !in CloseCall(fs, fault, owner).fs.fds;
  }

  // ---- what a failure leaves ---------------------------------------------

  /** The handler gets as far as removing the staging entry, and that call succeeds. */
  ghost predicate Removes(fs: Fs, i: Inputs)
    requires Claims(fs, i)
  {
    !i.faults.temp && !i.faults.dump && !BadClose(fs, i) && !i.faults.remove
  }

  /** A failure that reaches the removal leaves no staging entry, whatever was there by
      then. */
  lemma FailureLeavesNoStaging(fs: Fs, i: Inputs)
    requires Ready(fs) && Claims(fs, i) && Removes(fs, i)
    requires RunJob(fs, i).outcome.Raised?
    ensures PlanOf(fs, i.req).value.staging !in RunJob(fs, i).fs.names
  {
    EncodingByCase(fs, i);
    var a := Encoding(WithClaim(fs, i), PlanOf(fs, i.req).value, i);
    if a.outcome.Raised? {
      CleanupFailsIff(fs, i);
      CleanupByCase(fs, i);
    }
  }

  /** Nobody else touches the entry of `q`, in any of the gaps. */
  predicate OthersSpare(i: Inputs, q: Path) {
    && NoneTouches(i.gaps.beforeClaim, q) && NoneTouches(i.gaps.during, q) && NoneTouches(i.gaps.beforeStat, q)
    && NoneTouches(i.gaps.beforeClose, q) && NoneTouches(i.gaps.beforeRename, q)
    && NoneTouches(i.gaps.beforeCleanup, q) && NoneTouches(i.gaps.beforeRemove, q) && NoneTouches(i.gaps.beforeFinal, q)
  }

  lemma EncodingKeepsEntry(fs: Fs, p: Plan, i: Inputs, q: Path)
    requires OthersSpare(i, q)
    requires Encoding(fs, p, i).outcome.Raised?
    ensures SameEntry(fs, Encoding(fs, p, i).fs, q)
  {
    EntryKeptThroughout(fs, i.gaps.during, q);
    var k := AtCheck(fs, i);
    EntryKeptThroughout(AtEncodeEnd(fs, i), i.gaps.beforeStat, q);
    EntryKeptThroughout(k, i.gaps.beforeClose, q);
    EntryKeptThroughout(Released(ApplyAll(k, i.gaps.beforeClose)), i.gaps.beforeRename, q);
  }

  lemma CleanupKeepsEntry(a: Attempt, p: Plan, i: Inputs, q: Path)
    requires OthersSpare(i, q) && q != p.staging
    ensures SameEntry(a.fs, Cleanup(a, p, i).fs, q)
  {
    EntryKeptThroughout(a.fs, i.gaps.beforeCleanup, q);
    EntryKeptThroughout(HandlerClose(a, i).fs, i.gaps.beforeRemove, q);
  }

  lemma FinishKeepsEntry(a: Attempt, p: Plan, i: Inputs, q: Path)
    requires OthersSpare(i, q)
    ensures SameEntry(a.fs, Finish(a, p, i).fs, q)
  {
    EntryKeptThroughout(a.fs, i.gaps.beforeFinal, q);
  }

  /** On every failure, whatever fails, the output path is as the others left it. */
  lemma FailureKeepsOutput(fs: Fs, i: Inputs)
    requires PlanOf(fs, i.req).Success? && RunJob(fs, i).outcome.Raised?
    requires OthersSpare(i, PlanOf(fs, i.req).value.dst)
    ensures SameEntry(fs, RunJob(fs, i).fs, PlanOf(fs, i.req).value.dst)
  {
    var p := PlanOf(fs, i.req).value;
    PlanNamesDiffer(fs, i.req);
    EntryKeptThroughout(fs, i.gaps.beforeClaim, p.dst);
    if Claims(fs, i) && !i.faults.temp {
      var c := WithClaim(fs, i);
      FinishKeepsEntry(TryBody(c, p, i), p, i, p.dst);
      if !i.faults.dump && Encoding(c, p, i).outcome.Raised? {
        EncodingKeepsEntry(c, p, i, p.dst);
        CleanupKeepsEntry(Encoding(c, p, i), p, i, p.dst);
      }
    }
  }

  lemma PublishingKeepsEntry(k: Fs, p: Plan, i: Inputs, q: Path)
    requires OthersSpare(i, q) && q != p.staging && q != p.dst
    ensures SameEntry(k, Publishing(k, p, i).fs, q)
  {
    EntryKeptThroughout(k, i.gaps.beforeClose, q);
    EntryKeptThroughout(Released(ApplyAll(k, i.gaps.beforeClose)), i.gaps.beforeRename, q);
  }

  lemma TryBodyKeepsEntry(c: Fs, p: Plan, i: Inputs, q: Path)
    requires OthersSpare(i, q) && q != p.staging && q != p.dst
    ensures SameEntry(c, TryBody(c, p, i).fs, q)
  {
    EntryKeptThroughout(c, i.gaps.during, q);
    EntryKeptThroughout(AtEncodeEnd(c, i), i.gaps.beforeStat, q);
    PublishingKeepsEntry(AtCheck(c, i), p, i, q);
    CleanupKeepsEntry(Encoding(c, p, i), p, i, q);
  }

  /** On every way out, success included, a run touches no entry but its own two: any
      other is as the others left it. */
  lemma TouchesOnlyItsOwn(fs: Fs, i: Inputs, q: Path)
    requires OthersSpare(i, q)
    requires PlanOf(fs, i.req).Success? ==> q != PlanOf(fs, i.req).value.staging && q != PlanOf(fs, i.req).value.dst
    ensures SameEntry(fs, RunJob(fs, i).fs, q)
  {
    EntryKeptThroughout(fs, i.gaps.beforeClaim, q);
    if Claims(fs, i) && !i.faults.temp {
      var p := PlanOf(fs, i.req).value;
      TryBodyKeepsEntry(WithClaim(fs, i), p, i, q);
      FinishKeepsEntry(TryBody(WithClaim(fs, i), p, i), p, i, q);
    }
  }

  /** So the service's workers meet each other's hypotheses: a run for one job leaves the
      output and the staging entry of every other job alone, whatever their sources. */
  lemma OtherJobsAreSpared(fs: Fs, i: Inputs, other: Fs, req: Request)
    requires PlanOf(other, req).Success? && req.id != i.req.id
    requires '-' !in req.id && '-' !in i.req.id && Paths.IsHex(req.token) && Paths.IsHex(i.req.token)
    requires OthersSpare(i, PlanOf(other, req).value.dst) && OthersSpare(i, PlanOf(other, req).value.staging)
    ensures SameEntry(fs, RunJob(fs, i).fs, PlanOf(other, req).value.dst)
    ensures SameEntry(fs, RunJob(fs, i).fs, PlanOf(other, req).value.staging)
  {
    if PlanOf(fs, i.req).Success? {
      PlansAreDisjoint(other, req, fs, i.req);
    }
    TouchesOnlyItsOwn(fs, i, PlanOf(other, req).value.dst);
    TouchesOnlyItsOwn(fs, i, PlanOf(other, req).value.staging);
  }

  lemma FailedCleanupKeepsStaging(a: Attempt, p: Plan, i: Inputs)
    requires OthersSpare(i, p.staging)
    requires !HandlerClose(a, i).ok || i.faults.remove
    ensures SameEntry(a.fs, Cleanup(a, p, i).fs, p.staging)
  {
    EntryKeptThroughout(a.fs, i.gaps.beforeCleanup, p.staging);
    EntryKeptThroughout(HandlerClose(a, i).fs, i.gaps.beforeRemove, p.staging);
  }

  /** A failed run with nobody else at the staging name leaves the staging file behind
      exactly when it does not get as far as removing it: the preset's temporary file
      could not be made or written, the handler's close failed, or the removal did. */
  lemma StagingLeftIff(fs: Fs, i: Inputs)
    requires Ready(fs) && Claims(fs, i) && RunJob(fs, i).outcome.Raised?
    requires OthersSpare(i, PlanOf(fs, i.req).value.staging)
    ensures PlanOf(fs, i.req).value.staging in RunJob(fs, i).fs.names <==> !Removes(fs, i)
  {
    ClaimIsFresh(fs, i);
    if Removes(fs, i) {
      FailureLeavesNoStaging(fs, i);
    } else if !i.faults.temp {
      var p := PlanOf(fs, i.req).value;
      FinishKeepsEntry(TryBody(WithClaim(fs, i), p, i), p, i, p.staging);
      if !i.faults.dump {
        EncodingByCase(fs, i);
        CleanupFailsIff(fs, i);
        EncodingKeepsEntry(WithClaim(fs, i), p, i, p.staging);
        FailedCleanupKeepsStaging(Encoding(WithClaim(fs, i), p, i), p, i);
      }
    }
  }

  /** Whether the handler is passed through without an error of its own. */
  ghost predicate Reraises(fs: Fs, i: Inputs)
    requires Claims(fs, i)
  {
    !i.faults.temp && !i.faults.dump && !BadClose(fs, i)
  }

  /** What run_encode raises is what the job function raises, unless a close fails. */
  lemma EncodeErrorIsReraised(fs: Fs, i: Inputs)
    requires Ready(fs) && Claims(fs, i) && Reraises(fs, i) && i.encode != EncodeProcess.Completed
    ensures RunJob(fs, i).outcome == Raised(FromEncode(i.encode))
  {
    EncodingByCase(fs, i);
    CleanupFailsIff(fs, i);
    CleanupByCase(fs, i);
  }

  /** The staging path leads nowhere at the check. */
  ghost predicate StagingGone(fs: Fs, i: Inputs)
    requires Claims(fs, i)
  {
    Resolve(AtCheck(WithClaim(fs, i), i), PlanOf(fs, i.req).value.staging).None?
  }

  lemma InnerOutcomeIs(fs: Fs, i: Inputs)
    requires Ready(fs) && Claims(fs, i) && !i.faults.temp && !i.faults.dump
    ensures BadClose(fs, i) ==> RunJob(fs, i).outcome == Raised(OsError)
    ensures !BadClose(fs, i) ==>
              RunJob(fs, i).outcome == Encoding(WithClaim(fs, i), PlanOf(fs, i.req).value, i).outcome
    ensures Encoding(WithClaim(fs, i), PlanOf(fs, i.req).value, i).outcome ==
            if i.encode != EncodeProcess.Completed then Raised(FromEncode(i.encode))
            else if i.faults.stat || StagingGone(fs, i) then Raised(OsError)
            else if !StillOurs(fs, i) then Raised(PathNotAllowed)
            else if i.faults.close || i.faults.replace || PlanOf(fs, i.req).value.staging !in AtRename(fs, i).names
            then Raised(OsError)
            else Done
  {
    EncodingByCase(fs, i);
    CheckIsIdentity(fs, i);
    if Encoding(WithClaim(fs, i), PlanOf(fs, i.req).value, i).outcome.Raised? {
      CleanupFailsIff(fs, i);
      CleanupByCase(fs, i);
    }
  }

  /** For each exception, exactly when it is raised. */
  lemma OutcomeIs(fs: Fs, i: Inputs)
    requires Ready(fs)
    ensures PlanOf(fs, i.req).Failure? ==> RunJob(fs, i).outcome == Raised(PlanOf(fs, i.req).error)
    ensures PlanOf(fs, i.req).Success? && !Claims(fs, i) ==> RunJob(fs, i).outcome == Raised(PathNotAllowed)
    ensures Claims(fs, i) ==>
              RunJob(fs, i).outcome ==
              if i.faults.temp then Raised(OsError)
              else if i.faults.dump then (if i.faults.finalClose then Raised(OsError) else Raised(Unserializable))
              else if BadClose(fs, i) then Raised(OsError)
              else if i.encode != EncodeProcess.Completed then Raised(FromEncode(i.encode))
              else if i.faults.stat || StagingGone(fs, i) then Raised(OsError)
              else if !StillOurs(fs, i) then Raised(PathNotAllowed)
              else if i.faults.close || i.faults.replace || PlanOf(fs, i.req).value.staging !in AtRename(fs, i).names
              then Raised(OsError)
              else Done
  {
    if Claims(fs, i) && !i.faults.temp {
      if i.faults.dump {
        ClaimIsFresh(fs, i);
        HeldThroughout(WithClaim(fs, i), i.gaps.beforeFinal);
      } else {
        InnerOutcomeIs(fs, i);
      }
    }
  }

  /** The calls a run makes between those of the others.  A success is the claim, the close
      and the rename; a failed encode is the claim, the close and the removal; nothing else
      is done, and no call of the others is lost. */
  lemma RunIsTheseCalls(fs: Fs, i: Inputs)
    requires Ready(fs) && Claims(fs, i)
    ensures var p := PlanOf(fs, i.req).value; var c := Claimed(ApplyAll(fs, i.gaps.beforeClaim), p.staging, i.hint);
            RunJob(fs, i).outcome.Done? ==>
              var k := ApplyAll(Released(ApplyAll(c, i.gaps.during + i.gaps.beforeStat + i.gaps.beforeClose)),
                                i.gaps.beforeRename);
              p.staging in k.names && RunJob(fs, i).fs == Renamed(k, p.staging, p.dst)
    ensures var p := PlanOf(fs, i.req).value; var c := Claimed(ApplyAll(fs, i.gaps.beforeClaim), p.staging, i.hint);
            Removes(fs, i) && i.encode != EncodeProcess.Completed ==>
              var k := ApplyAll(Released(ApplyAll(c, i.gaps.during + i.gaps.beforeCleanup)), i.gaps.beforeRemove);
              RunJob(fs, i).fs == if p.staging in k.names then Unlinked(k, p.staging) else k
  {
    var c := WithClaim(fs, i);
    ApplyConcat(c, i.gaps.during, i.gaps.beforeStat);
    ApplyConcat(c, i.gaps.during + i.gaps.beforeStat, i.gaps.beforeClose);
    ApplyConcat(c, i.gaps.during, i.gaps.beforeCleanup);
    SucceedsIff(fs, i);
    if RunJob(fs, i).outcome.Done? {
      PublishedIsClaimed(fs, i);
    }
    if Removes(fs, i) && i.encode != EncodeProcess.Completed {
      EncodingByCase(fs, i);
      CleanupFailsIff(fs, i);
      HeldThroughout(AtEncodeEnd(c, i), i.gaps.beforeCleanup);
    }
  }

  // ---- a run with nobody else about --------------------------------------

  /** Only the encoder acts besides the run itself, and it writes its file. */
  predicate Undisturbed(fs: Fs, i: Inputs, data: string) {
    && PlanOf(fs, i.req).Success?
    && i.gaps == Gaps([], [Write(PlanOf(fs, i.req).value.staging, data)], [], [], [], [], [], [])
    && i.handlerOwner.None? && i.finalOwner.None?
  }

  /** The file system with the run's file under one more name. */
  function WithFile(fs: Fs, p: Path, n: Ino, data: string): Fs {
    fs.(names := fs.names[p := Hard(n)], files := fs.files[n := File(fs.born, data)], born := fs.born + 1)
  }

  lemma EncodedState(fs: Fs, i: Inputs, data: string)
    requires Ready(fs) && Claims(fs, i) && Undisturbed(fs, i, data)
    ensures var n := WithClaim(fs, i).mine.value; var p := PlanOf(fs, i.req).value;
            && AtEncodeEnd(WithClaim(fs, i), i) == WithFile(fs, p.staging, n, data).(mine := Some(n))
            && AtCheck(WithClaim(fs, i), i) == AtEncodeEnd(WithClaim(fs, i), i)
            && n !in fs.files && p.staging !in fs.names
  {
    var c := WithClaim(fs, i);
    var p := PlanOf(fs, i.req).value;
    ClaimIsFresh(fs, i);
    assert c == Claimed(fs, p.staging, i.hint);
    assert Resolve(c, p.staging) == c.mine;
    var op := Write(p.staging, data);
    assert [op][1..] == [] && ApplyAll(c, [op]) == ApplyAll(Apply(c, op), []);
    CallsAct(c, p.staging, p.staging, data, 0);
  }

  lemma ReleasedState(fs: Fs, p: Path, n: Ino, data: string)
    requires Ready(fs) && n !in fs.files
    ensures Released(WithFile(fs, p, n, data).(mine := Some(n))) == Collect(WithFile(fs, p, n, data))
  {
    assert WithFile(fs, p, n, data).(mine := Some(n)).(mine := None) == WithFile(fs, p, n, data);
  }

  /** Every file of a consistent file system survives, and so does the new one. */
  lemma WithFileKeepsAll(fs: Fs, p: Path, n: Ino, data: string)
    requires Ready(fs) && n !in fs.files && p !in fs.names
    ensures Collect(WithFile(fs, p, n, data)) == WithFile(fs, p, n, data)
  {
    var g := WithFile(fs, p, n, data);
    assert g.names[p] == Hard(n);
    forall m | m in g.files ensures Linked(g, m) || Held(g, m) {
      if m != n {
        StillReferenced(fs, g, m);
      }
    }
    assert Collect(g).files == g.files;
  }

  lemma WithoutFileIsBefore(fs: Fs, p: Path, n: Ino, data: string)
    requires Ready(fs) && n !in fs.files && p !in fs.names
    ensures Unlinked(WithFile(fs, p, n, data), p) == fs.(born := fs.born + 1)
  {
    var g := WithFile(fs, p, n, data);
    var u := g.(names := g.names - {p});
    assert u.names == fs.names;
    assert !Linked(u, n) && !Held(u, n);
    forall m | m in fs.files ensures Linked(u, m) || Held(u, m) {
      StillReferenced(fs, u, m);
    }
    assert Collect(u).files == fs.files;
  }

  /** A failed run that gets to remove its staging file leaves the file system as it found
      it, names, contents and descriptors. */
  lemma FailureUndoesAll(fs: Fs, i: Inputs, data: string)
    requires Ready(fs) && Claims(fs, i) && Undisturbed(fs, i, data)
    requires RunJob(fs, i).outcome.Raised? && Removes(fs, i)
    ensures RunJob(fs, i).fs == fs.(born := fs.born + 1)
  {
    var p := PlanOf(fs, i.req).value;
    var n := WithClaim(fs, i).mine.value;
    ClaimIsFresh(fs, i);
    EncodedState(fs, i, data);
    EncodingByCase(fs, i);
    OutcomeIs(fs, i);
    ReleasedState(fs, p.staging, n, data);
    WithFileKeepsAll(fs, p.staging, n, data);
    WithoutFileIsBefore(fs, p.staging, n, data);
    var a := Encoding(WithClaim(fs, i), p, i);
    assert a.fs == (if a.fs.mine.Some? then WithFile(fs, p.staging, n, data).(mine := Some(n))
                    else WithFile(fs, p.staging, n, data));
    CleanupFailsIff(fs, i);
  }

  /** A successful one adds the output file with the encoder's contents under its own name,
      replacing what had that name, and changes nothing else. */
  lemma SuccessAddsOutput(fs: Fs, i: Inputs, data: string)
    requires Ready(fs) && Claims(fs, i) && Undisturbed(fs, i, data)
    requires RunJob(fs, i).outcome.Done?
    ensures var n := WithClaim(fs, i).mine.value;
            && n !in fs.files
            && RunJob(fs, i).fs == Collect(WithFile(fs, PlanOf(fs, i.req).value.dst, n, data))
  {
    var p := PlanOf(fs, i.req).value;
    var n := WithClaim(fs, i).mine.value;
    EncodedState(fs, i, data);
    SucceedsIff(fs, i);
    PlanNamesDiffer(fs, i.req);
    ReleasedState(fs, p.staging, n, data);
    WithFileKeepsAll(fs, p.staging, n, data);
    var k := WithFile(fs, p.staging, n, data);
    assert AtRename(fs, i) == k;
    assert p.dst in k.names ==> k.names[p.dst] != Hard(n);
    assert (k.names - {p.staging})[p.dst := Hard(n)] == fs.names[p.dst := Hard(n)];
  }

  /** A run that does not get its claim does nothing; the other fields of the report. */
  lemma ReportIs(fs: Fs, i: Inputs)
    ensures PlanOf(fs, i.req).Failure? ==> RunJob(fs, i).fs == fs
    ensures PlanOf(fs, i.req).Success? && !Claims(fs, i) ==> RunJob(fs, i).fs == ApplyAll(fs, i.gaps.beforeClaim)
    ensures RunJob(fs, i).claimed <==> Claims(fs, i)
    ensures RunJob(fs, i).encoded <==> Claims(fs, i) && !i.faults.temp && !i.faults.dump
    ensures RunJob(fs, i).outputPath == if Claims(fs, i) then Some(PlanOf(fs, i.req).value.dst) else None
  {
  }

  /** An exception of run_encode's can only have come out of run_encode. */
  lemma EncodeErrorsComeFromEncode(fs: Fs, i: Inputs)
    requires RunJob(fs, i).outcome.Raised? && RunJob(fs, i).outcome.e.FromEncode?
    ensures RunJob(fs, i).encoded && RunJob(fs, i).outcome.e.how == i.encode && i.encode != EncodeProcess.Completed
  {
  }

  // ---- the source --------------------------------------------------------

  /** In every gap the other processes spare the source and the staging name; the encoder
      writes to the staging path only. */
  ghost predicate SourceSpared(fs: Fs, i: Inputs)
    requires Claims(fs, i)
  {
    var p := PlanOf(fs, i.req).value;
    var c := WithClaim(fs, i);
    var k := AtCheck(c, i);
    var closed := Released(ApplyAll(k, i.gaps.beforeClose));
    var a := Encoding(c, p, i);
    && Spare(c, i.gaps.during, p.src, p.staging)
    && Spare(AtEncodeEnd(c, i), i.gaps.beforeStat, p.src, p.staging)
    && Spare(k, i.gaps.beforeClose, p.src, p.staging)
    && Spare(closed, i.gaps.beforeRename, p.src, p.staging)
    && Spare(a.fs, i.gaps.beforeCleanup, p.src, p.staging)
    && Spare(HandlerClose(a, i).fs, i.gaps.beforeRemove, p.src, p.staging)
    && (TryBody(c, p, i).open ==> Spare(TryBody(c, p, i).fs, i.gaps.beforeFinal, p.src, p.staging))
  }

  ghost predicate Kept(fs: Fs, p: Plan, n: Ino, file: File) {
    Valid(fs) && SourceAt(fs, p.src, n, file) && Apart(fs, p.staging, n)
  }

  lemma GapKeeps(fs: Fs, ops: seq<Op>, p: Plan, n: Ino, file: File)
    requires Kept(fs, p, n, file) && Spare(fs, ops, p.src, p.staging)
    ensures Kept(ApplyAll(fs, ops), p, n, file)
  {
    SpareKeepsSource(fs, ops, p.src, p.staging, n, file);
    HeldThroughout(fs, ops);
  }

  lemma ReleaseKeepsSource(fs: Fs, p: Plan, n: Ino, file: File)
    requires Kept(fs, p, n, file)
    ensures Kept(Released(fs), p, n, file)
  {
    ReleasedHasNone(fs, []);
    CollectKeepsSource(fs.(mine := None), p.src, n, file);
  }

  lemma CloseKeepsSource(fs: Fs, fault: bool, owner: Option<nat>, p: Plan, n: Ino, file: File)
    requires Kept(fs, p, n, file)
    ensures Kept(CloseCall(fs, fault, owner).fs, p, n, file)
  {
    if fs.mine.Some? {
      ReleaseKeepsSource(fs, p, n, file);
    } else if owner.Some? {
      ApplyValid(fs, Close(owner.value));
      CollectKeepsSource(fs.(fds := fs.fds - {owner.value}), p.src, n, file);
    }
  }

  lemma UnlinkKeepsSource(fs: Fs, p: Plan, n: Ino, file: File)
    requires Kept(fs, p, n, file) && p.src != p.staging
    ensures Kept(Unlinked(fs, p.staging), p, n, file)
  {
    var g := fs.(names := fs.names - {p.staging});
    CollectValid(g);
    CollectKeepsSource(g, p.src, n, file);
  }

  lemma RenameKeepsSource(fs: Fs, p: Plan, n: Ino, file: File)
    requires Kept(fs, p, n, file) && p.src != p.staging && p.src != p.dst && p.staging in fs.names && p.staging != p.dst
    ensures SourceAt(Renamed(fs, p.staging, p.dst), p.src, n, file)
  {
    CollectKeepsSource(fs.(names := (fs.names - {p.staging})[p.dst := fs.names[p.staging]]), p.src, n, file);
  }

  lemma StatesKeepSource(k: Fs, p: Plan, i: Inputs, closed: Fs, ready: Fs, n: Ino, file: File)
    requires Kept(k, p, n, file)
    requires closed == Released(ApplyAll(k, i.gaps.beforeClose)) && ready == ApplyAll(closed, i.gaps.beforeRename)
    requires Spare(k, i.gaps.beforeClose, p.src, p.staging) && Spare(closed, i.gaps.beforeRename, p.src, p.staging)
    ensures Kept(closed, p, n, file) && Kept(ready, p, n, file)
  {
    GapKeeps(k, i.gaps.beforeClose, p, n, file);
    ReleaseKeepsSource(ApplyAll(k, i.gaps.beforeClose), p, n, file);
    GapKeeps(closed, i.gaps.beforeRename, p, n, file);
  }

  lemma PublishingKeepsSource(k: Fs, p: Plan, i: Inputs, n: Ino, file: File)
    requires Kept(k, p, n, file) && p.src != p.staging && p.src != p.dst && p.staging != p.dst
    requires Spare(k, i.gaps.beforeClose, p.src, p.staging)
    requires Spare(Released(ApplyAll(k, i.gaps.beforeClose)), i.gaps.beforeRename, p.src, p.staging)
    ensures SourceAt(Publishing(k, p, i).fs, p.src, n, file)
    ensures Publishing(k, p, i).outcome.Raised? ==> Kept(Publishing(k, p, i).fs, p, n, file)
  {
    var closed := Released(ApplyAll(k, i.gaps.beforeClose));
    var ready := ApplyAll(closed, i.gaps.beforeRename);
    StatesKeepSource(k, p, i, closed, ready, n, file);
    var a := Publishing(k, p, i);
    if a.outcome.Done? {
      RenameKeepsSource(ready, p, n, file);
    } else {
      assert a.fs == k || a.fs == closed || a.fs == ready;
    }
  }

  lemma EncodingKeepsSource(c: Fs, p: Plan, i: Inputs, n: Ino, file: File)
    requires Kept(c, p, n, file) && p.src != p.staging && p.src != p.dst && p.staging != p.dst
    requires Spare(c, i.gaps.during, p.src, p.staging)
    requires Spare(AtEncodeEnd(c, i), i.gaps.beforeStat, p.src, p.staging)
    requires Spare(AtCheck(c, i), i.gaps.beforeClose, p.src, p.staging)
    requires Spare(Released(ApplyAll(AtCheck(c, i), i.gaps.beforeClose)), i.gaps.beforeRename, p.src, p.staging)
    ensures SourceAt(Encoding(c, p, i).fs, p.src, n, file)
    ensures Encoding(c, p, i).outcome.Raised? ==> Kept(Encoding(c, p, i).fs, p, n, file)
  {
    GapKeeps(c, i.gaps.during, p, n, file);
    GapKeeps(AtEncodeEnd(c, i), i.gaps.beforeStat, p, n, file);
    PublishingKeepsSource(AtCheck(c, i), p, i, n, file);
  }

  lemma CleanupKeepsSource(a: Attempt, p: Plan, i: Inputs, n: Ino, file: File)
    requires Kept(a.fs, p, n, file) && p.src != p.staging
    requires Spare(a.fs, i.gaps.beforeCleanup, p.src, p.staging)
    requires Spare(HandlerClose(a, i).fs, i.gaps.beforeRemove, p.src, p.staging)
    ensures Kept(Cleanup(a, p, i).fs, p, n, file)
  {
    GapKeeps(a.fs, i.gaps.beforeCleanup, p, n, file);
    CloseKeepsSource(AtCleanup(a, i), i.faults.cleanupClose, i.handlerOwner, p, n, file);
    GapKeeps(HandlerClose(a, i).fs, i.gaps.beforeRemove, p, n, file);
    UnlinkKeepsSource(AtRemove(a, i), p, n, file);
  }

  lemma TryBodyKeepsSource(c: Fs, p: Plan, i: Inputs, n: Ino, file: File)
    requires Kept(c, p, n, file) && p.src != p.staging && p.src != p.dst && p.staging != p.dst
    requires Spare(c, i.gaps.during, p.src, p.staging)
    requires Spare(AtEncodeEnd(c, i), i.gaps.beforeStat, p.src, p.staging)
    requires Spare(AtCheck(c, i), i.gaps.beforeClose, p.src, p.staging)
    requires Spare(Released(ApplyAll(AtCheck(c, i), i.gaps.beforeClose)), i.gaps.beforeRename, p.src, p.staging)
    requires Spare(Encoding(c, p, i).fs, i.gaps.beforeCleanup, p.src, p.staging)
    requires Spare(HandlerClose(Encoding(c, p, i), i).fs, i.gaps.beforeRemove, p.src, p.staging)
    ensures SourceAt(TryBody(c, p, i).fs, p.src, n, file)
    ensures TryBody(c, p, i).open ==> Kept(TryBody(c, p, i).fs, p, n, file)
  {
    if !i.faults.dump {
      EncodingKeepsSource(c, p, i, n, file);
      var a := Encoding(c, p, i);
      if a.outcome.Raised? {
        CleanupKeepsSource(a, p, i, n, file);
      } else {
        assert !a.open;
      }
    }
  }

  lemma FinishKeepsSource(a: Attempt, p: Plan, i: Inputs, n: Ino, file: File)
    requires SourceAt(a.fs, p.src, n, file) && (a.open ==> Kept(a.fs, p, n, file))
    requires a.open ==> Spare(a.fs, i.gaps.beforeFinal, p.src, p.staging)
    ensures SourceAt(Finish(a, p, i).fs, p.src, n, file)
  {
    if a.open {
      GapKeeps(a.fs, i.gaps.beforeFinal, p, n, file);
      CloseKeepsSource(AtFinal(a, i), i.faults.finalClose, i.finalOwner, p, n, file);
    }
  }

  /** Up to the claim: the source is there, so O_EXCL keeps the staging name off it, and
      the collision check keeps the output name off it. */
  lemma ClaimKeepsSource(fs: Fs, i: Inputs, n: Ino, file: File)
    requires Ready(fs) && Claims(fs, i)
    requires SourceAt(AtClaim(fs, i), PlanOf(fs, i.req).value.src, n, file)
    requires SourceAt(fs, PlanOf(fs, i.req).value.src, n, file)
    ensures var p := PlanOf(fs, i.req).value;
            Kept(WithClaim(fs, i), p, n, file) && p.src != p.staging && p.src != p.dst && p.staging != p.dst
  {
    ClaimIsFresh(fs, i);
    HeldThroughout(fs, i.gaps.beforeClaim);
    PlanNamesDiffer(fs, i.req);
  }

  /** The service never changes the source: on every way out, success or failure and
      whichever calls fail, the source path names the same file with the same contents. */
  lemma SourceIsPreserved(fs: Fs, i: Inputs, n: Ino, file: File)
    requires Ready(fs) && i.req.validated.Success? && SourceAt(fs, i.req.validated.value, n, file)
    requires SourceAt(AtClaim(fs, i), i.req.validated.value, n, file)
    requires Claims(fs, i) ==> SourceSpared(fs, i)
    ensures SourceAt(RunJob(fs, i).fs, i.req.validated.value, n, file)
  {
    if Claims(fs, i) {
      PlanNamesDiffer(fs, i.req);
      var p := PlanOf(fs, i.req).value;
      ClaimKeepsSource(fs, i, n, file);
      TryBodyKeepsSource(WithClaim(fs, i), p, i, n, file);
      FinishKeepsSource(TryBody(WithClaim(fs, i), p, i), p, i, n, file);
    }
  }
}
