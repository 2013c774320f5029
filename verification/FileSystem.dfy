/**
 A file system at the level of inodes: names map to inode numbers or are symbolic
 links, files live while a name or an open descriptor refers to them, and the number of
 a file that died may be given to the next one.  A serial number, which no program can
 see, tells apart two files that had the same inode number at different times.

 `mine` is the one descriptor run_encode_job holds; `fds` are everybody else's.
 */
module FileSystem {
  import opened Wrappers

  type Path = string
  type Ino = nat

  datatype Entry = Hard(ino: Ino) | Link(target: Path)

  datatype File = File(serial: nat, data: string)

  datatype Fs = Fs(names: map<Path, Entry>, files: map<Ino, File>, fds: map<nat, Ino>, mine: Option<Ino>, born: nat)

  predicate Linked(fs: Fs, i: Ino) {
    exists p :: p in fs.names && fs.names[p] == Hard(i)
  }

  predicate Held(fs: Fs, i: Ino) {
    fs.mine == Some(i) || exists d :: d in fs.fds && fs.fds[d] == i
  }

  /** Files without a name or a descriptor are freed, and their numbers with them. */
  function Collect(fs: Fs): Fs {
    fs.(files := map i | i in fs.files && (Linked(fs, i) || Held(fs, i)) :: fs.files[i])
  }

  ghost predicate Referenced(fs: Fs) {
    && (forall p :: p in fs.names && fs.names[p].Hard? ==> fs.names[p].ino in fs.files)
    && (forall d :: d in fs.fds ==> fs.fds[d] in fs.files)
    && (fs.mine.Some? ==> fs.mine.value in fs.files)
  }

  ghost predicate Numbered(fs: Fs) {
    && (forall i :: i in fs.files ==> i < fs.born && fs.files[i].serial < fs.born)
    && (forall i, j :: i in fs.files && j in fs.files && fs.files[i].serial == fs.files[j].serial ==> i == j)
  }

  ghost predicate Valid(fs: Fs) {
    && Referenced(fs)
    && Numbered(fs)
    && (forall i :: i in fs.files ==> Linked(fs, i) || Held(fs, i))
  }

  /** The number a new file gets: the free one the kernel likes, or a new one. */
  function Number(fs: Fs, hint: Ino): Ino {
    if hint < fs.born && hint !in fs.files then hint else fs.born
  }

  const MAX_LINKS := 40

  /** The inode a path leads to, following links at its end. */
  function Walk(fs: Fs, p: Path, fuel: nat): Option<Ino>
    decreases fuel
  {
    if p !in fs.names then None
    else match fs.names[p]
      case Hard(i) => Some(i)
      case Link(t) => if fuel == 0 then None else Walk(fs, t, fuel - 1)
  }

  function Resolve(fs: Fs, p: Path): Option<Ino> {
    Walk(fs, p, MAX_LINKS)
  }

  /** os.path.realpath of a path whose directory part is already real. */
  function RealPath(fs: Fs, p: Path, fuel: nat): Path
    decreases fuel
  {
    if p in fs.names && fs.names[p].Link? && fuel > 0 then RealPath(fs, fs.names[p].target, fuel - 1) else p
  }

  // ---- system calls ------------------------------------------------------

  function Created(fs: Fs, p: Path, hint: Ino): Fs {
    var i := Number(fs, hint);
    fs.(names := fs.names[p := Hard(i)], files := fs.files[i := File(fs.born, "")], born := fs.born + 1)
  }

  /** os.open(p, O_CREAT | O_EXCL | O_NOFOLLOW) keeping the descriptor. */
  function Claimed(fs: Fs, p: Path, hint: Ino): Fs {
    Created(fs, p, hint).(mine := Some(Number(fs, hint)))
  }

  function Released(fs: Fs): Fs {
    Collect(fs.(mine := None))
  }

  function Unlinked(fs: Fs, p: Path): Fs {
    Collect(fs.(names := fs.names - {p}))
  }

  /** rename(2): replaces what is at `q`, and does nothing when both are names of one file. */
  function Renamed(fs: Fs, p: Path, q: Path): Fs
    requires p in fs.names
  {
    if p == q || (fs.names[p].Hard? && q in fs.names && fs.names[q] == fs.names[p]) then fs
    else Collect(fs.(names := (fs.names - {p})[q := fs.names[p]]))
  }

  function Written(fs: Fs, p: Path, data: string): Fs {
    var i := Resolve(fs, p);
    if i.Some? && i.value in fs.files then
      fs.(files := fs.files[i.value := fs.files[i.value].(data := data)])
    else fs
  }

  /** What other processes, the encoder among them, can do. */
  datatype Op =
    | Create(p: Path, hint: Ino)
    | Unlink(p: Path)
    | Rename(p: Path, q: Path)
    | HardLink(p: Path, q: Path)
    | Symlink(q: Path, target: Path)
    | Write(p: Path, data: string)
    | Open(d: nat, p: Path)
    | Close(d: nat)

  /** One call of another process; a call that would fail changes nothing. */
  function Apply(fs: Fs, op: Op): Fs {
    match op
    case Create(p, hint) => if p in fs.names then fs else Created(fs, p, hint)
    case Unlink(p) => Unlinked(fs, p)
    case Rename(p, q) => if p in fs.names then Renamed(fs, p, q) else fs
    case HardLink(p, q) =>
      if p in fs.names && fs.names[p].Hard? && q !in fs.names then fs.(names := fs.names[q := fs.names[p]]) else fs
    case Symlink(q, target) => if q in fs.names then fs else fs.(names := fs.names[q := Link(target)])
    case Write(p, data) => Written(fs, p, data)
    case Open(d, p) =>
      if d !in fs.fds && Resolve(fs, p).Some? then fs.(fds := fs.fds[d := Resolve(fs, p).value]) else fs
    case Close(d) => Collect(fs.(fds := fs.fds - {d}))
  }

  function ApplyAll(fs: Fs, ops: seq<Op>): Fs
    decreases |ops|
  {
    if ops == [] then fs else ApplyAll(Apply(fs, ops[0]), ops[1..])
  }

  /** Nobody else closes this job's descriptor. */
  lemma {:induction false} MineKept(fs: Fs, ops: seq<Op>)
    ensures ApplyAll(fs, ops).mine == fs.mine
    decreases |ops|
  {
    if ops != [] {
      MineKept(Apply(fs, ops[0]), ops[1..]);
    }
  }

  lemma {:induction false} ApplyConcat(fs: Fs, a: seq<Op>, b: seq<Op>)
    ensures ApplyAll(fs, a + b) == ApplyAll(ApplyAll(fs, a), b)
    decreases |a|
  {
    if a == [] {
      assert a + b == b;
    } else {
      assert (a + b)[1..] == a[1..] + b;
      ApplyConcat(Apply(fs, a[0]), a[1..], b);
    }
  }

  // ---- every call keeps the file system consistent -----------------------

  lemma CollectValid(fs: Fs)
    requires Referenced(fs) && Numbered(fs)
    ensures Valid(Collect(fs))
  {
    var g := Collect(fs);
    forall i | i in g.files ensures Linked(g, i) || Held(g, i) {
      if Linked(fs, i) {
        var p :| p in fs.names && fs.names[p] == Hard(i);
        assert p in g.names && g.names[p] == Hard(i);
      } else if fs.mine != Some(i) {
        var d :| d in fs.fds && fs.fds[d] == i;
        assert d in g.fds && g.fds[d] == i;
      }
    }
    forall p | p in g.names && g.names[p].Hard? ensures g.names[p].ino in g.files {
      assert fs.names[p] == Hard(fs.names[p].ino);
    }
  }

  lemma {:induction false} WalkInFiles(fs: Fs, p: Path, fuel: nat)
    requires Referenced(fs) && Walk(fs, p, fuel).Some?
    ensures Walk(fs, p, fuel).value in fs.files
    decreases fuel
  {
    if fs.names[p].Link? {
      WalkInFiles(fs, fs.names[p].target, fuel - 1);
    }
  }

  /** Every reference of `fs` is still there in `g`. */
  ghost predicate KeepsReferences(fs: Fs, g: Fs) {
    && (forall p :: p in fs.names && fs.names[p].Hard? ==> p in g.names && g.names[p] == fs.names[p])
    && (fs.mine.Some? ==> g.mine == fs.mine)
    && (forall d :: d in fs.fds ==> d in g.fds && g.fds[d] == fs.fds[d])
  }

  lemma StillReferenced(fs: Fs, g: Fs, i: Ino)
    requires KeepsReferences(fs, g) && (Linked(fs, i) || Held(fs, i))
    ensures Linked(g, i) || Held(g, i)
  {
    if Linked(fs, i) {
      var p :| p in fs.names && fs.names[p] == Hard(i);
      assert g.names[p] == Hard(i);
    } else if fs.mine != Some(i) {
      var d :| d in fs.fds && fs.fds[d] == i;
      assert g.fds[d] == i;
    }
  }

  /** Adding references, or rewriting contents, keeps the file system consistent. */
  lemma MoreReferencesValid(fs: Fs, g: Fs)
    requires Valid(fs) && Referenced(g) && Numbered(g) && KeepsReferences(fs, g) && g.files.Keys == fs.files.Keys
    ensures Valid(g)
  {
    forall i | i in g.files ensures Linked(g, i) || Held(g, i) {
      StillReferenced(fs, g, i);
    }
  }

  lemma CreatedValid(fs: Fs, p: Path, hint: Ino)
    requires Valid(fs) && p !in fs.names
    ensures Valid(Created(fs, p, hint)) && Number(fs, hint) !in fs.files
  {
    var i := Number(fs, hint);
    var g := Created(fs, p, hint);
    assert g.names[p] == Hard(i);
    forall k | k in g.files ensures Linked(g, k) || Held(g, k) {
      if k != i {
        StillReferenced(fs, g, k);
      }
    }
  }

  lemma ClaimedValid(fs: Fs, p: Path, hint: Ino)
    requires Valid(fs) && p !in fs.names && fs.mine.None?
    ensures Valid(Claimed(fs, p, hint)) && Number(fs, hint) !in fs.files
  {
    CreatedValid(fs, p, hint);
    MoreReferencesValid(Created(fs, p, hint), Claimed(fs, p, hint));
  }

  lemma WrittenValid(fs: Fs, p: Path, data: string)
    requires Valid(fs)
    ensures Valid(Written(fs, p, data))
  {
    MoreReferencesValid(fs, Written(fs, p, data));
  }

  lemma RenamedValid(fs: Fs, p: Path, q: Path)
    requires Valid(fs) && p in fs.names
    ensures Valid(Renamed(fs, p, q))
  {
    CollectValid(fs.(names := (fs.names - {p})[q := fs.names[p]]));
  }

  lemma OpenedValid(fs: Fs, d: nat, p: Path)
    requires Valid(fs)
    ensures Valid(Apply(fs, Open(d, p)))
  {
    if Resolve(fs, p).Some? {
      WalkInFiles(fs, p, MAX_LINKS);
      MoreReferencesValid(fs, Apply(fs, Open(d, p)));
    }
  }

  lemma LinkedValid(fs: Fs, op: Op)
    requires Valid(fs) && (op.HardLink? || op.Symlink?)
    ensures Valid(Apply(fs, op)) && Apply(fs, op).mine == fs.mine
  {
    MoreReferencesValid(fs, Apply(fs, op));
  }

  lemma ApplyValid(fs: Fs, op: Op)
    requires Valid(fs)
    ensures Valid(Apply(fs, op)) && Apply(fs, op).mine == fs.mine
  {
    match op
    case Create(p, hint) => if p !in fs.names { CreatedValid(fs, p, hint); }
    case Unlink(p) => CollectValid(fs.(names := fs.names - {p}));
    case Rename(p, q) => if p in fs.names { RenamedValid(fs, p, q); }
    case HardLink(p, q) => LinkedValid(fs, op);
    case Symlink(q, target) => LinkedValid(fs, op);
    case Write(p, data) => WrittenValid(fs, p, data);
    case Open(d, p) => OpenedValid(fs, d, p);
    case Close(d) => CollectValid(fs.(fds := fs.fds - {d}));
  }

  // ---- what a held descriptor guarantees ---------------------------------

  /** While the descriptor is open its file cannot die, so its number cannot be reused:
      whatever other processes call, the number still means the same file. */
  lemma HeldKept(fs: Fs, op: Op)
    requires Valid(fs) && fs.mine.Some?
    ensures var g := Apply(fs, op); var i := fs.mine.value;
            g.mine == Some(i) && i in g.files && g.files[i].serial == fs.files[i].serial
  {
    ApplyValid(fs, op);
    if op.Create? && op.p !in fs.names {
      CreatedValid(fs, op.p, op.hint);
    }
  }

  lemma {:induction false} HeldThroughout(fs: Fs, ops: seq<Op>)
    requires Valid(fs)
    ensures Valid(ApplyAll(fs, ops)) && ApplyAll(fs, ops).mine == fs.mine
    ensures fs.mine.Some? ==> fs.mine.value in ApplyAll(fs, ops).files
    ensures fs.mine.Some? ==> ApplyAll(fs, ops).files[fs.mine.value].serial == fs.files[fs.mine.value].serial
    decreases |ops|
  {
    if ops != [] {
      ApplyValid(fs, ops[0]);
      if fs.mine.Some? {
        HeldKept(fs, ops[0]);
      }
      HeldThroughout(Apply(fs, ops[0]), ops[1..]);
    }
  }

  /** Without the descriptor it is not so: a name can be unlinked and created again with
      the same inode number and another file behind it. */
  lemma NumberCanBeReused(p: Path)
    ensures exists fs: Fs, ops: seq<Op> ::
      && Valid(fs) && fs.mine.None? && Resolve(fs, p).Some?
      && Resolve(ApplyAll(fs, ops), p) == Resolve(fs, p)
      && Resolve(fs, p).value in fs.files && Resolve(fs, p).value in ApplyAll(fs, ops).files
      && ApplyAll(fs, ops).files[Resolve(fs, p).value].serial != fs.files[Resolve(fs, p).value].serial
  {
    var fs := Fs(map[p := Hard(0)], map[0 := File(0, "")], map[], None, 1);
    assert fs.names[p] == Hard(0);
    assert Valid(fs);
    var u := Unlinked(fs, p);
    assert u.names == map[] && u.files == map[];
    var t := Created(u, p, 0);
    var ops := [Unlink(p), Create(p, 0)];
    assert Apply(fs, ops[0]) == u && ops[1..] == [Create(p, 0)];
    assert Apply(u, Create(p, 0)) == t && ops[1..][1..] == [];
    assert ApplyAll(u, [Create(p, 0)]) == ApplyAll(t, [Create(p, 0)][1..]);
    assert ApplyAll(fs, ops) == ApplyAll(u, ops[1..]);
    assert t.names[p] == Hard(0) && t.files[0].serial == 1;
  }

  // ---- what a call leaves alone ------------------------------------------

  /** The names whose entries a call may change. */
  function Touches(op: Op): set<Path> {
    match op
    case Create(p, _) => {p}
    case Unlink(p) => {p}
    case Rename(p, q) => {p, q}
    case HardLink(_, q) => {q}
    case Symlink(q, _) => {q}
    case _ => {}
  }

  predicate SameEntry(fs: Fs, g: Fs, p: Path) {
    (p in fs.names <==> p in g.names) && (p in fs.names ==> fs.names[p] == g.names[p])
  }

  lemma EntryKept(fs: Fs, op: Op, p: Path)
    requires p !in Touches(op)
    ensures SameEntry(fs, Apply(fs, op), p)
  {
  }

  predicate NoneTouches(ops: seq<Op>, p: Path) {
    forall k :: 0 <= k < |ops| ==> p !in Touches(ops[k])
  }

  lemma {:induction false} EntryKeptThroughout(fs: Fs, ops: seq<Op>, p: Path)
    requires NoneTouches(ops, p)
    ensures SameEntry(fs, ApplyAll(fs, ops), p)
    decreases |ops|
  {
    if ops != [] {
      EntryKept(fs, ops[0], p);
      EntryKeptThroughout(Apply(fs, ops[0]), ops[1..], p);
    }
  }

  /** `ps` follows symbolic links from its first path to its last. */
  predicate LinkChain(fs: Fs, ps: seq<Path>) {
    && 0 < |ps| <= 41
    && forall k :: 0 <= k < |ps| - 1 ==> ps[k] in fs.names && fs.names[ps[k]] == Link(ps[k + 1])
  }

  /** Up to forty links are followed, to the path that is none, and to its file. */
  lemma {:induction false} ChainIsFollowed(fs: Fs, ps: seq<Path>, fuel: nat)
    requires LinkChain(fs, ps) && |ps| - 1 <= fuel
    requires var last := ps[|ps| - 1]; last !in fs.names || fs.names[last].Hard?
    ensures RealPath(fs, ps[0], fuel) == ps[|ps| - 1]
    ensures Walk(fs, ps[0], fuel) ==
            (var last := ps[|ps| - 1]; if last in fs.names then Some(fs.names[last].ino) else None)
    decreases |ps|
  {
    if |ps| > 1 {
      assert LinkChain(fs, ps[1..]);
      ChainIsFollowed(fs, ps[1..], fuel - 1);
    }
  }

  /** So the kernel's lookup and realpath follow up to forty. */
  lemma LinksAreFollowed(fs: Fs, ps: seq<Path>)
    requires LinkChain(fs, ps)
    requires var last := ps[|ps| - 1]; last !in fs.names || fs.names[last].Hard?
    ensures RealPath(fs, ps[0], MAX_LINKS) == ps[|ps| - 1]
    ensures Resolve(fs, ps[0]) ==
            (var last := ps[|ps| - 1]; if last in fs.names then Some(fs.names[last].ino) else None)
  {
    ChainIsFollowed(fs, ps, MAX_LINKS);
  }

  /** What the calls of others that only add something do: a write changes the contents of
      the file the path leads to and of no other, a link adds a name for the same file, and
      an open adds a reference to it. */
  lemma CallsAct(fs: Fs, p: Path, q: Path, data: string, d: nat)
    ensures Resolve(fs, p).Some? && Resolve(fs, p).value in fs.files ==>
              var i := Resolve(fs, p).value;
              Apply(fs, Write(p, data)) == fs.(files := fs.files[i := File(fs.files[i].serial, data)])
    ensures p in fs.names && fs.names[p].Hard? && q !in fs.names ==>
              Apply(fs, HardLink(p, q)) == fs.(names := fs.names[q := Hard(fs.names[p].ino)])
    ensures Resolve(fs, p).Some? && d !in fs.fds ==>
              Apply(fs, Open(d, p)) == fs.(fds := fs.fds[d := Resolve(fs, p).value])
  {
  }

  // ---- a source file nobody may change -----------------------------------

  /** `src` names file `i` with these contents. */
  predicate SourceAt(fs: Fs, src: Path, i: Ino, file: File) {
    src in fs.names && fs.names[src] == Hard(i) && i in fs.files && fs.files[i] == file
  }

  /** `staging` is no other name of the source. */
  predicate Apart(fs: Fs, staging: Path, i: Ino) {
    staging in fs.names ==> fs.names[staging].Hard? && fs.names[staging].ino != i
  }

  /** A call that leaves the two names alone and writes to the source under no name;
      writing to the staging path is what the encoder is for. */
  predicate Harmless(fs: Fs, op: Op, src: Path, staging: Path) {
    && src !in Touches(op)
    && staging !in Touches(op)
    && (op.Write? ==> op.p == staging || Resolve(fs, op.p) != Resolve(fs, src))
  }

  predicate Spare(fs: Fs, ops: seq<Op>, src: Path, staging: Path)
    decreases |ops|
  {
    ops == [] || (Harmless(fs, ops[0], src, staging) && Spare(Apply(fs, ops[0]), ops[1..], src, staging))
  }

  lemma CollectKeepsSource(fs: Fs, src: Path, i: Ino, file: File)
    requires SourceAt(fs, src, i, file)
    ensures SourceAt(Collect(fs), src, i, file)
  {
    assert Linked(fs, i);
  }

  lemma HarmlessKeepsSource(fs: Fs, op: Op, src: Path, staging: Path, i: Ino, file: File)
    requires Valid(fs) && SourceAt(fs, src, i, file) && Apart(fs, staging, i)
    requires Harmless(fs, op, src, staging)
    ensures SourceAt(Apply(fs, op), src, i, file) && Apart(Apply(fs, op), staging, i)
  {
    EntryKept(fs, op, staging);
    match op
    case Create(p, hint) => if p !in fs.names { CreatedValid(fs, p, hint); }
    case Unlink(p) => CollectKeepsSource(fs.(names := fs.names - {p}), src, i, file);
    case Rename(p, q) =>
      if p in fs.names {
        CollectKeepsSource(fs.(names := (fs.names - {p})[q := fs.names[p]]), src, i, file);
      }
    case Close(d) => CollectKeepsSource(fs.(fds := fs.fds - {d}), src, i, file);
    case _ =>
  }

  lemma {:induction false} SpareKeepsSource(fs: Fs, ops: seq<Op>, src: Path, staging: Path, i: Ino, file: File)
    requires Valid(fs) && SourceAt(fs, src, i, file) && Apart(fs, staging, i)
    requires Spare(fs, ops, src, staging)
    ensures SourceAt(ApplyAll(fs, ops), src, i, file) && Apart(ApplyAll(fs, ops), staging, i)
    decreases |ops|
  {
    if ops != [] {
      HarmlessKeepsSource(fs, ops[0], src, staging, i, file);
      ApplyValid(fs, ops[0]);
      SpareKeepsSource(Apply(fs, ops[0]), ops[1..], src, staging, i, file);
    }
  }
}
