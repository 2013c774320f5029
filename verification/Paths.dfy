/** Names of the files a job writes, derived from the source path (POSIX rules). */
module Paths {
  import opened Wrappers

  datatype PathError = InvalidToken(token: string)

  const OUTPUT_PREFIX := ".hbenc-"

  predicate IsTokenChar(c: char) {
    'A' <= c <= 'Z' || 'a' <= c <= 'z' || '0' <= c <= '9' || c == '_' || c == '-'
  }

  /** The whole string, and at least one character. */
  predicate SafeToken(s: string) {
    s != "" && forall i :: 0 <= i < |s| ==> IsTokenChar(s[i])
  }

  predicate IsHex(s: string) {
    s != "" && forall i :: 0 <= i < |s| ==> '0' <= s[i] <= '9' || 'a' <= s[i] <= 'f'
  }

  /** The part of a path up to and including its last slash. */
  function Head(p: string): string {
    if p == "" || p[|p| - 1] == '/' then p else Head(p[..|p| - 1])
  }

  function StripSlashes(p: string): string {
    if p != "" && p[|p| - 1] == '/' then StripSlashes(p[..|p| - 1]) else p
  }

  /** os.path.dirname: trailing slashes go, unless there is nothing else. */
  function DirName(p: string): string {
    if StripSlashes(Head(p)) == "" then Head(p) else StripSlashes(Head(p))
  }

  /** os.path.join of a directory and a name that does not start with a slash. */
  function JoinName(dir: string, name: string): string {
    if dir == "" || dir[|dir| - 1] == '/' then dir + name else dir + "/" + name
  }

  function OutputName(id: string, ext: string): string {
    OUTPUT_PREFIX + id + "." + ext
  }

  function StagingName(id: string, token: string, ext: string): string {
    OUTPUT_PREFIX + id + "-" + token + "." + ext
  }

  function DeriveOutputPath(source: string, id: string, ext: string): Result<string, PathError> {
    if !SafeToken(id) then Failure(InvalidToken(id))
    else if !SafeToken(ext) then Failure(InvalidToken(ext))
    else Success(JoinName(DirName(source), OutputName(id, ext)))
  }

  function DeriveStagingPath(source: string, id: string, ext: string, token: string): Result<string, PathError> {
    if !SafeToken(id) then Failure(InvalidToken(id))
    else if !SafeToken(ext) then Failure(InvalidToken(ext))
    else if !SafeToken(token) then Failure(InvalidToken(token))
    else Success(JoinName(DirName(source), StagingName(id, token, ext)))
  }

  // ---- the derived file is in the source directory -----------------------

  lemma {:induction false} HeadOfJoin(dir: string, name: string)
    requires dir == "" || dir[|dir| - 1] == '/'
    requires '/' !in name
    ensures Head(dir + name) == dir
    decreases |name|
  {
    if name == "" {
      assert dir + name == dir;
    } else {
      var n := |name| - 1;
      assert (dir + name)[..|dir + name| - 1] == dir + name[..n];
      assert name[n] in name;
      HeadOfJoin(dir, name[..n]);
    }
  }

  lemma {:induction false} StripIdempotent(p: string)
    ensures StripSlashes(StripSlashes(p)) == StripSlashes(p)
    ensures StripSlashes(p) == "" || StripSlashes(p)[|StripSlashes(p)| - 1] != '/'
    decreases |p|
  {
    if p != "" && p[|p| - 1] == '/' {
      StripIdempotent(p[..|p| - 1]);
    }
  }

  lemma {:induction false} HeadEndsInSlash(p: string)
    ensures Head(p) == "" || Head(p)[|Head(p)| - 1] == '/'
    decreases |p|
  {
    if p != "" && p[|p| - 1] != '/' {
      HeadEndsInSlash(p[..|p| - 1]);
    }
  }

  lemma DirNameOfJoin(source: string, name: string)
    requires '/' !in name
    ensures DirName(JoinName(DirName(source), name)) == DirName(source)
  {
    var dir := DirName(source);
    HeadEndsInSlash(source);
    StripIdempotent(Head(source));
    if dir == "" || dir[|dir| - 1] == '/' {
      HeadOfJoin(dir, name);
    } else {
      HeadOfJoin(dir + "/", name);
      assert dir + "/" + name == (dir + "/") + name;
      assert (dir + "/")[..|dir|] == dir;
    }
  }

  lemma SafeHasNoSlash(s: string)
    requires SafeToken(s)
    ensures '/' !in s && '.' !in s
  {
  }

  lemma NamesHaveNoSlash(id: string, token: string, ext: string)
    requires SafeToken(id) && SafeToken(ext)
    ensures '/' !in OutputName(id, ext)
    ensures SafeToken(token) ==> '/' !in StagingName(id, token, ext)
  {
    SafeHasNoSlash(id);
    SafeHasNoSlash(ext);
  }

  /** Both derived files are siblings of the source. */
  lemma DerivedInSourceDirectory(source: string, id: string, ext: string, token: string)
    ensures DeriveOutputPath(source, id, ext).Success? ==>
              DirName(DeriveOutputPath(source, id, ext).value) == DirName(source)
    ensures DeriveStagingPath(source, id, ext, token).Success? ==>
              DirName(DeriveStagingPath(source, id, ext, token).value) == DirName(source)
  {
    if SafeToken(id) && SafeToken(ext) {
      NamesHaveNoSlash(id, token, ext);
      DirNameOfJoin(source, OutputName(id, ext));
      if SafeToken(token) {
        DirNameOfJoin(source, StagingName(id, token, ext));
      }
    }
  }

  lemma {:induction false} StripOneSlash(dir: string)
    requires dir != "" && dir[|dir| - 1] != '/'
    ensures StripSlashes(dir + "/") == dir
  {
    var p := dir + "/";
    assert p[..|p| - 1] == dir && p[|p| - 1] == '/';
  }

  lemma {:induction false} StripRoot(root: string)
    requires |root| == 1 && root[0] == '/'
    ensures StripSlashes(root) == ""
  {
    assert root[..|root| - 1] == "";
  }

  lemma {:induction false} DirNameOfRoot(root: string, name: string)
    requires |root| == 1 && root[0] == '/' && '/' !in name
    ensures DirName(root + name) == root
  {
    HeadOfJoin(root, name);
    StripRoot(root);
  }

  lemma {:induction false} DirNameOfBare(name: string)
    requires '/' !in name
    ensures DirName(name) == ""
  {
    HeadOfJoin("", name);
    assert "" + name == name;
  }

  /** What the directory of a path is, without a word about how it is found: what stands
      before its last slash, if that is a directory without one at its end; the root for a
      name in the root; nothing for a bare name. */
  lemma {:induction false} DirNameIs(dir: string, name: string)
    requires '/' !in name
    ensures dir != "" && dir[|dir| - 1] != '/' ==> DirName(dir + "/" + name) == dir
    ensures DirName("/" + name) == "/" && DirName(name) == ""
  {
    DirNameOfRoot("/", name);
    DirNameOfBare(name);
    if dir != "" && dir[|dir| - 1] != '/' {
      var head := dir + "/";
      HeadOfJoin(head, name);
      StripOneSlash(dir);
    }
  }

  lemma {:induction false} OutputTail(start: string, id: string, ext: string)
    ensures start + OutputName(id, ext) == start + ".hbenc-" + id + "." + ext
  {
  }

  lemma {:induction false} StagingTail(start: string, id: string, token: string, ext: string)
    ensures start + StagingName(id, token, ext) == start + ".hbenc-" + id + "-" + token + "." + ext
  {
  }

  /** The two derived paths, written out. */
  lemma {:induction false} DerivedPathsAre(dir: string, name: string, id: string, ext: string, token: string)
    requires '/' !in name && dir != "" && dir[|dir| - 1] != '/'
    requires SafeToken(id) && SafeToken(ext) && SafeToken(token)
    ensures DeriveOutputPath(dir + "/" + name, id, ext) == Success(dir + "/.hbenc-" + id + "." + ext)
    ensures DeriveStagingPath(dir + "/" + name, id, ext, token) ==
            Success(dir + "/.hbenc-" + id + "-" + token + "." + ext)
    ensures DeriveOutputPath("/" + name, id, ext) == Success("/.hbenc-" + id + "." + ext)
    ensures DeriveStagingPath("/" + name, id, ext, token) == Success("/.hbenc-" + id + "-" + token + "." + ext)
  {
    DirNameIs(dir, name);
    OutputTail(dir + "/", id, ext);
    StagingTail(dir + "/", id, token, ext);
    OutputTail("/", id, ext);
    StagingTail("/", id, token, ext);
    assert dir + "/" + ".hbenc-" == dir + "/.hbenc-" && "/" + ".hbenc-" == "/.hbenc-";
  }

  /** Not empty, and made of ASCII digits, letters, dashes and underscores. */
  predicate Plain(s: string) {
    s != "" && forall i :: 0 <= i < |s| ==>
      var n := s[i] as int; 48 <= n <= 57 || 65 <= n <= 90 || 97 <= n <= 122 || n == 45 || n == 95
  }

  lemma PlainIsSafe(s: string)
    ensures Plain(s) <==> SafeToken(s)
  {
  }

  /** A token is refused exactly when it is empty or holds anything but letters, digits,
      underscores and dashes; the id is looked at first, then the extension. */
  lemma DerivedIff(source: string, id: string, ext: string, token: string)
    ensures DeriveOutputPath(source, id, ext).Success? <==> Plain(id) && Plain(ext)
    ensures DeriveStagingPath(source, id, ext, token).Success? <==> Plain(id) && Plain(ext) && Plain(token)
    ensures !Plain(id) ==> DeriveOutputPath(source, id, ext) == Failure(InvalidToken(id))
    ensures Plain(id) && !Plain(ext) ==> DeriveOutputPath(source, id, ext) == Failure(InvalidToken(ext))
  {
    PlainIsSafe(id);
    PlainIsSafe(ext);
    PlainIsSafe(token);
  }

  // ---- the names are injective and disjoint ------------------------------

  function FirstIndex(s: string, c: char): nat {
    if s == "" || s[0] == c then 0 else 1 + FirstIndex(s[1..], c)
  }

  function LastIndex(s: string, c: char): nat {
    if s == "" || s[|s| - 1] == c then |s| else LastIndex(s[..|s| - 1], c)
  }

  lemma {:induction false} FirstAt(a: string, x: string, sep: char)
    requires sep !in a
    ensures FirstIndex(a + [sep] + x, sep) == |a|
    decreases |a|
  {
    var s := a + [sep] + x;
    if a != "" {
      assert a[0] in a;
      assert s[1..] == a[1..] + [sep] + x;
      FirstAt(a[1..], x, sep);
    }
  }

  lemma {:induction false} LastAt(a: string, x: string, sep: char)
    requires sep !in x
    ensures LastIndex(a + [sep] + x, sep) == |a| + 1
    decreases |x|
  {
    var s := a + [sep] + x;
    if x != "" {
      var n := |x| - 1;
      assert x[n] in x;
      assert s[..|s| - 1] == a + [sep] + x[..n];
      LastAt(a, x[..n], sep);
    }
  }

  lemma PartsOf(a: string, x: string, sep: char)
    ensures (a + [sep] + x)[..|a|] == a && (a + [sep] + x)[|a| + 1..] == x
  {
  }

  /** A separator that the left parts do not contain splits uniquely. */
  lemma SplitAt(a: string, x: string, b: string, y: string, sep: char)
    requires sep !in a && sep !in b
    requires a + [sep] + x == b + [sep] + y
    ensures a == b && x == y
  {
    FirstAt(a, x, sep);
    FirstAt(b, y, sep);
    PartsOf(a, x, sep);
    PartsOf(b, y, sep);
  }

  /** The same from the right. */
  lemma SplitAtEnd(a: string, x: string, b: string, y: string, sep: char)
    requires sep !in x && sep !in y
    requires a + [sep] + x == b + [sep] + y
    ensures a == b && x == y
  {
    LastAt(a, x, sep);
    LastAt(b, y, sep);
    PartsOf(a, x, sep);
    PartsOf(b, y, sep);
  }

  lemma SamePrefix(p: string, a: string, b: string)
    requires p + a == p + b
    ensures a == b
  {
    assert a == (p + a)[|p|..] && b == (p + b)[|p|..];
  }

  lemma JoinInjective(dir: string, a: string, b: string)
    requires JoinName(dir, a) == JoinName(dir, b)
    ensures a == b
  {
    if dir == "" || dir[|dir| - 1] == '/' {
      SamePrefix(dir, a, b);
    } else {
      SamePrefix(dir + "/", a, b);
    }
  }

  lemma OutputParts(id: string, ext: string)
    ensures OutputName(id, ext) == OUTPUT_PREFIX + (id + ['.'] + ext)
  {
  }

  lemma StagingParts(id: string, token: string, ext: string)
    ensures StagingName(id, token, ext) == OUTPUT_PREFIX + ((id + ['-'] + token) + ['.'] + ext)
  {
  }

  /** Every source of a directory shares one name space: the derived names hold nothing of
      the source's own name.  Whatever the two sources, equal output paths come from one
      directory, one job id and one extension. */
  lemma OutputInjective(s1: string, id1: string, ext1: string, s2: string, id2: string, ext2: string)
    requires DeriveOutputPath(s1, id1, ext1).Success?
    requires DeriveOutputPath(s1, id1, ext1) == DeriveOutputPath(s2, id2, ext2)
    ensures DirName(s1) == DirName(s2) && id1 == id2 && ext1 == ext2
  {
    DerivedInSourceDirectory(s1, id1, ext1, "0");
    DerivedInSourceDirectory(s2, id2, ext2, "0");
    JoinInjective(DirName(s1), OutputName(id1, ext1), OutputName(id2, ext2));
    OutputParts(id1, ext1);
    OutputParts(id2, ext2);
    SamePrefix(OUTPUT_PREFIX, id1 + ['.'] + ext1, id2 + ['.'] + ext2);
    SafeHasNoSlash(id1);
    SafeHasNoSlash(id2);
    SplitAt(id1, ext1, id2, ext2, '.');
  }

  /** And equal staging paths from one token too, when the tokens are hexadecimal. */
  lemma StagingInjective(s1: string, id1: string, ext1: string, t1: string,
                         s2: string, id2: string, ext2: string, t2: string)
    requires IsHex(t1) && IsHex(t2)
    requires DeriveStagingPath(s1, id1, ext1, t1).Success?
    requires DeriveStagingPath(s1, id1, ext1, t1) == DeriveStagingPath(s2, id2, ext2, t2)
    ensures DirName(s1) == DirName(s2) && id1 == id2 && ext1 == ext2 && t1 == t2
  {
    DerivedInSourceDirectory(s1, id1, ext1, t1);
    DerivedInSourceDirectory(s2, id2, ext2, t2);
    JoinInjective(DirName(s1), StagingName(id1, t1, ext1), StagingName(id2, t2, ext2));
    StagingParts(id1, t1, ext1);
    StagingParts(id2, t2, ext2);
    SamePrefix(OUTPUT_PREFIX, (id1 + ['-'] + t1) + ['.'] + ext1, (id2 + ['-'] + t2) + ['.'] + ext2);
    SafeHasNoSlash(id1);
    SafeHasNoSlash(id2);
    SafeHasNoSlash(t1);
    SafeHasNoSlash(t2);
    SplitAt(id1 + ['-'] + t1, ext1, id2 + ['-'] + t2, ext2, '.');
    SplitAtEnd(id1, t1, id2, t2, '-');
  }

  /** A staged file never has a published name, whatever the two jobs and sources, when
      job ids hold no dash; uuid4().hex gives none. */
  lemma FamiliesDisjoint(s1: string, id1: string, ext1: string, s2: string, id2: string, ext2: string, token: string)
    requires '-' !in id1
    requires DeriveOutputPath(s1, id1, ext1).Success? && DeriveStagingPath(s2, id2, ext2, token).Success?
    ensures DeriveOutputPath(s1, id1, ext1) != DeriveStagingPath(s2, id2, ext2, token)
  {
    if DeriveOutputPath(s1, id1, ext1) == DeriveStagingPath(s2, id2, ext2, token) {
      DerivedInSourceDirectory(s1, id1, ext1, token);
      DerivedInSourceDirectory(s2, id2, ext2, token);
      JoinInjective(DirName(s1), OutputName(id1, ext1), StagingName(id2, token, ext2));
      OutputParts(id1, ext1);
      StagingParts(id2, token, ext2);
      var s := id2 + ['-'] + token;
      SamePrefix(OUTPUT_PREFIX, id1 + ['.'] + ext1, s + ['.'] + ext2);
      SafeHasNoSlash(id1);
      SafeHasNoSlash(id2);
      SafeHasNoSlash(token);
      assert s[|id2|] == '-';
      SplitAt(id1, ext1, s, ext2, '.');
      assert false;
    }
  }

  /** For one job the two names differ without any condition. */
  lemma StagingIsNotOutput(source: string, id: string, ext: string, token: string)
    requires DeriveOutputPath(source, id, ext).Success? && DeriveStagingPath(source, id, ext, token).Success?
    ensures DeriveOutputPath(source, id, ext).value != DeriveStagingPath(source, id, ext, token).value
  {
    if DeriveOutputPath(source, id, ext) == DeriveStagingPath(source, id, ext, token) {
      assert |OutputName(id, ext)| < |StagingName(id, token, ext)|;
      JoinInjective(DirName(source), OutputName(id, ext), StagingName(id, token, ext));
      assert false;
    }
  }
}
