/**
  The filesystem helpers: stat-based classification of a path, opening a file,
  the absolute-path guards in front of the mutating calls, and the listing of
  the regular files under a directory. Every call into the OS or into a
  library routine whose behaviour is not modelled goes through a `Host`.
 */
module FileSystem {
  import opened Wrappers
  import opened Errors
  import opened Paths

  /** The type of a directory entry, as its file mode reports it. */
  datatype Kind = Regular | Directory | Symlink | NamedPipe | Socket | Device | CharDevice | Irregular

  /** What os.Stat reports: an entry of some kind, an error that means "does not exist", or another error. */
  datatype OsStat = Found(kind: Kind) | NotExist | StatFailed(code: nat)

  /** One call of the walk callback: an entry with its type, or an error for that path. */
  datatype WalkVisit = Visit(path: string, kind: Kind) | VisitErr(path: string, code: nat)

  /** An open file handle. */
  type File = nat

  /**
    The OS and the library routines the helpers delegate to; a failure is an
    OS error code. `walk` lists the callback invocations filepath.Walk makes
    for a root, `clean` is filepath.Clean and `evalSymlinks` is
    filepath.EvalSymlinks.
   */
  datatype Host = Host(
    stat: string -> OsStat,
    open: string -> Result<File, nat>,
    create: string -> Result<File, nat>,
    mkdir: (string, nat) -> Option<nat>,
    mkdirAll: (string, nat) -> Option<nat>,
    removeAll: string -> Option<nat>,
    rename: (string, string) -> Option<nat>,
    walk: string -> seq<WalkVisit>,
    clean: string -> string,
    evalSymlinks: string -> Result<string, nat>)

  /** The permission bits of a new temporary sub-directory: octal 0755. */
  const SubDirPerm: nat := 493

  /** An OS outcome as the error the package returns. */
  function OsError(r: Option<nat>): (e: Option<Error>)
    ensures e.None? <==> r.None?
    ensures r.Some? ==> e == Some(OsErr(r.value))
  {
    if r.None? then None else Some(OsErr(r.value))
  }

  function OsResult<T>(r: Result<T, nat>): (x: Result<T, Error>)
    ensures x.Success? <==> r.Success?
    ensures r.Success? ==> x.value == r.value
    ensures r.Failure? ==> x.error == OsErr(r.error)
  {
    if r.Success? then Success(r.value) else Failure(OsErr(r.error))
  }

  // ---------------------------------------------------------------------------
  // stat and the existence checks
  // ---------------------------------------------------------------------------

  /** The (os.FileInfo, error) pair of `stat`: the entry's kind when there is one. */
  datatype StatResult = StatResult(info: Option<Kind>, err: Option<Error>)

  /** A (bool, error) pair as the existence checks return it. */
  datatype Probe = Probe(found: bool, err: Option<Error>)

  /**
    stat: an absent entry is not an error but a missing FileInfo; any other
    error is returned unchanged; never an entry and an error at once.
   */
  function Stat(path: string, host: Host): (r: StatResult)
    ensures r.info.Some? <==> host.stat(path).Found?
    ensures r.info.Some? ==> r.info.value == host.stat(path).kind
    ensures r.err.Some? <==> host.stat(path).StatFailed?
    ensures r.err.Some? ==> r.err.value == OsErr(host.stat(path).code)
    ensures r.info.None? || r.err.None?
  {
    match host.stat(path)
    case Found(kind) => StatResult(Some(kind), None)
    case NotExist => StatResult(None, None)
    case StatFailed(code) => StatResult(None, Some(OsErr(code)))
  }

  /** isFileExists: (true, nil) for an existing entry of any kind; a stat error comes back with false. */
  function IsFileExists(path: string, host: Host): (r: Probe)
    ensures !IsAbsolutePath(path) ==> r == Probe(false, Some(ErrNotAbsolutePath))
    ensures r.found <==> IsAbsolutePath(path) && host.stat(path).Found?
    ensures r.found ==> r.err.None?
    ensures r == Probe(false, None) <==> IsAbsolutePath(path) && host.stat(path).NotExist?
    ensures IsAbsolutePath(path) && host.stat(path).StatFailed? ==>
              r == Probe(false, Some(OsErr(host.stat(path).code)))
  {
    if !IsAbsolutePath(path) then Probe(false, Some(ErrNotAbsolutePath))
    else
      var s := Stat(path, host);
      Probe(s.info.Some?, s.err)
  }

  /**
    isRegularFileExists: (true, nil) exactly for an existing regular file,
    (false, nil) exactly for an absent entry, ErrNotRegularFile exactly for an
    existing entry of another kind; a stat error is returned unchanged.
   */
  function IsRegularFileExists(path: string, host: Host): (r: Probe)
    ensures !IsAbsolutePath(path) ==> r == Probe(false, Some(ErrNotAbsolutePath))
    ensures r.found <==> IsAbsolutePath(path) && host.stat(path) == Found(Regular)
    ensures r.found ==> r.err.None?
    ensures r == Probe(false, None) <==> IsAbsolutePath(path) && host.stat(path).NotExist?
    ensures r.err == Some(ErrNotRegularFile) <==>
              IsAbsolutePath(path) && host.stat(path).Found? && host.stat(path).kind != Regular
    ensures IsAbsolutePath(path) && host.stat(path).StatFailed? ==>
              r == Probe(false, Some(OsErr(host.stat(path).code)))
  {
    if !IsAbsolutePath(path) then Probe(false, Some(ErrNotAbsolutePath))
    else
      var s := Stat(path, host);
      if s.err.Some? then Probe(false, s.err)
      else if s.info.None? then Probe(false, None)
      else if s.info.value != Regular then Probe(false, Some(ErrNotRegularFile))
      else Probe(true, None)
  }

  /** isDirExists: the same classification as isRegularFileExists, for directories and ErrNotDir. */
  function IsDirExists(path: string, host: Host): (r: Probe)
    ensures !IsAbsolutePath(path) ==> r == Probe(false, Some(ErrNotAbsolutePath))
    ensures r.found <==> IsAbsolutePath(path) && host.stat(path) == Found(Directory)
    ensures r.found ==> r.err.None?
    ensures r == Probe(false, None) <==> IsAbsolutePath(path) && host.stat(path).NotExist?
    ensures r.err == Some(ErrNotDir) <==>
              IsAbsolutePath(path) && host.stat(path).Found? && host.stat(path).kind != Directory
    ensures IsAbsolutePath(path) && host.stat(path).StatFailed? ==>
              r == Probe(false, Some(OsErr(host.stat(path).code)))
  {
    if !IsAbsolutePath(path) then Probe(false, Some(ErrNotAbsolutePath))
    else
      var s := Stat(path, host);
      if s.err.Some? then Probe(false, s.err)
      else if s.info.None? then Probe(false, None)
      else if s.info.value != Directory then Probe(false, Some(ErrNotDir))
      else Probe(true, None)
  }

  /**
    The three checks agree: the specific checks find only what isFileExists
    finds, never both find the same path, an entry isFileExists finds without
    error is either found or refused with the kind's sentinel by each specific
    check, and when isFileExists reports absence or an error so do the others.
   */
  lemma ChecksAgree(path: string, host: Host)
    ensures IsRegularFileExists(path, host).found ==> IsFileExists(path, host).found
    ensures IsDirExists(path, host).found ==> IsFileExists(path, host).found
    ensures !(IsRegularFileExists(path, host).found && IsDirExists(path, host).found)
    ensures IsFileExists(path, host) == Probe(true, None) ==>
              && (IsRegularFileExists(path, host).found || IsRegularFileExists(path, host).err == Some(ErrNotRegularFile))
              && (IsDirExists(path, host).found || IsDirExists(path, host).err == Some(ErrNotDir))
    ensures !IsFileExists(path, host).found ==>
              IsRegularFileExists(path, host) == IsDirExists(path, host) == IsFileExists(path, host)
  {
  }

  // ---------------------------------------------------------------------------
  // open and the guarded calls
  // ---------------------------------------------------------------------------

  /**
    open: a relative path is refused, a stat error is returned, an absent path
    gives ErrFileDoesNotExist; only an existing entry reaches os.Open.
   */
  function Open(path: string, host: Host): (r: Result<File, Error>)
    ensures !IsAbsolutePath(path) ==> r == Failure(ErrNotAbsolutePath)
    ensures r == Failure(ErrFileDoesNotExist) <==> IsAbsolutePath(path) && host.stat(path).NotExist?
    ensures IsAbsolutePath(path) && host.stat(path).StatFailed? ==> r == Failure(OsErr(host.stat(path).code))
    ensures IsAbsolutePath(path) && host.stat(path).Found? ==> r == OsResult(host.open(path))
  {
    if !IsAbsolutePath(path) then Failure(ErrNotAbsolutePath)
    else
      var p := IsFileExists(path, host);
      if p.err.Some? then Failure(p.err.value)
      else if !p.found then Failure(ErrFileDoesNotExist)
      else OsResult(host.open(path))
  }

  /** create: a relative path is refused; otherwise os.Create's outcome. */
  function Create(path: string, host: Host): (r: Result<File, Error>)
    ensures r == Failure(ErrNotAbsolutePath) <==> !IsAbsolutePath(path)
    ensures IsAbsolutePath(path) ==> r == OsResult(host.create(path))
  {
    if !IsAbsolutePath(path) then Failure(ErrNotAbsolutePath) else OsResult(host.create(path))
  }

  /** mkdir: a relative path is refused; otherwise os.Mkdir's outcome. */
  function Mkdir(path: string, perm: nat, host: Host): (r: Option<Error>)
    ensures r == Some(ErrNotAbsolutePath) <==> !IsAbsolutePath(path)
    ensures IsAbsolutePath(path) ==> r == OsError(host.mkdir(path, perm))
  {
    if !IsAbsolutePath(path) then Some(ErrNotAbsolutePath) else OsError(host.mkdir(path, perm))
  }

  /** mkdirAll: a relative path is refused; otherwise os.MkdirAll's outcome. */
  function MkdirAll(path: string, perm: nat, host: Host): (r: Option<Error>)
    ensures r == Some(ErrNotAbsolutePath) <==> !IsAbsolutePath(path)
    ensures IsAbsolutePath(path) ==> r == OsError(host.mkdirAll(path, perm))
  {
    if !IsAbsolutePath(path) then Some(ErrNotAbsolutePath) else OsError(host.mkdirAll(path, perm))
  }

  /** removeAll: a relative path is refused; otherwise os.RemoveAll's outcome. */
  function RemoveAll(path: string, host: Host): (r: Option<Error>)
    ensures r == Some(ErrNotAbsolutePath) <==> !IsAbsolutePath(path)
    ensures IsAbsolutePath(path) ==> r == OsError(host.removeAll(path))
  {
    if !IsAbsolutePath(path) then Some(ErrNotAbsolutePath) else OsError(host.removeAll(path))
  }

  /** rename: refused when either path is relative; otherwise os.Rename's outcome. */
  function Rename(oldpath: string, newpath: string, host: Host): (r: Option<Error>)
    ensures r == Some(ErrNotAbsolutePath) <==> !IsAbsolutePath(oldpath) || !IsAbsolutePath(newpath)
    ensures IsAbsolutePath(oldpath) && IsAbsolutePath(newpath) ==> r == OsError(host.rename(oldpath, newpath))
  {
    if !IsAbsolutePath(oldpath) then Some(ErrNotAbsolutePath)
    else if !IsAbsolutePath(newpath) then Some(ErrNotAbsolutePath)
    else OsError(host.rename(oldpath, newpath))
  }

  /** cleanPath: filepath.EvalSymlinks of filepath.Clean. */
  function CleanPath(path: string, host: Host): (r: Result<string, Error>)
    ensures r.Success? <==> host.evalSymlinks(host.clean(path)).Success?
    ensures r.Success? ==> r.value == host.evalSymlinks(host.clean(path)).value
    ensures r.Failure? ==> r.error == OsErr(host.evalSymlinks(host.clean(path)).error)
  {
    OsResult(host.evalSymlinks(host.clean(path)))
  }

  /** filepath.Join of a base directory and a non-empty name: the cleaned concatenation. */
  function Join(base: string, name: string, host: Host): (joined: string) {
    host.clean(base + "/" + name)
  }

  /**
    newTempSubDir: a relative base is refused; otherwise the sub-directory
    named `id` (the fresh UUID) is created with mode 0755, its error returned,
    and on success the cleaned, symlink-free path of the new directory.
   */
  function NewTempSubDir(base: string, id: string, host: Host): (r: Result<string, Error>)
    ensures r == Failure(ErrNotAbsolutePath) <==> !IsAbsolutePath(base)
    ensures IsAbsolutePath(base) && host.mkdir(Join(base, id, host), SubDirPerm).Some? ==>
              r == Failure(OsErr(host.mkdir(Join(base, id, host), SubDirPerm).value))
    ensures IsAbsolutePath(base) && host.mkdir(Join(base, id, host), SubDirPerm).None? ==>
              r == CleanPath(Join(base, id, host), host)
  {
    if !IsAbsolutePath(base) then Failure(ErrNotAbsolutePath)
    else
      var subDir := Join(base, id, host);
      var err := OsError(host.mkdir(subDir, SubDirPerm));
      if err.Some? then Failure(err.value)
      else CleanPath(subDir, host)
  }

  /**
    A relative path never reaches the host: every guarded helper returns
    ErrNotAbsolutePath, whatever the host would have answered.
   */
  lemma RelativeNeverReachesHost(path: string, other: string, perm: nat, id: string, h1: Host, h2: Host)
    requires !IsAbsolutePath(path)
    ensures IsFileExists(path, h1) == IsFileExists(path, h2) == Probe(false, Some(ErrNotAbsolutePath))
    ensures IsRegularFileExists(path, h1) == IsRegularFileExists(path, h2) == Probe(false, Some(ErrNotAbsolutePath))
    ensures IsDirExists(path, h1) == IsDirExists(path, h2) == Probe(false, Some(ErrNotAbsolutePath))
    ensures Open(path, h1) == Open(path, h2) == Failure(ErrNotAbsolutePath)
    ensures Create(path, h1) == Create(path, h2) == Failure(ErrNotAbsolutePath)
    ensures Mkdir(path, perm, h1) == Mkdir(path, perm, h2) == Some(ErrNotAbsolutePath)
    ensures MkdirAll(path, perm, h1) == MkdirAll(path, perm, h2) == Some(ErrNotAbsolutePath)
    ensures RemoveAll(path, h1) == RemoveAll(path, h2) == Some(ErrNotAbsolutePath)
    ensures Rename(path, other, h1) == Rename(other, path, h2) == Some(ErrNotAbsolutePath)
    ensures NewTempSubDir(path, id, h1) == NewTempSubDir(path, id, h2) == Failure(ErrNotAbsolutePath)
    ensures ListRegularFiles(path, h1) == ListRegularFiles(path, h2) == Failure(ErrNotAbsolutePath)
  {
  }

  // ---------------------------------------------------------------------------
  // listRegularFiles
  // ---------------------------------------------------------------------------

  /** No callback invocation of the walk carries an error. */
  predicate WalkClean(visits: seq<WalkVisit>) {
    forall i :: 0 <= i < |visits| ==> visits[i].Visit?
  }

  /**
    The walk callback of listRegularFiles over a sequence of invocations: the
    first error aborts the walk and is returned; otherwise the paths of the
    regular entries, in walk order.
   */
  function RegularFiles(visits: seq<WalkVisit>): (r: Result<seq<string>, Error>)
    ensures r.Success? <==> WalkClean(visits)
    ensures r.Failure? ==> r.error.OsErr?
    ensures r.Success? ==> forall p :: p in r.value <==> Visit(p, Regular) in visits
    ensures r.Success? ==> |r.value| <= |visits|
  {
    if visits == [] then Success([])
    else if visits[0].VisitErr? then Failure(OsErr(visits[0].code))
    else
      var rest := RegularFiles(visits[1..]);
      assert visits == [visits[0]] + visits[1..];
      if rest.Failure? then rest
      else if visits[0].kind == Regular then Success([visits[0].path] + rest.value)
      else rest
  }

  /**
    The walk is aborted by its first error: after error-free invocations
    `done`, an erroneous one makes the listing fail with exactly that error,
    whatever comes after it.
   */
  lemma {:induction false} RegularFilesFirstError(done: seq<WalkVisit>, path: string, code: nat, later: seq<WalkVisit>)
    requires WalkClean(done)
    ensures RegularFiles(done + [VisitErr(path, code)] + later) == Failure(OsErr(code))
  {
    var visits := done + [VisitErr(path, code)] + later;
    if done != [] {
      assert visits[1..] == done[1..] + [VisitErr(path, code)] + later;
      RegularFilesFirstError(done[1..], path, code, later);
    }
  }

  /**
    Files are listed in walk order: the listing of two consecutive stretches of
    the walk is the first stretch's listing followed by the second's.
   */
  lemma {:induction false} RegularFilesAppend(a: seq<WalkVisit>, b: seq<WalkVisit>)
    requires WalkClean(a) && WalkClean(b)
    ensures RegularFiles(a + b) == Success(RegularFiles(a).value + RegularFiles(b).value)
  {
    if a == [] {
      assert a + b == b;
      assert RegularFiles(a).value + RegularFiles(b).value == RegularFiles(b).value;
    } else {
      assert (a + b)[0] == a[0];
      assert (a + b)[1..] == a[1..] + b;
      assert WalkClean(a[1..]);
      RegularFilesAppend(a[1..], b);
      var rest := RegularFiles(a[1..]).value;
      var tail := RegularFiles(b).value;
      if a[0].kind == Regular {
        assert [a[0].path] + (rest + tail) == [a[0].path] + rest + tail;
      }
    }
  }

  /** One invocation for an entry lists its path exactly when the entry is a regular file. */
  lemma RegularFilesSingle(path: string, kind: Kind)
    ensures RegularFiles([Visit(path, kind)]) == Success(if kind == Regular then [path] else [])
  {
    var v := [Visit(path, kind)];
    assert v[1..] == [];
    assert RegularFiles(v[1..]) == Success([]);
    assert v[0].kind == kind;
    if kind == Regular {
      assert [path] + [] == [path];
      assert RegularFiles(v) == Success([path] + []);
    } else {
      assert RegularFiles(v) == Success([]);
    }
  }

  /**
    listRegularFiles: a relative root is refused before any walking; otherwise
    the filter of the walk from that root.
   */
  function ListRegularFiles(root: string, host: Host): (r: Result<seq<string>, Error>)
    ensures r == Failure(ErrNotAbsolutePath) <==> !IsAbsolutePath(root)
    ensures IsAbsolutePath(root) ==> (r.Success? <==> WalkClean(host.walk(root)))
    ensures r.Success? ==> forall p :: p in r.value <==> Visit(p, Regular) in host.walk(root)
  {
    if !IsAbsolutePath(root) then Failure(ErrNotAbsolutePath)
    else RegularFiles(host.walk(root))
  }
}
