/**
 * The workspace sandbox: a map-based model of the file system the tool
 * handlers act on, `path.join` as POSIX path normalisation, and the five
 * file-system calls the handlers make (`writeFile`, `readFile`, `unlink`,
 * recursive `mkdir`, recursive `rmdir`) plus `readdir`, each with the
 * error the operating system reports.
 *
 * A path is the sequence of its segments below `/`; `[]` is `/` itself,
 * which is always a directory. The store maps every other existing path to
 * a file (with its UTF-8 text) or a directory.
 */
module Workspace {
  import opened Common
  import Text

  type Path = seq<string>

  datatype Node = FileNode(content: string) | DirNode

  type Store = map<Path, Node>

  predicate IsDir(s: Store, p: Path) {
    p == [] || (p in s && s[p].DirNode?)
  }

  predicate IsFile(s: Store, p: Path) {
    p != [] && p in s && s[p].FileNode?
  }

  predicate IsPrefix(p: Path, q: Path) {
    |p| <= |q| && q[..|p|] == p
  }

  /** Every entry of the store sits in a directory of the store. */
  predicate WellFormed(s: Store) {
    forall q :: q in s ==> |q| > 0 && IsDir(s, q[..|q| - 1])
  }

  /** Some proper ancestor of `p` is a regular file. */
  predicate BlockedByFile(s: Store, p: Path) {
    exists k :: 0 < k < |p| && IsFile(s, p[..k])
  }

  // ---------------------------------------------------------------------
  // Errors

  datatype ErrorCode = ENOENT | EISDIR | ENOTDIR | EEXIST | EBUSY

  /** A Node file-system error: code, system call and (usually) the path. */
  datatype FsError = FsError(code: ErrorCode, syscall: string, path: Option<Path>)

  /** `path` rendered the way Node prints an absolute POSIX path. */
  function Render(p: Path): string {
    "/" + Text.Join(p, '/')
  }

  function CodeText(code: ErrorCode): string {
    match code
    case ENOENT => "ENOENT: no such file or directory"
    case EISDIR => "EISDIR: illegal operation on a directory"
    case ENOTDIR => "ENOTDIR: not a directory"
    case EEXIST => "EEXIST: file already exists"
    case EBUSY => "EBUSY: resource busy or locked"
  }

  /** `error.message` of a Node file-system error. */
  function Message(e: FsError): string {
    CodeText(e.code) + ", " + e.syscall
    + (match e.path case Some(p) => " '" + Render(p) + "'" case None => "")
  }

  /**
   * The error for a path that does not exist: the walk down the path meets
   * a regular file (ENOTDIR) or a missing entry (ENOENT).
   */
  function Missing(s: Store, p: Path, syscall: string): FsError {
    FsError(if BlockedByFile(s, p) then ENOTDIR else ENOENT, syscall, Some(p))
  }

  // ---------------------------------------------------------------------
  // path.join

  /** A segment that survives normalisation unchanged. */
  predicate IsSegment(x: string) {
    x != "" && x != "." && x != ".." && '/' !in x
  }

  predicate Normalized(p: Path) {
    forall i :: 0 <= i < |p| ==> IsSegment(p[i])
  }

  /**
   * POSIX normalisation of `segs` on top of the already normalised `stack`:
   * empty and `.` segments vanish, `..` drops the last segment and stops at
   * `/`.
   */
  function NormalizeFrom(stack: Path, segs: seq<string>): (r: Path)
    requires Normalized(stack)
    requires forall i :: 0 <= i < |segs| ==> '/' !in segs[i]
    ensures Normalized(r)
    decreases |segs|
  {
    if |segs| == 0 then stack
    else if segs[0] == "" || segs[0] == "." then NormalizeFrom(stack, segs[1..])
    else if segs[0] == ".." then
      NormalizeFrom(if |stack| == 0 then [] else stack[..|stack| - 1], segs[1..])
    else NormalizeFrom(stack + [segs[0]], segs[1..])
  }

  /** The segments of the string `Render(root) + "/" + p`, in order. */
  function JoinedSegments(root: Path, p: string): (r: seq<string>)
    requires Normalized(root)
    ensures forall i :: 0 <= i < |r| ==> '/' !in r[i]
  {
    var tail := Text.Split(p, '/');
    assert forall i :: 0 <= i < |tail| ==> '/' !in tail[i];
    root + tail
  }

  /**
   * `path.join(workspacePath, p)`: the normalised path of `p` taken
   * relative to the workspace root. Nothing keeps the result inside `root`.
   */
  function Resolve(root: Path, p: string): (r: Path)
    requires Normalized(root)
    ensures Normalized(r)
  {
    NormalizeFrom([], JoinedSegments(root, p))
  }

  // ---------------------------------------------------------------------
  // File-system calls

  /** `fs.writeFile(p, c)`: creates or truncates the regular file `p`. */
  function WriteFile(s: Store, p: Path, c: string): (r: Result<Store, FsError>)
    ensures r.Ok? <==> p != [] && !IsDir(s, p) && IsDir(s, p[..|p| - 1])
    ensures r.Ok? ==> IsFile(r.value, p) && r.value[p].content == c
    ensures r.Ok? ==> forall q :: q != p ==> (q in r.value <==> q in s)
    ensures r.Ok? ==> forall q :: q in s && q != p ==> r.value[q] == s[q]
    ensures r.Err? && IsDir(s, p) ==> r.error.code == EISDIR
  {
    if IsDir(s, p) then Err(FsError(EISDIR, "open", Some(p)))
    else if IsDir(s, p[..|p| - 1]) then Ok(s[p := FileNode(c)])
    else Err(Missing(s, p, "open"))
  }

  /** `fs.readFile(p, "utf8")`. */
  function ReadFile(s: Store, p: Path): (r: Result<string, FsError>)
    ensures r.Ok? <==> IsFile(s, p)
    ensures r.Ok? ==> r.value == s[p].content
    ensures r.Err? && !IsDir(s, p) ==> r.error.code in {ENOENT, ENOTDIR}
  {
    if IsFile(s, p) then Ok(s[p].content)
    else if IsDir(s, p) then Err(FsError(EISDIR, "read", None))
    else Err(Missing(s, p, "open"))
  }

  /** `fs.unlink(p)`: removes a regular file; a directory is refused. */
  function Unlink(s: Store, p: Path): (r: Result<Store, FsError>)
    ensures r.Ok? <==> IsFile(s, p)
    ensures r.Ok? ==> p !in r.value
    ensures r.Ok? ==> forall q :: q != p ==> (q in r.value <==> q in s)
    ensures r.Ok? ==> forall q :: q in r.value ==> r.value[q] == s[q]
  {
    if IsFile(s, p) then Ok(s - {p})
    else if IsDir(s, p) then Err(FsError(EISDIR, "unlink", Some(p)))
    else Err(Missing(s, p, "unlink"))
  }

  /** The non-root ancestors of `p`, `p` itself included. */
  function Prefixes(p: Path): (r: set<Path>)
    ensures forall q :: q in r <==> 0 < |q| && IsPrefix(q, p)
  {
    var r := set k | 1 <= k <= |p| :: p[..k];
    assert forall q :: 0 < |q| && IsPrefix(q, p) ==> q == p[..|q|] && q in r;
    r
  }

  /** `fs.mkdir(p, { recursive: true })`: creates `p` and its missing ancestors. */
  function MkdirRecursive(s: Store, p: Path): (r: Result<Store, FsError>)
    ensures r.Ok? <==> forall k :: 0 < k <= |p| ==> !IsFile(s, p[..k])
    ensures r.Ok? ==> forall k :: 0 <= k <= |p| ==> IsDir(r.value, p[..k])
    ensures r.Ok? ==> forall q :: q in s ==> q in r.value && r.value[q] == s[q]
    ensures r.Ok? ==> forall q :: q in r.value && q !in s ==> 0 < |q| && IsPrefix(q, p)
    ensures r.Err? ==> r.error.code == (if IsFile(s, p) then EEXIST else ENOTDIR)
  {
    if IsFile(s, p) then
      assert p[..|p|] == p;
      Err(FsError(EEXIST, "mkdir", Some(p)))
    else if BlockedByFile(s, p) then Err(FsError(ENOTDIR, "mkdir", Some(p)))
    else
      var added := map q | q in Prefixes(p) :: DirNode;
      var r := s + added;
      assert forall k :: 0 < k <= |p| ==> p[..k] in Prefixes(p);
      assert forall q :: q in s ==> r[q] == s[q] by {
        forall q | q in s ensures r[q] == s[q] {
          if q in Prefixes(p) {
            assert q == p[..|q|];
          }
        }
      }
      Ok(r)
  }

  /**
   * `fs.rmdir(p, { recursive: true })` as Node 16 to 22 implement it: the
   * path is `stat`ed first; a directory goes with everything below it, a
   * regular file is refused by `rmdir`. `/` itself cannot be removed.
   */
  function RmdirRecursive(s: Store, p: Path): (r: Result<Store, FsError>)
    ensures r.Ok? <==> p != [] && IsDir(s, p)
    ensures r.Ok? ==> forall q :: q in r.value <==> q in s && !IsPrefix(p, q)
    ensures r.Ok? ==> forall q :: q in r.value ==> r.value[q] == s[q]
  {
    if p == [] then Err(FsError(EBUSY, "rmdir", Some(p)))
    else if IsDir(s, p) then Ok(map q | q in s && !IsPrefix(p, q) :: s[q])
    else if IsFile(s, p) then Err(FsError(ENOTDIR, "rmdir", Some(p)))
    else Err(Missing(s, p, "stat"))
  }

  /** `fs.readdir(p)`: the names of the entries directly inside `p`. */
  function ReadDir(s: Store, p: Path): (r: Result<set<string>, FsError>)
    ensures r.Ok? <==> IsDir(s, p)
    ensures r.Ok? ==> forall n :: n in r.value <==> p + [n] in s
  {
    if IsDir(s, p) then
      var names := set q | q in s && |q| == |p| + 1 && q[..|p|] == p :: q[|p|];
      assert forall n :: p + [n] in s ==> (p + [n])[|p|] == n && (p + [n])[..|p|] == p;
      assert forall q :: q in s && |q| == |p| + 1 && q[..|p|] == p ==> q == p + [q[|p|]];
      Ok(names)
    else if IsFile(s, p) then Err(FsError(ENOTDIR, "scandir", Some(p)))
    else Err(Missing(s, p, "scandir"))
  }

  // ---------------------------------------------------------------------
  // Session workspace

  const WorkspacePrefix := "agent-app-"

  /**
   * `createWorkspace`: the directory `agent-app-<uid>` under `base`,
   * created with its ancestors. `uid` is the fresh name the source draws
   * from `uuidv4`. A failure is fatal to the session.
   */
  function CreateWorkspace(base: Path, uid: string, s: Store): (r: Result<(Path, Store), FsError>)
    requires Normalized(base)
    ensures r.Ok? ==> r.value.0 == Resolve(base, WorkspacePrefix + uid)
    ensures r.Ok? ==> IsDir(r.value.1, r.value.0)
    ensures r.Ok? ==> forall q :: q in s ==> q in r.value.1 && r.value.1[q] == s[q]
  {
    var root := Resolve(base, WorkspacePrefix + uid);
    match MkdirRecursive(s, root)
    case Ok(s') => Ok((root, s'))
    case Err(e) => Err(e)
  }
}
