/**
 * Properties of the workspace model: every file-system call keeps the store
 * well formed, `path.join` keeps a path without `..` below the workspace
 * root, and — since the handlers add no containment check — a relative
 * argument can name any absolute path at all.
 */
module WorkspaceFacts {
  import opened Common
  import Text
  import opened Workspace

  // ---------------------------------------------------------------------
  // Well-formedness is an invariant of every call

  lemma WriteFileKeepsWellFormed(s: Store, p: Path, c: string)
    requires WellFormed(s)
    requires WriteFile(s, p, c).Ok?
    ensures WellFormed(WriteFile(s, p, c).value)
  {
    var s' := WriteFile(s, p, c).value;
    forall q | q in s' ensures |q| > 0 && IsDir(s', q[..|q| - 1]) {
      var par := q[..|q| - 1];
      if q == p {
        assert par != p;
      } else {
        assert q in s;
        assert par != p;
      }
    }
  }

  lemma UnlinkKeepsWellFormed(s: Store, p: Path)
    requires WellFormed(s)
    requires Unlink(s, p).Ok?
    ensures WellFormed(Unlink(s, p).value)
  {
    var s' := Unlink(s, p).value;
    forall q | q in s' ensures |q| > 0 && IsDir(s', q[..|q| - 1]) {
      assert q in s;
      var par := q[..|q| - 1];
      assert par != p;
    }
  }

  lemma MkdirKeepsWellFormed(s: Store, p: Path)
    requires WellFormed(s)
    requires MkdirRecursive(s, p).Ok?
    ensures WellFormed(MkdirRecursive(s, p).value)
  {
    var s' := MkdirRecursive(s, p).value;
    forall q | q in s' ensures |q| > 0 && IsDir(s', q[..|q| - 1]) {
      if q in s {
        var par := q[..|q| - 1];
        assert IsDir(s, par);
        if par != [] {
          assert par in s;
        }
      } else {
        assert IsPrefix(q, p);
        assert q == p[..|q|];
        assert q[..|q| - 1] == p[..|q| - 1];
      }
    }
  }

  lemma RmdirKeepsWellFormed(s: Store, p: Path)
    requires WellFormed(s)
    requires RmdirRecursive(s, p).Ok?
    ensures WellFormed(RmdirRecursive(s, p).value)
  {
    var s' := RmdirRecursive(s, p).value;
    forall q | q in s' ensures |q| > 0 && IsDir(s', q[..|q| - 1]) {
      assert q in s && !IsPrefix(p, q);
      var par := q[..|q| - 1];
      if par != [] {
        assert par in s;
        if |p| <= |par| {
          assert q[..|p|] == par[..|p|];
        }
        assert par in s';
      }
    }
  }

  /** Every ancestor of an entry of a well-formed store is a directory. */
  lemma {:induction false} AncestorsAreDirs(s: Store, q: Path)
    requires WellFormed(s) && q in s
    ensures forall k :: 0 <= k < |q| ==> IsDir(s, q[..k])
    decreases |q|
  {
    var par := q[..|q| - 1];
    if par != [] {
      AncestorsAreDirs(s, par);
      assert forall k :: 0 <= k < |par| ==> par[..k] == q[..k];
    }
  }

  /** Once a file is unlinked, opening it fails with ENOENT at that path. */
  lemma UnlinkThenRead(s: Store, p: Path)
    requires WellFormed(s)
    requires Unlink(s, p).Ok?
    ensures ReadFile(Unlink(s, p).value, p) == Err(FsError(ENOENT, "open", Some(p)))
  {
    var s' := Unlink(s, p).value;
    AncestorsAreDirs(s, p);
    assert !BlockedByFile(s', p) by {
      forall k | 0 < k < |p| ensures !IsFile(s', p[..k]) {
        assert IsDir(s, p[..k]);
        assert p[..k] != p;
      }
    }
    assert !IsDir(s', p);
  }

  // ---------------------------------------------------------------------
  // path.join

  /** A run of `..` segments. */
  function Dots(n: nat): (r: seq<string>)
    ensures |r| == n && forall i :: 0 <= i < n ==> r[i] == ".."
  {
    if n == 0 then [] else [".."] + Dots(n - 1)
  }

  /** `"../"` repeated `n` times. */
  function Climb(n: nat): string {
    if n == 0 then "" else "../" + Climb(n - 1)
  }

  /** Normalising segments that are already clean just appends them. */
  lemma {:induction false} NormalizeClean(stack: Path, segs: seq<string>)
    requires Normalized(stack) && Normalized(segs)
    ensures NormalizeFrom(stack, segs) == stack + segs
    decreases |segs|
  {
    if |segs| > 0 {
      assert Normalized(stack + [segs[0]]);
      assert Normalized(segs[1..]);
      NormalizeClean(stack + [segs[0]], segs[1..]);
      assert stack + [segs[0]] + segs[1..] == stack + segs;
    }
  }

  /** Normalisation of a concatenation runs the second part on the first's result. */
  lemma {:induction false} NormalizeAppend(stack: Path, a: seq<string>, b: seq<string>)
    requires Normalized(stack)
    requires forall i :: 0 <= i < |a| ==> '/' !in a[i]
    requires forall i :: 0 <= i < |b| ==> '/' !in b[i]
    ensures NormalizeFrom(stack, a + b) == NormalizeFrom(NormalizeFrom(stack, a), b)
    decreases |a|
  {
    if |a| > 0 {
      assert (a + b)[0] == a[0];
      assert (a + b)[1..] == a[1..] + b;
      var next := if a[0] == "" || a[0] == "." then stack
                  else if a[0] == ".." then (if |stack| == 0 then [] else stack[..|stack| - 1])
                  else stack + [a[0]];
      NormalizeAppend(next, a[1..], b);
    } else {
      assert a + b == b;
    }
  }

  /** `..` segments climb one directory each, and stop at `/`. */
  lemma {:induction false} NormalizeDots(stack: Path, n: nat, segs: seq<string>)
    requires Normalized(stack) && |stack| <= n
    requires forall i :: 0 <= i < |segs| ==> '/' !in segs[i]
    ensures NormalizeFrom(stack, Dots(n) + segs) == NormalizeFrom([], segs)
  {
    if n > 0 {
      var rest := Dots(n - 1) + segs;
      assert Dots(n) + segs == [".."] + rest;
      assert ([".."] + rest)[1..] == rest;
      NormalizeDots(if |stack| == 0 then [] else stack[..|stack| - 1], n - 1, segs);
    } else {
      assert Dots(n) + segs == segs;
      assert stack == [];
    }
  }

  /** `path.join(root, p)` is `p` normalised on top of `root`. */
  lemma ResolveFromRoot(root: Path, p: string)
    requires Normalized(root)
    ensures NormalizeFrom(root, Text.Split(p, '/')) == Resolve(root, p)
  {
    var tail := Text.Split(p, '/');
    NormalizeAppend([], root, tail);
    NormalizeClean([], root);
    assert [] + root == root;
  }

  lemma {:induction false} NoDotsStaysBelow(stack: Path, segs: seq<string>)
    requires Normalized(stack)
    requires forall i :: 0 <= i < |segs| ==> '/' !in segs[i] && segs[i] != ".."
    ensures IsPrefix(stack, NormalizeFrom(stack, segs))
    decreases |segs|
  {
    if |segs| > 0 {
      if segs[0] == "" || segs[0] == "." {
        NoDotsStaysBelow(stack, segs[1..]);
      } else {
        var next := stack + [segs[0]];
        NoDotsStaysBelow(next, segs[1..]);
        var r := NormalizeFrom(next, segs[1..]);
        assert r[..|next|] == next;
        assert r[..|stack|] == next[..|stack|];
      }
    }
  }

  /** A relative path with no `..` segment resolves inside the workspace root. */
  lemma ResolveWithoutDotsStaysInside(root: Path, p: string)
    requires Normalized(root)
    requires forall i :: 0 <= i < |Text.Split(p, '/')| ==> Text.Split(p, '/')[i] != ".."
    ensures IsPrefix(root, Resolve(root, p))
  {
    ResolveFromRoot(root, p);
    NoDotsStaysBelow(root, Text.Split(p, '/'));
  }

  lemma {:induction false} SplitClimb(n: nat, rest: string)
    ensures Text.Split(Climb(n) + rest, '/') == Dots(n) + Text.Split(rest, '/')
  {
    if n > 0 {
      var tail := Climb(n - 1) + rest;
      AppendAssoc("../", Climb(n - 1), rest);
      assert "../" == ".." + ['/'];
      Text.SplitCons("..", '/', tail);
      SplitClimb(n - 1, rest);
      AppendAssoc([".."], Dots(n - 1), Text.Split(rest, '/'));
    } else {
      assert Climb(n) + rest == rest;
    }
  }

  /**
   * There is no containment check: from a workspace root of depth `|root|`,
   * the relative argument `"../" * |root| + t` names the absolute path `t`,
   * whatever it is.
   */
  lemma ResolveReachesAnyPath(root: Path, t: Path)
    requires Normalized(root) && Normalized(t)
    ensures Resolve(root, Climb(|root|) + Text.Join(t, '/')) == t
  {
    var p := Climb(|root|) + Text.Join(t, '/');
    SplitClimb(|root|, Text.Join(t, '/'));
    var tail := Text.Split(Text.Join(t, '/'), '/');
    if |t| > 0 {
      Text.SplitJoin(t, '/');
      NormalizeClean([], t);
      assert [] + t == t;
    } else {
      assert tail == [""];
    }
    ResolveFromRoot(root, p);
    NormalizeDots(root, |root|, tail);
  }

  /** The workspace directory is a direct child of the base, named after the uid. */
  lemma WorkspaceRootIsChildOfBase(base: Path, uid: string)
    requires Normalized(base)
    requires '/' !in uid
    ensures Resolve(base, WorkspacePrefix + uid) == base + [WorkspacePrefix + uid]
  {
    var name := WorkspacePrefix + uid;
    assert '/' !in name by {
      assert forall i :: 0 <= i < |name| ==> name[i] != '/' by {
        forall i | 0 <= i < |name| ensures name[i] != '/' {
          if i >= |WorkspacePrefix| {
            assert name[i] == uid[i - |WorkspacePrefix|];
          }
        }
      }
    }
    Text.IndexOfAbsent(name, '/');
    assert Text.Split(name, '/') == [name];
    assert name[..3] == "age";
    assert IsSegment(name);
    ResolveFromRoot(base, name);
    NormalizeClean(base, [name]);
  }

  /** Distinct fresh names give distinct workspaces. */
  lemma DistinctUidsDistinctRoots(base: Path, u1: string, u2: string)
    requires Normalized(base)
    requires '/' !in u1 && '/' !in u2 && u1 != u2
    ensures Resolve(base, WorkspacePrefix + u1) != Resolve(base, WorkspacePrefix + u2)
  {
    WorkspaceRootIsChildOfBase(base, u1);
    WorkspaceRootIsChildOfBase(base, u2);
    var r1 := base + [WorkspacePrefix + u1];
    var r2 := base + [WorkspacePrefix + u2];
    assert r1[|base|] == WorkspacePrefix + u1;
    assert r2[|base|] == WorkspacePrefix + u2;
    assert (WorkspacePrefix + u1)[|WorkspacePrefix|..] == u1;
    assert (WorkspacePrefix + u2)[|WorkspacePrefix|..] == u2;
  }

  lemma CreateWorkspaceKeepsWellFormed(base: Path, uid: string, s: Store)
    requires Normalized(base) && WellFormed(s)
    requires CreateWorkspace(base, uid, s).Ok?
    ensures WellFormed(CreateWorkspace(base, uid, s).value.1)
  {
    MkdirKeepsWellFormed(s, Resolve(base, WorkspacePrefix + uid));
  }
}
