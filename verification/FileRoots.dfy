/**
The file API's choice of directory (pkg/initd/files.go) over the roots execd configures
(pkg/execd/proxy.go), and its agreement with what the sandbox was mounted to see.
*/
module FileRoots {
  import opened Options
  import opened Paths
  import opened Bwrap
  import opened CommandLine
  import opened Generate
  import opened MountView

  datatype Root = Root(path: string, readOnly: bool)

  function MountRoots(mounts: seq<Mount>): seq<Root> {
    seq(|mounts|, i requires 0 <= i < |mounts| => Root(mounts[i].path, mounts[i].readOnly))
  }

  function Roots(spec: Spec): seq<Root> {
    [Root(WorkspacePath(spec), false)] + MountRoots(spec.mounts)
  }

  /** configureInit's root list: the workspace goes first, and gets its path last. */
  method ConfigureRoots(spec: Spec, l: Layout) returns (roots: seq<Root>)
    ensures roots == Roots(spec)
  {
    roots := [Root(l.workspaceDir, false)];
    for i := 0 to |spec.mounts|
      invariant roots == [Root(l.workspaceDir, false)] + MountRoots(spec.mounts[..i])
    {
      assert MountRoots(spec.mounts[..i + 1])
          == MountRoots(spec.mounts[..i]) + [Root(spec.mounts[i].path, spec.mounts[i].readOnly)];
      roots := roots + [Root(spec.mounts[i].path, spec.mounts[i].readOnly)];
    }
    assert spec.mounts[..|spec.mounts|] == spec.mounts;
    var ws := spec.workspace;
    if ws == "" {
      ws := DEFAULT_WORKSPACE;
    }
    roots := roots[0 := roots[0].(path := ws)];
  }

  // --------------------------------------------------------------- resolveRoot

  /** `clean` relative to the cleaned root `rc`, if it is in there. */
  function Relative(rc: string, clean: string): Option<string> {
    if clean == rc then Some(".")
    else if rc + "/" <= clean then Some(clean[|rc| + 1..])
    else None
  }

  /** The longest matching root, the first of them if several are as long. */
  function Best(roots: seq<Root>, clean: string): Option<(Root, string)> {
    if roots == [] then None
    else
      var r := roots[|roots| - 1];
      var earlier := Best(roots[..|roots| - 1], clean);
      var rel := Relative(Clean(r.path), clean);
      if rel.Some? && (earlier.None? || |Clean(r.path)| > |Clean(earlier.value.0.path)|)
      then Some((r, rel.value)) else earlier
  }

  function Resolve(roots: seq<Root>, path: string): Option<(Root, string)> {
    if Rooted(path) then Best(roots, Clean(path)) else None
  }

  method ResolveRoot(roots: seq<Root>, path: string) returns (r: Option<(Root, string)>)
    ensures r == Resolve(roots, path)
  {
    if !Rooted(path) {
      return None;
    }
    var clean := Clean(path);
    r := None;
    for i := 0 to |roots|
      invariant r == Best(roots[..i], clean)
    {
      assert roots[..i + 1][..i] == roots[..i];
      var rc := Clean(roots[i].path);
      var rel := Relative(rc, clean);
      if rel.Some? && (r.None? || |rc| > |Clean(r.value.0.path)|) {
        r := Some((roots[i], rel.value));
      }
    }
    assert roots[..|roots|] == roots;
  }

  /** What "best" means: one of the roots, matching, and no matching root is longer. */
  lemma {:induction false} BestIsLongest(roots: seq<Root>, clean: string)
    ensures Best(roots, clean).None? ==>
              forall i :: 0 <= i < |roots| ==> Relative(Clean(roots[i].path), clean).None?
    ensures Best(roots, clean).Some? ==>
              var (r, rel) := Best(roots, clean).value;
              && r in roots && Relative(Clean(r.path), clean) == Some(rel)
              && forall i :: 0 <= i < |roots| && Relative(Clean(roots[i].path), clean).Some? ==>
                   |Clean(roots[i].path)| <= |Clean(r.path)|
  {
    hide Clean, Relative;
    if roots != [] {
      BestIsLongest(roots[..|roots| - 1], clean);
    }
  }

  // ------------------------------------------------ agreement with the mounts

  predicate IsReadOnly(op: Op) {
    op.RoBind? || op.RoBindFd? || op.RoBindTry?
  }

  /** On a clean root other than "/", matching is containment. */
  lemma MatchingIsContaining(root: string, clean: string)
    requires Clean(root) == root && root != "/"
    ensures Relative(Clean(root), clean).Some? <==> Contains(root, clean)
  {
  }

  lemma RootsAreClean(spec: Spec, p: Policy, l: Layout)
    requires Accepts(spec, p, l)
    ensures forall r :: r in Roots(spec) ==> Clean(r.path) == r.path && r.path != "/"
  {
  }

  lemma WorkspaceIsClean(spec: Spec, p: Policy, l: Layout)
    requires Accepts(spec, p, l)
    ensures Clean(WorkspacePath(spec)) == WorkspacePath(spec) && WorkspacePath(spec) != "/"
  {
  }

  /** A mount root that is longest is the deepest mount. */
  lemma LongestIsDeepest(spec: Spec, q: string, m: Mount)
    requires m in spec.mounts && m.path != "/" && Contains(m.path, q)
    requires forall x :: x in spec.mounts && Contains(x.path, q) ==> |x.path| <= |m.path|
    ensures DeepestAt(spec.mounts, q, m)
  {
    forall x | x in spec.mounts && Contains(x.path, q)
      ensures Contains(x.path, m.path)
    {
      AncestorsAreComparable(x.path, m.path, q);
      if Contains(m.path, x.path) && m.path != x.path {
        AncestorIsShallower(m.path, x.path);
      }
    }
  }

  /** A mount inside which a path of the workspace lies is longer than the workspace. */
  lemma MountsOutgrowWorkspace(spec: Spec, q: string, m: Mount)
    requires Contains(m.path, q) && Contains(WorkspacePath(spec), q)
    requires !Contains(m.path, WorkspacePath(spec)) && WorkspacePath(spec) != "/"
    ensures |WorkspacePath(spec)| < |m.path|
  {
    AncestorsAreComparable(m.path, WorkspacePath(spec), q);
    AncestorIsShallower(WorkspacePath(spec), m.path);
  }

  /**
  For every admitted specification and every path under no hide, the root the file API picks
  is the tenant bind the sandbox finally shows there, with the same read-only flag; and it
  finds no root exactly when no tenant bind covers the path.
  */
  lemma FileApiMatchesView(spec: Spec, p: Policy, l: Layout, path: string)
    requires Accepts(spec, p, l) && Rooted(path) && UnderNoHide(spec, Clean(path))
    ensures Resolve(Roots(spec), path).None? <==> Cover(TenantBinds(spec, p, l), Clean(path)).None?
    ensures Resolve(Roots(spec), path).Some? ==>
              var root := Resolve(Roots(spec), path).value.0;
              var shown := View(Argv(spec, p, l), Clean(path));
              && shown.Some? && shown == Cover(TenantBinds(spec, p, l), Clean(path))
              && shown.value.dst == root.path && IsReadOnly(shown.value) == root.readOnly
  {
    hide *;
    var q := Clean(path);
    ResolveIsBest(Roots(spec), path);
    ViewByLayer(spec, p, l, q);
    NoHideCovers(spec, p, q);
    if Best(Roots(spec), q).None? {
      NoRootNoBind(spec, p, l, q);
    } else {
      BestRootIsShown(spec, p, l, q);
    }
  }

  lemma ResolveIsBest(roots: seq<Root>, path: string)
    requires Rooted(path)
    ensures Resolve(roots, path) == Best(roots, Clean(path))
  {
  }

  /** Roots and tenant binds match the same paths. */
  lemma RootsMatch(spec: Spec, p: Policy, l: Layout, q: string)
    requires Accepts(spec, p, l)
    ensures forall r :: r in Roots(spec) ==>
              Clean(r.path) == r.path && (Relative(Clean(r.path), q).Some? <==> Contains(r.path, q))
    ensures Root(WorkspacePath(spec), false) in Roots(spec)
    ensures forall m :: m in spec.mounts ==> Root(m.path, m.readOnly) in Roots(spec)
  {
    RootsAreClean(spec, p, l);
    hide Accepts, Clean, Contains, Relative;
    forall r | r in Roots(spec)
      ensures Relative(Clean(r.path), q).Some? <==> Contains(r.path, q)
    {
      MatchingIsContaining(r.path, q);
    }
    assert Roots(spec)[0] == Root(WorkspacePath(spec), false);
    forall m | m in spec.mounts
      ensures Root(m.path, m.readOnly) in Roots(spec)
    {
      var i :| 0 <= i < |spec.mounts| && spec.mounts[i] == m;
      assert Roots(spec)[i + 1] == Root(m.path, m.readOnly);
    }
  }

  lemma NoRootNoBind(spec: Spec, p: Policy, l: Layout, q: string)
    requires Accepts(spec, p, l) && Best(Roots(spec), q).None?
    ensures Cover(TenantBinds(spec, p, l), q).None?
  {
    hide Accepts, Clean, Contains, Relative, Cover, TenantBinds, Roots, Best;
    RootsMatch(spec, p, l, q);
    BestIsLongest(Roots(spec), q);
    NoMountCovers(spec, p, l, q);
  }

  lemma BestRootIsShown(spec: Spec, p: Policy, l: Layout, q: string)
    requires Accepts(spec, p, l) && Best(Roots(spec), q).Some?
    ensures var root := Best(Roots(spec), q).value.0;
            var shown := Cover(TenantBinds(spec, p, l), q);
            shown.Some? && shown.value.dst == root.path && IsReadOnly(shown.value) == root.readOnly
  {
    hide Accepts, Clean, Contains, Relative, Cover, TenantBinds, Best, OrderedMounts, MountOp, IsReadOnly;
    var roots := Roots(spec);
    RootsMatch(spec, p, l, q);
    BestIsLongest(roots, q);
    var r := Best(roots, q).value.0;
    var i :| 0 <= i < |roots| && roots[i] == r;
    forall x | x in roots && Contains(x.path, q)
      ensures |x.path| <= |r.path|
    {
      var k :| 0 <= k < |roots| && roots[k] == x;
    }
    if i == 0 {
      WorkspaceIsBest(spec, p, l, q, r);
    } else {
      MountIsBest(spec, p, l, q, spec.mounts[i - 1]);
    }
  }

  lemma WorkspaceIsBest(spec: Spec, p: Policy, l: Layout, q: string, r: Root)
    requires Accepts(spec, p, l) && r == Root(WorkspacePath(spec), false) && Contains(r.path, q)
    requires forall m :: m in spec.mounts && Contains(m.path, q) ==> |m.path| <= |r.path|
    ensures Cover(TenantBinds(spec, p, l), q) == Some(WorkspaceOp(spec, l))
    ensures WorkspaceOp(spec, l).dst == r.path && !IsReadOnly(WorkspaceOp(spec, l))
  {
    AcceptedMounts(spec, p, l);
    WorkspaceIsClean(spec, p, l);
    hide Accepts, Contains, Cover, TenantBinds, IsAbsClean, ApartFrom;
    if m :| m in spec.mounts && Contains(m.path, q) {
      MountsOutgrowWorkspace(spec, q, m);
    }
    NoMountCovers(spec, p, l, q);
  }

  lemma MountIsBest(spec: Spec, p: Policy, l: Layout, q: string, m: Mount)
    requires Accepts(spec, p, l) && m in spec.mounts && Contains(m.path, q)
    requires forall x :: x in spec.mounts && Contains(x.path, q) ==> |x.path| <= |m.path|
    ensures Cover(TenantBinds(spec, p, l), q) == Some(MountOp(m, p))
    ensures MountOp(m, p).dst == m.path && IsReadOnly(MountOp(m, p)) == m.readOnly
  {
    AcceptedMounts(spec, p, l);
    LongestIsDeepest(spec, q, m);
    DeepestIsLast(spec, p, l, q, m);
  }

  // ------------------------------------------- what is handed to the file walk

  lemma {:induction false} JoinSegsHasNoNul(segs: seq<string>)
    requires forall i :: 0 <= i < |segs| ==> !HasNul(segs[i])
    ensures !HasNul(JoinSegs(segs))
  {
    if |segs| > 1 {
      JoinSegsHasNoNul(segs[1..]);
    }
  }

  lemma {:induction false} SplitHasNoNul(s: string)
    requires !HasNul(s)
    ensures forall i :: 0 <= i < |Split(s)| ==> !HasNul(Split(s)[i])
  {
    if s != "" {
      assert !HasNul(s[1..]) by {
        assert forall i :: 0 <= i < |s[1..]| ==> s[1..][i] == s[i + 1];
      }
      SplitHasNoNul(s[1..]);
      assert s[0] != '\0';
    }
  }

  lemma {:induction false} WalkHasNoNul(done: seq<string>, segs: seq<string>)
    requires forall i :: 0 <= i < |done| ==> !HasNul(done[i])
    requires forall i :: 0 <= i < |segs| ==> !HasNul(segs[i])
    ensures forall i :: 0 <= i < |Walk(true, done, segs)| ==> !HasNul(Walk(true, done, segs)[i])
    decreases |segs|
  {
    if segs != [] {
      WalkHasNoNul(Push(true, done, segs[0]), segs[1..]);
    }
  }

  /** Below the root directory a clean path goes on with a name, not with another slash. */
  lemma NameFollowsRoot(n: seq<string>)
    requires AllProper(n) && n != []
    ensures |Abs(n)| > 1 && Abs(n)[1] != '/'
  {
  }

  /** The segments of a clean path inside a clean root are the root's, then those of the relative part. */
  lemma AbsSplits(m: seq<string>, n: seq<string>, rel: string)
    requires AllProper(m) && AllProper(n) && Abs(n) == Abs(m) + "/" + rel
    ensures n == m + Split(rel)
  {
    hide Split, JoinSegs, Proper;
    SplitOfAbs(m);
    SplitOfAbs(n);
    assert |Abs(n)| >= 2;
    if n == [] {
      AbsOfNothing();
      assert false;
    }
    NameFollowsRoot(n);
    if m == [] {
      AbsOfNothing();
      assert false;
    }
    SplitOfConcat(Abs(m), rel);
    assert [""] + n == ([""] + m) + Split(rel);
    assert n == ([""] + n)[1..] == m + Split(rel);
  }

  lemma AbsOfNothing()
    ensures Abs([]) == "/"
  {
  }

  lemma RelativeSplits(root: string, path: string, rel: string)
    requires Rooted(root) && Rooted(path)
    requires Clean(path) == Clean(root) + "/" + rel
    ensures Names(path) == Names(root) + Split(rel)
  {
    hide Walk, Split;
    NamesAreProper(root);
    NamesAreProper(path);
    AbsSplits(Names(root), Names(path), rel);
  }

  /** Cleaning never turns a relative path into an absolute or an empty one. */
  lemma CleanStartsAlike(p: string)
    ensures Clean(p) != "" && (Rooted(Clean(p)) ==> Rooted(p))
  {
    if !Rooted(p) {
      var done := Walk(false, [], Split(p));
      SplitIsSlashless(p);
      RelativeWalkIsNamed([], Split(p));
      if done != [] {
        assert JoinSegs(done)[0] == done[0][0];
      }
    }
  }

  lemma {:induction false} RelativeWalkIsNamed(done: seq<string>, segs: seq<string>)
    requires forall i :: 0 <= i < |done| ==> done[i] != "" && Slashless(done[i])
    requires forall i :: 0 <= i < |segs| ==> Slashless(segs[i])
    ensures forall i :: 0 <= i < |Walk(false, done, segs)| ==>
              Walk(false, done, segs)[i] != "" && Slashless(Walk(false, done, segs)[i])
    decreases |segs|
  {
    if segs != [] {
      RelativeWalkIsNamed(Push(false, done, segs[0]), segs[1..]);
    }
  }

  lemma SuffixHasNoNul(s: string, k: nat)
    requires k <= |s| && !HasNul(s)
    ensures !HasNul(s[k..])
  {
  }

  lemma CleanHasNoNul(path: string)
    requires Rooted(path) && !HasNul(path)
    ensures !HasNul(Clean(path))
  {
    hide Walk, Split, JoinSegs;
    SplitHasNoNul(path);
    WalkHasNoNul([], Split(path));
    JoinSegsHasNoNul(Names(path));
  }

  lemma ProperIsAccepted(rel: string)
    requires AllProper(Split(rel)) && !HasNul(rel)
    ensures CheckRel(rel) == Some(rel) && rel != "."
  {
    WalkOfProper(false, [], Split(rel));
    SplitThenJoin(rel);
    assert [] + Split(rel) == Split(rel);
    assert Proper(Split(rel)[0]);
    SplitOfSlashless(".");
  }

  /** The relative part below a root: accepted by the gate, and it joins back to the cleaned path. */
  lemma BelowRootIsSafe(root: string, path: string, rel: string)
    requires Rooted(root) && Rooted(path) && !HasNul(path)
    requires Clean(path) == Clean(root) + "/" + rel
    ensures CheckRel(rel) == Some(rel) && rel != "." && Join(root, rel) == Clean(path)
  {
    hide Walk, Split, HasNul, CheckRel, Join, Proper;
    var names, base := Names(path), Names(root);
    NamesAreProper(path);
    RelativeSplits(root, path, rel);
    assert forall i :: 0 <= i < |Split(rel)| ==> Split(rel)[i] == names[|base| + i];
    CleanHasNoNul(path);
    SuffixHasNoNul(Clean(path), |Clean(root)| + 1);
    assert Clean(path)[|Clean(root)| + 1..] == rel;
    ProperIsAccepted(rel);
    JoinWalksOn(root, rel);
    WalkOfProper(true, base, Split(rel));
  }

  lemma JoinDot(root: string)
    requires Rooted(root)
    ensures Join(root, ".") == Clean(root) && CheckRel(".") == Some(".")
  {
    JoinWalksOn(root, ".");
    SplitOfSlashless(".");
    assert Walk(true, Names(root), ["."]) == Walk(true, Names(root), []);
  }

  /**
  Whatever the roots, the relative part handed to the filesystem walk for a NUL-free path passes
  the lexical gate, and joined back to its root it is the cleaned path.
  */
  lemma ResolvedPathIsSafe(roots: seq<Root>, path: string)
    requires Resolve(roots, path).Some? && !HasNul(path)
    ensures var (root, rel) := Resolve(roots, path).value;
            CheckRel(rel) == Some(rel) && Join(root.path, rel) == Clean(path)
  {
    hide Clean, Best, HasNul, CheckRel, Join;
    BestIsLongest(roots, Clean(path));
    var (root, rel) := Resolve(roots, path).value;
    CleanStartsAlike(root.path);
    CleanIsRooted(path);
    if Clean(path) == Clean(root.path) {
      JoinDot(root.path);
    } else {
      assert Clean(path) == Clean(root.path) + "/" + rel;
      assert Clean(root.path)[0] == Clean(path)[0];
      BelowRootIsSafe(root.path, path, rel);
    }
  }

  lemma CleanIsRooted(path: string)
    requires Rooted(path)
    ensures Rooted(Clean(path))
  {
  }
}
