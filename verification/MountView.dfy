/**
What a sandbox sees: the mounts of its command line applied in order, where a later mount
covers an earlier one, against what its specification declares.
*/
module MountView {
  import opened Options
  import opened Paths
  import opened Bwrap
  import opened CommandLine
  import opened Generate

  /** The mount a path finally shows: the last one applied at or above it. */
  function Cover(ops: seq<Op>, q: string): Option<Op> {
    if ops == [] then None
    else if Contains(ops[|ops| - 1].dst, q) then Some(ops[|ops| - 1])
    else Cover(ops[..|ops| - 1], q)
  }

  /** What bubblewrap, given the command line, shows at `q`. */
  function View(argv: seq<string>, q: string): Option<Op> {
    var opts := ReadAll(argv);
    if opts.None? then None else Cover(Ops(opts.value), q)
  }

  lemma {:induction false} CoverOfConcat(a: seq<Op>, b: seq<Op>, q: string)
    ensures Cover(a + b, q) == if Cover(b, q).Some? then Cover(b, q) else Cover(a, q)
  {
    if b == [] {
      assert a + b == a;
    } else {
      assert (a + b)[..|a + b| - 1] == a + b[..|b| - 1];
      CoverOfConcat(a, b[..|b| - 1], q);
    }
  }

  lemma {:induction false} CoverNone(ops: seq<Op>, q: string)
    ensures Cover(ops, q).None? <==> forall i :: 0 <= i < |ops| ==> !Contains(ops[i].dst, q)
  {
    if ops != [] {
      CoverNone(ops[..|ops| - 1], q);
    }
  }

  lemma {:induction false} CoverLast(ops: seq<Op>, q: string, k: nat)
    requires k < |ops| && Contains(ops[k].dst, q)
    requires forall j :: k < j < |ops| ==> !Contains(ops[j].dst, q)
    ensures Cover(ops, q) == Some(ops[k])
  {
    if k < |ops| - 1 {
      CoverLast(ops[..|ops| - 1], q, k);
    }
  }

  // ------------------------------------------------- the plan, as mounts

  function MountList(mounts: seq<Mount>, p: Policy): seq<Op> {
    seq(|mounts|, i requires 0 <= i < |mounts| => MountOp(mounts[i], p))
  }

  function HideList(hidden: seq<string>, p: Policy): seq<Op> {
    seq(|hidden|, i requires 0 <= i < |hidden| => HideOp(hidden[i], p))
  }

  /** The tenant's own mounts in the order they are applied. */
  function TenantBinds(spec: Spec, p: Policy, l: Layout): seq<Op> {
    [WorkspaceOp(spec, l)] + MountList(OrderedMounts(spec.mounts), p)
  }

  lemma {:induction false} OpsOfMounting(opts: seq<Opt>, ops: seq<Op>)
    requires |opts| == |ops| && forall i :: 0 <= i < |opts| ==> opts[i] == Mounts(ops[i])
    ensures Ops(opts) == ops
  {
    if opts != [] {
      var n := |opts| - 1;
      OpsOfMounting(opts[..n], ops[..n]);
      assert ops[..n] + [ops[n]] == ops;
    }
  }

  lemma {:induction false} OpsOfSetup(opts: seq<Opt>)
    requires forall i :: 0 <= i < |opts| ==> !opts[i].Mounts?
    ensures Ops(opts) == []
  {
    if opts != [] {
      OpsOfSetup(opts[..|opts| - 1]);
    }
  }

  lemma OpsOfPlan(spec: Spec, p: Policy, l: Layout)
    ensures Ops(Plan(spec, p, l)) == Ops(Platform(spec, p, l)) + TenantBinds(spec, p, l) + HideList(spec.hide, p)
  {
    hide Ops, Platform, OrderedMounts, MountOp, HideOp, WorkspaceOp;
    var ordered := OrderedMounts(spec.mounts);
    OpsOfConcat(Platform(spec, p, l) + Tenant(spec, p, l), ProcessSetup(spec, p));
    OpsOfConcat(Platform(spec, p, l), Tenant(spec, p, l));
    OpsOfSetup(ProcessSetup(spec, p));
    OpsOfMounting(Tenant(spec, p, l), TenantBinds(spec, p, l) + HideList(spec.hide, p));
  }

  /** The view of a generated command line, layer by layer: hides, then tenant mounts, then the platform. */
  lemma ViewByLayer(spec: Spec, p: Policy, l: Layout, q: string)
    ensures View(Argv(spec, p, l), q) ==
      if Cover(HideList(spec.hide, p), q).Some? then Cover(HideList(spec.hide, p), q)
      else if Cover(TenantBinds(spec, p, l), q).Some? then Cover(TenantBinds(spec, p, l), q)
      else Cover(Ops(Platform(spec, p, l)), q)
  {
    hide ReadAll, Argv, Plan, Cover, Ops, TenantBinds, HideList, Platform;
    ArgvReadsAsPlan(spec, p, l);
    OpsOfPlan(spec, p, l);
    CoverOfConcat(Ops(Platform(spec, p, l)) + TenantBinds(spec, p, l), HideList(spec.hide, p), q);
    CoverOfConcat(Ops(Platform(spec, p, l)), TenantBinds(spec, p, l), q);
  }

  ghost predicate UnderNoHide(spec: Spec, q: string) {
    forall i :: 0 <= i < |spec.hide| ==> !Contains(spec.hide[i], q)
  }

  lemma NoHideCovers(spec: Spec, p: Policy, q: string)
    requires UnderNoHide(spec, q)
    ensures Cover(HideList(spec.hide, p), q).None?
  {
    CoverNone(HideList(spec.hide, p), q);
  }

  // ------------------------------------------------------- deepest one wins

  /** `m` is the declared mount that contains `q` and is inside every other that does. */
  ghost predicate DeepestAt(mounts: seq<Mount>, q: string, m: Mount) {
    && m in mounts && Contains(m.path, q)
    && forall x :: x in mounts && Contains(x.path, q) ==> Contains(x.path, m.path)
  }

  ghost predicate InsideAMount(mounts: seq<Mount>, q: string) {
    exists m :: m in mounts && Contains(m.path, q)
  }

  lemma AcceptedMounts(spec: Spec, p: Policy, l: Layout)
    requires Accepts(spec, p, l)
    ensures DistinctPaths(spec.mounts)
    ensures forall m :: m in spec.mounts ==> m.path != "/" && IsAbsClean(m.path) && ApartFrom(m.path, Protected(l))
    ensures forall m :: m in spec.mounts ==> !Contains(m.path, WorkspacePath(spec))
  {
    hide IsAbsClean, ApartFrom, Contains;
    forall m | m in spec.mounts
      ensures m.path != "/" && IsAbsClean(m.path) && ApartFrom(m.path, Protected(l))
      ensures !Contains(m.path, WorkspacePath(spec))
    {
      var i :| 0 <= i < |spec.mounts| && spec.mounts[i] == m;
      assert MountTargetOk(spec, p, l, i);
      var s := Shadowable(spec, p);
      assert s[|s| - 1] == WorkspacePath(spec);
    }
    forall i, j | 0 <= i < j < |spec.mounts|
      ensures spec.mounts[i].path != spec.mounts[j].path
    {
      assert MountTargetOk(spec, p, l, j);
    }
  }

  /** A path inside some mounts is inside a deepest one: its ancestors form a chain. */
  lemma {:induction false} DeepestExists(mounts: seq<Mount>, q: string)
    requires InsideAMount(mounts, q)
    requires forall m :: m in mounts ==> m.path != "/"
    ensures exists m :: DeepestAt(mounts, q, m)
  {
    var head, rest := mounts[0], mounts[1..];
    assert forall x :: x in mounts <==> x == head || x in rest;
    if !InsideAMount(rest, q) {
      assert DeepestAt(mounts, q, head);
    } else {
      DeepestExists(rest, q);
      var m :| DeepestAt(rest, q, m);
      if !Contains(head.path, q) {
        assert DeepestAt(mounts, q, m);
      } else {
        AncestorsAreComparable(head.path, m.path, q);
        if Contains(head.path, m.path) {
          assert DeepestAt(mounts, q, m);
        } else {
          forall x | x in mounts && Contains(x.path, q)
            ensures Contains(x.path, head.path)
          {
            if x != head {
              ContainsIsTransitive(x.path, m.path, head.path);
            }
          }
          assert DeepestAt(mounts, q, head);
        }
      }
    }
  }

  /** A mount applied later is never an ancestor of one applied earlier. */
  lemma LaterIsNoAncestor(earlier: Mount, later: Mount)
    requires Before(earlier, later) && later.path != "/"
    ensures !Contains(later.path, earlier.path)
  {
    LessIsTotal(earlier.path, later.path);
    if Contains(later.path, earlier.path) {
      AncestorIsShallower(later.path, earlier.path);
    }
  }

  /** In mounting order, nothing after the deepest mount at `q` contains `q`. */
  lemma NothingAfterDeepest(mounts: seq<Mount>, q: string, m: Mount) returns (k: nat)
    requires DistinctPaths(mounts) && DeepestAt(mounts, q, m)
    requires forall x :: x in mounts ==> x.path != "/"
    ensures k < |OrderedMounts(mounts)| && OrderedMounts(mounts)[k] == m
    ensures forall j :: k < j < |OrderedMounts(mounts)| ==> !Contains(OrderedMounts(mounts)[j].path, q)
  {
    hide OrderedMounts, Contains, Before;
    var ordered := OrderedMounts(mounts);
    OrderedIsSorted(mounts);
    OrderedKeepsAll(mounts);
    SameMembers(ordered, mounts);
    k :| 0 <= k < |ordered| && ordered[k] == m;
    forall j | k < j < |ordered|
      ensures !Contains(ordered[j].path, q)
    {
      var x := ordered[j];
      assert x in mounts && Before(m, x);
      LaterIsNoAncestor(m, x);
    }
  }

  /** Sorting by depth makes "the last one wins" mean "the deepest one wins". */
  lemma DeepestIsLast(spec: Spec, p: Policy, l: Layout, q: string, m: Mount)
    requires DistinctPaths(spec.mounts) && DeepestAt(spec.mounts, q, m)
    requires forall x :: x in spec.mounts ==> x.path != "/"
    ensures Cover(TenantBinds(spec, p, l), q) == Some(MountOp(m, p))
  {
    hide OrderedMounts, Contains, Cover, DistinctPaths, DeepestAt, MountOp;
    var ordered := OrderedMounts(spec.mounts);
    var k := NothingAfterDeepest(spec.mounts, q, m);
    var binds := TenantBinds(spec, p, l);
    forall j | k + 1 < j < |binds|
      ensures !Contains(binds[j].dst, q)
    {
      MountOpTarget(ordered[j - 1], p);
      assert binds[j] == MountOp(ordered[j - 1], p);
    }
    MountOpTarget(m, p);
    DeepestContains(spec.mounts, q, m);
    assert binds[k + 1] == MountOp(m, p);
    CoverLast(binds, q, k + 1);
  }

  lemma MountOpTarget(m: Mount, p: Policy)
    ensures MountOp(m, p).dst == m.path
  {
  }

  lemma DeepestContains(mounts: seq<Mount>, q: string, m: Mount)
    requires DeepestAt(mounts, q, m)
    ensures Contains(m.path, q)
  {
  }

  lemma NoMountCovers(spec: Spec, p: Policy, l: Layout, q: string)
    requires !InsideAMount(spec.mounts, q)
    ensures Cover(TenantBinds(spec, p, l), q)
         == if Contains(WorkspacePath(spec), q) then Some(WorkspaceOp(spec, l)) else None
  {
    hide OrderedMounts;
    var ordered := OrderedMounts(spec.mounts);
    var binds := TenantBinds(spec, p, l);
    OrderedKeepsAll(spec.mounts);
    SameMembers(ordered, spec.mounts);
    forall j | 1 <= j < |binds|
      ensures !Contains(binds[j].dst, q)
    {
      assert binds[j].dst == ordered[j - 1].path && ordered[j - 1] in spec.mounts;
    }
    if Contains(WorkspacePath(spec), q) {
      CoverLast(binds, q, 0);
    } else {
      CoverNone(binds, q);
    }
  }

  /**
  For every admitted specification and every path under no hide: inside a declared mount the
  sandbox sees the deepest declared mount containing the path; inside the workspace alone, the
  workspace; and elsewhere what the platform put there.
  */
  lemma ViewIsDeepestDeclared(spec: Spec, p: Policy, l: Layout, q: string)
    requires Accepts(spec, p, l) && UnderNoHide(spec, q)
    ensures InsideAMount(spec.mounts, q) ==>
              exists m :: DeepestAt(spec.mounts, q, m) && View(Argv(spec, p, l), q) == Some(MountOp(m, p))
    ensures !InsideAMount(spec.mounts, q) && Contains(WorkspacePath(spec), q) ==>
              View(Argv(spec, p, l), q) == Some(WorkspaceOp(spec, l))
    ensures !InsideAMount(spec.mounts, q) && !Contains(WorkspacePath(spec), q) ==>
              View(Argv(spec, p, l), q) == Cover(Ops(Platform(spec, p, l)), q)
  {
    hide Accepts, View, Argv, Cover, HideList, TenantBinds, IsAbsClean;
    ViewByLayer(spec, p, l, q);
    NoHideCovers(spec, p, q);
    if InsideAMount(spec.mounts, q) {
      AcceptedMounts(spec, p, l);
      DeepestExists(spec.mounts, q);
      var m :| DeepestAt(spec.mounts, q, m);
      DeepestIsLast(spec, p, l, q, m);
    } else {
      NoMountCovers(spec, p, l, q);
    }
  }

  /** Every mount is visible at its own target. */
  lemma EveryMountIsVisible(spec: Spec, p: Policy, l: Layout, m: Mount)
    requires Accepts(spec, p, l) && m in spec.mounts
    ensures View(Argv(spec, p, l), m.path) == Some(MountOp(m, p))
  {
    hide View, Argv, Cover, HideList, TenantBinds, IsAbsClean, ApartFrom, CoversNone;
    assert UnderNoHide(spec, m.path) by {
      forall i | 0 <= i < |spec.hide|
        ensures !Contains(spec.hide[i], m.path)
      {
        assert HideOk(spec, p, l, spec.hide[i]);
      }
    }
    ViewByLayer(spec, p, l, m.path);
    NoHideCovers(spec, p, m.path);
    assert DeepestAt(spec.mounts, m.path, m);
    AcceptedMounts(spec, p, l);
    DeepestIsLast(spec, p, l, m.path, m);
  }

  // ------------------------------------------------------ protected paths

  lemma ApartMeansElsewhere(path: string, others: seq<string>, prot: string, q: string)
    requires ApartFrom(path, others) && prot in others && Contains(prot, q)
    ensures !Contains(path, q)
  {
    if Contains(path, q) {
      AncestorsAreComparable(path, prot, q);
    }
  }

  lemma NoHideOnProtected(spec: Spec, p: Policy, l: Layout, prot: string, q: string)
    requires Accepts(spec, p, l) && prot in Protected(l) && Contains(prot, q)
    ensures Cover(HideList(spec.hide, p), q).None?
  {
    hide Cover, IsAbsClean, ApartFrom, CoversNone, Protected, Contains;
    var hides := HideList(spec.hide, p);
    forall i | 0 <= i < |hides|
      ensures !Contains(hides[i].dst, q)
    {
      assert HideOk(spec, p, l, spec.hide[i]);
      ApartMeansElsewhere(spec.hide[i], Protected(l), prot, q);
    }
    CoverNone(hides, q);
  }

  /** No tenant bind is at or above `q` if neither the workspace nor a mount is. */
  lemma NoBindAbove(spec: Spec, p: Policy, l: Layout, q: string)
    requires !Contains(WorkspacePath(spec), q) && forall m :: m in spec.mounts ==> !Contains(m.path, q)
    ensures Cover(TenantBinds(spec, p, l), q).None?
  {
    hide Cover, OrderedMounts, Contains, WorkspacePath;
    var binds, ordered := TenantBinds(spec, p, l), OrderedMounts(spec.mounts);
    OrderedKeepsAll(spec.mounts);
    SameMembers(ordered, spec.mounts);
    assert binds[0].dst == WorkspacePath(spec);
    assert forall i :: 0 < i < |binds| ==> binds[i].dst == ordered[i - 1].path && ordered[i - 1] in spec.mounts;
    CoverNone(binds, q);
  }

  lemma WorkspaceIsApart(spec: Spec, p: Policy, l: Layout)
    requires Accepts(spec, p, l)
    ensures ApartFrom(WorkspacePath(spec), Protected(l))
  {
    hide IsAbsClean, ApartFrom, CoversNone, Protected, Contains, WorkspacePath;
  }

  lemma NoBindOnProtected(spec: Spec, p: Policy, l: Layout, prot: string, q: string)
    requires Accepts(spec, p, l) && prot in Protected(l) && Contains(prot, q)
    ensures Cover(TenantBinds(spec, p, l), q).None?
  {
    hide Accepts, Cover, IsAbsClean, ApartFrom, Protected, Contains, WorkspacePath, TenantBinds;
    WorkspaceIsApart(spec, p, l);
    AcceptedMounts(spec, p, l);
    ApartMeansElsewhere(WorkspacePath(spec), Protected(l), prot, q);
    forall m | m in spec.mounts
      ensures !Contains(m.path, q)
    {
      ApartMeansElsewhere(m.path, Protected(l), prot, q);
    }
    NoBindAbove(spec, p, l, q);
  }

  /**
  At or below a protected path the sandbox sees exactly what the platform's own options put
  there: no workspace, mount or hide that a specification may declare ever covers it.
  */
  lemma ProtectedPathsAreThePlatforms(spec: Spec, p: Policy, l: Layout, prot: string, q: string)
    requires Accepts(spec, p, l) && prot in Protected(l) && Contains(prot, q)
    ensures View(Argv(spec, p, l), q) == Cover(Ops(Platform(spec, p, l)), q)
  {
    hide Accepts, View, Argv, Cover, Protected, Contains, HideList, TenantBinds;
    ViewByLayer(spec, p, l, q);
    NoHideOnProtected(spec, p, l, prot, q);
    NoBindOnProtected(spec, p, l, prot, q);
  }

  /** Which paths those are. */
  lemma PlatformPathsAreUntouched(spec: Spec, p: Policy, l: Layout, prot: string, q: string)
    requires Accepts(spec, p, l) && Contains(prot, q)
    requires || prot == "/proc" || prot == "/dev" || prot == "/opt/jdix" || prot == "/var/lib/jdix"
             || prot == "/etc/passwd" || prot == "/etc/group" || prot == "/etc/resolv.conf"
             || prot == l.ipcMount || prot == l.initTarget
    ensures View(Argv(spec, p, l), q) == Cover(Ops(Platform(spec, p, l)), q)
  {
    assert prot in Protected(l);
    hide Accepts, View, Argv, Cover, Contains, Platform, Protected;
    ProtectedPathsAreThePlatforms(spec, p, l, prot, q);
  }

  /** The platform's own mounts, after the system paths. */
  function SkeletonMounts(p: Policy, l: Layout): (ops: seq<Op>)
    ensures |ops| == 10
  {
    [ RoBind(Join(l.skelDir, "passwd"), "/etc/passwd"),
      RoBind(Join(l.skelDir, "group"), "/etc/group"),
      RoBind(Join(l.skelDir, "resolv.conf"), "/etc/resolv.conf"),
      if p.tier == Filesystem then RoBind("/proc", "/proc") else Proc("/proc"),
      Dev("/dev"), Tmpfs("/tmp"), Tmpfs("/run"), Tmpfs("/home"),
      RoBind(Join(l.binDir, "jdix-init"), l.initTarget),
      Bind(l.ipcDir, l.ipcMount) ]
  }

  function Mounting(ops: seq<Op>): seq<Opt> {
    seq(|ops|, i requires 0 <= i < |ops| => Mounts(ops[i]))
  }

  /** The skeleton's options: four mounts, in one tier the dropping of capabilities, and the other six. */
  lemma SkeletonParts(p: Policy, l: Layout)
    ensures var ops := SkeletonMounts(p, l);
            Skeleton(p, l) == Mounting(ops[..4]) + (if p.tier == Filesystem then [Set(CapDrop, "ALL")] else []) + Mounting(ops[4..])
  {
    hide Join;
  }

  lemma OpsOfSkeleton(p: Policy, l: Layout)
    ensures Ops(Skeleton(p, l)) == SkeletonMounts(p, l)
  {
    hide Ops, Skeleton, SkeletonMounts;
    SkeletonParts(p, l);
    var ops := SkeletonMounts(p, l);
    var caps := if p.tier == Filesystem then [Set(CapDrop, "ALL")] else [];
    OpsOfConcat(Mounting(ops[..4]) + caps, Mounting(ops[4..]));
    OpsOfConcat(Mounting(ops[..4]), caps);
    OpsOfMounting(Mounting(ops[..4]), ops[..4]);
    OpsOfMounting(Mounting(ops[4..]), ops[4..]);
    OpsOfSetup(caps);
    assert ops == ops[..4] + [] + ops[4..];
  }

  /** At a protected path, the last of the platform's own mounts that contains it is what shows. */
  lemma SkeletonShows(spec: Spec, p: Policy, l: Layout, q: string, k: nat)
    requires Accepts(spec, p, l) && q in Protected(l) && k < 10 && Contains(SkeletonMounts(p, l)[k].dst, q)
    requires forall j :: k < j < 10 ==> !Contains(SkeletonMounts(p, l)[j].dst, q)
    ensures View(Argv(spec, p, l), q) == Some(SkeletonMounts(p, l)[k])
  {
    var ops := SkeletonMounts(p, l);
    CoverLast(ops, q, k);
    ProtectedPathsAreThePlatforms(spec, p, l, q, q);
    hide Accepts, View, Argv, Cover, Ops, Skeleton, SystemBinds, Namespaces, SkeletonMounts;
    OpsOfSkeleton(p, l);
    OpsOfConcat(Namespaces(p) + SystemBinds(SystemPaths(spec, p)), Skeleton(p, l));
    CoverOfConcat(Ops(Namespaces(p) + SystemBinds(SystemPaths(spec, p))), ops, q);
  }

  /**
  The control socket's directory is always there: no system path, no tenant and not the tmpfs
  over /run covers it. So is the supervisor's binary, unless the layout puts it under the socket.
  */
  lemma SupervisorIsVisible(spec: Spec, p: Policy, l: Layout)
    requires Accepts(spec, p, l)
    ensures View(Argv(spec, p, l), l.ipcMount) == Some(Bind(l.ipcDir, l.ipcMount))
    ensures View(Argv(spec, p, l), l.initTarget) == Some(RoBind(Join(l.binDir, "jdix-init"), l.initTarget))
       <==> !Contains(l.ipcMount, l.initTarget)
  {
    hide Accepts, View, Argv;
    SkeletonShows(spec, p, l, l.ipcMount, 9);
    SkeletonShows(spec, p, l, l.initTarget, if Contains(l.ipcMount, l.initTarget) then 9 else 8);
  }

  lemma DifferAt(a: string, b: string, i: nat)
    requires 0 < i < |a| && i < |b| && a[i] != b[i]
    ensures !Contains(a, b)
  {
    assert (a + "/")[i] == a[i];
  }

  lemma SkeletonTargets(p: Policy, l: Layout, k: nat)
    requires k < 3
    ensures var ops := SkeletonMounts(p, l);
            && ops[8].dst == l.initTarget && ops[9].dst == l.ipcMount
            && ops[k].dst in Protected(l) && Contains(ops[k].dst, ops[k].dst)
  {
    hide Join;
  }

  lemma FilesStandApart(p: Policy, l: Layout, k: nat, j: nat)
    requires k < 3 && k < j < 8
    ensures !Contains(SkeletonMounts(p, l)[j].dst, SkeletonMounts(p, l)[k].dst)
  {
    hide Join, Contains;
    DifferAt(SkeletonMounts(p, l)[j].dst, SkeletonMounts(p, l)[k].dst, if j < 3 then 5 else 1);
  }

  /**
  The sandbox reads the platform's passwd, group and resolv.conf, whatever system paths it is
  given, in a layout whose own two mounts are elsewhere.
  */
  lemma SkeletonFilesAreVisible(spec: Spec, p: Policy, l: Layout, k: nat)
    requires Accepts(spec, p, l) && k < 3
    requires var q := SkeletonMounts(p, l)[k].dst; !Contains(l.initTarget, q) && !Contains(l.ipcMount, q)
    ensures View(Argv(spec, p, l), SkeletonMounts(p, l)[k].dst) == Some(SkeletonMounts(p, l)[k])
  {
    hide Accepts, View, Argv, Join, Contains, SkeletonMounts, Protected;
    var ops := SkeletonMounts(p, l);
    var q := ops[k].dst;
    SkeletonTargets(p, l, k);
    forall j | k < j < 10
      ensures !Contains(ops[j].dst, q)
    {
      if j < 8 {
        FilesStandApart(p, l, k, j);
      }
    }
    SkeletonShows(spec, p, l, q, k);
  }

  // ---------------------------------------------------------- permutations

  lemma {:induction false} DistinctMeansOnce(a: seq<Mount>, m: Mount)
    requires DistinctPaths(a)
    ensures multiset(a)[m] <= 1
  {
    if a != [] {
      DistinctMeansOnce(a[1..], m);
      assert a == [a[0]] + a[1..];
      if a[0] == m {
        assert m !in a[1..];
      }
    }
  }

  lemma TwoPlacesCountTwice(b: seq<Mount>, i: nat, j: nat)
    requires i < j < |b| && b[i] == b[j]
    ensures multiset(b)[b[i]] >= 2
  {
    assert b == b[..j] + b[j..];
    assert b[i] in b[..j] && b[j] in b[j..];
  }

  lemma DistinctPermutes(a: seq<Mount>, b: seq<Mount>)
    requires DistinctPaths(a) && multiset(a) == multiset(b)
    ensures DistinctPaths(b)
  {
    SameMembers(a, b);
    forall i, j | 0 <= i < j < |b|
      ensures b[i].path != b[j].path
    {
      assert b[i] in a && b[j] in a;
      if b[i] == b[j] {
        TwoPlacesCountTwice(b, i, j);
        DistinctMeansOnce(a, b[i]);
      }
    }
  }

  lemma AcceptancePermutes(a: Spec, b: Spec, p: Policy, l: Layout)
    requires b == a.(mounts := b.mounts) && multiset(a.mounts) == multiset(b.mounts)
    requires Accepts(a, p, l)
    ensures Accepts(b, p, l)
  {
    hide IsAbsClean, ApartFrom, CoversNone, SubPathOk, Contains;
    AcceptedMounts(a, p, l);
    SameMembers(a.mounts, b.mounts);
    DistinctPermutes(a.mounts, b.mounts);
    forall i | 0 <= i < |b.mounts|
      ensures MountTargetOk(b, p, l, i) && MountVolumeOk(b.mounts[i], p) && SubPathOk(b.mounts[i].subPath)
    {
      assert b.mounts[i] in a.mounts;
      var k :| 0 <= k < |a.mounts| && a.mounts[k] == b.mounts[i];
      assert MountTargetOk(a, p, l, k);
    }
    forall i | 0 <= i < |b.hide|
      ensures HideOk(b, p, l, b.hide[i])
    {
      assert HideOk(a, p, l, a.hide[i]);
      assert forall j :: 0 <= j < |b.mounts| ==> b.mounts[j] in a.mounts;
    }
  }

  /** The order in which a request lists its mounts carries no meaning: neither the verdict nor one argument changes. */
  lemma MountOrderIsIrrelevant(a: Spec, b: Spec, p: Policy, l: Layout)
    requires b == a.(mounts := b.mounts) && multiset(a.mounts) == multiset(b.mounts)
    ensures Accepts(a, p, l) <==> Accepts(b, p, l)
    ensures Accepts(a, p, l) ==> Argv(a, p, l) == Argv(b, p, l)
  {
    hide Accepts, OrderedMounts, RenderAll, Platform, ProcessSetup, IsAbsClean;
    assert a == b.(mounts := a.mounts);
    if Accepts(a, p, l) || Accepts(b, p, l) {
      if Accepts(a, p, l) {
        AcceptancePermutes(a, b, p, l);
      } else {
        AcceptancePermutes(b, a, p, l);
      }
      AcceptedMounts(a, p, l);
      AcceptedMounts(b, p, l);
      OrderedIsSorted(a.mounts);
      OrderedIsSorted(b.mounts);
      OrderedKeepsAll(a.mounts);
      OrderedKeepsAll(b.mounts);
      SortedIsUnique(OrderedMounts(a.mounts), OrderedMounts(b.mounts));
      SamePlatform(a, b, p, l);
    }
  }

  lemma SamePlatform(a: Spec, b: Spec, p: Policy, l: Layout)
    requires b == a.(mounts := b.mounts)
    ensures Platform(a, p, l) == Platform(b, p, l) && ProcessSetup(a, p) == ProcessSetup(b, p)
  {
  }
}
