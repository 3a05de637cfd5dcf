/**
What the command line of an admitted specification confines its process to (pkg/bwrap/generate.go):
where every bind comes from, what is hidden, what the process inherits and which isolation it gets.
*/
module Confinement {
  import opened Options
  import opened Paths
  import opened Decimal
  import opened Bwrap
  import opened CommandLine
  import opened Generate
  import opened MountView

  // ---------------------------------------------------------------- what is hidden

  lemma {:induction false} CoverIsMember(ops: seq<Op>, q: string)
    ensures Cover(ops, q).Some? ==> Cover(ops, q).value in ops && Contains(Cover(ops, q).value.dst, q)
  {
    if ops != [] {
      CoverIsMember(ops[..|ops| - 1], q);
    }
  }

  /** An empty directory or an empty file. */
  predicate Blank(op: Op) {
    op.Tmpfs? || (op.RoBind? && op.src == "/dev/null")
  }

  /** At and below a hidden path there is nothing to see, whatever else the request mounts. */
  lemma HiddenPathsAreBlank(spec: Spec, p: Policy, l: Layout, i: nat, q: string)
    requires i < |spec.hide| && Contains(spec.hide[i], q)
    ensures var shown := View(Argv(spec, p, l), q);
            && shown.Some? && Blank(shown.value) && shown.value.dst in spec.hide && Contains(shown.value.dst, q)
            && (shown.value.Tmpfs? <==> shown.value.dst in p.dirs)
  {
    var hides := HideList(spec.hide, p);
    assert hides[i].dst == spec.hide[i];
    CoverNone(hides, q);
    CoverIsMember(hides, q);
    hide View, Argv, Cover, TenantBinds, Platform, Ops;
    ViewByLayer(spec, p, l, q);
  }

  // ------------------------------------------------------ where every bind comes from

  /** A system path of the platform's list, read-only and where it was. */
  predicate FromSystem(op: Op, p: Policy) {
    op.RoBindTry? && op.src == op.dst && op.src in p.systemAllowlist
  }

  /** A mount of the request, from its own volume and subpath or from its own descriptor. */
  predicate FromMount(op: Op, m: Mount, p: Policy) {
    && op.dst == m.path && m.volume in p.volumes
    && if m.path in p.sourceFDs then
         && (if m.readOnly then op.RoBindFd? else op.BindFd?)
         && (p.sourceFDs[m.path] != MIN_INT ==> Atoi(op.fd) == Some(p.sourceFDs[m.path]))
       else
         && (if m.readOnly then op.RoBind? else op.Bind?)
         && op.src == Join(p.volumes[m.volume], m.subPath)
         && (Rooted(p.volumes[m.volume]) ==> Contains(Clean(p.volumes[m.volume]), op.src))
  }

  /** The platform's own mounts, the workspace, a mount of the request, or a blank over what it hides. */
  ghost predicate Accounted(op: Op, spec: Spec, p: Policy, l: Layout) {
    || FromSystem(op, p)
    || op in SkeletonMounts(p, l)
    || op == Bind(l.workspaceDir, WorkspacePath(spec))
    || (exists m :: m in spec.mounts && FromMount(op, m, p))
    || (Blank(op) && op.dst in spec.hide)
  }

  lemma MountIsAccounted(spec: Spec, p: Policy, l: Layout, m: Mount)
    requires Accepts(spec, p, l) && m in spec.mounts
    ensures FromMount(MountOp(m, p), m, p)
  {
    var i :| 0 <= i < |spec.mounts| && spec.mounts[i] == m;
    assert MountVolumeOk(spec.mounts[i], p) && SubPathOk(spec.mounts[i].subPath);
    hide Accepts, Join, Clean, Contains, SubPathOk, Atoi, ItoaText;
    if m.path in p.sourceFDs {
      ItoaRoundTrips(p.sourceFDs[m.path]);
    } else if Rooted(p.volumes[m.volume]) {
      SubPathStaysInside(p.volumes[m.volume], m.subPath);
    }
  }

  lemma SystemIsAccounted(spec: Spec, p: Policy, l: Layout, path: string)
    requires Accepts(spec, p, l) && path in SystemPaths(spec, p)
    ensures FromSystem(RoBindTry(path, path), p)
  {
    if spec.allowSystemPaths != [] {
      var i :| 0 <= i < |spec.allowSystemPaths| && spec.allowSystemPaths[i] == path;
      assert SystemPathOk(spec.allowSystemPaths[i], p);
    }
  }

  lemma OpsOfNamespaces(p: Policy)
    ensures Ops(Namespaces(p)) == []
  {
    OpsOfSetup(Namespaces(p));
  }

  function SystemList(paths: seq<string>): seq<Op> {
    seq(|paths|, i requires 0 <= i < |paths| => RoBindTry(paths[i], paths[i]))
  }

  /** The mounts of the platform: system paths, then its own. */
  lemma OpsOfPlatform(spec: Spec, p: Policy, l: Layout)
    ensures Ops(Platform(spec, p, l)) == SystemList(SystemPaths(spec, p)) + SkeletonMounts(p, l)
  {
    hide Ops, Skeleton, SkeletonMounts, Namespaces, SystemPaths;
    var paths := SystemPaths(spec, p);
    OpsOfConcat(Namespaces(p) + SystemBinds(paths), Skeleton(p, l));
    OpsOfConcat(Namespaces(p), SystemBinds(paths));
    OpsOfNamespaces(p);
    OpsOfMounting(SystemBinds(paths), SystemList(paths));
    OpsOfSkeleton(p, l);
    assert [] + SystemList(paths) == SystemList(paths);
  }

  lemma SystemListIsAccounted(spec: Spec, p: Policy, l: Layout, op: Op)
    requires Accepts(spec, p, l) && op in SystemList(SystemPaths(spec, p))
    ensures FromSystem(op, p)
  {
    hide Accepts, SystemPaths;
    SystemIsAccounted(spec, p, l, op.src);
  }

  lemma TenantIsAccounted(spec: Spec, p: Policy, l: Layout, op: Op)
    requires Accepts(spec, p, l) && op in TenantBinds(spec, p, l)
    ensures op == Bind(l.workspaceDir, WorkspacePath(spec)) || exists m :: m in spec.mounts && FromMount(op, m, p)
  {
    hide Accepts, OrderedMounts, FromMount, MountOp, WorkspacePath;
    OrderedKeepsAll(spec.mounts);
    SameMembers(OrderedMounts(spec.mounts), spec.mounts);
    if op != WorkspaceOp(spec, l) {
      var m :| m in OrderedMounts(spec.mounts) && op == MountOp(m, p);
      MountIsAccounted(spec, p, l, m);
    }
  }

  lemma HideIsAccounted(spec: Spec, p: Policy, op: Op)
    requires op in HideList(spec.hide, p)
    ensures Blank(op) && op.dst in spec.hide
  {
  }

  /**
  Every mount of the command line is the platform's own, an allowlisted system path, the workspace,
  something of a volume the request names, or a blank: nothing else of the host gets in.
  */
  lemma EveryBindIsAccountedFor(spec: Spec, p: Policy, l: Layout, op: Op)
    requires Accepts(spec, p, l) && ReadAll(Argv(spec, p, l)).Some? && op in Ops(ReadAll(Argv(spec, p, l)).value)
    ensures Accounted(op, spec, p, l)
  {
    hide Accepts, Ops, Plan, Argv, ReadAll, Platform, SkeletonMounts, TenantBinds, HideList, SystemList, SystemPaths,
      FromMount, FromSystem, Blank, WorkspacePath;
    ArgvReadsAsPlan(spec, p, l);
    OpsOfPlan(spec, p, l);
    OpsOfPlatform(spec, p, l);
    if op in SystemList(SystemPaths(spec, p)) {
      SystemListIsAccounted(spec, p, l, op);
    } else if op in TenantBinds(spec, p, l) {
      TenantIsAccounted(spec, p, l, op);
    } else if op in HideList(spec.hide, p) {
      HideIsAccounted(spec, p, op);
    }
  }

  // --------------------------------------------------------------- what is shown

  /** Each mount's target shows that mount's own source, writable or not as asked. */
  lemma MountShowsItsSource(spec: Spec, p: Policy, l: Layout, m: Mount)
    requires Accepts(spec, p, l) && m in spec.mounts
    ensures View(Argv(spec, p, l), m.path).Some? && FromMount(View(Argv(spec, p, l), m.path).value, m, p)
  {
    hide Accepts, View, Argv, FromMount;
    EveryMountIsVisible(spec, p, l, m);
    MountIsAccounted(spec, p, l, m);
  }

  /** The workspace shows the Pod's workspace directory, writable. */
  lemma WorkspaceShowsItsDirectory(spec: Spec, p: Policy, l: Layout)
    requires Accepts(spec, p, l)
    ensures View(Argv(spec, p, l), WorkspacePath(spec)) == Some(Bind(l.workspaceDir, WorkspacePath(spec)))
  {
    AcceptedMounts(spec, p, l);
    assert IsAbsClean(WorkspacePath(spec));
    forall i | 0 <= i < |spec.hide|
      ensures !Contains(spec.hide[i], WorkspacePath(spec))
    {
      assert HideOk(spec, p, l, spec.hide[i]);
    }
    hide Accepts, View, Argv, Cover, Platform, IsAbsClean;
    ViewIsDeepestDeclared(spec, p, l, WorkspacePath(spec));
  }

  lemma NoMountOnSystem(spec: Spec, p: Policy, l: Layout, m: Mount)
    requires Accepts(spec, p, l) && m in spec.mounts
    ensures CoversNone(m.path, Shadowable(spec, p))
  {
    hide IsAbsClean, ApartFrom, CoversNone, Shadowable, Protected, HideOk, SubPathOk, WorkspaceOk, SystemPathOk;
    var i :| 0 <= i < |spec.mounts| && spec.mounts[i] == m;
    assert MountTargetOk(spec, p, l, i);
  }

  lemma NoHideOnSystem(spec: Spec, p: Policy, l: Layout, h: string)
    requires Accepts(spec, p, l) && h in spec.hide
    ensures CoversNone(h, Shadowable(spec, p))
  {
    hide IsAbsClean, ApartFrom, CoversNone, Shadowable, Protected, MountTargetOk, SubPathOk, WorkspaceOk, SystemPathOk;
    var i :| 0 <= i < |spec.hide| && spec.hide[i] == h;
    assert HideOk(spec, p, l, spec.hide[i]);
  }

  lemma CoversNoSystemPath(path: string, spec: Spec, p: Policy, s: string)
    requires CoversNone(path, Shadowable(spec, p)) && s in p.systemAllowlist
    ensures !Contains(path, s)
  {
    hide Contains, WorkspacePath;
    var k :| 0 <= k < |p.systemAllowlist| && p.systemAllowlist[k] == s;
    assert Shadowable(spec, p)[k] == s;
  }

  /** No mount and no hide is at or above a system path. */
  lemma SystemPathsAreNotReplaced(spec: Spec, p: Policy, l: Layout, s: string)
    requires Accepts(spec, p, l) && s in p.systemAllowlist
    ensures forall m :: m in spec.mounts ==> !Contains(m.path, s)
    ensures forall h :: h in spec.hide ==> !Contains(h, s)
  {
    hide Accepts, CoversNone, Shadowable, Contains;
    forall m | m in spec.mounts
      ensures !Contains(m.path, s)
    {
      NoMountOnSystem(spec, p, l, m);
      CoversNoSystemPath(m.path, spec, p, s);
    }
    forall h | h in spec.hide
      ensures !Contains(h, s)
    {
      NoHideOnSystem(spec, p, l, h);
      CoversNoSystemPath(h, spec, p, s);
    }
  }

  /** Where nothing else is above a path, it shows a system path that is. */
  lemma SystemShows(paths: seq<string>, s: string)
    requires s in paths
    ensures var shown := Cover(SystemList(paths), s);
            shown.Some? && shown.value.RoBindTry? && shown.value.src in paths && shown.value in SystemList(paths)
            && Contains(shown.value.src, s)
  {
    var sys := SystemList(paths);
    var k :| 0 <= k < |paths| && paths[k] == s;
    assert sys[k].dst == s && Contains(s, s);
    hide Contains, Cover;
    CoverNone(sys, s);
    CoverIsMember(sys, s);
  }

  /**
  A system path the request gets is shown as the host has it, unless the platform's own mounts or
  the workspace are above it.
  */
  lemma SystemPathsAreVisible(spec: Spec, p: Policy, l: Layout, s: string)
    requires Accepts(spec, p, l) && s in SystemPaths(spec, p) && !Contains(WorkspacePath(spec), s)
    requires forall i :: 0 <= i < |SkeletonMounts(p, l)| ==> !Contains(SkeletonMounts(p, l)[i].dst, s)
    ensures View(Argv(spec, p, l), s).Some? && FromSystem(View(Argv(spec, p, l), s).value, p)
    ensures Contains(View(Argv(spec, p, l), s).value.src, s)
  {
    SystemIsAccounted(spec, p, l, s);
    hide Accepts, View, Argv, Cover, Contains, OrderedMounts, WorkspacePath, SystemPaths, SkeletonMounts, SystemList,
      Platform, TenantBinds, HideList, Ops;
    SystemPathsAreNotReplaced(spec, p, l, s);
    NoBindAbove(spec, p, l, s);
    NoHideCovers(spec, p, s);
    ViewByLayer(spec, p, l, s);
    OpsOfPlatform(spec, p, l);
    CoverNone(SkeletonMounts(p, l), s);
    CoverOfConcat(SystemList(SystemPaths(spec, p)), SkeletonMounts(p, l), s);
    SystemShows(SystemPaths(spec, p), s);
    SystemListIsAccounted(spec, p, l, Cover(SystemList(SystemPaths(spec, p)), s).value);
  }

  /** The system paths bound are the request's, if it lists any, and otherwise the whole allowlist. */
  lemma SystemBindsAreTheRequested(spec: Spec, p: Policy, l: Layout, path: string)
    ensures ReadAll(Argv(spec, p, l)).Some?
    ensures RoBindTry(path, path) in Ops(ReadAll(Argv(spec, p, l)).value)
       <==> path in if |spec.allowSystemPaths| > 0 then spec.allowSystemPaths else p.systemAllowlist
  {
    var op := RoBindTry(path, path);
    ArgvReadsAsPlan(spec, p, l);
    OpsOfPlan(spec, p, l);
    OpsOfPlatform(spec, p, l);
    NoOtherTries(spec, p, l, op);
    var sys := SystemPaths(spec, p);
    assert op in SystemList(sys) <==> path in sys by {
      if path in sys {
        var k :| 0 <= k < |sys| && sys[k] == path;
        assert SystemList(sys)[k] == op;
      }
    }
    hide Ops, Plan, Argv, ReadAll, Platform, SkeletonMounts, TenantBinds, HideList, SystemList;
  }

  lemma NoOtherTries(spec: Spec, p: Policy, l: Layout, op: Op)
    requires op.RoBindTry?
    ensures op !in SkeletonMounts(p, l) && op !in TenantBinds(spec, p, l) && op !in HideList(spec.hide, p)
  {
    hide OrderedMounts, Join, WorkspacePath, ItoaText;
  }

  /**
  Where the request puts nothing, and the platform's later mounts are not above it, a path shows
  the last of the platform's own mounts that contains it.
  */
  lemma PlatformShows(spec: Spec, p: Policy, l: Layout, q: string, k: nat)
    requires !Contains(WorkspacePath(spec), q) && UnderNoHide(spec, q)
    requires forall m :: m in spec.mounts ==> !Contains(m.path, q)
    requires k < 10 && Contains(SkeletonMounts(p, l)[k].dst, q)
    requires forall j :: k < j < 10 ==> !Contains(SkeletonMounts(p, l)[j].dst, q)
    ensures View(Argv(spec, p, l), q) == Some(SkeletonMounts(p, l)[k])
  {
    hide View, Argv, Cover, OrderedMounts, WorkspacePath, SystemPaths, SkeletonMounts, SystemList, Platform, Ops, Contains;
    NoBindAbove(spec, p, l, q);
    NoHideCovers(spec, p, q);
    ViewByLayer(spec, p, l, q);
    OpsOfPlatform(spec, p, l);
    CoverLast(SkeletonMounts(p, l), q, k);
    CoverOfConcat(SystemList(SystemPaths(spec, p)), SkeletonMounts(p, l), q);
  }

  /** Where the platform's own mounts go, in order. */
  lemma SkeletonPlaces(p: Policy, l: Layout)
    ensures var ops := SkeletonMounts(p, l);
            && ops[3].dst == "/proc" && ops[4].dst == "/dev" && ops[5].dst == "/tmp" && ops[6].dst == "/run"
            && ops[7].dst == "/home" && ops[8].dst == l.initTarget && ops[9].dst == l.ipcMount
            && ops[5] == Tmpfs("/tmp") && ops[6] == Tmpfs("/run") && ops[7] == Tmpfs("/home") && ops[4] == Dev("/dev")
            && ops[3] == if p.tier == Filesystem then RoBind("/proc", "/proc") else Proc("/proc")
  {
    hide Join;
  }

  lemma RootPlacesStandApart(p: Policy, l: Layout, k: nat, j: nat)
    requires 3 <= k < j < 8
    ensures !Contains(SkeletonMounts(p, l)[j].dst, SkeletonMounts(p, l)[k].dst)
  {
    SkeletonPlaces(p, l);
    hide SkeletonMounts;
    DifferAt(SkeletonMounts(p, l)[j].dst, SkeletonMounts(p, l)[k].dst, 1);
  }

  lemma PlacesAreClear(p: Policy, l: Layout, k: nat, q: string)
    requires 3 <= k < 8 && q == SkeletonMounts(p, l)[k].dst && !Contains(l.initTarget, q) && !Contains(l.ipcMount, q)
    ensures Contains(q, q) && forall j :: k < j < 10 ==> !Contains(SkeletonMounts(p, l)[j].dst, q)
  {
    assert Contains(q, q);
    SkeletonPlaces(p, l);
    hide Contains, SkeletonMounts;
    forall j | k < j < 10
      ensures !Contains(SkeletonMounts(p, l)[j].dst, q)
    {
      if j < 8 {
        RootPlacesStandApart(p, l, k, j);
      }
    }
  }

  /**
  In a layout whose own two mounts are elsewhere, /proc and /dev are the sandbox's: a fresh process
  list, or the Pod's read-only where there is no process namespace, and a minimal device directory.
  */
  lemma ProcAndDevAreThePlatforms(spec: Spec, p: Policy, l: Layout)
    requires Accepts(spec, p, l)
    ensures !Contains(l.initTarget, "/proc") && !Contains(l.ipcMount, "/proc") ==>
              View(Argv(spec, p, l), "/proc") == Some(if p.tier == Filesystem then RoBind("/proc", "/proc") else Proc("/proc"))
    ensures !Contains(l.initTarget, "/dev") && !Contains(l.ipcMount, "/dev") ==>
              View(Argv(spec, p, l), "/dev") == Some(Dev("/dev"))
  {
    assert "/proc" in Protected(l) && "/dev" in Protected(l);
    SkeletonPlaces(p, l);
    hide Accepts, View, Argv, Contains, SkeletonMounts, Protected;
    if !Contains(l.initTarget, "/proc") && !Contains(l.ipcMount, "/proc") {
      PlacesAreClear(p, l, 3, "/proc");
      SkeletonShows(spec, p, l, "/proc", 3);
    }
    if !Contains(l.initTarget, "/dev") && !Contains(l.ipcMount, "/dev") {
      PlacesAreClear(p, l, 4, "/dev");
      SkeletonShows(spec, p, l, "/dev", 4);
    }
  }

  /** /tmp, /run and /home start empty wherever the request puts nothing there, whatever the image has. */
  lemma ScratchDirectoriesAreEmpty(spec: Spec, p: Policy, l: Layout, dir: string)
    requires dir == "/tmp" || dir == "/run" || dir == "/home"
    requires !Contains(l.initTarget, dir) && !Contains(l.ipcMount, dir)
    requires !Contains(WorkspacePath(spec), dir) && UnderNoHide(spec, dir)
    requires forall m :: m in spec.mounts ==> !Contains(m.path, dir)
    ensures View(Argv(spec, p, l), dir) == Some(Tmpfs(dir))
  {
    SkeletonPlaces(p, l);
    var k := if dir == "/tmp" then 5 else if dir == "/run" then 6 else 7;
    hide View, Argv, Contains, SkeletonMounts, WorkspacePath;
    PlacesAreClear(p, l, k, dir);
    PlatformShows(spec, p, l, dir, k);
  }

  // ------------------------------------------------------- what the process inherits

  /** The environment that a command line leaves of an inherited one. */
  function EnvAfter(opts: seq<Opt>, env: map<string, string>): map<string, string> {
    if opts == [] then env
    else
      var before := EnvAfter(opts[..|opts| - 1], env);
      match opts[|opts| - 1]
      case Flag(s) => if s == ClearEnv then map[] else before
      case SetEnv(name, arg) => before[name := arg]
      case _ => before
  }

  lemma {:induction false} EnvOfConcat(a: seq<Opt>, b: seq<Opt>, env: map<string, string>)
    ensures EnvAfter(a + b, env) == EnvAfter(b, EnvAfter(a, env))
  {
    if b == [] {
      assert a + b == a;
    } else {
      EnvOfConcat(a, b[..|b| - 1], env);
      assert (a + b)[..|a + b| - 1] == a + b[..|b| - 1];
    }
  }

  lemma EnvOfOne(opts: seq<Opt>, o: Opt, env: map<string, string>)
    ensures EnvAfter(opts + [o], env)
         == match o
            case Flag(s) => if s == ClearEnv then map[] else EnvAfter(opts, env)
            case SetEnv(name, arg) => EnvAfter(opts, env)[name := arg]
            case _ => EnvAfter(opts, env)
  {
    assert (opts + [o])[..|opts|] == opts;
  }

  /** Whatever the daemon's environment, the process starts with these four variables and no other. */
  lemma EnvironmentIsThePlatforms(spec: Spec, p: Policy, l: Layout, env: map<string, string>)
    ensures ReadAll(Argv(spec, p, l)).Some?
    ensures EnvAfter(ReadAll(Argv(spec, p, l)).value, env)
         == map["HOME" := "/home", "TERM" := "xterm-256color", "JDIX_SANDBOX" := "1",
                "PATH" := "/usr/local/sbin:/usr/local/bin:/usr/sbin:/usr/bin:/sbin:/bin"]
  {
    hide Argv, ReadAll, EnvAfter, ProcessSetup, Platform, Tenant;
    ArgvReadsAsPlan(spec, p, l);
    EnvOfConcat(Platform(spec, p, l) + Tenant(spec, p, l), ProcessSetup(spec, p), env);
    EnvOfSetup(spec, p, EnvAfter(Platform(spec, p, l) + Tenant(spec, p, l), env));
  }

  lemma EnvOfSetup(spec: Spec, p: Policy, env: map<string, string>)
    ensures EnvAfter(ProcessSetup(spec, p), env)
         == map["HOME" := "/home", "TERM" := "xterm-256color", "JDIX_SANDBOX" := "1",
                "PATH" := "/usr/local/sbin:/usr/local/bin:/usr/sbin:/usr/bin:/sbin:/bin"]
  {
    hide WorkspacePath;
    var setup := ProcessSetup(spec, p);
    var first, sets, flags := setup[..2], setup[2..6], setup[6..];
    assert setup == first + sets + flags && first == [first[0]] + [first[1]];
    hide EnvAfter;
    EnvOfConcat(first + sets, flags, env);
    EnvOfConcat(first, sets, env);
    EnvOfOne([first[0]], first[1], env);
    EnvOfSets(sets);
    EnvOfFlags(flags, EnvAfter(sets, map[]));
  }

  lemma {:induction false} EnvOfFlags(opts: seq<Opt>, env: map<string, string>)
    requires forall i :: 0 <= i < |opts| ==> opts[i].Flag? && opts[i].switch != ClearEnv
    ensures EnvAfter(opts, env) == env
  {
    if opts != [] {
      EnvOfFlags(opts[..|opts| - 1], env);
    }
  }

  lemma EnvOfSets(b: seq<Opt>)
    requires |b| == 4 && forall i :: 0 <= i < 4 ==> b[i].SetEnv?
    ensures EnvAfter(b, map[]) == map[][b[0].name := b[0].arg][b[1].name := b[1].arg][b[2].name := b[2].arg][b[3].name := b[3].arg]
  {
    assert b == [] + [b[0]] + [b[1]] + [b[2]] + [b[3]];
    EnvOfOne([], b[0], map[]);
    EnvOfOne([] + [b[0]], b[1], map[]);
    EnvOfOne([] + [b[0]] + [b[1]], b[2], map[]);
    EnvOfOne([] + [b[0]] + [b[1]] + [b[2]], b[3], map[]);
  }

  // -------------------------------------------------------------- which isolation

  /** The options that are no mounts come from these two parts. */
  lemma SettingsComeFrom(spec: Spec, p: Policy, l: Layout, o: Opt)
    requires !o.Mounts?
    ensures o in Plan(spec, p, l)
       <==> o in Namespaces(p) || o in ProcessSetup(spec, p) || (p.tier == Filesystem && o == Set(CapDrop, "ALL"))
  {
    hide Namespaces, ProcessSetup, OrderedMounts, Join, WorkspaceOp, MountOp, HideOp;
    var sys, sk, t := SystemBinds(SystemPaths(spec, p)), Skeleton(p, l), Tenant(spec, p, l);
    assert o !in sys && o !in t;
    assert o in sk <==> p.tier == Filesystem && o == Set(CapDrop, "ALL");
    assert Plan(spec, p, l) == (Namespaces(p) + sys + sk) + t + ProcessSetup(spec, p);
  }

  /** Which switches a tier calls for. */
  predicate FlagWanted(s: Switch, t: Tier) {
    match s
    case UnshareUser => t == Userns || t == Filesystem
    case UnshareIpc => t != Filesystem
    case UnsharePid => t != Filesystem
    case UnshareUts => t != Filesystem
    case UnshareCgroupTry => t != Filesystem
    case AsPid1 => t != Filesystem
    case ClearEnv => true
    case DieWithParent => true
    case NewSession => true
  }

  /** Which settings, and to what. */
  predicate SettingWanted(s: Setting, arg: string, spec: Spec, p: Policy) {
    match s
    case Uid => (p.tier == Userns || p.tier == Filesystem) && arg == ItoaText(p.uid)
    case Gid => (p.tier == Userns || p.tier == Filesystem) && arg == ItoaText(p.gid)
    case Hostname => p.tier != Filesystem && arg == p.hostname && arg != ""
    case CapDrop => p.tier == Filesystem && arg == "ALL"
    case Chdir => arg == WorkspacePath(spec)
    case Seccomp => false
  }

  lemma FlagsOfParts(spec: Spec, p: Policy, s: Switch)
    ensures Flag(s) in Namespaces(p) || Flag(s) in ProcessSetup(spec, p) <==> FlagWanted(s, p.tier)
  {
    hide ItoaText, WorkspacePath;
  }

  lemma SettingsOfParts(spec: Spec, p: Policy, s: Setting, arg: string)
    ensures Set(s, arg) in Namespaces(p) || Set(s, arg) in ProcessSetup(spec, p)
       <==> SettingWanted(s, arg, spec, p) && s != CapDrop
  {
    hide ItoaText, WorkspacePath;
  }

  /**
  Which namespaces, ids and restrictions the process gets, tier by tier: its own user namespace and
  ids exactly in the two tiers that have one, the other namespaces and being process one in all but
  the filesystem tier, no capabilities in that one; and in every tier it dies with the daemon, in a
  session of its own, starting in the workspace. Nothing else is set.
  */
  lemma IsolationByTier(spec: Spec, p: Policy, l: Layout)
    ensures ReadAll(Argv(spec, p, l)).Some?
    ensures forall s :: Flag(s) in ReadAll(Argv(spec, p, l)).value <==> FlagWanted(s, p.tier)
    ensures forall s, arg :: Set(s, arg) in ReadAll(Argv(spec, p, l)).value <==> SettingWanted(s, arg, spec, p)
  {
    hide Argv, ReadAll, Plan, Namespaces, ProcessSetup, ItoaText, WorkspacePath;
    ArgvReadsAsPlan(spec, p, l);
    forall s ensures Flag(s) in Plan(spec, p, l) <==> FlagWanted(s, p.tier) {
      SettingsComeFrom(spec, p, l, Flag(s));
      FlagsOfParts(spec, p, s);
    }
    forall s, arg ensures Set(s, arg) in Plan(spec, p, l) <==> SettingWanted(s, arg, spec, p) {
      SettingsComeFrom(spec, p, l, Set(s, arg));
      SettingsOfParts(spec, p, s, arg);
    }
  }

  // -------------------------------------------------------------------- what is run

  /** What is left of a command line after its options: the program and its arguments. */
  function Program(argv: seq<string>): seq<string>
    decreases |argv|
  {
    if argv == [] then []
    else if argv[0] == "--" then argv[1..]
    else
      var one := ReadOne(argv);
      if one.None? || one.value.1 == 0 || one.value.1 > |argv| then [] else Program(argv[one.value.1..])
  }

  lemma {:induction false} ProgramAfterOptions(opts: seq<Opt>, tail: seq<string>)
    ensures Program(RenderAll(opts) + tail) == Program(tail)
    decreases |opts|
  {
    hide Render, ReadOne;
    if opts == [] {
      assert RenderAll(opts) + tail == tail;
    } else {
      var n := |opts| - 1;
      var o := opts[n];
      ReadsBackOne(o, tail);
      assert (Render(o) + tail)[|Render(o)|..] == tail;
      ProgramAfterOptions(opts[..n], Render(o) + tail);
      assert RenderAll(opts) + tail == RenderAll(opts[..n]) + (Render(o) + tail);
    }
  }

  /**
  What runs is the platform's init, on its own socket and the workspace. It is told to drop to the
  sandbox's ids exactly where bubblewrap did not, and to reap orphans exactly where it is not
  process one.
  */
  lemma InitIsWhatRuns(spec: Spec, p: Policy, l: Layout)
    ensures Program(Argv(spec, p, l)) ==
      [l.initTarget, "--socket", Join(l.ipcMount, "init.sock"), "--workspace", WorkspacePath(spec)] +
      (if p.tier == CapAdmin || p.tier == Chroot then ["--drop-to", ItoaText(p.uid) + ":" + ItoaText(p.gid)] else []) +
      (if p.tier == Filesystem then ["--subreaper"] else [])
  {
    hide RenderAll, Plan, Join, ItoaText, WorkspacePath;
    ProgramAfterOptions(Plan(spec, p, l), Command(spec, p, l));
  }
}
