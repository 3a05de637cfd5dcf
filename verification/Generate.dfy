/** Generate (pkg/bwrap/generate.go): from a specification to a complete command line. */
module Generate {
  import opened Options
  import opened Paths
  import opened Decimal
  import opened Bwrap
  import opened CommandLine

  // --------------------------------------------------------- what it emits

  predicate OwnUserNamespace(p: Policy) {
    p.tier == Userns || p.tier == Filesystem
  }

  function Namespaces(p: Policy): seq<Opt> {
    (if OwnUserNamespace(p) then [Flag(UnshareUser)] else []) +
    (if p.tier != Filesystem
     then [Flag(UnshareIpc), Flag(UnsharePid), Flag(UnshareUts), Flag(UnshareCgroupTry)] else []) +
    (if OwnUserNamespace(p) then [Set(Uid, ItoaText(p.uid)), Set(Gid, ItoaText(p.gid))] else []) +
    (if p.hostname != "" && p.tier != Filesystem then [Set(Hostname, p.hostname)] else [])
  }

  function SystemPaths(spec: Spec, p: Policy): seq<string> {
    if spec.allowSystemPaths == [] then p.systemAllowlist else spec.allowSystemPaths
  }

  function SystemBinds(paths: seq<string>): seq<Opt> {
    seq(|paths|, i requires 0 <= i < |paths| => Mounts(RoBindTry(paths[i], paths[i])))
  }

  function Skeleton(p: Policy, l: Layout): seq<Opt> {
    [ Mounts(RoBind(Join(l.skelDir, "passwd"), "/etc/passwd")),
      Mounts(RoBind(Join(l.skelDir, "group"), "/etc/group")),
      Mounts(RoBind(Join(l.skelDir, "resolv.conf"), "/etc/resolv.conf")) ] +
    (if p.tier == Filesystem then [Mounts(RoBind("/proc", "/proc")), Set(CapDrop, "ALL")]
     else [Mounts(Proc("/proc"))]) +
    [ Mounts(Dev("/dev")),
      Mounts(Tmpfs("/tmp")), Mounts(Tmpfs("/run")), Mounts(Tmpfs("/home")),
      Mounts(RoBind(Join(l.binDir, "jdix-init"), l.initTarget)),
      Mounts(Bind(l.ipcDir, l.ipcMount)) ]
  }

  /** Everything the platform mounts for itself. */
  function Platform(spec: Spec, p: Policy, l: Layout): seq<Opt> {
    Namespaces(p) + SystemBinds(SystemPaths(spec, p)) + Skeleton(p, l)
  }

  function WorkspaceOp(spec: Spec, l: Layout): Op {
    Bind(l.workspaceDir, WorkspacePath(spec))
  }

  function Source(m: Mount, p: Policy): string {
    var root := if m.volume in p.volumes then p.volumes[m.volume] else "";
    Join(root, m.subPath)
  }

  function MountOp(m: Mount, p: Policy): Op {
    if m.path in p.sourceFDs then
      var fd := ItoaText(p.sourceFDs[m.path]);
      if m.readOnly then RoBindFd(fd, m.path) else BindFd(fd, m.path)
    else if m.readOnly then RoBind(Source(m, p), m.path)
    else Bind(Source(m, p), m.path)
  }

  function MountOps(mounts: seq<Mount>, p: Policy): seq<Opt> {
    seq(|mounts|, i requires 0 <= i < |mounts| => Mounts(MountOp(mounts[i], p)))
  }

  function HideOp(h: string, p: Policy): Op {
    if h in p.dirs then Tmpfs(h) else RoBind("/dev/null", h)
  }

  function HideOps(hidden: seq<string>, p: Policy): seq<Opt> {
    seq(|hidden|, i requires 0 <= i < |hidden| => Mounts(HideOp(hidden[i], p)))
  }

  /** Everything the tenant declared: the workspace, the mounts in order, then what is hidden. */
  function Tenant(spec: Spec, p: Policy, l: Layout): seq<Opt> {
    [Mounts(WorkspaceOp(spec, l))] + MountOps(OrderedMounts(spec.mounts), p) + HideOps(spec.hide, p)
  }

  function ProcessSetup(spec: Spec, p: Policy): seq<Opt> {
    [ Set(Chdir, WorkspacePath(spec)), Flag(ClearEnv),
      SetEnv("HOME", "/home"), SetEnv("PATH", SEARCH_PATH), SetEnv("TERM", "xterm-256color"),
      SetEnv("JDIX_SANDBOX", "1"), Flag(DieWithParent), Flag(NewSession) ] +
    (if p.tier != Filesystem then [Flag(AsPid1)] else [])
  }

  function Command(spec: Spec, p: Policy, l: Layout): seq<string> {
    ["--", l.initTarget, "--socket", Join(l.ipcMount, INIT_SOCKET), "--workspace", WorkspacePath(spec)] +
    (if !OwnUserNamespace(p) then ["--drop-to", ItoaText(p.uid) + ":" + ItoaText(p.gid)] else []) +
    (if p.tier == Filesystem then ["--subreaper"] else [])
  }

  function Plan(spec: Spec, p: Policy, l: Layout): seq<Opt> {
    Platform(spec, p, l) + Tenant(spec, p, l) + ProcessSetup(spec, p)
  }

  function Argv(spec: Spec, p: Policy, l: Layout): seq<string> {
    RenderAll(Plan(spec, p, l)) + Command(spec, p, l)
  }

  /** In the filesystem tier every mount source has to be an open descriptor already. */
  predicate Pinned(spec: Spec, p: Policy) {
    forall i :: 0 <= i < |spec.mounts| ==> SourcePinned(spec.mounts[i], p)
  }

  predicate SourcePinned(m: Mount, p: Policy) {
    p.tier == Filesystem ==> m.path in p.sourceFDs
  }

  datatype Refusal = Invalid(field: Field) | Unpinned(path: string)

  // ------------------------------------------------------------ how it does it

  lemma RenderAllOfOne(opts: seq<Opt>, o: Opt)
    ensures RenderAll(opts + [o]) == RenderAll(opts) + Render(o)
  {
  }

  lemma RenderIs(o: Opt)
    requires o.Mounts?
    ensures Render(o) == RenderOp(o.op)
  {
  }

  method EmitSystem(spec: Spec, p: Policy, l: Layout) returns (a: seq<string>)
    ensures a == RenderAll(Platform(spec, p, l))
  {
    hide Render, Namespaces, Skeleton;
    a := RenderAll(Namespaces(p));
    var paths := SystemPaths(spec, p);
    assert Namespaces(p) + SystemBinds(paths[..0]) == Namespaces(p);
    for i := 0 to |paths|
      invariant a == RenderAll(Namespaces(p) + SystemBinds(paths[..i]))
    {
      var done := Namespaces(p) + SystemBinds(paths[..i]);
      var o := Mounts(RoBindTry(paths[i], paths[i]));
      RenderAllOfOne(done, o);
      assert SystemBinds(paths[..i + 1]) == SystemBinds(paths[..i]) + [o];
      assert Namespaces(p) + SystemBinds(paths[..i + 1]) == done + [o];
      assert Render(o) == ["--ro-bind-try", paths[i], paths[i]] by { RenderIs(o); }
      a := a + ["--ro-bind-try", paths[i], paths[i]];
    }
    assert paths[..|paths|] == paths;
    RenderAllOfConcat(Namespaces(p) + SystemBinds(paths), Skeleton(p, l));
    a := a + RenderAll(Skeleton(p, l));
  }

  method EmitMount(m: Mount, p: Policy) returns (a: Option<seq<string>>)
    requires m.volume in p.volumes
    ensures a.Some? <==> SourcePinned(m, p)
    ensures a.Some? ==> a.value == Render(Mounts(MountOp(m, p)))
  {
    var src := Join(p.volumes[m.volume], m.subPath);
    if m.path in p.sourceFDs {
      var fd := Itoa(p.sourceFDs[m.path]);
      return Some(if m.readOnly then ["--ro-bind-fd", fd, m.path] else ["--bind-fd", fd, m.path]);
    } else if p.tier == Filesystem {
      return None;
    } else if m.readOnly {
      return Some(["--ro-bind", src, m.path]);
    } else {
      return Some(["--bind", src, m.path]);
    }
  }

  lemma NothingRendered(p: Policy)
    ensures RenderAll(MountOps([], p)) == [] && RenderAll(HideOps([], p)) == []
  {
  }

  lemma OneMountMore(mounts: seq<Mount>, p: Policy, i: nat)
    requires i < |mounts|
    ensures RenderAll(MountOps(mounts[..i + 1], p))
         == RenderAll(MountOps(mounts[..i], p)) + Render(Mounts(MountOp(mounts[i], p)))
  {
    hide RenderAll, Render, MountOp;
    RenderAllOfOne(MountOps(mounts[..i], p), Mounts(MountOp(mounts[i], p)));
    assert MountOps(mounts[..i + 1], p) == MountOps(mounts[..i], p) + [Mounts(MountOp(mounts[i], p))];
  }

  lemma OneHideMore(hidden: seq<string>, p: Policy, i: nat)
    requires i < |hidden|
    ensures RenderAll(HideOps(hidden[..i + 1], p))
         == RenderAll(HideOps(hidden[..i], p)) + Render(Mounts(HideOp(hidden[i], p)))
  {
    hide RenderAll, Render, HideOp;
    RenderAllOfOne(HideOps(hidden[..i], p), Mounts(HideOp(hidden[i], p)));
    assert HideOps(hidden[..i + 1], p) == HideOps(hidden[..i], p) + [Mounts(HideOp(hidden[i], p))];
  }

  /** Fails on the first mount, in mounting order, whose source is not pinned. */
  method EmitMounts(mounts: seq<Mount>, p: Policy) returns (r: Result<seq<string>, string>)
    requires forall m :: m in mounts ==> m.volume in p.volumes
    ensures r.Ok? <==> forall m :: m in mounts ==> SourcePinned(m, p)
    ensures r.Ok? ==> r.value == RenderAll(MountOps(mounts, p))
  {
    hide RenderAll, Render, MountOp, MountOps, SourcePinned;
    NothingRendered(p);
    assert mounts[..0] == [];
    var a: seq<string> := [];
    for i := 0 to |mounts|
      invariant a == RenderAll(MountOps(mounts[..i], p))
      invariant forall j :: 0 <= j < i ==> SourcePinned(mounts[j], p)
    {
      var m := mounts[i];
      OneMountMore(mounts, p, i);
      var more := EmitMount(m, p);
      if more.None? {
        return Err(m.path);
      }
      a := a + more.value;
    }
    assert mounts[..|mounts|] == mounts;
    return Ok(a);
  }

  method EmitHides(hidden: seq<string>, p: Policy) returns (a: seq<string>)
    ensures a == RenderAll(HideOps(hidden, p))
  {
    a := [];
    hide RenderAll, HideOps;
    NothingRendered(p);
    assert hidden[..0] == [];
    for i := 0 to |hidden|
      invariant a == RenderAll(HideOps(hidden[..i], p))
    {
      OneHideMore(hidden, p, i);
      if hidden[i] in p.dirs {
        a := a + ["--tmpfs", hidden[i]];
      } else {
        a := a + ["--ro-bind", "/dev/null", hidden[i]];
      }
    }
    assert hidden[..|hidden|] == hidden;
  }

  lemma AcceptedVolumes(spec: Spec, p: Policy, l: Layout)
    requires Accepts(spec, p, l)
    ensures forall m :: m in OrderedMounts(spec.mounts) <==> m in spec.mounts
    ensures forall m :: m in spec.mounts ==> m.volume in p.volumes
  {
    OrderedKeepsAll(spec.mounts);
    SameMembers(OrderedMounts(spec.mounts), spec.mounts);
    assert forall i :: 0 <= i < |spec.mounts| ==> MountVolumeOk(spec.mounts[i], p);
  }

  /**
  Generate succeeds exactly on admitted, pinned specifications; its output, read as bubblewrap
  reads it, is the platform's own options, then the tenant's, then the process setup.
  */
  method BuildArgv(spec: Spec, p: Policy, l: Layout) returns (r: Result<seq<string>, Refusal>)
    ensures r.Ok? <==> Accepts(spec, p, l) && Pinned(spec, p)
    ensures r.Ok? ==> r.value == Argv(spec, p, l) && ReadAll(r.value) == Some(Plan(spec, p, l))
    ensures r.Err? ==> (r.error.Unpinned? <==> Accepts(spec, p, l))
  {
    hide Accepts, Render, RenderAll, ReadAll, OrderedMounts, Platform, ProcessSetup, Command, ItoaText;
    var fault := Validate(spec, p, l);
    if fault.Some? {
      return Err(Invalid(fault.value));
    }
    AcceptedVolumes(spec, p, l);
    var system := EmitSystem(spec, p, l);
    var mounts := EmitMounts(OrderedMounts(spec.mounts), p);
    if mounts.Err? {
      return Err(Unpinned(mounts.error));
    }
    var hides := EmitHides(spec.hide, p);
    var a := system + RenderAll([Mounts(WorkspaceOp(spec, l))]) + mounts.value + hides;
    RenderAllOfPlan(spec, p, l);
    a := a + RenderAll(ProcessSetup(spec, p)) + Command(spec, p, l);
    ArgvReadsAsPlan(spec, p, l);
    return Ok(a);
  }

  lemma RenderAllOfPlan(spec: Spec, p: Policy, l: Layout)
    ensures RenderAll(Plan(spec, p, l)) ==
      RenderAll(Platform(spec, p, l)) + RenderAll([Mounts(WorkspaceOp(spec, l))]) +
      RenderAll(MountOps(OrderedMounts(spec.mounts), p)) + RenderAll(HideOps(spec.hide, p)) +
      RenderAll(ProcessSetup(spec, p))
  {
    hide RenderAll, Platform, OrderedMounts, MountOps, HideOps, ProcessSetup;
    var w, m := [Mounts(WorkspaceOp(spec, l))], MountOps(OrderedMounts(spec.mounts), p);
    RenderAllOfConcat(Platform(spec, p, l) + Tenant(spec, p, l), ProcessSetup(spec, p));
    RenderAllOfConcat(Platform(spec, p, l), Tenant(spec, p, l));
    RenderAllOfConcat(w + m, HideOps(spec.hide, p));
    RenderAllOfConcat(w, m);
  }

  /** The command line means its plan. */
  lemma ArgvReadsAsPlan(spec: Spec, p: Policy, l: Layout)
    ensures ReadAll(Argv(spec, p, l)) == Some(Plan(spec, p, l))
  {
    var c := Command(spec, p, l);
    assert c[0] == "--";
    ReadsBackAll(Plan(spec, p, l), c);
    assert Plan(spec, p, l) + [] == Plan(spec, p, l);
  }
}
