/**
Launching a sandbox (pkg/execd/sandbox.go): in the filesystem tier every mount source is
opened first and handed to bubblewrap as a numbered descriptor, with the seccomp filter last.
*/
module Launch {
  import opened Options
  import opened Paths
  import opened Decimal
  import opened Bwrap
  import opened CommandLine
  import opened Generate
  import opened MountView

  datatype Config = Config(tier: Tier, uid: Int, gid: Int, volumes: map<string, string>, dirs: set<string>)

  const SYSTEM_PATHS: seq<string> :=
    ["/usr", "/bin", "/sbin", "/lib", "/lib64", "/etc/ssl", "/etc/ca-certificates", "/etc/alternatives"]

  function DefaultPolicy(c: Config): Policy {
    Policy(map[], c.tier, c.uid, c.gid, "sandbox", MAX_MOUNTS, SYSTEM_PATHS, c.volumes, c.dirs)
  }

  /** An inherited file: the directory a mount source resolved to, or the compiled filter. */
  datatype File = Dir(root: string, sub: string) | Filter

  /** The first inherited descriptor; a process gets its extra files from here on, in order. */
  const FIRST_FD := 3

  function Opened(m: Mount, volumes: map<string, string>): File {
    Dir(if m.volume in volumes then volumes[m.volume] else "", m.subPath)
  }

  function FilesOf(mounts: seq<Mount>, volumes: map<string, string>): seq<File> {
    seq(|mounts|, i requires 0 <= i < |mounts| => Opened(mounts[i], volumes))
  }

  function FdsOf(mounts: seq<Mount>): map<string, Int>
    requires |mounts| <= MAX_MOUNTS
  {
    if mounts == [] then map[]
    else FdsOf(mounts[..|mounts| - 1])[mounts[|mounts| - 1].path := FIRST_FD + |mounts| - 1]
  }

  function PinnedPolicy(c: Config, spec: Spec): Policy
    requires |spec.mounts| <= MAX_MOUNTS
  {
    if c.tier == Filesystem then DefaultPolicy(c).(sourceFDs := FdsOf(spec.mounts)) else DefaultPolicy(c)
  }

  function LaunchArgv(c: Config, spec: Spec, l: Layout): seq<string>
    requires |spec.mounts| <= MAX_MOUNTS
  {
    (if c.tier == Filesystem then ["--seccomp", Text(FIRST_FD + |spec.mounts|)] else []) +
    Argv(spec, PinnedPolicy(c, spec), l)
  }

  function LaunchFiles(c: Config, spec: Spec): seq<File> {
    if c.tier == Filesystem then FilesOf(spec.mounts, c.volumes) + [Filter] else []
  }

  datatype Failure = Rejected(field: Field) | NotOpened(m: Mount) | NoFilter

  /** A mount's source can be opened; `openable` stands for the state of the volumes. */
  predicate CanOpen(m: Mount, volumes: map<string, string>, openable: set<File>) {
    CheckRel(m.subPath).Some? && Opened(m, volumes) in openable
  }

  /** Pins each source in request order; the descriptor recorded is the file's place in the list. */
  method PinSources(mounts: seq<Mount>, volumes: map<string, string>, openable: set<File>)
    returns (r: Result<(map<string, Int>, seq<File>), Mount>)
    requires |mounts| <= MAX_MOUNTS
    ensures r.Ok? <==> forall i :: 0 <= i < |mounts| ==> CanOpen(mounts[i], volumes, openable)
    ensures r.Ok? ==> r.value == (FdsOf(mounts), FilesOf(mounts, volumes))
  {
    hide CheckRel;
    var fds: map<string, Int> := map[];
    var files: seq<File> := [];
    for i := 0 to |mounts|
      invariant fds == FdsOf(mounts[..i]) && files == FilesOf(mounts[..i], volumes)
      invariant forall j :: 0 <= j < i ==> CanOpen(mounts[j], volumes, openable)
    {
      if CheckRel(mounts[i].subPath).None? || Opened(mounts[i], volumes) !in openable {
        return Err(mounts[i]);
      }
      assert mounts[..i + 1][..i] == mounts[..i];
      fds := fds[mounts[i].path := FIRST_FD + |files|];
      files := files + [Opened(mounts[i], volumes)];
    }
    assert mounts[..|mounts|] == mounts;
    return Ok((fds, files));
  }

  /** Pinned descriptors play no part in what is admitted. */
  lemma PinningKeepsAcceptance(spec: Spec, p: Policy, l: Layout, fds: map<string, Int>)
    ensures Accepts(spec, p, l) <==> Accepts(spec, p.(sourceFDs := fds), l)
  {
    hide IsAbsClean, ApartFrom, CoversNone, SubPathOk, Contains;
    var p' := p.(sourceFDs := fds);
    assert forall i :: 0 <= i < |spec.mounts| ==> MountTargetOk(spec, p, l, i) == MountTargetOk(spec, p', l, i);
    assert forall h :: HideOk(spec, p, l, h) == HideOk(spec, p', l, h);
  }

  /** What the daemon's configuration decides about a launch; nothing is pinned yet. */
  lemma DefaultPolicyFields(c: Config)
    ensures DefaultPolicy(c).tier == c.tier && DefaultPolicy(c).volumes == c.volumes
    ensures DefaultPolicy(c).uid == c.uid && DefaultPolicy(c).gid == c.gid && DefaultPolicy(c).dirs == c.dirs
    ensures DefaultPolicy(c).sourceFDs == map[]
  {
  }

  lemma AcceptedFits(c: Config, spec: Spec, l: Layout)
    requires Accepts(spec, DefaultPolicy(c), l)
    ensures |spec.mounts| <= MAX_MOUNTS
  {
  }

  lemma FilesFit(mounts: seq<Mount>, volumes: map<string, string>)
    ensures |FilesOf(mounts, volumes)| == |mounts|
  {
  }

  /**
  A launch never fails for want of a pinned source: it succeeds exactly when the specification is
  admitted and, in the filesystem tier, every source opens and the filter can be made.
  */
  method BuildLaunch(c: Config, spec: Spec, l: Layout, openable: set<File>, filterOk: bool)
    returns (r: Result<(seq<string>, seq<File>), Failure>)
    ensures r.Ok? <==>
      && Accepts(spec, DefaultPolicy(c), l)
      && (c.tier == Filesystem ==>
            filterOk && forall i :: 0 <= i < |spec.mounts| ==> CanOpen(spec.mounts[i], c.volumes, openable))
    ensures r.Err? ==> (r.error.Rejected? <==> !Accepts(spec, DefaultPolicy(c), l))
    ensures r.Ok? ==> |spec.mounts| <= MAX_MOUNTS && r.value == (LaunchArgv(c, spec, l), LaunchFiles(c, spec))
  {
    hide Accepts, Argv, CanOpen, FilesOf, FdsOf, ReadAll, Plan, Text, DefaultPolicy;
    DefaultPolicyFields(c);
    var policy := DefaultPolicy(c);
    var fault := Validate(spec, policy, l);
    if fault.Some? {
      return Err(Rejected(fault.value));
    }
    AcceptedFits(c, spec, l);
    var files: seq<File> := [];
    if policy.tier == Filesystem {
      var pinned := PinSources(spec.mounts, policy.volumes, openable);
      if pinned.Err? {
        return Err(NotOpened(pinned.error));
      }
      policy := policy.(sourceFDs := pinned.value.0);
      files := pinned.value.1;
      FilesFit(spec.mounts, c.volumes);
      PinningKeepsAcceptance(spec, DefaultPolicy(c), l, policy.sourceFDs);
      EveryTargetHasFd(spec.mounts);
    }
    var built := BuildArgv(spec, policy, l);
    if built.Err? {
      assert false; // every source is pinned by now, so "build sandbox" cannot fail
    }
    var argv := built.value;
    if policy.tier == Filesystem {
      if !filterOk {
        return Err(NoFilter);
      }
      argv := ["--seccomp", Text(FIRST_FD + |files|)] + argv;
      files := files + [Filter];
    }
    assert argv == LaunchArgv(c, spec, l);
    return Ok((argv, files));
  }

  lemma {:induction false} EveryTargetHasFd(mounts: seq<Mount>)
    requires |mounts| <= MAX_MOUNTS
    ensures forall i :: 0 <= i < |mounts| ==> mounts[i].path in FdsOf(mounts)
  {
    if mounts != [] {
      EveryTargetHasFd(mounts[..|mounts| - 1]);
    }
  }

  lemma {:induction false} FdIsPlace(mounts: seq<Mount>, i: nat)
    requires |mounts| <= MAX_MOUNTS && DistinctPaths(mounts) && i < |mounts|
    ensures mounts[i].path in FdsOf(mounts) && FdsOf(mounts)[mounts[i].path] == FIRST_FD + i
  {
    var n := |mounts| - 1;
    if i < n {
      FdIsPlace(mounts[..n], i);
    }
  }

  /** bubblewrap reads the launched command line as the filter's descriptor, then the plan. */
  lemma LaunchReads(c: Config, spec: Spec, l: Layout)
    requires |spec.mounts| <= MAX_MOUNTS && c.tier == Filesystem
    ensures ReadAll(LaunchArgv(c, spec, l))
         == Some([Set(Seccomp, Text(FIRST_FD + |spec.mounts|))] + Plan(spec, PinnedPolicy(c, spec), l))
  {
    hide Plan, Command, ReadAll, RenderAll, PinnedPolicy, Text;
    var p := PinnedPolicy(c, spec);
    var first := Set(Seccomp, Text(FIRST_FD + |spec.mounts|));
    CommandEnds(spec, p, l);
    ReadsBackAll([first] + Plan(spec, p, l), Command(spec, p, l));
    RenderAllOfConcat([first], Plan(spec, p, l));
    RenderOne(first);
    assert RenderAll([first] + Plan(spec, p, l)) + Command(spec, p, l)
        == Render(first) + (RenderAll(Plan(spec, p, l)) + Command(spec, p, l));
    assert ([first] + Plan(spec, p, l)) + [] == [first] + Plan(spec, p, l);
  }

  lemma CommandEnds(spec: Spec, p: Policy, l: Layout)
    ensures ReadAll(Command(spec, p, l)) == Some([])
  {
  }

  lemma RenderOne(o: Opt)
    ensures RenderAll([o]) == Render(o)
  {
  }

  /** The filter's option changes nothing about the mounts. */
  lemma LaunchView(c: Config, spec: Spec, l: Layout, q: string)
    requires |spec.mounts| <= MAX_MOUNTS && c.tier == Filesystem
    ensures View(LaunchArgv(c, spec, l), q) == View(Argv(spec, PinnedPolicy(c, spec), l), q)
  {
    hide Plan, ReadAll, Argv, LaunchArgv, PinnedPolicy, Text, Ops;
    var first := Set(Seccomp, Text(FIRST_FD + |spec.mounts|));
    LaunchReads(c, spec, l);
    ArgvReadsAsPlan(spec, PinnedPolicy(c, spec), l);
    OpsOfConcat([first], Plan(spec, PinnedPolicy(c, spec), l));
    OpsOfSetup([first]);
    assert [] + Ops(Plan(spec, PinnedPolicy(c, spec), l)) == Ops(Plan(spec, PinnedPolicy(c, spec), l));
  }

  lemma TargetShowsItsFd(c: Config, spec: Spec, l: Layout, i: nat)
    requires |spec.mounts| <= MAX_MOUNTS
    requires Accepts(spec, DefaultPolicy(c), l) && c.tier == Filesystem && i < |spec.mounts|
    ensures var shown := View(LaunchArgv(c, spec, l), spec.mounts[i].path);
            && shown.Some? && (if spec.mounts[i].readOnly then shown.value.RoBindFd? else shown.value.BindFd?)
            && Atoi(shown.value.fd) == Some(FIRST_FD + i)
  {
    hide Accepts, View, Argv, LaunchArgv, Atoi, Text, Opened, DefaultPolicy, FdsOf, IsAbsClean, ApartFrom, Contains;
    var p := DefaultPolicy(c).(sourceFDs := FdsOf(spec.mounts));
    var m := spec.mounts[i];
    PinningKeepsAcceptance(spec, DefaultPolicy(c), l, FdsOf(spec.mounts));
    AcceptedMounts(spec, p, l);
    FdIsPlace(spec.mounts, i);
    LaunchView(c, spec, l, m.path);
    EveryMountIsVisible(spec, p, l, m);
    AtoiOfText(FIRST_FD + i);
  }

  /**
  In the filesystem tier, whatever order the mounts end up in: at each mount's target the sandbox
  sees a bind of a descriptor whose decimal text decodes to the place of the file that was opened
  for that very mount's volume and subpath.
  */
  lemma DescriptorsMatchSources(c: Config, spec: Spec, l: Layout, i: nat)
    requires |spec.mounts| <= MAX_MOUNTS
    requires Accepts(spec, DefaultPolicy(c), l) && c.tier == Filesystem && i < |spec.mounts|
    ensures var shown := View(LaunchArgv(c, spec, l), spec.mounts[i].path);
            var files := LaunchFiles(c, spec);
            && shown.Some? && (if spec.mounts[i].readOnly then shown.value.RoBindFd? else shown.value.BindFd?)
            && Atoi(shown.value.fd) == Some(3 + i) && i < |files| - 1 && spec.mounts[i].volume in c.volumes
            && files[i] == Dir(c.volumes[spec.mounts[i].volume], spec.mounts[i].subPath)
  {
    hide Accepts, View, LaunchArgv, Atoi, DefaultPolicy;
    TargetShowsItsFd(c, spec, l, i);
    VolumeIsKnown(c, spec, l, i);
  }

  lemma VolumeIsKnown(c: Config, spec: Spec, l: Layout, i: nat)
    requires Accepts(spec, DefaultPolicy(c), l) && i < |spec.mounts|
    ensures spec.mounts[i].volume in c.volumes
  {
    hide MountTargetOk, SubPathOk, WorkspaceOk, HideOk;
    assert MountVolumeOk(spec.mounts[i], DefaultPolicy(c));
  }

  /** The filter's descriptor is read first, and it is none of the mounts': it is the last of the files. */
  lemma FilterHasItsOwnDescriptor(c: Config, spec: Spec, l: Layout)
    requires |spec.mounts| <= MAX_MOUNTS && c.tier == Filesystem
    ensures var opts := ReadAll(LaunchArgv(c, spec, l));
            var files := LaunchFiles(c, spec);
            && opts.Some? && opts.value != [] && opts.value[0].Set? && opts.value[0].setting == Seccomp
            && Atoi(opts.value[0].arg) == Some(3 + |files| - 1)
            && |files| == |spec.mounts| + 1 && files[|files| - 1] == Filter
            && forall i :: 0 <= i < |files| - 1 ==> files[i].Dir?
  {
    hide LaunchArgv, ReadAll, Plan, Atoi, Text;
    LaunchReads(c, spec, l);
    AtoiOfText(FIRST_FD + |spec.mounts|);
  }
}
