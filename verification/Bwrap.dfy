/**
The filesystem specification of a sandbox and the bubblewrap command line it becomes
(pkg/bwrap): the rules of Validate, the arguments of Generate, and what bubblewrap reads
back from them.
*/
module Bwrap {
  import opened Options
  import opened Paths
  import opened Decimal

  // ------------------------------------------------------------------ inputs

  datatype Mount = Mount(path: string, volume: string, subPath: string, readOnly: bool)

  datatype Spec = Spec(workspace: string, mounts: seq<Mount>, allowSystemPaths: seq<string>, hide: seq<string>)

  datatype Layout = Layout(
    binDir: string,
    skelDir: string,
    workspaceDir: string,
    ipcDir: string,
    ipcMount: string,
    initTarget: string)

  datatype Tier = Filesystem | Userns | CapAdmin | Chroot

  /** `dirs` are the hide targets that are directories where the command line is built. */
  datatype Policy = Policy(
    sourceFDs: map<string, Int>,
    tier: Tier,
    uid: Int,
    gid: Int,
    hostname: string,
    maxMounts: int,
    systemAllowlist: seq<string>,
    volumes: map<string, string>,
    dirs: set<string>)

  const DEFAULT_WORKSPACE := "/workspace"
  const MAX_MOUNTS := 32
  const INIT_SOCKET := "init.sock"
  const SEARCH_PATH := "/usr/local/sbin:/usr/local/bin:/usr/sbin:/usr/bin:/sbin:/bin"

  function WorkspacePath(spec: Spec): string {
    if spec.workspace == "" then DEFAULT_WORKSPACE else spec.workspace
  }

  function Protected(l: Layout): seq<string> {
    [ "/proc", "/dev", "/opt/jdix", "/var/lib/jdix", l.ipcMount, l.initTarget,
      "/etc/passwd", "/etc/group", "/etc/resolv.conf" ]
  }

  function Shadowable(spec: Spec, p: Policy): seq<string> {
    p.systemAllowlist + [WorkspacePath(spec)]
  }

  function MountLimit(p: Policy): int {
    if p.maxMounts <= 0 then MAX_MOUNTS else p.maxMounts
  }

  // ------------------------------------------------------------------- rules

  predicate ApartFrom(path: string, others: seq<string>) {
    forall i :: 0 <= i < |others| ==> !Overlaps(path, others[i])
  }

  /** `path` neither is nor lies above any of `others`. */
  predicate CoversNone(path: string, others: seq<string>) {
    forall i :: 0 <= i < |others| ==> !Contains(path, others[i])
  }

  predicate WorkspaceOk(spec: Spec, l: Layout) {
    var ws := WorkspacePath(spec);
    IsAbsClean(ws) && ws != "/" && ApartFrom(ws, Protected(l))
  }

  predicate SystemPathOk(path: string, p: Policy) {
    IsAbsClean(path) && path in p.systemAllowlist
  }

  predicate MountTargetOk(spec: Spec, p: Policy, l: Layout, i: nat)
    requires i < |spec.mounts|
  {
    var path := spec.mounts[i].path;
    && IsAbsClean(path) && path != "/"
    && (forall j :: 0 <= j < i ==> spec.mounts[j].path != path)
    && ApartFrom(path, Protected(l))
    && CoversNone(path, Shadowable(spec, p))
  }

  predicate MountVolumeOk(m: Mount, p: Policy) {
    m.volume != "" && m.volume in p.volumes
  }

  predicate HideOk(spec: Spec, p: Policy, l: Layout, h: string) {
    && IsAbsClean(h)
    && (forall j :: 0 <= j < |spec.mounts| ==> !Contains(h, spec.mounts[j].path))
    && !Contains(h, WorkspacePath(spec))
    && h != "/"
    && ApartFrom(h, Protected(l))
    && CoversNone(h, Shadowable(spec, p))
  }

  /** The specifications the platform admits. */
  predicate Accepts(spec: Spec, p: Policy, l: Layout) {
    && !(p.tier == Chroot && |spec.mounts| > 0)
    && WorkspaceOk(spec, l)
    && |spec.mounts| <= MountLimit(p)
    && (forall i :: 0 <= i < |spec.allowSystemPaths| ==> SystemPathOk(spec.allowSystemPaths[i], p))
    && (forall i :: 0 <= i < |spec.mounts| ==>
          MountTargetOk(spec, p, l, i) && MountVolumeOk(spec.mounts[i], p) && SubPathOk(spec.mounts[i].subPath))
    && (forall i :: 0 <= i < |spec.hide| ==> HideOk(spec, p, l, spec.hide[i]))
  }

  /** The field a refusal names. */
  datatype Field =
    | MountList
    | WorkspaceField
    | SystemPathField(i: nat)
    | MountTarget(i: nat)
    | MountVolume(i: nat)
    | MountSubPath(i: nat)
    | HideField(i: nat)

  /** The named field is really at fault. */
  predicate AtFault(spec: Spec, p: Policy, l: Layout, f: Field) {
    match f
    case MountList => (p.tier == Chroot && |spec.mounts| > 0) || |spec.mounts| > MountLimit(p)
    case WorkspaceField => !WorkspaceOk(spec, l)
    case SystemPathField(i) => i < |spec.allowSystemPaths| && !SystemPathOk(spec.allowSystemPaths[i], p)
    case MountTarget(i) => i < |spec.mounts| && !MountTargetOk(spec, p, l, i)
    case MountVolume(i) => i < |spec.mounts| && !MountVolumeOk(spec.mounts[i], p)
    case MountSubPath(i) => i < |spec.mounts| && !SubPathOk(spec.mounts[i].subPath)
    case HideField(i) => i < |spec.hide| && !HideOk(spec, p, l, spec.hide[i])
  }

  method AnyOverlap(path: string, others: seq<string>) returns (found: bool)
    ensures found <==> !ApartFrom(path, others)
  {
    for i := 0 to |others|
      invariant forall j :: 0 <= j < i ==> !Overlaps(path, others[j])
    {
      if Overlaps(path, others[i]) {
        return true;
      }
    }
    return false;
  }

  method AnyCovered(path: string, others: seq<string>) returns (found: bool)
    ensures found <==> !CoversNone(path, others)
  {
    for i := 0 to |others|
      invariant forall j :: 0 <= j < i ==> !Contains(path, others[j])
    {
      if Contains(path, others[i]) {
        return true;
      }
    }
    return false;
  }

  /** The checks on one mount target, with the set of targets seen before it. */
  method CheckTarget(spec: Spec, p: Policy, l: Layout, i: nat, seen: set<string>) returns (ok: bool)
    requires i < |spec.mounts|
    requires seen == set j | 0 <= j < i :: spec.mounts[j].path
    ensures ok <==> MountTargetOk(spec, p, l, i)
  {
    var path := spec.mounts[i].path;
    assert path in seen <==> exists j :: 0 <= j < i && spec.mounts[j].path == path;
    if !IsAbsClean(path) || path == "/" || path in seen {
      return false;
    }
    var clash := AnyOverlap(path, Protected(l));
    if clash {
      return false;
    }
    var covers := AnyCovered(path, Shadowable(spec, p));
    return !covers;
  }

  method CheckHide(spec: Spec, p: Policy, l: Layout, h: string) returns (ok: bool)
    ensures ok <==> HideOk(spec, p, l, h)
  {
    if !IsAbsClean(h) {
      return false;
    }
    for j := 0 to |spec.mounts|
      invariant forall k :: 0 <= k < j ==> !Contains(h, spec.mounts[k].path)
    {
      if Contains(h, spec.mounts[j].path) {
        return false;
      }
    }
    if Contains(h, WorkspacePath(spec)) || h == "/" {
      return false;
    }
    var clash := AnyOverlap(h, Protected(l));
    if clash {
      return false;
    }
    var covers := AnyCovered(h, Shadowable(spec, p));
    return !covers;
  }

  method CheckMounts(spec: Spec, p: Policy, l: Layout) returns (fault: Option<Field>)
    ensures fault.None? <==>
      forall i :: 0 <= i < |spec.mounts| ==>
        MountTargetOk(spec, p, l, i) && MountVolumeOk(spec.mounts[i], p) && SubPathOk(spec.mounts[i].subPath)
    ensures fault.Some? ==> AtFault(spec, p, l, fault.value)
  {
    hide IsAbsClean, SubPathOk, MountTargetOk;
    var seen: set<string> := {};
    for i := 0 to |spec.mounts|
      invariant seen == set j | 0 <= j < i :: spec.mounts[j].path
      invariant forall j :: 0 <= j < i ==>
        MountTargetOk(spec, p, l, j) && MountVolumeOk(spec.mounts[j], p) && SubPathOk(spec.mounts[j].subPath)
    {
      var ok := CheckTarget(spec, p, l, i, seen);
      if !ok {
        return Some(MountTarget(i));
      }
      seen := seen + {spec.mounts[i].path};
      if spec.mounts[i].volume == "" || spec.mounts[i].volume !in p.volumes {
        return Some(MountVolume(i));
      }
      if !SubPathOk(spec.mounts[i].subPath) {
        return Some(MountSubPath(i));
      }
    }
    return None;
  }

  /** Policy.Validate: it refuses exactly what is not admitted, and names a field that is at fault. */
  method Validate(spec: Spec, p: Policy, l: Layout) returns (fault: Option<Field>)
    ensures fault.None? <==> Accepts(spec, p, l)
    ensures fault.Some? ==> AtFault(spec, p, l, fault.value)
  {
    hide IsAbsClean, SubPathOk, MountTargetOk, HideOk, ApartFrom;
    if p.tier == Chroot && |spec.mounts| > 0 {
      return Some(MountList);
    }
    var ws := WorkspacePath(spec);
    if !IsAbsClean(ws) || ws == "/" {
      return Some(WorkspaceField);
    }
    var clash := AnyOverlap(ws, Protected(l));
    if clash {
      return Some(WorkspaceField);
    }
    if |spec.mounts| > MountLimit(p) {
      return Some(MountList);
    }
    for i := 0 to |spec.allowSystemPaths|
      invariant forall j :: 0 <= j < i ==> SystemPathOk(spec.allowSystemPaths[j], p)
    {
      if !IsAbsClean(spec.allowSystemPaths[i]) || spec.allowSystemPaths[i] !in p.systemAllowlist {
        return Some(SystemPathField(i));
      }
    }
    fault := CheckMounts(spec, p, l);
    if fault.Some? {
      return;
    }
    for i := 0 to |spec.hide|
      invariant forall j :: 0 <= j < i ==> HideOk(spec, p, l, spec.hide[j])
    {
      var ok := CheckHide(spec, p, l, spec.hide[i]);
      if !ok {
        return Some(HideField(i));
      }
    }
    return None;
  }

  // ----------------------------------------------------------------- ordering

  /** Shallower first, then by name. */
  predicate Before(a: Mount, b: Mount) {
    Count(a.path) < Count(b.path) || (Count(a.path) == Count(b.path) && Less(a.path, b.path))
  }

  function Insert(m: Mount, sorted: seq<Mount>): seq<Mount> {
    if sorted == [] then [m]
    else if Before(sorted[0], m) then [sorted[0]] + Insert(m, sorted[1..])
    else [m] + sorted
  }

  /** orderedMounts: a stable sort by depth and name, written as insertion from the back. */
  function OrderedMounts(mounts: seq<Mount>): seq<Mount> {
    if mounts == [] then [] else Insert(mounts[0], OrderedMounts(mounts[1..]))
  }

  ghost predicate DistinctPaths(mounts: seq<Mount>) {
    forall i, j :: 0 <= i < j < |mounts| ==> mounts[i].path != mounts[j].path
  }

  ghost predicate Sorted(mounts: seq<Mount>) {
    forall i, j :: 0 <= i < j < |mounts| ==> Before(mounts[i], mounts[j])
  }

  lemma BeforeIsStrictOrder(a: Mount, b: Mount, c: Mount)
    ensures !(Before(a, b) && Before(b, a))
    ensures Before(a, b) && Before(b, c) ==> Before(a, c)
    ensures a.path != b.path ==> Before(a, b) || Before(b, a)
  {
    LessIsTotal(a.path, b.path);
    if Less(a.path, b.path) && Less(b.path, c.path) {
      LessIsTransitive(a.path, b.path, c.path);
    }
  }

  lemma {:induction false} InsertKeepsAll(m: Mount, sorted: seq<Mount>)
    ensures multiset(Insert(m, sorted)) == multiset(sorted) + multiset{m}
  {
    if sorted != [] {
      assert sorted == [sorted[0]] + sorted[1..];
      if Before(sorted[0], m) {
        InsertKeepsAll(m, sorted[1..]);
      }
    }
  }

  lemma {:induction false} OrderedKeepsAll(mounts: seq<Mount>)
    ensures multiset(OrderedMounts(mounts)) == multiset(mounts)
  {
    if mounts != [] {
      OrderedKeepsAll(mounts[1..]);
      InsertKeepsAll(mounts[0], OrderedMounts(mounts[1..]));
      assert mounts == [mounts[0]] + mounts[1..];
    }
  }

  lemma SameMembers(a: seq<Mount>, b: seq<Mount>)
    requires multiset(a) == multiset(b)
    ensures forall m :: m in a <==> m in b
    ensures |a| == |b|
  {
    assert forall m :: m in a <==> m in multiset(a);
    assert forall m :: m in b <==> m in multiset(b);
    assert |multiset(a)| == |a| && |multiset(b)| == |b|;
  }

  lemma {:induction false} InsertSorts(m: Mount, sorted: seq<Mount>)
    requires Sorted(sorted) && forall i :: 0 <= i < |sorted| ==> sorted[i].path != m.path
    ensures Sorted(Insert(m, sorted))
  {
    if sorted != [] {
      var head, rest := sorted[0], sorted[1..];
      if Before(head, m) {
        InsertSorts(m, rest);
        InsertKeepsAll(m, rest);
        SameMembers(Insert(m, rest), rest + [m]);
        forall j | 0 <= j < |Insert(m, rest)|
          ensures Before(head, Insert(m, rest)[j])
        {
          assert Insert(m, rest)[j] in rest + [m];
        }
      } else {
        forall j | 0 <= j < |sorted|
          ensures Before(m, sorted[j])
        {
          BeforeIsStrictOrder(head, m, m);
          BeforeIsStrictOrder(m, head, sorted[j]);
        }
      }
    }
  }

  /** The order is total on distinct targets, so the result is strictly sorted. */
  lemma {:induction false} OrderedIsSorted(mounts: seq<Mount>)
    requires DistinctPaths(mounts)
    ensures Sorted(OrderedMounts(mounts))
  {
    if mounts != [] {
      var rest := mounts[1..];
      OrderedIsSorted(rest);
      OrderedKeepsAll(rest);
      SameMembers(OrderedMounts(rest), rest);
      forall i | 0 <= i < |OrderedMounts(rest)|
        ensures OrderedMounts(rest)[i].path != mounts[0].path
      {
        assert OrderedMounts(rest)[i] in rest;
      }
      InsertSorts(mounts[0], OrderedMounts(rest));
    }
  }

  lemma TailMembers(a: seq<Mount>)
    requires a != []
    ensures multiset(a[1..]) == multiset(a) - multiset{a[0]}
  {
    assert a == [a[0]] + a[1..];
  }

  lemma {:induction false} SortedIsUnique(a: seq<Mount>, b: seq<Mount>)
    requires Sorted(a) && Sorted(b) && multiset(a) == multiset(b)
    ensures a == b
  {
    SameMembers(a, b);
    if a != [] {
      assert a[0] in b && b[0] in a;
      if a[0] != b[0] {
        BeforeIsStrictOrder(a[0], b[0], a[0]);
      }
      TailMembers(a);
      TailMembers(b);
      SortedIsUnique(a[1..], b[1..]);
    }
  }
}
