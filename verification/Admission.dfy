/**
What Policy.Validate admits and what an admitted specification can bring about
(pkg/bwrap/validate.go), told by segments and by what the command line binds.
*/
module Admission {
  import opened Paths
  import opened Bwrap
  import opened MountView
  import opened PathLaws

  // ------------------------------------------------------ the rules, by segments

  /** A path of the platform's configuration or the request, in canonical form. */
  ghost predicate AllCanonical(paths: seq<string>) {
    forall i :: 0 <= i < |paths| ==> Canonical(paths[i])
  }

  /** `a` is `b` or one of the directories above it. */
  ghost predicate Above(a: string, b: string) {
    Names(a) <= Names(b)
  }

  ghost predicate Clear(path: string, others: seq<string>) {
    forall i :: 0 <= i < |others| ==> !Above(path, others[i]) && !Above(others[i], path)
  }

  ghost predicate AboveNone(path: string, others: seq<string>) {
    forall i :: 0 <= i < |others| ==> !Above(path, others[i])
  }

  /** A path a request may put something at: canonical, below the root, clear of the platform's. */
  ghost predicate Placeable(path: string, l: Layout) {
    Canonical(path) && Names(path) != [] && Clear(path, Protected(l))
  }

  /** A path something may be put over: it hides no system path and not the workspace. */
  ghost predicate Coverable(path: string, spec: Spec, p: Policy) {
    AboveNone(path, p.systemAllowlist) && !Above(path, WorkspacePath(spec))
  }

  ghost predicate SourceNamed(m: Mount, p: Policy) {
    && m.volume != "" && m.volume in p.volumes
    && (m.subPath == "" || m.subPath == "." || (AllProper(Split(m.subPath)) && !HasNul(m.subPath)))
  }

  lemma ClearIff(path: string, others: seq<string>)
    requires Canonical(path) && AllCanonical(others)
    ensures ApartFrom(path, others) <==> Clear(path, others)
    ensures CoversNone(path, others) <==> AboveNone(path, others)
  {
    forall i | 0 <= i < |others|
      ensures Contains(path, others[i]) <==> Above(path, others[i])
      ensures Contains(others[i], path) <==> Above(others[i], path)
    {
      ContainsIff(path, others[i]);
      ContainsIff(others[i], path);
    }
  }

  lemma RootHasNoNames(path: string)
    requires Canonical(path)
    ensures path == "/" <==> Names(path) == []
  {
    IsAbsCleanIff(path);
    if Names(path) != [] {
      AbsIsLonger(Names(path));
    }
  }

  lemma PlaceableIff(path: string, l: Layout)
    requires AllCanonical(Protected(l))
    ensures IsAbsClean(path) && path != "/" && ApartFrom(path, Protected(l)) <==> Placeable(path, l)
  {
    hide Protected;
    IsAbsCleanIff(path);
    if Canonical(path) {
      ClearIff(path, Protected(l));
      RootHasNoNames(path);
    }
  }

  lemma CoverableIff(path: string, spec: Spec, p: Policy)
    requires Canonical(path) && AllCanonical(p.systemAllowlist) && Canonical(WorkspacePath(spec))
    ensures CoversNone(path, Shadowable(spec, p)) <==> Coverable(path, spec, p)
  {
    ClearIff(path, p.systemAllowlist);
    ContainsIff(path, WorkspacePath(spec));
    var s, n := Shadowable(spec, p), |p.systemAllowlist|;
    assert s[n] == WorkspacePath(spec) && forall i :: 0 <= i < n ==> s[i] == p.systemAllowlist[i];
    if Coverable(path, spec, p) {
      forall i | 0 <= i < |s|
        ensures !Contains(path, s[i])
      {
        assert i < n ==> !Contains(path, p.systemAllowlist[i]);
      }
    }
  }

  /** What the request asks for may be put where it says. */
  ghost predicate MountsPlaced(spec: Spec, p: Policy, l: Layout) {
    && (forall i :: 0 <= i < |spec.mounts| ==>
          && Placeable(spec.mounts[i].path, l) && Coverable(spec.mounts[i].path, spec, p)
          && SourceNamed(spec.mounts[i], p))
    && (forall i, j :: 0 <= i < j < |spec.mounts| ==> spec.mounts[i].path != spec.mounts[j].path)
  }

  ghost predicate HidesPlaced(spec: Spec, p: Policy, l: Layout) {
    forall i :: 0 <= i < |spec.hide| ==>
      && Placeable(spec.hide[i], l) && Coverable(spec.hide[i], spec, p)
      && forall j :: 0 <= j < |spec.mounts| ==> !Above(spec.hide[i], spec.mounts[j].path)
  }

  ghost predicate Admissible(spec: Spec, p: Policy, l: Layout) {
    && (p.tier == Chroot ==> spec.mounts == [])
    && |spec.mounts| <= (if p.maxMounts > 0 then p.maxMounts else 32)
    && Placeable(WorkspacePath(spec), l)
    && (forall i :: 0 <= i < |spec.allowSystemPaths| ==> spec.allowSystemPaths[i] in p.systemAllowlist)
    && MountsPlaced(spec, p, l) && HidesPlaced(spec, p, l)
  }

  lemma MountsPlacedIff(spec: Spec, p: Policy, l: Layout)
    requires AllCanonical(Protected(l)) && AllCanonical(p.systemAllowlist) && Canonical(WorkspacePath(spec))
    ensures MountsPlaced(spec, p, l) <==>
      forall i :: 0 <= i < |spec.mounts| ==>
        MountTargetOk(spec, p, l, i) && MountVolumeOk(spec.mounts[i], p) && SubPathOk(spec.mounts[i].subPath)
  {
    hide Protected, Shadowable, IsAbsClean, ApartFrom, CoversNone, Canonical, Coverable, Clear, WorkspacePath, SubPathOk;
    forall i | 0 <= i < |spec.mounts|
      ensures IsAbsClean(spec.mounts[i].path) && spec.mounts[i].path != "/" && ApartFrom(spec.mounts[i].path, Protected(l))
         <==> Placeable(spec.mounts[i].path, l)
      ensures Placeable(spec.mounts[i].path, l) ==>
                (CoversNone(spec.mounts[i].path, Shadowable(spec, p)) <==> Coverable(spec.mounts[i].path, spec, p))
      ensures SourceNamed(spec.mounts[i], p) <==> MountVolumeOk(spec.mounts[i], p) && SubPathOk(spec.mounts[i].subPath)
    {
      PlaceableIff(spec.mounts[i].path, l);
      if Placeable(spec.mounts[i].path, l) {
        CoverableIff(spec.mounts[i].path, spec, p);
      }
      RelativeFormIff(spec.mounts[i].subPath);
    }
  }

  lemma HidePlacedIff(spec: Spec, p: Policy, l: Layout, h: string)
    requires AllCanonical(Protected(l)) && AllCanonical(p.systemAllowlist) && Canonical(WorkspacePath(spec))
    requires forall j :: 0 <= j < |spec.mounts| ==> Canonical(spec.mounts[j].path)
    ensures HideOk(spec, p, l, h)
       <==> && Placeable(h, l) && Coverable(h, spec, p)
            && forall j :: 0 <= j < |spec.mounts| ==> !Above(h, spec.mounts[j].path)
  {
    PlaceableIff(h, l);
    if Placeable(h, l) {
      CoverableIff(h, spec, p);
      ContainsIff(h, WorkspacePath(spec));
      hide IsAbsClean, Canonical, Protected, Shadowable, WorkspacePath, Clear, CoversNone;
      forall j | 0 <= j < |spec.mounts|
        ensures Contains(h, spec.mounts[j].path) <==> Above(h, spec.mounts[j].path)
      {
        ContainsIff(h, spec.mounts[j].path);
      }
    }
  }

  /**
  For a platform configured with canonical paths, Validate admits exactly the requests that put
  things in canonical places, clear of the platform's own in both directions and above no system
  path, mount or workspace, from volumes that exist, and within the limits of number and tier.
  */
  lemma AcceptsIff(spec: Spec, p: Policy, l: Layout)
    requires AllCanonical(Protected(l)) && AllCanonical(p.systemAllowlist)
    ensures Accepts(spec, p, l) <==> Admissible(spec, p, l)
  {
    PlaceableIff(WorkspacePath(spec), l);
    SystemPathsIff(spec, p);
    if Placeable(WorkspacePath(spec), l) {
      MountsPlacedIff(spec, p, l);
      if MountsPlaced(spec, p, l) {
        forall i | 0 <= i < |spec.hide|
          ensures HideOk(spec, p, l, spec.hide[i])
             <==> && Placeable(spec.hide[i], l) && Coverable(spec.hide[i], spec, p)
                  && forall j :: 0 <= j < |spec.mounts| ==> !Above(spec.hide[i], spec.mounts[j].path)
        {
          HidePlacedIff(spec, p, l, spec.hide[i]);
        }
        hide HideOk, Placeable, Coverable, Above, MountTargetOk, MountsPlaced, Protected;
      }
    }
  }

  lemma SystemPathsIff(spec: Spec, p: Policy)
    requires AllCanonical(p.systemAllowlist)
    ensures (forall i :: 0 <= i < |spec.allowSystemPaths| ==> SystemPathOk(spec.allowSystemPaths[i], p))
       <==> forall i :: 0 <= i < |spec.allowSystemPaths| ==> spec.allowSystemPaths[i] in p.systemAllowlist
  {
    forall i | 0 <= i < |spec.allowSystemPaths| && spec.allowSystemPaths[i] in p.systemAllowlist
      ensures IsAbsClean(spec.allowSystemPaths[i])
    {
      IsAbsCleanIff(spec.allowSystemPaths[i]);
    }
  }

  // ----------------------------------------------------------------- refusals

  /** The field a refusal names is a reason to refuse. */
  lemma FaultMeansRefusal(spec: Spec, p: Policy, l: Layout, f: Field)
    requires AtFault(spec, p, l, f)
    ensures !Accepts(spec, p, l)
  {
    hide IsAbsClean, ApartFrom, CoversNone, SubPathOk;
  }

  /** A request that names no workspace gets the one at /workspace. */
  lemma WorkspaceByDefault(spec: Spec)
    ensures WorkspacePath(spec) == if |spec.workspace| > 0 then spec.workspace else "/workspace"
  {
  }

  /** Mounts are applied in the order of their depth, and by name at one depth. */
  lemma MountedByDepthThenName(spec: Spec, p: Policy, l: Layout, i: nat, j: nat)
    requires Accepts(spec, p, l) && i < j < |OrderedMounts(spec.mounts)|
    ensures var a, b := OrderedMounts(spec.mounts)[i].path, OrderedMounts(spec.mounts)[j].path;
            Count(a) < Count(b) || (Count(a) == Count(b) && Less(a, b))
  {
    AcceptedMounts(spec, p, l);
    hide Accepts, OrderedMounts;
    OrderedIsSorted(spec.mounts);
  }
}
