/** The safety theorems of the binding protocol, over whole runs from an empty cluster. */
module BindingRuns {
  import opened Options
  import opened Binding
  import opened BindingSafety
  import opened BindingEvents

  ghost predicate Run(run: seq<Cluster>, steps: seq<Step>) {
    && |run| == |steps| + 1
    && run[0] == EMPTY
    && forall i :: 0 <= i < |steps| ==> Enabled(run[i], steps[i]) && run[i + 1] == Apply(run[i], steps[i])
  }

  lemma {:induction false} RunKeepsInv(run: seq<Cluster>, steps: seq<Step>, i: nat)
    requires Run(run, steps) && i < |run|
    ensures Inv(run[i])
  {
    hide Enabled, Apply;
    if i > 0 {
      hide Inv;
      RunKeepsInv(run, steps, i - 1);
      StepKeepsInv(run[i - 1], steps[i - 1]);
    }
  }

  /** The store forgets nothing: each object's versions are a prefix of its later ones. */
  ghost predicate Grows(c: Cluster, d: Cluster) {
    && (forall p :: p in c.pods ==> p in d.pods && c.pods[p] <= d.pods[p])
    && (forall id :: id in c.boxes ==> id in d.boxes && c.boxes[id] <= d.boxes[id])
  }

  lemma AroundGrows(c: Cluster, s: EnvStep)
    requires EnvEnabled(c, s)
    ensures Grows(c, EnvApply(c, s))
  {
  }

  lemma AcquiringGrows(c: Cluster, id: string, s: AcquireStep)
    requires id in c.workers && AcquireEnabled(c, id, c.workers[id], s)
    ensures Grows(c, AcquireApply(c, id, c.workers[id], s))
  {
  }

  lemma OneBoxOnGrows(c: Cluster, d: Cluster, id: string)
    requires OneBoxOn(c, d, id) && forall p :: p in c.pods ==> p in d.pods && c.pods[p] <= d.pods[p]
    ensures Grows(c, d)
  {
  }

  lemma MarkDeletedGrows(c: Cluster, q: string)
    ensures var d := MarkDeleted(c, q); forall p :: p in c.pods ==> p in d.pods && c.pods[p] <= d.pods[p]
  {
  }

  lemma ServingGrows(c: Cluster, id: string, s: BindStep)
    requires id in c.workers && BindEnabled(c, id, c.workers[id], s)
    ensures Grows(c, BindApply(c, id, c.workers[id], s))
  {
    BindEffect(c, id, s);
    if BindDeletes(c, id, c.workers[id], s) {
      MarkDeletedGrows(c, c.workers[id].pod);
    }
    hide Grows, OneBoxOn, MarkDeleted, BindApply, BindDeletes;
    OneBoxOnGrows(c, BindApply(c, id, c.workers[id], s), id);
  }

  lemma EndingGrows(c: Cluster, id: string, s: TeardownStep)
    requires id in c.workers && TeardownEnabled(c, id, c.workers[id], s)
    ensures Grows(c, TeardownApply(c, id, c.workers[id], s))
  {
    TeardownEffect(c, id, s);
    if s.RemovePod? {
      MarkDeletedGrows(c, c.workers[id].pod);
    }
    hide Grows, OneBoxOn, MarkDeleted, TeardownApply;
    OneBoxOnGrows(c, TeardownApply(c, id, c.workers[id], s), id);
  }

  lemma StrayingGrows(c: Cluster, s: StrayStep)
    requires StrayEnabled(c, s)
    ensures Grows(c, StrayApply(c, s))
  {
    StrayEffects(c, s);
    hide StrayApply;
  }

  lemma StepGrows(c: Cluster, s: Step)
    requires Enabled(c, s)
    ensures Grows(c, Apply(c, s))
  {
    hide Grows;
    match s {
      case Around(e) => AroundGrows(c, e);
      case Acquiring(id, a) => AcquiringGrows(c, id, a);
      case Serving(id, b) => ServingGrows(c, id, b);
      case Ending(id, t) => EndingGrows(c, id, t);
      case Straying(t) => StrayingGrows(c, t);
    }
  }

  lemma {:induction false} RunGrows(run: seq<Cluster>, steps: seq<Step>, i: nat, j: nat)
    requires Run(run, steps) && i <= j < |run|
    ensures Grows(run[i], run[j])
    decreases j
  {
    hide Grows, Enabled, Apply;
    if i < j {
      RunGrows(run, steps, i, j - 1);
      StepGrows(run[j - 1], steps[j - 1]);
      GrowsOn(run[i], run[j - 1], run[j]);
    } else {
      GrowsFromItself(run[i]);
    }
  }

  lemma GrowsFromItself(c: Cluster)
    ensures Grows(c, c)
  {
  }

  lemma GrowsOn(c: Cluster, d: Cluster, e: Cluster)
    requires Grows(c, d) && Grows(d, e)
    ensures Grows(c, e)
  {
  }

  /**
  A Pod once labelled bound for a Sandbox keeps that label, sandbox-id and owner for
  life: at every later moment the store has it, and so does every version a cache
  could still show that is as recent as the claim.
  */
  lemma ClaimIsForLife(run: seq<Cluster>, steps: seq<Step>, i: nat, j: nat, p: string, id: string)
    requires Run(run, steps) && i <= j < |run|
    requires HasPod(run[i], p) && CurPod(run[i], p).state == Bound && CurPod(run[i], p).sandboxId == Some(id)
    ensures Owns(run[j], id, p)
    ensures forall k :: |run[i].pods[p]| - 1 <= k < |run[j].pods[p]| ==> ClaimedFor(run[j].pods[p][k], id)
  {
    RunKeepsInv(run, steps, i);
    RunKeepsInv(run, steps, j);
    RunGrows(run, steps, i, j);
    var n := |run[i].pods[p]| - 1;
    var h := run[j].pods[p];
    ClaimSeenIsClaimHeld(run[i], id, p, n);
    assert PodHistory(h) && h[n] == run[i].pods[p][n];
    assert forall k :: n <= k < |h| ==> Evolves(h[n], h[k]);
  }

  /** No two Sandboxes ever own one Pod: whatever versions name it, at whatever times, it is one Sandbox. */
  lemma PodHasOneSandbox(run: seq<Cluster>, steps: seq<Step>, i: nat, j: nat, a: string, b: string, k: nat, l: nat)
    requires Run(run, steps) && i <= j < |run|
    requires a in run[i].boxes && k < |run[i].boxes[a]| && b in run[j].boxes && l < |run[j].boxes[b]|
    requires run[i].boxes[a][k].podName.Some? && run[i].boxes[a][k].podName == run[j].boxes[b][l].podName
    ensures a == b
  {
    RunKeepsInv(run, steps, i);
    RunKeepsInv(run, steps, j);
    BoxFact(run[i], a, k);
    BoxFact(run[j], b, l);
    var p := run[i].boxes[a][k].podName.value;
    ClaimIsForLife(run, steps, i, j, p, a);
    OneOwner(run[j], p, a, b);
  }

  // ------------------------------------------------ one Pod per Sandbox

  /** A Pod a Sandbox holds: stored, claimed for it, and not on its way out. */
  ghost predicate Holds(c: Cluster, id: string, p: string) {
    Owns(c, id, p) && !Leaving(c, p)
  }

  /**
  The list call of findClaimedPod reflects the controller's own earlier claims: each Pod of
  this Sandbox is listed, at some version that already carries the claim.
  */
  ghost predicate SeesOwnClaims(c: Cluster, s: Step) {
    s.Acquiring? && s.acquire.FindClaimed? ==>
      forall p :: Owns(c, s.id, p) && p !in c.goneP ==>
        && p in s.acquire.listed && PodVersion(c, p, s.acquire.listed[p])
        && c.pods[p][s.acquire.listed[p]].sandboxId == Some(s.id)
  }

  /** At most one held Pod; and none at all while a worker is out to get one. */
  ghost predicate SingleHolding(c: Cluster) {
    && (forall id, p, q :: Holds(c, id, p) && Holds(c, id, q) ==> p == q)
    && (forall id, p :: id in c.workers && c.workers[id].Claiming? ==> !Holds(c, id, p))
  }

  /** Nothing but a claim or a cold create gives a Sandbox a Pod. */
  ghost predicate NoNewHolding(c: Cluster, d: Cluster) {
    && (forall id, p :: Holds(d, id, p) ==> Holds(c, id, p))
    && NoNewClaiming(c, d)
  }

  lemma NoNewHoldingKeeps(c: Cluster, d: Cluster)
    requires SingleHolding(c) && NoNewHolding(c, d)
    ensures SingleHolding(d)
  {
  }

  /** A version that leaves the claim alone and does not take a deletion back. */
  lemma OnePodOn(c: Cluster, d: Cluster, p: string, pod: Pod)
    requires HasPod(c, p) && d.pods == c.pods[p := c.pods[p] + [pod]] && d.goneP == c.goneP
    requires pod.(ready := true, terminated := true, tier := None, deleting := true)
          == CurPod(c, p).(ready := true, terminated := true, tier := None, deleting := true)
    requires CurPod(c, p).deleting ==> pod.deleting
    ensures forall id, q :: Holds(d, id, q) ==> Holds(c, id, q)
  {
  }

  lemma OnePodMore(c: Cluster, d: Cluster, p: string, pod: Pod)
    requires d.pods == c.pods[p := [pod]] && d.goneP == c.goneP && Unclaimed(pod)
    ensures forall id, q :: Holds(d, id, q) ==> Holds(c, id, q)
  {
  }

  lemma SamePods(c: Cluster, d: Cluster)
    requires d.pods == c.pods && c.goneP <= d.goneP
    ensures forall id, p :: Holds(d, id, p) ==> Holds(c, id, p)
  {
  }

  lemma DeletionHolding(c: Cluster, d: Cluster, p: string)
    requires d.pods == MarkDeleted(c, p).pods && d.goneP == c.goneP
    ensures forall id, q :: Holds(d, id, q) ==> Holds(c, id, q)
  {
    hide Holds;
    if HasPod(c, p) && p !in c.goneP {
      OnePodOn(c, d, p, CurPod(c, p).(deleting := true));
    } else {
      SamePods(c, d);
    }
  }

  lemma EnvHolding(c: Cluster, s: EnvStep)
    requires EnvEnabled(c, s)
    ensures NoNewHolding(c, EnvApply(c, s))
  {
    var d := EnvApply(c, s);
    hide Holds;
    match s {
      case KubeletReport(p, ready, terminated) =>
        OnePodOn(c, d, p, CurPod(c, p).(ready := ready, terminated := terminated));
      case PoolCreate(p, pool) => OnePodMore(c, d, p, Pod(Idle, None, PoolOwner(pool), None, false, false, false));
      case LabelTier(p, k, tier) =>
        if PodFresh(c, p, k) {
          OnePodOn(c, d, p, CurPod(c, p).(tier := Some(tier)));
        }
      case PoolDelete(p) => DeletionHolding(c, d, p);
      case _ => SamePods(c, d);
    }
  }

  lemma BindHolding(c: Cluster, id: string, s: BindStep)
    requires id in c.workers && BindEnabled(c, id, c.workers[id], s)
    ensures NoNewHolding(c, BindApply(c, id, c.workers[id], s))
  {
    BindEffect(c, id, s);
    var deletes := BindDeletes(c, id, c.workers[id], s);
    hide Holds, MarkDeleted, BindApply;
    if deletes {
      DeletionHolding(c, BindApply(c, id, c.workers[id], s), c.workers[id].pod);
    } else {
      SamePods(c, BindApply(c, id, c.workers[id], s));
    }
  }

  lemma TeardownHolding(c: Cluster, id: string, s: TeardownStep)
    requires id in c.workers && TeardownEnabled(c, id, c.workers[id], s)
    ensures NoNewHolding(c, TeardownApply(c, id, c.workers[id], s))
  {
    TeardownEffect(c, id, s);
    hide Holds, MarkDeleted, TeardownApply;
    if s.RemovePod? && s.accepted {
      DeletionHolding(c, TeardownApply(c, id, c.workers[id], s), c.workers[id].pod);
    } else {
      SamePods(c, TeardownApply(c, id, c.workers[id], s));
    }
  }

  lemma StrayHolding(c: Cluster, s: StrayStep)
    requires StrayEnabled(c, s)
    ensures NoNewHolding(c, StrayApply(c, s))
  {
    StrayEffects(c, s);
    hide Holds, StrayApply;
    SamePods(c, StrayApply(c, s));
  }

  /** A list that shows every claim, and none of them live, means the Sandbox holds nothing. */
  lemma NothingListedNothingHeld(c: Cluster, id: string, listed: map<string, nat>)
    requires Inv(c)
    requires forall p :: p in listed ==> !ListedClaim(c, id, listed, p)
    requires SeesOwnClaims(c, Acquiring(id, FindClaimed(listed, None)))
    ensures forall p :: !Holds(c, id, p)
  {
  }

  /** One Sandbox that held nothing gets one Pod, and its worker stops looking. */
  lemma GainOne(c: Cluster, d: Cluster, id: string, p: string)
    requires SingleHolding(c) && id in c.workers && c.workers[id].Claiming?
    requires forall x, q :: Holds(d, x, q) ==> Holds(c, x, q) || (x == id && q == p)
    requires id in d.workers && !d.workers[id].Claiming?
    requires forall x :: x in d.workers && d.workers[x].Claiming? ==> x in c.workers && c.workers[x].Claiming?
    ensures SingleHolding(d)
  {
  }

  /** A history that changes for one Pod, in favour of one Sandbox, gives no other anything. */
  lemma OnePodGained(c: Cluster, d: Cluster, id: string, p: string)
    requires p in d.pods && d.pods == c.pods[p := d.pods[p]] && d.goneP == c.goneP
    requires HasPod(d, p) ==> ClaimedFor(CurPod(d, p), id)
    ensures forall x, q :: Holds(d, x, q) ==> Holds(c, x, q) || (x == id && q == p)
  {
  }

  lemma SearchHolding(c: Cluster, id: string, w: Worker)
    requires SingleHolding(c) && (w.Claiming? ==> forall p :: !Holds(c, id, p))
    ensures SingleHolding(PutWorker(c, id, w))
  {
    var d := PutWorker(c, id, w);
    assert forall x, p :: Holds(d, x, p) <==> Holds(c, x, p);
  }

  lemma AcquireHolding(c: Cluster, id: string, s: AcquireStep)
    requires Inv(c) && SingleHolding(c) && SeesOwnClaims(c, Acquiring(id, s))
    requires id in c.workers && AcquireEnabled(c, id, c.workers[id], s)
    ensures SingleHolding(AcquireApply(c, id, c.workers[id], s))
  {
    hide Inv, SingleHolding, Holds, ListedClaim, PodVersion;
    var w := c.workers[id];
    var d := AcquireApply(c, id, w, s);
    match s {
      case FindClaimed(listed, pick) =>
        if pick.None? {
          NothingListedNothingHeld(c, id, listed);
          SearchHolding(c, id, Claiming(w.rv, w.box));
        } else {
          SearchHolding(c, id, Recording(w.rv, w.box, pick.value));
        }
      case ClaimWarm(p, k, _) =>
        if PodFresh(c, p, k) {
          OnePodGained(c, d, id, p);
          GainOne(c, d, id, p);
        }
      case CreateCold(p, _) =>
        OnePodGained(c, d, id, p);
        GainOne(c, d, id, p);
      case _ =>
        SamePods(c, d);
        NoNewHoldingKeeps(c, d);
    }
  }

  lemma StepKeepsHolding(c: Cluster, s: Step)
    requires Inv(c) && SingleHolding(c) && Enabled(c, s) && SeesOwnClaims(c, s)
    ensures SingleHolding(Apply(c, s))
  {
    hide Inv, SingleHolding, NoNewHolding, SeesOwnClaims;
    match s {
      case Around(e) =>
        EnvHolding(c, e);
        NoNewHoldingKeeps(c, EnvApply(c, e));
      case Acquiring(id, a) => AcquireHolding(c, id, a);
      case Serving(id, b) =>
        BindHolding(c, id, b);
        NoNewHoldingKeeps(c, BindApply(c, id, c.workers[id], b));
      case Ending(id, t) =>
        TeardownHolding(c, id, t);
        NoNewHoldingKeeps(c, TeardownApply(c, id, c.workers[id], t));
      case Straying(t) =>
        StrayHolding(c, t);
        NoNewHoldingKeeps(c, StrayApply(c, t));
    }
  }

  /**
  If findClaimedPod's list reflects the controller's own claims, a Sandbox never holds two
  Pods, whatever status writes and replies are lost: it adopts the earlier claim instead.
  */
  lemma {:induction false} AtMostOnePodHeld(run: seq<Cluster>, steps: seq<Step>, i: nat)
    requires Run(run, steps) && i < |run|
    requires forall k :: 0 <= k < |steps| ==> SeesOwnClaims(run[k], steps[k])
    ensures SingleHolding(run[i])
  {
    hide Inv, Enabled, Apply, SeesOwnClaims;
    if i > 0 {
      hide SingleHolding;
      AtMostOnePodHeld(run, steps, i - 1);
      RunKeepsInv(run, steps, i - 1);
      StepKeepsHolding(run[i - 1], steps[i - 1]);
    }
  }
}
