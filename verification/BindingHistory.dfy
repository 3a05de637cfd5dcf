/**
How stored objects change from version to version in the binding protocol: what a Sandbox goes
through, which Pods are claimed, and which are sent a bind.
*/
module BindingHistory {
  import opened Options
  import opened Execd
  import opened Binding
  import opened BindingSafety
  import opened BindingEvents
  import opened BindingRuns

  // ------------------------------------------------ Sandboxes, version by version

  /** An object the reconciler works on: not being deleted, its finalizer on. */
  predicate Live(b: Box) {
    b.finalizer && !b.deleting
  }

  predicate Unclaiming(b: Box) {
    b.phase == Pending || b.phase == Other
  }

  /** How one stored version of a Sandbox may differ from the one before. */
  ghost predicate BoxStep(a: Box, b: Box) {
    || b == a
    || b == a.(deleting := true)
    || (!a.deleting && b == a.(finalizer := true))
    || (Live(a) && Unclaiming(a) && b.podName.Some? && b == a.(phase := InBinding, podName := b.podName))
    || (Live(a) && (Unclaiming(a) || a.phase == InBinding) && b == a.(phase := Failed, token := ""))
    || (Live(a) && a.phase == InBinding && b.token != "" && b == a.(phase := Running, token := b.token))
    || (Live(a) && a.phase == Running && b == a.(phase := Expired, token := ""))
  }

  const NEW := Box(Pending, None, "", false, false)

  ghost predicate BoxHistory(h: seq<Box>) {
    && |h| > 0 && h[0] == NEW
    && forall i :: 0 < i < |h| ==> BoxStep(h[i - 1], h[i])
  }

  /** What the copy a reconcile holds must be like at each point of it. */
  predicate Suits(w: Worker) {
    match w
    case Resting => true
    case Holding(_, _) => true
    case Searching(_, b) => Live(b) && Unclaiming(b)
    case Claiming(_, b) => Live(b) && Unclaiming(b)
    case Recording(_, b, _) => Live(b) && Unclaiming(b)
    case Inspecting(_, b, _) => Live(b) && b.phase == InBinding
    case Calling(_, b, _, _) => Live(b) && b.phase == InBinding
    case Launching(_, b, _, token) => Live(b) && b.phase == InBinding && token != ""
    case Confirmed(_, b, _, token) => Live(b) && b.phase == InBinding && token != ""
    case Failing(_, b, _) => Live(b) && (Unclaiming(b) || b.phase == InBinding)
    case Stopping(_, b, aim) => aim == ToExpired ==> Live(b) && b.phase == Running
    case Removing(_, b, _, aim) => aim == ToExpired ==> Live(b) && b.phase == Running
    case Closing(_, b, aim, _) => aim == ToExpired ==> Live(b) && b.phase == Running
  }

  /** The copy is the version it was read at, and fits the place the reconcile has got to. */
  ghost predicate CopySound(h: seq<Box>, w: Worker) {
    !w.Resting? ==> w.rv < |h| && h[w.rv] == w.box && Suits(w)
  }

  ghost predicate Orderly(c: Cluster) {
    && (forall id :: id in c.boxes ==> BoxHistory(c.boxes[id]))
    && (forall id :: id in c.workers ==> id in c.boxes && CopySound(c.boxes[id], c.workers[id]))
  }

  lemma HistoryStep(h: seq<Box>, b: Box)
    requires BoxHistory(h) && BoxStep(Last(h), b)
    ensures BoxHistory(h + [b])
  {
    hide BoxStep;
  }

  lemma CopyStays(h: seq<Box>, b: Box, w: Worker)
    requires CopySound(h, w)
    ensures CopySound(h + [b], w)
  {
    hide Suits;
  }

  /** A reconcile moves on with a copy of the same Sandbox. */
  lemma WorkerMoves(c: Cluster, d: Cluster, id: string)
    requires Orderly(c) && d.boxes == c.boxes && id in c.boxes && id in d.workers
    requires d.workers == c.workers[id := d.workers[id]] && CopySound(c.boxes[id], d.workers[id])
    ensures Orderly(d)
  {
    hide BoxHistory, CopySound;
  }

  /** The reconcile goes on with the copy it has, or comes to rest. */
  lemma PutWorkerOrderly(c: Cluster, b: Cluster, id: string, w: Worker)
    requires Orderly(c) && b.boxes == c.boxes && b.workers == c.workers && id in c.workers && Suits(w)
    requires w.Resting? || (!c.workers[id].Resting? && w.rv == c.workers[id].rv && w.box == c.workers[id].box)
    ensures Orderly(PutWorker(b, id, w))
  {
    hide Suits;
    assert CopySound(c.boxes[id], c.workers[id]);
    hide Orderly;
    WorkerMoves(c, PutWorker(b, id, w), id);
  }

  /** A version is added, and the reconcile of that Sandbox moves on. */
  lemma BoxMoves(c: Cluster, d: Cluster, id: string, b: Box)
    requires Orderly(c) && id in c.boxes && BoxStep(Last(c.boxes[id]), b)
    requires d.boxes == c.boxes[id := c.boxes[id] + [b]]
    requires id in d.workers ==> d.workers == c.workers[id := d.workers[id]] && CopySound(d.boxes[id], d.workers[id])
    requires id !in d.workers ==> d.workers == c.workers
    ensures Orderly(d)
  {
    HistoryStep(c.boxes[id], b);
    hide BoxHistory, CopySound, BoxStep;
  }

  lemma SameBoxes(c: Cluster, d: Cluster)
    requires Orderly(c) && d.boxes == c.boxes && d.workers == c.workers
    ensures Orderly(d)
  {
    hide BoxHistory, CopySound;
  }

  lemma WriteBoxOrderly(c: Cluster, id: string, b: Box)
    requires Orderly(c) && id in c.workers && !c.workers[id].Resting? && BoxStep(c.workers[id].box, b)
    ensures Orderly(WriteBox(c, id, c.workers[id].rv, b))
  {
    var w := c.workers[id];
    var d := WriteBox(c, id, w.rv, b);
    assert CopySound(c.boxes[id], w);
    hide BoxStep, BoxHistory;
    if BoxFresh(c, id, w.rv) {
      hide Orderly;
      BoxMoves(c, d, id, b);
    } else {
      hide Orderly;
      WorkerMoves(c, d, id);
    }
  }

  lemma EnvOrderly(c: Cluster, s: EnvStep)
    requires Orderly(c) && EnvEnabled(c, s)
    ensures Orderly(EnvApply(c, s))
  {
    var d := EnvApply(c, s);
    match s {
      case CreateBox(id) =>
        assert BoxHistory([NEW]);
        hide BoxHistory, CopySound;
        assert CopySound(d.boxes[id], Resting) by { RestingCopy(d.boxes[id]); }
      case TouchBox(id) => BoxTouched(c, d, id, Last(c.boxes[id]));
      case DeleteBox(id) =>
        if Last(c.boxes[id]).finalizer {
          BoxTouched(c, d, id, Last(c.boxes[id]).(deleting := true));
        } else {
          SameBoxes(c, d);
        }
      case _ => SameBoxes(c, d);
    }
  }

  lemma RestingCopy(h: seq<Box>)
    ensures CopySound(h, Resting)
  {
  }

  /** Somebody else writes a version. */
  lemma BoxTouched(c: Cluster, d: Cluster, id: string, b: Box)
    requires Orderly(c) && id in c.boxes && BoxStep(Last(c.boxes[id]), b)
    requires d.boxes == c.boxes[id := c.boxes[id] + [b]] && d.workers == c.workers
    ensures Orderly(d)
  {
    hide BoxStep, BoxHistory;
    if id in c.workers {
      CopyStays(c.boxes[id], b, c.workers[id]);
      assert c.workers == c.workers[id := c.workers[id]];
    }
    hide CopySound, Orderly;
    BoxMoves(c, d, id, b);
  }

  lemma AcquireOrderly(c: Cluster, id: string, s: AcquireStep)
    requires Orderly(c) && id in c.workers && AcquireEnabled(c, id, c.workers[id], s)
    ensures Orderly(AcquireApply(c, id, c.workers[id], s))
  {
    var w, d := c.workers[id], AcquireApply(c, id, c.workers[id], s);
    assert CopySound(c.boxes[id], w);
    hide Orderly, BoxHistory, ListedClaim;
    match s {
      case Begin(_) => WorkerMoves(c, d, id);
      case AddFinalizer(_) =>
        if BoxFresh(c, id, w.rv) {
          BoxMoves(c, d, id, w.box.(finalizer := true));
        } else {
          WorkerMoves(c, d, id);
        }
      case Acquire(_) => WorkerMoves(c, d, id);
      case FindClaimed(_, _) => WorkerMoves(c, d, id);
      case ClaimWarm(p, k, _) =>
        if PodFresh(c, p, k) {
          WorkerMoves(c, d, id);
        }
      case CreateCold(_, _) => WorkerMoves(c, d, id);
      case CreateFails => WorkerMoves(c, d, id);
      case RecordClaim => WriteBoxOrderly(c, id, w.box.(phase := InBinding, podName := Some(w.pod)));
    }
  }

  lemma GiveUpOrderly(c: Cluster, b: Cluster, id: string, podDeleted: bool)
    requires Orderly(c) && id in c.workers && b.boxes == c.boxes && b.workers == c.workers
    requires c.workers[id].Inspecting? || c.workers[id].Calling? || c.workers[id].Launching?
    ensures Orderly(GiveUp(b, id, c.workers[id], podDeleted))
  {
    assert CopySound(c.boxes[id], c.workers[id]);
    MarkDeletedOnly(b, c.workers[id].pod);
    hide Orderly, MarkDeleted, BoxHistory;
    WorkerMoves(c, GiveUp(b, id, c.workers[id], podDeleted), id);
  }

  lemma BindOrderly(c: Cluster, id: string, s: BindStep)
    requires Orderly(c) && id in c.workers && BindEnabled(c, id, c.workers[id], s)
    ensures Orderly(BindApply(c, id, c.workers[id], s))
  {
    var w, d := c.workers[id], BindApply(c, id, c.workers[id], s);
    assert CopySound(c.boxes[id], w);
    hide Orderly, BoxHistory, GiveUp;
    match s {
      case FetchPod(_) => WorkerMoves(c, d, id);
      case Refuse(podDeleted) => GiveUpOrderly(c, c, id, podDeleted);
      case SendBind(_) => WorkerMoves(c, d, id);
      case DaemonChecks(podDeleted) =>
        if Check(c.daemons[w.pod], Grant(id, w.token)).Proceed? {
          WorkerMoves(c, d, id);
        } else {
          GiveUpOrderly(c, c, id, podDeleted);
        }
      case DaemonAborts(podDeleted) => GiveUpOrderly(c, c, id, podDeleted);
      case DaemonPublishes(replyLost, podDeleted) =>
        if replyLost {
          GiveUpOrderly(c, PutDaemon(c, w.pod, Publish(c.daemons[w.pod], Grant(id, w.token))), id, podDeleted);
        } else {
          WorkerMoves(c, d, id);
        }
      case TimesOut(podDeleted) => GiveUpOrderly(c, LeaveBehind(c, OwnCall(id, w)), id, podDeleted);
      case RecordRunning => WriteBoxOrderly(c, id, w.box.(phase := Running, token := w.token));
      case RecordFailed => WriteBoxOrderly(c, id, w.box.(phase := Failed, token := ""));
    }
  }

  lemma UnbindOrderly(c: Cluster, id: string, found: Option<nat>, delivered: bool)
    requires Orderly(c) && id in c.workers && TeardownEnabled(c, id, c.workers[id], Unbind(found, delivered))
    ensures Orderly(TeardownApply(c, id, c.workers[id], Unbind(found, delivered)))
  {
    var w := c.workers[id];
    assert Suits(w) by {
      assert CopySound(c.boxes[id], w);
    }
    hide Orderly, PodVersion;
    if found.None? {
      PutWorkerOrderly(c, c, id, Closing(w.rv, w.box, w.aim, false));
    } else {
      var p := w.box.podName.value;
      var b := if delivered then PutDaemon(c, p, Expire(c.daemons[p])) else LeaveBehind(c, UnbindCall(p));
      PutWorkerOrderly(c, b, id, Removing(w.rv, w.box, p, w.aim));
    }
  }

  lemma CloseOrderly(c: Cluster, id: string)
    requires Orderly(c) && id in c.workers && c.workers[id].Closing?
    ensures Orderly(TeardownApply(c, id, c.workers[id], Close))
  {
    var w := c.workers[id];
    assert Suits(w) by {
      assert CopySound(c.boxes[id], w);
    }
    hide Orderly, BoxFresh;
    if w.aim.ToExpired? {
      WriteBoxOrderly(c, id, w.box.(phase := Expired, token := ""));
    } else {
      PutWorkerOrderly(c, c, id, Resting);
      PutWorkerOrderly(c, c.(goneB := c.goneB + {id}), id, Resting);
    }
  }

  lemma TeardownOrderly(c: Cluster, id: string, s: TeardownStep)
    requires Orderly(c) && id in c.workers && TeardownEnabled(c, id, c.workers[id], s)
    ensures Orderly(TeardownApply(c, id, c.workers[id], s))
  {
    var w := c.workers[id];
    assert Suits(w) by {
      assert CopySound(c.boxes[id], w);
    }
    hide Orderly, MarkDeleted, BoxFresh, WriteBox, PodVersion;
    match s {
      case StartTeardown =>
        PutWorkerOrderly(c, c, id, Stopping(w.rv, w.box, if w.box.deleting then ToFinalized else ToExpired));
      case Unbind(found, delivered) => UnbindOrderly(c, id, found, delivered);
      case RemovePod(accepted) =>
        MarkDeletedOnly(c, w.pod);
        if accepted {
          PutWorkerOrderly(c, MarkDeleted(c, w.pod), id, Closing(w.rv, w.box, w.aim, true));
        } else {
          PutWorkerOrderly(c, c, id, Resting);
        }
      case Close => CloseOrderly(c, id);
      case Abandon =>
        PutWorkerOrderly(c, if w.Calling? || w.Launching? then LeaveBehind(c, OwnCall(id, w)) else c, id, Resting);
    }
  }

  lemma StepOrderly(c: Cluster, s: Step)
    requires Orderly(c) && Enabled(c, s)
    ensures Orderly(Apply(c, s))
  {
    hide Orderly;
    match s {
      case Around(e) => EnvOrderly(c, e);
      case Acquiring(id, a) => AcquireOrderly(c, id, a);
      case Serving(id, b) => BindOrderly(c, id, b);
      case Ending(id, t) => TeardownOrderly(c, id, t);
      case Straying(t) =>
        StrayEffects(c, t);
        hide StrayApply;
        SameBoxes(c, StrayApply(c, t));
    }
  }

  lemma {:induction false} RunIsOrderly(run: seq<Cluster>, steps: seq<Step>, i: nat)
    requires Run(run, steps) && i < |run|
    ensures Orderly(run[i])
  {
    hide Enabled, Apply;
    if i > 0 {
      hide Orderly;
      RunIsOrderly(run, steps, i - 1);
      StepOrderly(run[i - 1], steps[i - 1]);
    }
  }

  // ---- what a Sandbox goes through

  function Rank(p: Phase): nat {
    match p
    case Pending => 0
    case Other => 0
    case InBinding => 1
    case Running => 2
    case Failed => 3
    case Expired => 3
  }

  predicate Terminal(p: Phase) {
    p == Failed || p == Expired
  }

  /** How a later version of a Sandbox may differ from an earlier one. */
  ghost predicate Forward(a: Box, b: Box) {
    && Rank(a.phase) <= Rank(b.phase)
    && (Terminal(a.phase) ==> b.phase == a.phase)
    && (a.podName.Some? ==> b.podName == a.podName)
    && (a.phase == Running && b.phase == Running ==> b.token == a.token)
    && (a.deleting ==> b.deleting) && (a.finalizer ==> b.finalizer)
  }

  /** A Sandbox holds a token exactly while it is Running, and names a Pod from the claim on. */
  ghost predicate WellFormed(b: Box) {
    && (b.token != "" <==> b.phase == Running)
    && (b.phase == InBinding || b.phase == Running || b.phase == Expired ==> b.podName.Some?)
    && (b.phase == Pending ==> b.podName.None?)
    && b.phase != Other
  }

  lemma {:induction false} VersionIsWellFormed(h: seq<Box>, i: nat)
    requires BoxHistory(h) && i < |h|
    ensures WellFormed(h[i])
  {
    if i > 0 {
      VersionIsWellFormed(h, i - 1);
      assert BoxStep(h[i - 1], h[i]);
    }
  }

  lemma {:induction false} VersionsGoForward(h: seq<Box>, i: nat, j: nat)
    requires BoxHistory(h) && i <= j < |h|
    ensures Forward(h[i], h[j])
    decreases j
  {
    if i < j {
      VersionsGoForward(h, i, j - 1);
      VersionIsWellFormed(h, i);
      VersionIsWellFormed(h, j - 1);
      assert BoxStep(h[j - 1], h[j]);
    }
  }

  /**
  In every run, a Sandbox's phases only ever go forward and the terminal ones for good, whatever
  stale copies its reconciles worked on; the Pod it names and the token it shows never change; and
  it shows a token exactly while it is Running.
  */
  lemma PhasesGoForward(run: seq<Cluster>, steps: seq<Step>, m: nat, id: string, i: nat, j: nat)
    requires Run(run, steps) && m < |run| && id in run[m].boxes && i <= j < |run[m].boxes[id]|
    ensures Forward(run[m].boxes[id][i], run[m].boxes[id][j]) && WellFormed(run[m].boxes[id][j])
  {
    RunIsOrderly(run, steps, m);
    hide Run, Forward, WellFormed;
    VersionsGoForward(run[m].boxes[id], i, j);
    VersionIsWellFormed(run[m].boxes[id], j);
  }

  // ------------------------------------------------------ which Pods are claimed

  /** A version that turns bound does so from one fit to be claimed, and takes nothing but the claim. */
  ghost predicate PodStep(a: Pod, b: Pod) {
    a.state != Bound && b.state == Bound ==> Candidate(a) && exists id :: b == Claimed(a, id)
  }

  ghost predicate ClaimsFit(h: seq<Pod>) {
    forall i :: 0 < i < |h| ==> PodStep(h[i - 1], h[i])
  }

  ghost predicate AllClaimsFit(c: Cluster) {
    forall p :: p in c.pods ==> ClaimsFit(c.pods[p])
  }

  lemma OnePodFits(c: Cluster, d: Cluster, p: string, pod: Pod)
    requires AllClaimsFit(c) && HasPod(c, p) && d.pods == c.pods[p := c.pods[p] + [pod]] && PodStep(CurPod(c, p), pod)
    ensures AllClaimsFit(d)
  {
    hide PodStep;
    assert ClaimsFit(c.pods[p] + [pod]);
    hide ClaimsFit;
  }

  lemma NewPodFits(c: Cluster, d: Cluster, p: string, pod: Pod)
    requires AllClaimsFit(c) && d.pods == c.pods[p := [pod]]
    ensures AllClaimsFit(d)
  {
    assert ClaimsFit([pod]);
    hide ClaimsFit;
  }

  lemma MarkDeletedFits(c: Cluster, d: Cluster, p: string)
    requires AllClaimsFit(c) && d.pods == MarkDeleted(c, p).pods
    ensures AllClaimsFit(d)
  {
    if HasPod(c, p) && p !in c.goneP {
      OnePodFits(c, d, p, CurPod(c, p).(deleting := true));
    }
  }

  lemma EnvFits(c: Cluster, s: EnvStep)
    requires AllClaimsFit(c) && EnvEnabled(c, s)
    ensures AllClaimsFit(EnvApply(c, s))
  {
    hide AllClaimsFit;
    var d := EnvApply(c, s);
    match s {
      case KubeletReport(p, ready, terminated) =>
        OnePodFits(c, d, p, CurPod(c, p).(ready := ready, terminated := terminated));
      case PoolCreate(p, pool) => NewPodFits(c, d, p, Pod(Idle, None, PoolOwner(pool), None, false, false, false));
      case LabelTier(p, k, tier) =>
        if PodFresh(c, p, k) {
          OnePodFits(c, d, p, CurPod(c, p).(tier := Some(tier)));
        }
      case PoolDelete(p) => MarkDeletedFits(c, d, p);
      case _ => SamePodsFit(c, d);
    }
  }

  lemma SamePodsFit(c: Cluster, d: Cluster)
    requires AllClaimsFit(c) && d.pods == c.pods
    ensures AllClaimsFit(d)
  {
  }

  lemma AcquireFits(c: Cluster, id: string, s: AcquireStep)
    requires AllClaimsFit(c) && id in c.workers && AcquireEnabled(c, id, c.workers[id], s)
    ensures AllClaimsFit(AcquireApply(c, id, c.workers[id], s))
  {
    hide AllClaimsFit, ListedClaim;
    var d := AcquireApply(c, id, c.workers[id], s);
    match s {
      case ClaimWarm(p, k, _) =>
        if PodFresh(c, p, k) {
          OnePodFits(c, d, p, Claimed(c.pods[p][k], id));
        }
      case CreateCold(p, _) => NewPodFits(c, d, p, Pod(Bound, Some(id), BoxOwner(id), None, false, false, false));
      case _ => SamePodsFit(c, d);
    }
  }

  lemma StepFits(c: Cluster, s: Step)
    requires AllClaimsFit(c) && Enabled(c, s)
    ensures AllClaimsFit(Apply(c, s))
  {
    hide AllClaimsFit, MarkDeleted, AcquireApply, EnvApply, StrayApply, BindApply, TeardownApply;
    var d := Apply(c, s);
    match s {
      case Around(e) => EnvFits(c, e);
      case Acquiring(id, a) => AcquireFits(c, id, a);
      case Serving(id, b) =>
        BindEffect(c, id, b);
        if BindDeletes(c, id, c.workers[id], b) {
          MarkDeletedFits(c, d, c.workers[id].pod);
        } else {
          SamePodsFit(c, d);
        }
      case Ending(id, t) =>
        TeardownEffect(c, id, t);
        if t.RemovePod? && t.accepted {
          MarkDeletedFits(c, d, c.workers[id].pod);
        } else {
          SamePodsFit(c, d);
        }
      case Straying(t) =>
        StrayEffects(c, t);
        SamePodsFit(c, d);
    }
  }

  lemma {:induction false} RunFits(run: seq<Cluster>, steps: seq<Step>, i: nat)
    requires Run(run, steps) && i < |run|
    ensures AllClaimsFit(run[i])
  {
    hide Enabled, Apply;
    if i > 0 {
      hide AllClaimsFit;
      RunFits(run, steps, i - 1);
      StepFits(run[i - 1], steps[i - 1]);
    }
  }

  lemma {:induction false} TurnsBoundOnce(h: seq<Pod>, k: nat) returns (i: nat)
    requires ClaimsFit(h) && k < |h| && h[0].state != Bound && h[k].state == Bound
    ensures i < k && Candidate(h[i]) && exists id :: h[i + 1] == Claimed(h[i], id)
  {
    assert PodStep(h[k - 1], h[k]);
    if h[k - 1].state == Bound {
      i := TurnsBoundOnce(h, k - 1);
    } else {
      i := k - 1;
    }
  }

  /**
  In every run, a Pod that was not made for its Sandbox was idle, ready, measured and not being
  deleted in the very version its claim was laid on, and the claim changed nothing else of it.
  */
  lemma WarmClaimWasACandidate(run: seq<Cluster>, steps: seq<Step>, m: nat, p: string, k: nat) returns (i: nat)
    requires Run(run, steps) && m < |run| && p in run[m].pods && k < |run[m].pods[p]|
    requires run[m].pods[p][0].state != Bound && run[m].pods[p][k].state == Bound
    ensures i < k && exists id :: run[m].pods[p][i + 1] == Claimed(run[m].pods[p][i], id)
    ensures var pod := run[m].pods[p][i]; pod.state == Idle && pod.ready && pod.tier.Some? && !pod.deleting
  {
    RunFits(run, steps, m);
    i := TurnsBoundOnce(run[m].pods[p], k);
  }

  /**
  An adopted Pod is the Sandbox's own, shown not to be going away; and none is adopted only if
  every Pod the list shows is another's or going away.
  */
  lemma AdoptionIsOfALiveClaim(run: seq<Cluster>, steps: seq<Step>, i: nat, id: string, listed: map<string, nat>, pick: Option<string>)
    requires Run(run, steps) && i < |steps| && steps[i] == Acquiring(id, FindClaimed(listed, pick))
    ensures pick.Some? ==> && pick.value in listed && PodVersion(run[i], pick.value, listed[pick.value])
                           && !run[i].pods[pick.value][listed[pick.value]].deleting && Owns(run[i], id, pick.value)
    ensures pick.None? ==> forall p :: p in listed && PodVersion(run[i], p, listed[p]) ==>
                             run[i].pods[p][listed[p]].sandboxId != Some(id) || run[i].pods[p][listed[p]].deleting
  {
    RunKeepsInv(run, steps, i);
    hide Inv;
    if pick.Some? {
      ClaimSeenIsClaimHeld(run[i], id, pick.value, listed[pick.value]);
    }
  }

  // ------------------------------------------------------ which Pods are sent a bind

  /** Some version of the Pod was ready and running. */
  ghost predicate SeenReady(c: Cluster, p: string) {
    p in c.pods && exists k :: 0 <= k < |c.pods[p]| && c.pods[p][k].ready && !c.pods[p][k].terminated
  }

  /** A bind of the Pod is under way. */
  predicate Binds(w: Worker) {
    w.Inspecting? || w.Calling? || w.Launching? || w.Confirmed?
  }

  ghost predicate BindsReadyPods(c: Cluster) {
    && (forall id :: id in c.workers && Binds(c.workers[id]) ==> SeenReady(c, c.workers[id].pod))
    && (forall s :: s in c.strays && s.BindCall? ==> SeenReady(c, s.pod))
  }

  /** Every bind under way in the one state is of a Pod seen ready in the other. */
  ghost predicate BindsSeenReady(c: Cluster, d: Cluster) {
    && (forall id :: id in d.workers && Binds(d.workers[id]) ==> SeenReady(c, d.workers[id].pod))
    && (forall s :: s in d.strays && s.BindCall? ==> SeenReady(c, s.pod))
  }

  lemma SeenReadyStays(c: Cluster, d: Cluster, p: string)
    requires Grows(c, d) && SeenReady(c, p)
    ensures SeenReady(d, p)
  {
    var k :| 0 <= k < |c.pods[p]| && c.pods[p][k].ready && !c.pods[p][k].terminated;
    assert d.pods[p][k] == c.pods[p][k];
  }

  lemma ReadyCarries(c: Cluster, d: Cluster)
    requires Grows(c, d) && BindsSeenReady(c, d)
    ensures BindsReadyPods(d)
  {
    hide Grows, SeenReady;
    forall id | id in d.workers && Binds(d.workers[id])
      ensures SeenReady(d, d.workers[id].pod)
    {
      SeenReadyStays(c, d, d.workers[id].pod);
    }
    forall s | s in d.strays && s.BindCall?
      ensures SeenReady(d, s.pod)
    {
      SeenReadyStays(c, d, s.pod);
    }
  }

  lemma EnvReady(c: Cluster, s: EnvStep)
    requires BindsReadyPods(c) && EnvEnabled(c, s)
    ensures BindsSeenReady(c, EnvApply(c, s))
  {
    hide SeenReady;
  }

  lemma AcquireReady(c: Cluster, id: string, s: AcquireStep)
    requires BindsReadyPods(c) && id in c.workers && AcquireEnabled(c, id, c.workers[id], s)
    ensures BindsSeenReady(c, AcquireApply(c, id, c.workers[id], s))
  {
    hide SeenReady, ListedClaim, PodVersion, PodFresh;
  }

  /** One reconcile moves on, and may leave a call behind. */
  lemma WorkerReady(c: Cluster, d: Cluster, id: string, left: multiset<Stray>)
    requires BindsReadyPods(c) && id in d.workers && d.workers == c.workers[id := d.workers[id]]
    requires Binds(d.workers[id]) ==> SeenReady(c, d.workers[id].pod)
    requires d.strays == c.strays + left && forall s :: s in left && s.BindCall? ==> SeenReady(c, s.pod)
    ensures BindsSeenReady(c, d)
  {
    hide SeenReady;
  }

  lemma PutWorkerReady(c: Cluster, b: Cluster, id: string, w: Worker, left: multiset<Stray>)
    requires BindsReadyPods(c) && b.workers == c.workers && b.strays == c.strays + left && !Binds(w)
    requires forall s :: s in left && s.BindCall? ==> SeenReady(c, s.pod)
    ensures BindsSeenReady(c, PutWorker(b, id, w))
  {
    hide SeenReady, BindsReadyPods, BindsSeenReady;
    WorkerReady(c, PutWorker(b, id, w), id, left);
  }

  lemma WriteBoxReady(c: Cluster, id: string, rv: nat, box: Box)
    requires BindsReadyPods(c)
    ensures BindsSeenReady(c, WriteBox(c, id, rv, box))
  {
    hide SeenReady, BindsReadyPods, BindsSeenReady;
    PutWorkerReady(c, if BoxFresh(c, id, rv) then PutBox(c, id, box) else c, id, Resting, multiset{});
  }

  lemma GiveUpReady(c: Cluster, b: Cluster, id: string, podDeleted: bool, left: multiset<Stray>)
    requires BindsReadyPods(c) && id in c.workers && b.workers == c.workers && b.strays == c.strays + left
    requires c.workers[id].Inspecting? || c.workers[id].Calling? || c.workers[id].Launching?
    requires forall s :: s in left && s.BindCall? ==> SeenReady(c, s.pod)
    ensures BindsSeenReady(c, GiveUp(b, id, c.workers[id], podDeleted))
  {
    MarkDeletedOnly(b, c.workers[id].pod);
    hide SeenReady, BindsReadyPods, BindsSeenReady, MarkDeleted;
    WorkerReady(c, GiveUp(b, id, c.workers[id], podDeleted), id, left);
  }

  lemma FetchedReady(c: Cluster, id: string, found: Option<nat>)
    requires BindsReadyPods(c) && id in c.workers && BindEnabled(c, id, c.workers[id], FetchPod(found))
    ensures BindsSeenReady(c, BindApply(c, id, c.workers[id], FetchPod(found)))
  {
    var d := BindApply(c, id, c.workers[id], FetchPod(found));
    assert Binds(d.workers[id]) ==> SeenReady(c, d.workers[id].pod);
    hide SeenReady, BindsReadyPods, BindsSeenReady;
    WorkerReady(c, d, id, multiset{});
  }

  lemma BindReady(c: Cluster, id: string, s: BindStep)
    requires BindsReadyPods(c) && id in c.workers && BindEnabled(c, id, c.workers[id], s)
    ensures BindsSeenReady(c, BindApply(c, id, c.workers[id], s))
  {
    var w, d := c.workers[id], BindApply(c, id, c.workers[id], s);
    assert Binds(w) ==> SeenReady(c, w.pod);
    hide SeenReady, BindsReadyPods, BindsSeenReady, GiveUp, PodVersion;
    match s {
      case FetchPod(found) => FetchedReady(c, id, found);
      case Refuse(podDeleted) => GiveUpReady(c, c, id, podDeleted, multiset{});
      case DaemonChecks(podDeleted) =>
        if Check(c.daemons[w.pod], Grant(id, w.token)).Proceed? {
          WorkerReady(c, d, id, multiset{});
        } else {
          GiveUpReady(c, c, id, podDeleted, multiset{});
        }
      case DaemonAborts(podDeleted) => GiveUpReady(c, c, id, podDeleted, multiset{});
      case DaemonPublishes(replyLost, podDeleted) =>
        if replyLost {
          var b := PutDaemon(c, w.pod, Publish(c.daemons[w.pod], Grant(id, w.token)));
          GiveUpReady(c, b, id, podDeleted, multiset{});
        } else {
          WorkerReady(c, d, id, multiset{});
        }
      case TimesOut(podDeleted) =>
        GiveUpReady(c, LeaveBehind(c, OwnCall(id, w)), id, podDeleted, multiset{OwnCall(id, w)});
      case _ => WorkerReady(c, d, id, multiset{});
    }
  }

  lemma TeardownReady(c: Cluster, id: string, s: TeardownStep)
    requires BindsReadyPods(c) && id in c.workers && TeardownEnabled(c, id, c.workers[id], s)
    ensures BindsSeenReady(c, TeardownApply(c, id, c.workers[id], s))
  {
    var w := c.workers[id];
    assert Binds(w) ==> SeenReady(c, w.pod);
    hide SeenReady, BindsReadyPods, BindsSeenReady, MarkDeleted, PodVersion, BoxFresh;
    PutWorkerReady(c, c, id, Resting, multiset{});
    match s {
      case StartTeardown =>
        PutWorkerReady(c, c, id, Stopping(w.rv, w.box, if w.box.deleting then ToFinalized else ToExpired), multiset{});
      case Unbind(found, delivered) =>
        if found.None? {
          PutWorkerReady(c, c, id, Closing(w.rv, w.box, w.aim, false), multiset{});
        } else {
          var p := w.box.podName.value;
          var b := if delivered then PutDaemon(c, p, Expire(c.daemons[p])) else LeaveBehind(c, UnbindCall(p));
          PutWorkerReady(c, b, id, Removing(w.rv, w.box, p, w.aim),
            if delivered then multiset{} else multiset{UnbindCall(p)});
        }
      case RemovePod(_) =>
        MarkDeletedOnly(c, w.pod);
        PutWorkerReady(c, MarkDeleted(c, w.pod), id, Closing(w.rv, w.box, w.aim, true), multiset{});
      case Close =>
        WriteBoxReady(c, id, w.rv, w.box.(phase := Expired, token := ""));
        PutWorkerReady(c, c.(goneB := c.goneB + {id}), id, Resting, multiset{});
      case Abandon =>
        if w.Calling? || w.Launching? {
          PutWorkerReady(c, LeaveBehind(c, OwnCall(id, w)), id, Resting, multiset{OwnCall(id, w)});
        }
    }
  }

  lemma StrayReady(c: Cluster, s: StrayStep)
    requires BindsReadyPods(c) && StrayEnabled(c, s)
    ensures BindsSeenReady(c, StrayApply(c, s))
  {
    hide SeenReady;
  }

  lemma StepReady(c: Cluster, s: Step)
    requires BindsReadyPods(c) && Enabled(c, s)
    ensures BindsReadyPods(Apply(c, s))
  {
    StepGrows(c, s);
    ReadyBefore(c, s);
    hide BindsReadyPods, BindsSeenReady, Grows, Enabled, Apply;
    ReadyCarries(c, Apply(c, s));
  }

  lemma ReadyBefore(c: Cluster, s: Step)
    requires BindsReadyPods(c) && Enabled(c, s)
    ensures BindsSeenReady(c, Apply(c, s))
  {
    hide BindsReadyPods, BindsSeenReady;
    match s {
      case Around(e) => EnvReady(c, e);
      case Acquiring(id, a) => AcquireReady(c, id, a);
      case Serving(id, b) => BindReady(c, id, b);
      case Ending(id, t) => TeardownReady(c, id, t);
      case Straying(t) => StrayReady(c, t);
    }
  }

  lemma {:induction false} RunBindsReadyPods(run: seq<Cluster>, steps: seq<Step>, i: nat)
    requires Run(run, steps) && i < |run|
    ensures BindsReadyPods(run[i])
  {
    hide Enabled, Apply;
    if i > 0 {
      hide BindsReadyPods;
      RunBindsReadyPods(run, steps, i - 1);
      StepReady(run[i - 1], steps[i - 1]);
    }
  }

  lemma PublishedWasReady(c: Cluster, s: Step, p: string)
    requires BindsReadyPods(c) && Enabled(c, s) && Publishes(c, s, p).Some?
    ensures SeenReady(c, p)
  {
    hide SeenReady;
  }

  /**
  In every run, a bind is only under way, and a grant only ever published, in a Pod some stored
  version of which was ready and not terminated.
  */
  lemma OnlyReadyPodsAreBound(run: seq<Cluster>, steps: seq<Step>, i: nat, p: string)
    requires Run(run, steps) && i < |run|
    ensures (exists id :: id in run[i].workers && Binds(run[i].workers[id]) && run[i].workers[id].pod == p) ==>
              SeenReady(run[i], p)
    ensures (exists k :: 0 <= k < i && Publishes(run[k], steps[k], p).Some?) ==> SeenReady(run[i], p)
  {
    RunBindsReadyPods(run, steps, i);
    hide Enabled, Apply, SeenReady, Publishes, Grows;
    if k :| 0 <= k < i && Publishes(run[k], steps[k], p).Some? {
      RunBindsReadyPods(run, steps, k);
      PublishedWasReady(run[k], steps[k], p);
      RunGrows(run, steps, k, i);
      SeenReadyStays(run[k], run[i], p);
    }
  }

  // --------------------------------------------- every publish was let through by a check

  /** The step is a check, in Pod `p`, that lets the request for `g` through. */
  predicate LetsThrough(c: Cluster, s: Step, p: string, g: Grant)
    requires Enabled(c, s)
  {
    && p in c.daemons && Check(c.daemons[p], g).Proceed?
    && match s
       case Serving(id, b) => b.DaemonChecks? && c.workers[id].pod == p && g == Grant(id, c.workers[id].token)
       case Straying(t) => t.LateCheck? && t.call.pod == p && t.call.grant == g
       case _ => false
  }

  /** A handler for `g` is past its check in Pod `p`, its controller waiting or not. */
  ghost predicate PastCheck(c: Cluster, p: string, g: Grant) {
    || (g.id in c.workers && c.workers[g.id].Launching? && c.workers[g.id].pod == p && c.workers[g.id].token == g.token)
    || BindCall(p, g, true) in c.strays
  }

  /** Nobody gets past the check but by a check. */
  ghost predicate PastByCheck(c: Cluster, s: Step, p: string, g: Grant)
    requires Enabled(c, s)
  {
    PastCheck(Apply(c, s), p, g) ==> PastCheck(c, p, g) || LetsThrough(c, s, p, g)
  }

  /** A state that differs in no reconcile past its check, and in no stray. */
  lemma SameHandlers(c: Cluster, d: Cluster, p: string, g: Grant)
    requires d.strays == c.strays
    requires forall x :: x in d.workers && d.workers[x].Launching? ==> x in c.workers && c.workers[x] == d.workers[x]
    ensures PastCheck(d, p, g) ==> PastCheck(c, p, g)
  {
  }

  lemma EnvPast(c: Cluster, s: EnvStep, p: string, g: Grant)
    requires EnvEnabled(c, s)
    ensures PastCheck(EnvApply(c, s), p, g) ==> PastCheck(c, p, g)
  {
    hide PastCheck;
    SameHandlers(c, EnvApply(c, s), p, g);
  }

  lemma AcquirePast(c: Cluster, id: string, s: AcquireStep, p: string, g: Grant)
    requires id in c.workers && AcquireEnabled(c, id, c.workers[id], s)
    ensures PastCheck(AcquireApply(c, id, c.workers[id], s), p, g) ==> PastCheck(c, p, g)
  {
    hide PastCheck, ListedClaim, PodVersion;
    SameHandlers(c, AcquireApply(c, id, c.workers[id], s), p, g);
  }

  /** One reconcile moves on without getting past a check, and may leave its own call behind as it stands. */
  lemma MovesOn(c: Cluster, b: Cluster, id: string, w: Worker, p: string, g: Grant)
    requires id in c.workers && b.workers == c.workers && !w.Launching?
    requires || b.strays == c.strays
             || ((c.workers[id].Calling? || c.workers[id].Launching?) && b.strays == c.strays + multiset{OwnCall(id, c.workers[id])})
             || exists q :: b.strays == c.strays + multiset{UnbindCall(q)}
    ensures PastCheck(PutWorker(b, id, w), p, g) ==> PastCheck(c, p, g)
  {
  }

  lemma GiveUpPast(c: Cluster, b: Cluster, id: string, podDeleted: bool, p: string, g: Grant)
    requires id in c.workers && b.workers == c.workers
    requires c.workers[id].Inspecting? || c.workers[id].Calling? || c.workers[id].Launching?
    requires || b.strays == c.strays
             || ((c.workers[id].Calling? || c.workers[id].Launching?) && b.strays == c.strays + multiset{OwnCall(id, c.workers[id])})
    ensures PastCheck(GiveUp(b, id, c.workers[id], podDeleted), p, g) ==> PastCheck(c, p, g)
  {
    var w := c.workers[id];
    MarkDeletedOnly(b, w.pod);
    hide PastCheck, MarkDeleted;
    MovesOn(c, if podDeleted then MarkDeleted(b, w.pod) else b, id, Failing(w.rv, w.box, podDeleted), p, g);
  }

  lemma WriteBoxPast(c: Cluster, id: string, rv: nat, box: Box, p: string, g: Grant)
    requires id in c.workers
    ensures PastCheck(WriteBox(c, id, rv, box), p, g) ==> PastCheck(c, p, g)
  {
    hide PastCheck;
    MovesOn(c, if BoxFresh(c, id, rv) then PutBox(c, id, box) else c, id, Resting, p, g);
  }

  lemma CheckPast(c: Cluster, id: string, p: string, g: Grant)
    requires id in c.workers && c.workers[id].Calling? && c.workers[id].pod in c.daemons
    ensures var w := c.workers[id];
            PastCheck(PutWorker(c, id, Launching(w.rv, w.box, w.pod, w.token)), p, g) ==>
              PastCheck(c, p, g) || (p == w.pod && g == Grant(id, w.token))
  {
  }

  lemma BindPast(c: Cluster, id: string, s: BindStep, p: string, g: Grant)
    requires Enabled(c, Serving(id, s))
    ensures PastByCheck(c, Serving(id, s), p, g)
  {
    hide PastCheck, GiveUp, WriteBox, PodVersion;
    var w := c.workers[id];
    match s {
      case FetchPod(found) =>
        MovesOn(c, c, id, BindApply(c, id, w, s).workers[id], p, g);
      case Refuse(podDeleted) => GiveUpPast(c, c, id, podDeleted, p, g);
      case SendBind(token) => MovesOn(c, c, id, Calling(w.rv, w.box, w.pod, token), p, g);
      case DaemonChecks(podDeleted) =>
        if Check(c.daemons[w.pod], Grant(id, w.token)).Proceed? {
          CheckPast(c, id, p, g);
        } else {
          GiveUpPast(c, c, id, podDeleted, p, g);
        }
      case DaemonAborts(podDeleted) => GiveUpPast(c, c, id, podDeleted, p, g);
      case DaemonPublishes(replyLost, podDeleted) =>
        var b := PutDaemon(c, w.pod, Publish(c.daemons[w.pod], Grant(id, w.token)));
        if replyLost {
          GiveUpPast(c, b, id, podDeleted, p, g);
        } else {
          MovesOn(c, b, id, Confirmed(w.rv, w.box, w.pod, w.token), p, g);
        }
      case TimesOut(podDeleted) => GiveUpPast(c, LeaveBehind(c, OwnCall(id, w)), id, podDeleted, p, g);
      case RecordRunning => WriteBoxPast(c, id, w.rv, w.box.(phase := Running, token := w.token), p, g);
      case RecordFailed => WriteBoxPast(c, id, w.rv, w.box.(phase := Failed, token := ""), p, g);
    }
  }

  lemma TeardownPast(c: Cluster, id: string, s: TeardownStep, p: string, g: Grant)
    requires id in c.workers && TeardownEnabled(c, id, c.workers[id], s)
    ensures PastCheck(TeardownApply(c, id, c.workers[id], s), p, g) ==> PastCheck(c, p, g)
  {
    hide PastCheck, WriteBox, MarkDeleted, PodVersion, BoxFresh;
    var w := c.workers[id];
    MovesOn(c, c, id, Resting, p, g);
    match s {
      case StartTeardown =>
        MovesOn(c, c, id, Stopping(w.rv, w.box, if w.box.deleting then ToFinalized else ToExpired), p, g);
      case Unbind(found, delivered) =>
        if found.None? {
          MovesOn(c, c, id, Closing(w.rv, w.box, w.aim, false), p, g);
        } else {
          var q := w.box.podName.value;
          var b := if delivered then PutDaemon(c, q, Expire(c.daemons[q])) else LeaveBehind(c, UnbindCall(q));
          MovesOn(c, b, id, Removing(w.rv, w.box, q, w.aim), p, g);
        }
      case RemovePod(_) =>
        MarkDeletedOnly(c, w.pod);
        MovesOn(c, MarkDeleted(c, w.pod), id, Closing(w.rv, w.box, w.aim, true), p, g);
      case Close =>
        WriteBoxPast(c, id, w.rv, w.box.(phase := Expired, token := ""), p, g);
        MovesOn(c, c.(goneB := c.goneB + {id}), id, Resting, p, g);
      case Abandon =>
        if w.Calling? || w.Launching? {
          MovesOn(c, LeaveBehind(c, OwnCall(id, w)), id, Resting, p, g);
        }
    }
  }

  lemma StrayPast(c: Cluster, s: StrayStep, p: string, g: Grant)
    requires Enabled(c, Straying(s))
    ensures PastByCheck(c, Straying(s), p, g)
  {
  }

  lemma StepPast(c: Cluster, s: Step, p: string, g: Grant)
    requires Enabled(c, s)
    ensures PastByCheck(c, s, p, g)
  {
    match s {
      case Around(e) =>
        hide PastCheck, LetsThrough;
        EnvPast(c, e, p, g);
      case Acquiring(id, a) =>
        hide PastCheck, LetsThrough;
        AcquirePast(c, id, a, p, g);
      case Serving(id, b) =>
        hide PastByCheck;
        BindPast(c, id, b, p, g);
      case Ending(id, t) =>
        hide PastCheck, LetsThrough;
        TeardownPast(c, id, t, p, g);
      case Straying(t) =>
        hide PastByCheck;
        StrayPast(c, t, p, g);
    }
  }

  /** Some earlier step let the request through. */
  ghost predicate LetThroughBefore(run: seq<Cluster>, steps: seq<Step>, i: nat, p: string, g: Grant)
    requires Run(run, steps) && i < |run|
  {
    exists k :: 0 <= k < i && LetsThrough(run[k], steps[k], p, g)
  }

  lemma {:induction false} PastWasLetThrough(run: seq<Cluster>, steps: seq<Step>, i: nat, p: string, g: Grant)
    requires Run(run, steps) && i < |run| && PastCheck(run[i], p, g)
    ensures LetThroughBefore(run, steps, i, p, g)
  {
    hide Enabled, Apply, LetsThrough;
    assert i > 0;
    hide PastCheck;
    StepPast(run[i - 1], steps[i - 1], p, g);
    if PastCheck(run[i - 1], p, g) {
      PastWasLetThrough(run, steps, i - 1, p, g);
    }
  }

  lemma PublisherIsPastCheck(c: Cluster, s: Step, p: string)
    requires Enabled(c, s) && Publishes(c, s, p).Some?
    ensures PastCheck(c, p, Publishes(c, s, p).value)
  {
  }

  lemma LetThroughIsNonEmpty(c: Cluster, s: Step, p: string, g: Grant)
    requires Enabled(c, s) && LetsThrough(c, s, p, g)
    ensures g.id != "" && g.token != "" && p in c.daemons && c.daemons[p] == FRESH
  {
  }

  /**
  In every run, whatever is published in a Pod was let through there by an earlier check of that very
  request, when the daemon was neither bound nor expired; and it has an id and a token.
  */
  lemma PublishedWasLetThrough(run: seq<Cluster>, steps: seq<Step>, m: nat, p: string, g: Grant) returns (k: nat)
    requires Run(run, steps) && m < |steps| && Publishes(run[m], steps[m], p) == Some(g)
    ensures k < m && LetsThrough(run[k], steps[k], p, g)
    ensures p in run[k].daemons && run[k].daemons[p] == FRESH && g.id != "" && g.token != ""
  {
    hide Apply, LetsThrough, Publishes, PastCheck;
    PublisherIsPastCheck(run[m], steps[m], p);
    PastWasLetThrough(run, steps, m, p, g);
    k :| 0 <= k < m && LetsThrough(run[k], steps[k], p, g);
    LetThroughIsNonEmpty(run[k], steps[k], p, g);
  }
}
