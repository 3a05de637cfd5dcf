/**
The Pod binding protocol (pkg/controller/sandbox_controller.go and
pkg/controller/pool_controller.go), as a state machine.

The API server keeps every version an object ever had; its resource version is
the index of the last one.  An `Update` carries the version it was read at and is
refused unless that is still the last.  A cached read may return any version, so
every reading step names the version it happened to see.  A write may take effect
and its reply still be lost.  Each step is one API call, or one locked section of
the daemon inside a Pod; the Sandbox reconciles, the pool reconciles, the kubelet
and the tenants interleave freely.

A call to the daemon may outlive the controller's patience: the request stays behind and
may still arrive, pass its check and take effect at any later time, or never.

Assumed of the surroundings: Pod and Sandbox names are never reused, and reconciles of
one Sandbox do not overlap.
*/
module Binding {
  import opened Options
  import opened Execd

  // ---------------------------------------------------------------- objects

  datatype PodState = Idle | Bound | Draining

  datatype Owner = PoolOwner(pool: string) | BoxOwner(id: string)

  datatype Pod = Pod(
    state: PodState,
    sandboxId: Option<string>,
    owner: Owner,
    tier: Option<string>,
    ready: bool,
    terminated: bool,
    deleting: bool)

  datatype Phase = Pending | InBinding | Running | Expired | Failed | Other

  datatype Box = Box(
    phase: Phase,
    podName: Option<string>,
    token: string,
    finalizer: bool,
    deleting: bool)

  /** What a teardown leads to once the Pod has been dealt with. */
  datatype Aim = ToExpired | ToFinalized

  /**
  Where the reconcile of one Sandbox stands.  `rv` and `box` are the copy it holds
  and the version that copy was read at; `deleted` says whether the reconcile has had a
  deletion of the Pod accepted when it comes to write its terminal phase.
  */
  datatype Worker =
    | Resting
    | Holding(rv: nat, box: Box)
    | Searching(rv: nat, box: Box)
    | Claiming(rv: nat, box: Box)
    | Recording(rv: nat, box: Box, pod: string)
    | Inspecting(rv: nat, box: Box, pod: string)
    | Calling(rv: nat, box: Box, pod: string, token: string)
    | Launching(rv: nat, box: Box, pod: string, token: string)
    | Confirmed(rv: nat, box: Box, pod: string, token: string)
    | Failing(rv: nat, box: Box, deleted: bool)
    | Stopping(rv: nat, box: Box, aim: Aim)
    | Removing(rv: nat, box: Box, pod: string, aim: Aim)
    | Closing(rv: nat, box: Box, aim: Aim, deleted: bool)

  /** A request to a Pod's daemon that the controller no longer waits for. */
  datatype Stray =
    | BindCall(pod: string, grant: Grant, launched: bool)
    | UnbindCall(pod: string)

  /** `spoiled` records the Pods where a stray request has met a daemon in a state it was not meant for. */
  datatype Cluster = Cluster(
    pods: map<string, seq<Pod>>,
    goneP: set<string>,
    boxes: map<string, seq<Box>>,
    goneB: set<string>,
    daemons: map<string, Daemon>,
    workers: map<string, Worker>,
    strays: multiset<Stray>,
    spoiled: set<string>)

  const EMPTY := Cluster(map[], {}, map[], {}, map[], map[], multiset{}, {})

  // ------------------------------------------------------- reading and writing

  function Last<T>(s: seq<T>): T
    requires |s| > 0
  {
    s[|s| - 1]
  }

  predicate HasPod(c: Cluster, p: string) {
    p in c.pods && |c.pods[p]| > 0
  }

  function CurPod(c: Cluster, p: string): Pod
    requires HasPod(c, p)
  {
    Last(c.pods[p])
  }

  predicate HasBox(c: Cluster, id: string) {
    id in c.boxes && |c.boxes[id]| > 0
  }

  /** `k` is a version of Pod `p` that a cache may return. */
  predicate PodVersion(c: Cluster, p: string, k: nat) {
    p in c.pods && k < |c.pods[p]|
  }

  /** An update made against version `k` of Pod `p` is accepted. */
  predicate PodFresh(c: Cluster, p: string, k: nat) {
    HasPod(c, p) && p !in c.goneP && k == |c.pods[p]| - 1
  }

  predicate BoxFresh(c: Cluster, id: string, k: nat) {
    HasBox(c, id) && id !in c.goneB && k == |c.boxes[id]| - 1
  }

  function PutPod(c: Cluster, p: string, pod: Pod): Cluster
    requires p in c.pods
  {
    c.(pods := c.pods[p := c.pods[p] + [pod]])
  }

  function NewPod(c: Cluster, p: string, pod: Pod): Cluster {
    c.(pods := c.pods[p := [pod]], daemons := c.daemons[p := FRESH])
  }

  function PutBox(c: Cluster, id: string, box: Box): Cluster
    requires id in c.boxes
  {
    c.(boxes := c.boxes[id := c.boxes[id] + [box]])
  }

  function PutWorker(c: Cluster, id: string, w: Worker): Cluster {
    c.(workers := c.workers[id := w])
  }

  function PutDaemon(c: Cluster, p: string, d: Daemon): Cluster {
    c.(daemons := c.daemons[p := d])
  }

  function LeaveBehind(c: Cluster, s: Stray): Cluster {
    c.(strays := c.strays + multiset{s})
  }

  /** Deletion carries no version: it reaches whatever is stored now. */
  function MarkDeleted(c: Cluster, p: string): Cluster {
    if HasPod(c, p) && p !in c.goneP then PutPod(c, p, CurPod(c, p).(deleting := true)) else c
  }

  /** A status write by the worker of `id`: refused unless its copy is current; it rests either way. */
  function WriteBox(c: Cluster, id: string, rv: nat, box: Box): Cluster {
    PutWorker(if BoxFresh(c, id, rv) then PutBox(c, id, box) else c, id, Resting)
  }

  // ----------------------------------------------------------------- steps

  /** Tenants, the kubelet, time and the pool reconciler.  LabelTier is also bind's last write. */
  datatype EnvStep =
    | CreateBox(id: string)
    | TouchBox(id: string)
    | DeleteBox(id: string)
    | ForceRemoveBox(id: string)
    | KubeletReport(pod: string, ready: bool, terminated: bool)
    | PodRemoved(pod: string)
    | TtlFires(pod: string)
    | PoolCreate(pod: string, pool: string)
    | LabelTier(pod: string, version: nat, tier: string)
    | PoolDelete(pod: string)

  /** The Sandbox reconciler up to a recorded claim: Reconcile's prologue and acquirePod. */
  datatype AcquireStep =
    | Begin(version: nat)
    | AddFinalizer(replyLost: bool)
    | Acquire(templateOk: bool)
    | FindClaimed(listed: map<string, nat>, pick: Option<string>)
    | ClaimWarm(pod: string, version: nat, replyLost: bool)
    | CreateCold(pod: string, replyLost: bool)
    | CreateFails
    | RecordClaim

  /** The bind call, seen from both ends. */
  datatype BindStep =
    | FetchPod(found: Option<nat>)
    | Refuse(podDeleted: bool)
    | SendBind(token: string)
    | DaemonChecks(podDeleted: bool)
    | DaemonAborts(podDeleted: bool)
    | DaemonPublishes(replyLost: bool, podDeleted: bool)
    | TimesOut(podDeleted: bool)
    | RecordRunning
    | RecordFailed

  /** What becomes of requests left behind. */
  datatype StrayStep =
    | LateCheck(call: Stray)
    | LatePublish(call: Stray)
    | LateUnbind(call: Stray)
    | LateEnd(call: Stray)

  /** expire, finalize and deletePod; and a reconcile that ends early. */
  datatype TeardownStep =
    | StartTeardown
    | Unbind(found: Option<nat>, delivered: bool)
    | RemovePod(accepted: bool)
    | Close
    | Abandon

  datatype Step =
    | Around(env: EnvStep)
    | Acquiring(id: string, acquire: AcquireStep)
    | Serving(id: string, bind: BindStep)
    | Ending(id: string, teardown: TeardownStep)
    | Straying(stray: StrayStep)

  predicate At(c: Cluster, id: string) {
    id in c.workers && HasBox(c, id)
  }

  /** A live object with its finalizer on, ready for the switch over phases. */
  predicate Dispatching(w: Worker) {
    w.Holding? && !w.box.deleting && w.box.finalizer
  }

  /** What the list call of findClaimedPod shows as a live Pod of this Sandbox. */
  predicate ListedClaim(c: Cluster, id: string, listed: map<string, nat>, p: string) {
    && p in listed && PodVersion(c, p, listed[p])
    && c.pods[p][listed[p]].sandboxId == Some(id)
    && !c.pods[p][listed[p]].deleting
  }

  /** The candidates claimWarmPod keeps: idle, ready, measured and not going away. */
  predicate Candidate(pod: Pod) {
    pod.state == Idle && pod.ready && !pod.deleting && pod.tier.Some?
  }

  predicate EnvEnabled(c: Cluster, s: EnvStep) {
    match s
    case CreateBox(id) => id !in c.boxes
    case TouchBox(id) => HasBox(c, id) && id !in c.goneB
    case DeleteBox(id) => HasBox(c, id) && id !in c.goneB
    case ForceRemoveBox(id) => HasBox(c, id)
    case KubeletReport(p, _, _) => HasPod(c, p) && p !in c.goneP
    case PodRemoved(p) => HasPod(c, p)
    case TtlFires(p) => p in c.daemons && c.daemons[p].sb.Some?
    case PoolCreate(p, _) => p !in c.pods
    case LabelTier(p, k, _) => PodVersion(c, p, k)
    case PoolDelete(p) => HasPod(c, p)
  }

  function EnvApply(c: Cluster, s: EnvStep): Cluster
    requires EnvEnabled(c, s)
  {
    match s
    case CreateBox(id) =>
      c.(boxes := c.boxes[id := [Box(Pending, None, "", false, false)]], workers := c.workers[id := Resting])
    case TouchBox(id) => PutBox(c, id, Last(c.boxes[id]))
    case DeleteBox(id) =>
      if Last(c.boxes[id]).finalizer then PutBox(c, id, Last(c.boxes[id]).(deleting := true))
      else c.(goneB := c.goneB + {id})
    case ForceRemoveBox(id) => c.(goneB := c.goneB + {id})
    case KubeletReport(p, ready, terminated) =>
      PutPod(c, p, CurPod(c, p).(ready := ready, terminated := terminated))
    case PodRemoved(p) => c.(goneP := c.goneP + {p})
    case TtlFires(p) => PutDaemon(c, p, Expire(c.daemons[p]))
    case PoolCreate(p, pool) => NewPod(c, p, Pod(Idle, None, PoolOwner(pool), None, false, false, false))
    case LabelTier(p, k, tier) =>
      if PodFresh(c, p, k) then PutPod(c, p, c.pods[p][k].(tier := Some(tier))) else c
    case PoolDelete(p) => MarkDeleted(c, p)
  }

  predicate AcquireEnabled(c: Cluster, id: string, w: Worker, s: AcquireStep) {
    match s
    case Begin(k) => w.Resting? && HasBox(c, id) && k < |c.boxes[id]|
    case AddFinalizer(_) => w.Holding? && !w.box.deleting && !w.box.finalizer
    case Acquire(_) => Dispatching(w) && (w.box.phase == Pending || w.box.phase == Other)
    case FindClaimed(listed, pick) =>
      && w.Searching?
      && (forall p :: p in listed ==> PodVersion(c, p, listed[p]))
      && (pick.Some? ==> ListedClaim(c, id, listed, pick.value))
      && (pick.None? ==> forall p :: p in listed ==> !ListedClaim(c, id, listed, p))
    case ClaimWarm(p, k, _) => w.Claiming? && PodVersion(c, p, k) && Candidate(c.pods[p][k])
    case CreateCold(p, _) => w.Claiming? && p !in c.pods
    case CreateFails => w.Claiming?
    case RecordClaim => w.Recording?
  }

  /** A Pod labelled bound for a Sandbox and handed over to it. */
  function Claimed(pod: Pod, id: string): Pod {
    pod.(state := Bound, sandboxId := Some(id), owner := BoxOwner(id))
  }

  function AcquireApply(c: Cluster, id: string, w: Worker, s: AcquireStep): Cluster
    requires AcquireEnabled(c, id, w, s)
  {
    match s
    case Begin(k) => PutWorker(c, id, Holding(k, c.boxes[id][k]))
    case AddFinalizer(replyLost) =>
      if BoxFresh(c, id, w.rv) then
        var box := w.box.(finalizer := true);
        PutWorker(PutBox(c, id, box), id, if replyLost then Resting else Holding(w.rv + 1, box))
      else PutWorker(c, id, Resting)
    case Acquire(ok) => PutWorker(c, id, if ok then Searching(w.rv, w.box) else Failing(w.rv, w.box, false))
    case FindClaimed(_, pick) =>
      PutWorker(c, id, if pick.Some? then Recording(w.rv, w.box, pick.value) else Claiming(w.rv, w.box))
    case ClaimWarm(p, k, replyLost) =>
      if PodFresh(c, p, k) then
        PutWorker(PutPod(c, p, Claimed(c.pods[p][k], id)), id,
          if replyLost then Resting else Recording(w.rv, w.box, p))
      else c
    case CreateCold(p, replyLost) =>
      PutWorker(NewPod(c, p, Pod(Bound, Some(id), BoxOwner(id), None, false, false, false)), id,
        if replyLost then Failing(w.rv, w.box, false) else Recording(w.rv, w.box, p))
    case CreateFails => PutWorker(c, id, Failing(w.rv, w.box, false))
    case RecordClaim => WriteBox(c, id, w.rv, w.box.(phase := InBinding, podName := Some(w.pod)))
  }

  predicate BindEnabled(c: Cluster, id: string, w: Worker, s: BindStep) {
    match s
    case FetchPod(found) =>
      && Dispatching(w) && w.box.phase == InBinding && w.box.podName.Some?
      && (found.Some? ==> PodVersion(c, w.box.podName.value, found.value))
    case Refuse(_) => w.Inspecting?
    case SendBind(_) => w.Inspecting?
    case DaemonChecks(_) => w.Calling? && w.pod in c.daemons
    case DaemonAborts(_) => w.Calling? || w.Launching?
    case DaemonPublishes(_, _) => w.Launching? && w.pod in c.daemons
    case TimesOut(_) => w.Calling? || w.Launching?
    case RecordRunning => w.Confirmed?
    case RecordFailed => w.Failing?
  }

  /** A bind that the controller sees fail: delete the Pod, best effort, and give up on the Sandbox. */
  function GiveUp(c: Cluster, id: string, w: Worker, podDeleted: bool): Cluster
    requires w.Inspecting? || w.Calling? || w.Launching?
  {
    PutWorker(if podDeleted then MarkDeleted(c, w.pod) else c, id, Failing(w.rv, w.box, podDeleted))
  }

  /** The request of a bind call that the controller stops waiting for. */
  function OwnCall(id: string, w: Worker): Stray
    requires w.Calling? || w.Launching?
  {
    BindCall(w.pod, Grant(id, w.token), w.Launching?)
  }

  function BindApply(c: Cluster, id: string, w: Worker, s: BindStep): Cluster
    requires BindEnabled(c, id, w, s)
  {
    match s
    case FetchPod(found) =>
      var p := w.box.podName.value;
      PutWorker(c, id,
        if found.None? || c.pods[p][found.value].terminated then Failing(w.rv, w.box, false)
        else if !c.pods[p][found.value].ready then Resting
        else Inspecting(w.rv, w.box, p))
    case Refuse(podDeleted) => GiveUp(c, id, w, podDeleted)
    case SendBind(token) => PutWorker(c, id, Calling(w.rv, w.box, w.pod, token))
    case DaemonChecks(podDeleted) =>
      if Check(c.daemons[w.pod], Grant(id, w.token)).Proceed?
      then PutWorker(c, id, Launching(w.rv, w.box, w.pod, w.token))
      else GiveUp(c, id, w, podDeleted)
    case DaemonAborts(podDeleted) => GiveUp(c, id, w, podDeleted)
    case DaemonPublishes(replyLost, podDeleted) =>
      var c' := PutDaemon(c, w.pod, Publish(c.daemons[w.pod], Grant(id, w.token)));
      if replyLost then GiveUp(c', id, w, podDeleted)
      else PutWorker(c', id, Confirmed(w.rv, w.box, w.pod, w.token))
    case TimesOut(podDeleted) => GiveUp(LeaveBehind(c, OwnCall(id, w)), id, w, podDeleted)
    case RecordRunning => WriteBox(c, id, w.rv, w.box.(phase := Running, token := w.token))
    case RecordFailed => WriteBox(c, id, w.rv, w.box.(phase := Failed, token := ""))
  }

  predicate TeardownEnabled(c: Cluster, id: string, w: Worker, s: TeardownStep) {
    match s
    case StartTeardown => w.Holding? && (w.box.deleting || (Dispatching(w) && w.box.phase == Running))
    case Unbind(found, _) =>
      && w.Stopping?
      && (found.Some? ==>
            && w.box.podName.Some? && w.box.podName.value in c.daemons
            && PodVersion(c, w.box.podName.value, found.value))
    case RemovePod(_) => w.Removing?
    case Close => w.Closing?
    case Abandon => true
  }

  function TeardownApply(c: Cluster, id: string, w: Worker, s: TeardownStep): Cluster
    requires TeardownEnabled(c, id, w, s)
  {
    match s
    case StartTeardown =>
      PutWorker(c, id, Stopping(w.rv, w.box, if w.box.deleting then ToFinalized else ToExpired))
    case Unbind(found, delivered) =>
      if found.None? then PutWorker(c, id, Closing(w.rv, w.box, w.aim, false))
      else
        var p := w.box.podName.value;
        PutWorker(
          if delivered then PutDaemon(c, p, Expire(c.daemons[p])) else LeaveBehind(c, UnbindCall(p)), id,
          Removing(w.rv, w.box, p, w.aim))
    case RemovePod(accepted) =>
      if accepted then PutWorker(MarkDeleted(c, w.pod), id, Closing(w.rv, w.box, w.aim, true))
      else PutWorker(c, id, Resting)
    case Close =>
      if w.aim.ToExpired? then WriteBox(c, id, w.rv, w.box.(phase := Expired, token := ""))
      else if BoxFresh(c, id, w.rv) then PutWorker(c, id, Resting).(goneB := c.goneB + {id})
      else PutWorker(c, id, Resting)
    case Abandon =>
      PutWorker(if w.Calling? || w.Launching? then LeaveBehind(c, OwnCall(id, w)) else c, id, Resting)
  }

  predicate StrayEnabled(c: Cluster, s: StrayStep) {
    && s.call in c.strays && s.call.pod in c.daemons
    && match s
       case LateCheck(call) => call.BindCall? && !call.launched
       case LatePublish(call) => call.BindCall? && call.launched
       case LateUnbind(call) => call.UnbindCall?
       case LateEnd(_) => true
  }

  /**
  A late publish counts whatever it meets, for nobody is waiting for it; a late unbind only where
  nothing was bound yet.
  */
  predicate Spoils(c: Cluster, s: StrayStep)
    requires StrayEnabled(c, s)
  {
    s.LatePublish? || (s.LateUnbind? && c.daemons[s.call.pod] == FRESH)
  }

  function StrayEffect(c: Cluster, s: StrayStep): Cluster
    requires StrayEnabled(c, s)
  {
    var p := s.call.pod;
    match s
    case LateCheck(call) =>
      if Check(c.daemons[p], call.grant).Proceed? then LeaveBehind(c, call.(launched := true)) else c
    case LatePublish(call) => PutDaemon(c, p, Publish(c.daemons[p], call.grant))
    case LateUnbind(_) => PutDaemon(c, p, Expire(c.daemons[p]))
    case LateEnd(_) => c
  }

  function StrayApply(c: Cluster, s: StrayStep): Cluster
    requires StrayEnabled(c, s)
  {
    var d := StrayEffect(c, s);
    d.(strays := d.strays - multiset{s.call},
       spoiled := if Spoils(c, s) then c.spoiled + {s.call.pod} else c.spoiled)
  }

  predicate Enabled(c: Cluster, s: Step) {
    match s
    case Around(e) => EnvEnabled(c, e)
    case Acquiring(id, a) => At(c, id) && AcquireEnabled(c, id, c.workers[id], a)
    case Serving(id, b) => At(c, id) && BindEnabled(c, id, c.workers[id], b)
    case Ending(id, t) => At(c, id) && TeardownEnabled(c, id, c.workers[id], t)
    case Straying(t) => StrayEnabled(c, t)
  }

  function Apply(c: Cluster, s: Step): Cluster
    requires Enabled(c, s)
  {
    match s
    case Around(e) => EnvApply(c, e)
    case Acquiring(id, a) => AcquireApply(c, id, c.workers[id], a)
    case Serving(id, b) => BindApply(c, id, c.workers[id], b)
    case Ending(id, t) => TeardownApply(c, id, c.workers[id], t)
    case Straying(t) => StrayApply(c, t)
  }
}
