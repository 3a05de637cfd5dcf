/**
What every run of the binding protocol keeps.

The argument rests on two facts: an update against a stale version is refused, and
the daemon inside a Pod binds once.  From them follow, for every interleaving, that
a claimed Pod belongs to one Sandbox for life, that two bind handlers never overlap
in one Pod, and that the token a Running Sandbox shows is the one its Pod honours.
*/
module BindingSafety {
  import opened Options
  import opened Execd
  import opened Binding

  /** The three records of a claim on a Pod agree: state label, sandbox-id label and owner. */
  ghost predicate ClaimedFor(pod: Pod, id: string) {
    pod.state == Bound && pod.sandboxId == Some(id) && pod.owner == BoxOwner(id)
  }

  ghost predicate Unclaimed(pod: Pod) {
    pod.state != Bound && pod.sandboxId.None? && pod.owner.PoolOwner?
  }

  /** The store currently has Pod `p` claimed for Sandbox `id`. */
  ghost predicate Owns(c: Cluster, id: string, p: string) {
    HasPod(c, p) && ClaimedFor(CurPod(c, p), id)
  }

  /** How one version of a Pod may differ from a later one. */
  ghost predicate Evolves(a: Pod, b: Pod) {
    && (a.state == Bound ==> b.state == Bound && b.sandboxId == a.sandboxId && b.owner == a.owner)
    && (a.deleting ==> b.deleting)
  }

  ghost predicate PodHistory(h: seq<Pod>) {
    && |h| > 0
    && (forall i :: 0 <= i < |h| ==> Unclaimed(h[i]) || exists id :: ClaimedFor(h[i], id))
    && (forall i, j :: 0 <= i <= j < |h| ==> Evolves(h[i], h[j]))
  }

  /** The Pod is on its way out, or out. */
  ghost predicate Leaving(c: Cluster, p: string) {
    p in c.goneP || (HasPod(c, p) && CurPod(c, p).deleting)
  }

  /** A version of a Sandbox object names only a Pod of its own, and Running means served. */
  ghost predicate BoxSound(c: Cluster, id: string, b: Box) {
    && (b.podName.Some? ==> Owns(c, id, b.podName.value))
    && (b.phase == InBinding ==> b.podName.Some?)
    && (b.phase == Running ==>
          && b.podName.Some? && b.podName.value in c.daemons
          && (b.podName.value !in c.spoiled ==> Serves(c.daemons[b.podName.value], Grant(id, b.token))))
  }

  ghost predicate WorkerSound(c: Cluster, id: string, w: Worker) {
    && (!w.Resting? ==> BoxSound(c, id, w.box))
    && (w.Recording? || w.Inspecting? || w.Calling? || w.Launching? || w.Confirmed? || w.Removing? ==>
          Owns(c, id, w.pod))
    && (w.Inspecting? || w.Calling? || w.Launching? || w.Confirmed? || w.Removing? ==>
          w.box.podName == Some(w.pod) && w.pod in c.daemons)
    && (w.Launching? && w.pod !in c.spoiled ==> c.daemons[w.pod] == FRESH)
    && (w.Confirmed? && w.pod !in c.spoiled ==> Serves(c.daemons[w.pod], Grant(id, w.token)))
    && ((w.Failing? || w.Closing?) && w.deleted ==> w.box.podName.Some? && Leaving(c, w.box.podName.value))
  }

  /** What a stray request has brought about, it cannot undo: a spoiled daemon is never fresh again. */
  ghost predicate DaemonSound(c: Cluster, p: string, d: Daemon) {
    && (d.sb.Some? ==> Owns(c, d.sb.value.id, p))
    && (d.sb.Some? && p !in c.spoiled ==> !d.expired)
    && (p in c.spoiled ==> d != FRESH)
  }

  ghost predicate StraySound(c: Cluster, s: Stray) {
    s.pod in c.daemons && (s.BindCall? ==> Owns(c, s.grant.id, s.pod))
  }

  ghost predicate PodsSound(c: Cluster) {
    c.daemons.Keys == c.pods.Keys && forall p :: p in c.pods ==> PodHistory(c.pods[p])
  }

  ghost predicate BoxesSound(c: Cluster) {
    forall id, i :: id in c.boxes && 0 <= i < |c.boxes[id]| ==> BoxSound(c, id, c.boxes[id][i])
  }

  ghost predicate WorkersSound(c: Cluster) {
    forall id :: id in c.workers ==> WorkerSound(c, id, c.workers[id])
  }

  ghost predicate DaemonsSound(c: Cluster) {
    c.spoiled <= c.daemons.Keys && forall p :: p in c.daemons ==> DaemonSound(c, p, c.daemons[p])
  }

  ghost predicate StraysSound(c: Cluster) {
    forall s :: s in c.strays ==> StraySound(c, s)
  }

  ghost predicate Inv(c: Cluster) {
    PodsSound(c) && BoxesSound(c) && WorkersSound(c) && DaemonsSound(c) && StraysSound(c)
  }

  lemma OneOwner(c: Cluster, p: string, a: string, b: string)
    requires Owns(c, a, p) && Owns(c, b, p)
    ensures a == b
  {
  }

  lemma BoxFact(c: Cluster, id: string, k: nat)
    requires Inv(c) && id in c.boxes && k < |c.boxes[id]|
    ensures BoxSound(c, id, c.boxes[id][k])
  {
  }

  lemma WorkerFact(c: Cluster, id: string)
    requires Inv(c) && id in c.workers
    ensures WorkerSound(c, id, c.workers[id])
  {
  }

  lemma DaemonFact(c: Cluster, p: string)
    requires Inv(c) && p in c.daemons
    ensures DaemonSound(c, p, c.daemons[p])
  {
  }

  lemma StrayFact(c: Cluster, s: Stray)
    requires Inv(c) && s in c.strays
    ensures StraySound(c, s)
  {
  }

  // ------------------------------------- what was said of one state, said of the next

  /** Claims and deletions stay, and what a daemon serves it goes on serving, or is spoiled. */
  ghost predicate Onward(c: Cluster, d: Cluster) {
    && (forall q, id :: Owns(c, id, q) ==> Owns(d, id, q))
    && (forall q :: Leaving(c, q) ==> Leaving(d, q))
    && c.daemons.Keys <= d.daemons.Keys && c.spoiled <= d.spoiled
    && (forall q, g :: q in c.daemons && q !in d.spoiled && Serves(c.daemons[q], g) ==> Serves(d.daemons[q], g))
  }

  lemma BoxCarries(c: Cluster, d: Cluster, id: string, b: Box)
    requires Onward(c, d) && BoxSound(c, id, b)
    ensures BoxSound(d, id, b)
  {
    hide Owns, Leaving, Serves;
  }

  /** Between its two sections a handler also needs its daemon left alone. */
  ghost predicate Undisturbed(c: Cluster, d: Cluster, w: Worker) {
    w.Launching? && w.pod in c.daemons && w.pod !in d.spoiled ==>
      w.pod in d.daemons && d.daemons[w.pod] == c.daemons[w.pod]
  }

  lemma WorkerCarries(c: Cluster, d: Cluster, id: string, w: Worker)
    requires Onward(c, d) && WorkerSound(c, id, w) && Undisturbed(c, d, w)
    ensures WorkerSound(d, id, w)
  {
    if !w.Resting? {
      BoxCarries(c, d, id, w.box);
    }
    hide Owns, Leaving, Serves, BoxSound;
  }

  lemma StrayCarries(c: Cluster, d: Cluster, s: Stray)
    requires Onward(c, d) && StraySound(c, s)
    ensures StraySound(d, s)
  {
    hide Owns, Leaving, Serves;
  }

  /** A daemon is as it was, or has been accounted for. */
  ghost predicate DaemonKept(c: Cluster, d: Cluster, p: string)
    requires p in d.daemons
  {
    || (p in c.daemons && d.daemons[p] == c.daemons[p] && (p in d.spoiled <==> p in c.spoiled))
    || DaemonSound(d, p, d.daemons[p])
  }

  lemma DaemonCarries(c: Cluster, d: Cluster, p: string)
    requires Inv(c) && Onward(c, d) && p in d.daemons && DaemonKept(c, d, p)
    ensures DaemonSound(d, p, d.daemons[p])
  {
    if p in c.daemons {
      DaemonFact(c, p);
    }
    hide Inv, Owns, Leaving, Serves;
  }

  ghost predicate BoxKept(c: Cluster, d: Cluster, id: string, i: nat)
    requires id in d.boxes && i < |d.boxes[id]|
  {
    || (id in c.boxes && i < |c.boxes[id]| && d.boxes[id][i] == c.boxes[id][i])
    || BoxSound(c, id, d.boxes[id][i])
  }

  ghost predicate WorkerKept(c: Cluster, d: Cluster, id: string)
    requires id in d.workers
  {
    || (id in c.workers && d.workers[id] == c.workers[id] && Undisturbed(c, d, d.workers[id]))
    || WorkerSound(d, id, d.workers[id])
  }

  /** Everything the invariant says of the one state holds of the other, if the parts that differ are accounted for. */
  lemma Carries(c: Cluster, d: Cluster)
    requires Inv(c) && Onward(c, d) && PodsSound(d) && d.spoiled <= d.daemons.Keys
    requires forall p :: p in d.daemons ==> DaemonKept(c, d, p)
    requires forall id, i :: id in d.boxes && 0 <= i < |d.boxes[id]| ==> BoxKept(c, d, id, i)
    requires forall id :: id in d.workers ==> WorkerKept(c, d, id)
    requires forall s :: s in d.strays ==> s in c.strays || StraySound(c, s)
    ensures Inv(d)
  {
    CarriesBoxes(c, d);
    CarriesWorkers(c, d);
    CarriesRest(c, d);
    hide PodsSound, BoxesSound, WorkersSound, DaemonsSound, StraysSound;
  }

  lemma CarriesBoxes(c: Cluster, d: Cluster)
    requires Inv(c) && Onward(c, d)
    requires forall id, i :: id in d.boxes && 0 <= i < |d.boxes[id]| ==> BoxKept(c, d, id, i)
    ensures BoxesSound(d)
  {
    hide Inv, Onward, BoxSound;
    forall id, i | id in d.boxes && 0 <= i < |d.boxes[id]|
      ensures BoxSound(d, id, d.boxes[id][i])
    {
      assert BoxKept(c, d, id, i);
      if id in c.boxes && i < |c.boxes[id]| {
        BoxFact(c, id, i);
      }
      BoxCarries(c, d, id, d.boxes[id][i]);
    }
  }

  lemma CarriesWorkers(c: Cluster, d: Cluster)
    requires Inv(c) && Onward(c, d)
    requires forall id :: id in d.workers ==> WorkerKept(c, d, id)
    ensures WorkersSound(d)
  {
    hide Inv, Onward, WorkerSound, Undisturbed;
    forall id | id in d.workers
      ensures WorkerSound(d, id, d.workers[id])
    {
      assert WorkerKept(c, d, id);
      if !WorkerSound(d, id, d.workers[id]) {
        WorkerFact(c, id);
        WorkerCarries(c, d, id, d.workers[id]);
      }
    }
  }

  lemma CarriesRest(c: Cluster, d: Cluster)
    requires Inv(c) && Onward(c, d) && d.spoiled <= d.daemons.Keys
    requires forall p :: p in d.daemons ==> DaemonKept(c, d, p)
    requires forall s :: s in d.strays ==> s in c.strays || StraySound(c, s)
    ensures DaemonsSound(d) && StraysSound(d)
  {
    hide Inv, Onward, DaemonSound, StraySound, DaemonKept;
    forall p | p in d.daemons
      ensures DaemonSound(d, p, d.daemons[p])
    {
      DaemonCarries(c, d, p);
    }
    forall s | s in d.strays
      ensures StraySound(d, s)
    {
      if s in c.strays {
        StrayFact(c, s);
      }
      StrayCarries(c, d, s);
    }
  }

  // -------------------------------------------- one kind of write at a time

  lemma HistoryGrows(h: seq<Pod>, pod: Pod)
    requires PodHistory(h) && Evolves(Last(h), pod)
    requires Unclaimed(pod) || exists id :: ClaimedFor(pod, id)
    ensures PodHistory(h + [pod])
  {
  }

  lemma PutPodOnward(c: Cluster, p: string, pod: Pod)
    requires HasPod(c, p) && Evolves(CurPod(c, p), pod)
    ensures Onward(c, PutPod(c, p, pod))
  {
    hide Serves;
  }

  lemma PutPodKeeps(c: Cluster, p: string, pod: Pod)
    requires Inv(c) && p in c.pods && Evolves(Last(c.pods[p]), pod)
    requires Unclaimed(pod) || exists id :: ClaimedFor(pod, id)
    ensures Inv(PutPod(c, p, pod)) && Onward(c, PutPod(c, p, pod))
  {
    hide Evolves, BoxSound, WorkerSound, DaemonSound, StraySound;
    var d := PutPod(c, p, pod);
    HistoryGrows(c.pods[p], pod);
    PutPodOnward(c, p, pod);
    assert d.spoiled <= d.daemons.Keys;
    hide PodHistory, Onward;
    assert PodsSound(d);
    hide Inv, PodsSound;
    Carries(c, d);
  }

  lemma NewPodOnward(c: Cluster, p: string, pod: Pod)
    requires p !in c.pods && p !in c.daemons
    ensures Onward(c, NewPod(c, p, pod))
  {
    hide Serves;
  }

  lemma NewPodKeeps(c: Cluster, p: string, pod: Pod)
    requires Inv(c) && p !in c.pods
    requires Unclaimed(pod) || exists id :: ClaimedFor(pod, id)
    ensures Inv(NewPod(c, p, pod)) && Onward(c, NewPod(c, p, pod))
  {
    hide BoxSound, WorkerSound, StraySound;
    var d := NewPod(c, p, pod);
    assert PodHistory([pod]);
    assert p !in c.daemons && p !in c.spoiled && d.spoiled <= d.daemons.Keys && DaemonSound(d, p, FRESH);
    hide PodHistory, DaemonSound;
    assert PodsSound(d);
    hide Inv, PodsSound, Onward;
    NewPodOnward(c, p, pod);
    Carries(c, d);
  }

  /** Nothing but Sandboxes, reconciles, stray requests or removals is new. */
  lemma SameStore(c: Cluster, d: Cluster)
    requires Inv(c) && d.pods == c.pods && d.daemons == c.daemons && d.spoiled == c.spoiled && c.goneP <= d.goneP
    ensures PodsSound(d) && Onward(c, d) && d.spoiled <= d.daemons.Keys
  {
    hide PodHistory, BoxSound, WorkerSound, DaemonSound, StraySound, Serves;
  }

  /** One daemon is new, in a state that serves whom it served, or spoiled. */
  lemma NewDaemon(c: Cluster, d: Cluster, p: string)
    requires Inv(c) && d.pods == c.pods && d.goneP == c.goneP && p in c.daemons && p in d.daemons
    requires d.daemons == c.daemons[p := d.daemons[p]] && c.spoiled <= d.spoiled <= c.spoiled + {p}
    requires p in d.spoiled || forall g :: Serves(c.daemons[p], g) ==> Serves(d.daemons[p], g)
    ensures PodsSound(d) && Onward(c, d) && d.spoiled <= d.daemons.Keys
  {
    hide PodHistory, BoxSound, WorkerSound, DaemonSound, StraySound, Serves;
  }

  lemma PutBoxKeeps(c: Cluster, id: string, b: Box)
    requires Inv(c) && id in c.boxes && BoxSound(c, id, b)
    ensures Inv(PutBox(c, id, b)) && Onward(c, PutBox(c, id, b))
  {
    hide Inv, PodsSound, Onward, BoxSound, WorkerSound, DaemonSound, StraySound;
    var d := PutBox(c, id, b);
    SameStore(c, d);
    Carries(c, d);
  }

  lemma PutWorkerKeeps(c: Cluster, id: string, w: Worker)
    requires Inv(c) && WorkerSound(c, id, w)
    ensures Inv(PutWorker(c, id, w)) && Onward(c, PutWorker(c, id, w))
  {
    hide Inv, PodsSound, Onward, BoxSound, WorkerSound, DaemonSound, StraySound;
    var d := PutWorker(c, id, w);
    SameStore(c, d);
    WorkerCarries(c, d, id, w);
    Carries(c, d);
  }

  /** Tearing a Pod's daemon down, provided no bind handler is between its two sections there. */
  lemma ExpireKeeps(c: Cluster, p: string)
    requires Inv(c) && p in c.daemons
    requires p in c.spoiled || forall id :: id in c.workers && c.workers[id].Launching? ==> c.workers[id].pod != p
    ensures Inv(PutDaemon(c, p, Expire(c.daemons[p]))) && Onward(c, PutDaemon(c, p, Expire(c.daemons[p])))
  {
    hide Inv, PodsSound, Onward, BoxSound, WorkerSound, StraySound;
    var d := PutDaemon(c, p, Expire(c.daemons[p]));
    DaemonFact(c, p);
    NewDaemon(c, d, p);
    assert DaemonSound(d, p, d.daemons[p]);
    hide DaemonSound;
    Carries(c, d);
  }

  lemma MarkDeletedKeeps(c: Cluster, p: string)
    requires Inv(c)
    ensures Inv(MarkDeleted(c, p)) && Onward(c, MarkDeleted(c, p))
    ensures HasPod(c, p) ==> Leaving(MarkDeleted(c, p), p)
  {
    if HasPod(c, p) && p !in c.goneP {
      SameClaim(c, p, CurPod(c, p).(deleting := true));
      hide Inv;
      PutPodKeeps(c, p, CurPod(c, p).(deleting := true));
    }
  }

  lemma WriteBoxKeeps(c: Cluster, id: string, rv: nat, b: Box)
    requires Inv(c) && BoxSound(c, id, b)
    ensures Inv(WriteBox(c, id, rv, b))
  {
    hide Inv;
    if BoxFresh(c, id, rv) {
      PutBoxKeeps(c, id, b);
      PutWorkerKeeps(PutBox(c, id, b), id, Resting);
    } else {
      PutWorkerKeeps(c, id, Resting);
    }
  }

  lemma GiveUpKeeps(c: Cluster, id: string, w: Worker, podDeleted: bool)
    requires Inv(c) && (w.Inspecting? || w.Calling? || w.Launching?)
    requires BoxSound(c, id, w.box) && w.box.podName == Some(w.pod)
    ensures Inv(GiveUp(c, id, w, podDeleted))
  {
    hide Inv;
    if podDeleted {
      MarkDeletedKeeps(c, w.pod);
      BoxCarries(c, MarkDeleted(c, w.pod), id, w.box);
      PutWorkerKeeps(MarkDeleted(c, w.pod), id, Failing(w.rv, w.box, true));
    } else {
      PutWorkerKeeps(c, id, Failing(w.rv, w.box, false));
    }
  }

  lemma LeaveBehindKeeps(c: Cluster, s: Stray)
    requires Inv(c) && StraySound(c, s)
    ensures Inv(LeaveBehind(c, s)) && Onward(c, LeaveBehind(c, s))
  {
    hide Inv, PodsSound, Onward, BoxSound, WorkerSound, DaemonSound, StraySound;
    var d := LeaveBehind(c, s);
    SameStore(c, d);
    Carries(c, d);
  }

  /** Two Sandboxes are never launching in one Pod. */
  lemma NoLaunchElsewhere(c: Cluster, id: string, p: string)
    requires Inv(c) && Owns(c, id, p)
    ensures forall x :: x in c.workers && c.workers[x].Launching? && x != id ==> c.workers[x].pod != p
  {
    hide BoxSound, PodsSound, BoxesSound, DaemonsSound, StraysSound;
  }

  /** Publishing: the worker's own launch is the only one in this Pod, so an unspoiled Pod is still fresh. */
  lemma PublishKeeps(c: Cluster, id: string)
    requires Inv(c) && id in c.workers && c.workers[id].Launching? && c.workers[id].pod in c.daemons
    ensures var w := c.workers[id];
            var g := Grant(id, w.token);
            var d := PutWorker(PutDaemon(c, w.pod, Publish(c.daemons[w.pod], g)), id, Resting);
            && Inv(d) && Onward(c, d)
            && (w.pod !in c.spoiled ==> d.daemons[w.pod] == Daemon(Some(g), false))
  {
    hide Inv, PodsSound, Onward, BoxSound, StraySound;
    var w := c.workers[id];
    var p := w.pod;
    var d := PutWorker(PutDaemon(c, p, Publish(c.daemons[p], Grant(id, w.token))), id, Resting);
    WorkerFact(c, id);
    NoLaunchElsewhere(c, id, p);
    NewDaemon(c, d, p);
    SameOwner(c, d, id, p);
    assert DaemonSound(d, p, d.daemons[p]) by {
      DaemonFact(c, p);
    }
    RestingIsSound(d, id);
    hide WorkerSound, DaemonSound;
    Carries(c, d);
  }

  lemma SameOwner(c: Cluster, d: Cluster, id: string, p: string)
    requires d.pods == c.pods
    ensures Owns(d, id, p) <==> Owns(c, id, p)
  {
  }

  lemma RestingIsSound(c: Cluster, id: string)
    ensures WorkerSound(c, id, Resting)
  {
  }

  // --------------------------------------------------------- every step

  /** Objects leaving the store take nothing with them that the invariant speaks of. */
  lemma RemovalKeeps(c: Cluster, d: Cluster)
    requires Inv(c) && d == c.(goneP := d.goneP, goneB := d.goneB) && c.goneP <= d.goneP
    ensures Inv(d)
  {
    hide Inv, PodsSound, Onward, BoxSound, WorkerSound, DaemonSound, StraySound;
    SameStore(c, d);
    Carries(c, d);
  }

  lemma CreateBoxKeeps(c: Cluster, id: string)
    requires Inv(c) && EnvEnabled(c, CreateBox(id))
    ensures Inv(EnvApply(c, CreateBox(id)))
  {
    var d := EnvApply(c, CreateBox(id));
    RestingIsSound(d, id);
    assert BoxSound(c, id, Box(Pending, None, "", false, false));
    hide Inv, PodsSound, Onward, BoxSound, WorkerSound, DaemonSound, StraySound;
    SameStore(c, d);
    Carries(c, d);
  }

  lemma NotFreshNotLaunching(c: Cluster, p: string)
    requires Inv(c) && p in c.daemons && c.daemons[p] != FRESH
    ensures p in c.spoiled || forall id :: id in c.workers && c.workers[id].Launching? ==> c.workers[id].pod != p
  {
    hide BoxSound, PodsSound, BoxesSound, DaemonsSound, StraysSound;
  }

  lemma EnvironmentKeepsInv(c: Cluster, s: EnvStep)
    requires Inv(c) && EnvEnabled(c, s)
    ensures Inv(EnvApply(c, s))
  {
    hide Inv, PodHistory;
    match s {
      case CreateBox(id) => CreateBoxKeeps(c, id);
      case TouchBox(id) =>
        BoxFact(c, id, |c.boxes[id]| - 1);
        PutBoxKeeps(c, id, Last(c.boxes[id]));
      case DeleteBox(id) =>
        var b := Last(c.boxes[id]);
        BoxFact(c, id, |c.boxes[id]| - 1);
        if b.finalizer {
          PutBoxKeeps(c, id, b.(deleting := true));
        } else {
          RemovalKeeps(c, EnvApply(c, s));
        }
      case ForceRemoveBox(id) => RemovalKeeps(c, EnvApply(c, s));
      case KubeletReport(p, ready, terminated) =>
        var pod := CurPod(c, p);
        SameClaim(c, p, pod.(ready := ready, terminated := terminated));
        PutPodKeeps(c, p, pod.(ready := ready, terminated := terminated));
      case PodRemoved(p) => RemovalKeeps(c, EnvApply(c, s));
      case TtlFires(p) =>
        NotFreshNotLaunching(c, p);
        ExpireKeeps(c, p);
      case PoolCreate(p, pool) => NewPodKeeps(c, p, Pod(Idle, None, PoolOwner(pool), None, false, false, false));
      case LabelTier(p, k, tier) =>
        if PodFresh(c, p, k) {
          SameClaim(c, p, c.pods[p][k].(tier := Some(tier)));
          PutPodKeeps(c, p, c.pods[p][k].(tier := Some(tier)));
        }
      case PoolDelete(p) => MarkDeletedKeeps(c, p);
    }
  }

  /** Rewriting a Pod's current version without touching its claim is a legal evolution. */
  lemma SameClaim(c: Cluster, p: string, pod: Pod)
    requires Inv(c) && HasPod(c, p)
    requires pod.state == CurPod(c, p).state && pod.sandboxId == CurPod(c, p).sandboxId
    requires pod.owner == CurPod(c, p).owner && (CurPod(c, p).deleting ==> pod.deleting)
    ensures Evolves(CurPod(c, p), pod)
    ensures Unclaimed(pod) || exists id :: ClaimedFor(pod, id)
  {
    assert PodHistory(c.pods[p]);
    var cur := CurPod(c, p);
    assert Unclaimed(cur) || exists id :: ClaimedFor(cur, id);
    if id :| ClaimedFor(cur, id) {
      assert ClaimedFor(pod, id);
    }
  }

  lemma BothKeep(c: Cluster, id: string, b: Box, w: Worker)
    requires Inv(c) && id in c.boxes && BoxSound(c, id, b)
    requires w.Resting? || (w.Holding? && w.box == b)
    ensures Inv(PutWorker(PutBox(c, id, b), id, w))
  {
    hide Inv;
    PutBoxKeeps(c, id, b);
    PutWorkerKeeps(PutBox(c, id, b), id, w);
  }

  /** Claiming the current version of an idle Pod, and the worker that goes on to record it. */
  lemma ClaimKeeps(c: Cluster, id: string, p: string, pod: Pod, w: Worker)
    requires Inv(c) && HasPod(c, p) && CurPod(c, p).state == Idle
    requires ClaimedFor(pod, id) && pod.deleting == CurPod(c, p).deleting
    requires w.Resting? || (w.Recording? && w.pod == p && BoxSound(c, id, w.box))
    ensures Inv(PutWorker(PutPod(c, p, pod), id, w))
  {
    hide Inv, BoxSound, Onward;
    var d := PutPod(c, p, pod);
    PutPodKeeps(c, p, pod);
    if w.Recording? {
      BoxCarries(c, d, id, w.box);
    }
    PutWorkerKeeps(d, id, w);
  }

  lemma NewClaimKeeps(c: Cluster, id: string, p: string, pod: Pod, w: Worker)
    requires Inv(c) && p !in c.pods && ClaimedFor(pod, id)
    requires (w.Failing? && !w.deleted) || (w.Recording? && w.pod == p)
    requires BoxSound(c, id, w.box)
    ensures Inv(PutWorker(NewPod(c, p, pod), id, w))
  {
    hide Inv, BoxSound, Onward;
    var d := NewPod(c, p, pod);
    NewPodKeeps(c, p, pod);
    BoxCarries(c, d, id, w.box);
    PutWorkerKeeps(d, id, w);
  }

  /** A worker's Pod stays its Pod, and its copy stays sound. */
  lemma RemovingCarries(c: Cluster, d: Cluster, id: string, w: Worker, p: string)
    requires Onward(c, d) && WorkerSound(c, id, w) && w.Stopping? && w.box.podName == Some(p) && p in c.daemons
    ensures WorkerSound(d, id, Removing(w.rv, w.box, p, w.aim))
  {
    BoxCarries(c, d, id, w.box);
    hide Serves, Leaving;
  }

  lemma UnbindKeeps(c: Cluster, id: string, p: string)
    requires Inv(c) && id in c.workers && c.workers[id].Stopping?
    requires c.workers[id].box.podName == Some(p) && p in c.daemons
    ensures var w := c.workers[id];
            Inv(PutWorker(PutDaemon(c, p, Expire(c.daemons[p])), id, Removing(w.rv, w.box, p, w.aim)))
  {
    hide Inv, Onward;
    var w, d := c.workers[id], PutDaemon(c, p, Expire(c.daemons[p]));
    WorkerFact(c, id);
    NoLaunchElsewhere(c, id, p);
    ExpireKeeps(c, p);
    RemovingCarries(c, d, id, w, p);
    PutWorkerKeeps(d, id, Removing(w.rv, w.box, p, w.aim));
  }

  lemma RemovePodKeeps(c: Cluster, id: string)
    requires Inv(c) && id in c.workers && c.workers[id].Removing?
    ensures var w := c.workers[id]; Inv(PutWorker(MarkDeleted(c, w.pod), id, Closing(w.rv, w.box, w.aim, true)))
  {
    hide Inv, Onward, Serves;
    var w := c.workers[id];
    var d := MarkDeleted(c, w.pod);
    WorkerFact(c, id);
    MarkDeletedKeeps(c, w.pod);
    BoxCarries(c, d, id, w.box);
    PutWorkerKeeps(d, id, Closing(w.rv, w.box, w.aim, true));
  }

  lemma FinalizeKeeps(c: Cluster, id: string)
    requires Inv(c)
    ensures Inv(PutWorker(c, id, Resting))
    ensures Inv(PutWorker(c, id, Resting).(goneB := c.goneB + {id}))
  {
    hide Inv;
    var d := PutWorker(c, id, Resting);
    PutWorkerKeeps(c, id, Resting);
    RemovalKeeps(d, d.(goneB := c.goneB + {id}));
  }

  lemma AcquireKeepsInv(c: Cluster, id: string, s: AcquireStep)
    requires Inv(c) && id in c.workers && AcquireEnabled(c, id, c.workers[id], s)
    ensures Inv(AcquireApply(c, id, c.workers[id], s))
  {
    hide Inv, PodHistory;
    WorkerFact(c, id);
    var w := c.workers[id];
    match s {
      case Begin(k) =>
        BoxFact(c, id, k);
        PutWorkerKeeps(c, id, Holding(k, c.boxes[id][k]));
      case AddFinalizer(replyLost) =>
        if BoxFresh(c, id, w.rv) {
          BothKeep(c, id, w.box.(finalizer := true),
            if replyLost then Resting else Holding(w.rv + 1, w.box.(finalizer := true)));
        } else {
          PutWorkerKeeps(c, id, Resting);
        }
      case Acquire(ok) => PutWorkerKeeps(c, id, if ok then Searching(w.rv, w.box) else Failing(w.rv, w.box, false));
      case FindClaimed(listed, pick) =>
        if pick.Some? {
          ClaimSeenIsClaimHeld(c, id, pick.value, listed[pick.value]);
          PutWorkerKeeps(c, id, Recording(w.rv, w.box, pick.value));
        } else {
          PutWorkerKeeps(c, id, Claiming(w.rv, w.box));
        }
      case ClaimWarm(p, k, replyLost) =>
        if PodFresh(c, p, k) {
          ClaimKeeps(c, id, p, Claimed(c.pods[p][k], id),
            if replyLost then Resting else Recording(w.rv, w.box, p));
        }
      case CreateCold(p, replyLost) =>
        NewClaimKeeps(c, id, p, Pod(Bound, Some(id), BoxOwner(id), None, false, false, false),
          if replyLost then Failing(w.rv, w.box, false) else Recording(w.rv, w.box, p));
      case CreateFails => PutWorkerKeeps(c, id, Failing(w.rv, w.box, false));
      case RecordClaim => WriteBoxKeeps(c, id, w.rv, w.box.(phase := InBinding, podName := Some(w.pod)));
    }
  }

  /** However stale the copy, a Pod once seen claimed for a Sandbox is still its Pod. */
  lemma ClaimSeenIsClaimHeld(c: Cluster, id: string, p: string, k: nat)
    requires Inv(c) && PodVersion(c, p, k) && c.pods[p][k].sandboxId == Some(id)
    ensures Owns(c, id, p)
  {
  }

  lemma BindKeepsInv(c: Cluster, id: string, s: BindStep)
    requires Inv(c) && id in c.workers && BindEnabled(c, id, c.workers[id], s)
    ensures Inv(BindApply(c, id, c.workers[id], s))
  {
    hide Inv, PodHistory;
    WorkerFact(c, id);
    var w := c.workers[id];
    match s {
      case FetchPod(found) =>
        var p := w.box.podName.value;
        OwnedHasDaemon(c, id, p);
        PutWorkerKeeps(c, id,
          if found.None? || c.pods[p][found.value].terminated then Failing(w.rv, w.box, false)
          else if !c.pods[p][found.value].ready then Resting
          else Inspecting(w.rv, w.box, p));
      case Refuse(podDeleted) => GiveUpKeeps(c, id, w, podDeleted);
      case SendBind(token) => PutWorkerKeeps(c, id, Calling(w.rv, w.box, w.pod, token));
      case DaemonChecks(podDeleted) =>
        if Check(c.daemons[w.pod], Grant(id, w.token)).Proceed? {
          PutWorkerKeeps(c, id, Launching(w.rv, w.box, w.pod, w.token));
        } else {
          GiveUpKeeps(c, id, w, podDeleted);
        }
      case DaemonAborts(podDeleted) => GiveUpKeeps(c, id, w, podDeleted);
      case DaemonPublishes(replyLost, podDeleted) =>
        if replyLost {
          PublishThenGiveUp(c, id, podDeleted);
        } else {
          PublishThen(c, id, Confirmed(w.rv, w.box, w.pod, w.token));
        }
      case TimesOut(podDeleted) =>
        LeaveBehindKeeps(c, OwnCall(id, w));
        GiveUpKeeps(LeaveBehind(c, OwnCall(id, w)), id, w, podDeleted);
      case RecordRunning => WriteBoxKeeps(c, id, w.rv, w.box.(phase := Running, token := w.token));
      case RecordFailed => WriteBoxKeeps(c, id, w.rv, w.box.(phase := Failed, token := ""));
    }
  }

  /** The worker that goes on after its own publish. */
  lemma PublishThen(c: Cluster, id: string, next: Worker)
    requires Inv(c) && id in c.workers && c.workers[id].Launching? && c.workers[id].pod in c.daemons
    requires var w := c.workers[id];
             next == Confirmed(w.rv, w.box, w.pod, w.token) || next == Failing(w.rv, w.box, false)
    ensures var w := c.workers[id];
            var d := PutDaemon(c, w.pod, Publish(c.daemons[w.pod], Grant(id, w.token)));
            Inv(PutWorker(d, id, next)) && BoxSound(PutWorker(d, id, next), id, w.box)
  {
    hide Inv, Onward, BoxSound, Leaving;
    var w := c.workers[id];
    var d := PutDaemon(c, w.pod, Publish(c.daemons[w.pod], Grant(id, w.token)));
    var e := PutWorker(d, id, Resting);
    WorkerFact(c, id);
    PublishKeeps(c, id);
    BoxCarries(c, e, id, w.box);
    assert Owns(e, id, w.pod);
    PutWorkerKeeps(e, id, next);
    BoxCarries(e, PutWorker(e, id, next), id, w.box);
    assert PutWorker(e, id, next) == PutWorker(d, id, next);
  }

  lemma OwnedHasDaemon(c: Cluster, id: string, p: string)
    requires Inv(c) && Owns(c, id, p)
    ensures p in c.daemons
  {
  }

  lemma PublishThenGiveUp(c: Cluster, id: string, podDeleted: bool)
    requires Inv(c) && id in c.workers && c.workers[id].Launching? && c.workers[id].pod in c.daemons
    ensures var w := c.workers[id];
            Inv(GiveUp(PutDaemon(c, w.pod, Publish(c.daemons[w.pod], Grant(id, w.token))), id, w, podDeleted))
  {
    hide Inv, BoxSound;
    var w := c.workers[id];
    var d := PutDaemon(c, w.pod, Publish(c.daemons[w.pod], Grant(id, w.token)));
    var e := PutWorker(d, id, Failing(w.rv, w.box, false));
    WorkerFact(c, id);
    PublishThen(c, id, Failing(w.rv, w.box, false));
    GiveUpKeeps(e, id, w, podDeleted);
    GiveUpOver(d, id, w, podDeleted);
  }

  lemma GiveUpOver(c: Cluster, id: string, w: Worker, podDeleted: bool)
    requires w.Launching?
    ensures GiveUp(PutWorker(c, id, Failing(w.rv, w.box, false)), id, w, podDeleted) == GiveUp(c, id, w, podDeleted)
  {
    var f := Failing(w.rv, w.box, podDeleted);
    assert c.workers[id := Failing(w.rv, w.box, false)][id := f] == c.workers[id := f];
  }

  lemma TeardownKeepsInv(c: Cluster, id: string, s: TeardownStep)
    requires Inv(c) && id in c.workers && TeardownEnabled(c, id, c.workers[id], s)
    ensures Inv(TeardownApply(c, id, c.workers[id], s))
  {
    hide Inv, PodHistory;
    WorkerFact(c, id);
    var w := c.workers[id];
    match s {
      case StartTeardown =>
        PutWorkerKeeps(c, id, Stopping(w.rv, w.box, if w.box.deleting then ToFinalized else ToExpired));
      case Unbind(found, delivered) =>
        if found.None? {
          PutWorkerKeeps(c, id, Closing(w.rv, w.box, w.aim, false));
        } else {
          var p := w.box.podName.value;
          if delivered {
            UnbindKeeps(c, id, p);
          } else {
            LeaveBehindKeeps(c, UnbindCall(p));
            var d := LeaveBehind(c, UnbindCall(p));
            RemovingCarries(c, d, id, w, p);
            PutWorkerKeeps(d, id, Removing(w.rv, w.box, p, w.aim));
          }
        }
      case RemovePod(accepted) =>
        if accepted {
          RemovePodKeeps(c, id);
        } else {
          PutWorkerKeeps(c, id, Resting);
        }
      case Close =>
        if w.aim.ToExpired? {
          WriteBoxKeeps(c, id, w.rv, w.box.(phase := Expired, token := ""));
        } else {
          FinalizeKeeps(c, id);
        }
      case Abandon =>
        if w.Calling? || w.Launching? {
          LeaveBehindKeeps(c, OwnCall(id, w));
          PutWorkerKeeps(LeaveBehind(c, OwnCall(id, w)), id, Resting);
        } else {
          PutWorkerKeeps(c, id, Resting);
        }
    }
  }

  /** Whatever a stray request does to its daemon, a Pod thereby spoiled is one the invariant asks less of. */
  lemma SpoilKeeps(c: Cluster, p: string, d: Daemon)
    requires Inv(c) && p in c.daemons && d != FRESH && (d.sb.Some? ==> Owns(c, d.sb.value.id, p))
    ensures Inv(PutDaemon(c, p, d).(spoiled := c.spoiled + {p}))
  {
    hide Inv, PodsSound, Onward, BoxSound, WorkerSound, StraySound;
    var e := PutDaemon(c, p, d).(spoiled := c.spoiled + {p});
    NewDaemon(c, e, p);
    if d.sb.Some? {
      SameOwner(c, e, d.sb.value.id, p);
    }
    assert DaemonSound(e, p, d);
    hide DaemonSound;
    Carries(c, e);
  }

  lemma ForgetStrayKeeps(c: Cluster, s: Stray)
    requires Inv(c)
    ensures Inv(c.(strays := c.strays - multiset{s}))
  {
    hide Inv, PodsSound, Onward, BoxSound, WorkerSound, DaemonSound, StraySound;
    var d := c.(strays := c.strays - multiset{s});
    SameStore(c, d);
    Carries(c, d);
  }

  lemma StrayEffectKeeps(c: Cluster, s: StrayStep)
    requires Inv(c) && StrayEnabled(c, s)
    ensures Inv(StrayEffect(c, s).(spoiled := if Spoils(c, s) then c.spoiled + {s.call.pod} else c.spoiled))
  {
    hide Inv;
    var p := s.call.pod;
    StrayFact(c, s.call);
    match s {
      case LateCheck(call) =>
        if Check(c.daemons[p], call.grant).Proceed? {
          LeaveBehindKeeps(c, call.(launched := true));
        }
      case LatePublish(call) => SpoilKeeps(c, p, Publish(c.daemons[p], call.grant));
      case LateUnbind(_) =>
        if Spoils(c, s) {
          SpoilKeeps(c, p, Expire(c.daemons[p]));
        } else {
          NotFreshNotLaunching(c, p);
          ExpireKeeps(c, p);
        }
      case LateEnd(_) =>
    }
  }

  lemma StrayKeepsInv(c: Cluster, s: StrayStep)
    requires Inv(c) && StrayEnabled(c, s)
    ensures Inv(StrayApply(c, s))
  {
    hide Inv;
    StrayEffectKeeps(c, s);
    ForgetStrayKeeps(
      StrayEffect(c, s).(spoiled := if Spoils(c, s) then c.spoiled + {s.call.pod} else c.spoiled), s.call);
  }

  lemma StepKeepsInv(c: Cluster, s: Step)
    requires Inv(c) && Enabled(c, s)
    ensures Inv(Apply(c, s))
  {
    hide Inv;
    match s {
      case Around(e) => EnvironmentKeepsInv(c, e);
      case Acquiring(id, a) => AcquireKeepsInv(c, id, a);
      case Serving(id, b) => BindKeepsInv(c, id, b);
      case Ending(id, t) => TeardownKeepsInv(c, id, t);
      case Straying(t) => StrayKeepsInv(c, t);
    }
  }
}
