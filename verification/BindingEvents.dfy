/**
What a step of the binding protocol does to one Pod: whether it has the Pod deleted, publishes
a grant in its daemon or tears the daemon down.
*/
module BindingEvents {
  import opened Options
  import opened Execd
  import opened Binding
  import opened BindingSafety

  // --------------------------------------------------------------- events

  /** The bind ends with an accepted deletion of its Pod. */
  predicate BindDeletes(c: Cluster, id: string, w: Worker, s: BindStep)
    requires BindEnabled(c, id, w, s)
  {
    match s
    case Refuse(podDeleted) => podDeleted
    case DaemonChecks(podDeleted) => podDeleted && !Check(c.daemons[w.pod], Grant(id, w.token)).Proceed?
    case DaemonAborts(podDeleted) => podDeleted
    case DaemonPublishes(replyLost, podDeleted) => replyLost && podDeleted
    case TimesOut(podDeleted) => podDeleted
    case _ => false
  }

  /** The step has Pod `p` deleted, or sees it removed. */
  predicate Deletes(c: Cluster, s: Step, p: string)
    requires Enabled(c, s)
  {
    match s
    case Around(e) => (e.PodRemoved? || e.PoolDelete?) && e.pod == p
    case Serving(id, b) => BindDeletes(c, id, c.workers[id], b) && c.workers[id].pod == p
    case Ending(id, t) => t.RemovePod? && t.accepted && c.workers[id].pod == p
    case _ => false
  }

  /** What the step publishes in the daemon of Pod `p`, its own controller waiting or not. */
  function Publishes(c: Cluster, s: Step, p: string): Option<Grant>
    requires Enabled(c, s)
  {
    match s
    case Serving(id, b) =>
      if b.DaemonPublishes? && c.workers[id].pod == p then Some(Grant(id, c.workers[id].token)) else None
    case Straying(t) => if t.LatePublish? && t.call.pod == p then Some(t.call.grant) else None
    case _ => None
  }

  /** The step runs the daemon's teardown in Pod `p`. */
  predicate Tears(c: Cluster, s: Step, p: string)
    requires Enabled(c, s)
  {
    match s
    case Around(e) => e.TtlFires? && e.pod == p
    case Ending(id, t) => t.Unbind? && t.found.Some? && t.delivered && c.workers[id].box.podName == Some(p)
    case Straying(t) => t.LateUnbind? && t.call.pod == p
    case _ => false
  }

  /** A request left behind takes effect where it was not meant to. */
  predicate SpoilsPod(c: Cluster, s: Step, p: string)
    requires Enabled(c, s)
  {
    s.Straying? && Spoils(c, s.stray) && s.stray.call.pod == p
  }

  // -------------------------------------------------------------- effects

  /** The versions of Sandbox `id` are those there were, or one more. */
  ghost predicate OneBoxOn(c: Cluster, d: Cluster, id: string) {
    || d.boxes == c.boxes
    || (id in c.boxes && id in d.boxes && c.boxes[id] <= d.boxes[id] && d.boxes == c.boxes[id := d.boxes[id]])
  }

  /** Nobody new is out to claim a Pod. */
  ghost predicate NoNewClaiming(c: Cluster, d: Cluster) {
    forall x :: x in d.workers && d.workers[x].Claiming? ==> x in c.workers && c.workers[x].Claiming?
  }

  /** A deletion changes the Pod's history and nothing else. */
  lemma MarkDeletedOnly(c: Cluster, p: string)
    ensures MarkDeleted(c, p) == c.(pods := MarkDeleted(c, p).pods)
  {
  }

  lemma MarkDeletedSame(c: Cluster, d: Cluster, p: string)
    requires d.pods == c.pods && d.goneP == c.goneP
    ensures MarkDeleted(d, p).pods == MarkDeleted(c, p).pods
  {
  }

  lemma PutWorkerEffect(c: Cluster, b: Cluster, id: string, w: Worker)
    requires !w.Claiming? && b.goneP == c.goneP && b.boxes == c.boxes && b.workers == c.workers
    ensures var d := PutWorker(b, id, w);
            d.goneP == c.goneP && d.pods == b.pods && OneBoxOn(c, d, id) && NoNewClaiming(c, d)
  {
  }

  lemma WriteBoxEffect(c: Cluster, id: string, rv: nat, box: Box)
    ensures var d := WriteBox(c, id, rv, box);
            d.pods == c.pods && d.goneP == c.goneP && OneBoxOn(c, d, id) && NoNewClaiming(c, d)
  {
  }

  lemma GiveUpEffect(c: Cluster, b: Cluster, id: string, w: Worker, podDeleted: bool)
    requires w.Inspecting? || w.Calling? || w.Launching?
    requires b.pods == c.pods && b.goneP == c.goneP && b.boxes == c.boxes && b.workers == c.workers
    ensures var d := GiveUp(b, id, w, podDeleted);
            && d.goneP == c.goneP && OneBoxOn(c, d, id) && NoNewClaiming(c, d)
            && d.pods == if podDeleted then MarkDeleted(c, w.pod).pods else c.pods
  {
    MarkDeletedOnly(b, w.pod);
    MarkDeletedSame(c, b, w.pod);
    hide MarkDeleted;
  }

  lemma BindEffect(c: Cluster, id: string, s: BindStep)
    requires id in c.workers && BindEnabled(c, id, c.workers[id], s)
    ensures var w, d := c.workers[id], BindApply(c, id, c.workers[id], s);
            && d.goneP == c.goneP && OneBoxOn(c, d, id) && NoNewClaiming(c, d)
            && d.pods == if BindDeletes(c, id, w, s) then MarkDeleted(c, w.pod).pods else c.pods
  {
    hide MarkDeleted, GiveUp, WriteBox, BoxFresh;
    var w := c.workers[id];
    match s {
      case FetchPod(_) =>
      case Refuse(podDeleted) => GiveUpEffect(c, c, id, w, podDeleted);
      case SendBind(_) =>
      case DaemonChecks(podDeleted) => GiveUpEffect(c, c, id, w, podDeleted);
      case DaemonAborts(podDeleted) => GiveUpEffect(c, c, id, w, podDeleted);
      case DaemonPublishes(_, podDeleted) =>
        GiveUpEffect(c, PutDaemon(c, w.pod, Publish(c.daemons[w.pod], Grant(id, w.token))), id, w, podDeleted);
      case TimesOut(podDeleted) => GiveUpEffect(c, LeaveBehind(c, OwnCall(id, w)), id, w, podDeleted);
      case RecordRunning => WriteBoxEffect(c, id, w.rv, w.box.(phase := Running, token := w.token));
      case RecordFailed => WriteBoxEffect(c, id, w.rv, w.box.(phase := Failed, token := ""));
    }
  }

  lemma TeardownEffect(c: Cluster, id: string, s: TeardownStep)
    requires id in c.workers && TeardownEnabled(c, id, c.workers[id], s)
    ensures var w, d := c.workers[id], TeardownApply(c, id, c.workers[id], s);
            && d.goneP == c.goneP && OneBoxOn(c, d, id) && NoNewClaiming(c, d)
            && d.pods == if s.RemovePod? && s.accepted then MarkDeleted(c, w.pod).pods else c.pods
  {
    hide MarkDeleted, WriteBox, BoxFresh, OneBoxOn, NoNewClaiming;
    var w := c.workers[id];
    PutWorkerEffect(c, c, id, Resting);
    match s {
      case StartTeardown =>
        PutWorkerEffect(c, c, id, Stopping(w.rv, w.box, if w.box.deleting then ToFinalized else ToExpired));
      case Unbind(found, delivered) =>
        if found.None? {
          PutWorkerEffect(c, c, id, Closing(w.rv, w.box, w.aim, false));
        } else {
          var p := w.box.podName.value;
          var b := if delivered then PutDaemon(c, p, Expire(c.daemons[p])) else LeaveBehind(c, UnbindCall(p));
          PutWorkerEffect(c, b, id, Removing(w.rv, w.box, p, w.aim));
        }
      case RemovePod(_) =>
        MarkDeletedOnly(c, w.pod);
        PutWorkerEffect(c, MarkDeleted(c, w.pod), id, Closing(w.rv, w.box, w.aim, true));
      case Close =>
        WriteBoxEffect(c, id, w.rv, w.box.(phase := Expired, token := ""));
        PutWorkerEffect(c, c.(goneB := c.goneB + {id}), id, Resting);
      case Abandon =>
        if w.Calling? || w.Launching? {
          PutWorkerEffect(c, LeaveBehind(c, OwnCall(id, w)), id, Resting);
        }
    }
  }

  lemma StrayEffects(c: Cluster, s: StrayStep)
    requires StrayEnabled(c, s)
    ensures var d := StrayApply(c, s);
            d.goneP == c.goneP && d.pods == c.pods && d.boxes == c.boxes && d.workers == c.workers
  {
  }

  lemma MarkDeletedLeaves(c: Cluster, d: Cluster, q: string, p: string)
    requires d.pods == MarkDeleted(c, q).pods && d.goneP == c.goneP && HasPod(c, q)
    ensures Leaving(d, p) <==> Leaving(c, p) || p == q
  {
  }

  lemma SamePodsLeave(c: Cluster, d: Cluster, p: string)
    requires d.pods == c.pods && d.goneP == c.goneP
    ensures Leaving(d, p) <==> Leaving(c, p)
  {
  }

  lemma EnvLeaves(c: Cluster, s: EnvStep, p: string)
    requires EnvEnabled(c, s)
    ensures Leaving(EnvApply(c, s), p) <==> Leaving(c, p) || Deletes(c, Around(s), p)
  {
  }

  lemma AcquireLeaves(c: Cluster, id: string, s: AcquireStep, p: string)
    requires id in c.workers && AcquireEnabled(c, id, c.workers[id], s)
    ensures Leaving(AcquireApply(c, id, c.workers[id], s), p) <==> Leaving(c, p)
  {
  }

  /** A Pod is on its way out after a step exactly when it was before, or the step deletes it. */
  lemma StepLeaves(c: Cluster, s: Step, p: string)
    requires Inv(c) && Enabled(c, s)
    ensures Leaving(Apply(c, s), p) <==> Leaving(c, p) || Deletes(c, s, p)
  {
    hide Inv, Leaving, BindApply, TeardownApply, StrayApply, AcquireApply, EnvApply, BindEnabled, TeardownEnabled;
    match s {
      case Around(e) => EnvLeaves(c, e, p);
      case Acquiring(id, a) => AcquireLeaves(c, id, a, p);
      case Serving(id, b) =>
        var w, d := c.workers[id], BindApply(c, id, c.workers[id], b);
        BindEffect(c, id, b);
        WorkerFact(c, id);
        if BindDeletes(c, id, w, b) {
          DeleterOwns(c, id, b);
          MarkDeletedLeaves(c, d, w.pod, p);
        } else {
          SamePodsLeave(c, d, p);
        }
      case Ending(id, t) =>
        var w, d := c.workers[id], TeardownApply(c, id, c.workers[id], t);
        TeardownEffect(c, id, t);
        WorkerFact(c, id);
        if t.RemovePod? && t.accepted {
          RemoverOwns(c, id, t);
          MarkDeletedLeaves(c, d, w.pod, p);
        } else {
          SamePodsLeave(c, d, p);
        }
      case Straying(t) =>
        StrayEffects(c, t);
        SamePodsLeave(c, StrayApply(c, t), p);
    }
  }

  lemma DeleterOwns(c: Cluster, id: string, s: BindStep)
    requires id in c.workers && BindEnabled(c, id, c.workers[id], s) && BindDeletes(c, id, c.workers[id], s)
    requires WorkerSound(c, id, c.workers[id])
    ensures var w := c.workers[id]; (w.Inspecting? || w.Calling? || w.Launching?) && HasPod(c, w.pod)
  {
  }

  lemma RemoverOwns(c: Cluster, id: string, s: TeardownStep)
    requires id in c.workers && TeardownEnabled(c, id, c.workers[id], s) && s.RemovePod?
    requires WorkerSound(c, id, c.workers[id])
    ensures c.workers[id].Removing? && HasPod(c, c.workers[id].pod)
  {
  }

  /** The daemon of a Pod after a step: published to, torn down, or as it was. */
  ghost function DaemonAfter(c: Cluster, s: Step, p: string): Daemon
    requires Enabled(c, s) && p in c.daemons
  {
    if Publishes(c, s, p).Some? then Publish(c.daemons[p], Publishes(c, s, p).value)
    else if Tears(c, s, p) then Expire(c.daemons[p])
    else c.daemons[p]
  }

  /** A new Pod's daemon is fresh, and nothing is published or torn down where there is none. */
  ghost predicate DaemonSteps(c: Cluster, s: Step, p: string)
    requires Enabled(c, s)
  {
    var d := Apply(c, s);
    && (p in c.daemons ==> p in d.daemons && d.daemons[p] == DaemonAfter(c, s, p))
    && (p !in c.daemons ==> Publishes(c, s, p).None? && !Tears(c, s, p) && (p in d.daemons ==> d.daemons[p] == FRESH))
    && (p in d.spoiled <==> p in c.spoiled || SpoilsPod(c, s, p))
    && !(Tears(c, s, p) && Publishes(c, s, p).Some?)
  }

  lemma EnvDaemons(c: Cluster, s: EnvStep, p: string)
    requires EnvEnabled(c, s) && c.daemons.Keys == c.pods.Keys
    ensures DaemonSteps(c, Around(s), p)
  {
  }

  lemma AcquireDaemons(c: Cluster, id: string, s: AcquireStep, p: string)
    requires Enabled(c, Acquiring(id, s)) && c.daemons.Keys == c.pods.Keys
    ensures DaemonSteps(c, Acquiring(id, s), p)
  {
  }

  lemma GiveUpDaemons(c: Cluster, id: string, w: Worker, podDeleted: bool)
    requires w.Inspecting? || w.Calling? || w.Launching?
    ensures GiveUp(c, id, w, podDeleted).daemons == c.daemons && GiveUp(c, id, w, podDeleted).spoiled == c.spoiled
  {
  }

  lemma BindDaemonEffect(c: Cluster, id: string, w: Worker, s: BindStep)
    requires BindEnabled(c, id, w, s)
    ensures var d := BindApply(c, id, w, s);
            && d.spoiled == c.spoiled
            && d.daemons == if s.DaemonPublishes?
                            then c.daemons[w.pod := Publish(c.daemons[w.pod], Grant(id, w.token))] else c.daemons
  {
    hide GiveUp;
    match s {
      case Refuse(podDeleted) => GiveUpDaemons(c, id, w, podDeleted);
      case DaemonChecks(podDeleted) => GiveUpDaemons(c, id, w, podDeleted);
      case DaemonAborts(podDeleted) => GiveUpDaemons(c, id, w, podDeleted);
      case DaemonPublishes(_, podDeleted) =>
        GiveUpDaemons(PutDaemon(c, w.pod, Publish(c.daemons[w.pod], Grant(id, w.token))), id, w, podDeleted);
      case TimesOut(podDeleted) => GiveUpDaemons(LeaveBehind(c, OwnCall(id, w)), id, w, podDeleted);
      case _ =>
    }
  }

  lemma BindDaemons(c: Cluster, id: string, s: BindStep, p: string)
    requires Enabled(c, Serving(id, s))
    ensures DaemonSteps(c, Serving(id, s), p)
  {
    hide BindApply;
    BindDaemonEffect(c, id, c.workers[id], s);
  }

  lemma TeardownDaemons(c: Cluster, id: string, s: TeardownStep, p: string)
    requires Enabled(c, Ending(id, s))
    ensures DaemonSteps(c, Ending(id, s), p)
  {
  }

  lemma StrayDaemons(c: Cluster, s: StrayStep, p: string)
    requires Enabled(c, Straying(s))
    ensures DaemonSteps(c, Straying(s), p)
  {
  }

  lemma StepDaemons(c: Cluster, s: Step, p: string)
    requires Inv(c) && Enabled(c, s)
    ensures DaemonSteps(c, s, p)
  {
    assert c.daemons.Keys == c.pods.Keys;
    hide Inv, Enabled, DaemonSteps;
    match s {
      case Around(e) =>
        AroundIsEnabled(c, e);
        EnvDaemons(c, e, p);
      case Acquiring(id, a) => AcquireDaemons(c, id, a, p);
      case Serving(id, b) => BindDaemons(c, id, b, p);
      case Ending(id, t) => TeardownDaemons(c, id, t, p);
      case Straying(t) => StrayDaemons(c, t, p);
    }
  }

  lemma AroundIsEnabled(c: Cluster, e: EnvStep)
    ensures Enabled(c, Around(e)) <==> EnvEnabled(c, e)
  {
  }
}
