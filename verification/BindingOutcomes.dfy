/**
How a run of the binding protocol comes out: whom a Pod's daemon serves, which requests left
behind can spoil that, and whether a Sandbox in a terminal phase still holds its Pod.
*/
module BindingOutcomes {
  import opened Options
  import opened Execd
  import opened Binding
  import opened BindingSafety
  import opened BindingEvents
  import opened BindingRuns

  // ------------------------------------------------ a daemon, by what was done to it

  /** Pod `p`'s daemon has been torn down before moment `i`. */
  ghost predicate TornDown(run: seq<Cluster>, steps: seq<Step>, i: nat, p: string)
    requires Run(run, steps) && i < |run|
  {
    exists k :: 0 <= k < i && Tears(run[k], steps[k], p)
  }

  /** Something was published in Pod `p`'s daemon after it had been torn down. */
  ghost predicate BoundAfterTeardown(run: seq<Cluster>, steps: seq<Step>, i: nat, p: string)
    requires Run(run, steps) && i < |run|
  {
    exists k, m :: 0 <= k < m < i && Tears(run[k], steps[k], p) && Publishes(run[m], steps[m], p).Some?
  }

  /** The last thing published in Pod `p`'s daemon before moment `i` is `g`. */
  ghost predicate LastBind(run: seq<Cluster>, steps: seq<Step>, i: nat, p: string, g: Grant)
    requires Run(run, steps) && i < |run|
  {
    exists k :: 0 <= k < i && PublishedLast(run, steps, i, p, g, k)
  }

  ghost predicate PublishedLast(run: seq<Cluster>, steps: seq<Step>, i: nat, p: string, g: Grant, k: nat)
    requires Run(run, steps) && k < i < |run|
  {
    && Publishes(run[k], steps[k], p) == Some(g)
    && forall m :: k < m < i ==> Publishes(run[m], steps[m], p).None?
  }

  lemma StillLast(run: seq<Cluster>, steps: seq<Step>, i: nat, p: string, g: Grant, k: nat)
    requires Run(run, steps) && k < i && i + 1 < |run|
    ensures PublishedLast(run, steps, i + 1, p, g, k)
       <==> Publishes(run[i], steps[i], p).None? && PublishedLast(run, steps, i, p, g, k)
  {
    hide Enabled, Apply, Publishes;
    if PublishedLast(run, steps, i + 1, p, g, k) {
      assert forall m :: k < m < i + 1 ==> Publishes(run[m], steps[m], p).None?;
      assert Publishes(run[i], steps[i], p).None?;
    }
  }

  /** One more step, in the terms of the three predicates above. */
  lemma OneStepOn(run: seq<Cluster>, steps: seq<Step>, i: nat, p: string, g: Grant)
    requires Run(run, steps) && i + 1 < |run|
    ensures TornDown(run, steps, i + 1, p) <==> TornDown(run, steps, i, p) || Tears(run[i], steps[i], p)
    ensures BoundAfterTeardown(run, steps, i + 1, p)
       <==> BoundAfterTeardown(run, steps, i, p)
            || (TornDown(run, steps, i, p) && Publishes(run[i], steps[i], p).Some?)
    ensures LastBind(run, steps, i + 1, p, g)
       <==> if Publishes(run[i], steps[i], p).Some? then Publishes(run[i], steps[i], p) == Some(g)
            else LastBind(run, steps, i, p, g)
  {
    hide Enabled, Apply, Publishes, Tears;
    var now := Publishes(run[i], steps[i], p);
    assert PublishedLast(run, steps, i + 1, p, g, i) <==> now == Some(g);
    if k :| 0 <= k < i && PublishedLast(run, steps, i, p, g, k) {
      StillLast(run, steps, i, p, g, k);
    }
    var j := i + 1;
    if k :| 0 <= k < i && PublishedLast(run, steps, j, p, g, k) {
      StillLast(run, steps, i, p, g, k);
    }
  }

  /** A daemon's fields, told from the run alone. */
  ghost predicate AsTold(run: seq<Cluster>, steps: seq<Step>, i: nat, p: string, g: Grant, d: Daemon)
    requires Run(run, steps) && i < |run|
  {
    && (d.expired <==> TornDown(run, steps, i, p))
    && (BoundAfterTeardown(run, steps, i, p) ==> d.expired && d.sb.Some?)
    && (d.expired && !BoundAfterTeardown(run, steps, i, p) ==> d.sb.None?)
    && (!d.expired ==> (d.sb == Some(g) <==> LastBind(run, steps, i, p, g)))
  }

  lemma {:induction false} DaemonIsAsTold(run: seq<Cluster>, steps: seq<Step>, i: nat, p: string, g: Grant)
    requires Run(run, steps) && i < |run|
    ensures AsTold(run, steps, i, p, g, if p in run[i].daemons then run[i].daemons[p] else FRESH)
  {
    hide Inv, Enabled, Apply, Publishes, Tears, SpoilsPod;
    if i > 0 {
      hide TornDown, BoundAfterTeardown, LastBind;
      DaemonIsAsTold(run, steps, i - 1, p, g);
      RunKeepsInv(run, steps, i - 1);
      OneStepOn(run, steps, i - 1, p, g);
      StepDaemons(run[i - 1], steps[i - 1], p);
    }
  }

  /** Whom a daemon serves depends on the order of publishing and teardown, and on nothing else. */
  lemma ServesIff(run: seq<Cluster>, steps: seq<Step>, i: nat, p: string, g: Grant)
    requires Run(run, steps) && i < |run| && p in run[i].daemons
    ensures Serves(run[i].daemons[p], g)
       <==> !BoundAfterTeardown(run, steps, i, p) && (TornDown(run, steps, i, p) || LastBind(run, steps, i, p, g))
  {
    hide Run, TornDown, BoundAfterTeardown, LastBind;
    DaemonIsAsTold(run, steps, i, p, g);
  }

  // ---------------------------------------------------- Running matches the daemon

  /** A request left behind has taken effect in Pod `p` where it was not meant to. */
  ghost predicate SpoiledBefore(run: seq<Cluster>, steps: seq<Step>, i: nat, p: string)
    requires Run(run, steps) && i < |run|
  {
    exists k :: 0 <= k < i && SpoilsPod(run[k], steps[k], p)
  }

  lemma {:induction false} SpoiledIsRecorded(run: seq<Cluster>, steps: seq<Step>, i: nat, p: string)
    requires Run(run, steps) && i < |run|
    ensures p in run[i].spoiled <==> SpoiledBefore(run, steps, i, p)
  {
    hide Inv, Enabled, Apply, Publishes, Tears, SpoilsPod, DaemonAfter;
    if i > 0 {
      SpoiledIsRecorded(run, steps, i - 1, p);
      RunKeepsInv(run, steps, i - 1);
      StepDaemons(run[i - 1], steps[i - 1], p);
    }
  }

  /**
  Whenever a stored version of a Sandbox is Running, the daemon of the Pod it names
  either is bound to exactly that Sandbox and that token, or has been torn down for good,
  and a data-plane token it accepts is the one in the Sandbox's status: unless a request
  that the controller had given up on took effect in that Pod.
  */
  lemma RunningMatchesDaemon(run: seq<Cluster>, steps: seq<Step>, i: nat, id: string, k: nat)
    requires Run(run, steps) && i < |run|
    requires id in run[i].boxes && k < |run[i].boxes[id]| && run[i].boxes[id][k].phase == Running
    ensures run[i].boxes[id][k].podName.Some? && run[i].boxes[id][k].podName.value in run[i].daemons
    ensures var b := run[i].boxes[id][k]; var d := run[i].daemons[b.podName.value];
            !SpoiledBefore(run, steps, i, b.podName.value) ==>
              && (d.sb.Some? ==> d.sb.value == Grant(id, b.token) && !d.expired)
              && (d.sb.None? ==> d.expired)
              && (forall t :: Authorised(d, t) ==> t == b.token)
  {
    RunKeepsInv(run, steps, i);
    BoxFact(run[i], id, k);
    hide Inv, SpoiledBefore;
    SpoiledIsRecorded(run, steps, i, run[i].boxes[id][k].podName.value);
  }

  /**
  With or without such requests, exactly when that is so: nothing was published in the Pod
  after a teardown, and unless it was torn down, nothing after this Sandbox's own grant.
  */
  lemma RunningMatchesIff(run: seq<Cluster>, steps: seq<Step>, i: nat, id: string, k: nat)
    requires Run(run, steps) && i < |run|
    requires id in run[i].boxes && k < |run[i].boxes[id]| && run[i].boxes[id][k].phase == Running
    ensures var b := run[i].boxes[id][k];
            && b.podName.Some? && b.podName.value in run[i].daemons
            && var p := b.podName.value;
               Serves(run[i].daemons[p], Grant(id, b.token))
               <==> && !BoundAfterTeardown(run, steps, i, p)
                    && (TornDown(run, steps, i, p) || LastBind(run, steps, i, p, Grant(id, b.token)))
  {
    RunningMatchesDaemon(run, steps, i, id, k);
    hide Run, BoundAfterTeardown, TornDown, LastBind, SpoiledBefore, Serves;
    var b := run[i].boxes[id][k];
    ServesIff(run, steps, i, b.podName.value, Grant(id, b.token));
  }

  /**
  Which token opens a Pod's data plane: while it has not been torn down, the one published last and
  no other, and never an empty one; after that, only one that was published too late.
  */
  lemma TokenOpensIff(run: seq<Cluster>, steps: seq<Step>, i: nat, p: string, t: string)
    requires Run(run, steps) && i < |run| && p in run[i].daemons
    ensures !BoundAfterTeardown(run, steps, i, p) ==>
              (Authorised(run[i].daemons[p], t)
               <==> t != "" && !TornDown(run, steps, i, p) && exists id :: LastBind(run, steps, i, p, Grant(id, t)))
  {
    hide Run, TornDown, BoundAfterTeardown, LastBind;
    var d := run[i].daemons[p];
    forall id ensures AsTold(run, steps, i, p, Grant(id, t), d) {
      DaemonIsAsTold(run, steps, i, p, Grant(id, t));
    }
    if Authorised(d, t) && !BoundAfterTeardown(run, steps, i, p) {
      assert AsTold(run, steps, i, p, Grant(d.sb.value.id, t), d);
      assert d.sb == Some(Grant(d.sb.value.id, t));
    }
  }

  /** A bind for Sandbox `id` has passed its check and has not published or failed yet. */
  ghost predicate LaunchingIn(c: Cluster, id: string) {
    id in c.workers && c.workers[id].Launching?
  }

  /**
  The two locked sections of a bind are never interleaved with another reconcile's bind of the
  same Pod, although nothing but the Pod's ownership keeps them apart. While a handler is between
  them, what it checked still holds exactly if no request left behind has taken effect there.
  */
  lemma BindsDoNotOverlap(run: seq<Cluster>, steps: seq<Step>, i: nat, a: string)
    requires Run(run, steps) && i < |run| && LaunchingIn(run[i], a)
    ensures forall b | LaunchingIn(run[i], b) :: run[i].workers[a].pod == run[i].workers[b].pod ==> a == b
    ensures var p := run[i].workers[a].pod;
            p in run[i].daemons && (run[i].daemons[p] == FRESH <==> !SpoiledBefore(run, steps, i, p))
  {
    var c := run[i];
    var p := c.workers[a].pod;
    RunKeepsInv(run, steps, i);
    WorkerFact(c, a);
    DaemonFact(c, p);
    NoLaunchElsewhere(c, a, p);
    hide Inv, SpoiledBefore;
    SpoiledIsRecorded(run, steps, i, p);
  }

  /** No daemon is both bound and expired, except by a publish that came after its teardown. */
  lemma BoundAndExpiredIff(run: seq<Cluster>, steps: seq<Step>, i: nat, p: string)
    requires Run(run, steps) && i < |run| && p in run[i].daemons
    ensures run[i].daemons[p].sb.Some? && run[i].daemons[p].expired <==> BoundAfterTeardown(run, steps, i, p)
    ensures BoundAfterTeardown(run, steps, i, p) ==> SpoiledBefore(run, steps, i, p)
  {
    RunKeepsInv(run, steps, i);
    DaemonFact(run[i], p);
    hide Inv, SpoiledBefore, TornDown, BoundAfterTeardown, LastBind;
    SpoiledIsRecorded(run, steps, i, p);
    DaemonIsAsTold(run, steps, i, p, Grant("", ""));
  }

  // ------------------------------------------------------------- terminal phases

  /** Pod `p` has been deleted or removed before moment `i`. */
  ghost predicate DeletedBefore(run: seq<Cluster>, steps: seq<Step>, i: nat, p: string)
    requires Run(run, steps) && i < |run|
  {
    exists k :: 0 <= k < i && Deletes(run[k], steps[k], p)
  }

  lemma {:induction false} LeavingIff(run: seq<Cluster>, steps: seq<Step>, i: nat, p: string)
    requires Run(run, steps) && i < |run|
    ensures Leaving(run[i], p) <==> DeletedBefore(run, steps, i, p)
  {
    hide Inv, Enabled, Apply, Deletes;
    if i > 0 {
      hide Leaving;
      LeavingIff(run, steps, i - 1, p);
      RunKeepsInv(run, steps, i - 1);
      StepLeaves(run[i - 1], steps[i - 1], p);
    }
  }

  /** The step writes the terminal phase Failed or Expired of Sandbox `id`, and the write is accepted. */
  ghost predicate TerminalWrite(c: Cluster, s: Step, id: string) {
    && Enabled(c, s)
    && (s == Serving(id, RecordFailed) || (s == Ending(id, Close) && c.workers[id].aim == ToExpired))
    && BoxFresh(c, id, c.workers[id].rv)
  }

  lemma TerminalEffect(c: Cluster, s: Step, id: string)
    requires TerminalWrite(c, s, id)
    ensures var w, d := c.workers[id], Apply(c, s);
            && (w.Failing? || w.Closing?) && d.pods == c.pods && d.goneP == c.goneP
            && HasBox(d, id) && Last(d.boxes[id]).podName == w.box.podName
            && Last(d.boxes[id]).phase == if s.Serving? then Failed else Expired
  {
  }

  /**
  A Sandbox that turns Failed or Expired still holds the Pod it names exactly when this reconcile
  had no deletion of it accepted and the Pod was not on its way out already; that is, when no step
  of the run has deleted or removed it.
  */
  lemma TerminalHoldsIff(run: seq<Cluster>, steps: seq<Step>, i: nat, id: string, p: string)
    requires Run(run, steps) && i < |steps| && TerminalWrite(run[i], steps[i], id)
    requires run[i].workers[id].box.podName == Some(p)
    ensures Last(run[i + 1].boxes[id]).podName == Some(p)
    ensures Last(run[i + 1].boxes[id]).phase == Failed || Last(run[i + 1].boxes[id]).phase == Expired
    ensures Holds(run[i + 1], id, p) <==> !run[i].workers[id].deleted && !Leaving(run[i], p)
    ensures Holds(run[i + 1], id, p) <==> !DeletedBefore(run, steps, i, p)
  {
    TerminalEffect(run[i], steps[i], id);
    RunKeepsInv(run, steps, i);
    WorkerFact(run[i], id);
    LeavingIff(run, steps, i, p);
    hide Inv, DeletedBefore, Run, Apply, Enabled;
  }

  /** The step lets go of a Sandbox that is being deleted: its finalizer comes off. */
  ghost predicate FinalWrite(c: Cluster, s: Step, id: string) {
    && Enabled(c, s) && s == Ending(id, Close) && c.workers[id].aim == ToFinalized
    && BoxFresh(c, id, c.workers[id].rv)
  }

  /** And a Sandbox that goes leaves the Pod it names behind under the same condition. */
  lemma FinalizedHoldsIff(run: seq<Cluster>, steps: seq<Step>, i: nat, id: string, p: string)
    requires Run(run, steps) && i < |steps| && FinalWrite(run[i], steps[i], id)
    requires run[i].workers[id].box.podName == Some(p)
    ensures id in run[i + 1].goneB
    ensures Holds(run[i + 1], id, p) <==> !run[i].workers[id].deleted && !Leaving(run[i], p)
    ensures Holds(run[i + 1], id, p) <==> !DeletedBefore(run, steps, i, p)
  {
    FinalEffect(run[i], steps[i], id);
    RunKeepsInv(run, steps, i);
    WorkerFact(run[i], id);
    LeavingIff(run, steps, i, p);
    hide Inv, DeletedBefore, Run, Apply, Enabled;
  }

  lemma FinalEffect(c: Cluster, s: Step, id: string)
    requires FinalWrite(c, s, id)
    ensures var w, d := c.workers[id], Apply(c, s);
            w.Closing? && d.pods == c.pods && d.goneP == c.goneP && d.goneB == c.goneB + {id}
  {
  }

  /** The same of any Pod of a Sandbox, named by it or not, at any moment. */
  lemma HeldUntilDeleted(run: seq<Cluster>, steps: seq<Step>, i: nat, id: string, p: string)
    requires Run(run, steps) && i < |run| && Owns(run[i], id, p)
    ensures Holds(run[i], id, p) <==> !DeletedBefore(run, steps, i, p)
  {
    LeavingIff(run, steps, i, p);
  }

  /** And a Pod that has left is never held again. */
  lemma LeavesForGood(run: seq<Cluster>, steps: seq<Step>, i: nat, j: nat, id: string, p: string)
    requires Run(run, steps) && i <= j < |run| && Leaving(run[i], p)
    ensures !Holds(run[j], id, p)
  {
    LeavingIff(run, steps, i, p);
    LeavingIff(run, steps, j, p);
  }
}
