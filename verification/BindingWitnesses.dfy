/** Runs of the binding protocol that show what its theorems do not promise, and that it gets somewhere. */
module BindingWitnesses {
  import opened Options
  import opened Execd
  import opened Binding
  import opened BindingSafety
  import opened BindingRuns

  ghost predicate Reachable(c: Cluster) {
    exists run, steps :: Run(run, steps) && Last(run) == c
  }

  lemma EmptyIsReachable()
    ensures Reachable(EMPTY)
  {
    assert Run([EMPTY], []) && Last([EMPTY]) == EMPTY;
  }

  lemma RunGoesOn(run: seq<Cluster>, steps: seq<Step>, s: Step)
    requires Run(run, steps) && Enabled(Last(run), s)
    ensures Run(run + [Apply(Last(run), s)], steps + [s])
  {
    hide Enabled, Apply;
    var run', steps' := run + [Apply(Last(run), s)], steps + [s];
    forall i | 0 <= i < |steps'|
      ensures Enabled(run'[i], steps'[i]) && run'[i + 1] == Apply(run'[i], steps'[i])
    {
      if i < |steps| {
        assert run'[i] == run[i] && run'[i + 1] == run[i + 1] && steps'[i] == steps[i];
      }
    }
  }

  /** From a reachable state, any enabled step leads to a reachable state. */
  lemma Go(c: Cluster, s: Step) returns (d: Cluster)
    requires Reachable(c) && Enabled(c, s)
    ensures Reachable(d) && d == Apply(c, s)
  {
    hide Enabled, Apply;
    var run, steps :| Run(run, steps) && Last(run) == c;
    d := Apply(c, s);
    RunGoesOn(run, steps, s);
    hide Run;
    assert Last(run + [d]) == d;
  }

  // ---------------------------------------------------------------- the scene

  const COLD := Pod(Bound, Some("s"), BoxOwner("s"), None, false, false, false)
  const PENDING := Box(Pending, None, "", true, false)
  const BINDING := Box(InBinding, Some("p"), "", true, false)

  function RunningWith(token: string): Box {
    Box(Running, Some("p"), token, true, false)
  }

  /** One Sandbox "s", at its `n`-th version, with one Pod "p". */
  ghost predicate Scene(c: Cluster, pod: seq<Pod>, n: nat, box: Box, w: Worker, d: Daemon, strays: multiset<Stray>) {
    && c.pods == map["p" := pod] && c.daemons == map["p" := d] && c.workers == map["s" := w]
    && c.goneP == {} && c.goneB == {} && c.strays == strays
    && c.boxes.Keys == {"s"} && |c.boxes["s"]| == n && n > 0 && Last(c.boxes["s"]) == box
  }

  /** A Sandbox is created in a cluster without any, and its reconcile gets its finalizer on. */
  lemma SearchBegins(c0: Cluster) returns (c: Cluster)
    requires Reachable(c0) && c0.boxes == map[] && c0.workers == map[] && c0.goneB == {}
    ensures Reachable(c) && c == c0.(boxes := c.boxes, workers := map["s" := Holding(1, PENDING)])
    ensures c.boxes.Keys == {"s"} && |c.boxes["s"]| == 2 && c.boxes["s"][1] == PENDING
  {
    hide Reachable;
    c := Go(c0, Around(CreateBox("s")));
    c := Go(c, Acquiring("s", Begin(0)));
    c := Go(c, Acquiring("s", AddFinalizer(false)));
    assert c.workers == map["s" := Holding(1, PENDING)];
  }

  lemma SandboxSearches(c0: Cluster) returns (c: Cluster)
    requires Reachable(c0) && c0.boxes == map[] && c0.workers == map[] && c0.goneB == {}
    ensures Reachable(c) && c == c0.(boxes := c.boxes, workers := map["s" := Claiming(1, PENDING)])
    ensures c.boxes.Keys == {"s"} && |c.boxes["s"]| == 2 && c.boxes["s"][1] == PENDING
  {
    hide Reachable;
    c := SearchBegins(c0);
    c := Go(c, Acquiring("s", Acquire(true)));
    c := Go(c, Acquiring("s", FindClaimed(map[], None)));
    assert c.workers == map["s" := Claiming(1, PENDING)];
  }

  lemma LookingForAPod() returns (c: Cluster)
    ensures Reachable(c) && c.pods == map[] && c.daemons == map[] && c.goneP == {} && c.goneB == {}
    ensures c.boxes.Keys == {"s"} && |c.boxes["s"]| == 2 && c.boxes["s"][1] == PENDING
    ensures c.workers == map["s" := Claiming(1, PENDING)] && c.strays == multiset{}
  {
    EmptyIsReachable();
    hide Reachable;
    c := SandboxSearches(EMPTY);
  }

  /** A cold Pod is claimed, and the status write that records it has lost its race. */
  lemma ClaimCanBeLost() returns (c: Cluster)
    ensures Reachable(c) && Scene(c, [COLD], 3, PENDING, Resting, FRESH, multiset{})
  {
    hide Reachable;
    c := LookingForAPod();
    c := Go(c, Acquiring("s", CreateCold("p", false)));
    c := Go(c, Around(TouchBox("s")));
    c := Go(c, Acquiring("s", RecordClaim));
  }

  lemma SearchesAgain() returns (c: Cluster)
    ensures Reachable(c) && Scene(c, [COLD], 3, PENDING, Searching(2, PENDING), FRESH, multiset{})
  {
    hide Reachable;
    c := ClaimCanBeLost();
    c := Go(c, Acquiring("s", Begin(2)));
    c := Go(c, Acquiring("s", Acquire(true)));
  }

  /** The assumption on the list call is needed: a list that misses the first claim takes a second Pod. */
  lemma StaleListTakesTwoPods() returns (c: Cluster)
    ensures Reachable(c) && Holds(c, "s", "p") && Holds(c, "s", "q")
  {
    hide Reachable;
    c := SearchesAgain();
    c := Go(c, Acquiring("s", FindClaimed(map[], None)));
    c := Go(c, Acquiring("s", CreateCold("q", false)));
  }

  /** With the claim listed, the Sandbox records the Pod it already has. */
  lemma LostClaimIsAdopted() returns (c: Cluster)
    ensures Reachable(c) && Scene(c, [COLD], 4, BINDING, Resting, FRESH, multiset{})
  {
    hide Reachable;
    c := SearchesAgain();
    c := Go(c, Acquiring("s", FindClaimed(map["p" := 0], Some("p"))));
    c := Go(c, Acquiring("s", RecordClaim));
  }

  // ------------------------------------------------------------------ binding

  const READY := [COLD, COLD.(ready := true)]

  lemma PodIsInspected(c: Cluster, strays: multiset<Stray>) returns (d: Cluster)
    requires Reachable(c) && Scene(c, READY, 4, BINDING, Resting, FRESH, strays)
    ensures Reachable(d) && Scene(d, READY, 4, BINDING, Inspecting(3, BINDING, "p"), FRESH, strays)
  {
    hide Reachable;
    d := Go(c, Acquiring("s", Begin(3)));
    d := Go(d, Serving("s", FetchPod(Some(1))));
  }

  lemma PodIsReady() returns (c: Cluster)
    ensures Reachable(c) && Scene(c, READY, 4, BINDING, Inspecting(3, BINDING, "p"), FRESH, multiset{})
  {
    hide Reachable;
    c := LostClaimIsAdopted();
    c := Go(c, Around(KubeletReport("p", true, false)));
    assert c.pods["p"] == READY;
    c := PodIsInspected(c, multiset{});
  }

  lemma BindLaunches(c: Cluster, token: string, strays: multiset<Stray>) returns (d: Cluster)
    requires Reachable(c) && Scene(c, READY, 4, BINDING, Inspecting(3, BINDING, "p"), FRESH, strays) && token != ""
    ensures Reachable(d) && Scene(d, READY, 4, BINDING, Launching(3, BINDING, "p", token), FRESH, strays)
  {
    hide Reachable;
    d := Go(c, Serving("s", SendBind(token)));
    d := Go(d, Serving("s", DaemonChecks(false)));
  }

  lemma BindRuns(c: Cluster, token: string, strays: multiset<Stray>) returns (d: Cluster)
    requires Reachable(c) && Scene(c, READY, 4, BINDING, Inspecting(3, BINDING, "p"), FRESH, strays) && token != ""
    ensures Reachable(d)
    ensures Scene(d, READY, 5, RunningWith(token), Resting, Daemon(Some(Grant("s", token)), false), strays)
  {
    hide Reachable;
    d := BindLaunches(c, token, strays);
    d := Go(d, Serving("s", DaemonPublishes(false, false)));
    d := Go(d, Serving("s", RecordRunning));
  }

  /** The adopted Pod goes on to run: Running is reached, with the token the daemon was given. */
  lemma AdoptedPodRuns() returns (c: Cluster)
    ensures Reachable(c)
    ensures Scene(c, READY, 5, RunningWith("t"), Resting, Daemon(Some(Grant("s", "t")), false), multiset{})
  {
    hide Reachable, Scene;
    c := PodIsReady();
    c := BindRuns(c, "t", multiset{});
  }

  /**
  A bind call that outlives its reconcile: the Sandbox is bound again and Running, and then the
  first handler publishes. The Pod now honours the first token, and not the one in the status.
  */
  lemma LatePublishBreaksIt() returns (c: Cluster)
    ensures Reachable(c) && HasBox(c, "s") && Last(c.boxes["s"]) == RunningWith("u") && "p" in c.daemons
    ensures Authorised(c.daemons["p"], "t") && !Authorised(c.daemons["p"], "u")
  {
    hide Reachable;
    var call := BindCall("p", Grant("s", "t"), true);
    c := PodIsReady();
    c := BindLaunches(c, "t", multiset{});
    c := Go(c, Ending("s", Abandon));
    assert c.strays == multiset{call};
    c := PodIsInspected(c, multiset{call});
    c := BindRuns(c, "u", multiset{call});
    c := Go(c, Straying(LatePublish(call)));
  }

  // ---------------------------------------------------------- terminal phases

  /** A bind refused with no deletion accepted, as when the template is gone: Failed, and the Pod is still held. */
  lemma FailedCanHold() returns (c: Cluster)
    ensures Reachable(c) && HasBox(c, "s") && Last(c.boxes["s"]).phase == Failed
    ensures Last(c.boxes["s"]).podName == Some("p") && Holds(c, "s", "p")
  {
    hide Reachable;
    c := PodIsReady();
    c := Go(c, Serving("s", Refuse(false)));
    c := Go(c, Serving("s", RecordFailed));
  }

  /** A cold create whose reply is lost: Failed, and a Pod is held that the Sandbox does not even name. */
  lemma FailedCanHoldUnnamed() returns (c: Cluster)
    ensures Reachable(c) && HasBox(c, "s") && Last(c.boxes["s"]).phase == Failed
    ensures Last(c.boxes["s"]).podName == None && Holds(c, "s", "p")
  {
    hide Reachable;
    c := LookingForAPod();
    c := Go(c, Acquiring("s", CreateCold("p", true)));
    c := Go(c, Serving("s", RecordFailed));
  }

  lemma TeardownStarts() returns (c: Cluster)
    ensures Reachable(c)
    ensures Scene(c, READY, 5, RunningWith("t"), Stopping(4, RunningWith("t"), ToExpired),
                  Daemon(Some(Grant("s", "t")), false), multiset{})
  {
    hide Reachable;
    c := AdoptedPodRuns();
    c := Go(c, Acquiring("s", Begin(4)));
    c := Go(c, Ending("s", StartTeardown));
  }

  /** A cached NotFound in deletePod: Expired, and the Pod is still held and bound. */
  lemma ExpiredCanHold() returns (c: Cluster)
    ensures Reachable(c) && HasBox(c, "s") && Last(c.boxes["s"]).phase == Expired
    ensures Last(c.boxes["s"]).podName == Some("p") && Holds(c, "s", "p")
    ensures "p" in c.daemons && c.daemons["p"] == Daemon(Some(Grant("s", "t")), false)
  {
    hide Reachable;
    c := TeardownStarts();
    c := Go(c, Ending("s", Unbind(None, false)));
    c := Go(c, Ending("s", Close));
  }

  // ------------------------------------------------------- the ordinary course

  const IDLE := Pod(Idle, None, PoolOwner("w"), None, false, false, false)
  const WARM := IDLE.(ready := true, tier := Some("t"))

  lemma WarmPodWaits() returns (c: Cluster)
    ensures Reachable(c) && c.pods == map["p" := [IDLE, IDLE.(ready := true), WARM]] && c.daemons == map["p" := FRESH]
    ensures c.goneP == {} && c.goneB == {} && c.boxes == map[] && c.workers == map[] && c.strays == multiset{}
  {
    EmptyIsReachable();
    hide Reachable;
    c := Go(EMPTY, Around(PoolCreate("p", "w")));
    c := Go(c, Around(KubeletReport("p", true, false)));
    c := Go(c, Around(LabelTier("p", 1, "t")));
    assert c.pods["p"] == [IDLE, IDLE.(ready := true), WARM];
  }

  /** A warm Pod, made and measured by the pool, is claimed and recorded. */
  lemma WarmPodIsClaimed() returns (c: Cluster)
    ensures Reachable(c) && HasBox(c, "s") && Last(c.boxes["s"]) == BINDING
    ensures Holds(c, "s", "p") && c.pods["p"][0] == IDLE && Last(c.pods["p"]) == Claimed(WARM, "s")
  {
    hide Reachable;
    c := WarmPodWaits();
    c := SandboxSearches(c);
    c := Go(c, Acquiring("s", ClaimWarm("p", 2, false)));
    c := Go(c, Acquiring("s", RecordClaim));
  }

  /** A Running Sandbox expires: its daemon is torn down, its Pod deleted, its token gone. */
  lemma ExpiryTearsDown() returns (c: Cluster)
    ensures Reachable(c) && HasBox(c, "s") && Last(c.boxes["s"]) == Box(Expired, Some("p"), "", true, false)
    ensures "p" in c.daemons && c.daemons["p"] == Daemon(None, true) && Leaving(c, "p") && !Holds(c, "s", "p")
  {
    hide Reachable;
    c := TeardownStarts();
    c := Go(c, Ending("s", Unbind(Some(1), true)));
    c := Go(c, Ending("s", RemovePod(true)));
    c := Go(c, Ending("s", Close));
  }

  lemma DeletionIsSeen() returns (c: Cluster)
    ensures Reachable(c)
    ensures Scene(c, READY, 6, RunningWith("t").(deleting := true), Stopping(5, RunningWith("t").(deleting := true), ToFinalized),
                  Daemon(Some(Grant("s", "t")), false), multiset{})
  {
    hide Reachable;
    c := AdoptedPodRuns();
    c := Go(c, Around(DeleteBox("s")));
    c := Go(c, Acquiring("s", Begin(5)));
    c := Go(c, Ending("s", StartTeardown));
  }

  /** A deleted Sandbox goes only after its Pod has been dealt with. */
  lemma DeletionFinalizes() returns (c: Cluster)
    ensures Reachable(c) && "s" in c.goneB && Leaving(c, "p")
    ensures "p" in c.daemons && c.daemons["p"] == Daemon(None, true)
  {
    hide Reachable;
    c := DeletionIsSeen();
    c := Go(c, Ending("s", Unbind(Some(1), true)));
    c := Go(c, Ending("s", RemovePod(true)));
    c := Go(c, Ending("s", Close));
  }

  /** A bind call that times out fails its Sandbox and has the Pod deleted, with the call left behind. */
  lemma TimedOutBindFails() returns (c: Cluster)
    ensures Reachable(c) && HasBox(c, "s") && Last(c.boxes["s"]).phase == Failed && Leaving(c, "p")
    ensures BindCall("p", Grant("s", "t"), true) in c.strays
  {
    hide Reachable;
    c := PodIsReady();
    c := BindLaunches(c, "t", multiset{});
    c := Go(c, Serving("s", TimesOut(true)));
    c := Go(c, Serving("s", RecordFailed));
  }
}
