/**
The supply pass of the warm pool (pkg/controller/pool_controller.go): how each Pod of a
snapshot is classified, what a pass deletes and creates, and where repeated passes lead.
*/
module Pool {
  import opened Options

  datatype Label = Idle | Bound | Draining

  /** One Pod as the pool's list call shows it; `ended` is phase Failed or Succeeded, `age` in seconds. */
  datatype Pod = Pod(
    name: string,
    stateLabel: Label,
    sandboxId: string,
    deleting: bool,
    ended: bool,
    ready: bool,
    age: int,
    hash: string,
    tier: Option<string>)

  /**
  The pool's own settings, with what it reads besides Pods: the template's current hash, the
  tiers at or above its floor, the Sandboxes that exist, and what a probe of each Pod answers.
  */
  datatype Pool = Pool(
    replicas: int,
    minReplicas: int,
    maxReplicas: int,
    maxSurge: int,
    notReadyTimeout: int,
    idleTTL: int,
    hash: string,
    floor: set<string>,
    boxes: set<string>,
    probe: map<string, string>)

  datatype Class =
    | Leaving      // already being deleted
    | Serving      // bound, and its Sandbox exists or is not named
    | Orphan       // bound to a Sandbox that is gone
    | Drained
    | Stuck
    | Starting     // not ready yet, or not measured yet
    | Stale
    | TooOld
    | Warm

  function Timeout(c: Pool): int {
    if c.notReadyTimeout <= 0 then 300 else c.notReadyTimeout
  }

  function Surge(c: Pool): nat {
    if c.maxSurge <= 0 then 3 else c.maxSurge
  }

  predicate SandboxMissing(c: Pool, p: Pod) {
    p.sandboxId != "" && p.sandboxId !in c.boxes
  }

  function ClassOf(c: Pool, p: Pod): Class {
    if p.deleting then Leaving
    else if p.stateLabel == Bound then (if SandboxMissing(c, p) then Orphan else Serving)
    else if p.stateLabel == Draining then Drained
    else if p.ended then Stuck
    else if !p.ready then (if p.age > Timeout(c) then Stuck else Starting)
    else if p.hash != c.hash then Stale
    else if c.idleTTL > 0 && p.age > c.idleTTL then TooOld
    else if p.tier.None? then
      if p.name !in c.probe then Starting
      else if c.probe[p.name] !in c.floor then Stuck
      else Warm
    else Warm
  }

  /** What sets a Pod apart that nobody holds: none of the earlier tests of classify applies to it. */
  predicate Free(p: Pod) {
    !p.deleting && p.stateLabel == Idle && !p.ended
  }

  predicate Aged(c: Pool, p: Pod) {
    c.idleTTL > 0 && p.age > c.idleTTL
  }

  /** A Pod without a tier label whose probe has answered, below the template's floor. */
  predicate BelowFloor(c: Pool, p: Pod) {
    p.tier.None? && p.name in c.probe && c.probe[p.name] !in c.floor
  }

  /**
  What each class means: bound Pods are told apart by their Sandbox alone; of the free ones, those
  not ready by their grace period, those ready by hash, age and tier, in this order.
  */
  lemma ClassMeans(c: Pool, p: Pod)
    ensures ClassOf(c, p) == Leaving <==> p.deleting
    ensures ClassOf(c, p) == Orphan <==> !p.deleting && p.stateLabel == Bound && p.sandboxId != "" && p.sandboxId !in c.boxes
    ensures ClassOf(c, p) == Serving <==> !p.deleting && p.stateLabel == Bound && (p.sandboxId == "" || p.sandboxId in c.boxes)
    ensures ClassOf(c, p) == Drained <==> !p.deleting && p.stateLabel == Draining
    ensures ClassOf(c, p) == Stale <==> Free(p) && p.ready && p.hash != c.hash
    ensures ClassOf(c, p) == TooOld <==> Free(p) && p.ready && p.hash == c.hash && Aged(c, p)
    ensures ClassOf(c, p) == Warm
       <==> && Free(p) && p.ready && p.hash == c.hash && !Aged(c, p)
            && (p.tier.Some? || (p.name in c.probe && c.probe[p.name] in c.floor))
    ensures ClassOf(c, p) == Starting
       <==> || (Free(p) && !p.ready && p.age <= (if c.notReadyTimeout > 0 then c.notReadyTimeout else 300))
            || (Free(p) && p.ready && p.hash == c.hash && !Aged(c, p) && p.tier.None? && p.name !in c.probe)
    ensures ClassOf(c, p) == Stuck
       <==> || (!p.deleting && p.stateLabel == Idle && p.ended)
            || (Free(p) && !p.ready && p.age > (if c.notReadyTimeout > 0 then c.notReadyTimeout else 300))
            || (Free(p) && p.ready && p.hash == c.hash && !Aged(c, p) && BelowFloor(c, p))
  {
  }

  /** desiredReplicas: the wanted size between its bounds; no ceiling when it is not positive. */
  function Target(replicas: int, min: int, max: int): (want: nat)
    ensures max > 0 ==> want <= max
    ensures max <= 0 || min <= max ==> min <= want
    ensures 0 <= replicas && min <= replicas && (max <= 0 || replicas <= max) ==> want == replicas
    ensures want == 0 || want == replicas || want == min || want == max
  {
    var w := if replicas < min then min else replicas;
    var w := if max > 0 && w > max then max else w;
    if w < 0 then 0 else w
  }

  function Desired(c: Pool): nat {
    Target(c.replicas, c.minReplicas, c.maxReplicas)
  }

  // -------------------------------------------------------------- classification

  /** The Pods of one class, in list order. */
  function Pick(c: Pool, pods: seq<Pod>, k: Class): seq<Pod> {
    if pods == [] then []
    else
      var n := |pods| - 1;
      Pick(c, pods[..n], k) + (if ClassOf(c, pods[n]) == k then [pods[n]] else [])
  }

  datatype PoolState = PoolState(
    idleCurrent: seq<Pod>,
    pending: seq<Pod>,
    stale: seq<Pod>,
    stuck: seq<Pod>,
    expired: seq<Pod>,
    orphans: seq<Pod>,
    bound: nat)

  /** Taking in one more Pod adds it to its own class. */
  lemma PickNext(c: Pool, pods: seq<Pod>, i: nat)
    requires i < |pods|
    ensures forall k :: Pick(c, pods[..i + 1], k)
                     == Pick(c, pods[..i], k) + if ClassOf(c, pods[i]) == k then [pods[i]] else []
  {
    hide ClassOf;
    assert pods[..i + 1][..i] == pods[..i];
  }

  /** Every slice that classify fills is exactly one class of the snapshot, in order. */
  method Classify(c: Pool, pods: seq<Pod>) returns (st: PoolState)
    ensures st.idleCurrent == Pick(c, pods, Warm) && st.pending == Pick(c, pods, Starting)
    ensures st.stale == Pick(c, pods, Stale) && st.stuck == Pick(c, pods, Stuck)
    ensures st.expired == Pick(c, pods, TooOld) && st.orphans == Pick(c, pods, Orphan)
    ensures st.bound == |Pick(c, pods, Serving)| + |Pick(c, pods, Orphan)|
  {
    st := PoolState([], [], [], [], [], [], 0);
    assert forall k :: Pick(c, pods[..0], k) == [];
    hide Pick;
    for i := 0 to |pods|
      invariant st.idleCurrent == Pick(c, pods[..i], Warm) && st.pending == Pick(c, pods[..i], Starting)
      invariant st.stale == Pick(c, pods[..i], Stale) && st.stuck == Pick(c, pods[..i], Stuck)
      invariant st.expired == Pick(c, pods[..i], TooOld) && st.orphans == Pick(c, pods[..i], Orphan)
      invariant st.bound == |Pick(c, pods[..i], Serving)| + |Pick(c, pods[..i], Orphan)|
    {
      PickNext(c, pods, i);
      var p := pods[i];
      if p.deleting {
        continue;
      }
      if p.stateLabel == Bound {
        st := st.(bound := st.bound + 1);
        if SandboxMissing(c, p) {
          st := st.(orphans := st.orphans + [p]);
        }
      } else if p.stateLabel == Draining {
      } else if p.ended {
        st := st.(stuck := st.stuck + [p]);
      } else if !p.ready {
        if p.age > Timeout(c) {
          st := st.(stuck := st.stuck + [p]);
        } else {
          st := st.(pending := st.pending + [p]);
        }
      } else if p.hash != c.hash {
        st := st.(stale := st.stale + [p]);
      } else if c.idleTTL > 0 && p.age > c.idleTTL {
        st := st.(expired := st.expired + [p]);
      } else if p.tier.None? && p.name !in c.probe {
        st := st.(pending := st.pending + [p]);
      } else if p.tier.None? && c.probe[p.name] !in c.floor {
        st := st.(stuck := st.stuck + [p]);
      } else {
        st := st.(idleCurrent := st.idleCurrent + [p]);
      }
    }
    assert pods[..|pods|] == pods;
  }

  /** How often `x` occurs. */
  function Times(s: seq<Pod>, x: Pod): nat {
    if s == [] then 0 else (if s[0] == x then 1 else 0) + Times(s[1..], x)
  }

  lemma TimesOfCons(p: Pod, s: seq<Pod>, x: Pod)
    ensures Times([p] + s, x) == (if p == x then 1 else 0) + Times(s, x)
    ensures Times([] + s, x) == Times(s, x)
  {
    assert ([p] + s)[1..] == s && [] + s == s;
  }

  lemma {:induction false} PickFromFront(c: Pool, p: Pod, rest: seq<Pod>, k: Class)
    ensures Pick(c, [p] + rest, k) == (if ClassOf(c, p) == k then [p] else []) + Pick(c, rest, k)
    decreases |rest|
  {
    hide ClassOf;
    var pods := [p] + rest;
    if rest == [] {
      assert pods == [p] && pods[..0] == [];
    } else {
      var n := |rest| - 1;
      PickFromFront(c, p, rest[..n], k);
      assert pods[..|pods| - 1] == [p] + rest[..n];
    }
  }

  lemma PickCons(c: Pool, p: Pod, rest: seq<Pod>, k: Class)
    ensures Pick(c, [p] + rest, k) == if ClassOf(c, p) == k then [p] + Pick(c, rest, k) else Pick(c, rest, k)
  {
    hide ClassOf, Pick;
    PickFromFront(c, p, rest, k);
    assert [] + Pick(c, rest, k) == Pick(c, rest, k);
  }

  /** Classification is a partition: a Pod is in its own class as often as in the snapshot, and in no other. */
  lemma {:induction false} ClassesPartition(c: Pool, pods: seq<Pod>, k: Class, x: Pod)
    ensures Times(Pick(c, pods, k), x) == if ClassOf(c, x) == k then Times(pods, x) else 0
    decreases |pods|
  {
    if pods != [] {
      hide ClassOf;
      var p, rest := pods[0], pods[1..];
      assert pods == [p] + rest;
      PickFromFront(c, p, rest, k);
      ClassesPartition(c, rest, k, x);
      TimesOfCons(p, Pick(c, rest, k), x);
    }
  }

  lemma {:induction false} PickedAreOfClass(c: Pool, pods: seq<Pod>, k: Class)
    ensures forall p :: p in Pick(c, pods, k) ==> p in pods && ClassOf(c, p) == k
  {
    hide ClassOf;
    if pods != [] {
      PickedAreOfClass(c, pods[..|pods| - 1], k);
    }
  }

  // ------------------------------------------------------------------- the pass

  function Min(a: int, b: int): int {
    if a < b then a else b
  }

  function Max(a: int, b: int): int {
    if a > b then a else b
  }

  /** How many warm Pods are over the target, and how many are missing. */
  function Surplus(c: Pool, pods: seq<Pod>): nat {
    Max(0, |Pick(c, pods, Warm)| - Desired(c))
  }

  function Missing(c: Pool, pods: seq<Pod>): nat {
    Max(0, Desired(c) - |Pick(c, pods, Warm)| - |Pick(c, pods, Starting)|)
  }

  function Deleted(c: Pool, pods: seq<Pod>): seq<Pod> {
    var stale := Pick(c, pods, Stale);
    stale[..Min(Surge(c), |stale|)] + Pick(c, pods, TooOld) + Pick(c, pods, Stuck) + Pick(c, pods, Orphan) +
    Pick(c, pods, Warm)[..Surplus(c, pods)]
  }

  /** A pass over a snapshot; `creatable` is how many creates go through before one fails. */
  method SupplyPass(c: Pool, pods: seq<Pod>, creatable: nat) returns (deleted: seq<Pod>, created: nat)
    ensures deleted == Deleted(c, pods)
    ensures created == Min(Missing(c, pods), creatable)
  {
    hide ClassOf, Pick;
    var st := Classify(c, pods);
    deleted := [];
    var i := 0;
    while i < |st.stale| && i < Surge(c)
      invariant 0 <= i <= |st.stale| && i <= Surge(c) && deleted == st.stale[..i]
    {
      deleted := deleted + [st.stale[i]];
      i := i + 1;
    }
    deleted := deleted + st.expired + st.stuck + st.orphans;
    created := 0;
    var desired := Desired(c);
    i := |st.idleCurrent| + |st.pending|;
    while i < desired
      invariant created == Max(0, i - |st.idleCurrent| - |st.pending|) && created <= creatable
      invariant i <= Max(desired, |st.idleCurrent| + |st.pending|) && i >= |st.idleCurrent| + |st.pending|
    {
      if created == creatable {
        break;
      }
      created := created + 1;
      i := i + 1;
    }
    ghost var before := deleted;
    i := 0;
    while i < |st.idleCurrent| - desired
      invariant 0 <= i <= Max(0, |st.idleCurrent| - desired) && deleted == before + st.idleCurrent[..i]
    {
      deleted := deleted + [st.idleCurrent[i]];
      i := i + 1;
    }
  }

  /** A pass deletes only Pods that serve nobody: nothing bound to an existing Sandbox, draining or starting. */
  lemma PassSparesTheLiving(c: Pool, pods: seq<Pod>, p: Pod)
    requires p in Deleted(c, pods)
    ensures p in pods && !p.deleting && p.stateLabel != Draining && ClassOf(c, p) != Starting
    ensures p.stateLabel == Bound ==> p.sandboxId != "" && p.sandboxId !in c.boxes
  {
    hide Pick;
    PickedAreOfClass(c, pods, Stale);
    PickedAreOfClass(c, pods, TooOld);
    PickedAreOfClass(c, pods, Stuck);
    PickedAreOfClass(c, pods, Orphan);
    PickedAreOfClass(c, pods, Warm);
  }

  /** What a snapshot is after a pass: which Pods remain, given how many stale and warm ones may still go. */
  function Survivors(c: Pool, pods: seq<Pod>, retire: nat, trim: nat): seq<Pod> {
    if pods == [] then []
    else
      match ClassOf(c, pods[0])
      case Stale =>
        if retire > 0 then Survivors(c, pods[1..], retire - 1, trim) else [pods[0]] + Survivors(c, pods[1..], 0, trim)
      case Warm =>
        if trim > 0 then Survivors(c, pods[1..], retire, trim - 1) else [pods[0]] + Survivors(c, pods[1..], retire, 0)
      case Stuck => Survivors(c, pods[1..], retire, trim)
      case TooOld => Survivors(c, pods[1..], retire, trim)
      case Orphan => Survivors(c, pods[1..], retire, trim)
      case _ => [pods[0]] + Survivors(c, pods[1..], retire, trim)
  }

  function After(c: Pool, pods: seq<Pod>): seq<Pod> {
    Survivors(c, pods, Surge(c), Surplus(c, pods))
  }

  function Front(s: seq<Pod>, n: nat): seq<Pod> {
    s[..Min(n, |s|)]
  }

  lemma FrontOfCons(p: Pod, s: seq<Pod>, n: nat, x: Pod)
    ensures Times(Front([] + s, n), x) == Times(Front(s, n), x)
    ensures Times(Front([p] + s, n), x)
         == if n == 0 then 0 else (if p == x then 1 else 0) + Times(Front(s, n - 1), x)
    ensures Times(Front(s, 0), x) == 0
  {
    assert [] + s == s;
    if n > 0 {
      assert Front([p] + s, n) == [p] + Front(s, n - 1);
      TimesOfCons(p, Front(s, n - 1), x);
    }
  }

  /** What a pass takes out of a snapshot, counted for one Pod. */
  function Taken(c: Pool, pods: seq<Pod>, retire: nat, trim: nat, x: Pod): nat {
    Times(Front(Pick(c, pods, Stale), retire), x) + Times(Front(Pick(c, pods, Warm), trim), x) +
    Times(Pick(c, pods, Stuck), x) + Times(Pick(c, pods, TooOld), x) + Times(Pick(c, pods, Orphan), x)
  }

  lemma TakenFromFront(c: Pool, p: Pod, rest: seq<Pod>, retire: nat, trim: nat, x: Pod)
    ensures var k := ClassOf(c, p);
            var one := if p == x then 1 else 0;
            Taken(c, [p] + rest, retire, trim, x) ==
            if k == Stale && retire > 0 then one + Taken(c, rest, retire - 1, trim, x)
            else if k == Warm && trim > 0 then one + Taken(c, rest, retire, trim - 1, x)
            else if k == Stuck || k == TooOld || k == Orphan then one + Taken(c, rest, retire, trim, x)
            else Taken(c, rest, retire, trim, x)
  {
    hide ClassOf, Pick, Times, Front;
    PickFromFront(c, p, rest, Stale);
    PickFromFront(c, p, rest, Warm);
    PickFromFront(c, p, rest, Stuck);
    PickFromFront(c, p, rest, TooOld);
    PickFromFront(c, p, rest, Orphan);
    FrontOfCons(p, Pick(c, rest, Stale), retire, x);
    FrontOfCons(p, Pick(c, rest, Warm), trim, x);
    FrontOfCons(p, Pick(c, rest, Stale), 0, x);
    FrontOfCons(p, Pick(c, rest, Warm), 0, x);
    TimesOfCons(p, Pick(c, rest, Stuck), x);
    TimesOfCons(p, Pick(c, rest, TooOld), x);
    TimesOfCons(p, Pick(c, rest, Orphan), x);
  }

  /** The first Pod goes or stays, by its class and what may still be taken of that. */
  lemma SurvivorsFromFront(c: Pool, p: Pod, rest: seq<Pod>, retire: nat, trim: nat, k: Class)
    requires k == ClassOf(c, p)
    ensures var left := Survivors(c, rest, Less(retire, k == Stale), Less(trim, k == Warm));
            Survivors(c, [p] + rest, retire, trim) == if Goes(k, retire, trim) then left else [p] + left
  {
    hide ClassOf;
    assert ([p] + rest)[1..] == rest;
  }

  /** Deleting and surviving are complementary: together they are the snapshot again, Pod for Pod. */
  lemma {:induction false} PassConserves(c: Pool, pods: seq<Pod>, retire: nat, trim: nat, x: Pod)
    ensures Times(Survivors(c, pods, retire, trim), x) + Taken(c, pods, retire, trim, x) == Times(pods, x)
    decreases |pods|
  {
    hide ClassOf;
    if pods != [] {
      var p, rest, k := pods[0], pods[1..], ClassOf(c, pods[0]);
      hide Pick, Front, Taken, Times, Survivors;
      assert pods == [p] + rest;
      var retire', trim' := Less(retire, k == Stale), Less(trim, k == Warm);
      TakenFromFront(c, p, rest, retire, trim, x);
      SurvivorsFromFront(c, p, rest, retire, trim, k);
      PassConserves(c, rest, retire', trim', x);
      TimesOfCons(p, Survivors(c, rest, retire', trim'), x);
      TimesOfCons(p, rest, x);
    }
  }

  lemma {:induction false} TimesOfConcat(a: seq<Pod>, b: seq<Pod>, x: Pod)
    ensures Times(a + b, x) == Times(a, x) + Times(b, x)
  {
    if a == [] {
      assert a + b == b;
    } else {
      TimesOfConcat(a[1..], b, x);
      assert (a + b)[1..] == a[1..] + b;
    }
  }

  /** A pass neither loses a Pod nor touches one it did not decide to delete. */
  lemma PassLeavesTheRest(c: Pool, pods: seq<Pod>, x: Pod)
    ensures Times(After(c, pods), x) + Times(Deleted(c, pods), x) == Times(pods, x)
  {
    hide ClassOf, Pick, Survivors, Times;
    PassConserves(c, pods, Surge(c), Surplus(c, pods), x);
    var a, b := Front(Pick(c, pods, Stale), Surge(c)), Pick(c, pods, TooOld);
    var d, e := Pick(c, pods, Stuck), Pick(c, pods, Orphan);
    TimesOfConcat(a + b + d + e, Front(Pick(c, pods, Warm), Surplus(c, pods)), x);
    TimesOfConcat(a + b + d, e, x);
    TimesOfConcat(a + b, d, x);
    TimesOfConcat(a, b, x);
  }

  // -------------------------------------------------------- what is left, by class

  predicate Doomed(k: Class) {
    k == Stuck || k == TooOld || k == Orphan
  }

  /** How many of a class are taken off the front. */
  function Quota(k: Class, retire: nat, trim: nat): nat {
    if k == Stale then retire else if k == Warm then trim else 0
  }

  function Back(s: seq<Pod>, n: nat): seq<Pod> {
    s[Min(n, |s|)..]
  }

  /** What survives of one class. */
  function Spared(c: Pool, pods: seq<Pod>, retire: nat, trim: nat, k: Class): seq<Pod> {
    if Doomed(k) then [] else Back(Pick(c, pods, k), Quota(k, retire, trim))
  }

  predicate Goes(k: Class, retire: nat, trim: nat) {
    Doomed(k) || (k == Stale && retire > 0) || (k == Warm && trim > 0)
  }

  function Less(quota: nat, used: bool): nat {
    if used && quota > 0 then quota - 1 else quota
  }

  lemma BackOfCons(p: Pod, s: seq<Pod>, n: nat)
    ensures Back([p] + s, n) == if n == 0 then [p] + Back(s, 0) else Back(s, n - 1)
    ensures [] + Back(s, n) == Back(s, n)
  {
  }

  lemma SparedFromFront(c: Pool, p: Pod, rest: seq<Pod>, retire: nat, trim: nat, j: Class, k: Class)
    requires j == ClassOf(c, p)
    ensures var left := Spared(c, rest, Less(retire, j == Stale), Less(trim, j == Warm), k);
            Spared(c, [p] + rest, retire, trim, k) == if j == k && !Goes(j, retire, trim) then [p] + left else left
  {
    hide ClassOf, Pick, Back;
    PickCons(c, p, rest, k);
    var s := Pick(c, rest, k);
    BackOfCons(p, s, Quota(k, retire, trim));
    BackOfCons(p, s, Quota(k, Less(retire, j == Stale), Less(trim, j == Warm)));
  }

  lemma {:induction false} SurvivorsByClass(c: Pool, pods: seq<Pod>, retire: nat, trim: nat, k: Class)
    ensures Pick(c, Survivors(c, pods, retire, trim), k) == Spared(c, pods, retire, trim, k)
    decreases |pods|
  {
    if pods != [] {
      var p, rest := pods[0], pods[1..];
      hide ClassOf, Pick, Survivors, Spared;
      assert pods == [p] + rest;
      var j := ClassOf(c, p);
      var retire', trim' := Less(retire, j == Stale), Less(trim, j == Warm);
      SurvivorsByClass(c, rest, retire', trim', k);
      SurvivorsFromFront(c, p, rest, retire, trim, j);
      SparedFromFront(c, p, rest, retire, trim, j, k);
      var left := Survivors(c, rest, retire', trim');
      PickCons(c, p, left, k);
    } else {
      assert Pick(c, [], k) == [];
    }
  }

  /** A pass never takes idle plus pending above the target, nor above what it found. */
  lemma PassRespectsTarget(c: Pool, pods: seq<Pod>, created: nat)
    requires created <= Missing(c, pods)
    ensures |Pick(c, After(c, pods), Warm)| + |Pick(c, After(c, pods), Starting)| + created
         <= Max(Desired(c), |Pick(c, pods, Warm)| + |Pick(c, pods, Starting)|)
    ensures |Pick(c, After(c, pods), Warm)| == Min(|Pick(c, pods, Warm)|, Desired(c))
    ensures |Pick(c, pods, Stale)| - |Pick(c, After(c, pods), Stale)|
         == Min(if c.maxSurge > 0 then c.maxSurge else 3, |Pick(c, pods, Stale)|)
  {
    hide ClassOf, Pick, After;
    LeftOfClass(c, pods, Warm);
    LeftOfClass(c, pods, Starting);
    LeftOfClass(c, pods, Stale);
  }

  /** How many Pods of a class a pass leaves, if it is not one that goes altogether. */
  lemma LeftOfClass(c: Pool, pods: seq<Pod>, k: Class)
    requires !Doomed(k)
    ensures |Pick(c, After(c, pods), k)| == Max(0, |Pick(c, pods, k)| - Quota(k, Surge(c), Surplus(c, pods)))
  {
    hide ClassOf, Pick, Survivors, Surplus;
    SurvivorsByClass(c, pods, Surge(c), Surplus(c, pods), k);
  }

  // -------------------------------------------------------- which warm Pods are trimmed

  lemma {:induction false} PickFindsAll(c: Pool, pods: seq<Pod>, k: Class, p: Pod)
    ensures p in Pick(c, pods, k) <==> p in pods && ClassOf(c, p) == k
  {
    hide ClassOf;
    if pods != [] {
      var n := |pods| - 1;
      PickFindsAll(c, pods[..n], k, p);
      assert pods == pods[..n] + [pods[n]];
    }
  }

  ghost predicate Trimmed(c: Pool, pods: seq<Pod>, p: Pod) {
    p in Deleted(c, pods) && ClassOf(c, p) == Warm
  }

  ghost predicate KeptWarm(c: Pool, pods: seq<Pod>, p: Pod) {
    p in After(c, pods) && ClassOf(c, p) == Warm
  }

  /** The trimmed Pods are the first of the warm ones in the list, and the kept ones are the others. */
  lemma TrimSplitsWarm(c: Pool, pods: seq<Pod>, p: Pod)
    ensures Trimmed(c, pods, p) <==> p in Pick(c, pods, Warm)[..Surplus(c, pods)]
    ensures KeptWarm(c, pods, p) <==> p in Pick(c, pods, Warm)[Surplus(c, pods)..]
  {
    hide ClassOf, Pick, Survivors;
    PickFindsAll(c, pods, Stale, p);
    PickFindsAll(c, pods, TooOld, p);
    PickFindsAll(c, pods, Stuck, p);
    PickFindsAll(c, pods, Orphan, p);
    PickFindsAll(c, pods, Warm, p);
    PickFindsAll(c, After(c, pods), Warm, p);
    SurvivorsByClass(c, pods, Surge(c), Surplus(c, pods), Warm);
  }

  /** No warm Pod is kept that is older than one trimmed. */
  ghost predicate TrimsOldest(c: Pool, pods: seq<Pod>) {
    forall x, y :: Trimmed(c, pods, x) && KeptWarm(c, pods, y) ==> x.age >= y.age
  }

  /** The list shows the warm Pods to be trimmed before any younger one. */
  predicate OldestShownFirst(c: Pool, pods: seq<Pod>) {
    var warm := Pick(c, pods, Warm);
    forall i, j :: 0 <= i < Surplus(c, pods) <= j < |warm| ==> warm[i].age >= warm[j].age
  }

  /** Trimming takes the oldest exactly when the list call happens to show them first. */
  lemma TrimsOldestIff(c: Pool, pods: seq<Pod>)
    ensures TrimsOldest(c, pods) <==> OldestShownFirst(c, pods)
  {
    hide Pick, Deleted, After, ClassOf, Trimmed, KeptWarm;
    var warm, n := Pick(c, pods, Warm), Surplus(c, pods);
    if TrimsOldest(c, pods) {
      forall i, j | 0 <= i < n <= j < |warm|
        ensures warm[i].age >= warm[j].age
      {
        assert warm[i] == warm[..n][i] && warm[j] == warm[n..][j - n];
        TrimSplitsWarm(c, pods, warm[i]);
        TrimSplitsWarm(c, pods, warm[j]);
      }
    }
    if OldestShownFirst(c, pods) {
      forall x, y | Trimmed(c, pods, x) && KeptWarm(c, pods, y)
        ensures x.age >= y.age
      {
        TrimSplitsWarm(c, pods, x);
        TrimSplitsWarm(c, pods, y);
      }
    }
  }

  predicate OldestFirst(s: seq<Pod>) {
    forall i, j :: 0 <= i < j < |s| ==> s[i].age >= s[j].age
  }

  lemma {:induction false} PickKeepsOrder(c: Pool, pods: seq<Pod>, k: Class)
    requires OldestFirst(pods)
    ensures OldestFirst(Pick(c, pods, k))
  {
    hide ClassOf;
    if pods != [] {
      var n := |pods| - 1;
      var front := Pick(c, pods[..n], k);
      PickKeepsOrder(c, pods[..n], k);
      PickedAreOfClass(c, pods[..n], k);
      forall i | 0 <= i < |front|
        ensures front[i].age >= pods[n].age
      {
        assert front[i] in front;
      }
    }
  }

  /** A list sorted by age would do. */
  lemma SortedListTrimsOldest(c: Pool, pods: seq<Pod>)
    requires OldestFirst(pods)
    ensures TrimsOldest(c, pods)
  {
    hide Pick, TrimsOldest;
    PickKeepsOrder(c, pods, Warm);
    assert OldestShownFirst(c, pods);
    TrimsOldestIff(c, pods);
  }

  /** The API server's list is not: here the Pod of ten seconds goes and the one of a thousand stays. */
  lemma TrimCanSpareTheOldest()
    ensures var c := Pool(1, 0, 0, 3, 300, 0, "h", {"t"}, {}, map[]);
            var young := Pod("a", Idle, "", false, false, true, 10, "h", Some("t"));
            var aged := Pod("b", Idle, "", false, false, true, 1000, "h", Some("t"));
            Trimmed(c, [young, aged], young) && KeptWarm(c, [young, aged], aged) && !TrimsOldest(c, [young, aged])
  {
    var c := Pool(1, 0, 0, 3, 300, 0, "h", {"t"}, {}, map[]);
    var young := Pod("a", Idle, "", false, false, true, 10, "h", Some("t"));
    var aged := Pod("b", Idle, "", false, false, true, 1000, "h", Some("t"));
    var pods := [young, aged];
    assert pods == [young] + [aged] && [aged] == [aged] + [];
    PickFromFront(c, young, [aged], Warm);
    PickFromFront(c, aged, [], Warm);
    assert Pick(c, pods, Warm) == pods && Surplus(c, pods) == 1;
    assert pods[..1] == [young] && pods[1..] == [aged];
    TrimSplitsWarm(c, pods, young);
    TrimSplitsWarm(c, pods, aged);
  }

  // ----------------------------------------------------------------- convergence

  /** A Pod as BuildPod renders it for the pool. */
  predicate Newborn(c: Pool, p: Pod) {
    p.stateLabel == Idle && !p.deleting && !p.ended && !p.ready && p.age <= Timeout(c) && p.hash == c.hash
  }

  /** What happens between two passes: how long it takes, and the tier new Pods are measured at. */
  datatype Lull = Lull(seconds: nat, tier: string)

  /** In that time every Pod ages, and whatever was starting becomes ready and measured. */
  function Settle(c: Pool, p: Pod, t: Lull): Pod {
    var older := p.(age := p.age + t.seconds);
    if ClassOf(c, p) == Starting then older.(ready := true, tier := Some(t.tier)) else older
  }

  function SettleAll(c: Pool, pods: seq<Pod>, t: Lull): seq<Pod> {
    if pods == [] then [] else [Settle(c, pods[0], t)] + SettleAll(c, pods[1..], t)
  }

  /** The Pod does not reach the idle TTL in that time, if it is one the TTL is for and has not yet. */
  predicate Lasts(c: Pool, p: Pod, t: Lull) {
    (ClassOf(c, p) == Warm || ClassOf(c, p) == Starting) && p.hash == c.hash && c.idleTTL > 0 ==>
      p.age + t.seconds <= c.idleTTL
  }

  ghost predicate AllLast(c: Pool, pods: seq<Pod>, t: Lull) {
    forall i :: 0 <= i < |pods| ==> Lasts(c, pods[i], t)
  }

  /**
  One pass over `a`, every create going through, and then a lull in which the new Pods start and
  nothing is claimed or expires, gives `b`.
  */
  ghost predicate Follows(c: Pool, a: seq<Pod>, b: seq<Pod>, added: seq<Pod>, t: Lull) {
    && |added| == Missing(c, a)
    && (forall i :: 0 <= i < |added| ==> Newborn(c, added[i]))
    && AllLast(c, After(c, a) + added, t)
    && b == SettleAll(c, After(c, a) + added, t)
  }

  /** How many of these Pods carry the current hash. */
  function CurrentIn(c: Pool, s: seq<Pod>): (n: nat)
    ensures n <= |s|
  {
    if s == [] then 0 else (if s[0].hash == c.hash then 1 else 0) + CurrentIn(c, s[1..])
  }

  /** Time may turn one reason to delete a Pod into another, and otherwise only starting Pods change class. */
  lemma SettledClass(c: Pool, p: Pod, t: Lull)
    requires Lasts(c, p, t)
    ensures var k, k' := ClassOf(c, p), ClassOf(c, Settle(c, p, t));
            if k == Starting then k' == (if p.hash == c.hash then Warm else Stale)
            else if Doomed(k) then Doomed(k') else k' == k
  {
  }

  lemma PickCount(c: Pool, p: Pod, rest: seq<Pod>, k: Class)
    ensures |Pick(c, [p] + rest, k)| == |Pick(c, rest, k)| + if ClassOf(c, p) == k then 1 else 0
  {
    hide ClassOf, Pick;
    PickFromFront(c, p, rest, k);
  }

  lemma CurrentFromFront(c: Pool, p: Pod, rest: seq<Pod>)
    ensures CurrentIn(c, Pick(c, [p] + rest, Starting))
         == CurrentIn(c, Pick(c, rest, Starting)) + if ClassOf(c, p) == Starting && p.hash == c.hash then 1 else 0
  {
    hide ClassOf, Pick;
    PickFromFront(c, p, rest, Starting);
    var s := Pick(c, rest, Starting);
    assert ([p] + s)[1..] == s && [] + s == s;
  }

  /** How many Pods of the class there will be: the starting ones go to the warm or the stale ones, by their hash. */
  function Settled(c: Pool, pods: seq<Pod>, k: Class): int {
    var current := CurrentIn(c, Pick(c, pods, Starting));
    if k == Warm then |Pick(c, pods, Warm)| + current
    else if k == Stale then |Pick(c, pods, Stale)| + |Pick(c, pods, Starting)| - current
    else 0
  }

  lemma SettledFromFront(c: Pool, p: Pod, rest: seq<Pod>, k: Class)
    ensures Settled(c, [p] + rest, k) == Settled(c, rest, k)
         + (if k == Warm && (ClassOf(c, p) == Warm || (ClassOf(c, p) == Starting && p.hash == c.hash)) then 1
            else if k == Stale && (ClassOf(c, p) == Stale || (ClassOf(c, p) == Starting && p.hash != c.hash)) then 1
            else 0)
  {
    hide ClassOf, Pick, CurrentIn;
    CurrentFromFront(c, p, rest);
    PickCount(c, p, rest, Starting);
    PickCount(c, p, rest, Warm);
    PickCount(c, p, rest, Stale);
  }

  lemma {:induction false} SettledCounts(c: Pool, pods: seq<Pod>, t: Lull, k: Class)
    requires AllLast(c, pods, t) && (k == Starting || k == Warm || k == Stale)
    ensures |Pick(c, SettleAll(c, pods, t), k)| == Settled(c, pods, k)
    decreases |pods|
  {
    if pods != [] {
      hide ClassOf, Pick, Settle, Lasts, Settled;
      var p, rest := pods[0], pods[1..];
      assert pods == [p] + rest;
      SettledClass(c, p, t);
      SettledCounts(c, rest, t, k);
      SettledFromFront(c, p, rest, k);
      PickCount(c, Settle(c, p, t), SettleAll(c, rest, t), k);
    }
  }

  /** Where nothing is left to delete, the classes that settling leaves alone keep their number. */
  lemma {:induction false} SettledOthers(c: Pool, pods: seq<Pod>, t: Lull, k: Class)
    requires AllLast(c, pods, t) && k != Starting && k != Warm && k != Stale
    requires forall i :: 0 <= i < |pods| ==> !Doomed(ClassOf(c, pods[i]))
    ensures |Pick(c, SettleAll(c, pods, t), k)| == |Pick(c, pods, k)|
    decreases |pods|
  {
    if pods != [] {
      var p, rest := pods[0], pods[1..];
      assert pods == [p] + rest;
      SettledClass(c, p, t);
      hide ClassOf, Pick, Settle, Lasts;
      SettledOthers(c, rest, t, k);
      PickFromFront(c, p, rest, k);
      PickFromFront(c, Settle(c, p, t), SettleAll(c, rest, t), k);
    }
  }

  lemma {:induction false} PickOfConcat(c: Pool, a: seq<Pod>, b: seq<Pod>, k: Class)
    ensures Pick(c, a + b, k) == Pick(c, a, k) + Pick(c, b, k)
  {
    hide ClassOf;
    if b == [] {
      assert a + b == a;
    } else {
      PickOfConcat(c, a, b[..|b| - 1], k);
      assert (a + b)[..|a + b| - 1] == a + b[..|b| - 1];
    }
  }

  lemma NewbornStarts(c: Pool, p: Pod)
    requires Newborn(c, p)
    ensures ClassOf(c, p) == Starting
  {
  }

  lemma {:induction false} NewbornsAreStarting(c: Pool, added: seq<Pod>, k: Class)
    requires forall i :: 0 <= i < |added| ==> Newborn(c, added[i])
    ensures Pick(c, added, k) == if k == Starting then added else []
  {
    hide ClassOf, Newborn;
    if added != [] {
      hide Pick;
      var p, rest := added[0], added[1..];
      assert added == [p] + rest;
      NewbornsAreStarting(c, rest, k);
      NewbornStarts(c, p);
      PickCons(c, p, rest, k);
    }
  }

  lemma {:induction false} CurrentOfConcat(c: Pool, a: seq<Pod>, b: seq<Pod>)
    requires forall i :: 0 <= i < |b| ==> b[i].hash == c.hash
    ensures CurrentIn(c, a + b) == CurrentIn(c, a) + |b|
  {
    if a != [] {
      CurrentOfConcat(c, a[1..], b);
      assert (a + b)[1..] == a[1..] + b;
    } else {
      assert a + b == b;
      if b != [] {
        CurrentOfConcat(c, [], b[1..]);
        assert [] + b[1..] == b[1..];
      }
    }
  }

  /** One round, in numbers. */
  lemma RoundCounts(c: Pool, a: seq<Pod>, b: seq<Pod>, added: seq<Pod>, t: Lull)
    requires Follows(c, a, b, added, t)
    ensures var cur := CurrentIn(c, Pick(c, a, Starting));
            && |Pick(c, b, Starting)| == 0
            && |Pick(c, b, Warm)| == Min(|Pick(c, a, Warm)|, Desired(c)) + cur + Missing(c, a)
            && |Pick(c, b, Stale)| == Max(0, |Pick(c, a, Stale)| - Surge(c)) + |Pick(c, a, Starting)| - cur
  {
    hide ClassOf, Pick, Survivors, CurrentIn, SettleAll, Newborn, AllLast;
    var left := After(c, a);
    SettledCounts(c, left + added, t, Starting);
    SettledCounts(c, left + added, t, Warm);
    SettledCounts(c, left + added, t, Stale);
    ByClass(c, a, left, added, Warm);
    ByClass(c, a, left, added, Stale);
    ByClass(c, a, left, added, Starting);
    NewbornsAreCurrent(c, added);
    CurrentOfConcat(c, Pick(c, a, Starting), added);
  }

  lemma NewbornsAreCurrent(c: Pool, added: seq<Pod>)
    requires forall i :: 0 <= i < |added| ==> Newborn(c, added[i])
    ensures forall i :: 0 <= i < |added| ==> added[i].hash == c.hash
  {
  }

  lemma ByClass(c: Pool, a: seq<Pod>, left: seq<Pod>, added: seq<Pod>, k: Class)
    requires left == After(c, a) && forall i :: 0 <= i < |added| ==> Newborn(c, added[i])
    ensures Pick(c, left + added, k)
         == Spared(c, a, Surge(c), Surplus(c, a), k) + (if k == Starting then added else [])
  {
    hide ClassOf, Pick, Survivors, Newborn;
    SurvivorsByClass(c, a, Surge(c), Surplus(c, a), k);
    PickOfConcat(c, left, added, k);
    NewbornsAreStarting(c, added, k);
  }

  lemma {:induction false} NothingPicked(c: Pool, pods: seq<Pod>, k: Class)
    ensures Pick(c, pods, k) == [] ==> forall i :: 0 <= i < |pods| ==> ClassOf(c, pods[i]) != k
  {
    hide ClassOf;
    if pods != [] {
      NothingPicked(c, pods[..|pods| - 1], k);
    }
  }

  /** Stuck, expired and orphaned Pods are gone after one pass, and what serves or drains is as it was. */
  lemma RoundClears(c: Pool, a: seq<Pod>, b: seq<Pod>, added: seq<Pod>, t: Lull, k: Class)
    requires Follows(c, a, b, added, t) && k != Starting && k != Warm && k != Stale
    ensures |Pick(c, b, k)| == if Doomed(k) then 0 else |Pick(c, a, k)|
  {
    hide ClassOf, Pick, Survivors, SettleAll, Newborn, AllLast;
    var out := After(c, a) + added;
    ByClass(c, a, After(c, a), added, Stuck);
    ByClass(c, a, After(c, a), added, TooOld);
    ByClass(c, a, After(c, a), added, Orphan);
    NothingPicked(c, out, Stuck);
    NothingPicked(c, out, TooOld);
    NothingPicked(c, out, Orphan);
    SettledOthers(c, out, t, k);
    ByClass(c, a, After(c, a), added, k);
  }

  ghost predicate Rounds(c: Pool, run: seq<seq<Pod>>, news: seq<seq<Pod>>, t: seq<Lull>) {
    && |run| == |news| + 1 && |t| == |news|
    && forall i :: 0 <= i < |news| ==> Follows(c, run[i], run[i + 1], news[i], t[i])
  }

  /** The number of stale Pods after round `n`, and of warm ones from the second round on. */
  lemma {:induction false} RoundsShrinkStale(c: Pool, run: seq<seq<Pod>>, news: seq<seq<Pod>>, t: seq<Lull>, n: nat)
    requires Rounds(c, run, news, t) && 1 <= n < |run|
    ensures |Pick(c, run[n], Starting)| == 0
    ensures |Pick(c, run[n], Stale)|
         <= Max(0, |Pick(c, run[0], Stale)| + |Pick(c, run[0], Starting)| - (n - 1) * Surge(c))
    ensures n >= 2 ==> |Pick(c, run[n], Warm)| == Desired(c)
  {
    hide ClassOf, Pick, Follows, CurrentIn;
    RoundCounts(c, run[n - 1], run[n], news[n - 1], t[n - 1]);
    if n > 1 {
      RoundsShrinkStale(c, run, news, t, n - 1);
      assert (n - 1) * Surge(c) == (n - 2) * Surge(c) + Surge(c);
    }
  }

  /**
  With the template and target fixed, Pods coming up at the floor, and no claims or expiries,
  repeated passes reach exactly the target of current Pods and no stale, starting, stuck or
  orphaned ones, as soon as the surge has had time to retire what was not current; and stay there.
  */
  lemma PassesConverge(c: Pool, run: seq<seq<Pod>>, news: seq<seq<Pod>>, t: seq<Lull>, n: nat)
    requires Rounds(c, run, news, t) && 2 <= n < |run|
    requires |Pick(c, run[0], Stale)| + |Pick(c, run[0], Starting)| <= (n - 1) * Surge(c)
    ensures |Pick(c, run[n], Warm)| == Desired(c)
    ensures |Pick(c, run[n], Stale)| == 0 && |Pick(c, run[n], Starting)| == 0
    ensures |Pick(c, run[n], Stuck)| == 0 && |Pick(c, run[n], TooOld)| == 0 && |Pick(c, run[n], Orphan)| == 0
  {
    hide ClassOf, Pick, Follows;
    RoundsShrinkStale(c, run, news, t, n);
    RoundClears(c, run[n - 1], run[n], news[n - 1], t[n - 1], Stuck);
    RoundClears(c, run[n - 1], run[n], news[n - 1], t[n - 1], TooOld);
    RoundClears(c, run[n - 1], run[n], news[n - 1], t[n - 1], Orphan);
  }
}
