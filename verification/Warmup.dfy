/**
Warm capacity: what tenants ask for, what an administrator approves within the platform's
budget, and the pools that approvals write (pkg/apiserver/warmup.go, pkg/apiserver/memstore.go).
Handlers run one at a time.
*/
module Warmup {
  import opened Options
  import opened Totals
  import Pool

  datatype Status = Pending | Approved | Rejected

  datatype Request = Request(tenant: string, template: string, replicas: int, status: Status)

  /** The size fields of a SandboxPool. */
  datatype Size = Size(replicas: int, minReplicas: int, maxReplicas: int)

  /** A pool's namespace and name. */
  type Key = (string, string)

  datatype Db = Db(
    namespaces: map<string, string>,
    requests: map<string, Request>,
    pools: map<Key, Size>,
    budget: int)

  /** A 32-bit conversion. */
  function Int32(n: int): int {
    (n + 0x8000_0000) % 0x1_0000_0000 - 0x8000_0000
  }

  // ------------------------------------------------------------ sums

  /** What each request has been granted. */
  function Grants(requests: map<string, Request>): map<string, int> {
    map id | id in requests :: if requests[id].status == Approved then requests[id].replicas else 0
  }

  ghost function Allocated(db: Db): int {
    Total(Grants(db.requests))
  }

  /** What the pools named in `written` will be kept at. */
  function Wants(pools: map<Key, Size>, written: set<Key>): map<Key, int> {
    map k | k in pools && k in written :: Want(pools[k])
  }

  /** How many warm Pods those pools will be kept at, all together. */
  ghost function Standing(db: Db, written: set<Key>): int {
    Total(Wants(db.pools, written))
  }

  // ------------------------------------------------------------ handlers

  datatype Outcome = Done | Invalid | TemplateRefused | NotFound | AlreadyReviewed | OverBudget | PoolWriteFailed

  /** requestWarmup; `templateOk` says that the key allows the template and that it exists. */
  function Ask(db: Db, id: string, tenant: string, template: string, replicas: int, templateOk: bool): Db {
    if replicas <= 0 || !templateOk then db
    else db.(requests := db.requests[id := Request(tenant, template, replicas, Pending)])
  }

  /** The pool an approval of `replicas` leaves behind. */
  function Upserted(prior: Option<Size>, replicas: int): Size {
    var r := Int32(replicas);
    if prior.None? then Size(r, 1, Int32(r * 3))
    else Size(r, prior.value.minReplicas, if prior.value.maxReplicas < r then Int32(r * 3) else prior.value.maxReplicas)
  }

  function PoolAt(db: Db, k: Key): Option<Size> {
    if k in db.pools then Some(db.pools[k]) else None
  }

  /** How many replicas a review is about: the administrator's number, or else what was asked. */
  function Reviewed(req: Request, asked: int): int {
    if asked <= 0 then req.replicas else asked
  }

  ghost function Verdict(db: Db, id: string, approve: bool, asked: int, poolOk: bool): Outcome {
    if id !in db.requests then NotFound
    else if db.requests[id].status != Pending then AlreadyReviewed
    else if !approve then Done
    else if Reviewed(db.requests[id], asked) > db.budget - Allocated(db) then OverBudget
    else if db.requests[id].tenant !in db.namespaces || !poolOk then PoolWriteFailed
    else Done
  }

  /** reviewWarmup; `poolOk` says whether the API server took the pool. */
  ghost function Review(db: Db, id: string, approve: bool, asked: int, poolOk: bool): Db {
    if Verdict(db, id, approve, asked, poolOk) != Done then db
    else
      var req := db.requests[id];
      if !approve then db.(requests := db.requests[id := req.(status := Rejected)])
      else
        var replicas := Reviewed(req, asked);
        var k := (db.namespaces[req.tenant], req.template);
        db.(pools := db.pools[k := Upserted(PoolAt(db, k), replicas)],
            requests := db.requests[id := req.(status := Approved, replicas := replicas)])
  }

  class Server {
    var namespaces: map<string, string>
    var requests: map<string, Request>
    var pools: map<Key, Size>
    var budget: int

    ghost function View(): Db
      reads this
    {
      Db(namespaces, requests, pools, budget)
    }

    constructor (namespaces: map<string, string>, budget: int)
      ensures View() == Db(namespaces, map[], map[], budget)
    {
      this.namespaces, this.budget := namespaces, budget;
      requests, pools := map[], map[];
    }

    method RequestWarmup(id: string, tenant: string, template: string, replicas: int, templateOk: bool)
      returns (r: Outcome)
      modifies this
      ensures View() == Ask(old(View()), id, tenant, template, replicas, templateOk)
      ensures r == if replicas <= 0 then Invalid else if !templateOk then TemplateRefused else Done
      ensures WithinBudget(old(View())) && id !in old(requests) ==>
                WithinBudget(View()) && Allocated(View()) == Allocated(old(View()))
    {
      if replicas <= 0 {
        return Invalid;
      }
      if !templateOk {
        return TemplateRefused;
      }
      ghost var db := View();
      if id !in requests {
        AllocatedPut(db, Ask(db, id, tenant, template, replicas, true), id, Request(tenant, template, replicas, Pending));
      }
      requests := requests[id := Request(tenant, template, replicas, Pending)];
      return Done;
    }

    /** PoolBudget: the allocation is derived from the requests each time. */
    method AllocatedNow() returns (sum: int)
      ensures sum == Allocated(View())
    {
      sum := 0;
      var left := requests;
      while left != map[]
        invariant sum + Total(Grants(left)) == Total(Grants(requests))
        decreases |left|
      {
        var id :| id in left;
        TakeOut(Grants(left), id);
        assert Grants(left) - {id} == Grants(left - {id});
        if left[id].status == Approved {
          sum := sum + left[id].replicas;
        }
        left := left - {id};
      }
      assert Grants(left) == map[];
    }

    method UpsertPool(k: Key, replicas: int)
      modifies this
      ensures View() == old(View()).(pools := old(pools)[k := Upserted(PoolAt(old(View()), k), replicas)])
      ensures replicas > 0 && (k in old(pools) ==> old(pools)[k].minReplicas <= replicas) ==> Want(pools[k]) <= replicas
    {
      if k !in pools {
        pools := pools[k := Size(Int32(replicas), 1, Int32(Int32(replicas) * 3))];
        return;
      }
      var size := pools[k].(replicas := Int32(replicas));
      if size.maxReplicas < Int32(replicas) {
        size := size.(maxReplicas := Int32(Int32(replicas) * 3));
      }
      pools := pools[k := size];
    }

    method ReviewWarmup(id: string, approve: bool, asked: int, poolOk: bool) returns (r: Outcome)
      modifies this
      ensures r == Verdict(old(View()), id, approve, asked, poolOk)
      ensures View() == Review(old(View()), id, approve, asked, poolOk)
    {
      if id !in requests {
        return NotFound;
      }
      var req := requests[id];
      if req.status != Pending {
        return AlreadyReviewed;
      }
      var replicas := asked;
      if replicas <= 0 {
        replicas := req.replicas;
      }
      if !approve {
        requests := requests[id := req.(status := Rejected)];
        return Done;
      }
      var spent := AllocatedNow();
      if replicas > budget - spent {
        return OverBudget;
      }
      if req.tenant !in namespaces || !poolOk {
        return PoolWriteFailed;
      }
      UpsertPool((namespaces[req.tenant], req.template), replicas);
      requests := requests[id := req.(status := Approved, replicas := replicas)];
      return Done;
    }
  }

  // ------------------------------------------------------------ what every run keeps

  datatype Event =
    | Asks(id: string, tenant: string, template: string, replicas: int, templateOk: bool)
    | Reviews(id: string, approve: bool, asked: int, poolOk: bool)

  ghost function Next(db: Db, e: Event): Db {
    match e
    case Asks(id, tenant, template, replicas, templateOk) => Ask(db, id, tenant, template, replicas, templateOk)
    case Reviews(id, approve, asked, poolOk) => Review(db, id, approve, asked, poolOk)
  }

  /** The pool that an event writes, if it writes one. */
  ghost function WrittenBy(db: Db, e: Event): set<Key> {
    if e.Reviews? && e.approve && Verdict(db, e.id, e.approve, e.asked, e.poolOk) == Done
    then {(db.namespaces[db.requests[e.id].tenant], db.requests[e.id].template)}
    else {}
  }

  /** Request ids are never reused. */
  ghost predicate Possible(db: Db, e: Event) {
    e.Asks? ==> e.id !in db.requests
  }

  // ---- one write

  function Want(size: Size): nat {
    Pool.Target(size.replicas, size.minReplicas, size.maxReplicas)
  }

  /** A pool with ceiling `max` that `replicas` are approved for ends up with a ceiling no higher than that. */
  predicate Capped(max: int, replicas: int) {
    var r := Int32(replicas);
    if max < r then 0 < Int32(r * 3) <= replicas else 0 < max <= replicas
  }

  /**
  Whatever the number wraps to as a 32-bit one, the pool an approval leaves behind wants no more
  than was approved exactly when its earlier floor is not above it, unless the ceiling cuts it down;
  and short of numbers whose triple wraps, that means a ceiling of just what was approved.
  */
  lemma UpsertWantsNoMore(prior: Option<Size>, replicas: int)
    requires replicas > 0
    ensures Want(Upserted(prior, replicas)) <= replicas
       <==> prior.None? || prior.value.minReplicas <= replicas || Capped(prior.value.maxReplicas, replicas)
    ensures prior.Some? && replicas <= 0x2AAA_AAAA ==>
              (Capped(prior.value.maxReplicas, replicas) <==> prior.value.maxReplicas == replicas)
  {
  }

  /**
  A pool new to it wants exactly what was approved, and so does one whose floor is not above that,
  for any number whose triple is still a 32-bit one.
  */
  lemma UpsertWantsExactly(prior: Option<Size>, replicas: int)
    requires 0 < replicas <= 0x2AAA_AAAA && (prior.Some? ==> prior.value.minReplicas <= replicas)
    ensures Want(Upserted(prior, replicas)) == replicas && Upserted(prior, replicas).replicas == replicas
    ensures prior.Some? ==> Upserted(prior, replicas).minReplicas == prior.value.minReplicas
    ensures prior.Some? && prior.value.maxReplicas >= replicas ==>
              Upserted(prior, replicas).maxReplicas == prior.value.maxReplicas
  {
  }

  /** A review goes through exactly for a pending request and, to approve it, with budget, tenant and pool at hand. */
  lemma ReviewGoesThroughIff(db: Db, id: string, approve: bool, asked: int, poolOk: bool)
    ensures Verdict(db, id, approve, asked, poolOk) == Done
       <==> && id in db.requests && db.requests[id].status == Pending
            && (approve ==> && (if asked > 0 then asked else db.requests[id].replicas) + Allocated(db) <= db.budget
                            && db.requests[id].tenant in db.namespaces && poolOk)
    ensures Verdict(db, id, approve, asked, poolOk) != Done ==> Review(db, id, approve, asked, poolOk) == db
  {
    hide Allocated;
  }

  /** Nothing but one request has changed, from pending to `status` with `replicas`. */
  ghost predicate Settles(db: Db, db': Db, id: string, replicas: int, status: Status)
    requires id in db.requests
  {
    && db'.requests.Keys == db.requests.Keys && db'.namespaces == db.namespaces && db'.budget == db.budget
    && (forall x :: x in db.requests && x != id ==> db'.requests[x] == db.requests[x])
    && db'.requests[id] == Request(db.requests[id].tenant, db.requests[id].template, replicas, status)
  }

  /** A rejection grants nothing and touches no pool. */
  lemma RejectionGrantsNothing(db: Db, id: string, asked: int, poolOk: bool)
    requires Verdict(db, id, false, asked, poolOk) == Done
    ensures var db' := Review(db, id, false, asked, poolOk);
            Settles(db, db', id, db.requests[id].replicas, Rejected) && db'.pools == db.pools && Allocated(db') == Allocated(db)
  {
    hide Allocated;
    var db' := Review(db, id, false, asked, poolOk);
    AllocatedPut(db, db', id, db'.requests[id]);
  }

  /**
  An approval grants the administrator's number, or else what was asked, to the request and to its
  tenant's pool of that template, exactly, and touches no other.
  */
  lemma ApprovalGrantsExactly(db: Db, id: string, asked: int, poolOk: bool)
    requires Verdict(db, id, true, asked, poolOk) == Done
    ensures var db' := Review(db, id, true, asked, poolOk);
            var n := if asked > 0 then asked else db.requests[id].replicas;
            var k := (db.namespaces[db.requests[id].tenant], db.requests[id].template);
            && Settles(db, db', id, n, Approved) && Allocated(db') == Allocated(db) + n
            && db'.pools.Keys == db.pools.Keys + {k}
            && (forall x :: x in db.pools && x != k ==> db'.pools[x] == db.pools[x])
            && (0 < n <= 0x2AAA_AAAA && (k in db.pools ==> db.pools[k].minReplicas <= n) ==> Want(db'.pools[k]) == n)
  {
    hide Allocated, Upserted, Want;
    var db' := Review(db, id, true, asked, poolOk);
    var n := if asked > 0 then asked else db.requests[id].replicas;
    var k := (db.namespaces[db.requests[id].tenant], db.requests[id].template);
    AllocatedPut(db, db', id, db'.requests[id]);
    if 0 < n <= 0x2AAA_AAAA && (k in db.pools ==> db.pools[k].minReplicas <= n) {
      UpsertWantsExactly(PoolAt(db, k), n);
    }
  }

  // ---- what every run keeps

  ghost predicate WithinBudget(db: Db) {
    && 0 <= Allocated(db) <= Pool.Max(0, db.budget)
    && (forall id :: id in db.requests ==> db.requests[id].replicas > 0)
  }

  /** A pool that no run of approvals under this budget can make want more than it was approved for. */
  predicate Modest(size: Size, budget: int) {
    budget <= 0 || size.minReplicas <= 1 || (size.maxReplicas == 1 && (size.minReplicas == 2 || budget == 1))
  }

  /** Each tenant's pool is modest, or has a floor of two and has been approved for as much. */
  ghost predicate Fair(db: Db, given: map<Key, int>, k: Key)
    requires k in db.pools
  {
    Modest(db.pools[k], db.budget) || (db.pools[k].minReplicas == 2 && k in given && given[k] >= 2)
  }

  /** `given` is what has been approved for each pool that approvals have written. */
  ghost predicate Supplied(db: Db, given: map<Key, int>) {
    && Total(given) == Allocated(db) && given.Keys <= db.pools.Keys
    && (forall k :: k in given ==> Want(db.pools[k]) <= given[k])
    && (forall k :: k in db.pools && k.0 in db.namespaces.Values ==> Fair(db, given, k))
  }

  lemma RequestsPut(db: Db, id: string, req: Request)
    ensures Grants(db.requests[id := req]) == Grants(db.requests)[id := if req.status == Approved then req.replicas else 0]
  {
  }

  /** A request becomes approved for `granted`, or is settled otherwise with nothing granted. */
  lemma AllocatedPut(db: Db, db': Db, id: string, req: Request)
    requires db'.requests == db.requests[id := req]
    requires id in db.requests ==> db.requests[id].status == Pending
    ensures Allocated(db') == Allocated(db) + if req.status == Approved then req.replicas else 0
  {
    RequestsPut(db, id, req);
    Put(Grants(db.requests), id, if req.status == Approved then req.replicas else 0);
  }

  lemma NextKeepsBudget(db: Db, e: Event)
    requires WithinBudget(db) && Possible(db, e)
    ensures WithinBudget(Next(db, e)) && Next(db, e).budget == db.budget && Next(db, e).namespaces == db.namespaces
  {
    var db' := Next(db, e);
    match e {
      case Asks(id, tenant, template, replicas, _) =>
        if db' != db {
          AllocatedPut(db, db', id, Request(tenant, template, replicas, Pending));
        }
      case Reviews(id, approve, asked, poolOk) =>
        if Verdict(db, id, approve, asked, poolOk) == Done {
          AllocatedPut(db, db', id, db'.requests[id]);
        }
    }
  }

  /** What has been approved for the pools, after one more approval. */
  function MoreGiven(given: map<Key, int>, k: Key, replicas: int): map<Key, int> {
    given[k := (if k in given then given[k] else 0) + replicas]
  }

  /** An approval makes a fair pool want no more than it has been approved for by now, and leaves it fair. */
  lemma ApprovalIsFair(db: Db, given: map<Key, int>, k: Key, replicas: int)
    requires k.0 in db.namespaces.Values && (k in given ==> given[k] >= 0)
    requires k in db.pools ==> Fair(db, given, k)
    requires 0 < replicas <= db.budget
    ensures var size := Upserted(PoolAt(db, k), replicas);
            var given' := MoreGiven(given, k, replicas);
            && Want(size) <= given'[k]
            && (Modest(size, db.budget) || (size.minReplicas == 2 && given'[k] >= 2))
  {
  }

  lemma ApprovalKeepsSupply(db: Db, given: map<Key, int>, db': Db, k: Key, replicas: int)
    requires Supplied(db, given) && k.0 in db.namespaces.Values && 0 < replicas <= db.budget
    requires db'.pools == db.pools[k := Upserted(PoolAt(db, k), replicas)]
    requires db'.budget == db.budget && db'.namespaces == db.namespaces && Allocated(db') == Allocated(db) + replicas
    ensures Supplied(db', MoreGiven(given, k, replicas))
  {
    var given' := MoreGiven(given, k, replicas);
    ApprovalIsFair(db, given, k, replicas);
    Put(given, k, given'[k]);
    hide Total, Allocated, Upserted, Pool.Target, Modest;
    forall x | x in db'.pools && x.0 in db'.namespaces.Values
      ensures Fair(db', given', x)
    {
      if x != k {
        assert Fair(db, given, x);
      }
    }
  }

  lemma SamePoolsSupplied(db: Db, given: map<Key, int>, db': Db)
    requires Supplied(db, given) && Allocated(db') == Allocated(db)
    requires db'.pools == db.pools && db'.namespaces == db.namespaces && db'.budget == db.budget
    ensures Supplied(db', given)
  {
    hide Total, Allocated, Want, Modest;
    assert forall k :: k in db.pools ==> (Fair(db', given, k) <==> Fair(db, given, k));
  }

  lemma NextKeepsSupply(db: Db, given: map<Key, int>, e: Event) returns (given': map<Key, int>)
    requires WithinBudget(db) && Supplied(db, given) && Possible(db, e)
    ensures Supplied(Next(db, e), given') && given'.Keys == given.Keys + WrittenBy(db, e)
  {
    hide Supplied, Allocated, Upserted;
    var db' := Next(db, e);
    given' := given;
    if e.Asks? && db' != db {
      AllocatedPut(db, db', e.id, Request(e.tenant, e.template, e.replicas, Pending));
      SamePoolsSupplied(db, given, db');
    } else if e.Reviews? && Verdict(db, e.id, e.approve, e.asked, e.poolOk) == Done {
      var req := db.requests[e.id];
      AllocatedPut(db, db', e.id, db'.requests[e.id]);
      if e.approve {
        var k := (db.namespaces[req.tenant], req.template);
        ApprovalKeepsSupply(db, given, db', k, Reviewed(req, e.asked));
        given' := MoreGiven(given, k, Reviewed(req, e.asked));
      } else {
        SamePoolsSupplied(db, given, db');
      }
    }
  }

  ghost function After(db: Db, es: seq<Event>): Db
    decreases |es|
  {
    if es == [] then db else After(Next(db, es[0]), es[1..])
  }

  ghost function WrittenIn(db: Db, es: seq<Event>): set<Key>
    decreases |es|
  {
    if es == [] then {} else WrittenBy(db, es[0]) + WrittenIn(Next(db, es[0]), es[1..])
  }

  ghost predicate Serial(db: Db, es: seq<Event>)
    decreases |es|
  {
    es == [] || (Possible(db, es[0]) && Serial(Next(db, es[0]), es[1..]))
  }

  lemma {:induction false} RunKeepsBudget(db: Db, es: seq<Event>)
    requires WithinBudget(db) && Serial(db, es)
    ensures WithinBudget(After(db, es)) && After(db, es).budget == db.budget
    decreases |es|
  {
    hide WithinBudget, Next, Possible;
    if es != [] {
      NextKeepsBudget(db, es[0]);
      RunKeepsBudget(Next(db, es[0]), es[1..]);
    }
  }

  lemma {:induction false} RunKeepsSupply(db: Db, given: map<Key, int>, es: seq<Event>) returns (given': map<Key, int>)
    requires WithinBudget(db) && Supplied(db, given) && Serial(db, es)
    ensures Supplied(After(db, es), given') && given'.Keys == given.Keys + WrittenIn(db, es)
    decreases |es|
  {
    hide WithinBudget, Supplied, Next, WrittenBy, Possible;
    given' := given;
    if es != [] {
      NextKeepsBudget(db, es[0]);
      given' := NextKeepsSupply(db, given, es[0]);
      given' := RunKeepsSupply(Next(db, es[0]), given', es[1..]);
    }
  }

  // ---- what it comes to

  /** A server without requests yet, over whatever pools there are. */
  function Start(namespaces: map<string, string>, pools: map<Key, Size>, budget: int): Db {
    Db(namespaces, map[], pools, budget)
  }

  lemma StartIsEmpty(namespaces: map<string, string>, pools: map<Key, Size>, budget: int)
    ensures Allocated(Start(namespaces, pools, budget)) == 0
  {
    assert Grants(Start(namespaces, pools, budget).requests) == map[];
  }

  /** In every run under a fixed budget, what is approved stays within it, whatever the pools. */
  lemma ApprovalsStayWithinBudget(namespaces: map<string, string>, pools: map<Key, Size>, budget: int, es: seq<Event>)
    requires Serial(Start(namespaces, pools, budget), es)
    ensures 0 <= Allocated(After(Start(namespaces, pools, budget), es)) <= Pool.Max(0, budget)
  {
    StartIsEmpty(namespaces, pools, budget);
    RunKeepsBudget(Start(namespaces, pools, budget), es);
  }

  /** The pools that the approvals of a run wrote want no more, all together, than was approved. */
  ghost predicate SupplyIsBounded(start: Db, es: seq<Event>) {
    Standing(After(start, es), WrittenIn(start, es)) <= Allocated(After(start, es))
  }

  ghost predicate AllModest(namespaces: map<string, string>, pools: map<Key, Size>, budget: int) {
    forall k :: k in pools && k.0 in namespaces.Values ==> Modest(pools[k], budget)
  }

  lemma ModestPoolsAreBounded(namespaces: map<string, string>, pools: map<Key, Size>, budget: int, es: seq<Event>)
    requires AllModest(namespaces, pools, budget) && Serial(Start(namespaces, pools, budget), es)
    ensures SupplyIsBounded(Start(namespaces, pools, budget), es)
  {
    var start := Start(namespaces, pools, budget);
    var end := After(start, es);
    StartIsEmpty(namespaces, pools, budget);
    assert Supplied(start, map[]);
    var given := RunKeepsSupply(start, map[], es);
    hide After, WrittenIn, Serial;
    assert Wants(end.pools, given.Keys).Keys == given.Keys;
    AtMost(Wants(end.pools, given.Keys), given);
    assert given.Keys == WrittenIn(start, es);
  }

  /** One request for `replicas`, approved as it stands. */
  function AskAndApprove(tenant: string, template: string, replicas: int): seq<Event> {
    [Asks("w", tenant, template, replicas, true), Reviews("w", true, 0, true)]
  }

  lemma TwoSteps(start: Db, a: Event, b: Event)
    ensures After(start, [a, b]) == Next(Next(start, a), b)
    ensures WrittenIn(start, [a, b]) == WrittenBy(start, a) + WrittenBy(Next(start, a), b)
    ensures Serial(start, [a, b]) <==> Possible(start, a) && Possible(Next(start, a), b)
  {
    hide Next, WrittenBy, Possible;
    var mid, end := Next(start, a), Next(Next(start, a), b);
    assert [a, b][1..] == [b] && [b][1..] == [];
    assert After(end, []) == end && WrittenIn(end, []) == {} && Serial(end, []);
    assert After(mid, [b]) == end && WrittenIn(mid, [b]) == WrittenBy(mid, b) && (Serial(mid, [b]) <==> Possible(mid, b));
  }

  lemma AfterAsking(start: Db, tenant: string, template: string, replicas: int)
    requires start.requests == map[] && replicas > 0
    ensures var db := Next(start, Asks("w", tenant, template, replicas, true));
            && db == start.(requests := map["w" := Request(tenant, template, replicas, Pending)])
            && Allocated(db) == 0
  {
    hide Total;
    assert Grants(map["w" := Request(tenant, template, replicas, Pending)]) == map["w" := 0];
    Single("w", 0);
  }

  lemma AfterApproving(start: Db, tenant: string, template: string, replicas: int)
    requires start.requests == map["w" := Request(tenant, template, replicas, Pending)] && Allocated(start) == 0
    requires tenant in start.namespaces && 0 < replicas <= start.budget
    ensures var e := Reviews("w", true, 0, true);
            var k := (start.namespaces[tenant], template);
            && WrittenBy(start, e) == {k} && Allocated(Next(start, e)) == replicas
            && Standing(Next(start, e), {k}) == Want(Upserted(PoolAt(start, k), replicas))
  {
    hide Total, Upserted, Want;
    var end := Next(start, Reviews("w", true, 0, true));
    var k := (start.namespaces[tenant], template);
    assert Grants(end.requests) == map["w" := replicas];
    Single("w", replicas);
    assert Wants(end.pools, {k}) == map[k := Want(Upserted(PoolAt(start, k), replicas))];
    Single(k, Want(Upserted(PoolAt(start, k), replicas)));
  }

  lemma AfterAskAndApprove(start: Db, tenant: string, template: string, replicas: int)
    requires start.requests == map[] && tenant in start.namespaces && 0 < replicas <= start.budget
    ensures var es := AskAndApprove(tenant, template, replicas);
            var k := (start.namespaces[tenant], template);
            && Serial(start, es) && WrittenIn(start, es) == {k} && Allocated(After(start, es)) == replicas
            && Standing(After(start, es), {k}) == Want(Upserted(PoolAt(start, k), replicas))
  {
    hide Allocated, Standing, Upserted, Want, After, WrittenIn, Serial, Next, Verdict;
    var a, b := Asks("w", tenant, template, replicas, true), Reviews("w", true, 0, true);
    TwoSteps(start, a, b);
    AfterAsking(start, tenant, template, replicas);
    AfterApproving(Next(start, a), tenant, template, replicas);
    assert WrittenBy(start, a) == {};
  }

  /** A tenant's pool that is not modest can be made to want more than was approved, by a single approval. */
  lemma ImmodestPoolBreaksIt(namespaces: map<string, string>, pools: map<Key, Size>, budget: int, tenant: string, template: string)
    returns (es: seq<Event>)
    requires tenant in namespaces && (namespaces[tenant], template) in pools
    requires !Modest(pools[(namespaces[tenant], template)], budget)
    ensures Serial(Start(namespaces, pools, budget), es) && !SupplyIsBounded(Start(namespaces, pools, budget), es)
  {
    var size := pools[(namespaces[tenant], template)];
    var replicas := if size.maxReplicas != 1 then 1 else 2;
    es := AskAndApprove(tenant, template, replicas);
    assert Want(Upserted(Some(size), replicas)) > replicas;
    hide Allocated, Standing, Upserted, Want, After, WrittenIn, Serial;
    AfterAskAndApprove(Start(namespaces, pools, budget), tenant, template, replicas);
  }

  /**
  So the supply bound holds in every run exactly when every pool that is already there in a tenant's
  namespace has a floor of at most one, or a ceiling of one under a floor of two or a budget of one.
  */
  lemma SupplyIsBoundedIff(namespaces: map<string, string>, pools: map<Key, Size>, budget: int)
    ensures AllModest(namespaces, pools, budget)
       <==> forall es :: Serial(Start(namespaces, pools, budget), es) ==> SupplyIsBounded(Start(namespaces, pools, budget), es)
  {
    hide SupplyIsBounded, Serial, Modest;
    if AllModest(namespaces, pools, budget) {
      forall es | Serial(Start(namespaces, pools, budget), es)
        ensures SupplyIsBounded(Start(namespaces, pools, budget), es)
      {
        ModestPoolsAreBounded(namespaces, pools, budget, es);
      }
    } else {
      var k :| k in pools && k.0 in namespaces.Values && !Modest(pools[k], budget);
      var tenant :| tenant in namespaces && namespaces[tenant] == k.0;
      var es := ImmodestPoolBreaksIt(namespaces, pools, budget, tenant, k.1);
    }
  }
}
