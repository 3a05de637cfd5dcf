/**
Creating a sandbox: the idempotency key, the tenant's quota, the object, the record
(pkg/apiserver/server.go, pkg/apiserver/quota.go, pkg/apiserver/memstore.go). Handlers run
one at a time; the clock and the fresh id come in with the request.
*/
module Quota {
  import opened Options

  /** A minute in nanoseconds, the unit of every instant here. */
  const MINUTE := 60_000_000_000

  datatype Limits = Limits(maxConcurrent: int, maxPerMinute: int)

  datatype Record = Record(tenant: string, createdAt: int, deleted: bool)

  /** What a key was used for: the checksum of the request and the sandbox it made. */
  datatype Used = Used(tenant: string, key: string, sum: string, box: string)

  datatype Db = Db(quotas: map<string, Limits>, boxes: map<string, Record>, used: map<string, Used>)

  // ------------------------------------------------------------ counts

  function Running(boxes: map<string, Record>, tenant: string): set<string> {
    set id | id in boxes && boxes[id].tenant == tenant && !boxes[id].deleted
  }

  function Since(boxes: map<string, Record>, tenant: string, since: int): set<string> {
    set id | id in boxes && boxes[id].tenant == tenant && boxes[id].createdAt > since
  }

  /** What was created in the minute after `w`: later than `w`, at `w + MINUTE` at the latest. */
  function Window(boxes: map<string, Record>, tenant: string, w: int): set<string> {
    set id | id in boxes && boxes[id].tenant == tenant && w < boxes[id].createdAt <= w + MINUTE
  }

  // ------------------------------------------------------------ requests

  /** A create request, with the two clock readings it takes and whether the API server took the object. */
  datatype Create = Create(
    tenant: string, key: string, sum: string, id: string, checkAt: int, recordAt: int, accepted: bool)

  datatype Outcome =
    | Replayed(box: string)
    | Mismatch
    | OverConcurrent
    | OverRate
    | Refused
    | Created(box: string)

  /** Where MemStore keeps a tenant's key. */
  function Slot(tenant: string, key: string): string {
    tenant + "/" + key
  }

  /** What a tenant's key was used for, as far as the store knows. */
  function UsedFor(db: Db, tenant: string, key: string): Option<Used> {
    if Slot(tenant, key) in db.used then Some(db.used[Slot(tenant, key)]) else None
  }

  /** The limit that stands in the way of one more sandbox at `now`, if one does. */
  function OverQuota(db: Db, tenant: string, now: int): Option<Outcome> {
    if tenant !in db.quotas then None
    else
      var q := db.quotas[tenant];
      if q.maxConcurrent > 0 && |Running(db.boxes, tenant)| >= q.maxConcurrent then Some(OverConcurrent)
      else if q.maxPerMinute > 0 && |Since(db.boxes, tenant, now - MINUTE)| >= q.maxPerMinute then Some(OverRate)
      else None
  }

  function Answer(db: Db, c: Create): Outcome {
    if c.key != "" && Slot(c.tenant, c.key) in db.used then
      var prev := db.used[Slot(c.tenant, c.key)];
      if prev.sum != c.sum then Mismatch else Replayed(prev.box)
    else if OverQuota(db, c.tenant, c.checkAt).Some? then OverQuota(db, c.tenant, c.checkAt).value
    else if !c.accepted then Refused
    else Created(c.id)
  }

  /** The tenant's creates of the minute up to `now`, or recorded for later. */
  function LastMinute(db: Db, tenant: string, now: int): set<string> {
    set id | id in db.boxes && db.boxes[id].tenant == tenant && now - db.boxes[id].createdAt < 60_000_000_000
  }

  /**
  How a create is answered, case by case. A used key comes first, so a retry is never refused; a
  limit refuses only when it is positive and reached; a tenant without a quota is never refused.
  */
  lemma AnswerIff(db: Db, c: Create)
    ensures var used := if c.key == "" then None else UsedFor(db, c.tenant, c.key);
            var crowded := c.tenant in db.quotas && 0 < db.quotas[c.tenant].maxConcurrent <= |Running(db.boxes, c.tenant)|;
            var hurried := c.tenant in db.quotas
                           && 0 < db.quotas[c.tenant].maxPerMinute <= |LastMinute(db, c.tenant, c.checkAt)|;
            && (Answer(db, c).Replayed? <==> used.Some? && used.value.sum == c.sum)
            && (Answer(db, c).Replayed? ==> Answer(db, c).box == used.value.box)
            && (Answer(db, c).Mismatch? <==> used.Some? && used.value.sum != c.sum)
            && (Answer(db, c).OverConcurrent? <==> used.None? && crowded)
            && (Answer(db, c).OverRate? <==> used.None? && !crowded && hurried)
            && (Answer(db, c).Refused? <==> used.None? && !crowded && !hurried && !c.accepted)
            && (Answer(db, c).Created? <==> used.None? && !crowded && !hurried && c.accepted)
  {
    assert LastMinute(db, c.tenant, c.checkAt) == Since(db.boxes, c.tenant, c.checkAt - MINUTE);
    hide Running, Since, LastMinute;
  }

  /** What a create leaves in the store: its record, its key if it has one, and all that was there. */
  lemma CreatedIsRecorded(db: Db, c: Create)
    requires c.id !in db.boxes
    ensures var db' := Recorded(db, c);
            && db'.boxes.Keys == db.boxes.Keys + {c.id} && (forall id :: id in db.boxes ==> db'.boxes[id] == db.boxes[id])
            && db'.boxes[c.id].tenant == c.tenant && db'.boxes[c.id].createdAt == c.recordAt && !db'.boxes[c.id].deleted
            && db'.quotas == db.quotas
            && (c.key != "" ==> UsedFor(db', c.tenant, c.key) == Some(Used(c.tenant, c.key, c.sum, c.id)))
            && (c.key == "" ==> db'.used == db.used)
  {
  }

  /** The store after a sandbox was made and recorded. */
  function Recorded(db: Db, c: Create): Db {
    db.(boxes := db.boxes[c.id := Record(c.tenant, c.recordAt, false)],
        used := if c.key == "" then db.used
                else db.used[Slot(c.tenant, c.key) := Used(c.tenant, c.key, c.sum, c.id)])
  }

  // ------------------------------------------------------------ the store

  class MemStore {
    var quotas: map<string, Limits>
    var boxes: map<string, Record>
    var used: map<string, Used>

    ghost function View(): Db
      reads this
    {
      Db(quotas, boxes, used)
    }

    constructor (quotas: map<string, Limits>)
      ensures View() == Db(quotas, map[], map[])
    {
      this.quotas, boxes, used := quotas, map[], map[];
    }

    method CountRunning(tenant: string) returns (n: nat)
      ensures n == |Running(boxes, tenant)|
    {
      n := 0;
      var left := boxes;
      while left != map[]
        invariant n + |Running(left, tenant)| == |Running(boxes, tenant)|
        decreases |left|
      {
        var id :| id in left;
        assert Running(left - {id}, tenant) == Running(left, tenant) - {id};
        if left[id].tenant == tenant && !left[id].deleted {
          n := n + 1;
        }
        left := left - {id};
      }
    }

    method CountCreatedSince(tenant: string, since: int) returns (n: nat)
      ensures n == |Since(boxes, tenant, since)|
    {
      n := 0;
      var left := boxes;
      while left != map[]
        invariant n + |Since(left, tenant, since)| == |Since(boxes, tenant, since)|
        decreases |left|
      {
        var id :| id in left;
        assert Since(left - {id}, tenant, since) == Since(left, tenant, since) - {id};
        if left[id].tenant == tenant && left[id].createdAt > since {
          n := n + 1;
        }
        left := left - {id};
      }
    }

    method CheckQuota(tenant: string, now: int) returns (r: Option<Outcome>)
      ensures r == OverQuota(View(), tenant, now)
    {
      if tenant !in quotas {
        return None;
      }
      var q := quotas[tenant];
      if q.maxConcurrent > 0 {
        var running := CountRunning(tenant);
        if running >= q.maxConcurrent {
          return Some(OverConcurrent);
        }
      }
      if q.maxPerMinute > 0 {
        var created := CountCreatedSince(tenant, now - MINUTE);
        if created >= q.maxPerMinute {
          return Some(OverRate);
        }
      }
      return None;
    }

    method RecordSandbox(id: string, r: Record)
      modifies this
      ensures View() == old(View()).(boxes := old(boxes)[id := r])
      ensures id !in old(boxes) && !r.deleted ==>
                forall t :: |Running(boxes, t)| == |Running(old(boxes), t)| + if r.tenant == t then 1 else 0
    {
      if id !in boxes && !r.deleted {
        forall t ensures |Running(boxes[id := r], t)| == |Running(boxes, t)| + if r.tenant == t then 1 else 0 {
          RunningPut(boxes, id, r, t);
        }
      }
      boxes := boxes[id := r];
    }

    method SaveIdempotency(u: Used)
      modifies this
      ensures View() == old(View()).(used := old(used)[Slot(u.tenant, u.key) := u])
      ensures forall t, k :: (t, k) != (u.tenant, u.key) && !Under(t, u.tenant) && !Under(u.tenant, t) ==>
                UsedFor(View(), t, k) == UsedFor(old(View()), t, k)
    {
      forall t, k | (t, k) != (u.tenant, u.key) && !Under(t, u.tenant) && !Under(u.tenant, t)
        ensures Slot(t, k) != Slot(u.tenant, u.key)
      {
        OtherSlot(t, k, u.tenant, u.key);
      }
      used := used[u.tenant + "/" + u.key := u];
    }

    method CreateSandbox(c: Create) returns (r: Outcome)
      modifies this
      ensures r == Answer(old(View()), c)
      ensures View() == if r.Created? then Recorded(old(View()), c) else old(View())
    {
      if c.key != "" && Slot(c.tenant, c.key) in used {
        var prev := used[Slot(c.tenant, c.key)];
        return if prev.sum != c.sum then Mismatch else Replayed(prev.box);
      }
      var over := CheckQuota(c.tenant, c.checkAt);
      if over.Some? {
        return over.value;
      }
      if !c.accepted {
        return Refused;
      }
      RecordSandbox(c.id, Record(c.tenant, c.recordAt, false));
      if c.key != "" {
        SaveIdempotency(Used(c.tenant, c.key, c.sum, c.id));
      }
      return Created(c.id);
    }
  }

  // ------------------------------------------------------------ runs

  /** Besides creating: deleting a sandbox, which leaves its record alone, and a record update that marks it deleted. */
  datatype Event = Creates(c: Create) | Deletes(tenant: string, id: string) | Marks(id: string)

  function Next(db: Db, e: Event): Db {
    match e
    case Creates(c) => if Answer(db, c).Created? then Recorded(db, c) else db
    case Deletes(_, _) => db
    case Marks(id) => if id in db.boxes then db.(boxes := db.boxes[id := db.boxes[id].(deleted := true)]) else db
  }

  /** Ids are fresh, and a request reads the clock for the record no earlier than for the check. */
  predicate Possible(db: Db, e: Event) {
    e.Creates? ==> e.c.id !in db.boxes && e.c.checkAt <= e.c.recordAt
  }

  function After(db: Db, es: seq<Event>): Db
    decreases |es|
  {
    if es == [] then db else After(Next(db, es[0]), es[1..])
  }

  predicate Serial(db: Db, es: seq<Event>)
    decreases |es|
  {
    es == [] || (Possible(db, es[0]) && Serial(Next(db, es[0]), es[1..]))
  }

  ghost predicate WithinQuota(db: Db, tenant: string) {
    tenant in db.quotas ==>
      && (db.quotas[tenant].maxConcurrent > 0 ==> |Running(db.boxes, tenant)| <= db.quotas[tenant].maxConcurrent)
      && (db.quotas[tenant].maxPerMinute > 0 ==>
            forall w :: |Window(db.boxes, tenant, w)| <= db.quotas[tenant].maxPerMinute)
  }

  lemma Fewer(a: set<string>, b: set<string>)
    requires a <= b
    ensures |a| <= |b|
  {
    assert b == a + (b - a);
  }

  lemma RunningPut(boxes: map<string, Record>, id: string, r: Record, tenant: string)
    requires id !in boxes && !r.deleted
    ensures |Running(boxes[id := r], tenant)| == |Running(boxes, tenant)| + if r.tenant == tenant then 1 else 0
  {
    if r.tenant == tenant {
      assert Running(boxes[id := r], tenant) == Running(boxes, tenant) + {id};
    } else {
      assert Running(boxes[id := r], tenant) == Running(boxes, tenant);
    }
  }

  /**
  A record adds nothing to another tenant's minutes or to a minute that ended before it; every
  other minute was counted, as far as it is filled, by the check that let the record through.
  */
  lemma WindowPut(boxes: map<string, Record>, id: string, r: Record, tenant: string, w: int, checkAt: int)
    requires id !in boxes && checkAt <= r.createdAt
    ensures || Window(boxes[id := r], tenant, w) == Window(boxes, tenant, w)
            || (r.tenant == tenant && |Window(boxes[id := r], tenant, w)| <= |Since(boxes, tenant, checkAt - MINUTE)| + 1)
  {
    if r.tenant == tenant && r.createdAt <= w + MINUTE {
      Fewer(Window(boxes, tenant, w), Since(boxes, tenant, checkAt - MINUTE));
      Fewer(Window(boxes[id := r], tenant, w), Window(boxes, tenant, w) + {id});
    } else {
      assert Window(boxes[id := r], tenant, w) == Window(boxes, tenant, w);
    }
  }

  lemma RecordKeepsQuota(db: Db, c: Create, tenant: string)
    requires Possible(db, Creates(c)) && Answer(db, c).Created? && WithinQuota(db, tenant)
    ensures WithinQuota(Recorded(db, c), tenant)
  {
    assert OverQuota(db, c.tenant, c.checkAt) == None;
    hide Answer, Running, Window, Since;
    var r := Record(c.tenant, c.recordAt, false);
    RunningPut(db.boxes, c.id, r, tenant);
    forall w ensures tenant in db.quotas && db.quotas[tenant].maxPerMinute > 0 ==>
                       |Window(Recorded(db, c).boxes, tenant, w)| <= db.quotas[tenant].maxPerMinute {
      WindowPut(db.boxes, c.id, r, tenant, w, c.checkAt);
    }
  }

  lemma NextKeepsQuota(db: Db, e: Event, tenant: string)
    requires Possible(db, e) && WithinQuota(db, tenant)
    ensures WithinQuota(Next(db, e), tenant)
  {
    match e {
      case Creates(c) =>
        if Answer(db, c).Created? {
          RecordKeepsQuota(db, c, tenant);
        }
      case Deletes(_, _) =>
      case Marks(id) =>
        var db' := Next(db, e);
        Fewer(Running(db'.boxes, tenant), Running(db.boxes, tenant));
        assert forall w :: Window(db'.boxes, tenant, w) == Window(db.boxes, tenant, w);
    }
  }

  /**
  In every run, no minute holds more of a tenant's creates than its rate limit, and no more of its
  sandboxes are undeleted than its concurrency limit. The clock may even step back between requests.
  */
  lemma {:induction false} RunStaysWithinQuota(db: Db, es: seq<Event>, tenant: string)
    requires Serial(db, es) && WithinQuota(db, tenant)
    ensures WithinQuota(After(db, es), tenant)
    decreases |es|
  {
    hide WithinQuota, Possible, Next;
    if es != [] {
      NextKeepsQuota(db, es[0], tenant);
      RunStaysWithinQuota(Next(db, es[0]), es[1..], tenant);
    }
  }

  lemma EmptyIsWithinQuota(quotas: map<string, Limits>, tenant: string)
    ensures WithinQuota(Db(quotas, map[], map[]), tenant)
  {
  }

  /** From an empty store on, for every tenant with a quota. */
  lemma LimitsHold(quotas: map<string, Limits>, es: seq<Event>, tenant: string)
    requires Serial(Db(quotas, map[], map[]), es) && tenant in quotas
    ensures var boxes := After(Db(quotas, map[], map[]), es).boxes;
            && (quotas[tenant].maxConcurrent > 0 ==> |Running(boxes, tenant)| <= quotas[tenant].maxConcurrent)
            && (quotas[tenant].maxPerMinute > 0 ==> forall w :: |Window(boxes, tenant, w)| <= quotas[tenant].maxPerMinute)
  {
    EmptyIsWithinQuota(quotas, tenant);
    RunStaysWithinQuota(Db(quotas, map[], map[]), es, tenant);
    QuotasStay(Db(quotas, map[], map[]), es);
  }

  /** A minute taken with both its ends can hold one more than the limit. */
  lemma ClosedMinuteHoldsOneMore()
    ensures var db := Db(map["t" := Limits(0, 1)], map[], map[]);
            var es := [Creates(Create("t", "", "", "a", 0, 0, true)), Creates(Create("t", "", "", "b", MINUTE, MINUTE, true))];
            && Serial(db, es)
            && Since(After(db, es).boxes, "t", -1) == {"a", "b"}
            && (forall id :: id in After(db, es).boxes ==> 0 <= After(db, es).boxes[id].createdAt <= MINUTE)
  {
    var db := Db(map["t" := Limits(0, 1)], map[], map[]);
    var a, b := Create("t", "", "", "a", 0, 0, true), Create("t", "", "", "b", MINUTE, MINUTE, true);
    assert Since(db.boxes, "t", -MINUTE) == {};
    assert Since(Recorded(db, a).boxes, "t", 0) == {};
    assert Answer(db, a).Created? && Answer(Recorded(db, a), b).Created?;
    var es := [Creates(a), Creates(b)];
    assert es[1..] == [Creates(b)];
    assert After(Recorded(db, a), es[1..]) == Recorded(Recorded(db, a), b);
  }

  // ------------------------------------------------------------ what the concurrency limit counts

  /** How many sandboxes the run makes for the tenant. */
  function Made(db: Db, es: seq<Event>, tenant: string): nat
    decreases |es|
  {
    if es == [] then 0
    else (if Makes(db, es[0], tenant) then 1 else 0) + Made(Next(db, es[0]), es[1..], tenant)
  }

  predicate Makes(db: Db, e: Event, tenant: string) {
    e.Creates? && e.c.tenant == tenant && Answer(db, e.c).Created?
  }

  /** How many of the tenant's records the run marks deleted that were not. */
  function Freed(db: Db, es: seq<Event>, tenant: string): nat
    decreases |es|
  {
    if es == [] then 0
    else (if Frees(db, es[0], tenant) then 1 else 0) + Freed(Next(db, es[0]), es[1..], tenant)
  }

  predicate Frees(db: Db, e: Event, tenant: string) {
    e.Marks? && e.id in Running(db.boxes, tenant)
  }

  lemma RunningMarked(boxes: map<string, Record>, id: string, tenant: string)
    requires id in boxes
    ensures |Running(boxes[id := boxes[id].(deleted := true)], tenant)|
         == |Running(boxes, tenant)| - if id in Running(boxes, tenant) then 1 else 0
  {
    assert Running(boxes[id := boxes[id].(deleted := true)], tenant) == Running(boxes, tenant) - {id};
  }

  lemma NextCounts(db: Db, e: Event, tenant: string)
    requires Possible(db, e)
    ensures |Running(Next(db, e).boxes, tenant)|
         == |Running(db.boxes, tenant)| + (if Makes(db, e, tenant) then 1 else 0) - if Frees(db, e, tenant) then 1 else 0
  {
    if e.Marks? && e.id in db.boxes {
      RunningMarked(db.boxes, e.id, tenant);
    }
    assert e.Marks? && e.id !in db.boxes ==> !Frees(db, e, tenant);
    hide OverQuota, Running;
    if e.Creates? && Answer(db, e.c).Created? {
      RunningPut(db.boxes, e.c.id, Record(e.c.tenant, e.c.recordAt, false), tenant);
    }
  }

  /** The count the limit is held against: what was made, less what was marked deleted. */
  lemma {:induction false} RunningCounts(db: Db, es: seq<Event>, tenant: string)
    requires Serial(db, es)
    ensures |Running(After(db, es).boxes, tenant)|
         == |Running(db.boxes, tenant)| + Made(db, es, tenant) - Freed(db, es, tenant)
    decreases |es|
  {
    hide Next, Possible, Makes, Frees, Running;
    if es != [] {
      NextCounts(db, es[0], tenant);
      RunningCounts(Next(db, es[0]), es[1..], tenant);
    }
  }

  /**
  Nothing in the server marks a record deleted. In a run without such marks a tenant's count only
  grows, by one for every sandbox made, whatever the tenant deletes.
  */
  lemma DeletingFreesNothing(db: Db, es: seq<Event>, tenant: string)
    requires Serial(db, es) && forall i :: 0 <= i < |es| ==> !es[i].Marks?
    ensures |Running(After(db, es).boxes, tenant)| == |Running(db.boxes, tenant)| + Made(db, es, tenant)
  {
    hide Running;
    RunningCounts(db, es, tenant);
    NoMarksNothingFreed(db, es, tenant);
  }

  lemma {:induction false} NoMarksNothingFreed(db: Db, es: seq<Event>, tenant: string)
    requires forall i :: 0 <= i < |es| ==> !es[i].Marks?
    ensures Freed(db, es, tenant) == 0
    decreases |es|
  {
    if es != [] {
      NoMarksNothingFreed(Next(db, es[0]), es[1..], tenant);
    }
  }

  /** So the limit on running sandboxes is one on how many the tenant ever makes. */
  lemma LimitIsForLife(quotas: map<string, Limits>, es: seq<Event>, tenant: string)
    requires tenant in quotas && quotas[tenant].maxConcurrent > 0
    requires Serial(Db(quotas, map[], map[]), es) && forall i :: 0 <= i < |es| ==> !es[i].Marks?
    ensures Made(Db(quotas, map[], map[]), es, tenant) <= quotas[tenant].maxConcurrent
  {
    var db := Db(quotas, map[], map[]);
    LimitsHold(quotas, es, tenant);
    DeletingFreesNothing(db, es, tenant);
    assert Running(db.boxes, tenant) == {};
  }

  lemma {:induction false} QuotasStay(db: Db, es: seq<Event>)
    ensures After(db, es).quotas == db.quotas
    decreases |es|
  {
    if es != [] {
      QuotasStay(Next(db, es[0]), es[1..]);
    }
  }

  // ------------------------------------------------------------ idempotency

  /** What the store says of the run so far, one event later each time. */
  function Before(db: Db, es: seq<Event>, i: nat): Db
    requires i <= |es|
  {
    After(db, es[..i])
  }

  lemma {:induction false} AfterOneMore(db: Db, es: seq<Event>, e: Event)
    ensures After(db, es + [e]) == Next(After(db, es), e)
    decreases |es|
  {
    if es == [] {
      assert es + [e] == [e];
    } else {
      assert (es + [e])[1..] == es[1..] + [e];
      AfterOneMore(Next(db, es[0]), es[1..], e);
    }
  }

  lemma BeforeNext(db: Db, es: seq<Event>, i: nat)
    requires i < |es|
    ensures Before(db, es, i + 1) == Next(Before(db, es, i), es[i])
  {
    assert es[..i + 1] == es[..i] + [es[i]];
    AfterOneMore(db, es[..i], es[i]);
  }

  /** How event `i` of the run is answered. */
  function AnswerAt(db: Db, es: seq<Event>, i: nat): Outcome
    requires i < |es| && es[i].Creates?
  {
    Answer(Before(db, es, i), es[i].c)
  }

  /** A slot once taken keeps what it holds. */
  lemma {:induction false} SlotStays(db: Db, es: seq<Event>, i: nat, j: nat, slot: string)
    requires i <= j <= |es| && slot in Before(db, es, i).used
    ensures slot in Before(db, es, j).used && Before(db, es, j).used[slot] == Before(db, es, i).used[slot]
    decreases j
  {
    if i < j {
      SlotStays(db, es, i, j - 1, slot);
      BeforeNext(db, es, j - 1);
      NextKeepsSlots(Before(db, es, j - 1), es[j - 1], slot);
    }
  }

  lemma NextKeepsSlots(db: Db, e: Event, slot: string)
    requires slot in db.used
    ensures slot in Next(db, e).used && Next(db, e).used[slot] == db.used[slot]
  {
  }

  /** A key makes at most one sandbox: of two creates with one tenant and key, not both are made. */
  lemma KeyCreatesOnce(db: Db, es: seq<Event>, i: nat, j: nat)
    requires i < j < |es| && es[i].Creates? && es[j].Creates?
    requires es[i].c.tenant == es[j].c.tenant && es[i].c.key == es[j].c.key != ""
    requires AnswerAt(db, es, i).Created?
    ensures AnswerAt(db, es, j)
         == if es[j].c.sum == es[i].c.sum then Replayed(es[i].c.id) else Mismatch
  {
    BeforeNext(db, es, i);
    SlotStays(db, es, i + 1, j, Slot(es[i].c.tenant, es[i].c.key));
  }

  /** `inner` continues `outer` with a slash. */
  predicate Under(outer: string, inner: string) {
    |outer| < |inner| && outer + "/" == inner[..|outer| + 1]
  }

  lemma SlotPrefix(outer: string, k: string, inner: string, l: string)
    requires |outer| < |inner| && Slot(outer, k) == Slot(inner, l)
    ensures Under(outer, inner)
  {
    var s := Slot(outer, k);
    assert s[..|outer| + 1] == outer + "/";
    assert s[..|inner|] == inner;
    assert inner[..|outer| + 1] == s[..|outer| + 1];
  }

  /** Two tenants share no slot unless one id continues the other with a slash. */
  lemma SlotsAreApart(a: string, k: string, b: string, l: string)
    requires Slot(a, k) == Slot(b, l) && !Under(a, b) && !Under(b, a)
    ensures a == b && k == l
  {
    if |a| < |b| {
      SlotPrefix(a, k, b, l);
    } else if |b| < |a| {
      SlotPrefix(b, l, a, k);
    }
    assert Slot(a, k)[..|a|] == a && Slot(b, l)[..|b|] == b;
    assert Slot(a, k)[|a| + 1..] == k && Slot(b, l)[|b| + 1..] == l;
  }

  lemma OtherSlot(a: string, k: string, b: string, l: string)
    requires (a, k) != (b, l) && !Under(a, b) && !Under(b, a)
    ensures Slot(a, k) != Slot(b, l)
  {
    if Slot(a, k) == Slot(b, l) {
      SlotsAreApart(a, k, b, l);
    }
  }

  /** The run's tenants are no continuations of each other; ids without a slash never are. */
  predicate TenantsApart(es: seq<Event>) {
    forall i, j :: 0 <= i < |es| && 0 <= j < |es| && es[i].Creates? && es[j].Creates?
      ==> !Under(es[i].c.tenant, es[j].c.tenant)
  }

  lemma UnderHasSlash(outer: string, inner: string)
    ensures Under(outer, inner) ==> '/' in inner
  {
    if Under(outer, inner) {
      assert inner[|outer|] == inner[..|outer| + 1][|outer|] == '/';
    }
  }

  lemma SlashFreeTenantsAreApart(es: seq<Event>)
    requires forall i :: 0 <= i < |es| && es[i].Creates? ==> '/' !in es[i].c.tenant
    ensures TenantsApart(es)
  {
    forall i, j | 0 <= i < |es| && 0 <= j < |es| && es[i].Creates? && es[j].Creates?
      ensures !Under(es[i].c.tenant, es[j].c.tenant)
    {
      UnderHasSlash(es[i].c.tenant, es[j].c.tenant);
    }
  }

  /** Event `i` made what the slot holds. */
  ghost predicate MadeBy(db: Db, es: seq<Event>, i: nat, n: nat, slot: string)
    requires n <= |es|
  {
    && i < n && es[i].Creates? && AnswerAt(db, es, i).Created? && slot in Before(db, es, n).used
    && slot == Slot(es[i].c.tenant, es[i].c.key)
    && Before(db, es, n).used[slot] == Used(es[i].c.tenant, es[i].c.key, es[i].c.sum, es[i].c.id)
  }

  /** Whatever a slot holds was made by an event of the run. */
  lemma {:induction false} SlotHasMaker(db: Db, es: seq<Event>, n: nat, slot: string) returns (i: nat)
    requires db.used == map[] && n <= |es| && slot in Before(db, es, n).used
    ensures MadeBy(db, es, i, n, slot)
    decreases n
  {
    assert es[..0] == [];
    BeforeNext(db, es, n - 1);
    if slot in Before(db, es, n - 1).used {
      i := SlotHasMaker(db, es, n - 1, slot);
    } else {
      i := n - 1;
    }
  }

  /** A replay gives a tenant the sandbox that its own key made, for the same request. */
  lemma ReplayIsTheFirst(db: Db, es: seq<Event>, j: nat) returns (i: nat)
    requires db.used == map[] && TenantsApart(es)
    requires j < |es| && es[j].Creates? && AnswerAt(db, es, j).Replayed?
    ensures i < j && es[i].Creates? && AnswerAt(db, es, i) == Created(AnswerAt(db, es, j).box)
    ensures es[i].c.tenant == es[j].c.tenant && es[i].c.key == es[j].c.key && es[i].c.sum == es[j].c.sum
  {
    i := SlotHasMaker(db, es, j, Slot(es[j].c.tenant, es[j].c.key));
    SlotsAreApart(es[i].c.tenant, es[i].c.key, es[j].c.tenant, es[j].c.key);
  }

  /**
  Whenever one tenant's id does continue another's, the shorter one can name a key that answers
  with a sandbox of the longer one.
  */
  lemma NestedTenantsShare(db: Db, outer: string, inner: string, c: Create)
    requires Under(outer, inner) && c.tenant == inner && c.key != ""
    ensures var theirs := inner[|outer| + 1..] + "/" + c.key;
            Answer(Recorded(db, c), c.(tenant := outer, key := theirs)) == Replayed(c.id)
  {
    var theirs := inner[|outer| + 1..] + "/" + c.key;
    assert inner == inner[..|outer| + 1] + inner[|outer| + 1..];
    assert Slot(outer, theirs) == Slot(inner, c.key);
  }

  /** Event `j` is answered with what its own tenant and key made earlier in the run. */
  ghost predicate OwnReplay(db: Db, es: seq<Event>, j: nat)
    requires j < |es| && es[j].Creates?
  {
    exists i :: 0 <= i < j && es[i].Creates? && es[i].c.tenant == es[j].c.tenant && es[i].c.key == es[j].c.key
      && AnswerAt(db, es, i) == Created(es[i].c.id) && AnswerAt(db, es, j) == Replayed(es[i].c.id)
  }

  /** In a run of these tenants every replay is one's own. */
  ghost predicate ReplaysAreOwn(db: Db, tenants: set<string>, es: seq<Event>) {
    (forall i :: 0 <= i < |es| && es[i].Creates? ==> es[i].c.tenant in tenants) ==>
      forall j :: 0 <= j < |es| && es[j].Creates? && AnswerAt(db, es, j).Replayed? ==> OwnReplay(db, es, j)
  }

  /** A first create is never over quota. */
  lemma FirstIsCreated(quotas: map<string, Limits>, c: Create)
    requires c.accepted
    ensures Answer(Db(quotas, map[], map[]), c) == Created(c.id)
  {
    assert Running(map[], c.tenant) == {} && Since(map[], c.tenant, c.checkAt - MINUTE) == {};
  }

  lemma NestedTenantsBreakIt(quotas: map<string, Limits>, tenants: set<string>, outer: string, inner: string)
    returns (es: seq<Event>)
    requires outer in tenants && inner in tenants && Under(outer, inner)
    ensures !ReplaysAreOwn(Db(quotas, map[], map[]), tenants, es)
  {
    var db := Db(quotas, map[], map[]);
    var c := Create(inner, "k", "", "x", 0, 0, true);
    var c' := c.(tenant := outer, key := inner[|outer| + 1..] + "/" + "k");
    es := [Creates(c), Creates(c')];
    FirstIsCreated(quotas, c);
    NestedTenantsShare(db, outer, inner, c);
    hide Answer, Recorded, Under;
    assert es[..0] == [];
    assert Before(db, es, 0) == db;
    BeforeNext(db, es, 0);
    assert AnswerAt(db, es, 1) == Replayed("x");
    assert es[1].c.tenant == outer && es[0].c.tenant == inner;
  }

  /**
  Every replay is one's own, in every run of these tenants and whatever their quotas, exactly when
  no tenant's id continues another's with a slash.
  */
  lemma ReplaysAreOwnIff(quotas: map<string, Limits>, tenants: set<string>)
    ensures (forall a, b :: a in tenants && b in tenants ==> !Under(a, b))
       <==> forall es :: ReplaysAreOwn(Db(quotas, map[], map[]), tenants, es)
  {
    var db := Db(quotas, map[], map[]);
    if forall a, b :: a in tenants && b in tenants ==> !Under(a, b) {
      forall es ensures ReplaysAreOwn(db, tenants, es) {
        ApartTenantsReplayTheirOwn(db, tenants, es);
      }
    } else {
      var a, b :| a in tenants && b in tenants && Under(a, b);
      var es := NestedTenantsBreakIt(quotas, tenants, a, b);
    }
  }

  lemma ApartTenantsReplayTheirOwn(db: Db, tenants: set<string>, es: seq<Event>)
    requires db.used == map[] && forall a, b :: a in tenants && b in tenants ==> !Under(a, b)
    ensures ReplaysAreOwn(db, tenants, es)
  {
    hide Answer, Under;
    if forall i :: 0 <= i < |es| && es[i].Creates? ==> es[i].c.tenant in tenants {
      forall j | 0 <= j < |es| && es[j].Creates? && AnswerAt(db, es, j).Replayed?
        ensures OwnReplay(db, es, j)
      {
        var i := ReplayIsTheFirst(db, es, j);
        CreatedIsOwn(Before(db, es, i), es[i].c);
      }
    }
  }

  lemma CreatedIsOwn(db: Db, c: Create)
    ensures Answer(db, c).Created? ==> Answer(db, c) == Created(c.id)
  {
  }
}
