/**
The process reaper (pkg/reaper/reaper.go): the one place that waits for children,
handing each exit status to whoever asked for that process.

Assumed of the kernel: a pid is not reused while a waiter or a pending status for it
is held, and a process exits once.
*/
module Reaper {
  import opened Options

  const MAX_PENDING := 256

  /**
  A waiter's channel has room for one status, so it is an optional value; it is reached
  only through `waiters`, or by the Wait call that found it there.
  */
  datatype State = State(waiters: map<int, Option<int>>, pending: map<int, int>, order: seq<int>)

  const EMPTY := State(map[], map[], [])

  /** How the first locked section of Wait can end. */
  datatype Look = Exited(code: int) | Block | Unknown

  // ------------------------------------------------- the locked sections

  function Start(s: State, pid: int): State {
    s.(waiters := s.waiters[pid := None])
  }

  function Adopt(s: State, pid: int): State {
    if pid in s.pending || pid in s.waiters then s else s.(waiters := s.waiters[pid := None])
  }

  function LookFor(s: State, pid: int): Look {
    if pid in s.pending then Exited(s.pending[pid])
    else if pid in s.waiters then Block
    else Unknown
  }

  function AfterLook(s: State, pid: int): State {
    if pid in s.pending then State(s.waiters - {pid}, s.pending - {pid}, Without(s.order, pid)) else s
  }

  /** Where `pid` first occurs. */
  function IndexOf(order: seq<int>, pid: int): (k: nat)
    requires pid in order
    ensures k < |order| && order[k] == pid && forall j :: 0 <= j < k ==> order[j] != pid
  {
    if order[0] == pid then 0 else 1 + IndexOf(order[1..], pid)
  }

  /** The list without the first occurrence of `pid`. */
  function Without(order: seq<int>, pid: int): seq<int> {
    if pid in order then
      var k := IndexOf(order, pid);
      order[..k] + order[k + 1..]
    else order
  }

  /** A blocked Wait takes the status out of its channel. */
  function Receive(s: State, pid: int): State {
    s.(waiters := s.waiters[pid := None])
  }

  /** The second locked section of Wait. */
  function Drop(s: State, pid: int): State {
    s.(waiters := s.waiters - {pid})
  }

  function Evict(pending: map<int, int>, order: seq<int>): (map<int, int>, seq<int>)
    decreases |order|
  {
    if |order| > MAX_PENDING then Evict(pending - {order[0]}, order[1..]) else (pending, order)
  }

  function Deliver(s: State, pid: int, code: int): State {
    if pid in s.waiters then
      if s.waiters[pid].None? then s.(waiters := s.waiters[pid := Some(code)]) else s
    else
      var (pending, order) :=
        Evict(s.pending[pid := code], if pid in s.pending then s.order else s.order + [pid]);
      State(s.waiters, pending, order)
  }

  /** What the channel of a waiter for `pid` holds. */
  function DeliveredTo(s: State, pid: int): Option<int> {
    if pid in s.waiters then s.waiters[pid] else None
  }

  // ------------------------------------------- the shared, locked object

  class Reaper {
    var waiters: map<int, Option<int>>
    var pending: map<int, int>
    var order: seq<int>

    ghost function View(): State
      reads this
    {
      State(waiters, pending, order)
    }

    constructor ()
      ensures View() == EMPTY
    {
      waiters, pending, order := map[], map[], [];
    }

    /** `pid` is the process the command became; the lock spans both. */
    method StartCmd(pid: int)
      modifies this
      ensures View() == Start(old(View()), pid)
      ensures Valid(old(View())) ==> Valid(View())
      ensures LookFor(View(), pid) == Block <==> pid !in old(pending)
      ensures forall code :: DeliveredTo(Deliver(View(), pid, code), pid) == Some(code)
    {
      waiters := waiters[pid := None];
    }

    method AdoptPid(pid: int)
      modifies this
      ensures View() == Adopt(old(View()), pid)
      ensures Valid(old(View())) ==> Valid(View())
      ensures LookFor(View(), pid) != Unknown
      ensures LookFor(old(View()), pid) != Unknown ==> View() == old(View())
      ensures LookFor(old(View()), pid) == Unknown ==>
                LookFor(View(), pid) == Block && DeliveredTo(View(), pid) == None
                && forall code :: DeliveredTo(Deliver(View(), pid, code), pid) == Some(code)
    {
      if pid in pending {
        return;
      }
      if pid !in waiters {
        waiters := waiters[pid := None];
      }
    }

    method WaitLook(pid: int) returns (r: Look)
      modifies this
      ensures r == LookFor(old(View()), pid)
      ensures View() == AfterLook(old(View()), pid)
    {
      if pid in pending {
        r := Exited(pending[pid]);
        Forget(pid);
        waiters := waiters - {pid};
      } else if pid in waiters {
        r := Block;
      } else {
        r := Unknown;
      }
    }

    method WaitDone(pid: int)
      modifies this
      ensures View() == Drop(old(View()), pid)
      ensures Valid(old(View())) ==> Valid(View())
      ensures LookFor(View(), pid) != Block
      ensures forall x :: x != pid ==> LookFor(View(), x) == LookFor(old(View()), x)
    {
      waiters := waiters - {pid};
    }

    method DeliverStatus(pid: int, code: int)
      modifies this
      ensures View() == Deliver(old(View()), pid, code)
    {
      if pid in waiters {
        if waiters[pid].None? {
          waiters := waiters[pid := Some(code)];
        }
        return;
      }
      if pid !in pending {
        order := order + [pid];
      }
      pending := pending[pid := code];
      ghost var target := Evict(pending, order);
      while |order| > MAX_PENDING
        invariant Evict(pending, order) == target
        invariant waiters == old(waiters)
        decreases |order|
      {
        var oldest := order[0];
        order := order[1..];
        pending := pending - {oldest};
      }
    }

    method Forget(pid: int)
      modifies this
      ensures View() == State(old(waiters), old(pending) - {pid}, Without(old(order), pid))
    {
      pending := pending - {pid};
      var i := 0;
      while i < |order|
        invariant 0 <= i <= |order| && order == old(order)
        invariant waiters == old(waiters) && pending == old(pending) - {pid}
        invariant forall j :: 0 <= j < i ==> order[j] != pid
      {
        if order[i] == pid {
          assert IndexOf(order, pid) == i;
          order := order[..i] + order[i + 1..];
          return;
        }
        i := i + 1;
      }
    }
  }

  // ----------------------------------------------------------------- runs

  datatype Event =
    | OnStart(pid: int)
    | OnAdopt(pid: int)
    | OnLook(pid: int)
    | OnReceive(pid: int)
    | OnDrop(pid: int)
    | OnDeliver(pid: int, code: int)

  /** A receive can only happen once there is something in the channel. */
  predicate Ready(s: State, e: Event) {
    e.OnReceive? ==> e.pid in s.waiters && s.waiters[e.pid].Some?
  }

  function Next(s: State, e: Event): State {
    match e
    case OnStart(pid) => Start(s, pid)
    case OnAdopt(pid) => Adopt(s, pid)
    case OnLook(pid) => AfterLook(s, pid)
    case OnReceive(pid) => Receive(s, pid)
    case OnDrop(pid) => Drop(s, pid)
    case OnDeliver(pid, code) => Deliver(s, pid, code)
  }

  function After(s: State, es: seq<Event>): State
    decreases |es|
  {
    if es == [] then s else After(Next(s, es[0]), es[1..])
  }

  // ------------------------------------------- the bounded, duplicate-free queue

  ghost predicate NoDuplicates(order: seq<int>) {
    forall i, j :: 0 <= i < j < |order| ==> order[i] != order[j]
  }

  /** The map and the list have the same entries, each once. */
  ghost predicate Matched(pending: map<int, int>, order: seq<int>) {
    && NoDuplicates(order)
    && (forall i :: 0 <= i < |order| ==> order[i] in pending)
    && (forall x :: x in pending ==> x in order)
  }

  ghost predicate Valid(s: State) {
    Matched(s.pending, s.order) && |s.order| <= MAX_PENDING
  }

  /** What `pending` and `order` stand for together: unclaimed statuses, oldest first. */
  ghost function Queue(s: State): (q: seq<(int, int)>)
    requires Valid(s)
    ensures |q| == |s.order|
  {
    seq(|s.order|, i requires 0 <= i < |s.order| => (s.order[i], s.pending[s.order[i]]))
  }

  /** Removing an entry of a duplicate-free list moves the later ones up by one and loses no other. */
  lemma WithoutMoves(order: seq<int>, pid: int, x: int)
    requires NoDuplicates(order) && pid in order && x in order && x != pid
    ensures NoDuplicates(Without(order, pid)) && pid !in Without(order, pid)
    ensures x in Without(order, pid)
    ensures IndexOf(Without(order, pid), x)
         == if IndexOf(order, pid) < IndexOf(order, x) then IndexOf(order, x) - 1 else IndexOf(order, x)
  {
    var k, n, rest := IndexOf(order, pid), IndexOf(order, x), Without(order, pid);
    WithoutHasNoDuplicates(order, pid);
    hide IndexOf;
    var at := if k < n then n - 1 else n;
    assert |rest| == |order| - 1;
    hide Without;
    WithoutAt(order, pid, at);
    assert rest[at] == x && rest[IndexOf(rest, x)] == x;
  }

  /** Where the entry at `i` of the shortened list was before. */
  lemma WithoutAt(order: seq<int>, pid: int, i: nat)
    requires pid in order && i < |Without(order, pid)|
    ensures |Without(order, pid)| == |order| - 1
    ensures Without(order, pid)[i] == order[if i < IndexOf(order, pid) then i else i + 1]
  {
    hide IndexOf;
    Gap(order, IndexOf(order, pid), i);
  }

  lemma Gap(order: seq<int>, k: nat, i: nat)
    requires k < |order| && i < |order| - 1
    ensures (order[..k] + order[k + 1..])[i] == order[if i < k then i else i + 1]
  {
  }

  lemma WithoutHasNoDuplicates(order: seq<int>, pid: int)
    requires NoDuplicates(order) && pid in order
    ensures NoDuplicates(Without(order, pid)) && pid !in Without(order, pid)
  {
    var k, rest := IndexOf(order, pid), Without(order, pid);
    hide IndexOf, Without;
    forall i, j | 0 <= i < j < |rest|
      ensures rest[i] != rest[j]
    {
      WithoutAt(order, pid, i);
      WithoutAt(order, pid, j);
    }
    forall i | 0 <= i < |rest|
      ensures rest[i] != pid
    {
      WithoutAt(order, pid, i);
    }
  }

  /** In a valid state at most one status is over the limit, so the eviction loop runs at most once. */
  lemma EvictsOne(pending: map<int, int>, order: seq<int>)
    requires |order| <= MAX_PENDING + 1
    ensures Evict(pending, order)
         == if |order| <= MAX_PENDING then (pending, order) else (pending - {order[0]}, order[1..])
  {
  }

  lemma LookKeepsValid(s: State, pid: int)
    requires Valid(s) && pid in s.pending
    ensures Valid(AfterLook(s, pid))
  {
    var t := AfterLook(s, pid);
    hide IndexOf, Without;
    WithoutHasNoDuplicates(s.order, pid);
    forall i | 0 <= i < |t.order|
      ensures t.order[i] in t.pending
    {
      WithoutAt(s.order, pid, i);
    }
    forall x | x in t.pending
      ensures x in t.order
    {
      WithoutMoves(s.order, pid, x);
    }
    WithoutIsShorter(s.order, pid);
  }

  lemma WithoutIsShorter(order: seq<int>, pid: int)
    ensures |Without(order, pid)| <= |order|
  {
  }

  lemma DropOldest(pending: map<int, int>, order: seq<int>)
    requires Matched(pending, order) && order != []
    ensures Matched(pending - {order[0]}, order[1..])
  {
    forall x | x in pending - {order[0]}
      ensures x in order[1..]
    {
      assert x in [order[0]] + order[1..];
      assert order == [order[0]] + order[1..];
    }
  }

  lemma DeliverKeepsValid(s: State, pid: int, code: int)
    requires Valid(s) && pid !in s.waiters
    ensures Valid(Deliver(s, pid, code))
  {
    hide Evict;
    var grown := if pid in s.pending then s.order else s.order + [pid];
    EvictsOne(s.pending[pid := code], grown);
    assert Matched(s.pending[pid := code], grown);
    if |grown| > MAX_PENDING {
      DropOldest(s.pending[pid := code], grown);
    }
  }

  lemma NextKeepsValid(s: State, e: Event)
    requires Valid(s)
    ensures Valid(Next(s, e))
  {
    match e {
      case OnLook(pid) =>
        if pid in s.pending {
          LookKeepsValid(s, pid);
        }
      case OnDeliver(pid, code) =>
        if pid !in s.waiters {
          DeliverKeepsValid(s, pid, code);
        }
      case _ =>
    }
  }

  /** The ring's shape survives every run from an empty reaper. */
  lemma {:induction false} AlwaysValid(s: State, es: seq<Event>)
    requires Valid(s)
    ensures Valid(After(s, es)) && |After(s, es).pending| <= 256
    decreases |es|
  {
    if es != [] {
      hide Valid;
      NextKeepsValid(s, es[0]);
      AlwaysValid(Next(s, es[0]), es[1..]);
    } else {
      AsManyAsListed(s.pending, s.order);
    }
  }

  /** The map is as large as the list. */
  lemma {:induction false} AsManyAsListed(pending: map<int, int>, order: seq<int>)
    requires Matched(pending, order)
    ensures |pending| == |order|
    decreases |order|
  {
    if order == [] {
      forall x ensures x !in pending {
        assert x in pending ==> x in order;
      }
    } else {
      DropOldest(pending, order);
      AsManyAsListed(pending - {order[0]}, order[1..]);
      assert pending == (pending - {order[0]})[order[0] := pending[order[0]]];
    }
  }

  /**
  Delivering an unclaimed status is an enqueue on the bounded queue: the new status goes last and,
  if that is one too many, the oldest goes.  A status already there is replaced where it stands.
  */
  lemma DeliverEnqueues(s: State, pid: int, code: int)
    requires Valid(s) && pid !in s.waiters
    ensures Valid(Deliver(s, pid, code))
    ensures pid !in s.pending ==>
              var q := Queue(s) + [(pid, code)];
              Queue(Deliver(s, pid, code)) == if |q| > MAX_PENDING then q[1..] else q
    ensures pid in s.pending ==>
              var q := Queue(Deliver(s, pid, code));
              && |q| == |Queue(s)|
              && forall i :: 0 <= i < |q| ==> q[i] == if Queue(s)[i].0 == pid then (pid, code) else Queue(s)[i]
  {
    NextKeepsValid(s, OnDeliver(pid, code));
    EvictsOne(s.pending[pid := code], if pid in s.pending then s.order else s.order + [pid]);
  }

  /** Claiming a pending status takes exactly its entry out of the queue and leaves the rest in order. */
  lemma LookDequeues(s: State, pid: int)
    requires Valid(s) && pid in s.pending
    ensures Valid(AfterLook(s, pid))
    ensures exists k :: 0 <= k < |Queue(s)| && Queue(s)[k] == (pid, s.pending[pid]) &&
                        Queue(AfterLook(s, pid)) == Queue(s)[..k] + Queue(s)[k + 1..]
    ensures LookFor(s, pid) == Exited(s.pending[pid])
  {
    LookKeepsValid(s, pid);
    assert |Without(s.order, pid)| == |s.order| - 1;
    hide Valid, IndexOf, Without;
    var k, q := IndexOf(s.order, pid), Queue(AfterLook(s, pid));
    assert Queue(s)[k] == (pid, s.pending[pid]);
    forall i | 0 <= i < |q|
      ensures q[i] == Queue(s)[if i < k then i else i + 1]
    {
      WithoutAt(s.order, pid, i);
    }
    WithGap(Queue(s), q, k);
  }

  lemma WithGap(a: seq<(int, int)>, b: seq<(int, int)>, k: nat)
    requires k < |a| && |b| == |a| - 1 && forall i :: 0 <= i < |b| ==> b[i] == a[if i < k then i else i + 1]
    ensures b == a[..k] + a[k + 1..]
  {
  }

  // ------------------------------------ a started process is never lost

  predicate DeliversTo(e: Event, pid: int) {
    e.OnDeliver? && e.pid == pid
  }

  /** The events are those of one life of `pid`, up to the moment its waiter takes the status. */
  ghost predicate OneLife(es: seq<Event>, pid: int) {
    && (forall i :: 0 <= i < |es| ==> es[i].pid == pid ==> !es[i].OnStart? && !es[i].OnReceive? && !es[i].OnDrop?)
    && (forall i, j :: 0 <= i < j < |es| ==> !(DeliversTo(es[i], pid) && DeliversTo(es[j], pid)))
  }

  /** The status `pid` exits with during `es`, if it does. */
  function ExitIn(es: seq<Event>, pid: int): Option<int>
    decreases |es|
  {
    if es == [] then None
    else if DeliversTo(es[0], pid) then Some(es[0].code)
    else ExitIn(es[1..], pid)
  }

  lemma NextKeepsChannel(s: State, e: Event, pid: int)
    requires pid in s.waiters && pid !in s.pending
    requires e.pid == pid ==> !e.OnStart? && !e.OnReceive? && !e.OnDrop?
    requires DeliversTo(e, pid) ==> s.waiters[pid].None?
    ensures pid in Next(s, e).waiters && pid !in Next(s, e).pending
    ensures Next(s, e).waiters[pid] == if DeliversTo(e, pid) then Some(e.code) else s.waiters[pid]
  {
    if e.OnDeliver? && e.pid !in s.waiters {
      EvictOnlyShrinks(s.pending[e.pid := e.code], if e.pid in s.pending then s.order else s.order + [e.pid]);
    }
  }

  lemma {:induction false} EvictOnlyShrinks(pending: map<int, int>, order: seq<int>)
    ensures Evict(pending, order).0.Keys <= pending.Keys
    decreases |order|
  {
    if |order| > MAX_PENDING {
      EvictOnlyShrinks(pending - {order[0]}, order[1..]);
    }
  }

  lemma {:induction false} ChannelHoldsExit(s: State, es: seq<Event>, pid: int)
    requires pid in s.waiters && pid !in s.pending && OneLife(es, pid)
    requires s.waiters[pid].Some? ==> ExitIn(es, pid).None?
    ensures var t := After(s, es);
            && pid in t.waiters && pid !in t.pending
            && t.waiters[pid] == if s.waiters[pid].Some? then s.waiters[pid] else ExitIn(es, pid)
    decreases |es|
  {
    if es != [] {
      NextKeepsChannel(s, es[0], pid);
      assert forall i :: 0 <= i < |es[1..]| ==> es[1..][i] == es[i + 1];
      if DeliversTo(es[0], pid) {
        NoSecondExit(es[1..], pid);
      }
      ChannelHoldsExit(Next(s, es[0]), es[1..], pid);
    }
  }

  lemma {:induction false} NoSecondExit(es: seq<Event>, pid: int)
    requires forall j :: 0 <= j < |es| ==> !DeliversTo(es[j], pid)
    ensures ExitIn(es, pid).None?
    decreases |es|
  {
    if es != [] {
      NoSecondExit(es[1..], pid);
    }
  }

  /**
  A process started through StartCmd: at every moment of its life a Wait for it finds its
  channel (it neither misses nor reads a stale pending status), the channel holds a status
  exactly when the process has exited, and that status is its own.  So however the orphans
  around it come and go, before or after Wait is called, Wait returns the exact exit code.
  */
  lemma StartedProcessIsNeverLost(s: State, es: seq<Event>, pid: int)
    requires pid !in s.pending && OneLife(es, pid)
    ensures var t := After(Start(s, pid), es);
            && LookFor(t, pid) == Block
            && AfterLook(t, pid) == t
            && t.waiters[pid] == ExitIn(es, pid)
            && (Ready(t, OnReceive(pid)) <==> ExitIn(es, pid).Some?)
  {
    ChannelHoldsExit(Start(s, pid), es, pid);
  }

  /**
  That is so exactly when no status of an earlier process with that pid is still pending: a pid
  is free again once its process was reaped, claimed or not, and Wait looks at pending first.
  */
  lemma WaitIsOwnIff(s: State, pid: int)
    ensures pid in s.pending ==> LookFor(Start(s, pid), pid) == Exited(s.pending[pid])
    ensures pid !in s.pending
       <==> forall es :: OneLife(es, pid) ==> LookFor(After(Start(s, pid), es), pid) == Block
  {
    if pid !in s.pending {
      forall es | OneLife(es, pid)
        ensures LookFor(After(Start(s, pid), es), pid) == Block
      {
        StartedProcessIsNeverLost(s, es, pid);
      }
    } else {
      assert OneLife([], pid) && After(Start(s, pid), []) == Start(s, pid);
    }
  }

  /**
  The same of a process adopted while it runs: its Wait finds the channel, and what it takes from
  there is the status the process exits with, and nothing before that.
  */
  lemma AdoptedProcessIsNeverLost(s: State, es: seq<Event>, pid: int)
    requires LookFor(s, pid) == Unknown && OneLife(es, pid)
    ensures var t := After(Adopt(s, pid), es);
            && LookFor(t, pid) == Block && AfterLook(t, pid) == t
            && t.waiters[pid] == ExitIn(es, pid)
            && (Ready(t, OnReceive(pid)) <==> ExitIn(es, pid).Some?)
  {
    ChannelHoldsExit(Adopt(s, pid), es, pid);
  }

  lemma AdoptedProcessIsNeverDropped(s: State, es: seq<Event>, pid: int, code: int)
    requires LookFor(s, pid) == Unknown && OneLife(es + [OnDeliver(pid, code)], pid)
    ensures var t := After(Adopt(s, pid), es);
            pid in t.waiters && t.waiters[pid].None? && Deliver(t, pid, code).waiters[pid] == Some(code)
  {
    assert Adopt(s, pid) == Start(s, pid);
    StartedProcessIsNeverDropped(s, es, pid, code);
  }

  /** Adopting twice, or adopting what was started or has exited, changes nothing. */
  lemma AdoptIsIdempotent(s: State, pid: int)
    ensures Adopt(Adopt(s, pid), pid) == Adopt(s, pid) && Adopt(Start(s, pid), pid) == Start(s, pid)
    ensures pid in s.pending ==> Adopt(s, pid) == s
  {
  }

  /** A status in a channel stays there until it is taken, whatever else is delivered. */
  lemma FullChannelKeepsItsStatus(s: State, pid: int, code: int, x: int, other: int)
    requires pid in s.waiters && s.waiters[pid] == Some(code)
    ensures DeliveredTo(Deliver(s, x, other), pid) == Some(code)
  {
  }

  /** A status is taken once. */
  lemma TakenOnce(s: State, pid: int)
    ensures !Ready(Receive(s, pid), OnReceive(pid))
    ensures forall x :: x != pid ==> DeliveredTo(Receive(s, pid), x) == DeliveredTo(s, x)
  {
  }

  /** A finished Wait leaves no trace of the pid, so its next process starts clean. */
  lemma FinishedWaitForgets(s: State, es: seq<Event>, pid: int)
    requires pid !in s.pending && OneLife(es, pid) && ExitIn(es, pid).Some?
    ensures var t := After(Start(s, pid), es);
            var u := Drop(Receive(t, pid), pid);
            && LookFor(u, pid) == Unknown && u.pending == t.pending && u.order == t.order
            && forall x :: x != pid ==> DeliveredTo(u, x) == DeliveredTo(t, x)
  {
    StartedProcessIsNeverLost(s, es, pid);
  }

  lemma ClaimedStatusIsForgotten(s: State, pid: int)
    requires Valid(s) && pid in s.pending
    ensures LookFor(AfterLook(s, pid), pid) == Unknown && pid !in AfterLook(s, pid).order
  {
    hide IndexOf;
    WithoutHasNoDuplicates(s.order, pid);
  }

  /** The status is there to be dropped on the floor only if the channel is full; for a started process it never is. */
  lemma StartedProcessIsNeverDropped(s: State, es: seq<Event>, pid: int, code: int)
    requires pid !in s.pending && OneLife(es + [OnDeliver(pid, code)], pid)
    ensures var t := After(Start(s, pid), es);
            pid in t.waiters && t.waiters[pid].None? && Deliver(t, pid, code).waiters[pid] == Some(code)
  {
    var all := es + [OnDeliver(pid, code)];
    assert forall i :: 0 <= i < |es| ==> all[i] == es[i];
    assert DeliversTo(all[|es|], pid);
    NoSecondExit(es, pid);
    ChannelHoldsExit(Start(s, pid), es, pid);
  }

  // ---------------------------------- an early status outlives 255 strangers

  /** How many statuses stand behind `pid` in the queue. */
  ghost function Behind(s: State, pid: int): nat
    requires Valid(s) && pid in s.pending
  {
    |s.order| - 1 - IndexOf(s.order, pid)
  }

  /** The event adds a status to the queue. */
  predicate Inserts(s: State, e: Event) {
    e.OnDeliver? && e.pid !in s.waiters && e.pid !in s.pending
  }

  function Insertions(s: State, es: seq<Event>): nat
    decreases |es|
  {
    if es == [] then 0
    else (if Inserts(s, es[0]) then 1 else 0) + Insertions(Next(s, es[0]), es[1..])
  }

  /** Nobody claims, restarts or redelivers `pid`. */
  ghost predicate LeavesAlone(es: seq<Event>, pid: int) {
    forall i :: 0 <= i < |es| ==> es[i].pid == pid ==> !es[i].OnLook? && !es[i].OnDeliver?
  }

  /** A list that shows `x` at `k` and has no duplicates shows it first at `k`. */
  lemma FoundAt(order: seq<int>, x: int, k: nat)
    requires NoDuplicates(order) && k < |order| && order[k] == x
    ensures IndexOf(order, x) == k
  {
  }

  lemma DeliverBehind(s: State, e: Event, pid: int)
    requires Valid(s) && pid in s.pending && e.OnDeliver? && e.pid != pid && e.pid !in s.waiters
    requires Behind(s, pid) + (if Inserts(s, e) then 1 else 0) < MAX_PENDING
    ensures Valid(Next(s, e)) && pid in Next(s, e).pending && Next(s, e).pending[pid] == s.pending[pid]
    ensures Behind(Next(s, e), pid) <= Behind(s, pid) + (if Inserts(s, e) then 1 else 0)
  {
    var k := IndexOf(s.order, pid);
    hide IndexOf, Evict;
    DeliverKeepsValid(s, e.pid, e.code);
    var t := Next(s, e);
    var grown := if e.pid in s.pending then s.order else s.order + [e.pid];
    EvictsOne(s.pending[e.pid := e.code], grown);
    FoundAt(t.order, pid, if |grown| > MAX_PENDING then k - 1 else k);
  }

  lemma LookBehind(s: State, e: Event, pid: int)
    requires Valid(s) && pid in s.pending && e.OnLook? && e.pid != pid && e.pid in s.pending
    ensures Valid(Next(s, e)) && pid in Next(s, e).pending && Next(s, e).pending[pid] == s.pending[pid]
    ensures Behind(Next(s, e), pid) <= Behind(s, pid)
  {
    hide IndexOf;
    assert |Without(s.order, e.pid)| == |s.order| - 1;
    hide Without;
    LookKeepsValid(s, e.pid);
    WithoutMoves(s.order, e.pid, pid);
  }

  /** One event: the status stays unless 256 others are behind it, and at most an insertion pushes it forward. */
  lemma NextBehind(s: State, e: Event, pid: int)
    requires Valid(s) && pid in s.pending
    requires e.pid == pid ==> !e.OnLook? && !e.OnDeliver?
    requires Behind(s, pid) + (if Inserts(s, e) then 1 else 0) < MAX_PENDING
    ensures Valid(Next(s, e)) && pid in Next(s, e).pending && Next(s, e).pending[pid] == s.pending[pid]
    ensures Behind(Next(s, e), pid) <= Behind(s, pid) + (if Inserts(s, e) then 1 else 0)
  {
    hide IndexOf, Evict, Without;
    if e.OnDeliver? && e.pid !in s.waiters {
      DeliverBehind(s, e, pid);
    } else if e.OnLook? && e.pid in s.pending {
      LookBehind(s, e, pid);
    } else {
      assert Next(s, e).order == s.order && Next(s, e).pending == s.pending;
    }
  }

  lemma {:induction false} StatusSurvives(s: State, es: seq<Event>, pid: int)
    requires Valid(s) && pid in s.pending && LeavesAlone(es, pid)
    requires Behind(s, pid) + Insertions(s, es) < MAX_PENDING
    ensures pid in After(s, es).pending && After(s, es).pending[pid] == s.pending[pid]
    decreases |es|
  {
    if es != [] {
      NextBehind(s, es[0], pid);
      assert forall i :: 0 <= i < |es[1..]| ==> es[1..][i] == es[i + 1];
      StatusSurvives(Next(s, es[0]), es[1..], pid);
    }
  }

  /**
  A status that arrived before Adopt was called is still what Wait returns after any run with
  at most 255 later insertions, through adoption and whatever else happens.
  */
  lemma EarlyStatusIsReturned(s: State, pid: int, code: int, es: seq<Event>)
    requires Valid(s) && pid !in s.waiters && pid !in s.pending && LeavesAlone(es, pid)
    requires Insertions(Deliver(s, pid, code), es) <= 255
    ensures LookFor(After(Deliver(s, pid, code), es), pid) == Exited(code)
  {
    var t := Deliver(s, pid, code);
    NextKeepsValid(s, OnDeliver(pid, code));
    EvictsOne(s.pending[pid := code], s.order + [pid]);
    assert t.order[|t.order| - 1] == pid;
    StatusSurvives(t, es, pid);
  }

  /** Only strangers' statuses arrive: each is new, and nobody is waiting for it. */
  ghost predicate OnlyStrangers(s: State, es: seq<Event>)
    decreases |es|
  {
    es == [] || (Inserts(s, es[0]) && OnlyStrangers(Next(s, es[0]), es[1..]))
  }

  /** The bound is exact: among unclaimed arrivals, the status is still held just when fewer than 256 came. */
  lemma {:induction false} BoundIsExact(s: State, pid: int, es: seq<Event>)
    requires Valid(s) && pid in s.pending && LeavesAlone(es, pid) && OnlyStrangers(s, es)
    ensures pid in After(s, es).pending <==> Behind(s, pid) + |es| < 256
    decreases |es|
  {
    var k := IndexOf(s.order, pid);
    if es != [] {
      var e := es[0];
      var t := Next(s, e);
      NextKeepsValid(s, e);
      EvictsOne(s.pending[e.pid := e.code], s.order + [e.pid]);
      assert forall i :: 0 <= i < |es[1..]| ==> es[1..][i] == es[i + 1];
      if |s.order| < MAX_PENDING {
        assert t.order[k] == pid;
        BoundIsExact(t, pid, es[1..]);
      } else if k > 0 {
        assert t.order[k - 1] == pid;
        BoundIsExact(t, pid, es[1..]);
      } else {
        StaysGone(t, pid, es[1..]);
      }
    }
  }

  lemma {:induction false} StaysGone(s: State, pid: int, es: seq<Event>)
    requires Valid(s) && pid !in s.pending && LeavesAlone(es, pid)
    ensures pid !in After(s, es).pending
    decreases |es|
  {
    if es != [] {
      NextKeepsValid(s, es[0]);
      if es[0].OnDeliver? && es[0].pid !in s.waiters {
        EvictOnlyShrinks(s.pending[es[0].pid := es[0].code],
          if es[0].pid in s.pending then s.order else s.order + [es[0].pid]);
      }
      assert forall i :: 0 <= i < |es[1..]| ==> es[1..][i] == es[i + 1];
      StaysGone(Next(s, es[0]), pid, es[1..]);
    }
  }
}
