/**
The binding state of jdix-execd (pkg/execd/server.go): one Pod's daemon, which
serves at most one sandbox and is never reused.

`handleBind` takes its lock twice, once to check and once to publish, and works
unlocked in between.  The two locked sections are modelled separately; that they
do not interleave with another bind or a teardown is not assumed here but proved
for the whole protocol in module Binding.
*/
module Execd {
  import opened Options

  /** What a successful bind leaves behind: whom the Pod serves, and with what token. */
  datatype Grant = Grant(id: string, token: string)

  /** The fields guarded by the server's mutex. */
  datatype Daemon = Daemon(sb: Option<Grant>, expired: bool)

  const FRESH := Daemon(None, false)

  datatype Verdict = Proceed | InvalidRequest | AlreadyBound(id: string) | ShuttingDown

  /** The first locked section of handleBind, with the request checks before it. */
  function Check(d: Daemon, req: Grant): Verdict {
    if req.id == "" || req.token == "" then InvalidRequest
    else if d.sb.Some? then AlreadyBound(d.sb.value.id)
    else if d.expired then ShuttingDown
    else Proceed
  }

  /** The second locked section of handleBind: it publishes without looking again. */
  function Publish(d: Daemon, req: Grant): Daemon {
    d.(sb := Some(req))
  }

  /** The locked section of expire, which both the TTL timer and unbind reach. */
  function Expire(d: Daemon): Daemon {
    if d.expired then d else Daemon(None, true)
  }

  /** Whether a bearer token opens the data plane. */
  predicate Authorised(d: Daemon, token: string) {
    d.sb.Some? && token != "" && d.sb.value.token != "" && token == d.sb.value.token
  }

  /** `d` can only be serving `g`, now or at any later time: it is, or it has been torn down. */
  predicate Serves(d: Daemon, g: Grant) {
    d == Daemon(Some(g), false) || d == Daemon(None, true)
  }

  /** A locked section of the daemon. */
  datatype Section = Checking(handler: nat, req: Grant) | Publishing(handler: nat) | Aborting(handler: nat) | Expiring

  /** The daemon with the bind handlers that passed their check and have not yet ended. */
  datatype Server = Server(daemon: Daemon, launching: map<nat, Grant>)

  predicate Possible(s: Server, e: Section) {
    match e
    case Checking(h, req) => h !in s.launching
    case Publishing(h) => h in s.launching
    case Aborting(h) => h in s.launching
    case Expiring => true
  }

  function Perform(s: Server, e: Section): Server
    requires Possible(s, e)
  {
    match e
    case Checking(h, req) =>
      if Check(s.daemon, req).Proceed? then s.(launching := s.launching[h := req]) else s
    case Publishing(h) => Server(Publish(s.daemon, s.launching[h]), s.launching - {h})
    case Aborting(h) => s.(launching := s.launching - {h})
    case Expiring => s.(daemon := Expire(s.daemon))
  }

  /** The daemon's state after a list of locked sections, in the order they ran. */
  ghost predicate Feasible(s: Server, es: seq<Section>)
    decreases |es|
  {
    |es| == 0 || (Possible(s, es[0]) && Feasible(Perform(s, es[0]), es[1..]))
  }

  function After(s: Server, es: seq<Section>): Server
    requires Feasible(s, es)
    decreases |es|
  {
    if |es| == 0 then s else After(Perform(s, es[0]), es[1..])
  }

  /** A section that changes what a launching handler saw when it checked. */
  predicate Disturbs(e: Section) {
    e.Publishing? || e.Expiring?
  }

  /**
  The exact condition under which a handler's check still holds when it publishes.
  From a checked handler on, the Pod is still unbound and alive just when no other
  handler has published and nothing has torn the Pod down meanwhile; only then does
  publishing bind a Pod for the first time.  Two overlapping binds break it.
  */
  lemma {:induction false} CheckStillHolds(s: Server, es: seq<Section>)
    requires s.daemon == FRESH
    requires Feasible(s, es)
    ensures After(s, es).daemon == FRESH <==> forall i :: 0 <= i < |es| ==> !Disturbs(es[i])
    decreases |es|
  {
    if |es| == 0 {
    } else {
      var s' := Perform(s, es[0]);
      assert forall i :: 0 <= i < |es[1..]| ==> es[1..][i] == es[i + 1];
      if Disturbs(es[0]) {
        NeverFreshAgain(s', es[1..]);
      } else {
        CheckStillHolds(s', es[1..]);
        assert forall i :: 1 <= i < |es| ==> es[i] == es[1..][i - 1];
      }
    }
  }

  /** Binding and expiry are one-way: no section makes a used Pod fresh. */
  lemma {:induction false} NeverFreshAgain(s: Server, es: seq<Section>)
    requires s.daemon != FRESH
    requires Feasible(s, es)
    ensures After(s, es).daemon != FRESH
    decreases |es|
  {
    if |es| > 0 {
      NeverFreshAgain(Perform(s, es[0]), es[1..]);
    }
  }

  /** The daemon as the object the HTTP handlers share; each method is one locked section. */
  class Guarded {
    var sb: Option<Grant>
    var expired: bool

    ghost function View(): Daemon
      reads this
    {
      Daemon(sb, expired)
    }

    constructor ()
      ensures View() == FRESH
    {
      sb, expired := None, false;
    }

    method CheckSection(req: Grant) returns (v: Verdict)
      ensures v == Check(View(), req)
      ensures v.Proceed? <==> View() == FRESH && req.id != "" && req.token != ""
      ensures v.Proceed? ==> Serves(Publish(View(), req), req) && Authorised(Publish(View(), req), req.token)
    {
      if req.id == "" || req.token == "" {
        return InvalidRequest;
      }
      if sb.Some? {
        return AlreadyBound(sb.value.id);
      }
      if expired {
        return ShuttingDown;
      }
      return Proceed;
    }

    method PublishSection(req: Grant)
      modifies this
      ensures View() == Publish(old(View()), req)
      ensures old(View()) == FRESH ==> Serves(View(), req)
    {
      sb := Some(req);
    }

    /** Returns the sandbox that has to be stopped, if any. */
    method ExpireSection() returns (stopped: Option<Grant>)
      modifies this
      ensures View() == Expire(old(View()))
      ensures stopped == if old(expired) then None else old(sb)
      ensures forall g :: Serves(old(View()), g) ==> Serves(View(), g)
    {
      if expired {
        return None;
      }
      stopped := sb;
      expired := true;
      sb := None;
    }
  }
}
