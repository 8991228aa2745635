/**
  The driver's client-side balancer (internal/balancer/balancer.go) as a
  sequential state machine: the current connections snapshot, the list of
  discovery subscribers, the discovery repeater (only whether it exists and
  how often it was forced or stopped) and the connection pool's per-address
  health. Network I/O, the retry policy, timers and locking are left out;
  their outcomes are parameters of the operations.
 */
module Balancer {

  datatype Option<T> = None | Some(value: T)

  datatype Result<T> = Ok(value: T) | Err(error: Error)

  /** A discovered node: its address and its location (data center). */
  datatype Endpoint = Endpoint(address: string, location: string)

  /** A pooled connection handle; the pool keys connections by address. */
  datatype Conn = Conn(address: string)

  datatype Health = Allowed | Banned

  /** What the pool keeps per address: health, and whether the endpoint was touched by a discovery. */
  datatype ConnEntry = ConnEntry(health: Health, touched: bool)

  /** The state of a context: still alive, or done by cancellation or deadline. */
  datatype Context = Alive | Canceled | TimedOut

  datatype Error =
    | ContextCanceled
    | ContextDeadlineExceeded
    | NoEndpoints(attempts: nat)
    | Failure(code: nat)
    | Retryable(cause: Error)

  /** The label of a configured preferred-connection rule (`IsPreferConn`). */
  datatype PreferRule = PreferRule(name: string)

  datatype BalancerConfig = BalancerConfig(
    isPreferConn: Option<PreferRule>,
    allowFallback: bool,
    singleConn: bool,
    detectLocalDC: bool)

  /** The driver configuration as far as the balancer reads it. */
  datatype DriverConfig = DriverConfig(endpoint: string, balancer: Option<BalancerConfig>)

  /** An immutable snapshot built once per discovery round. */
  datatype ConnectionsState = ConnectionsState(
    connections: seq<Conn>,
    isPreferConn: Option<PreferRule>,
    selfLocation: string,
    allowFallback: bool)

  /** What the snapshot's connection search yields: a connection, or none, and the banned connections skipped. */
  datatype Selection = Selection(conn: Option<Conn>, failedCount: nat)

  /** A registered `OnUpdate` callback. */
  datatype Subscriber = Subscriber(id: nat)

  /** One call of a subscriber with the discovered endpoints. */
  datatype Notification = Notification(subscriber: Subscriber, endpoints: seq<Endpoint>)

  /** The outcomes of the collaborators of one discovery attempt. */
  datatype DiscoveryRound = DiscoveryRound(
    dial: Option<Error>,
    discovered: Result<seq<Endpoint>>,
    detect: seq<Endpoint> -> Result<string>)

  /** The connection handle the pool gives for an endpoint. */
  function Handle(e: Endpoint): Conn {
    Conn(e.address)
  }

  /** The handles of `endpoints`, one per endpoint, in order. */
  function Handles(endpoints: seq<Endpoint>): (conns: seq<Conn>)
    ensures |conns| == |endpoints|
    ensures forall i :: 0 <= i < |endpoints| ==> conns[i] == Handle(endpoints[i])
  {
    seq(|endpoints|, i requires 0 <= i < |endpoints| => Handle(endpoints[i]))
  }

  function AddressesOf(endpoints: seq<Endpoint>): set<string> {
    set e | e in endpoints :: e.address
  }

  /** The error `ctx.Err()` returns for a done context. */
  function ContextError(ctx: Context): (e: Error)
    requires ctx != Alive
    ensures IsContextError(e)
  {
    if ctx == Canceled then ContextCanceled else ContextDeadlineExceeded
  }

  /** Whether the error's chain holds a context cancellation or deadline. */
  predicate IsContextError(e: Error) {
    match e
    case ContextCanceled => true
    case ContextDeadlineExceeded => true
    case Retryable(cause) => IsContextError(cause)
    case _ => false
  }

  /**
    The deferred reclassification of a discovery attempt's error: a context
    error while the parent context is still alive is marked retryable;
    anything else is returned as it is.
   */
  function MarkRetryable(parent: Context, err: Option<Error>): (r: Option<Error>)
    ensures r.None? <==> err.None?
    ensures r != err <==> err.Some? && parent == Alive && IsContextError(err.value)
    ensures r != err ==> r == Some(Retryable(err.value))
  {
    if err.Some? && parent == Alive && IsContextError(err.value) then
      assert err.value < Retryable(err.value);
      Some(Retryable(err.value))
    else err
  }

  /** A reclassified error is still recognised as the same kind of context error. */
  lemma MarkRetryableKeepsIdentity(parent: Context, err: Error)
    ensures MarkRetryable(parent, Some(err)).Some?
    ensures IsContextError(MarkRetryable(parent, Some(err)).value) == IsContextError(err)
  {
  }

  /**
    The decisions of one discovery attempt: the endpoints and local data
    center to apply, or the first collaborator error.
   */
  function AttemptOutcome(config: BalancerConfig, round: DiscoveryRound): (r: Result<(seq<Endpoint>, string)>)
    ensures r.Ok? <==>
      && round.dial.None?
      && round.discovered.Ok?
      && (config.detectLocalDC ==> round.detect(round.discovered.value).Ok?)
    ensures r.Ok? ==> r.value.0 == round.discovered.value
    ensures r.Ok? ==> r.value.1 == (if config.detectLocalDC then round.detect(round.discovered.value).value else "")
    ensures round.dial.Some? ==> r == Err(round.dial.value)
    ensures round.dial.None? && round.discovered.Err? ==> r == Err(round.discovered.error)
    ensures (round.dial.None? && round.discovered.Ok? && config.detectLocalDC
               && round.detect(round.discovered.value).Err?)
      ==> r == Err(round.detect(round.discovered.value).error)
  {
    if round.dial.Some? then Err(round.dial.value)
    else if round.discovered.Err? then Err(round.discovered.error)
    else if config.detectLocalDC then
      match round.detect(round.discovered.value)
      case Err(e) => Err(e)
      case Ok(dc) => Ok((round.discovered.value, dc))
    else Ok((round.discovered.value, ""))
  }

  /** The `Force()` threshold: more than half of the preferred tier was skipped. */
  predicate ForcesRediscovery(failedCount: nat, preferredCount: nat) {
    failedCount * 2 > preferredCount
  }

  /** The threshold is strictly more than half: exactly half never forces. */
  lemma ForceOnlyPastHalf(failedCount: nat, preferredCount: nat)
    ensures ForcesRediscovery(failedCount, preferredCount) <==> failedCount > preferredCount / 2
    ensures !ForcesRediscovery(failedCount, 2 * failedCount)
  {
  }

  /** The calls made to the subscribers, in registration order, each with `endpoints`. */
  function Notifications(subscribers: seq<Subscriber>, endpoints: seq<Endpoint>): (r: seq<Notification>)
    ensures |r| == |subscribers|
    ensures forall i :: 0 <= i < |r| ==> r[i] == Notification(subscribers[i], endpoints)
  {
    if subscribers == [] then []
    else
      Notifications(subscribers[..|subscribers| - 1], endpoints)
        + [Notification(subscribers[|subscribers| - 1], endpoints)]
  }

  /** The copy of the discovered endpoints handed to the subscribers. */
  method CopyEndpointsInfo(endpoints: seq<Endpoint>) returns (infos: seq<Endpoint>)
    ensures infos == endpoints
  {
    var a := new Endpoint[|endpoints|];
    for i := 0 to |endpoints|
      invariant forall j :: 0 <= j < i ==> a[j] == endpoints[j]
    {
      a[i] := endpoints[i];
    }
    infos := a[..];
  }

  /**
    The connection pool, an external collaborator. Only what the balancer
    relies on is modelled: a connection per address with its health, and
    a touched flag for the endpoint.
   */
  class Pool {
    var conns: map<string, ConnEntry>

    constructor ()
      ensures conns == map[]
    {
      conns := map[];
    }

    /** Returns the connection for `e`, creating an allowed, untouched one if there is none. */
    method Get(e: Endpoint) returns (c: Conn)
      modifies this
      ensures c == Handle(e)
      ensures e.address in old(conns) ==> conns == old(conns)
      ensures e.address !in old(conns) ==> conns == old(conns)[e.address := ConnEntry(Allowed, false)]
    {
      if e.address !in conns {
        conns := conns[e.address := ConnEntry(Allowed, false)];
      }
      c := Handle(e);
    }

    method Allow(c: Conn)
      modifies this
      ensures c.address in old(conns) ==> conns == old(conns)[c.address := old(conns)[c.address].(health := Allowed)]
      ensures c.address !in old(conns) ==> conns == old(conns)
    {
      if c.address in conns {
        conns := conns[c.address := conns[c.address].(health := Allowed)];
      }
    }

    method Ban(c: Conn, cause: Error)
      modifies this
      ensures c.address in old(conns) ==> conns == old(conns)[c.address := old(conns)[c.address].(health := Banned)]
      ensures c.address !in old(conns) ==> conns == old(conns)
    {
      if c.address in conns {
        conns := conns[c.address := conns[c.address].(health := Banned)];
      }
    }

    /** Refreshes the last-seen mark of the connection's endpoint. */
    method Touch(c: Conn)
      modifies this
      ensures c.address in old(conns) ==> conns == old(conns)[c.address := old(conns)[c.address].(touched := true)]
      ensures c.address !in old(conns) ==> conns == old(conns)
    {
      if c.address in conns {
        conns := conns[c.address := conns[c.address].(touched := true)];
      }
    }

    /** The connection's health; an unknown connection is reported as allowed. */
    function GetState(c: Conn): (h: Health)
      reads this
      ensures h == Banned <==> c.address in conns && conns[c.address].health == Banned
    {
      if c.address in conns then conns[c.address].health else Allowed
    }
  }

  /** Resolves every endpoint to its pool connection, in order. */
  method EndpointsToConnections(p: Pool, endpoints: seq<Endpoint>) returns (conns: seq<Conn>)
    modifies p
    ensures |conns| == |endpoints|
    ensures forall i :: 0 <= i < |endpoints| ==> conns[i] == Handle(endpoints[i])
    ensures p.conns.Keys == old(p.conns).Keys + AddressesOf(endpoints)
    ensures forall a :: a in old(p.conns) ==> p.conns[a] == old(p.conns)[a]
    ensures forall a :: a in p.conns && a !in old(p.conns) ==> p.conns[a] == ConnEntry(Allowed, false)
  {
    conns := [];
    for i := 0 to |endpoints|
      invariant |conns| == i
      invariant forall j :: 0 <= j < i ==> conns[j] == Handle(endpoints[j])
      invariant p.conns.Keys == old(p.conns).Keys + AddressesOf(endpoints[..i])
      invariant forall a :: a in old(p.conns) ==> p.conns[a] == old(p.conns)[a]
      invariant forall a :: a in p.conns && a !in old(p.conns) ==> p.conns[a] == ConnEntry(Allowed, false)
    {
      var c := p.Get(endpoints[i]);
      assert endpoints[..i + 1] == endpoints[..i] + [endpoints[i]];
      conns := conns + [c];
    }
    assert endpoints[..|endpoints|] == endpoints;
  }

  class Balancer {
    const config: BalancerConfig
    const pool: Pool

    var connectionsState: Option<ConnectionsState>
    var onDiscovery: seq<Subscriber>

    var hasRepeater: bool
    var forceCount: nat
    var stopCount: nat

    /** Every subscriber call made so far, in order. */
    ghost var delivered: seq<Notification>

    /** Every connection of the published snapshot is held by the pool. */
    ghost predicate Valid()
      reads this, pool
    {
      connectionsState.Some? ==>
        forall c :: c in connectionsState.value.connections ==> c.address in pool.conns
    }

    constructor Init(config: BalancerConfig, pool: Pool)
      ensures this.config == config && this.pool == pool
      ensures connectionsState.None? && onDiscovery == [] && delivered == []
      ensures !hasRepeater && forceCount == 0 && stopCount == 0
      ensures Valid()
    {
      this.config := config;
      this.pool := pool;
      connectionsState := None;
      onDiscovery := [];
      hasRepeater := false;
      forceCount := 0;
      stopCount := 0;
      delivered := [];
    }

    /**
      Registers a subscriber at the end of the list, so every later
      discovery calls it after all earlier subscribers.
     */
    method OnUpdate(s: Subscriber)
      requires Valid()
      modifies this`onDiscovery
      ensures Valid()
      ensures onDiscovery == old(onDiscovery) + [s]
      ensures forall endpoints ::
        Notifications(onDiscovery, endpoints) == Notifications(old(onDiscovery), endpoints) + [Notification(s, endpoints)]
    {
      onDiscovery := onDiscovery + [s];
      assert onDiscovery[..|onDiscovery| - 1] == old(onDiscovery);
    }

    /**
      Publishes a discovery result: every discovered connection is allowed
      again and touched, the snapshot is replaced by one built from exactly
      those connections, and every subscriber is called once, in order.
     */
    method ApplyDiscoveredEndpoints(endpoints: seq<Endpoint>, localDC: string)
      requires Valid()
      modifies this`connectionsState, this`delivered, pool
      ensures Valid()
      ensures connectionsState == Some(ConnectionsState(
        Handles(endpoints),
        config.isPreferConn, localDC, config.allowFallback))
      ensures pool.conns.Keys == old(pool.conns).Keys + AddressesOf(endpoints)
      ensures forall e :: e in endpoints ==> pool.conns[e.address] == ConnEntry(Allowed, true)
      ensures forall a :: a in old(pool.conns) && a !in AddressesOf(endpoints) ==> pool.conns[a] == old(pool.conns)[a]
      ensures delivered == old(delivered) + Notifications(onDiscovery, endpoints)
    {
      var connections := EndpointsToConnections(pool, endpoints);
      assert connections == Handles(endpoints);
      ghost var registered := pool.conns;
      for i := 0 to |connections|
        invariant delivered == old(delivered)
        invariant pool.conns.Keys == registered.Keys
        invariant forall j :: 0 <= j < i ==> pool.conns[connections[j].address] == ConnEntry(Allowed, true)
        invariant forall a ::
          a in registered && (forall j :: 0 <= j < i ==> connections[j].address != a) ==> pool.conns[a] == registered[a]
      {
        pool.Allow(connections[i]);
        pool.Touch(connections[i]);
      }
      forall e | e in endpoints
        ensures pool.conns[e.address] == ConnEntry(Allowed, true)
      {
        var k :| 0 <= k < |endpoints| && endpoints[k] == e;
        assert connections[k].address == e.address;
      }
      forall a | a in old(pool.conns) && a !in AddressesOf(endpoints)
        ensures pool.conns[a] == old(pool.conns)[a]
      {
        forall j | 0 <= j < |connections|
          ensures connections[j].address != a
        {
          assert endpoints[j] in endpoints;
        }
      }

      var state := ConnectionsState(connections, config.isPreferConn, localDC, config.allowFallback);
      var endpointsInfo := CopyEndpointsInfo(endpoints);

      connectionsState := Some(state);
      assert onDiscovery[..0] == [];
      for i := 0 to |onDiscovery|
        invariant delivered == old(delivered) + Notifications(onDiscovery[..i], endpointsInfo)
      {
        assert onDiscovery[..i + 1][..i] == onDiscovery[..i];
        delivered := delivered + [Notification(onDiscovery[i], endpointsInfo)];
      }
      assert onDiscovery[..|onDiscovery|] == onDiscovery;
    }

    /**
      One discovery attempt: dial the discovery client, discover, detect the
      local data center when configured, then apply. Any failure leaves the
      balancer and the pool as they were; the returned error is reclassified
      against the parent context.
     */
    method ClusterDiscoveryAttempt(ctx: Context, round: DiscoveryRound) returns (err: Option<Error>)
      requires Valid()
      modifies this`connectionsState, this`delivered, pool
      ensures Valid()
      ensures var outcome := AttemptOutcome(config, round);
        && err == MarkRetryable(ctx, if outcome.Err? then Some(outcome.error) else None)
        && (outcome.Err? ==>
              connectionsState == old(connectionsState) && delivered == old(delivered)
              && pool.conns == old(pool.conns))
        && (outcome.Ok? ==>
              && connectionsState == Some(ConnectionsState(
                   Handles(outcome.value.0),
                   config.isPreferConn, outcome.value.1, config.allowFallback))
              && pool.conns.Keys == old(pool.conns).Keys + AddressesOf(outcome.value.0)
              && (forall e :: e in outcome.value.0 ==> pool.conns[e.address] == ConnEntry(Allowed, true))
              && (forall a :: a in old(pool.conns) && a !in AddressesOf(outcome.value.0)
                    ==> pool.conns[a] == old(pool.conns)[a])
              && delivered == old(delivered) + Notifications(onDiscovery, outcome.value.0))
    {
      var raw: Option<Error> := None;
      if round.dial.Some? {
        raw := round.dial;
      } else if round.discovered.Err? {
        raw := Some(round.discovered.error);
      } else {
        var endpoints := round.discovered.value;
        var localDC := "";
        var detected: Result<string> := Ok("");
        if config.detectLocalDC {
          detected := round.detect(endpoints);
          if detected.Ok? {
            localDC := detected.value;
          }
        }
        if detected.Err? {
          raw := Some(detected.error);
        } else {
          ApplyDiscoveredEndpoints(endpoints, localDC);
        }
      }
      err := MarkRetryable(ctx, raw);
    }

    /**
      Picks a connection from the current snapshot. `choose` and
      `preferredCount` stand for the snapshot's `GetConnection` and
      `PreferredCount`. A done context fails at once; no connection is a
      no-endpoints error carrying the skip count; and the repeater is forced
      exactly when it exists and more than half the preferred tier was skipped.
     */
    method GetConn(ctx: Context, choose: ConnectionsState -> Selection, preferredCount: ConnectionsState -> nat)
      returns (r: Result<Conn>)
      requires Valid() && connectionsState.Some?
      modifies this`forceCount
      ensures Valid()
      ensures ctx != Alive ==> r == Err(ContextError(ctx)) && forceCount == old(forceCount)
      ensures ctx == Alive ==>
        var state := connectionsState.value;
        var sel := choose(state);
        && (sel.conn.Some? ==> r == Ok(sel.conn.value))
        && (sel.conn.None? ==> r == Err(NoEndpoints(sel.failedCount)))
        && forceCount == old(forceCount)
             + (if hasRepeater && ForcesRediscovery(sel.failedCount, preferredCount(state)) then 1 else 0)
    {
      if ctx != Alive {
        return Err(ContextError(ctx));
      }
      var state := connectionsState.value;
      var sel := choose(state);
      if sel.failedCount * 2 > preferredCount(state) && hasRepeater {
        forceCount := forceCount + 1;
      }
      if sel.conn.None? {
        return Err(NoEndpoints(sel.failedCount));
      }
      return Ok(sel.conn.value);
    }

    /**
      Runs one call on a picked connection and feeds its outcome back into
      the pool. `metaErr` is the outcome of attaching call metadata,
      `opErr` that of the operation, and `mustPessimize` stands for the
      error classification that decides banning. Returns the call's error
      and the connection the operation ran on, if it ran.
     */
    method WrapCall(
      ctx: Context,
      choose: ConnectionsState -> Selection,
      preferredCount: ConnectionsState -> nat,
      metaErr: Option<Error>,
      opErr: Option<Error>,
      mustPessimize: Error -> bool)
      returns (err: Option<Error>, ranOn: Option<Conn>)
      requires Valid() && connectionsState.Some?
      requires choose(connectionsState.value).conn.Some? ==>
        choose(connectionsState.value).conn.value in connectionsState.value.connections
      modifies this`forceCount, pool
      ensures Valid()
      ensures var state := connectionsState.value; var sel := choose(state);
        forceCount == old(forceCount)
          + (if ctx == Alive && hasRepeater && ForcesRediscovery(sel.failedCount, preferredCount(state)) then 1 else 0)
      ensures var sel := choose(connectionsState.value);
        && (ctx != Alive ==>
              err == Some(ContextError(ctx)) && ranOn.None? && pool.conns == old(pool.conns))
        && (ctx == Alive && sel.conn.None? ==>
              err == Some(NoEndpoints(sel.failedCount)) && ranOn.None? && pool.conns == old(pool.conns))
        && (ctx == Alive && sel.conn.Some? ==>
              var a := sel.conn.value.address;
              && a in old(pool.conns)
              && ranOn == (if metaErr.Some? then None else sel.conn)
              && err == (if metaErr.Some? then metaErr else opErr)
              && pool.conns.Keys == old(pool.conns).Keys
              && (forall b :: b in old(pool.conns) && b != a ==> pool.conns[b] == old(pool.conns)[b])
              && pool.conns[a].touched == old(pool.conns)[a].touched
              && (err.None? ==> pool.conns[a].health == Allowed)
              && (err.Some? && mustPessimize(err.value) ==> pool.conns[a].health == Banned)
              && (err.Some? && !mustPessimize(err.value) ==> pool.conns[a].health == old(pool.conns)[a].health))
    {
      var picked := GetConn(ctx, choose, preferredCount);
      if picked.Err? {
        return Some(picked.error), None;
      }
      var cc := picked.value;
      if metaErr.Some? {
        err, ranOn := metaErr, None;
      } else {
        err, ranOn := opErr, Some(cc);
      }
      if err.None? {
        if pool.GetState(cc) == Banned {
          pool.Allow(cc);
        }
      } else if mustPessimize(err.value) {
        pool.Ban(cc, err.value);
      }
    }

    /** Stops the repeater when there is one; closing never fails. */
    method Close()
      requires Valid()
      modifies this`stopCount
      ensures Valid()
      ensures stopCount == old(stopCount) + (if hasRepeater then 1 else 0)
    {
      if hasRepeater {
        stopCount := stopCount + 1;
      }
    }

    /**
      Builds a balancer. In single-connection mode the snapshot holds the
      driver's own endpoint and there is no discovery and no repeater;
      otherwise discovery runs (`round` is the outcome of the retry
      policy's final attempt) and a repeater exists exactly when `interval`
      is positive. A failed discovery returns no balancer.
     */
    static method New(ctx: Context, driver: DriverConfig, pool: Pool, interval: int, round: DiscoveryRound)
      returns (b: Balancer?, err: Option<Error>)
      modifies pool
      ensures b == null <==> err.Some?
      ensures var config := if driver.balancer.Some? then driver.balancer.value else BalancerConfig(None, false, false, false);
        && (b != null ==>
              fresh(b) && b.Valid() && b.pool == pool && b.config == config
              && b.onDiscovery == [] && b.delivered == [] && b.forceCount == 0 && b.stopCount == 0)
        && (config.singleConn ==>
              && b != null && !b.hasRepeater
              && b.connectionsState == Some(ConnectionsState([Conn(driver.endpoint)], None, "", false))
              && pool.conns.Keys == old(pool.conns).Keys + {driver.endpoint}
              && (forall a :: a in old(pool.conns) ==> pool.conns[a] == old(pool.conns)[a])
              && (driver.endpoint !in old(pool.conns) ==> pool.conns[driver.endpoint] == ConnEntry(Allowed, false)))
        && (!config.singleConn ==>
              var outcome := AttemptOutcome(config, round);
              && (outcome.Err? <==> b == null)
              && (outcome.Err? ==> err == MarkRetryable(ctx, Some(outcome.error)) && pool.conns == old(pool.conns))
              && (b != null ==>
                    && b.hasRepeater == (interval > 0)
                    && b.connectionsState == Some(ConnectionsState(
                         Handles(outcome.value.0), config.isPreferConn, outcome.value.1, config.allowFallback))
                    && pool.conns.Keys == old(pool.conns).Keys + AddressesOf(outcome.value.0)
                    && (forall e :: e in outcome.value.0 ==> pool.conns[e.address] == ConnEntry(Allowed, true))
                    && (forall a :: a in old(pool.conns) && a !in AddressesOf(outcome.value.0)
                          ==> pool.conns[a] == old(pool.conns)[a])))
    {
      var config := if driver.balancer.Some? then driver.balancer.value else BalancerConfig(None, false, false, false);
      var nb := new Balancer.Init(config, pool);
      if config.singleConn {
        var connections := EndpointsToConnections(pool, [Endpoint(driver.endpoint, "")]);
        assert AddressesOf([Endpoint(driver.endpoint, "")]) == {driver.endpoint};
        assert connections == [Conn(driver.endpoint)];
        nb.connectionsState := Some(ConnectionsState(connections, None, "", false));
        return nb, None;
      }
      err := nb.ClusterDiscoveryAttempt(ctx, round);
      if err.Some? {
        return null, err;
      }
      if interval > 0 {
        nb.hasRepeater := true;
      }
      b := nb;
    }
  }

  /**
    A client of the contracts above: a connection banned after a
    pessimised failure is allowed again by the next discovery that
    reports its endpoint, and the subscriber hears of both rounds.
   */
  method RecoveryScenario(pool: Pool)
    modifies pool
  {
    var local := Endpoint("a:2135", "dc1");
    var remote := Endpoint("b:2135", "dc2");
    var config := BalancerConfig(None, true, false, false);
    var round := DiscoveryRound(None, Ok([local, remote]), (es: seq<Endpoint>) => Ok("dc1"));
    var b, err := Balancer.New(Alive, DriverConfig("a:2135", Some(config)), pool, 60, round);
    assert local in [local, remote];
    assert b != null && b.hasRepeater;
    b.OnUpdate(Subscriber(7));

    var choose := (s: ConnectionsState) => Selection(Some(Conn("a:2135")), 0);
    var preferred := (s: ConnectionsState) => 2;
    assert Conn("a:2135") == Handles([local, remote])[0];
    var callErr, ranOn := b.WrapCall(Alive, choose, preferred, None, Some(Failure(14)), (e: Error) => true);
    assert ranOn == Some(Conn("a:2135")) && callErr == Some(Failure(14));
    assert pool.conns["a:2135"].health == Banned;

    err := b.ClusterDiscoveryAttempt(Alive, round);
    assert err.None?;
    assert pool.conns["a:2135"].health == Allowed;
    assert b.delivered == [Notification(Subscriber(7), [local, remote])];
  }
}
