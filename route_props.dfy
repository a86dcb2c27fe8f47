/**
 * What the route stage (collectRouteMetrics) guarantees: in the degraded branch, which
 * series are zeroed and where the nil dereference stops it; in the normal branch, that the
 * connection gauges hold only this cycle's connections, that the route values are the
 * fetched ones, and how the stored route list and connection list move.
 */
module RouteProperties {
  import opened Wrappers
  import opened Registry
  import opened Remote
  import opened Cycle
  import opened Seqs

  // ---------------------------------------------------------------- degraded branch

  /** The four route-level gauges: active, total, blocked and health. */
  function RouteLevelGauges(): set<Gauge>
  {
    {RouteActiveConnectionsGauge, RouteTotalConnectionsGauge, RouteBlockedHostsGauge, RouteHealthGauge}
  }

  /**
   * Every call of the degraded branch sets a route-level gauge to 0, for a stored route,
   * labelled with the stored router's hostname.
   */
  lemma {:induction false} ZeroFillWrites(enabled: set<ConnField>, lastRouter: Router, routes: seq<Route>,
                                          conns: seq<RouteConnection>)
    ensures forall op :: op in ZeroFill(enabled, Some(lastRouter), routes, conns).writes ==>
      && op.Set? && op.value == 0 && op.series.gauge in RouteLevelGauges()
      && |op.series.labels| == 2
      && op.series == RouteSeries(op.series.gauge, op.series.labels[0], lastRouter.hostname)
      && Route(op.series.labels[0]) in routes
  {
    if routes != [] {
      ZeroFillWrites(enabled, lastRouter, routes[1..], conns);
      assert Route(routes[0].name) == routes[0];
    }
  }

  /** A degraded run that completes has zeroed every stored route. */
  lemma {:induction false} ZeroFillIncludes(enabled: set<ConnField>, lastRouter: Router, routes: seq<Route>,
                                            conns: seq<RouteConnection>, r: Route)
    requires r in routes
    requires ZeroFill(enabled, Some(lastRouter), routes, conns).exit == Completed
    ensures forall op :: op in ZeroWrites(r.name, lastRouter.hostname) ==>
      op in ZeroFill(enabled, Some(lastRouter), routes, conns).writes
  {
    if r != routes[0] {
      ZeroFillIncludes(enabled, lastRouter, routes[1..], conns, r);
    }
  }

  /**
   * When the degraded branch completes (no connection family enabled, or no stored
   * connections), every stored route's four route-level gauges report 0.
   */
  lemma ZeroFillCompleted(enabled: set<ConnField>, lastRouter: Router, routes: seq<Route>,
                          conns: seq<RouteConnection>, r: Route, gauge: Gauge, g: Gauges)
    requires r in routes && gauge in RouteLevelGauges()
    requires enabled == {} || conns == []
    ensures Lookup(Apply(g, ZeroFill(enabled, Some(lastRouter), routes, conns).writes),
                   RouteSeries(gauge, r.name, lastRouter.hostname)) == Some(0)
  {
    var w := ZeroFill(enabled, Some(lastRouter), routes, conns).writes;
    var k := RouteSeries(gauge, r.name, lastRouter.hostname);
    ZeroFillIncludes(enabled, lastRouter, routes, conns, r);
    ZeroFillWrites(enabled, lastRouter, routes, conns);
    assert Set(k, 0) in ZeroWrites(r.name, lastRouter.hostname);
    ApplyAtSetOnly(w, k, 0, Lookup(g, k));
  }

  /**
   * When a connection family is enabled and connections are stored, the degraded branch
   * stops after the first stored route: that route's four gauges read 0, and every other
   * series keeps its value, the gauges of every later stored route included, although the
   * branch is meant to zero all of them.
   */
  lemma ZeroFillStopsAfterFirstRoute(enabled: set<ConnField>, lastRouter: Router, routes: seq<Route>,
                                     conns: seq<RouteConnection>, g: Gauges, k: Series)
    requires routes != [] && conns != [] && enabled != {}
    ensures var after := Apply(g, ZeroFill(enabled, Some(lastRouter), routes, conns).writes);
            var first := RouteSeries(k.gauge, routes[0].name, lastRouter.hostname);
      && (k.gauge in RouteLevelGauges() && k == first ==> Lookup(after, k) == Some(0))
      && (k.gauge !in RouteLevelGauges() || k != first ==> Lookup(after, k) == Lookup(g, k))
  {
    var w := ZeroWrites(routes[0].name, lastRouter.hostname);
    assert ZeroFill(enabled, Some(lastRouter), routes, conns).writes == w;
    if k.gauge in RouteLevelGauges() && k == RouteSeries(k.gauge, routes[0].name, lastRouter.hostname) {
      assert Set(k, 0) in w;
      ApplyAtSetOnly(w, k, 0, Lookup(g, k));
    } else {
      ApplyAtUnmentioned(w, k, Lookup(g, k));
    }
  }

  /** The degraded branch changes no series outside the route-level gauges; the connection gauges keep their values. */
  lemma ZeroFillSparesOthers(enabled: set<ConnField>, lastRouter: Router, routes: seq<Route>,
                             conns: seq<RouteConnection>, g: Gauges, k: Series)
    requires k.gauge !in RouteLevelGauges()
    ensures Lookup(Apply(g, ZeroFill(enabled, Some(lastRouter), routes, conns).writes), k) == Lookup(g, k)
  {
    var w := ZeroFill(enabled, Some(lastRouter), routes, conns).writes;
    ZeroFillWrites(enabled, lastRouter, routes, conns);
    ApplyAtUnmentioned(w, k, Lookup(g, k));
  }

  // ---------------------------------------------------------------- the gauges the stage writes

  /** The gauges the route stage may write: the route gauges, and the connection families whose flag is on. */
  predicate RouteStageGauge(cfg: Config, gauge: Gauge)
  {
    || gauge in RouteLevelGauges()
    || gauge == RouteGauge
    || gauge == RouteDestinationsGauge
    || (gauge.RouteConnectionsGauge? && gauge.field in cfg.connections)
  }

  /** Both branches of the route stage write only route gauges, and never a disabled connection family. */
  lemma RouteStageWrites(cfg: Config, remote: Client, router: Option<Router>, snap: Snapshot)
    requires SnapshotInvariant(snap)
    ensures forall op :: op in RouteStage(cfg, remote, router, snap).writes ==> RouteStageGauge(cfg, GaugeOf(op))
  {
    if router.None? {
      if snap.routes != [] {
        ZeroFillWrites(cfg.connections, snap.router.value, snap.routes, snap.connections);
      }
    } else if remote.allRoutes.Ok? {
      var routes := remote.allRoutes.value;
      RouteLoopWritesSound(cfg, remote, router.value.hostname, routes, routes, snap.connections);
      forall op | op in RouteLoop(cfg, remote, router.value.hostname, routes, snap.connections).writes
        ensures RouteStageGauge(cfg, GaugeOf(op))
      {
        assert RouteWrite(cfg, remote, router.value.hostname, routes, op);
      }
    }
  }

  // ---------------------------------------------------------------- normal branch: which calls

  /**
   * A Set the route loop may make on series `s` with value `v`: the route named by the
   * first label was fetched, and `v` is what the fetch reported for this gauge.
   */
  predicate SetFromRoute(cfg: Config, remote: Client, host: string, s: Series, v: int)
    requires |s.labels| >= 1
  {
    var n := s.labels[0];
    match s.gauge
    case RouteActiveConnectionsGauge =>
      s == RouteSeries(s.gauge, n, host) && remote.routeStatus(n).Ok? && v == remote.routeStatus(n).value.activeConnections
    case RouteTotalConnectionsGauge =>
      s == RouteSeries(s.gauge, n, host) && remote.routeStatus(n).Ok? && v == remote.routeStatus(n).value.totalConnections
    case RouteBlockedHostsGauge =>
      s == RouteSeries(s.gauge, n, host) && remote.routeStatus(n).Ok? && v == remote.routeStatus(n).value.blockedHosts
    case RouteHealthGauge =>
      s == RouteSeries(s.gauge, n, host) && remote.routeHealth(n).Ok? && v == HealthValue(remote.routeHealth(n).value)
    case RouteConnectionsGauge(f) =>
      && f in cfg.connections
      && remote.routeConnections(n).Ok?
      && exists c :: c in remote.routeConnections(n).value && s.labels == ConnLabels(n, host, c) && v == ConnValue(f, c)
    case _ => false
  }

  /** The calls the route loop can make, for routes listed in `routes`: presence and destination touches, and fetched values. */
  predicate RouteWrite(cfg: Config, remote: Client, host: string, routes: seq<Route>, op: Op)
  {
    match op
    case Touch(s) =>
      && (s.gauge == RouteGauge || s.gauge == RouteDestinationsGauge)
      && |s.labels| >= 1 && Route(s.labels[0]) in routes
    case Set(s, v) =>
      && |s.labels| >= 2 && Route(s.labels[0]) in routes
      && SetFromRoute(cfg, remote, host, s, v)
    case Reset(_) => false
  }

  lemma {:induction false} DestinationWritesSound(cfg: Config, remote: Client, host: string, routes: seq<Route>,
                                                  n: string, ds: seq<RouteDestination>)
    requires Route(n) in routes
    ensures forall op :: op in DestinationWrites(n, ds) ==> RouteWrite(cfg, remote, host, routes, op)
  {
    if ds != [] {
      DestinationWritesSound(cfg, remote, host, routes, n, ds[1..]);
    }
  }

  lemma ConnectionWritesSound(cfg: Config, remote: Client, host: string, routes: seq<Route>, n: string,
                              c: RouteConnection)
    requires Route(n) in routes
    requires remote.routeConnections(n).Ok? && c in remote.routeConnections(n).value
    ensures forall op :: op in ConnectionWrites(cfg.connections, n, host, c) ==> RouteWrite(cfg, remote, host, routes, op)
  {
  }

  lemma {:induction false} ConnectionsWritesSound(cfg: Config, remote: Client, host: string, routes: seq<Route>,
                                                  n: string, cs: seq<RouteConnection>)
    requires Route(n) in routes
    requires remote.routeConnections(n).Ok? && forall c :: c in cs ==> c in remote.routeConnections(n).value
    ensures forall op :: op in ConnectionsWrites(cfg.connections, n, host, cs) ==> RouteWrite(cfg, remote, host, routes, op)
  {
    if cs != [] {
      ConnectionWritesSound(cfg, remote, host, routes, n, cs[0]);
      ConnectionsWritesSound(cfg, remote, host, routes, n, cs[1..]);
    }
  }

  lemma RouteListingWritesSound(cfg: Config, remote: Client, host: string, routes: seq<Route>, n: string)
    requires Route(n) in routes
    ensures forall op :: op in RouteListing(cfg, remote, host, n).writes ==> RouteWrite(cfg, remote, host, routes, op)
  {
    if remote.routeDestinations(n).Ok? {
      DestinationWritesSound(cfg, remote, host, routes, n, remote.routeDestinations(n).value);
      if remote.routeConnections(n).Ok? {
        ConnectionsWritesSound(cfg, remote, host, routes, n, remote.routeConnections(n).value);
      }
    }
  }

  lemma RouteEntryWritesSound(cfg: Config, remote: Client, host: string, routes: seq<Route>, r: Route)
    requires r in routes
    ensures forall op :: op in RouteEntry(cfg, remote, host, r).writes ==> RouteWrite(cfg, remote, host, routes, op)
  {
    var n := r.name;
    assert Route(n) == r;
    var e := RouteEntry(cfg, remote, host, r).writes;
    var presence := Touch(Series(RouteGauge, [n]));
    assert RouteWrite(cfg, remote, host, routes, presence);
    match remote.routeStatus(n)
    case Err(_) =>
      assert e == [presence];
    case Ok(st) =>
      var counts := [Set(RouteSeries(RouteActiveConnectionsGauge, n, host), st.activeConnections)]
        + [Set(RouteSeries(RouteTotalConnectionsGauge, n, host), st.totalConnections)]
        + [Set(RouteSeries(RouteBlockedHostsGauge, n, host), st.blockedHosts)];
      assert RouteWrite(cfg, remote, host, routes, counts[0]);
      assert RouteWrite(cfg, remote, host, routes, counts[1]);
      assert RouteWrite(cfg, remote, host, routes, counts[2]);
      match remote.routeHealth(n)
      case Err(_) =>
        assert e == [presence] + counts;
      case Ok(h) =>
        var health := Set(RouteSeries(RouteHealthGauge, n, host), HealthValue(h));
        assert RouteWrite(cfg, remote, host, routes, health);
        RouteListingWritesSound(cfg, remote, host, routes, n);
        assert e == [presence] + counts + [health] + RouteListing(cfg, remote, host, n).writes;
  }

  /** Every call the route loop makes over a sublist of `all` is a RouteWrite for `all`. */
  lemma {:induction false} RouteLoopWritesSound(cfg: Config, remote: Client, host: string, all: seq<Route>,
                                                routes: seq<Route>, conns: seq<RouteConnection>)
    requires forall r :: r in routes ==> r in all
    ensures forall op :: op in RouteLoop(cfg, remote, host, routes, conns).writes ==> RouteWrite(cfg, remote, host, all, op)
  {
    if routes != [] {
      RouteEntryWritesSound(cfg, remote, host, all, routes[0]);
      if RouteOk(remote, routes[0]) {
        RouteLoopWritesSound(cfg, remote, host, all, routes[1..], remote.routeConnections(routes[0].name).value);
      }
    }
  }

  // ---------------------------------------------------------------- normal branch: which calls are certain

  lemma {:induction false} DestinationWritesIncludes(n: string, ds: seq<RouteDestination>, d: RouteDestination)
    requires d in ds
    ensures Touch(DestinationSeries(n, d)) in DestinationWrites(n, ds)
  {
    if d != ds[0] {
      DestinationWritesIncludes(n, ds[1..], d);
    }
  }

  lemma ConnectionWritesIncludes(enabled: set<ConnField>, n: string, host: string, c: RouteConnection, f: ConnField)
    requires f in enabled
    ensures Set(Series(RouteConnectionsGauge(f), ConnLabels(n, host, c)), ConnValue(f, c))
            in ConnectionWrites(enabled, n, host, c)
  {
    match f
    case ByteFromServer =>
    case ByteToServer =>
    case TimeStarted =>
    case TimeConnectedToServer =>
    case TimeLastSentToServer =>
    case TimeReceivedFromServer =>
  }

  lemma {:induction false} ConnectionsWritesIncludes(enabled: set<ConnField>, n: string, host: string,
                                                     cs: seq<RouteConnection>, c: RouteConnection, f: ConnField)
    requires c in cs && f in enabled
    ensures Set(Series(RouteConnectionsGauge(f), ConnLabels(n, host, c)), ConnValue(f, c))
            in ConnectionsWrites(enabled, n, host, cs)
  {
    if c == cs[0] {
      ConnectionWritesIncludes(enabled, n, host, c, f);
    } else {
      ConnectionsWritesIncludes(enabled, n, host, cs[1..], c, f);
    }
  }

  /**
   * Every route the loop reaches (each route before the first failing one, and that route
   * itself) makes all of its calls, up to the failing fetch when there is one.
   */
  lemma {:induction false} RouteLoopReaches(cfg: Config, remote: Client, host: string, routes: seq<Route>,
                                            conns: seq<RouteConnection>, j: nat)
    requires j < |routes| && j <= OkPrefix(remote, routes)
    ensures forall op :: op in RouteEntry(cfg, remote, host, routes[j]).writes ==>
      op in RouteLoop(cfg, remote, host, routes, conns).writes
  {
    var run := RouteLoop(cfg, remote, host, routes, conns).writes;
    var first := RouteEntry(cfg, remote, host, routes[0]);
    if first.failure.Some? {
      assert run == first.writes;
    } else {
      var next := remote.routeConnections(routes[0].name).value;
      var rest := RouteLoop(cfg, remote, host, routes[1..], next).writes;
      assert run == first.writes + rest;
      if j > 0 {
        assert OkPrefix(remote, routes) == 1 + OkPrefix(remote, routes[1..]);
        RouteLoopReaches(cfg, remote, host, routes[1..], next, j - 1);
        assert routes[1..][j - 1] == routes[j];
      }
    }
  }

  /**
   * A loop that meets a failing route stops there: its calls are those of the routes before
   * it, then the failing route's own calls up to the failing fetch, and nothing after. The
   * series written before the early return stay in the registry.
   */
  lemma {:induction false} RouteLoopStops(cfg: Config, remote: Client, host: string, routes: seq<Route>,
                                          conns: seq<RouteConnection>)
    requires OkPrefix(remote, routes) < |routes|
    ensures var i := OkPrefix(remote, routes);
            var run := RouteLoop(cfg, remote, host, routes, conns);
            var e := RouteEntry(cfg, remote, host, routes[i]);
      && run.writes == RouteLoop(cfg, remote, host, routes[..i], conns).writes + e.writes
      && run.failure == e.failure && e.failure.Some?
  {
    var i := OkPrefix(remote, routes);
    var e := RouteEntry(cfg, remote, host, routes[i]).writes;
    if i == 0 {
      assert routes[..0] == [];
      assert [] + e == e;
    } else {
      assert RouteOk(remote, routes[0]);
      assert i == 1 + OkPrefix(remote, routes[1..]);
      var first := RouteEntry(cfg, remote, host, routes[0]).writes;
      var next := remote.routeConnections(routes[0].name).value;
      RouteLoopStops(cfg, remote, host, routes[1..], next);
      assert routes[1..][i - 1] == routes[i];
      assert routes[..i][0] == routes[0];
      assert routes[..i][1..] == routes[1..][..i - 1];
      var done := RouteLoop(cfg, remote, host, routes[1..][..i - 1], next).writes;
      assert RouteLoop(cfg, remote, host, routes[..i], conns).writes == first + done;
      ConcatAssoc(first, done, e);
    }
  }

  // ---------------------------------------------------------------- normal branch: the registry

  /** The calls of the normal branch when the route list was fetched. */
  function NormalWrites(cfg: Config, remote: Client, host: string, routes: seq<Route>, conns: seq<RouteConnection>): seq<Op>
  {
    ResetWrites(cfg.connections) + RouteLoop(cfg, remote, host, routes, conns).writes
  }

  lemma NormalWritesAre(cfg: Config, remote: Client, rt: Router, snap: Snapshot, routes: seq<Route>)
    requires SnapshotInvariant(snap) && remote.allRoutes == Ok(routes)
    ensures RouteStage(cfg, remote, Some(rt), snap).writes == NormalWrites(cfg, remote, rt.hostname, routes, snap.connections)
  {
  }

  /**
   * Reset before repopulate: after the normal branch, every series of an enabled connection
   * family belongs to a route of this cycle's list and carries a value computed from one of
   * that route's fetched connections. Nothing from earlier cycles survives, whether or not
   * the loop completed.
   */
  lemma ConnectionSeriesFromThisCycle(cfg: Config, remote: Client, host: string, routes: seq<Route>,
                                      conns: seq<RouteConnection>, g: Gauges, k: Series, f: ConnField)
    requires k.gauge == RouteConnectionsGauge(f) && f in cfg.connections
    requires k in Apply(g, NormalWrites(cfg, remote, host, routes, conns))
    ensures |k.labels| >= 2 && Route(k.labels[0]) in routes
    ensures SetFromRoute(cfg, remote, host, k, Apply(g, NormalWrites(cfg, remote, host, routes, conns))[k])
  {
    var resets := ResetWrites(cfg.connections);
    var run := RouteLoop(cfg, remote, host, routes, conns).writes;
    var after := Apply(g, NormalWrites(cfg, remote, host, routes, conns));
    var v := after[k];
    assert Lookup(after, k) == Some(v);
    ApplyAtAppend(resets, run, k, Lookup(g, k));
    var x := ApplyAt(resets, k, Lookup(g, k));
    ApplyAtOrigin(run, k, x, v);
    assert Reset(k.gauge) in resets;
    ApplyAtAppend([], resets, k, Lookup(g, k));
    assert x == None by {
      ApplyAtNoneAfterReset(resets, k, Lookup(g, k));
    }
    RouteLoopWritesSound(cfg, remote, host, routes, routes, conns);
    assert Touch(k) !in run;
    assert RouteWrite(cfg, remote, host, routes, Set(k, v));
  }

  /** Calls that end with a Reset of `k`'s gauge and nothing that creates `k` leave `k` absent. */
  lemma ApplyAtNoneAfterReset(resets: seq<Op>, k: Series, x: Option<int>)
    requires Reset(k.gauge) in resets
    requires forall op :: op in resets ==> op.Reset?
    ensures ApplyAt(resets, k, x) == None
  {
    var i :| 0 <= i < |resets| && resets[i] == Reset(k.gauge);
    assert resets == resets[..i] + [resets[i]] + resets[i + 1..];
    ApplyAtAppend(resets[..i] + [resets[i]], resets[i + 1..], k, x);
    ApplyAtAppend(resets[..i], [resets[i]], k, x);
    assert forall op :: op in resets[i + 1..] ==> op in resets;
    ApplyAtNoneAfterResets(resets[i + 1..], k);
  }

  /** Resets alone never create a series. */
  lemma {:induction false} ApplyAtNoneAfterResets(ops: seq<Op>, k: Series)
    requires forall op :: op in ops ==> op.Reset?
    ensures ApplyAt(ops, k, None) == None
  {
    if ops != [] {
      assert ops[0] in ops;
      ApplyAtNoneAfterResets(ops[1..], k);
    }
  }

  /**
   * A route that is missing from this cycle's list leaves no series in an enabled connection
   * family, even if it had connections in an earlier cycle.
   */
  lemma VanishedRouteLeavesNoConnections(cfg: Config, remote: Client, host: string, routes: seq<Route>,
                                         conns: seq<RouteConnection>, g: Gauges, k: Series, f: ConnField)
    requires k.gauge == RouteConnectionsGauge(f) && f in cfg.connections
    requires |k.labels| >= 1 && Route(k.labels[0]) !in routes
    ensures k !in Apply(g, NormalWrites(cfg, remote, host, routes, conns))
  {
    if k in Apply(g, NormalWrites(cfg, remote, host, routes, conns)) {
      ConnectionSeriesFromThisCycle(cfg, remote, host, routes, conns, g, k, f);
    }
  }

  /**
   * For a route the loop reaches, the normal branch makes every call of that route's loop
   * body up to its failing fetch, if any; and each call of the branch is a flag-gated reset
   * or a RouteWrite.
   */
  lemma NormalWritesCover(cfg: Config, remote: Client, host: string, routes: seq<Route>,
                          conns: seq<RouteConnection>, j: nat)
    requires j < |routes| && j <= OkPrefix(remote, routes)
    ensures var w := NormalWrites(cfg, remote, host, routes, conns);
      && (forall op :: op in w ==> (op.Reset? && op.gauge.RouteConnectionsGauge?) || RouteWrite(cfg, remote, host, routes, op))
      && (forall op :: op in RouteEntry(cfg, remote, host, routes[j]).writes ==> op in w)
  {
    RouteLoopReaches(cfg, remote, host, routes, conns, j);
    RouteLoopWritesSound(cfg, remote, host, routes, routes, conns);
  }

  /**
   * Every route the loop reaches has its presence series exported, the failing route
   * included: its presence call comes before any of its fetches.
   */
  lemma RoutePresenceExported(cfg: Config, remote: Client, host: string, routes: seq<Route>,
                              conns: seq<RouteConnection>, g: Gauges, j: nat)
    requires j < |routes| && j <= OkPrefix(remote, routes)
    ensures Series(RouteGauge, [routes[j].name]) in Apply(g, NormalWrites(cfg, remote, host, routes, conns))
  {
    var w := NormalWrites(cfg, remote, host, routes, conns);
    NormalWritesCover(cfg, remote, host, routes, conns, j);
    var presence := Series(RouteGauge, [routes[j].name]);
    assert Touch(presence) in RouteEntry(cfg, remote, host, routes[j]).writes;
    assert Reset(RouteGauge) !in w;
    ApplyAtPresent(w, presence, Lookup(g, presence));
  }

  /**
   * Every route the loop reaches whose status fetch succeeded is exported with the fetched
   * active, total and blocked counts, even when a later fetch of that route fails.
   */
  lemma RouteCountsExported(cfg: Config, remote: Client, host: string, routes: seq<Route>,
                            conns: seq<RouteConnection>, g: Gauges, j: nat, st: RouteStatus)
    requires j < |routes| && j <= OkPrefix(remote, routes)
    requires remote.routeStatus(routes[j].name) == Ok(st)
    ensures var after := Apply(g, NormalWrites(cfg, remote, host, routes, conns));
            var n := routes[j].name;
      && Lookup(after, RouteSeries(RouteActiveConnectionsGauge, n, host)) == Some(st.activeConnections)
      && Lookup(after, RouteSeries(RouteTotalConnectionsGauge, n, host)) == Some(st.totalConnections)
      && Lookup(after, RouteSeries(RouteBlockedHostsGauge, n, host)) == Some(st.blockedHosts)
  {
    var w := NormalWrites(cfg, remote, host, routes, conns);
    var n := routes[j].name;
    NormalWritesCover(cfg, remote, host, routes, conns, j);
    var e := RouteEntry(cfg, remote, host, routes[j]).writes;
    var active := RouteSeries(RouteActiveConnectionsGauge, n, host);
    var total := RouteSeries(RouteTotalConnectionsGauge, n, host);
    var blocked := RouteSeries(RouteBlockedHostsGauge, n, host);
    assert Set(active, st.activeConnections) in e && Set(total, st.totalConnections) in e
        && Set(blocked, st.blockedHosts) in e;
    RouteValueExported(cfg, remote, host, routes, w, g, active, st.activeConnections);
    RouteValueExported(cfg, remote, host, routes, w, g, total, st.totalConnections);
    RouteValueExported(cfg, remote, host, routes, w, g, blocked, st.blockedHosts);
  }

  /**
   * Every route the loop reaches whose status and health fetches succeeded has its health
   * series at 1 when the route is alive and 0 otherwise.
   */
  lemma RouteHealthExported(cfg: Config, remote: Client, host: string, routes: seq<Route>,
                            conns: seq<RouteConnection>, g: Gauges, j: nat, h: RouteHealth)
    requires j < |routes| && j <= OkPrefix(remote, routes)
    requires remote.routeStatus(routes[j].name).Ok? && remote.routeHealth(routes[j].name) == Ok(h)
    ensures Lookup(Apply(g, NormalWrites(cfg, remote, host, routes, conns)),
                   RouteSeries(RouteHealthGauge, routes[j].name, host)) == Some(if h.isAlive then 1 else 0)
  {
    var w := NormalWrites(cfg, remote, host, routes, conns);
    NormalWritesCover(cfg, remote, host, routes, conns, j);
    var health := RouteSeries(RouteHealthGauge, routes[j].name, host);
    assert Set(health, HealthValue(h)) in RouteEntry(cfg, remote, host, routes[j]).writes;
    RouteValueExported(cfg, remote, host, routes, w, g, health, HealthValue(h));
  }

  /** One route-level series that is set, and only ever set to `v`, ends at `v`. */
  lemma RouteValueExported(cfg: Config, remote: Client, host: string, routes: seq<Route>, w: seq<Op>, g: Gauges,
                           k: Series, v: int)
    requires k.gauge in RouteLevelGauges() && |k.labels| == 2
    requires Set(k, v) in w
    requires forall op :: op in w ==> (op.Reset? && op.gauge.RouteConnectionsGauge?) || RouteWrite(cfg, remote, host, routes, op)
    requires SetFromRoute(cfg, remote, host, k, v)
    ensures Lookup(Apply(g, w), k) == Some(v)
  {
    forall op | op in w && Mentions(op, k)
      ensures op == Set(k, v)
    {
    }
    ApplyAtSetOnly(w, k, v, Lookup(g, k));
  }

  /**
   * Every route the loop reaches whose status, health and destination fetches succeeded
   * has a series for each fetched destination, even when its connection fetch then fails.
   */
  lemma DestinationExported(cfg: Config, remote: Client, host: string, routes: seq<Route>,
                            conns: seq<RouteConnection>, g: Gauges, j: nat, ds: seq<RouteDestination>,
                            d: RouteDestination)
    requires j < |routes| && j <= OkPrefix(remote, routes)
    requires remote.routeStatus(routes[j].name).Ok? && remote.routeHealth(routes[j].name).Ok?
    requires remote.routeDestinations(routes[j].name) == Ok(ds) && d in ds
    ensures DestinationSeries(routes[j].name, d) in Apply(g, NormalWrites(cfg, remote, host, routes, conns))
  {
    var w := NormalWrites(cfg, remote, host, routes, conns);
    var n := routes[j].name;
    var k := DestinationSeries(n, d);
    NormalWritesCover(cfg, remote, host, routes, conns, j);
    DestinationWritesIncludes(n, ds, d);
    assert Touch(k) in RouteListing(cfg, remote, host, n).writes;
    assert Touch(k) in RouteEntry(cfg, remote, host, routes[j]).writes;
    assert Reset(k.gauge) !in w;
    ApplyAtPresent(w, k, Lookup(g, k));
  }

  /**
   * Every route whose fetches all succeeded before the loop stopped has, for each fetched
   * connection, a series in each enabled family; which value it holds when two connections
   * share their labels is stated by ConnectionSeriesFromThisCycle.
   */
  lemma ConnectionExported(cfg: Config, remote: Client, host: string, routes: seq<Route>,
                           conns: seq<RouteConnection>, g: Gauges, j: nat, cs: seq<RouteConnection>,
                           c: RouteConnection, f: ConnField)
    requires j < |routes| && j < OkPrefix(remote, routes)
    requires remote.routeConnections(routes[j].name) == Ok(cs) && c in cs && f in cfg.connections
    ensures Series(RouteConnectionsGauge(f), ConnLabels(routes[j].name, host, c))
            in Apply(g, NormalWrites(cfg, remote, host, routes, conns))
  {
    var run := RouteLoop(cfg, remote, host, routes, conns).writes;
    var n := routes[j].name;
    var k := Series(RouteConnectionsGauge(f), ConnLabels(n, host, c));
    RouteLoopReaches(cfg, remote, host, routes, conns, j);
    RouteLoopWritesSound(cfg, remote, host, routes, routes, conns);
    ConnectionsWritesIncludes(cfg.connections, n, host, cs, c, f);
    assert Set(k, ConnValue(f, c)) in RouteListing(cfg, remote, host, n).writes;
    assert Set(k, ConnValue(f, c)) in run;
    assert Reset(k.gauge) !in run;
    ApplyAtAppend(ResetWrites(cfg.connections), run, k, Lookup(g, k));
    ApplyAtPresent(run, k, ApplyAt(ResetWrites(cfg.connections), k, Lookup(g, k)));
  }

  /**
   * Units of the connection families: after the normal branch, a series of an enabled byte
   * family holds the raw counter of one of its route's fetched connections, and a series of
   * an enabled time family holds whole milliseconds (a multiple of 1000).
   */
  lemma ConnectionValueUnits(cfg: Config, remote: Client, host: string, routes: seq<Route>,
                             conns: seq<RouteConnection>, g: Gauges, k: Series, f: ConnField)
    requires k.gauge == RouteConnectionsGauge(f) && f in cfg.connections
    requires k in Apply(g, NormalWrites(cfg, remote, host, routes, conns))
    ensures var v := Apply(g, NormalWrites(cfg, remote, host, routes, conns))[k];
      && |k.labels| >= 2 && remote.routeConnections(k.labels[0]).Ok?
      && (f == ByteFromServer ==> exists c :: c in remote.routeConnections(k.labels[0]).value && c.bytesFromServer == v)
      && (f == ByteToServer ==> exists c :: c in remote.routeConnections(k.labels[0]).value && c.bytesToServer == v)
      && (IsTimestamp(f) ==> v % 1000 == 0)
  {
    var v := Apply(g, NormalWrites(cfg, remote, host, routes, conns))[k];
    ConnectionSeriesFromThisCycle(cfg, remote, host, routes, conns, g, k, f);
    var n := k.labels[0];
    var c :| c in remote.routeConnections(n).value && k.labels == ConnLabels(n, host, c) && v == ConnValue(f, c);
  }

  // ---------------------------------------------------------------- normal branch: the snapshot

  /** The number of leading routes whose every fetch succeeds. */
  function OkPrefix(remote: Client, routes: seq<Route>): (i: nat)
    ensures i <= |routes|
    ensures forall j :: 0 <= j < i ==> RouteOk(remote, routes[j])
    ensures i < |routes| ==> !RouteOk(remote, routes[i])
  {
    if routes == [] || !RouteOk(remote, routes[0]) then 0 else 1 + OkPrefix(remote, routes[1..])
  }

  /**
   * The route loop stops at the first route with a failing fetch; the stored connection list
   * is then the one fetched for the route before it, or the old one when the first route failed.
   */
  lemma {:induction false} RouteLoopOutcome(cfg: Config, remote: Client, host: string, routes: seq<Route>,
                                            conns: seq<RouteConnection>)
    ensures var run := RouteLoop(cfg, remote, host, routes, conns);
            var i := OkPrefix(remote, routes);
      && (run.failure.None? <==> i == |routes|)
      && (run.failure.None? <==> forall r :: r in routes ==> RouteOk(remote, r))
      && run.connections == if i == 0 then conns else remote.routeConnections(routes[i - 1].name).value
  {
    var i := OkPrefix(remote, routes);
    if i < |routes| {
      assert routes[i] in routes;
    }
    if routes != [] && RouteOk(remote, routes[0]) {
      var rest := routes[1..];
      RouteLoopOutcome(cfg, remote, host, rest, remote.routeConnections(routes[0].name).value);
      assert forall r :: r in routes <==> r == routes[0] || r in rest;
      if i > 1 {
        assert rest[i - 2] == routes[i - 1];
      }
    }
  }

  /**
   * The normal branch replaces the stored route list only when every route's fetches
   * succeeded, and replaces the stored connection list after each route that succeeded,
   * so a failure after the first route leaves the old route list next to a new connection list.
   */
  lemma NormalBranchSnapshot(cfg: Config, remote: Client, rt: Router, snap: Snapshot, routes: seq<Route>)
    requires SnapshotInvariant(snap) && remote.allRoutes == Ok(routes)
    ensures var o := RouteStage(cfg, remote, Some(rt), snap);
            var i := OkPrefix(remote, routes);
      && o.snapshot.router == snap.router
      && o.snapshot.routes == (if i == |routes| then routes else snap.routes)
      && o.snapshot.connections == (if i == 0 then snap.connections else remote.routeConnections(routes[i - 1].name).value)
      && (o.errors == [] <==> i == |routes|)
  {
    RouteLoopOutcome(cfg, remote, rt.hostname, routes, snap.connections);
  }

  /**
   * The two stored lists fall out of step: when the second or a later route fails, the route
   * list stays the old one while the connection list is that of the last route that succeeded.
   */
  lemma PartialFailureDesync(cfg: Config, remote: Client, rt: Router, snap: Snapshot, routes: seq<Route>)
    requires SnapshotInvariant(snap) && remote.allRoutes == Ok(routes)
    requires 0 < OkPrefix(remote, routes) < |routes|
    ensures var o := RouteStage(cfg, remote, Some(rt), snap);
      && o.snapshot.routes == snap.routes
      && o.snapshot.connections == remote.routeConnections(routes[OkPrefix(remote, routes) - 1].name).value
      && o.errors != []
  {
    NormalBranchSnapshot(cfg, remote, rt, snap, routes);
  }
}
