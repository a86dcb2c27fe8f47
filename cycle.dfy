/**
 * One collection cycle of the exporter as a function of the router's answers, the
 * configuration and the snapshot kept from earlier cycles. Each stage yields the registry
 * calls it makes, in order (`writes`), the errors it reports, and the new snapshot.
 * Early returns keep the calls made so far: a failing fetch ends the stage, not the cycle.
 */
module Cycle {
  import opened Wrappers
  import opened Registry
  import opened Remote
  import opened Strconv

  /** The exporter's options the cycle reads; `connections` holds the enabled per-connection families. */
  datatype Config = Config(
    serviceName: string,
    collectMetadataStatus: bool,
    connections: set<ConnField>)

  /** What the exporter keeps across cycles: the last router, route list and route-connection list. */
  datatype Snapshot = Snapshot(
    router: Option<Router>,
    routes: seq<Route>,
    connections: seq<RouteConnection>)

  /** How a stage ends: normally, or by the nil-router dereference of the degraded route branch. */
  datatype Exit = Completed | NilDereference

  /** The part of a loop run so far: the calls made, and the failing fetch's error if one stopped it. */
  datatype Step = Step(writes: seq<Op>, failure: Option<string>)

  /** The route loop also carries the last route-connection list it stored. */
  datatype RouteRun = RouteRun(writes: seq<Op>, connections: seq<RouteConnection>, failure: Option<string>)

  /** The degraded route branch: the calls made, and whether it dereferenced the nil router. */
  datatype ZeroRun = ZeroRun(writes: seq<Op>, exit: Exit)

  /** A whole stage or cycle. */
  datatype Outcome = Outcome(writes: seq<Op>, snapshot: Snapshot, errors: seq<string>, exit: Exit)

  /** The snapshot can only list routes after a router was seen. */
  predicate SnapshotInvariant(snap: Snapshot)
  {
    snap.routes != [] ==> snap.router.Some?
  }

  function ErrorsOf(failure: Option<string>): (es: seq<string>)
    ensures |es| <= 1
    ensures es == [] <==> failure.None?
  {
    if failure.Some? then [failure.value] else []
  }

  // ---------------------------------------------------------------- label sets

  const UpSeries: Series := Series(RouterUpGauge, [])

  /** Process id, edition, start time, version, hostname and the configured service name. */
  function RouterLabels(r: Router, cfg: Config): (labels: seq<string>)
    ensures |labels| == 6 && labels[4] == r.hostname && labels[5] == cfg.serviceName
  {
    [Itoa(r.processId), r.productEdition, r.timeStarted, r.version, r.hostname, cfg.serviceName]
  }

  function ConfigSeries(name: string, mc: MetadataConfig): Series
  {
    Series(MetadataConfigGauge, [name, mc.clusterName, Itoa(mc.timeRefreshInMs), mc.groupReplicationId])
  }

  function NodesSeries(name: string, host: string, mc: MetadataConfig): Series
  {
    Series(MetadataConfigNodesGauge, [name, host, mc.clusterName])
  }

  function StatusSeries(name: string, st: MetadataStatus): Series
  {
    Series(MetadataStatusGauge,
      [name, Itoa(st.refreshFailed), st.timeLastRefreshSucceeded, st.lastRefreshHostname, Itoa(st.lastRefreshPort)])
  }

  /** The series of one route-level gauge (active, total, blocked, health) for a route on a host. */
  function RouteSeries(gauge: Gauge, name: string, host: string): Series
  {
    Series(gauge, [name, host])
  }

  function DestinationSeries(name: string, d: RouteDestination): Series
  {
    Series(RouteDestinationsGauge, [name, d.address, Itoa(d.port)])
  }

  function ConnLabels(name: string, host: string, c: RouteConnection): seq<string>
  {
    [name, host, c.sourceAddress, c.destinationAddress]
  }

  predicate IsTimestamp(f: ConnField)
  {
    f.TimeStarted? || f.TimeConnectedToServer? || f.TimeLastSentToServer? || f.TimeReceivedFromServer?
  }

  /** The value a connection family reports: bytes as counted, times as Unix milliseconds. */
  function ConnValue(f: ConnField, c: RouteConnection): (v: int)
    ensures IsTimestamp(f) ==> v % 1000 == 0
  {
    match f
    case ByteFromServer => c.bytesFromServer
    case ByteToServer => c.bytesToServer
    case TimeStarted => c.timeStarted * 1000
    case TimeConnectedToServer => c.timeConnectedToServer * 1000
    case TimeLastSentToServer => c.timeLastSentToServer * 1000
    case TimeReceivedFromServer => c.timeLastReceivedFromServer * 1000
  }

  // ---------------------------------------------------------------- router stage

  /** collectRouterMetrics: the up gauge, the router-info series, and the stored router. */
  function RouterStage(cfg: Config, remote: Client, snap: Snapshot): (o: Outcome)
    ensures o.errors == [] && o.exit == Completed
    ensures o.snapshot.routes == snap.routes && o.snapshot.connections == snap.connections
    ensures o.snapshot.router == if remote.routerStatus.Ok? then Some(remote.routerStatus.value) else snap.router
  {
    match remote.routerStatus
    case Err(_) => Outcome([Set(UpSeries, 0)], snap, [], Completed)
    case Ok(r) =>
      Outcome([Set(UpSeries, 1), Touch(Series(RouterStatusGauge, RouterLabels(r, cfg)))],
              snap.(router := Some(r)), [], Completed)
  }

  // ---------------------------------------------------------------- metadata stage

  /** Every fetch the metadata loop makes for entry `m` succeeds. */
  predicate MetadataEntryOk(cfg: Config, remote: Client, m: Metadata)
  {
    && remote.metadataConfig(m.name).Ok?
    && (cfg.collectMetadataStatus ==> remote.metadataStatus(m.name).Ok?)
  }

  /** One pass of the metadata loop body. */
  function MetadataEntry(cfg: Config, remote: Client, host: string, m: Metadata): (e: Step)
    ensures e.failure.None? <==> MetadataEntryOk(cfg, remote, m)
    ensures e.writes != [] && e.writes[0] == Touch(Series(MetadataGauge, [m.name]))
  {
    var presence := [Touch(Series(MetadataGauge, [m.name]))];
    match remote.metadataConfig(m.name)
    case Err(e) => Step(presence, Some(e))
    case Ok(mc) =>
      var configured := presence + [Touch(ConfigSeries(m.name, mc))] + [Set(NodesSeries(m.name, host, mc), |mc.nodes|)];
      if !cfg.collectMetadataStatus then Step(configured, None)
      else
        match remote.metadataStatus(m.name)
        case Err(e) => Step(configured, Some(e))
        case Ok(st) => Step(configured + [Reset(MetadataStatusGauge)] + [Touch(StatusSeries(m.name, st))], None)
  }

  /** The metadata loop over `ms`, stopping at the first failing fetch. */
  function MetadataLoop(cfg: Config, remote: Client, host: string, ms: seq<Metadata>): (s: Step)
    ensures s.failure.None? <==> forall m :: m in ms ==> MetadataEntryOk(cfg, remote, m)
  {
    if ms == [] then Step([], None)
    else
      var e := MetadataEntry(cfg, remote, host, ms[0]);
      assert forall m :: m in ms <==> m == ms[0] || m in ms[1..];
      if e.failure.Some? then e
      else
        var rest := MetadataLoop(cfg, remote, host, ms[1..]);
        Step(e.writes + rest.writes, rest.failure)
  }

  /** collectMetadataMetrics: nothing without a router; otherwise list the metadata and loop over it. */
  function MetadataStage(cfg: Config, remote: Client, router: Option<Router>): (s: Step)
    ensures router.None? ==> s == Step([], None)
    ensures router.Some? && remote.allMetadata.Err? ==> s == Step([], Some(remote.allMetadata.message))
  {
    match router
    case None => Step([], None)
    case Some(r) =>
      match remote.allMetadata
      case Err(e) => Step([], Some(e))
      case Ok(ms) => MetadataLoop(cfg, remote, r.hostname, ms)
  }

  // ---------------------------------------------------------------- route stage

  /** The four route-level gauges set to zero for one route, in the order the degraded branch sets them. */
  function ZeroWrites(name: string, host: string): (w: seq<Op>)
    ensures |w| == 4
    ensures forall op :: op in w ==> op.Set? && op.value == 0 && op.series.labels == [name, host]
  {
    [Set(RouteSeries(RouteActiveConnectionsGauge, name, host), 0)] +
    [Set(RouteSeries(RouteTotalConnectionsGauge, name, host), 0)] +
    [Set(RouteSeries(RouteBlockedHostsGauge, name, host), 0)] +
    [Set(RouteSeries(RouteHealthGauge, name, host), 0)]
  }

  /**
   * The degraded branch over the last known routes. Each route's four gauges are zeroed with
   * the last router's hostname. Every gated connection write labels its series with the
   * current router's hostname, and the current router is nil here, so the first gated write
   * for a stored connection dereferences nil and ends the run.
   */
  function ZeroFill(enabled: set<ConnField>, lastRouter: Option<Router>, routes: seq<Route>,
                    conns: seq<RouteConnection>): (z: ZeroRun)
    requires routes != [] ==> lastRouter.Some?
    ensures z.exit == NilDereference <==> routes != [] && conns != [] && enabled != {}
  {
    if routes == [] then ZeroRun([], Completed)
    else
      var zeroed := ZeroWrites(routes[0].name, lastRouter.value.hostname);
      if conns != [] && enabled != {} then ZeroRun(zeroed, NilDereference)
      else
        var rest := ZeroFill(enabled, lastRouter, routes[1..], conns);
        ZeroRun(zeroed + rest.writes, rest.exit)
  }

  /** A Reset of family `f`'s gauge, made only when the family's flag is on. */
  function ResetIf(enabled: set<ConnField>, f: ConnField): seq<Op>
  {
    if f in enabled then [Reset(RouteConnectionsGauge(f))] else []
  }

  /** The flag-gated resets that precede the route loop, in source order. */
  function ResetWrites(enabled: set<ConnField>): (w: seq<Op>)
    ensures forall op :: op in w ==> op.Reset? && op.gauge.RouteConnectionsGauge? && op.gauge.field in enabled
    ensures forall f :: f in enabled ==> Reset(RouteConnectionsGauge(f)) in w
  {
    var w := ResetIf(enabled, ByteFromServer) + ResetIf(enabled, ByteToServer) + ResetIf(enabled, TimeStarted)
             + ResetIf(enabled, TimeConnectedToServer) + ResetIf(enabled, TimeLastSentToServer)
             + ResetIf(enabled, TimeReceivedFromServer);
    assert forall f :: f in enabled ==> || f == ByteFromServer || f == ByteToServer || f == TimeStarted
                                        || f == TimeConnectedToServer || f == TimeLastSentToServer
                                        || f == TimeReceivedFromServer;
    w
  }

  /** A Set of family `f`'s series, made only when the family's flag is on. */
  function SetIf(enabled: set<ConnField>, f: ConnField, labels: seq<string>, v: int): seq<Op>
  {
    if f in enabled then [Set(Series(RouteConnectionsGauge(f), labels), v)] else []
  }

  /** The gated sets for one connection, in source order. */
  function ConnectionWrites(enabled: set<ConnField>, name: string, host: string, c: RouteConnection): seq<Op>
  {
    var labels := ConnLabels(name, host, c);
    SetIf(enabled, ByteFromServer, labels, ConnValue(ByteFromServer, c)) +
    SetIf(enabled, ByteToServer, labels, ConnValue(ByteToServer, c)) +
    SetIf(enabled, TimeStarted, labels, ConnValue(TimeStarted, c)) +
    SetIf(enabled, TimeConnectedToServer, labels, ConnValue(TimeConnectedToServer, c)) +
    SetIf(enabled, TimeLastSentToServer, labels, ConnValue(TimeLastSentToServer, c)) +
    SetIf(enabled, TimeReceivedFromServer, labels, ConnValue(TimeReceivedFromServer, c))
  }

  function ConnectionsWrites(enabled: set<ConnField>, name: string, host: string, cs: seq<RouteConnection>): seq<Op>
  {
    if cs == [] then [] else ConnectionWrites(enabled, name, host, cs[0]) + ConnectionsWrites(enabled, name, host, cs[1..])
  }

  function DestinationWrites(name: string, ds: seq<RouteDestination>): seq<Op>
  {
    if ds == [] then [] else [Touch(DestinationSeries(name, ds[0]))] + DestinationWrites(name, ds[1..])
  }

  /** Every fetch the route loop makes for route `r` succeeds. */
  predicate RouteOk(remote: Client, r: Route)
  {
    && remote.routeStatus(r.name).Ok?
    && remote.routeHealth(r.name).Ok?
    && remote.routeDestinations(r.name).Ok?
    && remote.routeConnections(r.name).Ok?
  }

  function HealthValue(h: RouteHealth): int
  {
    if h.isAlive then 1 else 0
  }

  /** The second half of the route loop body: the route's destinations, then its connections. */
  function RouteListing(cfg: Config, remote: Client, host: string, n: string): (l: Step)
    ensures l.failure.None? <==> remote.routeDestinations(n).Ok? && remote.routeConnections(n).Ok?
  {
    match remote.routeDestinations(n)
    case Err(e) => Step([], Some(e))
    case Ok(ds) =>
      var listed := DestinationWrites(n, ds);
      match remote.routeConnections(n)
      case Err(e) => Step(listed, Some(e))
      case Ok(cs) => Step(listed + ConnectionsWrites(cfg.connections, n, host, cs), None)
  }

  /** One pass of the route loop body. */
  function RouteEntry(cfg: Config, remote: Client, host: string, r: Route): (e: Step)
    ensures e.failure.None? <==> RouteOk(remote, r)
    ensures e.writes != [] && e.writes[0] == Touch(Series(RouteGauge, [r.name]))
  {
    var n := r.name;
    var presence := [Touch(Series(RouteGauge, [n]))];
    match remote.routeStatus(n)
    case Err(e) => Step(presence, Some(e))
    case Ok(st) =>
      var counted := presence
        + [Set(RouteSeries(RouteActiveConnectionsGauge, n, host), st.activeConnections)]
        + [Set(RouteSeries(RouteTotalConnectionsGauge, n, host), st.totalConnections)]
        + [Set(RouteSeries(RouteBlockedHostsGauge, n, host), st.blockedHosts)];
      match remote.routeHealth(n)
      case Err(e) => Step(counted, Some(e))
      case Ok(h) =>
        var checked := counted + [Set(RouteSeries(RouteHealthGauge, n, host), HealthValue(h))];
        var listing := RouteListing(cfg, remote, host, n);
        Step(checked + listing.writes, listing.failure)
  }

  /** The route loop; `conns` is the stored route-connection list, replaced after every route that succeeds. */
  function RouteLoop(cfg: Config, remote: Client, host: string, routes: seq<Route>,
                     conns: seq<RouteConnection>): (run: RouteRun)
    ensures run.failure.None? <==> forall r :: r in routes ==> RouteOk(remote, r)
  {
    if routes == [] then RouteRun([], conns, None)
    else
      var e := RouteEntry(cfg, remote, host, routes[0]);
      assert forall r :: r in routes <==> r == routes[0] || r in routes[1..];
      if e.failure.Some? then RouteRun(e.writes, conns, e.failure)
      else
        var rest := RouteLoop(cfg, remote, host, routes[1..], remote.routeConnections(routes[0].name).value);
        RouteRun(e.writes + rest.writes, rest.connections, rest.failure)
  }

  /** collectRouteMetrics: the degraded branch without a router, the normal branch with one. */
  function RouteStage(cfg: Config, remote: Client, router: Option<Router>, snap: Snapshot): (o: Outcome)
    requires SnapshotInvariant(snap)
    ensures o.snapshot.router == snap.router
    ensures router.None? ==> o.snapshot == snap && o.errors == []
    ensures o.exit == NilDereference ==> router.None?
  {
    match router
    case None =>
      var z := ZeroFill(cfg.connections, snap.router, snap.routes, snap.connections);
      Outcome(z.writes, snap, [], z.exit)
    case Some(r) =>
      match remote.allRoutes
      case Err(e) => Outcome([], snap, [e], Completed)
      case Ok(routes) =>
        var run := RouteLoop(cfg, remote, r.hostname, routes, snap.connections);
        Outcome(ResetWrites(cfg.connections) + run.writes,
                Snapshot(snap.router, if run.failure.None? then routes else snap.routes, run.connections),
                ErrorsOf(run.failure), Completed)
  }

  // ---------------------------------------------------------------- the cycle

  /** The router the later stages see: the fetched one, or nil when the fetch failed. */
  function Current(remote: Client): Option<Router>
  {
    if remote.routerStatus.Ok? then Some(remote.routerStatus.value) else None
  }

  /** collectMetrics: the router stage, its error reported, then the metadata and route stages. */
  function RunCycle(cfg: Config, remote: Client, snap: Snapshot): (o: Outcome)
    requires SnapshotInvariant(snap)
    ensures SnapshotInvariant(o.snapshot)
  {
    var up := RouterStage(cfg, remote, snap);
    var router := Current(remote);
    var reported := if remote.routerStatus.Err? then [remote.routerStatus.message] else [];
    var md := MetadataStage(cfg, remote, router);
    var rt := RouteStage(cfg, remote, router, up.snapshot);
    Outcome(up.writes + md.writes + rt.writes, rt.snapshot, reported + ErrorsOf(md.failure) + rt.errors, rt.exit)
  }
}
