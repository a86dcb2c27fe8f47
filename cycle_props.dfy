/**
 * What a whole collection cycle (collectMetrics) guarantees: the up gauge, flag gating,
 * that repeating a cycle against unchanged answers changes nothing, and a healthy cycle
 * followed by a cycle with the router down.
 */
module CycleProperties {
  import opened Wrappers
  import opened Registry
  import opened Remote
  import opened Cycle
  import opened MetadataProperties
  import opened RouteProperties
  import opened RouterProperties
  import opened Seqs

  /** The route stage sees a snapshot that satisfies the invariant. */
  lemma RouterStageKeepsInvariant(cfg: Config, remote: Client, snap: Snapshot)
    requires SnapshotInvariant(snap)
    ensures SnapshotInvariant(RouterStage(cfg, remote, snap).snapshot)
  {
  }

  /**
   * A cycle's calls by stage: the router stage writes the router gauges, the metadata stage
   * the metadata gauges, and the route stage the route gauges and the enabled connection families.
   */
  lemma CycleWrites(cfg: Config, remote: Client, snap: Snapshot)
    requires SnapshotInvariant(snap)
    ensures var up := RouterStage(cfg, remote, snap);
            var md := MetadataStage(cfg, remote, Current(remote));
            var rt := RouteStage(cfg, remote, Current(remote), up.snapshot);
      && RunCycle(cfg, remote, snap).writes == up.writes + md.writes + rt.writes
      && (forall op :: op in up.writes ==> GaugeOf(op) == RouterUpGauge || GaugeOf(op) == RouterStatusGauge)
      && (forall op :: op in md.writes ==> GaugeOf(op) in MetadataGauges())
      && (forall op :: op in rt.writes ==> RouteStageGauge(cfg, GaugeOf(op)))
  {
    RouterStageWrites(cfg, remote, snap);
    MetadataStageWrites(cfg, remote, Current(remote));
    RouteStageWrites(cfg, remote, Current(remote), RouterStage(cfg, remote, snap).snapshot);
  }

  /** The metadata and route stages never write the router gauges. */
  lemma LaterStagesSpareRouterGauges(cfg: Config, remote: Client, snap: Snapshot)
    requires SnapshotInvariant(snap)
    ensures forall op :: op in MetadataStage(cfg, remote, Current(remote)).writes
                                + RouteStage(cfg, remote, Current(remote), RouterStage(cfg, remote, snap).snapshot).writes
                         ==> GaugeOf(op) != RouterUpGauge && GaugeOf(op) != RouterStatusGauge
  {
    var md := MetadataStage(cfg, remote, Current(remote)).writes;
    var rt := RouteStage(cfg, remote, Current(remote), RouterStage(cfg, remote, snap).snapshot).writes;
    MetadataStageWrites(cfg, remote, Current(remote));
    RouteStageWrites(cfg, remote, Current(remote), RouterStage(cfg, remote, snap).snapshot);
    forall op | op in md + rt
      ensures GaugeOf(op) != RouterUpGauge && GaugeOf(op) != RouterStatusGauge
    {
      if op in rt {
        assert RouteStageGauge(cfg, GaugeOf(op));
      } else {
        assert GaugeOf(op) in MetadataGauges();
      }
    }
  }

  /** After a cycle the up gauge reads 1 when the router answered and 0 when it did not. */
  lemma CycleUp(cfg: Config, remote: Client, snap: Snapshot, g: Gauges)
    requires SnapshotInvariant(snap)
    ensures Lookup(Apply(g, RunCycle(cfg, remote, snap).writes), UpSeries)
            == Some(if remote.routerStatus.Ok? then 1 else 0)
  {
    var up := RouterStage(cfg, remote, snap).writes;
    var later := MetadataStage(cfg, remote, Current(remote)).writes
                 + RouteStage(cfg, remote, Current(remote), RouterStage(cfg, remote, snap).snapshot).writes;
    LaterStagesSpareRouterGauges(cfg, remote, snap);
    UpReflectsFetch(cfg, remote, snap, g);
    ConcatAssoc(up, MetadataStage(cfg, remote, Current(remote)).writes,
                RouteStage(cfg, remote, Current(remote), RouterStage(cfg, remote, snap).snapshot).writes);
    var x := Lookup(g, UpSeries);
    ApplyAtAppend(up, later, UpSeries, x);
    ApplyAtOtherGauges(later, UpSeries, ApplyAt(up, UpSeries, x));
  }

  /** No stage of a cycle resets or sets a connection family whose flag is off. */
  lemma FlagGating(cfg: Config, remote: Client, snap: Snapshot, f: ConnField)
    requires SnapshotInvariant(snap) && f !in cfg.connections
    ensures forall op :: op in RunCycle(cfg, remote, snap).writes ==> GaugeOf(op) != RouteConnectionsGauge(f)
  {
    var up := RouterStage(cfg, remote, snap).writes;
    var md := MetadataStage(cfg, remote, Current(remote)).writes;
    var rt := RouteStage(cfg, remote, Current(remote), RouterStage(cfg, remote, snap).snapshot).writes;
    RouterStageWrites(cfg, remote, snap);
    MetadataStageWrites(cfg, remote, Current(remote));
    RouteStageWrites(cfg, remote, Current(remote), RouterStage(cfg, remote, snap).snapshot);
    assert RunCycle(cfg, remote, snap).writes == up + md + rt;
    forall op | op in up + md + rt
      ensures GaugeOf(op) != RouteConnectionsGauge(f)
    {
      if op in rt {
        assert RouteStageGauge(cfg, GaugeOf(op));
      } else if op in md {
        assert GaugeOf(op) in MetadataGauges();
      }
    }
  }

  /** The series of a connection family whose flag is off keep whatever they held across a cycle. */
  lemma DisabledFamilyUnchanged(cfg: Config, remote: Client, snap: Snapshot, g: Gauges, f: ConnField, k: Series)
    requires SnapshotInvariant(snap)
    requires f !in cfg.connections && k.gauge == RouteConnectionsGauge(f)
    ensures Lookup(Apply(g, RunCycle(cfg, remote, snap).writes), k) == Lookup(g, k)
  {
    FlagGating(cfg, remote, snap, f);
    ApplyAtOtherGauges(RunCycle(cfg, remote, snap).writes, k, Lookup(g, k));
  }

  /** The route loop's calls and failure do not depend on the stored connection list it starts from. */
  lemma RouteLoopIgnoresStored(cfg: Config, remote: Client, host: string, routes: seq<Route>,
                               c1: seq<RouteConnection>, c2: seq<RouteConnection>)
    ensures RouteLoop(cfg, remote, host, routes, c1).writes == RouteLoop(cfg, remote, host, routes, c2).writes
    ensures RouteLoop(cfg, remote, host, routes, c1).failure == RouteLoop(cfg, remote, host, routes, c2).failure
  {
  }

  /**
   * A second cycle against the same answers repeats the first exactly: the same calls,
   * errors and exit, and it keeps the snapshot the first one left.
   */
  lemma SecondCycleRepeats(cfg: Config, remote: Client, snap: Snapshot)
    requires SnapshotInvariant(snap)
    ensures RunCycle(cfg, remote, RunCycle(cfg, remote, snap).snapshot) == RunCycle(cfg, remote, snap)
  {
    var o1 := RunCycle(cfg, remote, snap);
    var up1 := RouterStage(cfg, remote, snap);
    var up2 := RouterStage(cfg, remote, o1.snapshot);
    var router := Current(remote);
    if router.Some? && remote.allRoutes.Ok? {
      var host := router.value.hostname;
      var routes := remote.allRoutes.value;
      RouteLoopIgnoresStored(cfg, remote, host, routes, up1.snapshot.connections, up2.snapshot.connections);
      RouteLoopOutcome(cfg, remote, host, routes, up1.snapshot.connections);
      RouteLoopOutcome(cfg, remote, host, routes, up2.snapshot.connections);
    }
  }

  /** Two collection cycles against unchanged answers leave the registry as one cycle does. */
  lemma CycleIdempotent(cfg: Config, remote: Client, snap: Snapshot, g: Gauges)
    requires SnapshotInvariant(snap)
    ensures var o1 := RunCycle(cfg, remote, snap);
            var once := Apply(g, o1.writes);
      Apply(once, RunCycle(cfg, remote, o1.snapshot).writes) == once
  {
    SecondCycleRepeats(cfg, remote, snap);
    ApplyIdempotent(g, RunCycle(cfg, remote, snap).writes);
  }

  // ---------------------------------------------------------------- a healthy cycle, then the router down

  /** The router answers as `r` and lists one route r1 (3 active, 10 total, 0 blocked, alive) with the one connection `c`. */
  predicate HealthyScenario(cfg: Config, remote: Client, r: Router, c: RouteConnection)
  {
    && remote.routerStatus == Ok(r)
    && remote.allRoutes == Ok([Route("r1")])
    && remote.routeStatus("r1") == Ok(RouteStatus(3, 10, 0))
    && remote.routeHealth("r1") == Ok(RouteHealth(true))
    && remote.routeDestinations("r1").Ok?
    && remote.routeConnections("r1") == Ok([c])
    && c.sourceAddress == "10.0.0.1:1" && c.destinationAddress == "10.0.0.2:2" && c.bytesFromServer == 100
    && ByteFromServer in cfg.connections
  }

  /** The bytes-from-server series of the scenario's connection. */
  function ScenarioByteSeries(r: Router): Series
  {
    Series(RouteConnectionsGauge(ByteFromServer), ["r1", r.hostname, "10.0.0.1:1", "10.0.0.2:2"])
  }

  /** The healthy cycle ends normally, stores r1 and its connection, and ends with the normal route branch's calls. */
  lemma HealthyCycleShape(cfg: Config, remote: Client, snap: Snapshot, r: Router, c: RouteConnection)
    requires SnapshotInvariant(snap) && HealthyScenario(cfg, remote, r, c)
    ensures var o := RunCycle(cfg, remote, snap);
      && o.exit == Completed
      && o.snapshot == Snapshot(Some(r), [Route("r1")], [c])
      && o.writes == RouterStage(cfg, remote, snap).writes + MetadataStage(cfg, remote, Some(r)).writes
                     + NormalWrites(cfg, remote, r.hostname, [Route("r1")], snap.connections)
  {
    var routes := [Route("r1")];
    var up := RouterStage(cfg, remote, snap);
    NormalWritesAre(cfg, remote, r, up.snapshot, routes);
    assert OkPrefix(remote, routes) == 1;
    NormalBranchSnapshot(cfg, remote, r, up.snapshot, routes);
  }

  /** The normal branch of the healthy cycle exports r1's counts and health 1. */
  lemma HealthyRouteValues(cfg: Config, remote: Client, g: Gauges, r: Router, c: RouteConnection,
                           conns: seq<RouteConnection>)
    requires HealthyScenario(cfg, remote, r, c)
    ensures var after := Apply(g, NormalWrites(cfg, remote, r.hostname, [Route("r1")], conns));
      && Lookup(after, RouteSeries(RouteActiveConnectionsGauge, "r1", r.hostname)) == Some(3)
      && Lookup(after, RouteSeries(RouteTotalConnectionsGauge, "r1", r.hostname)) == Some(10)
      && Lookup(after, RouteSeries(RouteBlockedHostsGauge, "r1", r.hostname)) == Some(0)
      && Lookup(after, RouteSeries(RouteHealthGauge, "r1", r.hostname)) == Some(1)
  {
    var routes := [Route("r1")];
    assert OkPrefix(remote, routes) == 1;
    RouteCountsExported(cfg, remote, r.hostname, routes, conns, g, 0, RouteStatus(3, 10, 0));
    RouteHealthExported(cfg, remote, r.hostname, routes, conns, g, 0, RouteHealth(true));
  }

  /** The normal branch of the healthy cycle exports the connection's byte count. */
  lemma HealthyByteCount(cfg: Config, remote: Client, g: Gauges, r: Router, c: RouteConnection,
                         conns: seq<RouteConnection>)
    requires HealthyScenario(cfg, remote, r, c)
    ensures Lookup(Apply(g, NormalWrites(cfg, remote, r.hostname, [Route("r1")], conns)), ScenarioByteSeries(r)) == Some(100)
  {
    var routes := [Route("r1")];
    assert OkPrefix(remote, routes) == 1;
    var k := ScenarioByteSeries(r);
    assert k.labels == ConnLabels("r1", r.hostname, c);
    ConnectionExported(cfg, remote, r.hostname, routes, conns, g, 0, [c], c, ByteFromServer);
    ConnectionSeriesFromThisCycle(cfg, remote, r.hostname, routes, conns, g, k, ByteFromServer);
    var v := Apply(g, NormalWrites(cfg, remote, r.hostname, routes, conns))[k];
    assert SetFromRoute(cfg, remote, r.hostname, k, v);
    var c' :| c' in [c] && k.labels == ConnLabels("r1", r.hostname, c') && v == ConnValue(ByteFromServer, c');
    assert c' == c;
  }

  /** A healthy cycle exports r1's counts, health 1 and its connection's byte count, and stores the route and connection. */
  lemma HealthyCycle(cfg: Config, remote: Client, snap: Snapshot, g: Gauges, r: Router, c: RouteConnection)
    requires SnapshotInvariant(snap) && HealthyScenario(cfg, remote, r, c)
    ensures var o := RunCycle(cfg, remote, snap);
            var after := Apply(g, o.writes);
      && o.exit == Completed
      && o.snapshot == Snapshot(Some(r), [Route("r1")], [c])
      && Lookup(after, UpSeries) == Some(1)
      && Lookup(after, RouteSeries(RouteActiveConnectionsGauge, "r1", r.hostname)) == Some(3)
      && Lookup(after, RouteSeries(RouteTotalConnectionsGauge, "r1", r.hostname)) == Some(10)
      && Lookup(after, RouteSeries(RouteBlockedHostsGauge, "r1", r.hostname)) == Some(0)
      && Lookup(after, RouteSeries(RouteHealthGauge, "r1", r.hostname)) == Some(1)
      && Lookup(after, ScenarioByteSeries(r)) == Some(100)
  {
    HealthyCycleShape(cfg, remote, snap, r, c);
    var prefix := RouterStage(cfg, remote, snap).writes + MetadataStage(cfg, remote, Some(r)).writes;
    var normal := NormalWrites(cfg, remote, r.hostname, [Route("r1")], snap.connections);
    ApplyAppend(g, prefix, normal);
    HealthyRouteValues(cfg, remote, Apply(g, prefix), r, c, snap.connections);
    HealthyByteCount(cfg, remote, Apply(g, prefix), r, c, snap.connections);
    CycleUp(cfg, remote, snap, g);
  }

  /** With the router down and r1 stored with one connection, the cycle sets up to 0, zeroes r1 and dereferences nil. */
  lemma RouterDownShape(cfg: Config, remote: Client, s1: Snapshot, r: Router, c: RouteConnection)
    requires s1 == Snapshot(Some(r), [Route("r1")], [c])
    requires remote.routerStatus.Err? && cfg.connections != {}
    ensures var o := RunCycle(cfg, remote, s1);
      && o.exit == NilDereference
      && o.snapshot == s1
      && o.writes == [Set(UpSeries, 0)] + ZeroWrites("r1", r.hostname)
  {
  }

  /** The calls of the router-down cycle set up to 0, zero r1's route gauges and leave the connection gauges alone. */
  lemma RouterDownValues(g: Gauges, host: string, k: Series)
    ensures var after := Apply(g, [Set(UpSeries, 0)] + ZeroWrites("r1", host));
      && Lookup(after, UpSeries) == Some(0)
      && (k.gauge in RouteLevelGauges() && k == RouteSeries(k.gauge, "r1", host) ==> Lookup(after, k) == Some(0))
      && (k.gauge.RouteConnectionsGauge? ==> Lookup(after, k) == Lookup(g, k))
  {
    var w := [Set(UpSeries, 0)] + ZeroWrites("r1", host);
    ApplyAtSetOnly(w, UpSeries, 0, Lookup(g, UpSeries));
    if k.gauge in RouteLevelGauges() && k == RouteSeries(k.gauge, "r1", host) {
      ApplyAtSetOnly(w, k, 0, Lookup(g, k));
    } else if k.gauge.RouteConnectionsGauge? {
      ApplyAtOtherGauges(w, k, Lookup(g, k));
    }
  }

  /**
   * The cycle after a healthy one, with the router down: up reads 0 and r1's four route
   * gauges are zeroed, but the stored connection makes the degraded branch dereference the
   * nil router, so the stage ends there and the byte series still reads 100.
   */
  lemma RouterDownAfterHealthyCycle(cfg: Config, remote1: Client, remote2: Client, snap: Snapshot, g: Gauges,
                                    r: Router, c: RouteConnection)
    requires SnapshotInvariant(snap) && HealthyScenario(cfg, remote1, r, c)
    requires remote2.routerStatus.Err?
    ensures var o1 := RunCycle(cfg, remote1, snap);
            var first := Apply(g, o1.writes);
            var o2 := RunCycle(cfg, remote2, o1.snapshot);
            var second := Apply(first, o2.writes);
      && o2.exit == NilDereference
      && o2.snapshot == o1.snapshot
      && Lookup(second, UpSeries) == Some(0)
      && Lookup(second, RouteSeries(RouteActiveConnectionsGauge, "r1", r.hostname)) == Some(0)
      && Lookup(second, RouteSeries(RouteTotalConnectionsGauge, "r1", r.hostname)) == Some(0)
      && Lookup(second, RouteSeries(RouteBlockedHostsGauge, "r1", r.hostname)) == Some(0)
      && Lookup(second, RouteSeries(RouteHealthGauge, "r1", r.hostname)) == Some(0)
      && Lookup(second, ScenarioByteSeries(r)) == Some(100)
  {
    var o1 := RunCycle(cfg, remote1, snap);
    HealthyCycle(cfg, remote1, snap, g, r, c);
    RouterDownShape(cfg, remote2, o1.snapshot, r, c);
    var first := Apply(g, o1.writes);
    RouterDownValues(first, r.hostname, ScenarioByteSeries(r));
    RouterDownValues(first, r.hostname, RouteSeries(RouteActiveConnectionsGauge, "r1", r.hostname));
    RouterDownValues(first, r.hostname, RouteSeries(RouteTotalConnectionsGauge, "r1", r.hostname));
    RouterDownValues(first, r.hostname, RouteSeries(RouteBlockedHostsGauge, "r1", r.hostname));
    RouterDownValues(first, r.hostname, RouteSeries(RouteHealthGauge, "r1", r.hostname));
  }
}
