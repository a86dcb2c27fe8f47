/**
 * The collection engine as the exporter runs it: one object holding the gauge registry,
 * the snapshot kept across cycles and the error output, and one method per stage that
 * updates them in place, loop by loop, returning early on the first failed fetch.
 * Each method is proved to make exactly the registry calls, snapshot updates and error
 * reports that the corresponding function of module Cycle describes.
 */
module Engine {
  import opened Wrappers
  import opened Registry
  import opened Remote
  import opened Cycle
  import opened Seqs

  class Collector {
    const config: Config
    /** The gauge registry. */
    var gauges: Gauges
    /** Every registry call made so far, oldest first. */
    ghost var history: seq<Op>
    var lastRouter: Option<Router>
    var lastRoutes: seq<Route>
    var lastRouteConnections: seq<RouteConnection>
    /** The error lines written so far, oldest first. */
    var errors: seq<string>

    ghost predicate Valid()
      reads this
    {
      && gauges == Apply(map[], history)
      && SnapshotInvariant(Last())
    }

    function Last(): Snapshot
      reads this
    {
      Snapshot(lastRouter, lastRoutes, lastRouteConnections)
    }

    constructor (config: Config)
      ensures Valid() && this.config == config
      ensures gauges == map[] && history == [] && errors == []
      ensures Last() == Snapshot(None, [], [])
    {
      this.config := config;
      gauges := map[];
      history := [];
      lastRouter := None;
      lastRoutes := [];
      lastRouteConnections := [];
      errors := [];
    }

    /**
     * One call into the registry. `base` is the history when the calling stage began and
     * `done` what that stage has written since, so the new history is `base + (done + [op])`.
     */
    method Write(op: Op, ghost base: seq<Op>, ghost done: seq<Op>)
      requires Valid() && history == base + done
      modifies this`gauges, this`history
      ensures Valid() && history == base + (done + [op])
    {
      ConcatAssoc(base, done, [op]);
      ApplyAppend(map[], history, [op]);
      gauges := Exec(gauges, op);
      history := history + [op];
    }

    /** writeError: one line on the error output. */
    method WriteError(message: string)
      modifies this`errors
      ensures errors == old(errors) + [message]
    {
      errors := errors + [message];
    }

    /** collectRouterMetrics */
    method CollectRouterMetrics(remote: Client) returns (router: Fetch<Router>)
      requires Valid()
      modifies this`gauges, this`history, this`lastRouter
      ensures Valid()
      ensures var o := RouterStage(config, remote, old(Last()));
        history == old(history) + o.writes && Last() == o.snapshot
      ensures router == remote.routerStatus
    {
      ghost var h := history;
      router := remote.routerStatus;
      if router.Err? {
        Write(Set(UpSeries, 0), h, []);
        return;
      }
      var r := router.value;
      Write(Set(UpSeries, 1), h, []);
      Write(Touch(Series(RouterStatusGauge, RouterLabels(r, config))), h, [Set(UpSeries, 1)]);
      lastRouter := Some(r);
    }

    /** The body of the metadata loop for entry `m`, reporting the fetch that failed, if any. */
    method CollectMetadataEntry(remote: Client, host: string, m: Metadata) returns (failure: Option<string>)
      requires Valid()
      modifies this`gauges, this`history, this`errors
      ensures Valid()
      ensures var e := MetadataEntry(config, remote, host, m);
        history == old(history) + e.writes && failure == e.failure
      ensures errors == old(errors) + ErrorsOf(failure)
    {
      ghost var h := history;
      failure := None;
      var presence := Touch(Series(MetadataGauge, [m.name]));
      Write(presence, h, []);
      var fetchedConfig := remote.metadataConfig(m.name);
      if fetchedConfig.Err? {
        WriteError(fetchedConfig.message);
        failure := Some(fetchedConfig.message);
        return;
      }
      var mc := fetchedConfig.value;
      Write(Touch(ConfigSeries(m.name, mc)), h, [presence]);
      ghost var configured := [presence] + [Touch(ConfigSeries(m.name, mc))];
      Write(Set(NodesSeries(m.name, host, mc), |mc.nodes|), h, configured);
      configured := configured + [Set(NodesSeries(m.name, host, mc), |mc.nodes|)];
      if config.collectMetadataStatus {
        var fetchedStatus := remote.metadataStatus(m.name);
        if fetchedStatus.Err? {
          WriteError(fetchedStatus.message);
          failure := Some(fetchedStatus.message);
          return;
        }
        Write(Reset(MetadataStatusGauge), h, configured);
        Write(Touch(StatusSeries(m.name, fetchedStatus.value)), h, configured + [Reset(MetadataStatusGauge)]);
      }
    }

    /** collectMetadataMetrics */
    method CollectMetadataMetrics(remote: Client, router: Option<Router>)
      requires Valid()
      modifies this`gauges, this`history, this`errors
      ensures Valid()
      ensures var s := MetadataStage(config, remote, router);
        history == old(history) + s.writes && errors == old(errors) + ErrorsOf(s.failure)
    {
      if router.None? {
        return;
      }
      var host := router.value.hostname;
      var all := remote.allMetadata;
      if all.Err? {
        WriteError(all.message);
        return;
      }
      var ms := all.value;
      ghost var total := MetadataLoop(config, remote, host, ms);
      var i := 0;
      while i < |ms|
        invariant 0 <= i <= |ms|
        invariant Valid() && errors == old(errors)
        invariant old(history) + total.writes == history + MetadataLoop(config, remote, host, ms[i..]).writes
        invariant MetadataLoop(config, remote, host, ms[i..]).failure == total.failure
      {
        assert ms[i..][0] == ms[i] && ms[i..][1..] == ms[i + 1..];
        ghost var before := history;
        var failure := CollectMetadataEntry(remote, host, ms[i]);
        if failure.Some? {
          return;
        }
        ConcatAssoc(before, MetadataEntry(config, remote, host, ms[i]).writes,
                    MetadataLoop(config, remote, host, ms[i + 1..]).writes);
        i := i + 1;
      }
    }

    /**
     * The degraded branch for one stored route: its four gauges set to zero under the last
     * router's hostname, then the stored connections, whose first enabled family dereferences
     * the nil current router.
     */
    method ZeroRoute(route: Route) returns (exit: Exit)
      requires Valid() && lastRouter.Some?
      modifies this`gauges, this`history
      ensures Valid()
      ensures history == old(history) + ZeroWrites(route.name, lastRouter.value.hostname)
      ensures exit == NilDereference <==> lastRouteConnections != [] && config.connections != {}
    {
      ghost var h := history;
      exit := Completed;
      var host := lastRouter.value.hostname;
      var active := Set(RouteSeries(RouteActiveConnectionsGauge, route.name, host), 0);
      var total := Set(RouteSeries(RouteTotalConnectionsGauge, route.name, host), 0);
      var blocked := Set(RouteSeries(RouteBlockedHostsGauge, route.name, host), 0);
      Write(active, h, []);
      Write(total, h, [active]);
      Write(blocked, h, [active] + [total]);
      Write(Set(RouteSeries(RouteHealthGauge, route.name, host), 0), h, [active] + [total] + [blocked]);
      var j := 0;
      while j < |lastRouteConnections|
        invariant 0 <= j <= |lastRouteConnections|
        invariant j > 0 ==> config.connections == {}
      {
        if config.connections != {} {
          exit := NilDereference;
          return;
        }
        j := j + 1;
      }
    }

    /** The degraded branch: zero every stored route, stopping at the nil dereference. */
    method ZeroLastRoutes() returns (exit: Exit)
      requires Valid()
      modifies this`gauges, this`history
      ensures Valid()
      ensures var z := ZeroFill(config.connections, lastRouter, lastRoutes, lastRouteConnections);
        history == old(history) + z.writes && exit == z.exit
    {
      exit := Completed;
      ghost var total := ZeroFill(config.connections, lastRouter, lastRoutes, lastRouteConnections);
      var i := 0;
      while i < |lastRoutes|
        invariant 0 <= i <= |lastRoutes|
        invariant Valid() && exit == Completed
        invariant old(history) + total.writes
                  == history + ZeroFill(config.connections, lastRouter, lastRoutes[i..], lastRouteConnections).writes
        invariant ZeroFill(config.connections, lastRouter, lastRoutes[i..], lastRouteConnections).exit == total.exit
      {
        assert lastRoutes[i..][0] == lastRoutes[i] && lastRoutes[i..][1..] == lastRoutes[i + 1..];
        ghost var before := history;
        exit := ZeroRoute(lastRoutes[i]);
        if exit == NilDereference {
          return;
        }
        ConcatAssoc(before, ZeroWrites(lastRoutes[i].name, lastRouter.value.hostname),
                    ZeroFill(config.connections, lastRouter, lastRoutes[i + 1..], lastRouteConnections).writes);
        i := i + 1;
      }
    }

    /** Reset one connection gauge family when its flag is on. */
    method ResetFamily(f: ConnField, ghost base: seq<Op>, ghost done: seq<Op>)
      requires Valid() && history == base + done
      modifies this`gauges, this`history
      ensures Valid() && history == base + (done + ResetIf(config.connections, f))
    {
      if f in config.connections {
        Write(Reset(RouteConnectionsGauge(f)), base, done);
      }
    }

    /** The flag-gated resets of the connection gauges that precede the route loop. */
    method ResetConnectionGauges()
      requires Valid()
      modifies this`gauges, this`history
      ensures Valid() && history == old(history) + ResetWrites(config.connections)
    {
      ghost var h := history;
      ghost var e := config.connections;
      ResetFamily(ByteFromServer, h, []);
      ResetFamily(ByteToServer, h, ResetIf(e, ByteFromServer));
      ResetFamily(TimeStarted, h, ResetIf(e, ByteFromServer) + ResetIf(e, ByteToServer));
      ResetFamily(TimeConnectedToServer, h,
                  ResetIf(e, ByteFromServer) + ResetIf(e, ByteToServer) + ResetIf(e, TimeStarted));
      ResetFamily(TimeLastSentToServer, h,
                  ResetIf(e, ByteFromServer) + ResetIf(e, ByteToServer) + ResetIf(e, TimeStarted)
                  + ResetIf(e, TimeConnectedToServer));
      ResetFamily(TimeReceivedFromServer, h,
                  ResetIf(e, ByteFromServer) + ResetIf(e, ByteToServer) + ResetIf(e, TimeStarted)
                  + ResetIf(e, TimeConnectedToServer) + ResetIf(e, TimeLastSentToServer));
    }

    /** One destination series per destination of route `name`. */
    method RecordDestinations(name: string, ds: seq<RouteDestination>)
      requires Valid()
      modifies this`gauges, this`history
      ensures Valid() && history == old(history) + DestinationWrites(name, ds)
    {
      var j := 0;
      while j < |ds|
        invariant 0 <= j <= |ds|
        invariant Valid()
        invariant old(history) + DestinationWrites(name, ds) == history + DestinationWrites(name, ds[j..])
      {
        assert ds[j..][0] == ds[j] && ds[j..][1..] == ds[j + 1..];
        Write(Touch(DestinationSeries(name, ds[j])), history, []);
        ConcatAssoc(old(history), [Touch(DestinationSeries(name, ds[j]))], DestinationWrites(name, ds[j + 1..]));
        j := j + 1;
      }
    }

    /** Set one connection gauge family's series to `v` when its flag is on. */
    method SetFamily(f: ConnField, labels: seq<string>, v: int, ghost base: seq<Op>, ghost done: seq<Op>)
      requires Valid() && history == base + done
      modifies this`gauges, this`history
      ensures Valid() && history == base + (done + SetIf(config.connections, f, labels, v))
    {
      if f in config.connections {
        Write(Set(Series(RouteConnectionsGauge(f), labels), v), base, done);
      }
    }

    /** The enabled connection gauges for one connection of route `name` on `host`. */
    method RecordConnection(name: string, host: string, c: RouteConnection)
      requires Valid()
      modifies this`gauges, this`history
      ensures Valid() && history == old(history) + ConnectionWrites(config.connections, name, host, c)
    {
      ghost var h := history;
      ghost var e := config.connections;
      var labels := ConnLabels(name, host, c);
      SetFamily(ByteFromServer, labels, c.bytesFromServer, h, []);
      ghost var done := SetIf(e, ByteFromServer, labels, ConnValue(ByteFromServer, c));
      SetFamily(ByteToServer, labels, c.bytesToServer, h, done);
      done := done + SetIf(e, ByteToServer, labels, ConnValue(ByteToServer, c));
      SetFamily(TimeStarted, labels, c.timeStarted * 1000, h, done);
      done := done + SetIf(e, TimeStarted, labels, ConnValue(TimeStarted, c));
      SetFamily(TimeConnectedToServer, labels, c.timeConnectedToServer * 1000, h, done);
      done := done + SetIf(e, TimeConnectedToServer, labels, ConnValue(TimeConnectedToServer, c));
      SetFamily(TimeLastSentToServer, labels, c.timeLastSentToServer * 1000, h, done);
      done := done + SetIf(e, TimeLastSentToServer, labels, ConnValue(TimeLastSentToServer, c));
      SetFamily(TimeReceivedFromServer, labels, c.timeLastReceivedFromServer * 1000, h, done);
    }

    /** The connection loop of route `name`. */
    method RecordConnections(name: string, host: string, cs: seq<RouteConnection>)
      requires Valid()
      modifies this`gauges, this`history
      ensures Valid() && history == old(history) + ConnectionsWrites(config.connections, name, host, cs)
    {
      var k := 0;
      while k < |cs|
        invariant 0 <= k <= |cs|
        invariant Valid()
        invariant old(history) + ConnectionsWrites(config.connections, name, host, cs)
                  == history + ConnectionsWrites(config.connections, name, host, cs[k..])
      {
        assert cs[k..][0] == cs[k] && cs[k..][1..] == cs[k + 1..];
        ghost var before := history;
        RecordConnection(name, host, cs[k]);
        ConcatAssoc(before, ConnectionWrites(config.connections, name, host, cs[k]),
                    ConnectionsWrites(config.connections, name, host, cs[k + 1..]));
        k := k + 1;
      }
    }

    /**
     * The second half of the route loop body for route `n`: destinations, then connections,
     * after which the route's connection list is stored.
     */
    method CollectRouteListing(remote: Client, host: string, n: string) returns (failure: Option<string>)
      requires Valid()
      modifies this`gauges, this`history, this`errors, this`lastRouteConnections
      ensures Valid()
      ensures var l := RouteListing(config, remote, host, n);
        history == old(history) + l.writes && failure == l.failure
      ensures errors == old(errors) + ErrorsOf(failure)
      ensures lastRouteConnections
              == if failure.None? then remote.routeConnections(n).value else old(lastRouteConnections)
    {
      failure := None;
      var destinations := remote.routeDestinations(n);
      if destinations.Err? {
        WriteError(destinations.message);
        failure := Some(destinations.message);
        return;
      }
      RecordDestinations(n, destinations.value);
      ghost var listed := DestinationWrites(n, destinations.value);

      var connections := remote.routeConnections(n);
      if connections.Err? {
        WriteError(connections.message);
        failure := Some(connections.message);
        return;
      }
      RecordConnections(n, host, connections.value);
      ConcatAssoc(old(history), listed, ConnectionsWrites(config.connections, n, host, connections.value));
      lastRouteConnections := connections.value;
    }

    /**
     * The body of the route loop for `route`, reporting the fetch that failed, if any. The
     * route's connection list is stored as soon as its connections are recorded.
     */
    method CollectRoute(remote: Client, host: string, route: Route) returns (failure: Option<string>)
      requires Valid()
      modifies this`gauges, this`history, this`errors, this`lastRouteConnections
      ensures Valid()
      ensures var e := RouteEntry(config, remote, host, route);
        history == old(history) + e.writes && failure == e.failure
      ensures errors == old(errors) + ErrorsOf(failure)
      ensures lastRouteConnections
              == if failure.None? then remote.routeConnections(route.name).value else old(lastRouteConnections)
    {
      ghost var h := history;
      failure := None;
      var n := route.name;
      var presence := Touch(Series(RouteGauge, [n]));
      Write(presence, h, []);

      var status := remote.routeStatus(n);
      if status.Err? {
        WriteError(status.message);
        failure := Some(status.message);
        return;
      }
      var active := Set(RouteSeries(RouteActiveConnectionsGauge, n, host), status.value.activeConnections);
      var total := Set(RouteSeries(RouteTotalConnectionsGauge, n, host), status.value.totalConnections);
      var blocked := Set(RouteSeries(RouteBlockedHostsGauge, n, host), status.value.blockedHosts);
      Write(active, h, [presence]);
      Write(total, h, [presence] + [active]);
      Write(blocked, h, [presence] + [active] + [total]);
      ghost var counted := [presence] + [active] + [total] + [blocked];

      var health := remote.routeHealth(n);
      if health.Err? {
        WriteError(health.message);
        failure := Some(health.message);
        return;
      }
      if health.value.isAlive {
        Write(Set(RouteSeries(RouteHealthGauge, n, host), 1), h, counted);
      } else {
        Write(Set(RouteSeries(RouteHealthGauge, n, host), 0), h, counted);
      }
      ghost var checked := counted + [Set(RouteSeries(RouteHealthGauge, n, host), HealthValue(health.value))];
      failure := CollectRouteListing(remote, host, n);
      ConcatAssoc(h, checked, RouteListing(config, remote, host, n).writes);
    }

    /** The normal branch after the route list was fetched: resets, then the route loop. */
    method CollectRoutes(remote: Client, host: string, routes: seq<Route>) returns (failure: Option<string>)
      requires Valid() && lastRouter.Some?
      modifies this`gauges, this`history, this`lastRoutes, this`lastRouteConnections, this`errors
      ensures Valid()
      ensures var run := RouteLoop(config, remote, host, routes, old(lastRouteConnections));
        && history == old(history) + (ResetWrites(config.connections) + run.writes)
        && failure == run.failure
        && lastRouteConnections == run.connections
        && lastRoutes == (if failure.None? then routes else old(lastRoutes))
        && errors == old(errors) + ErrorsOf(failure)
    {
      ResetConnectionGauges();
      ghost var afterResets := history;
      ghost var total := RouteLoop(config, remote, host, routes, lastRouteConnections);
      ConcatAssoc(old(history), ResetWrites(config.connections), total.writes);
      var i := 0;
      while i < |routes|
        invariant 0 <= i <= |routes|
        invariant Valid() && errors == old(errors) && lastRoutes == old(lastRoutes)
        invariant afterResets + total.writes
                  == history + RouteLoop(config, remote, host, routes[i..], lastRouteConnections).writes
        invariant RouteLoop(config, remote, host, routes[i..], lastRouteConnections).connections == total.connections
        invariant RouteLoop(config, remote, host, routes[i..], lastRouteConnections).failure == total.failure
      {
        assert routes[i..][0] == routes[i] && routes[i..][1..] == routes[i + 1..];
        ghost var before := history;
        failure := CollectRoute(remote, host, routes[i]);
        if failure.Some? {
          return;
        }
        ConcatAssoc(before, RouteEntry(config, remote, host, routes[i]).writes,
                    RouteLoop(config, remote, host, routes[i + 1..], lastRouteConnections).writes);
        i := i + 1;
      }
      failure := None;
      lastRoutes := routes;
    }

    /** collectRouteMetrics */
    method CollectRouteMetrics(remote: Client, router: Option<Router>) returns (exit: Exit)
      requires Valid()
      requires router.Some? ==> lastRouter == router
      modifies this`gauges, this`history, this`lastRoutes, this`lastRouteConnections, this`errors
      ensures Valid()
      ensures var o := RouteStage(config, remote, router, old(Last()));
        && history == old(history) + o.writes
        && Last() == o.snapshot
        && errors == old(errors) + o.errors
        && exit == o.exit
    {
      if router.None? {
        exit := ZeroLastRoutes();
        return;
      }
      exit := Completed;
      var all := remote.allRoutes;
      if all.Err? {
        WriteError(all.message);
        return;
      }
      var failure := CollectRoutes(remote, router.value.hostname, all.value);
    }

    /** collectMetrics: one cycle. A failed router fetch is reported and the later stages see no router. */
    method CollectMetrics(remote: Client) returns (exit: Exit)
      requires Valid()
      modifies this`gauges, this`history, this`lastRouter, this`lastRoutes, this`lastRouteConnections, this`errors
      ensures Valid()
      ensures var o := RunCycle(config, remote, old(Last()));
        && history == old(history) + o.writes
        && gauges == Apply(old(gauges), o.writes)
        && Last() == o.snapshot
        && errors == old(errors) + o.errors
        && exit == o.exit
    {
      ghost var up := RouterStage(config, remote, old(Last()));
      var fetched := CollectRouterMetrics(remote);
      var router: Option<Router> := None;
      if fetched.Err? {
        WriteError(fetched.message);
      } else {
        router := Some(fetched.value);
      }
      assert router == Current(remote);
      ghost var reported := errors[|old(errors)|..];
      assert errors == old(errors) + reported;
      ghost var md := MetadataStage(config, remote, router);
      CollectMetadataMetrics(remote, router);
      ConcatAssoc(old(history), up.writes, md.writes);
      ConcatAssoc(old(errors), reported, ErrorsOf(md.failure));
      ghost var rt := RouteStage(config, remote, router, up.snapshot);
      exit := CollectRouteMetrics(remote, router);
      ConcatAssoc(old(history), up.writes + md.writes, rt.writes);
      ConcatAssoc(old(errors), reported + ErrorsOf(md.failure), rt.errors);
      ApplyAppend(map[], old(history), up.writes + md.writes + rt.writes);
    }
  }
}
