/** What the router stage (collectRouterMetrics) guarantees about the registry. */
module RouterProperties {
  import opened Wrappers
  import opened Registry
  import opened Remote
  import opened Cycle

  /** The up gauge reads 1 after a successful router fetch and 0 after a failed one. */
  lemma UpReflectsFetch(cfg: Config, remote: Client, snap: Snapshot, g: Gauges)
    ensures Lookup(Apply(g, RouterStage(cfg, remote, snap).writes), UpSeries)
            == Some(if remote.routerStatus.Ok? then 1 else 0)
  {
    var w := RouterStage(cfg, remote, snap).writes;
    if remote.routerStatus.Ok? {
      ApplyAtAppend([w[0]], [w[1]], UpSeries, Lookup(g, UpSeries));
      assert w == [w[0]] + [w[1]];
    }
  }

  /** After a successful fetch the router-info series labelled with the fetched router is exported. */
  lemma RouterInfoExported(cfg: Config, remote: Client, snap: Snapshot, g: Gauges, r: Router)
    requires remote.routerStatus == Ok(r)
    ensures Series(RouterStatusGauge, RouterLabels(r, cfg)) in Apply(g, RouterStage(cfg, remote, snap).writes)
  {
    var w := RouterStage(cfg, remote, snap).writes;
    var k := Series(RouterStatusGauge, RouterLabels(r, cfg));
    ApplyAtPresent(w, k, Lookup(g, k));
  }

  /** The router stage writes only the up gauge and the router-info gauge. */
  lemma RouterStageWrites(cfg: Config, remote: Client, snap: Snapshot)
    ensures forall op :: op in RouterStage(cfg, remote, snap).writes ==>
      GaugeOf(op) == RouterUpGauge || GaugeOf(op) == RouterStatusGauge
  {
  }
}
