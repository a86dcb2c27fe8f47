/**
 * What the metadata stage (collectMetadataMetrics) guarantees: which fetch failures end it,
 * that calls already made stay made, and what the registry reports for every entry after
 * a stage that ran to completion.
 */
module MetadataProperties {
  import opened Wrappers
  import opened Registry
  import opened Remote
  import opened Cycle
  import opened Seqs

  /** A loop whose first `i` entries succeed is those entries' calls followed by the rest of the loop. */
  lemma {:induction false} MetadataLoopSplit(cfg: Config, remote: Client, host: string, ms: seq<Metadata>, i: nat)
    requires i <= |ms|
    requires MetadataLoop(cfg, remote, host, ms[..i]).failure.None?
    ensures MetadataLoop(cfg, remote, host, ms)
            == Step(MetadataLoop(cfg, remote, host, ms[..i]).writes + MetadataLoop(cfg, remote, host, ms[i..]).writes,
                    MetadataLoop(cfg, remote, host, ms[i..]).failure)
  {
    if i == 0 {
      assert ms[..0] == [] && ms[0..] == ms;
    } else {
      var e := MetadataEntry(cfg, remote, host, ms[0]);
      assert ms[..i][0] == ms[0] && ms[..i][1..] == ms[1..][..i - 1];
      MetadataLoopSplit(cfg, remote, host, ms[1..], i - 1);
      assert ms[1..][i - 1..] == ms[i..];
      ConcatAssoc(e.writes, MetadataLoop(cfg, remote, host, ms[1..][..i - 1]).writes,
                  MetadataLoop(cfg, remote, host, ms[i..]).writes);
    }
  }

  /**
   * The first entry with a failing fetch ends the stage with that fetch's error: the calls
   * made for the entries before it, and for it up to the failure, stay; none follow.
   */
  lemma MetadataLoopStops(cfg: Config, remote: Client, host: string, ms: seq<Metadata>, i: nat)
    requires i < |ms|
    requires forall j :: 0 <= j < i ==> MetadataEntryOk(cfg, remote, ms[j])
    requires !MetadataEntryOk(cfg, remote, ms[i])
    ensures var e := MetadataEntry(cfg, remote, host, ms[i]);
      && e.failure.Some?
      && MetadataLoop(cfg, remote, host, ms)
         == Step(MetadataLoop(cfg, remote, host, ms[..i]).writes + e.writes, e.failure)
  {
    assert forall m :: m in ms[..i] ==> MetadataEntryOk(cfg, remote, m);
    MetadataLoopSplit(cfg, remote, host, ms, i);
    assert ms[i..][0] == ms[i];
  }

  /** The calls the metadata stage can make: which gauges, and the value every Set carries. */
  predicate MetadataWrite(cfg: Config, remote: Client, host: string, op: Op)
  {
    match op
    case Touch(s) =>
      || s.gauge == MetadataGauge
      || s.gauge == MetadataConfigGauge
      || (s.gauge == MetadataStatusGauge && cfg.collectMetadataStatus)
    case Set(s, v) =>
      && s.gauge == MetadataConfigNodesGauge
      && |s.labels| == 3
      && remote.metadataConfig(s.labels[0]).Ok?
      && s == NodesSeries(s.labels[0], host, remote.metadataConfig(s.labels[0]).value)
      && v == |remote.metadataConfig(s.labels[0]).value.nodes|
    case Reset(gauge) => gauge == MetadataStatusGauge && cfg.collectMetadataStatus
  }

  lemma MetadataEntryWrites(cfg: Config, remote: Client, host: string, m: Metadata)
    ensures forall op :: op in MetadataEntry(cfg, remote, host, m).writes ==> MetadataWrite(cfg, remote, host, op)
  {
  }

  /** Every call of the metadata stage is a MetadataWrite. */
  lemma {:induction false} MetadataLoopWrites(cfg: Config, remote: Client, host: string, ms: seq<Metadata>)
    ensures forall op :: op in MetadataLoop(cfg, remote, host, ms).writes ==> MetadataWrite(cfg, remote, host, op)
  {
    if ms != [] {
      MetadataEntryWrites(cfg, remote, host, ms[0]);
      MetadataLoopWrites(cfg, remote, host, ms[1..]);
    }
  }

  /** The metadata stage writes only the four metadata gauges, with the calls MetadataWrite allows. */
  lemma MetadataStageWrites(cfg: Config, remote: Client, router: Option<Router>)
    ensures router.Some? ==>
      forall op :: op in MetadataStage(cfg, remote, router).writes ==> MetadataWrite(cfg, remote, router.value.hostname, op)
    ensures forall op :: op in MetadataStage(cfg, remote, router).writes ==> GaugeOf(op) in MetadataGauges()
  {
    if router.Some? && remote.allMetadata.Ok? {
      MetadataLoopWrites(cfg, remote, router.value.hostname, remote.allMetadata.value);
    }
  }

  /** The four gauges the metadata stage writes. */
  function MetadataGauges(): set<Gauge>
  {
    {MetadataGauge, MetadataConfigGauge, MetadataConfigNodesGauge, MetadataStatusGauge}
  }

  /** In a loop that completes, every call made for a listed entry is among the loop's calls. */
  lemma {:induction false} MetadataLoopIncludes(cfg: Config, remote: Client, host: string, ms: seq<Metadata>, m: Metadata)
    requires m in ms
    requires MetadataLoop(cfg, remote, host, ms).failure.None?
    ensures forall op :: op in MetadataEntry(cfg, remote, host, m).writes ==> op in MetadataLoop(cfg, remote, host, ms).writes
  {
    if m != ms[0] {
      MetadataLoopIncludes(cfg, remote, host, ms[1..], m);
    }
  }

  /**
   * After a metadata stage that ran to completion, every listed entry is exported: its
   * presence series, its config series, and a nodes series whose value is the entry's node count.
   */
  lemma MetadataEntryExported(cfg: Config, remote: Client, r: Router, ms: seq<Metadata>, m: Metadata,
                              mc: MetadataConfig, g: Gauges)
    requires remote.allMetadata == Ok(ms) && m in ms
    requires remote.metadataConfig(m.name) == Ok(mc)
    requires MetadataStage(cfg, remote, Some(r)).failure.None?
    ensures var after := Apply(g, MetadataStage(cfg, remote, Some(r)).writes);
      && Series(MetadataGauge, [m.name]) in after
      && ConfigSeries(m.name, mc) in after
      && Lookup(after, NodesSeries(m.name, r.hostname, mc)) == Some(|mc.nodes|)
  {
    var host := r.hostname;
    var w := MetadataLoop(cfg, remote, host, ms).writes;
    MetadataLoopIncludes(cfg, remote, host, ms, m);
    MetadataLoopWrites(cfg, remote, host, ms);
    assert Reset(MetadataGauge) !in w && Reset(MetadataConfigGauge) !in w;
    var presence := Series(MetadataGauge, [m.name]);
    ApplyAtPresent(w, presence, Lookup(g, presence));
    var configured := ConfigSeries(m.name, mc);
    ApplyAtPresent(w, configured, Lookup(g, configured));
    var nodes := NodesSeries(m.name, host, mc);
    forall op | op in w && Mentions(op, nodes)
      ensures op == Set(nodes, |mc.nodes|)
    {
      assert MetadataWrite(cfg, remote, host, op);
    }
    ApplyAtSetOnly(w, nodes, |mc.nodes|, Lookup(g, nodes));
  }

  /** With the status flag off, the metadata stage never touches the status gauge. */
  lemma StatusUntouchedWhenOff(cfg: Config, remote: Client, router: Option<Router>, g: Gauges, k: Series)
    requires !cfg.collectMetadataStatus && k.gauge == MetadataStatusGauge
    ensures Lookup(Apply(g, MetadataStage(cfg, remote, router).writes), k) == Lookup(g, k)
  {
    var w := MetadataStage(cfg, remote, router).writes;
    if router.Some? {
      MetadataStageWrites(cfg, remote, router);
      forall op | op in w
        ensures !Mentions(op, k)
      {
        assert MetadataWrite(cfg, remote, router.value.hostname, op);
      }
    }
    ApplyAtUnmentioned(w, k, Lookup(g, k));
  }

  /**
   * With the status flag on, the status gauge is reset before each entry's status series is
   * written, so after a stage that ran to completion it exports exactly one series: the last
   * entry's, with the value 0 it was created with.
   */
  lemma StatusHoldsLastEntry(cfg: Config, remote: Client, r: Router, ms: seq<Metadata>, st: MetadataStatus,
                             g: Gauges, k: Series)
    requires cfg.collectMetadataStatus && remote.allMetadata == Ok(ms) && ms != []
    requires remote.metadataStatus(ms[|ms| - 1].name) == Ok(st)
    requires MetadataStage(cfg, remote, Some(r)).failure.None?
    requires k.gauge == MetadataStatusGauge
    ensures Lookup(Apply(g, MetadataStage(cfg, remote, Some(r)).writes), k)
            == if k == StatusSeries(ms[|ms| - 1].name, st) then Some(0) else None
  {
    var host := r.hostname;
    var n := |ms| - 1;
    assert forall m :: m in ms[..n] ==> m in ms;
    MetadataLoopSplit(cfg, remote, host, ms, n);
    assert ms[n..][0] == ms[n] && ms[n..][1..] == [];
    var e := MetadataEntry(cfg, remote, host, ms[n]);
    var mc := remote.metadataConfig(ms[n].name).value;
    var configured := [Touch(Series(MetadataGauge, [ms[n].name]))] + [Touch(ConfigSeries(ms[n].name, mc))]
                      + [Set(NodesSeries(ms[n].name, host, mc), |mc.nodes|)];
    var prefix := MetadataLoop(cfg, remote, host, ms[..n]).writes;
    assert e.writes == configured + [Reset(MetadataStatusGauge)] + [Touch(StatusSeries(ms[n].name, st))];
    assert e.writes + [] == e.writes;
    var x := Lookup(g, k);
    ApplyAtAppend(prefix, e.writes, k, x);
    ApplyAtAppend(configured + [Reset(MetadataStatusGauge)], [Touch(StatusSeries(ms[n].name, st))], k,
                  ApplyAt(prefix, k, x));
    ApplyAtAppend(configured, [Reset(MetadataStatusGauge)], k, ApplyAt(prefix, k, x));
  }
}
