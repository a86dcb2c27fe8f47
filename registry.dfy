/** Optional values, used for "a series is absent" and for fields that may be missing. */
module Wrappers {
  datatype Option<+T> = None | Some(value: T)
}

/**
 * The gauge registry the exporter writes into, reduced to what the collection cycle uses:
 * a map from (gauge, label values) to a number, changed only by three calls.
 *   - `WithLabelValues(...)` creates the series with value 0 when it is absent (Touch);
 *   - `WithLabelValues(...).Set(v)` and `Set(v)` overwrite the value (Set);
 *   - `Reset()` forgets every label combination of one gauge (Reset).
 * A stage is described by the sequence of calls it makes; `Apply` runs such a sequence.
 */
module Registry {
  import opened Wrappers

  /** The six per-connection gauge families, each gated by its own flag. */
  datatype ConnField =
    | ByteFromServer
    | ByteToServer
    | TimeStarted
    | TimeConnectedToServer
    | TimeLastSentToServer
    | TimeReceivedFromServer

  /** The gauges the collection cycle writes, named after the exporter's gauge variables. */
  datatype Gauge =
    | RouterUpGauge
    | RouterStatusGauge
    | MetadataGauge
    | MetadataConfigGauge
    | MetadataConfigNodesGauge
    | MetadataStatusGauge
    | RouteGauge
    | RouteActiveConnectionsGauge
    | RouteTotalConnectionsGauge
    | RouteBlockedHostsGauge
    | RouteHealthGauge
    | RouteDestinationsGauge
    | RouteConnectionsGauge(field: ConnField)

  /** One exported series: a gauge and one combination of its label values. */
  datatype Series = Series(gauge: Gauge, labels: seq<string>)

  type Gauges = map<Series, int>

  /** One call into the registry. */
  datatype Op =
    | Touch(series: Series)
    | Set(series: Series, value: int)
    | Reset(gauge: Gauge)

  /** The gauge a call acts on. */
  function GaugeOf(op: Op): Gauge
  {
    match op
    case Touch(s) => s.gauge
    case Set(s, _) => s.gauge
    case Reset(name) => name
  }

  /** What the registry reports for series `k`: its value, or None when it is not exported. */
  function Lookup(g: Gauges, k: Series): Option<int>
  {
    if k in g then Some(g[k]) else None
  }

  /** True when `op` can change what series `k` reports. */
  predicate Mentions(op: Op, k: Series)
  {
    match op
    case Touch(s) => s == k
    case Set(s, _) => s == k
    case Reset(name) => name == k.gauge
  }

  /** The effect of one call on the single series `k`, which reported `x` before it. */
  function OpAt(op: Op, k: Series, x: Option<int>): Option<int>
  {
    match op
    case Touch(s) => if s == k && x.None? then Some(0) else x
    case Set(s, v) => if s == k then Some(v) else x
    case Reset(name) => if name == k.gauge then None else x
  }

  /** One call on the whole registry; series by series it behaves as `OpAt`. */
  function Exec(g: Gauges, op: Op): (r: Gauges)
    ensures forall k :: Lookup(r, k) == OpAt(op, k, Lookup(g, k))
  {
    match op
    case Touch(s) => if s in g then g else g[s := 0]
    case Set(s, v) => g[s := v]
    case Reset(name) => map k | k in g && k.gauge != name :: g[k]
  }

  /** The effect of a sequence of calls on the single series `k`. */
  function ApplyAt(ops: seq<Op>, k: Series, x: Option<int>): Option<int>
  {
    if ops == [] then x else ApplyAt(ops[1..], k, OpAt(ops[0], k, x))
  }

  /** A sequence of calls, in order, on the whole registry. */
  function Apply(g: Gauges, ops: seq<Op>): (r: Gauges)
    ensures forall k :: Lookup(r, k) == ApplyAt(ops, k, Lookup(g, k))
    decreases ops
  {
    if ops == [] then g else Apply(Exec(g, ops[0]), ops[1..])
  }

  /** Two registries that report the same for every series are equal. */
  lemma LookupExtensional(a: Gauges, b: Gauges)
    requires forall k :: Lookup(a, k) == Lookup(b, k)
    ensures a == b
  {
    assert forall k :: k in a <==> Lookup(a, k).Some?;
    assert forall k :: k in b <==> Lookup(b, k).Some?;
    assert a.Keys == b.Keys;
    forall k | k in a
      ensures a[k] == b[k]
    {
      assert Lookup(a, k) == Lookup(b, k);
    }
  }

  /** Running two sequences of calls one after the other is running their concatenation. */
  lemma {:induction false} ApplyAppend(g: Gauges, a: seq<Op>, b: seq<Op>)
    ensures Apply(g, a + b) == Apply(Apply(g, a), b)
    decreases a
  {
    if a == [] {
      assert a + b == b;
    } else {
      assert (a + b)[0] == a[0];
      assert (a + b)[1..] == a[1..] + b;
      ApplyAppend(Exec(g, a[0]), a[1..], b);
    }
  }

  lemma {:induction false} ApplyAtAppend(a: seq<Op>, b: seq<Op>, k: Series, x: Option<int>)
    ensures ApplyAt(a + b, k, x) == ApplyAt(b, k, ApplyAt(a, k, x))
  {
    if a == [] {
      assert a + b == b;
    } else {
      assert (a + b)[0] == a[0];
      assert (a + b)[1..] == a[1..] + b;
      ApplyAtAppend(a[1..], b, k, OpAt(a[0], k, x));
    }
  }

  /** Calls that do not mention `k` leave what `k` reports alone. */
  lemma {:induction false} ApplyAtUnmentioned(ops: seq<Op>, k: Series, x: Option<int>)
    requires forall op :: op in ops ==> !Mentions(op, k)
    ensures ApplyAt(ops, k, x) == x
  {
    if ops != [] {
      assert ops[0] in ops;
      ApplyAtUnmentioned(ops[1..], k, x);
    }
  }

  /** Calls on other gauges leave what `k` reports alone. */
  lemma ApplyAtOtherGauges(ops: seq<Op>, k: Series, x: Option<int>)
    requires forall op :: op in ops ==> GaugeOf(op) != k.gauge
    ensures ApplyAt(ops, k, x) == x
  {
    ApplyAtUnmentioned(ops, k, x);
  }

  /** When every call that mentions `k` sets it to `v`, and one does (or it already held `v`), `k` ends at `v`. */
  lemma {:induction false} ApplyAtSetOnly(ops: seq<Op>, k: Series, v: int, x: Option<int>)
    requires x == Some(v) || Set(k, v) in ops
    requires forall op :: op in ops && Mentions(op, k) ==> op == Set(k, v)
    ensures ApplyAt(ops, k, x) == Some(v)
  {
    if ops != [] {
      assert ops[0] in ops;
      var y := OpAt(ops[0], k, x);
      if ops[0] != Set(k, v) {
        assert Set(k, v) in ops ==> Set(k, v) in ops[1..];
      }
      ApplyAtSetOnly(ops[1..], k, v, y);
    }
  }

  /** A series that is written, or already present, and whose gauge is never reset, is present afterwards. */
  lemma {:induction false} ApplyAtPresent(ops: seq<Op>, k: Series, x: Option<int>)
    requires x.Some? || Touch(k) in ops || exists v :: Set(k, v) in ops
    requires Reset(k.gauge) !in ops
    ensures ApplyAt(ops, k, x).Some?
  {
    if ops != [] {
      var y := OpAt(ops[0], k, x);
      if y.None? {
        assert Touch(k) != ops[0];
        assert forall v :: Set(k, v) != ops[0];
        assert Touch(k) in ops ==> Touch(k) in ops[1..];
        assert forall v :: Set(k, v) in ops ==> Set(k, v) in ops[1..];
      }
      ApplyAtPresent(ops[1..], k, y);
    }
  }

  /** Where a reported value comes from: the old value (never reset since), a Set, or a Touch that created it. */
  lemma {:induction false} ApplyAtOrigin(ops: seq<Op>, k: Series, x: Option<int>, v: int)
    requires ApplyAt(ops, k, x) == Some(v)
    ensures || (x == Some(v) && Reset(k.gauge) !in ops)
            || Set(k, v) in ops
            || (v == 0 && Touch(k) in ops)
  {
    if ops != [] {
      var y := OpAt(ops[0], k, x);
      ApplyAtOrigin(ops[1..], k, y, v);
      if y == Some(v) && Reset(k.gauge) !in ops[1..] {
        match ops[0]
        case Touch(s) =>
        case Set(s, w) =>
        case Reset(name) =>
      }
    }
  }

  /** What a sequence of calls does to one series, in closed form. */
  datatype Effect =
    | Keep                      // leaves the series as it was
    | Fill                      // creates it with 0 if absent, otherwise leaves it
    | Fixed(result: Option<int>) // ends at a value that does not depend on the old one

  function Eval(e: Effect, x: Option<int>): Option<int>
  {
    match e
    case Keep => x
    case Fill => if x.None? then Some(0) else x
    case Fixed(y) => y
  }

  /** The effect of `e1` followed by `e2`. */
  function Then(e1: Effect, e2: Effect): (e: Effect)
    ensures forall x :: Eval(e, x) == Eval(e2, Eval(e1, x))
  {
    match e2
    case Keep => e1
    case Fixed(y) => Fixed(y)
    case Fill =>
      match e1
      case Keep => Fill
      case Fill => Fill
      case Fixed(y) => Fixed(if y.None? then Some(0) else y)
  }

  function OpEffect(op: Op, k: Series): (e: Effect)
    ensures forall x :: Eval(e, x) == OpAt(op, k, x)
  {
    match op
    case Touch(s) => if s == k then Fill else Keep
    case Set(s, v) => if s == k then Fixed(Some(v)) else Keep
    case Reset(name) => if name == k.gauge then Fixed(None) else Keep
  }

  /** Every sequence of calls acts on a series as one of Keep, Fill or Fixed. */
  function EffectOf(ops: seq<Op>, k: Series): (e: Effect)
    ensures forall x :: Eval(e, x) == ApplyAt(ops, k, x)
  {
    if ops == [] then Keep else Then(OpEffect(ops[0], k), EffectOf(ops[1..], k))
  }

  /**
   * Running the same sequence of calls twice leaves the registry as running it once:
   * Touch, Set and Reset never accumulate.
   */
  lemma ApplyIdempotent(g: Gauges, ops: seq<Op>)
    ensures Apply(Apply(g, ops), ops) == Apply(g, ops)
  {
    var once := Apply(g, ops);
    var twice := Apply(once, ops);
    forall k
      ensures Lookup(twice, k) == Lookup(once, k)
    {
      var e := EffectOf(ops, k);
      var x := Lookup(g, k);
      assert Lookup(once, k) == Eval(e, x);
      assert Lookup(twice, k) == Eval(e, Eval(e, x));
    }
    LookupExtensional(twice, once);
  }
}

/** Facts about sequences that the proofs use by name. */
module Seqs {
  /** Regrouping a concatenation, stated once so proofs need not rediscover it element by element. */
  lemma ConcatAssoc<T>(a: seq<T>, b: seq<T>, c: seq<T>)
    ensures (a + b) + c == a + (b + c)
  {
  }
}
