/**
 * The records the router's REST interface returns, reduced to the fields the collection
 * cycle reads, and the client as an oracle: each call is an input that either succeeds
 * with a record or fails with an error message.
 */
module Remote {
  /** The outcome of one call to the router's REST interface. */
  datatype Fetch<+T> = Ok(value: T) | Err(message: string)

  /** The router's identity. `timeStarted` is the rendered start time, kept opaque. */
  datatype Router = Router(
    processId: int,
    productEdition: string,
    timeStarted: string,
    version: string,
    hostname: string)

  datatype Metadata = Metadata(name: string)

  datatype MetadataNode = MetadataNode(hostname: string, port: int)

  datatype MetadataConfig = MetadataConfig(
    clusterName: string,
    timeRefreshInMs: int,
    groupReplicationId: string,
    nodes: seq<MetadataNode>)

  /** `timeLastRefreshSucceeded` is the rendered time, kept opaque. */
  datatype MetadataStatus = MetadataStatus(
    refreshFailed: int,
    timeLastRefreshSucceeded: string,
    lastRefreshHostname: string,
    lastRefreshPort: int)

  datatype Route = Route(name: string)

  datatype RouteStatus = RouteStatus(activeConnections: int, totalConnections: int, blockedHosts: int)

  datatype RouteHealth = RouteHealth(isAlive: bool)

  datatype RouteDestination = RouteDestination(address: string, port: int)

  /** One live connection on a route; the four times are Unix seconds. */
  datatype RouteConnection = RouteConnection(
    sourceAddress: string,
    destinationAddress: string,
    bytesFromServer: int,
    bytesToServer: int,
    timeStarted: int,
    timeConnectedToServer: int,
    timeLastSentToServer: int,
    timeLastReceivedFromServer: int)

  /**
   * The answers the router gives during one cycle. Calls that take a name are functions of
   * that name: asking twice about the same name in one cycle gets the same answer.
   */
  datatype Client = Client(
    routerStatus: Fetch<Router>,
    allMetadata: Fetch<seq<Metadata>>,
    metadataConfig: string -> Fetch<MetadataConfig>,
    metadataStatus: string -> Fetch<MetadataStatus>,
    allRoutes: Fetch<seq<Route>>,
    routeStatus: string -> Fetch<RouteStatus>,
    routeHealth: string -> Fetch<RouteHealth>,
    routeDestinations: string -> Fetch<seq<RouteDestination>>,
    routeConnections: string -> Fetch<seq<RouteConnection>>)
}

/** Decimal rendering of integers, as label values are produced from numbers. */
module Strconv {
  function Digit(d: nat): (c: char)
    requires d < 10
    ensures '0' <= c <= '9' && c as int == '0' as int + d
  {
    ('0' as int + d) as char
  }

  /** The decimal digits of `n`, most significant first, without leading zeros. */
  function NatToString(n: nat): (s: string)
    ensures 0 < |s|
    ensures forall i :: 0 <= i < |s| ==> '0' <= s[i] <= '9'
    ensures s[0] == '0' ==> n == 0
    decreases n
  {
    if n < 10 then [Digit(n)] else NatToString(n / 10) + [Digit(n % 10)]
  }

  /** Decimal rendering with a leading minus sign for negative numbers. */
  function Itoa(n: int): (s: string)
    ensures 0 < |s|
    ensures s[0] == '-' <==> n < 0
  {
    if n < 0 then "-" + NatToString(-n) else NatToString(n)
  }

  /** Reads decimal digits, most significant first. */
  function ParseNat(s: string): int
  {
    if s == [] then 0 else ParseNat(s[..|s| - 1]) * 10 + (s[|s| - 1] as int - '0' as int)
  }

  /** Reads an optional minus sign followed by decimal digits, as `strconv.Atoi` does. */
  function Atoi(s: string): int
  {
    if s != [] && s[0] == '-' then -ParseNat(s[1..]) else ParseNat(s)
  }

  lemma {:induction false} NatToStringRoundTrip(n: nat)
    ensures ParseNat(NatToString(n)) == n
    decreases n
  {
    var s := NatToString(n);
    if n < 10 {
      assert s[..0] == [];
    } else {
      NatToStringRoundTrip(n / 10);
      assert s[..|s| - 1] == NatToString(n / 10);
    }
  }

  /** Reading back a rendered number gives the number: the label text determines the value. */
  lemma ItoaRoundTrip(n: int)
    ensures Atoi(Itoa(n)) == n
  {
    if n < 0 {
      NatToStringRoundTrip(-n);
      assert Itoa(n)[1..] == NatToString(-n);
    } else {
      NatToStringRoundTrip(n);
    }
  }

  /** Distinct numbers render as distinct label values. */
  lemma ItoaInjective(a: int, b: int)
    ensures Itoa(a) == Itoa(b) ==> a == b
  {
    ItoaRoundTrip(a);
    ItoaRoundTrip(b);
  }
}
