/** The route builders of package envoy: the route action for a route of the
    routing graph (RouteRoute), and the virtual host, prefix match and HTTPS
    redirect builders. */
module EnvoyRoute {

  import opened Wrappers
  import opened Strings
  import opened ClusterNaming
  import opened Weighted
  import Dag
  import Api = EnvoyApi

  // ---------------------------------------------------------------------
  // Policy mappers.

  /** The retry policy field: unset without a policy, and unset when the
      policy names no retry condition, whatever its count and per-try timeout;
      otherwise the three values copied. */
  function RetryPolicy(p: Option<Dag.RetryPolicy>): (r: Option<Api.RetryPolicy>)
    ensures r.Some? <==> p.Some? && p.value.retryOn != ""
    ensures r.Some? ==>
      && r.value.retryOn == p.value.retryOn
      && r.value.numRetries == Some(p.value.numRetries)
      && r.value.perTryTimeout == Some(p.value.perTryTimeout)
  {
    match p
    case None => None
    case Some(rp) =>
      if rp.retryOn == "" then None
      else Some(Api.RetryPolicy(rp.retryOn, Some(rp.numRetries), Some(rp.perTryTimeout)))
  }

  /** The timeout field: unset without a policy; -1, Contour's "no timeout",
      becomes an explicit 0, Envoy's "no timeout"; any other value is copied. */
  function Timeout(p: Option<Dag.TimeoutPolicy>): (r: Option<int>)
    ensures r.None? <==> p.None?
    ensures p.Some? && p.value.timeout == -1 ==> r == Some(0)
    ensures p.Some? && p.value.timeout != -1 ==> r == Some(p.value.timeout)
  {
    match p
    case None => None
    case Some(tp) => if tp.timeout == -1 then Some(0) else Some(tp.timeout)
  }

  const WebsocketUpgrade: Api.UpgradeConfig := Api.UpgradeConfig("websocket")

  /** The upgrade configs: one "websocket" entry for a websocket route, none otherwise. */
  function UpgradeConfigs(websocket: bool): (r: seq<Api.UpgradeConfig>)
    ensures |r| == if websocket then 1 else 0
    ensures forall u :: u in r ==> u.upgradeType == "websocket"
  {
    if websocket then [WebsocketUpgrade] else []
  }

  // ---------------------------------------------------------------------
  // The meaning of a timeout, on both sides of the translation.

  datatype TimeoutMeaning = ProxyDefault | NoTimeout | After(nanos: int)

  /** What the routing graph's timeout policy asks for. */
  function Requested(p: Option<Dag.TimeoutPolicy>): TimeoutMeaning {
    match p
    case None => ProxyDefault
    case Some(tp) => if tp.timeout == -1 then NoTimeout else After(tp.timeout)
  }

  /** How Envoy reads a route's timeout field: unset is its default, 0 disables it. */
  function EnvoyReads(t: Option<int>): TimeoutMeaning {
    match t
    case None => ProxyDefault
    case Some(d) => if d == 0 then NoTimeout else After(d)
  }

  /** Envoy enforces what the policy asks for: no policy leaves Envoy's
      default, -1 disables the timeout, and any other value but 0 is passed on
      as given. (A timeout of 0 also reaches Envoy as "no timeout".) */
  lemma TimeoutMeansRequested(p: Option<Dag.TimeoutPolicy>)
    requires p.None? || p.value.timeout != 0
    ensures EnvoyReads(Timeout(p)) == Requested(p)
  {
  }

  // ---------------------------------------------------------------------
  // RouteRoute.

  /** The route action for `r` sending traffic to `clusters`: one cluster goes
      by name, whatever its weight; any other number of clusters (zero too)
      becomes a weighted list. Retry, timeout and upgrade fields come from the
      mappers above. */
  function RouteRoute(h: Digest, r: Dag.Route, clusters: seq<Dag.Cluster>): (a: Api.Action)
    requires |clusters| == 1 || TotalFitsUint32(clusters)
    ensures a.Route?
    ensures a.route.clusterSpecifier.Cluster? <==> |clusters| == 1
    ensures |clusters| == 1 ==> a.route.clusterSpecifier.cluster == ClusterName(h, clusters[0])
    ensures |clusters| != 1 ==> a.route.clusterSpecifier.weightedClusters == WeightedClusters(h, clusters)
    ensures a.route.retryPolicy == RetryPolicy(r.retryPolicy)
    ensures a.route.timeout == Timeout(r.timeoutPolicy)
    ensures a.route.upgradeConfigs == UpgradeConfigs(r.websocket)
  {
    var specifier :=
      if |clusters| == 1 then Api.Cluster(ClusterName(h, clusters[0]))
      else Api.WeightedClusters(WeightedClusters(h, clusters));
    Api.Route(Api.RouteAction(
      specifier,
      RetryPolicy(r.retryPolicy),
      Timeout(r.timeoutPolicy),
      UpgradeConfigs(r.websocket)))
  }

  /** A single cluster's weight has no effect on the route action. */
  lemma SingleClusterIgnoresWeight(h: Digest, r: Dag.Route, c: Dag.Cluster, w: nat)
    ensures RouteRoute(h, r, [c.(weight := w)]) == RouteRoute(h, r, [c])
  {
    ClusterNameIgnoresWeight(h, c, w);
  }

  /** Turning websocket on adds exactly one "websocket" upgrade config and
      changes nothing else, in the single and in the weighted form alike. */
  lemma WebsocketAddsOneUpgrade(h: Digest, r: Dag.Route, clusters: seq<Dag.Cluster>)
    requires |clusters| == 1 || TotalFitsUint32(clusters)
    ensures var on := RouteRoute(h, r.(websocket := true), clusters).route;
            var off := RouteRoute(h, r.(websocket := false), clusters).route;
            off.upgradeConfigs == [] && on == off.(upgradeConfigs := [Api.UpgradeConfig("websocket")])
  {
  }

  /** The prefix belongs to the route's match, not to its action. */
  lemma RouteRouteIgnoresPrefix(h: Digest, r: Dag.Route, clusters: seq<Dag.Cluster>, prefix: string)
    requires |clusters| == 1 || TotalFitsUint32(clusters)
    ensures RouteRoute(h, r.(prefix := prefix), clusters) == RouteRoute(h, r, clusters)
  {
  }

  /** The weighted form Envoy receives is consistent: the total is the sum of
      the entries' weights, and is positive whenever there is an entry. */
  lemma WeightedFormConsistent(h: Digest, r: Dag.Route, clusters: seq<Dag.Cluster>)
    requires |clusters| != 1 && TotalFitsUint32(clusters)
    ensures var wc := RouteRoute(h, r, clusters).route.clusterSpecifier.weightedClusters;
            && wc.totalWeight == WeightSum(wc.clusters)
            && |wc.clusters| == |clusters|
            && (|clusters| > 0 ==> wc.totalWeight > 0)
  {
    WeightedClustersEntries(h, clusters);
  }

  // ---------------------------------------------------------------------
  // Auxiliary builders.

  /** The virtual host for `hostname`: the wildcard host "*" keeps the single
      domain "*"; any other host is registered bare and with ":port". */
  function VirtualHost(hostname: string, port: int): (v: Api.VirtualHost)
    ensures v.name == hostname
    ensures hostname in v.domains
  {
    if hostname == "*" then Api.VirtualHost("*", ["*"])
    else Api.VirtualHost(hostname, [hostname, hostname + ":" + IntToString(port)])
  }

  /** Envoy's domain matching, reduced to the two forms used here: "*" matches
      every Host header, any other domain matches itself. */
  predicate Serves(v: Api.VirtualHost, host: string) {
    "*" in v.domains || host in v.domains
  }

  /** The wildcard host serves every Host header; any other virtual host
      serves exactly its hostname, bare or followed by ":" and its port. */
  lemma VirtualHostServes(hostname: string, port: int, host: string)
    ensures hostname == "*" ==> Serves(VirtualHost(hostname, port), host)
    ensures hostname != "*" ==>
      (Serves(VirtualHost(hostname, port), host) <==> host == hostname || host == hostname + ":" + IntToString(port))
  {
    assert |hostname + ":" + IntToString(port)| >= 2;
  }

  /** Splits a domain into its host and its port, if it carries one. */
  function HostPort(domain: string): (string, Option<int>) {
    match SplitFirst(domain, ':')
    case None => (domain, None)
    case Some(p) => (p.0, ParseInt(p.1))
  }

  /** For a hostname without ':', every domain of its virtual host reads back
      as that hostname, either bare or with exactly the given port; the
      wildcard host has the single domain "*". */
  lemma VirtualHostDomainsRoundTrip(hostname: string, port: int)
    requires ':' !in hostname
    ensures hostname == "*" ==> VirtualHost(hostname, port).domains == ["*"]
    ensures hostname != "*" ==>
      var ds := VirtualHost(hostname, port).domains;
      |ds| == 2 && HostPort(ds[0]) == (hostname, None) && HostPort(ds[1]) == (hostname, Some(port))
  {
    if hostname != "*" {
      var withPort := hostname + ":" + IntToString(port);
      assert withPort == hostname + [':'] + IntToString(port);
      SplitFirstJoin(hostname, ':', IntToString(port));
      ParseIntToString(port);
    }
  }

  /** The prefix match for `prefix`, taken exactly as given. */
  function PrefixMatch(prefix: string): (m: Api.RouteMatch)
    ensures m.pathSpecifier.Prefix? && m.pathSpecifier.prefix == prefix
  {
    Api.RouteMatch(Api.Prefix(prefix))
  }

  /** The redirect action that sends plain-HTTP requests to HTTPS, keeping
      host and path. */
  function UpgradeHTTPS(): (a: Api.Action)
    ensures a.Redirect?
    ensures a.redirect.schemeRewriteSpecifier == Some(Api.HttpsRedirect(true))
    ensures a.redirect.hostRedirect == "" && a.redirect.pathRedirect == ""
  {
    Api.Redirect(Api.RedirectAction("", "", Some(Api.HttpsRedirect(true))))
  }
}
