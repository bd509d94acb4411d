/** The Envoy v2 route-configuration messages the translator produces
    (go-control-plane's envoy/api/v2/route), reduced to the fields the
    translation sets. Protobuf wrapper fields (UInt32Value, Duration) that
    may be unset are `Option`s; durations are integer nanoseconds. */
module EnvoyApi {

  import opened Wrappers

  datatype ClusterWeight = ClusterWeight(name: string, weight: nat)

  datatype WeightedCluster = WeightedCluster(clusters: seq<ClusterWeight>, totalWeight: nat)

  /** The RouteAction's cluster_specifier oneof. */
  datatype ClusterSpecifier =
    | Cluster(cluster: string)
    | WeightedClusters(weightedClusters: WeightedCluster)

  datatype RetryPolicy = RetryPolicy(retryOn: string, numRetries: Option<nat>, perTryTimeout: Option<int>)

  datatype UpgradeConfig = UpgradeConfig(upgradeType: string)

  datatype RouteAction = RouteAction(
    clusterSpecifier: ClusterSpecifier,
    retryPolicy: Option<RetryPolicy>,
    timeout: Option<int>,
    upgradeConfigs: seq<UpgradeConfig>)

  /** The RedirectAction's scheme_rewrite_specifier oneof. */
  datatype SchemeRewriteSpecifier = HttpsRedirect(httpsRedirect: bool)

  /** Empty host and path redirects mean "keep the request's own". */
  datatype RedirectAction = RedirectAction(
    hostRedirect: string,
    pathRedirect: string,
    schemeRewriteSpecifier: Option<SchemeRewriteSpecifier>)

  /** The Route's action oneof: Route_Route or Route_Redirect. */
  datatype Action = Route(route: RouteAction) | Redirect(redirect: RedirectAction)

  /** The RouteMatch's path_specifier oneof, in the prefix form, the only one built here. */
  datatype PathSpecifier = Prefix(prefix: string)

  datatype RouteMatch = RouteMatch(pathSpecifier: PathSpecifier)

  datatype VirtualHost = VirtualHost(name: string, domains: seq<string>)
}
