/** The resolved routing graph the translator reads (package dag): routes,
    the clusters they send traffic to, and their retry and timeout policies.
    Kubernetes service objects are reduced to namespace, name and port. */
module Dag {

  import opened Wrappers

  /** A TCP service endpoint: namespace, service name and the service port's number. */
  datatype TCPService = TCPService(namespace: string, name: string, port: int)

  /** One target of a route. `config` is the cluster-level configuration text
      that the cluster name's digest covers; the empty text is the default
      configuration. */
  datatype Cluster = Cluster(upstream: TCPService, weight: nat, config: string)

  /** Durations are integer nanoseconds, as Go's time.Duration. */
  datatype RetryPolicy = RetryPolicy(retryOn: string, numRetries: nat, perTryTimeout: int)

  datatype TimeoutPolicy = TimeoutPolicy(timeout: int)

  datatype Route = Route(
    prefix: string,
    websocket: bool,
    retryPolicy: Option<RetryPolicy>,
    timeoutPolicy: Option<TimeoutPolicy>)

  const Second: int := 1_000_000_000
  const Millisecond: int := 1_000_000
}
