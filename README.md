# Contour's Envoy route translation, modelled in Dafny

Contour is a Kubernetes ingress controller. It resolves ingress objects into a
routing graph (package `dag`) and then translates each route of that graph into
Envoy v2 configuration (package `envoy`). This project models that translation
step as pure functions over plain datatypes. The behaviour modelled is the one
fixed by `internal/envoy/route_test.go`:

- **Cluster names.** `ClusterNaming.ClusterName` builds
  `<namespace>/<name>/<port>/<digest>`, where the digest is the first 10 hex
  characters of the SHA-1 of the cluster's configuration.
- **Weighted split.** `Weighted.WeightedClusters` turns several clusters into
  Envoy's weighted form. Declared weights are used as given, including a
  declared 0 among nonzero weights. When every weight is 0, each cluster gets
  weight 1. The total is the sum of the effective weights. The entries are
  sorted by cluster name, with ties broken by ascending weight.
- **Route action.** `EnvoyRoute.RouteRoute` builds the action for a route.
  - One cluster goes by name, whatever its weight; any other number of
    clusters uses the weighted form.
  - A retry policy is emitted only when it names a retry condition.
  - A timeout of -1 becomes an explicit 0, which Envoy reads as "no timeout".
    No policy means no timeout field.
  - A websocket route gets one `"websocket"` upgrade config.
- **Other builders.** `EnvoyRoute.VirtualHost` gives the wildcard host `"*"`
  a single domain, and any other host its bare name plus `name:port`.
  `EnvoyRoute.PrefixMatch` passes its prefix through unchanged.
  `EnvoyRoute.UpgradeHTTPS` is the fixed HTTPS redirect.

Every table-driven case of the test file is a lemma in module `RouteTestCases`
that evaluates the model on that case's input and states the expected output.

Modules, one per file:

| file | module | contents |
|---|---|---|
| `wrappers.dfy` | `Wrappers` | `Option` |
| `strings.dfy` | `Strings` | decimal rendering and parsing, splitting at a separator, lexicographic order on strings |
| `dag.dfy` | `Dag` | the routing-graph input: service, cluster, retry and timeout policies, route |
| `envoy_api.dfy` | `EnvoyApi` | the Envoy v2 output messages, with optional fields as `Option` |
| `cluster_name.dfy` | `ClusterNaming` | cluster name format, parsing back, and injectivity |
| `weighted.dfy` | `Weighted` | the weighted split, its sort and its properties |
| `route.dfy` | `EnvoyRoute` | `RouteRoute`, the policy mappers and the auxiliary builders |
| `route_test_cases.dfy` | `RouteTestCases` | the test cases as lemmas |

Modelling choices:

- **Integers.** Durations are `int` nanoseconds, as Go's `time.Duration` is.
  Weights and retry counts are `nat`.
- **Optional fields.** Envoy's wrapper fields (`u32`, `duration`) are `Option`
  values, so "unset" stays distinct from "set to 0".
- **Digest.** SHA-1 is library code, so the model takes it as a parameter
  `h: string -> string`, applied to the cluster's configuration text. The test
  cases assume only that `h("") == "da39a3ee5e"`, the 10-character prefix of
  SHA-1 of the empty input (FIPS 180-4).
- **String order.** Go compares strings byte by byte. The model compares by
  character, which gives the same order on UTF-8 text.

## Behaviour the tests leave open

- **Entry order.** Weighted entries are sorted by (name, weight). The case at
  `internal/envoy/route_test.go:87-121` lists one service with weights
  {90, 0} and expects {0, 90}, so the entries do not keep the input order.
  Input whose entries are already in (name, weight) order keeps its order
  (`Weighted.SortedInputKeepsOrder`); input with strictly increasing cluster names is
  such input.
- **Zero clusters.** No case has a route without clusters. The model gives it
  the weighted form with an empty list and total 0 (`Weighted.NoClusters`).
- **Timeout sentinel.** The cases fix one sentinel, -1, which becomes an
  explicit 0. Every other value, including other negative values and 0, is
  copied unchanged.
- **Retry count and per-try timeout.** Once a retry condition is named, the
  count and the per-try timeout are always emitted as present values, a
  count of 0 and a per-try timeout of 0 or below included, rather than left
  unset. The cases at `internal/envoy/route_test.go:161-199` use only
  positive values, and for these fields "unset" and "set to 0" differ.

## Model

| member | source | states |
|---|---|---|
| ClusterNaming.ClusterName | internal/envoy/route_test.go:64 | the name namespace "/" name "/" decimal port "/" digest; for namespace and name without '/' it reads back into exactly those components (with ParseFormat and ClusterNameInjective: different components give different names) |
| Strings.IntToString | internal/envoy/route_test.go:64 | the decimal rendering of the port: a '-' or digits only; ParseIntToString reads it back to the same number and IntToStringInjective keeps distinct ports distinct |
| Strings.ParseIntToString | internal/envoy/route_test.go:379-386 | reading the decimal rendering of a number gives that number back |
| Weighted.Entries | internal/envoy/route_test.go:311-351 | one entry per cluster, in input order, each the cluster's name with its effective weight; WeightedClustersEntries carries this through the sort |
| Weighted.EntryLe | internal/envoy/route_test.go:105-116 | the entry order, by name and then by ascending weight: entries in this order are in name order; EntryLeTotal, EntryLeAntisymmetric and EntryLeTransitive make it a total order |
| ClusterNaming.DefaultClusterName | internal/envoy/route_test.go:64 | a cluster with the default configuration is named namespace "/" name "/" decimal port "/" da39a3ee5e |
| ClusterNaming.ParseFormat | internal/envoy/route_test.go:64 | a cluster name reads back into namespace, name, port and digest when namespace and name contain no '/' |
| ClusterNaming.ClusterNameInjective | internal/envoy/route_test.go:64 | for namespaces and names without '/', two clusters get the same name if and only if namespace, name, port and digest all agree |
| ClusterNaming.ClusterNameIgnoresWeight | internal/envoy/route_test.go:91-104 | the weight plays no part in the name, so one service listed twice with different weights yields the same name twice |
| Weighted.SortEntries | internal/envoy/route_test.go:105-116 | the entries come out sorted by (name, weight) and are a permutation of the input entries |
| Weighted.Insert | internal/envoy/route_test.go:105-116 | inserting an entry adds exactly that entry to the multiset |
| Weighted.InsertSorted | internal/envoy/route_test.go:105-116 | inserting into a sorted list keeps it sorted |
| Weighted.EntryLeTotal | internal/envoy/route_test.go:105-116 | any two entries are comparable under the (name, weight) order |
| Weighted.EntryLeAntisymmetric | internal/envoy/route_test.go:105-116 | entries that are ordered both ways are equal |
| Weighted.EntryLeTransitive | internal/envoy/route_test.go:105-116 | the (name, weight) order is transitive |
| Weighted.SortedUnique | internal/envoy/route_test.go:105-116 | two sorted lists with the same multiset coincide, so the sorted output is determined by its entries |
| Weighted.SortEntriesOfSorted | internal/envoy/route_test.go:270-276 | sorting entries that are already in order leaves them unchanged |
| Weighted.WeightedClusters | internal/envoy/route_test.go:246-363 | output sorted; entries a permutation of one (name, effective weight) per cluster; total = number of clusters when all weights are 0, else the declared sum; total = sum of entry weights; total fits uint32; total > 0 when there is a cluster |
| Weighted.WeightedClustersEntries | internal/envoy/route_test.go:311-351 | one entry per cluster; each cluster's entry carries its name and weight 1 when all weights are 0, else its declared weight, so a declared 0 stays 0; every entry comes from a cluster |
| Weighted.AllZeroEqualizes | internal/envoy/route_test.go:251-278 | when no weight is declared every entry has weight 1 |
| Weighted.SortedInputKeepsOrder | internal/envoy/route_test.go:270-276 | clusters whose entries are already in (name, weight) order keep their order |
| Weighted.WeightedClustersOrderIndependent | internal/envoy/route_test.go:87-121 | any reordering of the clusters gives the same weighted output |
| Weighted.NoClusters | internal/envoy/route_test.go:357 | no clusters give an empty list with total 0 (outside the tested surface) |
| Weighted.DeclaredTotalZero | internal/envoy/route_test.go:251-278 | the declared total is 0 exactly when every declared weight is 0 |
| Weighted.WeightSumPermutation | internal/envoy/route_test.go:105-116 | reordering entries keeps their weight sum |
| Weighted.WeightSumOfEntries | internal/envoy/route_test.go:280-310 | under the all-zero rule the entries' weights sum to the number of clusters, otherwise to the declared total |
| Weighted.EntriesPermutation | internal/envoy/route_test.go:87-121 | reordering the clusters reorders their entries |
| EnvoyRoute.RetryPolicy | internal/envoy/route_test.go:161-199 | the retry field is present if and only if a policy with non-empty RetryOn is given; RetryOn, NumRetries and PerTryTimeout are then copied |
| EnvoyRoute.Timeout | internal/envoy/route_test.go:200-233 | no field if and only if no policy; -1 gives an explicit 0; any other timeout is copied |
| EnvoyRoute.UpgradeConfigs | internal/envoy/route_test.go:70-86 | exactly one config, of type "websocket", for a websocket route, and none otherwise |
| EnvoyRoute.TimeoutMeansRequested | internal/envoy/route_test.go:200-233 | for no policy and every timeout other than 0 (-1 included), Envoy's reading of the field is what the policy asks for |
| EnvoyRoute.RouteRoute | internal/envoy/route_test.go:51-233 | always a route action; the single-cluster form if and only if there is exactly one cluster, naming it; otherwise the weighted split of the clusters; retry, timeout and upgrade fields from the mappers |
| EnvoyRoute.SingleClusterIgnoresWeight | internal/envoy/route_test.go:43-68 | a single cluster's weight does not change the route action |
| EnvoyRoute.WebsocketAddsOneUpgrade | internal/envoy/route_test.go:122-160 | turning websocket on adds exactly the one "websocket" config and changes nothing else, in both forms |
| EnvoyRoute.RouteRouteIgnoresPrefix | internal/envoy/route_test.go:161-176 | the prefix does not affect the route action |
| EnvoyRoute.WeightedFormConsistent | internal/envoy/route_test.go:105-117 | in the weighted form the total is the sum of the entries, there is one entry per cluster, and the total is positive when there is a cluster |
| EnvoyRoute.VirtualHost | internal/envoy/route_test.go:365-396 | the name is the hostname and the hostname is among the domains |
| EnvoyRoute.VirtualHostServes | internal/envoy/route_test.go:379-386 | "*" serves every host; any other virtual host serves exactly its hostname, bare or with ":" and the port |
| EnvoyRoute.VirtualHostDomainsRoundTrip | internal/envoy/route_test.go:371-386 | for a hostname without ':': "*" has the single domain "*"; any other hostname has two domains, which read back as (hostname, no port) and (hostname, port) |
| EnvoyRoute.PrefixMatch | internal/envoy/route_test.go:398-410 | a prefix match carrying the given prefix unchanged |
| EnvoyRoute.UpgradeHTTPS | internal/envoy/route_test.go:412-425 | a redirect with HttpsRedirect true and no host or path rewrite |
| RouteTestCases.ExpectedNamesSpelled | internal/envoy/route_test.go:340-349 | the expected names are "default/kuard/8080/da39a3ee5e", "default/nginx/8080/da39a3ee5e" and "default/notraffic/8080/da39a3ee5e" |
| RouteTestCases.ServicePair | internal/envoy/route_test.go:251-310 | two services of the default namespace whose names first differ at a position where the first is smaller (neither is a prefix of the other) keep their order, with weights 1 each when undeclared and their declared weights otherwise |
| RouteTestCases.SameServiceTwice | internal/envoy/route_test.go:87-121 | one service listed twice, heavier entry first and weights not both 0, comes out with the lighter entry first and the sum of the weights as total |
| RouteTestCases.ServiceTriple | internal/envoy/route_test.go:311-352 | three services whose names first differ, each from the next, at a position where the earlier is smaller (none a prefix of the next) keep their order, with the weights the split gives them |
| RouteTestCases.SingleService | internal/envoy/route_test.go:56-68 | case "single service" |
| RouteTestCases.Websocket | internal/envoy/route_test.go:70-86 | case "websocket" |
| RouteTestCases.MultipleSplit | internal/envoy/route_test.go:87-121 | the weighted split of case "multiple": {90, 0} comes out as {0, 90}, total 90 |
| RouteTestCases.Multiple | internal/envoy/route_test.go:87-121 | case "multiple" |
| RouteTestCases.MultipleWebsocket | internal/envoy/route_test.go:122-160 | case "multiple websocket" |
| RouteTestCases.WithoutRetryOn | internal/envoy/route_test.go:161-176 | case "single service without retry-on" |
| RouteTestCases.RetryOn503 | internal/envoy/route_test.go:177-199 | case "retry-on: 503" |
| RouteTestCases.Timeout90s | internal/envoy/route_test.go:200-216 | case "timeout 90s" |
| RouteTestCases.TimeoutInfinity | internal/envoy/route_test.go:217-233 | case "timeout infinity" |
| RouteTestCases.ServicesWithoutWeights | internal/envoy/route_test.go:251-279 | case "multiple services w/o weights" |
| RouteTestCases.MultipleWeightedServices | internal/envoy/route_test.go:280-310 | case "multiple weighted services" |
| RouteTestCases.WeightedServicesAndOneUnweighted | internal/envoy/route_test.go:311-352 | case "multiple weighted services and one with no weight specified" |
| RouteTestCases.DefaultHostname | internal/envoy/route_test.go:371-378 | case "default hostname" |
| RouteTestCases.ExampleHostname | internal/envoy/route_test.go:379-386 | case "www.example.com" |
| RouteTestCases.PrefixKang | internal/envoy/route_test.go:398-410 | TestPrefixMatch |
| RouteTestCases.HttpsRedirect | internal/envoy/route_test.go:412-425 | TestUpgradeHTTPS |

## Left out

- The production code of package `envoy` (`route.go`, `cluster.go`) is not part of this model. The model is built from the behaviour its tests fix.
- SHA-1 is not computed. The digest is a parameter. The test cases use only its value on the empty configuration.
- Weighted.WeightedClusters: does not model uint32 wrap-around of the total. Callers must establish `TotalFitsUint32`, and `RouteRoute` requires it only when it uses the weighted form.
- EnvoyRoute.RetryPolicy: does not model the narrowing of the retry count to uint32. The count is copied as an unbounded `nat`.
- Envoy's `(seconds, nanos)` duration encoding is a representation detail. Durations stay integer nanoseconds.
- Kubernetes types (`v1.Service`, `ServicePort`, `intstr`) are reduced to namespace, name and numeric port.
- Go-control-plane messages are reduced to the fields the tests compare. The protobuf wrappers `u32` and `duration` become `Option`.
- The test harness (`t.Run`, `cmp.Diff`) and Go's map iteration order are not modelled. Each case is an independent lemma.
- EnvoyRoute.TimeoutMeansRequested: a timeout of 0 is copied as 0, which Envoy reads as "no timeout" rather than "time out at once". No test fixes that case, so the lemma covers every policy except a timeout of 0.
