/** The table-driven cases of internal/envoy/route_test.go, each evaluated on
    the model. Every cluster in them has the default configuration, so its
    digest is the SHA-1 prefix of the empty input. Cases on several clusters
    also state that the weight total fits the uint32 field. */
module RouteTestCases {

  import opened Wrappers
  import opened Strings
  import opened ClusterNaming
  import opened Weighted
  import opened EnvoyRoute
  import Dag
  import Api = EnvoyApi

  /** A cluster for service `name` in namespace default, port 8080. */
  function Service(name: string, weight: nat): Dag.Cluster {
    Dag.Cluster(Dag.TCPService("default", name, 8080), weight, "")
  }

  /** The fixture c1: service kuard, no weight. */
  const C1: Dag.Cluster := Service("kuard", 0)

  /** The cluster name of service `name` in namespace default, port 8080, default configuration. */
  function DefaultName(name: string): string {
    "default/" + name + "/8080/" + EmptyDigest
  }

  const KuardName: string := DefaultName("kuard")
  const NginxName: string := DefaultName("nginx")
  const NotrafficName: string := DefaultName("notraffic")

  /** The expected names, spelled out as the test cases write them. */
  lemma ExpectedNamesSpelled()
    ensures KuardName == "default/kuard/8080/da39a3ee5e"
    ensures NginxName == "default/nginx/8080/da39a3ee5e"
    ensures NotrafficName == "default/notraffic/8080/da39a3ee5e"
  {
  }

  function Plain(prefix: string): Dag.Route {
    Dag.Route(prefix, false, None, None)
  }

  function Action(specifier: Api.ClusterSpecifier, retry: Option<Api.RetryPolicy>, timeout: Option<int>,
                  upgrades: seq<Api.UpgradeConfig>): Api.Action {
    Api.Route(Api.RouteAction(specifier, retry, timeout, upgrades))
  }

  lemma ServiceName(h: Digest, name: string, weight: nat)
    requires KnowsEmptyDigest(h)
    ensures ClusterName(h, Service(name, weight)) == DefaultName(name)
  {
    assert IntToString(8080) == "8080";
  }

  lemma TwoClusters(a: Dag.Cluster, b: Dag.Cluster)
    ensures DeclaredTotal([a, b]) == a.weight + b.weight
  {
    assert [b][1..] == [];
    assert DeclaredTotal([b]) == b.weight;
    assert [a, b][1..] == [b];
    assert DeclaredTotal([a, b]) == a.weight + DeclaredTotal([b]);
  }

  lemma ThreeClusters(a: Dag.Cluster, b: Dag.Cluster, c: Dag.Cluster)
    ensures DeclaredTotal([a, b, c]) == a.weight + b.weight + c.weight
  {
    assert [a, b, c][1..] == [b, c];
    TwoClusters(b, c);
    assert DeclaredTotal([a, b, c]) == a.weight + DeclaredTotal([b, c]);
  }

  /** Services of namespace default on port 8080 whose names first differ at
      `k` (neither a prefix of the other) are ordered as those names are: the
      cluster names share the prefix "default/" and, whatever the digest,
      first differ where the service names do. */
  lemma ServiceBefore(h: Digest, a: string, wa: nat, b: string, wb: nat, k: nat, z: bool)
    requires FirstDifferenceAt(a, b, k)
    ensures EntryLe(Entry(h, Service(a, wa), z), Entry(h, Service(b, wb), z))
  {
    var rest := "/" + IntToString(8080) + "/" + h("");
    var x, y := Entry(h, Service(a, wa), z), Entry(h, Service(b, wb), z);
    ServiceNameShape(h, a, wa);
    ServiceNameShape(h, b, wb);
    DifferAfterPrefix("default/", a, b, rest, k);
    assert x.name != y.name && LexLe(x.name, y.name);
  }

  lemma ServiceNameShape(h: Digest, name: string, weight: nat)
    ensures ClusterName(h, Service(name, weight)) == "default/" + name + ("/" + IntToString(8080) + "/" + h(""))
  {
  }

  /** Strings made of one prefix, a differing middle and one suffix are ordered
      by their middles' first difference. */
  lemma DifferAfterPrefix(p: string, a: string, b: string, r: string, k: nat)
    requires FirstDifferenceAt(a, b, k)
    ensures LexLe(p + a + r, p + b + r) && p + a + r != p + b + r
  {
    var x, y := p + a + r, p + b + r;
    assert FirstDifferenceAt(x, y, |p| + k) by {
      forall i | 0 <= i < |p| + k ensures x[i] == y[i] {
        if i >= |p| { assert a[i - |p|] == b[i - |p|]; }
      }
    }
    LexLeAtFirstDifference(x, y, |p| + k);
  }

  /** Two clusters whose entries are already in order keep that order. */
  lemma PairInOrder(h: Digest, a: Dag.Cluster, b: Dag.Cluster)
    requires TotalFitsUint32([a, b])
    requires var z := AllWeightsZero([a, b]); EntryLe(Entry(h, a, z), Entry(h, b, z))
    ensures var z := AllWeightsZero([a, b]);
      WeightedClusters(h, [a, b]).clusters == [Entry(h, a, z), Entry(h, b, z)]
  {
    var z := AllWeightsZero([a, b]);
    assert Entries(h, [a, b], z) == [Entry(h, a, z), Entry(h, b, z)];
    SortedInputKeepsOrder(h, [a, b]);
  }

  /** Where the fixture service names first differ. */
  lemma ServiceNamesDiffer()
    ensures FirstDifferenceAt("kuard", "nginx", 0)
    ensures FirstDifferenceAt("nginx", "notraffic", 1)
  {
  }

  /** Two services whose names first differ at position `k`, in order there,
      are listed in that order, with weight 1 each when neither declares a
      weight and their declared weights otherwise. */
  lemma ServicePair(h: Digest, a: string, wa: nat, b: string, wb: nat, k: nat)
    requires KnowsEmptyDigest(h)
    requires FirstDifferenceAt(a, b, k)
    requires wa + wb < Uint32Limit
    ensures var cs := [Service(a, wa), Service(b, wb)];
      var z := wa + wb == 0;
      && TotalFitsUint32(cs)
      && WeightedClusters(h, cs)
         == Api.WeightedCluster([Api.ClusterWeight(DefaultName(a), if z then 1 else wa),
                                 Api.ClusterWeight(DefaultName(b), if z then 1 else wb)],
                                if z then 2 else wa + wb)
  {
    var cs := [Service(a, wa), Service(b, wb)];
    TwoClusters(cs[0], cs[1]);
    var z := AllWeightsZero(cs);
    ServiceBefore(h, a, wa, b, wb, k, z);
    PairInOrder(h, cs[0], cs[1]);
    ServiceName(h, a, wa);
    ServiceName(h, b, wb);
  }

  /** One service listed twice with weights `wa` and `wb <= wa`, not both 0:
      the two entries share its name and come out lighter first. */
  lemma SameServiceTwice(h: Digest, a: string, wa: nat, wb: nat)
    requires KnowsEmptyDigest(h)
    requires 0 < wa && wb <= wa && wa + wb < Uint32Limit
    ensures var cs := [Service(a, wa), Service(a, wb)];
      && TotalFitsUint32(cs)
      && WeightedClusters(h, cs)
         == Api.WeightedCluster([Api.ClusterWeight(DefaultName(a), wb), Api.ClusterWeight(DefaultName(a), wa)],
                                wa + wb)
  {
    var cs, ds := [Service(a, wa), Service(a, wb)], [Service(a, wb), Service(a, wa)];
    TwoClusters(cs[0], cs[1]);
    TwoClusters(ds[0], ds[1]);
    assert !AllWeightsZero(ds);
    assert multiset(cs) == multiset(ds);
    WeightedClustersOrderIndependent(h, cs, ds);
    ServiceName(h, a, wa);
    ServiceName(h, a, wb);
    PairInOrder(h, ds[0], ds[1]);
  }

  /** Three clusters whose entries are already in order keep that order. */
  lemma TripleInOrder(h: Digest, a: Dag.Cluster, b: Dag.Cluster, c: Dag.Cluster)
    requires TotalFitsUint32([a, b, c])
    requires var z := AllWeightsZero([a, b, c]);
      EntryLe(Entry(h, a, z), Entry(h, b, z)) && EntryLe(Entry(h, b, z), Entry(h, c, z))
    ensures var z := AllWeightsZero([a, b, c]);
      WeightedClusters(h, [a, b, c]).clusters == [Entry(h, a, z), Entry(h, b, z), Entry(h, c, z)]
  {
    var z := AllWeightsZero([a, b, c]);
    EntryLeTransitive(Entry(h, a, z), Entry(h, b, z), Entry(h, c, z));
    assert Entries(h, [a, b, c], z) == [Entry(h, a, z), Entry(h, b, z), Entry(h, c, z)];
    SortedInputKeepsOrder(h, [a, b, c]);
  }

  /** Three services whose names are in order at their first differences are
      listed in that order, with the weights the mapping gives them. */
  lemma ServiceTriple(h: Digest, a: string, wa: nat, b: string, wb: nat, c: string, wc: nat,
                      k: nat, l: nat)
    requires KnowsEmptyDigest(h)
    requires FirstDifferenceAt(a, b, k)
    requires FirstDifferenceAt(b, c, l)
    requires wa + wb + wc < Uint32Limit
    ensures var cs := [Service(a, wa), Service(b, wb), Service(c, wc)];
      var z := wa + wb + wc == 0;
      && TotalFitsUint32(cs)
      && WeightedClusters(h, cs)
         == Api.WeightedCluster([Api.ClusterWeight(DefaultName(a), if z then 1 else wa),
                                 Api.ClusterWeight(DefaultName(b), if z then 1 else wb),
                                 Api.ClusterWeight(DefaultName(c), if z then 1 else wc)],
                                if z then 3 else wa + wb + wc)
  {
    var cs := [Service(a, wa), Service(b, wb), Service(c, wc)];
    ThreeClusters(cs[0], cs[1], cs[2]);
    var z := AllWeightsZero(cs);
    ServiceBefore(h, a, wa, b, wb, k, z);
    ServiceBefore(h, b, wb, c, wc, l, z);
    TripleInOrder(h, cs[0], cs[1], cs[2]);
    ServiceName(h, a, wa);
    ServiceName(h, b, wb);
    ServiceName(h, c, wc);
  }

  // TestRouteRoute

  lemma SingleService(h: Digest)
    requires KnowsEmptyDigest(h)
    ensures RouteRoute(h, Plain("/"), [C1]) == Action(Api.Cluster(KuardName), None, None, [])
  {
    ServiceName(h, "kuard", 0);
  }

  lemma Websocket(h: Digest)
    requires KnowsEmptyDigest(h)
    ensures RouteRoute(h, Plain("/").(websocket := true), [C1])
         == Action(Api.Cluster(KuardName), None, None, [Api.UpgradeConfig("websocket")])
  {
    ServiceName(h, "kuard", 0);
  }

  /** The same service twice, weights 90 and 0: the entries come out as 0, then 90. */
  lemma MultipleSplit(h: Digest)
    requires KnowsEmptyDigest(h)
    ensures var cs := [Service("kuard", 90), Service("kuard", 0)];
      && TotalFitsUint32(cs)
      && WeightedClusters(h, cs)
         == Api.WeightedCluster([Api.ClusterWeight(KuardName, 0), Api.ClusterWeight(KuardName, 90)], 90)
  {
    SameServiceTwice(h, "kuard", 90, 0);
  }

  lemma Multiple(h: Digest)
    requires KnowsEmptyDigest(h)
    ensures var cs := [Service("kuard", 90), Service("kuard", 0)];
      && TotalFitsUint32(cs)
      && RouteRoute(h, Plain("/"), cs)
         == Action(Api.WeightedClusters(Api.WeightedCluster(
              [Api.ClusterWeight(KuardName, 0), Api.ClusterWeight(KuardName, 90)], 90)), None, None, [])
  {
    MultipleSplit(h);
  }

  lemma MultipleWebsocket(h: Digest)
    requires KnowsEmptyDigest(h)
    ensures var cs := [Service("kuard", 90), Service("kuard", 0)];
      && TotalFitsUint32(cs)
      && RouteRoute(h, Plain("/").(websocket := true), cs)
         == Action(Api.WeightedClusters(Api.WeightedCluster(
              [Api.ClusterWeight(KuardName, 0), Api.ClusterWeight(KuardName, 90)], 90)),
              None, None, [Api.UpgradeConfig("websocket")])
  {
    MultipleSplit(h);
  }

  lemma WithoutRetryOn(h: Digest)
    requires KnowsEmptyDigest(h)
    ensures RouteRoute(h, Plain("").(retryPolicy := Some(Dag.RetryPolicy("", 7, 10 * Dag.Second))), [C1])
         == Action(Api.Cluster(KuardName), None, None, [])
  {
    ServiceName(h, "kuard", 0);
  }

  lemma RetryOn503(h: Digest)
    requires KnowsEmptyDigest(h)
    ensures RouteRoute(h, Plain("/").(retryPolicy := Some(Dag.RetryPolicy("503", 6, 100 * Dag.Millisecond))), [C1])
         == Action(Api.Cluster(KuardName), Some(Api.RetryPolicy("503", Some(6), Some(100 * Dag.Millisecond))), None, [])
  {
    ServiceName(h, "kuard", 0);
  }

  lemma Timeout90s(h: Digest)
    requires KnowsEmptyDigest(h)
    ensures RouteRoute(h, Plain("/").(timeoutPolicy := Some(Dag.TimeoutPolicy(90 * Dag.Second))), [C1])
         == Action(Api.Cluster(KuardName), None, Some(90 * Dag.Second), [])
  {
    ServiceName(h, "kuard", 0);
  }

  lemma TimeoutInfinity(h: Digest)
    requires KnowsEmptyDigest(h)
    ensures RouteRoute(h, Plain("/").(timeoutPolicy := Some(Dag.TimeoutPolicy(-1))), [C1])
         == Action(Api.Cluster(KuardName), None, Some(0), [])
  {
    ServiceName(h, "kuard", 0);
  }

  // TestWeightedClusters

  lemma ServicesWithoutWeights(h: Digest)
    requires KnowsEmptyDigest(h)
    ensures var cs := [Service("kuard", 0), Service("nginx", 0)];
      && TotalFitsUint32(cs)
      && WeightedClusters(h, cs)
         == Api.WeightedCluster([Api.ClusterWeight(KuardName, 1), Api.ClusterWeight(NginxName, 1)], 2)
  {
    ServiceNamesDiffer();
    ServicePair(h, "kuard", 0, "nginx", 0, 0);
  }

  lemma MultipleWeightedServices(h: Digest)
    requires KnowsEmptyDigest(h)
    ensures var cs := [Service("kuard", 80), Service("nginx", 20)];
      && TotalFitsUint32(cs)
      && WeightedClusters(h, cs)
         == Api.WeightedCluster([Api.ClusterWeight(KuardName, 80), Api.ClusterWeight(NginxName, 20)], 100)
  {
    ServiceNamesDiffer();
    ServicePair(h, "kuard", 80, "nginx", 20, 0);
  }

  /** A service without a weight among weighted ones gets weight 0, not 1. */
  lemma WeightedServicesAndOneUnweighted(h: Digest)
    requires KnowsEmptyDigest(h)
    ensures var cs := [Service("kuard", 80), Service("nginx", 20), Service("notraffic", 0)];
      && TotalFitsUint32(cs)
      && WeightedClusters(h, cs)
         == Api.WeightedCluster([Api.ClusterWeight(KuardName, 80), Api.ClusterWeight(NginxName, 20),
                                 Api.ClusterWeight(NotrafficName, 0)], 100)
  {
    ServiceNamesDiffer();
    ServiceTriple(h, "kuard", 80, "nginx", 20, "notraffic", 0, 0, 1);
  }

  // TestVirtualHost, TestPrefixMatch, TestUpgradeHTTPS

  lemma DefaultHostname()
    ensures VirtualHost("*", 9999) == Api.VirtualHost("*", ["*"])
  {
  }

  lemma ExampleHostname()
    ensures VirtualHost("www.example.com", 9999)
         == Api.VirtualHost("www.example.com", ["www.example.com", "www.example.com:9999"])
  {
    assert IntToString(9999) == "9999";
    assert "www.example.com" + ":" + "9999" == "www.example.com:9999";
    assert "www.example.com" != "*";
  }

  lemma PrefixKang()
    ensures PrefixMatch("/kang") == Api.RouteMatch(Api.Prefix("/kang"))
  {
  }

  lemma HttpsRedirect()
    ensures UpgradeHTTPS() == Api.Redirect(Api.RedirectAction("", "", Some(Api.HttpsRedirect(true))))
  {
  }
}
