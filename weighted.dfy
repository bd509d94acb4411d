/** Weighted distribution: the traffic split Envoy receives for a route with
    several target clusters. Declared weights are used as given, unless every
    one of them is 0, in which case each cluster gets weight 1. The entries
    are ordered by cluster name, ties broken by ascending weight. */
module Weighted {

  import opened Strings
  import opened ClusterNaming
  import Dag
  import Api = EnvoyApi

  const Uint32Limit: nat := 0x1_0000_0000

  /** Sum of the declared weights. */
  function DeclaredTotal(cs: seq<Dag.Cluster>): nat {
    if cs == [] then 0 else cs[0].weight + DeclaredTotal(cs[1..])
  }

  predicate AllWeightsZero(cs: seq<Dag.Cluster>) {
    forall i :: 0 <= i < |cs| ==> cs[i].weight == 0
  }

  /** The total weight, and with it every weight, is carried in a uint32 field. */
  predicate TotalFitsUint32(cs: seq<Dag.Cluster>) {
    DeclaredTotal(cs) < Uint32Limit && |cs| < Uint32Limit
  }

  function EffectiveWeight(c: Dag.Cluster, allZero: bool): nat {
    if allZero then 1 else c.weight
  }

  function Entry(h: Digest, c: Dag.Cluster, allZero: bool): Api.ClusterWeight {
    Api.ClusterWeight(ClusterName(h, c), EffectiveWeight(c, allZero))
  }

  /** The second pass: one entry per cluster, in input order. */
  function Entries(h: Digest, cs: seq<Dag.Cluster>, allZero: bool): (es: seq<Api.ClusterWeight>)
    ensures |es| == |cs|
    ensures forall i :: 0 <= i < |cs| ==> es[i] == Entry(h, cs[i], allZero)
  {
    if cs == [] then [] else [Entry(h, cs[0], allZero)] + Entries(h, cs[1..], allZero)
  }

  function WeightSum(es: seq<Api.ClusterWeight>): nat {
    if es == [] then 0 else es[0].weight + WeightSum(es[1..])
  }

  // ---------------------------------------------------------------------
  // The order of entries: by cluster name, ties broken by ascending weight.

  /** Entries in this order are in name order; equal names go by weight. */
  predicate EntryLe(x: Api.ClusterWeight, y: Api.ClusterWeight): (le: bool)
    ensures le ==> LexLe(x.name, y.name)
  {
    if x.name == y.name then LexLeReflexive(x.name); x.weight <= y.weight
    else LexLe(x.name, y.name)
  }

  lemma EntryLeTotal(x: Api.ClusterWeight, y: Api.ClusterWeight)
    ensures EntryLe(x, y) || EntryLe(y, x)
  {
    LexLeTotal(x.name, y.name);
  }

  lemma EntryLeAntisymmetric(x: Api.ClusterWeight, y: Api.ClusterWeight)
    requires EntryLe(x, y) && EntryLe(y, x)
    ensures x == y
  {
    if x.name != y.name { LexLeAntisymmetric(x.name, y.name); }
  }

  lemma EntryLeTransitive(x: Api.ClusterWeight, y: Api.ClusterWeight, z: Api.ClusterWeight)
    requires EntryLe(x, y) && EntryLe(y, z)
    ensures EntryLe(x, z)
  {
    if x.name == z.name && x.name != y.name {
      LexLeAntisymmetric(x.name, y.name);
    } else if x.name != y.name && y.name != z.name {
      LexLeTransitive(x.name, y.name, z.name);
    }
  }

  predicate Sorted(es: seq<Api.ClusterWeight>) {
    forall i, j :: 0 <= i < j < |es| ==> EntryLe(es[i], es[j])
  }

  function Insert(x: Api.ClusterWeight, es: seq<Api.ClusterWeight>): (r: seq<Api.ClusterWeight>)
    ensures multiset(r) == multiset(es) + multiset{x}
  {
    if es == [] then [x]
    else if EntryLe(x, es[0]) then [x] + es
    else
      assert es == [es[0]] + es[1..];
      [es[0]] + Insert(x, es[1..])
  }

  lemma {:induction false} InsertSorted(x: Api.ClusterWeight, es: seq<Api.ClusterWeight>)
    requires Sorted(es)
    ensures Sorted(Insert(x, es))
  {
    if es == [] {
    } else if EntryLe(x, es[0]) {
      var r := [x] + es;
      forall i, j | 0 <= i < j < |r| ensures EntryLe(r[i], r[j]) {
        if i == 0 && j > 1 { EntryLeTransitive(x, es[0], es[j - 1]); }
      }
    } else {
      EntryLeTotal(x, es[0]);
      var tail := es[1..];
      InsertSorted(x, tail);
      var t := Insert(x, tail);
      var r := [es[0]] + t;
      forall i, j | 0 <= i < j < |r| ensures EntryLe(r[i], r[j]) {
        if i == 0 {
          var e := t[j - 1];
          assert e in multiset(t);
          if e != x {
            assert e in multiset(tail);
            var k :| 0 <= k < |tail| && tail[k] == e;
            assert es[k + 1] == e;
          }
        }
      }
    }
  }

  /** The entries in (name, weight) order: sorted, and a permutation of its input. */
  function SortEntries(es: seq<Api.ClusterWeight>): (r: seq<Api.ClusterWeight>)
    ensures Sorted(r)
    ensures multiset(r) == multiset(es)
  {
    if es == [] then []
    else
      var t := SortEntries(es[1..]);
      InsertSorted(es[0], t);
      assert es == [es[0]] + es[1..];
      Insert(es[0], t)
  }

  /** Taking out one element of a sequence takes it out of its multiset. */
  lemma {:induction false} RemoveAt<T>(b: seq<T>, j: nat)
    requires j < |b|
    ensures multiset(b[..j] + b[j + 1..]) == multiset(b) - multiset{b[j]}
  {
    assert b == b[..j] + [b[j]] + b[j + 1..];
    assert multiset(b) == multiset(b[..j]) + multiset{b[j]} + multiset(b[j + 1..]);
  }

  lemma SortedHeadIsLeast(a: seq<Api.ClusterWeight>, x: Api.ClusterWeight)
    requires Sorted(a) && x in multiset(a)
    ensures EntryLe(a[0], x)
  {
    var k :| 0 <= k < |a| && a[k] == x;
    if k > 0 { assert EntryLe(a[0], a[k]); }
  }

  /** A sorted permutation is unique, since the order is total and antisymmetric:
      whatever algorithm sorts the entries, stable or not, gives this result. */
  lemma {:induction false} SortedUnique(a: seq<Api.ClusterWeight>, b: seq<Api.ClusterWeight>)
    requires Sorted(a) && Sorted(b) && multiset(a) == multiset(b)
    ensures a == b
  {
    if a == [] {
      assert |b| == |multiset(b)| == 0;
    } else {
      assert a[0] in multiset(b);
      assert b != [];
      SortedHeadIsLeast(b, a[0]);
      SortedHeadIsLeast(a, b[0]);
      EntryLeAntisymmetric(a[0], b[0]);
      assert multiset(a[1..]) == multiset(a) - multiset{a[0]} by { assert a == [a[0]] + a[1..]; }
      assert multiset(b[1..]) == multiset(b) - multiset{b[0]} by { assert b == [b[0]] + b[1..]; }
      SortedUnique(a[1..], b[1..]);
      assert a == [a[0]] + a[1..];
      assert b == [b[0]] + b[1..];
    }
  }

  lemma SortEntriesOfSorted(es: seq<Api.ClusterWeight>)
    requires Sorted(es)
    ensures SortEntries(es) == es
  {
    SortedUnique(SortEntries(es), es);
  }

  // ---------------------------------------------------------------------
  // Sums.

  lemma {:induction false} DeclaredTotalZero(cs: seq<Dag.Cluster>)
    ensures DeclaredTotal(cs) == 0 <==> AllWeightsZero(cs)
  {
    if cs != [] {
      DeclaredTotalZero(cs[1..]);
      assert forall i :: 1 <= i < |cs| ==> cs[i] == cs[1..][i - 1];
    }
  }

  lemma {:induction false} WeightSumConcat(a: seq<Api.ClusterWeight>, b: seq<Api.ClusterWeight>)
    ensures WeightSum(a + b) == WeightSum(a) + WeightSum(b)
  {
    if a == [] {
      assert a + b == b;
    } else {
      assert (a + b)[1..] == a[1..] + b;
      WeightSumConcat(a[1..], b);
    }
  }

  /** The sum of the weights does not depend on the order of the entries. */
  lemma {:induction false} WeightSumPermutation(a: seq<Api.ClusterWeight>, b: seq<Api.ClusterWeight>)
    requires multiset(a) == multiset(b)
    ensures WeightSum(a) == WeightSum(b)
  {
    if a == [] {
      assert |b| == |multiset(b)| == 0;
    } else {
      var x := a[0];
      assert x in multiset(b);
      var j :| 0 <= j < |b| && b[j] == x;
      var rest := b[..j] + b[j + 1..];
      RemoveAt(b, j);
      assert multiset(a[1..]) == multiset(a) - multiset{x} by { assert a == [x] + a[1..]; }
      WeightSumPermutation(a[1..], rest);
      WeightSumRemove(b, j);
    }
  }

  lemma {:induction false} WeightSumRemove(b: seq<Api.ClusterWeight>, j: nat)
    requires j < |b|
    ensures WeightSum(b) == b[j].weight + WeightSum(b[..j] + b[j + 1..])
  {
    var tail := [b[j]] + b[j + 1..];
    assert b == b[..j] + tail;
    WeightSumConcat(b[..j], tail);
    assert tail[1..] == b[j + 1..];
    WeightSumConcat(b[..j], b[j + 1..]);
  }

  lemma {:induction false} WeightSumOfEntries(h: Digest, cs: seq<Dag.Cluster>, allZero: bool)
    ensures WeightSum(Entries(h, cs, allZero)) == if allZero then |cs| else DeclaredTotal(cs)
  {
    if cs != [] {
      WeightSumOfEntries(h, cs[1..], allZero);
    }
  }

  // ---------------------------------------------------------------------
  // weightedClusters.

  /** weightedClusters: the first pass decides whether any weight was
      declared, the second emits the entries, which are then sorted. */
  function WeightedClusters(h: Digest, cs: seq<Dag.Cluster>): (r: Api.WeightedCluster)
    requires TotalFitsUint32(cs)
    ensures Sorted(r.clusters)
    ensures multiset(r.clusters) == multiset(Entries(h, cs, AllWeightsZero(cs)))
    ensures AllWeightsZero(cs) ==> r.totalWeight == |cs|
    ensures !AllWeightsZero(cs) ==> r.totalWeight == DeclaredTotal(cs)
    ensures r.totalWeight == WeightSum(r.clusters)
    ensures r.totalWeight < Uint32Limit
    ensures |cs| > 0 ==> r.totalWeight > 0
  {
    var allZero := DeclaredTotal(cs) == 0;
    DeclaredTotalZero(cs);
    var entries := Entries(h, cs, allZero);
    var total := if allZero then |cs| else DeclaredTotal(cs);
    var sorted := SortEntries(entries);
    WeightSumOfEntries(h, cs, allZero);
    WeightSumPermutation(sorted, entries);
    Api.WeightedCluster(sorted, total)
  }

  /** Every cluster of the route has an entry under its own name, with weight 1
      when no weight was declared and its declared weight otherwise (a declared
      0 among nonzero weights stays 0); and every entry comes from a cluster. */
  lemma WeightedClustersEntries(h: Digest, cs: seq<Dag.Cluster>)
    requires TotalFitsUint32(cs)
    ensures var r := WeightedClusters(h, cs);
      && |r.clusters| == |cs|
      && (forall i :: 0 <= i < |cs| ==>
            Api.ClusterWeight(ClusterName(h, cs[i]), if AllWeightsZero(cs) then 1 else cs[i].weight) in r.clusters)
      && (forall e :: e in r.clusters ==>
            exists i :: 0 <= i < |cs| && e == Entry(h, cs[i], AllWeightsZero(cs)))
  {
    var r := WeightedClusters(h, cs);
    var es := Entries(h, cs, AllWeightsZero(cs));
    assert |r.clusters| == |multiset(r.clusters)| == |multiset(es)| == |cs|;
    forall i | 0 <= i < |cs|
      ensures Api.ClusterWeight(ClusterName(h, cs[i]), if AllWeightsZero(cs) then 1 else cs[i].weight) in r.clusters
    {
      assert es[i] in multiset(r.clusters);
    }
    forall e | e in r.clusters
      ensures exists i :: 0 <= i < |cs| && e == Entry(h, cs[i], AllWeightsZero(cs))
    {
      assert e in multiset(es);
      var i :| 0 <= i < |es| && es[i] == e;
    }
  }

  /** With no weight declared, traffic is split evenly: every entry has weight 1. */
  lemma AllZeroEqualizes(h: Digest, cs: seq<Dag.Cluster>)
    requires TotalFitsUint32(cs) && AllWeightsZero(cs)
    ensures forall e :: e in WeightedClusters(h, cs).clusters ==> e.weight == 1
  {
    WeightedClustersEntries(h, cs);
  }

  /** When the clusters' entries already come in (name, weight) order, the
      output keeps the input order. */
  lemma SortedInputKeepsOrder(h: Digest, cs: seq<Dag.Cluster>)
    requires TotalFitsUint32(cs) && Sorted(Entries(h, cs, AllWeightsZero(cs)))
    ensures WeightedClusters(h, cs).clusters == Entries(h, cs, AllWeightsZero(cs))
  {
    SortedUnique(WeightedClusters(h, cs).clusters, Entries(h, cs, AllWeightsZero(cs)));
  }

  lemma EntriesConcat(h: Digest, a: seq<Dag.Cluster>, b: seq<Dag.Cluster>, allZero: bool)
    ensures Entries(h, a + b, allZero) == Entries(h, a, allZero) + Entries(h, b, allZero)
  {
  }

  lemma {:induction false} EntriesPermutation(h: Digest, a: seq<Dag.Cluster>, b: seq<Dag.Cluster>, allZero: bool)
    requires multiset(a) == multiset(b)
    ensures multiset(Entries(h, a, allZero)) == multiset(Entries(h, b, allZero))
  {
    if a == [] {
      assert |b| == |multiset(b)| == 0;
    } else {
      var x := a[0];
      assert x in multiset(b);
      var j :| 0 <= j < |b| && b[j] == x;
      var rest := b[..j] + b[j + 1..];
      RemoveAt(b, j);
      assert multiset(a[1..]) == multiset(a) - multiset{x} by { assert a == [x] + a[1..]; }
      EntriesPermutation(h, a[1..], rest, allZero);
      EntriesRemove(h, b, j, allZero);
      assert Entries(h, a, allZero) == [Entry(h, x, allZero)] + Entries(h, a[1..], allZero);
    }
  }

  lemma {:induction false} EntriesRemove(h: Digest, b: seq<Dag.Cluster>, j: nat, allZero: bool)
    requires j < |b|
    ensures multiset(Entries(h, b, allZero))
         == multiset{Entry(h, b[j], allZero)} + multiset(Entries(h, b[..j] + b[j + 1..], allZero))
  {
    var tail := [b[j]] + b[j + 1..];
    assert b == b[..j] + tail;
    EntriesConcat(h, b[..j], tail, allZero);
    assert tail[1..] == b[j + 1..];
    assert Entries(h, tail, allZero) == [Entry(h, b[j], allZero)] + Entries(h, b[j + 1..], allZero);
    EntriesConcat(h, b[..j], b[j + 1..], allZero);
  }

  /** The split depends only on which clusters the route has, not on the
      order in which the routing graph lists them. */
  lemma WeightedClustersOrderIndependent(h: Digest, cs: seq<Dag.Cluster>, ds: seq<Dag.Cluster>)
    requires TotalFitsUint32(cs) && TotalFitsUint32(ds)
    requires multiset(cs) == multiset(ds)
    ensures WeightedClusters(h, cs) == WeightedClusters(h, ds)
  {
    assert AllWeightsZero(cs) <==> AllWeightsZero(ds) by {
      forall i | 0 <= i < |ds| ensures AllWeightsZero(cs) ==> ds[i].weight == 0 {
        assert ds[i] in multiset(cs);
      }
      forall i | 0 <= i < |cs| ensures AllWeightsZero(ds) ==> cs[i].weight == 0 {
        assert cs[i] in multiset(ds);
      }
    }
    var z := AllWeightsZero(cs);
    EntriesPermutation(h, cs, ds, z);
    SortedUnique(WeightedClusters(h, cs).clusters, WeightedClusters(h, ds).clusters);
    assert |cs| == |multiset(cs)| == |ds|;
    WeightSumOfEntries(h, cs, false);
    WeightSumOfEntries(h, ds, false);
    EntriesPermutation(h, cs, ds, false);
    WeightSumPermutation(Entries(h, cs, false), Entries(h, ds, false));
  }

  /** A route without clusters (outside what the tests exercise) gets an empty
      weighted list with total 0. */
  lemma NoClusters(h: Digest)
    ensures WeightedClusters(h, []) == Api.WeightedCluster([], 0)
  {
    assert multiset(WeightedClusters(h, []).clusters) == multiset{};
  }
}
