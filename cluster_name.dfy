/** Cluster identity: the name under which a cluster of the routing graph is
    known to Envoy, "<namespace>/<name>/<port>/<digest>", where the digest is
    the first 10 hex characters of the SHA-1 of the cluster's configuration. */
module ClusterNaming {

  import opened Wrappers
  import opened Strings
  import Dag

  /** The digest of a cluster's configuration text. SHA-1 is library code, so
      the model takes the digest function as a parameter. */
  type Digest = string -> string

  /** The first 10 hex characters of SHA-1 of the empty input (FIPS 180-4). */
  const EmptyDigest: string := "da39a3ee5e"

  /** The digest function the translator uses agrees with SHA-1 on the default configuration. */
  predicate KnowsEmptyDigest(h: Digest) {
    h("") == EmptyDigest
  }

  /** The four components a cluster name is made of. */
  datatype ClusterId = ClusterId(namespace: string, name: string, port: int, digest: string)

  function IdOf(h: Digest, c: Dag.Cluster): ClusterId {
    ClusterId(c.upstream.namespace, c.upstream.name, c.upstream.port, h(c.config))
  }

  function Format(id: ClusterId): string {
    id.namespace + "/" + id.name + "/" + IntToString(id.port) + "/" + id.digest
  }

  /** The cluster name Envoy knows the cluster by. For Kubernetes names,
      which contain no '/', it reads back into the cluster's components. */
  function ClusterName(h: Digest, c: Dag.Cluster): (n: string)
    ensures SlashFree(IdOf(h, c)) ==> Parse(n) == Some(IdOf(h, c))
  {
    FormatReadsBack(IdOf(h, c));
    Format(IdOf(h, c))
  }

  lemma FormatReadsBack(id: ClusterId)
    ensures SlashFree(id) ==> Parse(Format(id)) == Some(id)
  {
    if SlashFree(id) { ParseFormat(id); }
  }

  /** Reads a cluster name back into its components. */
  function Parse(s: string): Option<ClusterId> {
    match SplitFirst(s, '/')
    case None => None
    case Some(p1) =>
      match SplitFirst(p1.1, '/')
      case None => None
      case Some(p2) =>
        match SplitFirst(p2.1, '/')
        case None => None
        case Some(p3) =>
          match ParseInt(p3.0)
          case None => None
          case Some(port) => Some(ClusterId(p1.0, p2.0, port, p3.1))
  }

  /** Kubernetes namespaces and names never contain '/'. */
  predicate SlashFree(id: ClusterId) {
    '/' !in id.namespace && '/' !in id.name
  }

  /** A formatted name parses back to the components it was made of. */
  lemma ParseFormat(id: ClusterId)
    requires SlashFree(id)
    ensures Parse(Format(id)) == Some(id)
  {
    var ps := IntToString(id.port);
    var rest3 := id.digest;
    var rest2 := ps + "/" + rest3;
    var rest1 := id.name + "/" + rest2;
    assert Format(id) == id.namespace + ['/'] + rest1;
    SplitFirstJoin(id.namespace, '/', rest1);
    assert rest1 == id.name + ['/'] + rest2;
    SplitFirstJoin(id.name, '/', rest2);
    assert '/' !in ps;
    assert rest2 == ps + ['/'] + rest3;
    SplitFirstJoin(ps, '/', rest3);
    ParseIntToString(id.port);
  }

  /** Two clusters get the same name exactly when namespace, name, port and
      digest all agree: changing any one of them changes the name. */
  lemma ClusterNameInjective(h: Digest, c: Dag.Cluster, d: Dag.Cluster)
    requires SlashFree(IdOf(h, c)) && SlashFree(IdOf(h, d))
    ensures ClusterName(h, c) == ClusterName(h, d) <==> IdOf(h, c) == IdOf(h, d)
  {
    if ClusterName(h, c) == ClusterName(h, d) {
      ParseFormat(IdOf(h, c));
      ParseFormat(IdOf(h, d));
    }
  }

  /** The weight plays no part in the name. */
  lemma ClusterNameIgnoresWeight(h: Digest, c: Dag.Cluster, w: nat)
    ensures ClusterName(h, c.(weight := w)) == ClusterName(h, c)
  {
  }

  /** A cluster with the default configuration is named
      "<namespace>/<name>/<port>/da39a3ee5e". */
  lemma DefaultClusterName(h: Digest, c: Dag.Cluster)
    requires KnowsEmptyDigest(h) && c.config == ""
    ensures ClusterName(h, c)
         == c.upstream.namespace + "/" + c.upstream.name + "/" + IntToString(c.upstream.port) + "/" + EmptyDigest
  {
  }
}
