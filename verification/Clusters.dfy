/** Joining or creating a cluster on a node, as provisioning, restores and migrations all do. */
module Clusters {
  import opened Wrappers

  /** A single-member cluster: its primary node, and whether tenants share it. */
  datatype Cluster = Cluster(node: nat, shared: bool)

  /** The first shared cluster whose member is this node. */
  function FindShared(clusters: seq<Cluster>, node: nat): (found: Option<nat>)
    ensures found.Some? ==> found.value < |clusters| && clusters[found.value] == Cluster(node, true)
    ensures found.None? ==> Cluster(node, true) !in clusters
  {
    if clusters == [] then None
    else
      var last := |clusters| - 1;
      var earlier := FindShared(clusters[..last], node);
      if earlier.Some? then earlier else if clusters[last] == Cluster(node, true) then Some(last) else None
  }

  /** The rows afterwards, and the cluster to use. */
  datatype Joining = Joining(clusters: seq<Cluster>, cluster: nat)

  /** A shared database joins the shared cluster there; without one, or for a dedicated database, one is created. */
  function Joined(clusters: seq<Cluster>, node: nat, shared: bool): (j: Joining)
    ensures clusters <= j.clusters && |j.clusters| <= |clusters| + 1
    ensures j.cluster < |j.clusters| && j.clusters[j.cluster] == Cluster(node, shared)
    ensures j.cluster == |clusters| <==> !(shared && Cluster(node, true) in clusters)
  {
    var found := if shared then FindShared(clusters, node) else None;
    if found.Some? then Joining(clusters, found.value) else Joining(clusters + [Cluster(node, shared)], |clusters|)
  }

  method GetOrCreateClusterOnNode(clusters: seq<Cluster>, node: nat, shared: bool)
    returns (after: seq<Cluster>, cluster: nat)
    ensures Joining(after, cluster) == Joined(clusters, node, shared)
  {
    if shared {
      var existing := FindShared(clusters, node);
      if existing.Some? {
        return clusters, existing.value;
      }
    }
    return clusters + [Cluster(node, shared)], |clusters|;
  }
}
