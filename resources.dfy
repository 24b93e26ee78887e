/**
 * The dimension rule of each resource type: how a discovered identifier becomes
 * the ordered `Dimensions` list of its queries, and what that list contributes to
 * the two formatters' paths.
 */
module Resources {
  import opened Text
  import opened Query
  import opened Format

  function Names(dims: seq<Dimension>): (t: seq<string>)
    ensures |t| == |dims|
    ensures forall k :: 0 <= k < |dims| ==> t[k] == dims[k].name
  {
    seq(|dims|, k requires 0 <= k < |dims| => dims[k].name)
  }

  lemma TwoDimensionPrefixes(first: Dimension, second: Dimension)
    ensures NewPrefix([first, second]) == first.name + "_" + first.value + "." + (second.name + "_" + second.value)
    ensures LegacyPrefix([first, second]) == first.value + "." + second.value
  {
    var names := NameValueTokens([first, second]);
    assert names == [first.name + "_" + first.value, second.name + "_" + second.value];
    assert names[1..] == [second.name + "_" + second.value];
    assert Join(names[1..], ".") == second.name + "_" + second.value;
    assert Join(names, ".") == names[0] + "." + Join(names[1..], ".");
    var values := ValueTokens([first, second]);
    assert values == [first.value, second.value];
    assert values[1..] == [second.value];
    assert Join(values, ".") == values[0] + "." + Join(values[1..], ".");
  }

  /** A load balancer: one `LoadBalancerName` dimension. */
  function ELBDimensions(elb: string): (dims: seq<Dimension>)
    ensures Names(dims) == ["LoadBalancerName"] && ValueTokens(dims) == [elb]
    ensures NewPrefix(dims) == "LoadBalancerName_" + elb && LegacyPrefix(dims) == elb
  {
    [Dimension("LoadBalancerName", elb)]
  }

  /** A database instance: one `DBInstanceIdentifier` dimension. */
  function RDSDimensions(instance: string): (dims: seq<Dimension>)
    ensures Names(dims) == ["DBInstanceIdentifier"] && ValueTokens(dims) == [instance]
    ensures NewPrefix(dims) == "DBInstanceIdentifier_" + instance && LegacyPrefix(dims) == instance
  {
    [Dimension("DBInstanceIdentifier", instance)]
  }

  /** A container cluster: one `ClusterName` dimension. */
  function ECSClusterDimensions(cluster: string): (dims: seq<Dimension>)
    ensures Names(dims) == ["ClusterName"] && ValueTokens(dims) == [cluster]
    ensures NewPrefix(dims) == "ClusterName_" + cluster && LegacyPrefix(dims) == cluster
  {
    [Dimension("ClusterName", cluster)]
  }

  /**
   * A container service: `ClusterName` then `ServiceName`. The cluster value is
   * `clustername.toString()` of the LIST of names `describeClusters` returned,
   * that is the names joined by ",".
   */
  function ECSServiceDimensions(clusterNames: seq<string>, service: string): (dims: seq<Dimension>)
    ensures Names(dims) == ["ClusterName", "ServiceName"]
    ensures ValueTokens(dims) == [Join(clusterNames, ","), service]
    ensures NewPrefix(dims) == "ClusterName_" + Join(clusterNames, ",") + ".ServiceName_" + service
    ensures LegacyPrefix(dims) == Join(clusterNames, ",") + "." + service
  {
    var cluster := Join(clusterNames, ",");
    var dims := [Dimension("ClusterName", cluster), Dimension("ServiceName", service)];
    TwoDimensionPrefixes(dims[0], dims[1]);
    assert "ClusterName" + "_" + cluster + "." + ("ServiceName" + "_" + service) ==
           "ClusterName_" + cluster + ".ServiceName_" + service;
    dims
  }

  /** A serverless function: one `FunctionName` dimension. */
  function LambdaDimensions(functionName: string): (dims: seq<Dimension>)
    ensures Names(dims) == ["FunctionName"] && ValueTokens(dims) == [functionName]
    ensures NewPrefix(dims) == "FunctionName_" + functionName && LegacyPrefix(dims) == functionName
  {
    [Dimension("FunctionName", functionName)]
  }

  /** The dimension sets of a list of identifiers under one rule, in discovery order. */
  function DimensionSets(ids: seq<string>, rule: string -> seq<Dimension>): (sets: seq<seq<Dimension>>)
    ensures |sets| == |ids|
    ensures forall r :: 0 <= r < |ids| ==> sets[r] == rule(ids[r])
  {
    seq(|ids|, r requires 0 <= r < |ids| => rule(ids[r]))
  }

  /** A cache cluster as `describeCacheClusters` reports it, with its nodes. */
  datatype CacheCluster = CacheCluster(cacheClusterId: string, cacheNodeIds: seq<string>)

  /** A cache cluster with at least one node: `CacheClusterId`, then the FIRST node's `CacheNodeId`. */
  function CacheNodeDimensions(cluster: CacheCluster): (dims: seq<Dimension>)
    requires |cluster.cacheNodeIds| > 0
    ensures Names(dims) == ["CacheClusterId", "CacheNodeId"]
    ensures ValueTokens(dims) == [cluster.cacheClusterId, cluster.cacheNodeIds[0]]
    ensures NewPrefix(dims) == "CacheClusterId_" + cluster.cacheClusterId + ".CacheNodeId_" + cluster.cacheNodeIds[0]
    ensures LegacyPrefix(dims) == cluster.cacheClusterId + "." + cluster.cacheNodeIds[0]
  {
    var dims := [Dimension("CacheClusterId", cluster.cacheClusterId),
                 Dimension("CacheNodeId", cluster.cacheNodeIds[0])];
    TwoDimensionPrefixes(dims[0], dims[1]);
    assert "CacheClusterId" + "_" + cluster.cacheClusterId + "." + ("CacheNodeId" + "_" + cluster.cacheNodeIds[0]) ==
           "CacheClusterId_" + cluster.cacheClusterId + ".CacheNodeId_" + cluster.cacheNodeIds[0];
    dims
  }

  /**
   * The outcome of mapping the cache clusters to dimension sets: the sets, or the
   * `TypeError` raised at the first cluster without nodes (reading `CacheNodeId`
   * of `CacheNodes[0]`, which is undefined), which ends the mapping.
   */
  datatype CacheMapping = Mapped(sets: seq<seq<Dimension>>) | TypeError(at: nat)

  function CacheClusterDimensionSets(clusters: seq<CacheCluster>): (r: CacheMapping)
    ensures r.Mapped? <==> forall i :: 0 <= i < |clusters| ==> |clusters[i].cacheNodeIds| > 0
    ensures r.Mapped? ==>
              |r.sets| == |clusters| &&
              forall i :: 0 <= i < |clusters| ==> r.sets[i] == CacheNodeDimensions(clusters[i])
    ensures r.TypeError? ==>
              r.at < |clusters| && |clusters[r.at].cacheNodeIds| == 0 &&
              forall i :: 0 <= i < r.at ==> |clusters[i].cacheNodeIds| > 0
  {
    if clusters == [] then Mapped([])
    else if |clusters[0].cacheNodeIds| == 0 then TypeError(0)
    else
      match CacheClusterDimensionSets(clusters[1..])
      case Mapped(rest) => Mapped([CacheNodeDimensions(clusters[0])] + rest)
      case TypeError(at) => TypeError(at + 1)
  }
}
