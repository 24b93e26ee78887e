/**
 * The `get*Metrics` loops and `printMetric`. The monitoring API call inside
 * `printMetric` is replaced by a sink that records every query it is handed, so
 * each loop is a method whose effect is the list of queries it appends, stated
 * against the expansion functions of module Catalog.
 */
module Emit {
  import opened Text
  import opened Query
  import opened Catalog
  import opened Resources
  import opened Format

  /** Where `printMetric` sends its queries: the list of queries sent so far, in order. */
  class QuerySink {
    var sent: seq<MetricQuery>

    constructor ()
      ensures sent == []
    {
      sent := [];
    }

    /**
     * `printMetric(metric, start_time, end_time)`: stamps the run's window on the
     * query and sends it.
     */
    method PrintMetric(q: MetricQuery, w: TimeWindow)
      modifies this
      ensures sent == old(sent) + [Stamp(q, w)]
    {
      var param := q.(startTime := Some(w.start), endTime := Some(w.end));
      sent := sent + [param];
    }
  }

  lemma StampAllSnoc(qs: seq<MetricQuery>, m: nat, w: TimeWindow)
    requires m < |qs|
    ensures StampAll(qs[..m + 1], w) == StampAll(qs[..m], w) + [Stamp(qs[m], w)]
  {
    assert qs[..m + 1] == qs[..m] + [qs[m]];
    StampAllAppend(qs[..m], [qs[m]], w);
  }

  lemma SentCatalogStep(before: seq<MetricQuery>, namespace: string, catalog: MetricCatalog, u: nat,
                        dims: seq<Dimension>, w: TimeWindow)
    requires u < |catalog|
    ensures before + StampAll(Expand(namespace, catalog[..u + 1], dims), w) ==
              before + StampAll(Expand(namespace, catalog[..u], dims), w) + StampAll(ExpandUnit(namespace, catalog[u], dims), w)
  {
    ExpandSnoc(namespace, catalog, u, dims);
    StampAllAppend(Expand(namespace, catalog[..u], dims), ExpandUnit(namespace, catalog[u], dims), w);
  }

  lemma SentResourcesStep(before: seq<MetricQuery>, namespace: string, catalog: MetricCatalog,
                           dimSets: seq<seq<Dimension>>, r: nat, w: TimeWindow)
    requires r < |dimSets|
    ensures before + StampAll(ExpandAll(namespace, catalog, dimSets[..r + 1]), w) ==
              before + StampAll(ExpandAll(namespace, catalog, dimSets[..r]), w) + StampAll(Expand(namespace, catalog, dimSets[r]), w)
  {
    ExpandAllSnoc(namespace, catalog, dimSets, r);
    StampAllAppend(ExpandAll(namespace, catalog, dimSets[..r]), Expand(namespace, catalog, dimSets[r]), w);
  }

  /** The innermost loop: one query per `[metricName, statistic]` pair of one unit. */
  method EmitUnit(sink: QuerySink, namespace: string, entry: UnitEntry, dims: seq<Dimension>, w: TimeWindow)
    modifies sink
    ensures sink.sent == old(sink.sent) + StampAll(ExpandUnit(namespace, entry, dims), w)
  {
    var m := 0;
    while m < |entry.metrics|
      invariant 0 <= m <= |entry.metrics|
      invariant sink.sent == old(sink.sent) + StampAll(ExpandUnit(namespace, entry, dims)[..m], w)
    {
      var metric := entry.metrics[m];
      sink.PrintMetric(BuildMetricQuery(namespace, metric.name, entry.unit, metric.statistic, dims, None), w);
      StampAllSnoc(ExpandUnit(namespace, entry, dims), m, w);
      m := m + 1;
    }
    assert ExpandUnit(namespace, entry, dims)[..m] == ExpandUnit(namespace, entry, dims);
  }

  /** The two inner loops of every `get*Metrics`: for each unit key, its pairs. */
  method EmitCatalog(sink: QuerySink, namespace: string, catalog: MetricCatalog, dims: seq<Dimension>, w: TimeWindow)
    modifies sink
    ensures sink.sent == old(sink.sent) + StampAll(Expand(namespace, catalog, dims), w)
  {
    var u := 0;
    while u < |catalog|
      invariant 0 <= u <= |catalog|
      invariant sink.sent == old(sink.sent) + StampAll(Expand(namespace, catalog[..u], dims), w)
    {
      EmitUnit(sink, namespace, catalog[u], dims, w);
      SentCatalogStep(old(sink.sent), namespace, catalog, u, dims, w);
      u := u + 1;
    }
    assert catalog[..u] == catalog;
  }

  /** The outer loop of every `get*Metrics`: one catalog expansion per resource, in order. */
  method EmitResources(sink: QuerySink, namespace: string, catalog: MetricCatalog,
                       dimSets: seq<seq<Dimension>>, w: TimeWindow)
    modifies sink
    ensures sink.sent == old(sink.sent) + StampAll(ExpandAll(namespace, catalog, dimSets), w)
  {
    var r := 0;
    while r < |dimSets|
      invariant 0 <= r <= |dimSets|
      invariant sink.sent == old(sink.sent) + StampAll(ExpandAll(namespace, catalog, dimSets[..r]), w)
    {
      EmitCatalog(sink, namespace, catalog, dimSets[r], w);
      SentResourcesStep(old(sink.sent), namespace, catalog, dimSets, r, w);
      r := r + 1;
    }
    assert dimSets[..r] == dimSets;
  }

  /** `getELBMetrics(elbs)`. */
  method GetELBMetrics(sink: QuerySink, elbs: seq<string>, catalog: MetricCatalog, w: TimeWindow)
    modifies sink
    ensures sink.sent == old(sink.sent) + StampAll(ExpandAll("AWS/ELB", catalog, DimensionSets(elbs, ELBDimensions)), w)
  {
    EmitResources(sink, "AWS/ELB", catalog, DimensionSets(elbs, ELBDimensions), w);
  }

  /** `getRDSMetrics(instances, RDSMetrics)`. */
  method GetRDSMetrics(sink: QuerySink, instances: seq<string>, catalog: MetricCatalog, w: TimeWindow)
    modifies sink
    ensures sink.sent == old(sink.sent) + StampAll(ExpandAll("AWS/RDS", catalog, DimensionSets(instances, RDSDimensions)), w)
  {
    EmitResources(sink, "AWS/RDS", catalog, DimensionSets(instances, RDSDimensions), w);
  }

  /** `getElasticCacheMetrics(nodes, elasticCacheMetrics)`: the dimension sets come ready-made. */
  method GetElasticCacheMetrics(sink: QuerySink, nodes: seq<seq<Dimension>>, catalog: MetricCatalog, w: TimeWindow)
    modifies sink
    ensures sink.sent == old(sink.sent) + StampAll(ExpandAll("AWS/ElastiCache", catalog, nodes), w)
  {
    EmitResources(sink, "AWS/ElastiCache", catalog, nodes, w);
  }

  /** `getECSClusterMetrics(clusters, ECSClusterMetrics)`. */
  method GetECSClusterMetrics(sink: QuerySink, clusters: seq<string>, catalog: MetricCatalog, w: TimeWindow)
    modifies sink
    ensures sink.sent == old(sink.sent) + StampAll(ExpandAll("AWS/ECS", catalog, DimensionSets(clusters, ECSClusterDimensions)), w)
  {
    EmitResources(sink, "AWS/ECS", catalog, DimensionSets(clusters, ECSClusterDimensions), w);
  }

  /** The dimension sets of the services of one cluster. */
  function ServiceDimensionSets(services: seq<string>, clusterNames: seq<string>): (sets: seq<seq<Dimension>>)
  {
    DimensionSets(services, s => ECSServiceDimensions(clusterNames, s))
  }

  /** `getECSServiceMetrics(services, clustername, ECSServiceMetrics)`: nothing for no services. */
  method GetECSServiceMetrics(sink: QuerySink, services: seq<string>, clusterNames: seq<string>,
                              catalog: MetricCatalog, w: TimeWindow)
    modifies sink
    // Implied by the next clause (no services, no dimension sets); kept so the guard at
    // cw2graphite.js:326 reads off the contract directly.
    ensures |services| == 0 ==> sink.sent == old(sink.sent)
    ensures sink.sent == old(sink.sent) + StampAll(ExpandAll("AWS/ECS", catalog, ServiceDimensionSets(services, clusterNames)), w)
  {
    if |services| > 0 {
      EmitResources(sink, "AWS/ECS", catalog, ServiceDimensionSets(services, clusterNames), w);
    }
  }

  /** `getLambdaMetrics(functions, LambdaMetrics)`. */
  method GetLambdaMetrics(sink: QuerySink, functions: seq<string>, catalog: MetricCatalog, w: TimeWindow)
    modifies sink
    ensures sink.sent == old(sink.sent) + StampAll(ExpandAll("AWS/Lambda", catalog, DimensionSets(functions, LambdaDimensions)), w)
  {
    EmitResources(sink, "AWS/Lambda", catalog, DimensionSets(functions, LambdaDimensions), w);
  }

  /** The ad hoc queries of the configuration, sent as they are, in order. */
  method GetAdHocMetrics(sink: QuerySink, metrics: seq<MetricQuery>, w: TimeWindow)
    modifies sink
    ensures sink.sent == old(sink.sent) + StampAll(metrics, w)
  {
    var i := 0;
    while i < |metrics|
      invariant 0 <= i <= |metrics|
      invariant sink.sent == old(sink.sent) + StampAll(metrics[..i], w)
    {
      sink.PrintMetric(metrics[i], w);
      StampAllSnoc(metrics, i, w);
      i := i + 1;
    }
    assert metrics[..i] == metrics;
  }

  // ---------------------------------------------------------------------------
  // The cache pipeline: the mapping in the discovery callback, then the loops

  /**
   * The cache queries of one run: none when the mapping of the clusters throws,
   * otherwise one catalog expansion per cluster.
   */
  function CacheQueries(clusters: seq<CacheCluster>, catalog: MetricCatalog): (qs: seq<MetricQuery>)
    ensures (exists i :: 0 <= i < |clusters| && |clusters[i].cacheNodeIds| == 0) ==> qs == []
    ensures (forall i :: 0 <= i < |clusters| ==> |clusters[i].cacheNodeIds| > 0) ==>
              |qs| == |clusters| * CatalogSize(catalog)
  {
    match CacheClusterDimensionSets(clusters)
    case TypeError(_) => []
    case Mapped(sets) =>
      ExpandAllCount("AWS/ElastiCache", catalog, sets);
      ExpandAll("AWS/ElastiCache", catalog, sets)
  }

  /** Query `k` of cache cluster `r` carries that cluster's id and its first node's id. */
  lemma CacheQueryAt(clusters: seq<CacheCluster>, catalog: MetricCatalog, r: nat, k: nat)
    requires forall i :: 0 <= i < |clusters| ==> |clusters[i].cacheNodeIds| > 0
    requires r < |clusters| && k < CatalogSize(catalog)
    ensures 0 <= r * CatalogSize(catalog) + k < |CacheQueries(clusters, catalog)|
    ensures var q := CacheQueries(clusters, catalog)[r * CatalogSize(catalog) + k];
            q.namespace == "AWS/ElastiCache" && q.dimensions == CacheNodeDimensions(clusters[r])
  {
    var sets := CacheClusterDimensionSets(clusters).sets;
    assert CacheQueries(clusters, catalog) == ExpandAll("AWS/ElastiCache", catalog, sets);
    ExpandAllShapeAt("AWS/ElastiCache", catalog, sets, r, k);
  }

  method EmitElastiCache(sink: QuerySink, clusters: seq<CacheCluster>, catalog: MetricCatalog, w: TimeWindow)
    modifies sink
    ensures sink.sent == old(sink.sent) + StampAll(CacheQueries(clusters, catalog), w)
  {
    var mapping := CacheClusterDimensionSets(clusters);
    match mapping
    case TypeError(_) =>
    case Mapped(nodes) => GetElasticCacheMetrics(sink, nodes, catalog, w);
  }

  // ---------------------------------------------------------------------------
  // The container pipeline of one cluster ARN

  /**
   * What discovery reports for one cluster ARN: its service ARNs, the cluster names
   * `describeClusters` returned for it, and the service names `describeServices`
   * returned for those ARNs.
   */
  datatype ECSClusterDiscovery = ECSClusterDiscovery(
    serviceArns: seq<string>,
    clusterNames: seq<string>,
    serviceNames: seq<string>)

  /**
   * The container queries of one cluster ARN: with no service ARNs the service-name
   * callback never runs and nothing is sent; otherwise the cluster queries, then the
   * service queries.
   */
  function ECSQueries(d: ECSClusterDiscovery, clusterCatalog: MetricCatalog, serviceCatalog: MetricCatalog): (qs: seq<MetricQuery>)
  {
    if |d.serviceArns| == 0 then []
    else ExpandAll("AWS/ECS", clusterCatalog, DimensionSets(d.clusterNames, ECSClusterDimensions))
         + ExpandAll("AWS/ECS", serviceCatalog, ServiceDimensionSets(d.serviceNames, d.clusterNames))
  }

  method EmitECSCluster(sink: QuerySink, d: ECSClusterDiscovery, clusterCatalog: MetricCatalog,
                        serviceCatalog: MetricCatalog, w: TimeWindow)
    modifies sink
    ensures sink.sent == old(sink.sent) + StampAll(ECSQueries(d, clusterCatalog, serviceCatalog), w)
  {
    if |d.serviceArns| > 0 {
      GetECSClusterMetrics(sink, d.clusterNames, clusterCatalog, w);
      GetECSServiceMetrics(sink, d.serviceNames, d.clusterNames, serviceCatalog, w);
      SentECSStep(old(sink.sent), d, clusterCatalog, serviceCatalog, w);
    } else {
      SentECSNothing(old(sink.sent), d, clusterCatalog, serviceCatalog, w);
    }
  }

  lemma SentECSStep(before: seq<MetricQuery>, d: ECSClusterDiscovery, clusterCatalog: MetricCatalog,
                    serviceCatalog: MetricCatalog, w: TimeWindow)
    requires |d.serviceArns| > 0
    ensures before + StampAll(ECSQueries(d, clusterCatalog, serviceCatalog), w) ==
              before +
              StampAll(ExpandAll("AWS/ECS", clusterCatalog, DimensionSets(d.clusterNames, ECSClusterDimensions)), w) +
              StampAll(ExpandAll("AWS/ECS", serviceCatalog, ServiceDimensionSets(d.serviceNames, d.clusterNames)), w)
  {
    StampAllAppend(ExpandAll("AWS/ECS", clusterCatalog, DimensionSets(d.clusterNames, ECSClusterDimensions)),
                   ExpandAll("AWS/ECS", serviceCatalog, ServiceDimensionSets(d.serviceNames, d.clusterNames)), w);
  }

  lemma SentECSNothing(before: seq<MetricQuery>, d: ECSClusterDiscovery, clusterCatalog: MetricCatalog,
                       serviceCatalog: MetricCatalog, w: TimeWindow)
    requires |d.serviceArns| == 0
    ensures before + StampAll(ECSQueries(d, clusterCatalog, serviceCatalog), w) == before
  {
    assert StampAll(ECSQueries(d, clusterCatalog, serviceCatalog), w) == [];
  }

  /** A query of the service `service` of a cluster whose names are `clusterNames`. */
  ghost predicate ServiceQuery(q: MetricQuery, clusterNames: seq<string>, service: string)
  {
    q.namespace == "AWS/ECS" &&
    Names(q.dimensions) == ["ClusterName", "ServiceName"] &&
    ValueTokens(q.dimensions) == [Join(clusterNames, ","), service]
  }

  /** A query of a cluster named `cluster`. */
  ghost predicate ClusterQuery(q: MetricQuery, cluster: string)
  {
    q.namespace == "AWS/ECS" && Names(q.dimensions) == ["ClusterName"] && ValueTokens(q.dimensions) == [cluster]
  }

  /**
   * ECS gating: a cluster with no service ARNs gets no queries at all, not even the
   * cluster-level ones; otherwise one catalog expansion per cluster name and one
   * per service name.
   */
  lemma ECSQueriesCount(d: ECSClusterDiscovery, clusterCatalog: MetricCatalog, serviceCatalog: MetricCatalog)
    ensures |d.serviceArns| == 0 ==> ECSQueries(d, clusterCatalog, serviceCatalog) == []
    ensures |d.serviceArns| > 0 ==>
              |ECSQueries(d, clusterCatalog, serviceCatalog)| ==
              |d.clusterNames| * CatalogSize(clusterCatalog) + |d.serviceNames| * CatalogSize(serviceCatalog)
  {
    ExpandAllCount("AWS/ECS", clusterCatalog, DimensionSets(d.clusterNames, ECSClusterDimensions));
    ExpandAllCount("AWS/ECS", serviceCatalog, ServiceDimensionSets(d.serviceNames, d.clusterNames));
  }

  /** The cluster-level queries come first: query `k` of cluster name `c`. */
  lemma ECSClusterQueryAt(d: ECSClusterDiscovery, clusterCatalog: MetricCatalog, serviceCatalog: MetricCatalog,
                          c: nat, k: nat)
    requires |d.serviceArns| > 0
    requires c < |d.clusterNames| && k < CatalogSize(clusterCatalog)
    ensures c * CatalogSize(clusterCatalog) + k < |ECSQueries(d, clusterCatalog, serviceCatalog)|
    ensures ClusterQuery(ECSQueries(d, clusterCatalog, serviceCatalog)[c * CatalogSize(clusterCatalog) + k],
                         d.clusterNames[c])
  {
    var sets := DimensionSets(d.clusterNames, ECSClusterDimensions);
    var front := ExpandAll("AWS/ECS", clusterCatalog, sets);
    var back := ExpandAll("AWS/ECS", serviceCatalog, ServiceDimensionSets(d.serviceNames, d.clusterNames));
    assert ECSQueries(d, clusterCatalog, serviceCatalog) == front + back;
    ExpandAllShapeAt("AWS/ECS", clusterCatalog, sets, c, k);
  }

  /**
   * The service queries follow the cluster queries: query `k` of service `s` has
   * `ClusterName` (all cluster names joined) and `ServiceName`, in that order.
   */
  lemma ECSServiceQueryAt(d: ECSClusterDiscovery, clusterCatalog: MetricCatalog, serviceCatalog: MetricCatalog,
                          s: nat, k: nat)
    requires |d.serviceArns| > 0
    requires s < |d.serviceNames| && k < CatalogSize(serviceCatalog)
    ensures |d.clusterNames| * CatalogSize(clusterCatalog) + s * CatalogSize(serviceCatalog) + k
              < |ECSQueries(d, clusterCatalog, serviceCatalog)|
    ensures ServiceQuery(ECSQueries(d, clusterCatalog, serviceCatalog)
                           [|d.clusterNames| * CatalogSize(clusterCatalog) + s * CatalogSize(serviceCatalog) + k],
                         d.clusterNames, d.serviceNames[s])
  {
    var clusterSets := DimensionSets(d.clusterNames, ECSClusterDimensions);
    var serviceSets := ServiceDimensionSets(d.serviceNames, d.clusterNames);
    var front := ExpandAll("AWS/ECS", clusterCatalog, clusterSets);
    var back := ExpandAll("AWS/ECS", serviceCatalog, serviceSets);
    assert ECSQueries(d, clusterCatalog, serviceCatalog) == front + back;
    ExpandAllCount("AWS/ECS", clusterCatalog, clusterSets);
    ExpandAllShapeAt("AWS/ECS", serviceCatalog, serviceSets, s, k);
    var at := s * CatalogSize(serviceCatalog) + k;
    var q := back[at];
    AfterPrefix(front, back, |d.clusterNames|, CatalogSize(clusterCatalog), s, CatalogSize(serviceCatalog), k);
    assert FromCatalog(q, "AWS/ECS", serviceCatalog, serviceSets[s]);
    assert q.dimensions == ECSServiceDimensions(d.clusterNames, d.serviceNames[s]);
  }

  /** Element `s * m + k` of the second part, counted from the start of `front + back`. */
  lemma AfterPrefix(front: seq<MetricQuery>, back: seq<MetricQuery>, n: nat, size: nat, s: nat, m: nat, k: nat)
    requires |front| == n * size && s * m + k < |back|
    ensures n * size + s * m + k < |front + back|
    ensures (front + back)[n * size + s * m + k] == back[s * m + k]
  {
  }
}
