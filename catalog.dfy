/**
 * The metric catalogs of the configuration (unit -> list of [metricName, statistic])
 * and what the `get*Metrics` loops make of them: one query per resource, per unit,
 * per pair, in that order.
 */
module Catalog {
  import opened Query

  /** One `[metricName, statistic]` pair of a catalog; `metric[0]` and `metric[1]` in the loops. */
  datatype CatalogMetric = CatalogMetric(name: string, statistic: string)

  /** One unit key of a catalog with its pairs. */
  datatype UnitEntry = UnitEntry(unit: string, metrics: seq<CatalogMetric>)

  /** A catalog, its unit keys in `Object.keys` order. */
  type MetricCatalog = seq<UnitEntry>

  /** Σ over units of the number of pairs listed under that unit. */
  function CatalogSize(catalog: MetricCatalog): (size: nat)
  {
    if catalog == [] then 0
    else CatalogSize(catalog[..|catalog| - 1]) + |catalog[|catalog| - 1].metrics|
  }

  /** The number of queries that come before the first query of unit `i`. */
  function Offset(catalog: MetricCatalog, i: nat): (offset: nat)
    requires i <= |catalog|
  {
    CatalogSize(catalog[..i])
  }

  /** The query the inner loop builds for one pair of one unit. */
  function CatalogQuery(namespace: string, entry: UnitEntry, j: nat, dims: seq<Dimension>): (q: MetricQuery)
    requires j < |entry.metrics|
  {
    BuildMetricQuery(namespace, entry.metrics[j].name, entry.unit, entry.metrics[j].statistic, dims, None)
  }

  /** The queries of one unit, in pair order. */
  function ExpandUnit(namespace: string, entry: UnitEntry, dims: seq<Dimension>): (r: seq<MetricQuery>)
    ensures |r| == |entry.metrics|
    ensures forall j :: 0 <= j < |entry.metrics| ==> r[j] == CatalogQuery(namespace, entry, j, dims)
  {
    seq(|entry.metrics|, j requires 0 <= j < |entry.metrics| => CatalogQuery(namespace, entry, j, dims))
  }

  /** The shape every query of a catalog has: namespace, dimensions, default period, one statistic. */
  ghost predicate FromCatalog(q: MetricQuery, namespace: string, catalog: MetricCatalog, dims: seq<Dimension>)
  {
    q.namespace == namespace && q.dimensions == dims && q.period == DEFAULT_PERIOD &&
    |q.statistics| == 1 && q.startTime.None? && q.endTime.None? &&
    exists i :: 0 <= i < |catalog| && catalog[i].unit == q.unit &&
                CatalogMetric(q.metricName, q.statistics[0]) in catalog[i].metrics
  }

  /** The queries of a whole catalog for one dimension set, unit by unit. */
  function Expand(namespace: string, catalog: MetricCatalog, dims: seq<Dimension>): (r: seq<MetricQuery>)
    ensures |r| == CatalogSize(catalog)
  {
    if catalog == [] then []
    else Expand(namespace, catalog[..|catalog| - 1], dims) + ExpandUnit(namespace, catalog[|catalog| - 1], dims)
  }

  /**
   * Every query of an expansion carries the namespace, the dimensions, the default
   * period and one statistic, and its unit and (name, statistic) pair come from the
   * catalog.
   */
  lemma {:induction false} ExpandShape(namespace: string, catalog: MetricCatalog, dims: seq<Dimension>)
    ensures forall k :: 0 <= k < |Expand(namespace, catalog, dims)| ==>
              FromCatalog(Expand(namespace, catalog, dims)[k], namespace, catalog, dims)
  {
    if catalog != [] {
      var init := catalog[..|catalog| - 1];
      var last := catalog[|catalog| - 1];
      var front := Expand(namespace, init, dims);
      var back := ExpandUnit(namespace, last, dims);
      ExpandShape(namespace, init, dims);
      forall k | 0 <= k < |front| ensures FromCatalog(front[k], namespace, catalog, dims) {
        var q := front[k];
        assert FromCatalog(q, namespace, init, dims);
        var i :| 0 <= i < |init| && init[i].unit == q.unit &&
                 CatalogMetric(q.metricName, q.statistics[0]) in init[i].metrics;
        assert catalog[i] == init[i];
      }
      forall j | 0 <= j < |back| ensures FromCatalog(back[j], namespace, catalog, dims) {
        assert back[j] == CatalogQuery(namespace, last, j, dims);
        assert last.metrics[j] in last.metrics;
      }
      assert Expand(namespace, catalog, dims) == front + back;
    }
  }

  /** Expanding one more unit appends that unit's queries. */
  lemma ExpandSnoc(namespace: string, catalog: MetricCatalog, i: nat, dims: seq<Dimension>)
    requires i < |catalog|
    ensures Expand(namespace, catalog[..i + 1], dims) ==
              Expand(namespace, catalog[..i], dims) + ExpandUnit(namespace, catalog[i], dims)
  {
    assert catalog[..i + 1][..i] == catalog[..i];
  }

  /**
   * The order of the expansion: pair `j` of unit `i` is query number `Offset(i) + j`,
   * built from that unit and that pair.
   */
  lemma {:induction false} ExpandAt(namespace: string, catalog: MetricCatalog, i: nat, j: nat, dims: seq<Dimension>)
    requires i < |catalog| && j < |catalog[i].metrics|
    ensures Offset(catalog, i) + j < |Expand(namespace, catalog, dims)|
    ensures Expand(namespace, catalog, dims)[Offset(catalog, i) + j] ==
              BuildMetricQuery(namespace, catalog[i].metrics[j].name, catalog[i].unit,
                               catalog[i].metrics[j].statistic, dims, None)
  {
    var n := |catalog|;
    var init := catalog[..n - 1];
    var front := Expand(namespace, init, dims);
    var back := ExpandUnit(namespace, catalog[n - 1], dims);
    assert Expand(namespace, catalog, dims) == front + back;
    if i == n - 1 {
      assert catalog[..i] == init;
      assert back[j] == CatalogQuery(namespace, catalog[i], j, dims);
    } else {
      ExpandAt(namespace, init, i, j, dims);
      assert init[..i] == catalog[..i];
      assert init[i] == catalog[i];
      OffsetStep(init, i);
      OffsetBound(init, i + 1);
    }
  }

  /** Unit `i` starts right after the queries of the units before it. */
  lemma OffsetStep(catalog: MetricCatalog, i: nat)
    requires i < |catalog|
    ensures Offset(catalog, i + 1) == Offset(catalog, i) + |catalog[i].metrics|
  {
    assert catalog[..i + 1][..i] == catalog[..i];
  }

  /** The queries before unit `k` are among the queries of the catalog. */
  lemma {:induction false} OffsetBound(catalog: MetricCatalog, k: nat)
    requires k <= |catalog|
    ensures Offset(catalog, k) <= CatalogSize(catalog)
  {
    var n := |catalog|;
    if k < n {
      var init := catalog[..n - 1];
      OffsetBound(init, k);
      assert init[..k] == catalog[..k];
    } else {
      assert catalog[..n] == catalog;
    }
  }

  /** The expansions for a list of dimension sets, one resource after another. */
  function ExpandAll(namespace: string, catalog: MetricCatalog, dimSets: seq<seq<Dimension>>): (qs: seq<MetricQuery>)
  {
    if dimSets == [] then []
    else ExpandAll(namespace, catalog, dimSets[..|dimSets| - 1]) + Expand(namespace, catalog, dimSets[|dimSets| - 1])
  }

  lemma ExpandAllSnoc(namespace: string, catalog: MetricCatalog, dimSets: seq<seq<Dimension>>, r: nat)
    requires r < |dimSets|
    ensures ExpandAll(namespace, catalog, dimSets[..r + 1]) ==
              ExpandAll(namespace, catalog, dimSets[..r]) + Expand(namespace, catalog, dimSets[r])
  {
    assert dimSets[..r + 1][..r] == dimSets[..r];
  }

  /** n resources give n × Σ_unit |catalog[unit]| queries; duplicates are kept. */
  lemma {:induction false} ExpandAllCount(namespace: string, catalog: MetricCatalog, dimSets: seq<seq<Dimension>>)
    ensures |ExpandAll(namespace, catalog, dimSets)| == |dimSets| * CatalogSize(catalog)
  {
    if dimSets != [] {
      var n := |dimSets|;
      ExpandAllCount(namespace, catalog, dimSets[..n - 1]);
      assert (n - 1) * CatalogSize(catalog) + CatalogSize(catalog) == n * CatalogSize(catalog);
    }
  }

  /**
   * The order across resources: query `k` of resource `r` is query number
   * `r * CatalogSize + k` of the whole expansion.
   */
  lemma {:induction false} ExpandAllAt(namespace: string, catalog: MetricCatalog, dimSets: seq<seq<Dimension>>, r: nat, k: nat)
    requires r < |dimSets| && k < CatalogSize(catalog)
    ensures r * CatalogSize(catalog) + k < |ExpandAll(namespace, catalog, dimSets)|
    ensures ExpandAll(namespace, catalog, dimSets)[r * CatalogSize(catalog) + k] ==
              Expand(namespace, catalog, dimSets[r])[k]
  {
    var n := |dimSets|;
    var size := CatalogSize(catalog);
    var init := dimSets[..n - 1];
    ExpandAllCount(namespace, catalog, dimSets);
    ExpandAllCount(namespace, catalog, init);
    if r == n - 1 {
    } else {
      ExpandAllAt(namespace, catalog, init, r, k);
      assert init[r] == dimSets[r];
    }
  }

  /** Query `k` of resource `r` has the shape of the catalog and resource `r`'s dimensions. */
  lemma ExpandAllShapeAt(namespace: string, catalog: MetricCatalog, dimSets: seq<seq<Dimension>>, r: nat, k: nat)
    requires r < |dimSets| && k < CatalogSize(catalog)
    ensures 0 <= r * CatalogSize(catalog) + k < |ExpandAll(namespace, catalog, dimSets)|
    ensures FromCatalog(ExpandAll(namespace, catalog, dimSets)[r * CatalogSize(catalog) + k], namespace, catalog, dimSets[r])
  {
    ExpandAllAt(namespace, catalog, dimSets, r, k);
    ExpandShape(namespace, catalog, dimSets[r]);
  }

  /**
   * The full order of the expansion: resource `r`, then unit `i`, then pair `j` is
   * query number `r * CatalogSize + Offset(i) + j`, built from exactly those three.
   */
  lemma ExpandAllOrder(namespace: string, catalog: MetricCatalog, dimSets: seq<seq<Dimension>>, r: nat, i: nat, j: nat)
    requires r < |dimSets| && i < |catalog| && j < |catalog[i].metrics|
    ensures 0 <= r * CatalogSize(catalog) + (Offset(catalog, i) + j) < |ExpandAll(namespace, catalog, dimSets)|
    ensures ExpandAll(namespace, catalog, dimSets)[r * CatalogSize(catalog) + (Offset(catalog, i) + j)] ==
              BuildMetricQuery(namespace, catalog[i].metrics[j].name, catalog[i].unit,
                               catalog[i].metrics[j].statistic, dimSets[r], None)
  {
    ExpandAt(namespace, catalog, i, j, dimSets[r]);
    ExpandAllShapeAt(namespace, catalog, dimSets, r, Offset(catalog, i) + j);
    ExpandAllAt(namespace, catalog, dimSets, r, Offset(catalog, i) + j);
  }
}
