# cw2graphite in Dafny

`cw2graphite.js` reads a metrics configuration, discovers the account's load
balancers, database instances, cache clusters, container clusters and services,
and serverless functions, and asks the monitoring service for recent statistics
of each. It prints every returned datapoint as one line of the Graphite
plaintext protocol, `path value epochSeconds`.

This project models the deterministic part of that pipeline:

- **Query** (`query.dfy`): the query record built by `buildMetricQuery`, with the
  period defaulting to 60. Also the stamping of the run's time window that
  `printMetric` does before it sends the query.
- **Resources** (`resources.dfy`): the dimension rule of each resource type,
  which turns a discovered identifier into its ordered `{Name, Value}` list. This
  includes the cache-cluster mapping, which throws `TypeError` on a cluster with
  no nodes.
- **Catalog** (`catalog.dfy`): a configuration catalog maps each unit to a list
  of `[metricName, statistic]` pairs. The spec functions in this module build the
  queries that catalog yields: per resource, then per unit, then per pair.
- **Emit** (`emit.dfy`): the `get*Metrics` loops as methods. They append to a
  `QuerySink`, which stands in for the monitoring API call in `printMetric`. Each
  method is proved against the Catalog functions. This module also holds the
  gating of the container pipeline.
- **Format** (`format.dfy`): the two line formatters, `newFormat` and
  `legacyFormat`, and what `console.log` writes for a response.
- **Text** (`text.dfy`): the string operations the formatters rely on, with
  JavaScript's meaning:
  - `join`
  - `replace` with a string pattern, which replaces the first occurrence only
  - ASCII `toLowerCase`
  - the decimal rendering of an integer

  It also holds `Split`, the reading side of `Join`, and `ParseInt`, the reading
  side of the decimal rendering. The formatters do not use them; they serve only to
  state that lines and the console output parse back into their parts.

Datapoint values are opaque, already-rendered strings. Timestamps are integer
milliseconds since the epoch. The discovered identifiers, the datapoints and the
time window are parameters.

Behaviours of the code that are easy to miss:

- **Cache cluster without nodes** (cw2graphite.js:218-221). Reading
  `CacheNodes[0].CacheNodeId` throws, so the callback never runs. A single cluster
  without nodes therefore means no cache queries at all, not just that cluster
  skipped. See `CacheClusterDimensionSets` and `CacheQueries`.
- **Cluster ARN with no service ARNs** (lines 308-321, 72-74).
  `getAllECSServiceNames` never calls its callback, so that cluster's own
  cluster-level queries are not sent either. See `ECSQueries` and `ECSQueriesCount`.
- **Service `ClusterName` value** (line 332). The value is `clustername.toString()`
  of the list of cluster names that `describeClusters` returned, that is the
  names joined by ",".
- **Empty response** (line 104). The formatter returns no lines, but
  `console.log("")` still writes one empty line. See `ConsoleOutput`.

## Model

| member | source | states |
|---|---|---|
| Query.PeriodOrDefault | cw2graphite.js:154 | `period \|\| 60`: an absent or zero period becomes 60; any other period is kept; the result is never 0 |
| Query.BuildMetricQuery | cw2graphite.js:147-156 | namespace, name, unit and dimensions are copied unchanged; `Statistics` is exactly the one-element list of the statistic; the period is defaulted; no time window yet |
| Query.Stamp | cw2graphite.js:92-95 | start and end time are set to the run's window, and resetting those two fields gives back the original query: no other field changes |
| Text.ReplaceFirst | cw2graphite.js:116 | `replace("/", ".")`: same length; unchanged when there is no "/"; otherwise only the first "/" becomes ".", and everything before and after it is kept |
| Text.ToLower | cw2graphite.js:142 | same length, and each character is mapped by ASCII lower-casing |
| Text.ToLowerNoUpper | cw2graphite.js:142 | a lower-cased string has no upper-case letter |
| Text.IntToStringRoundTrip | cw2graphite.js:120-121 | the decimal text of the epoch seconds is digits with an optional leading "-", and it reads back as the same integer |
| Format.GraphitePrefix | cw2graphite.js:15 | `carbonNameSpacePrefix \|\| 'cloudwatch'`: a configured non-empty prefix is used, otherwise "cloudwatch"; the result is never empty |
| Format.Value | cw2graphite.js:119 | the value is the datapoint's field named by the query's statistics, or "undefined" when there is no such field |
| Format.BuiltQueryValue | cw2graphite.js:119 | for a query from `buildMetricQuery`, the field key is exactly its one statistic |
| Format.EpochSeconds | cw2graphite.js:120 | `parseInt(ms / 1000)`: the quotient truncated toward zero, bounded on both sides for either sign |
| Text.Join | cw2graphite.js:113 | `.join(sep)`: no parts give "", one part gives itself, and further parts follow a separator each (also the joins at lines 104 and 132) |
| Format.StatisticsText | cw2graphite.js:119 | the `Statistics` list where a string is needed: its elements joined by ","; for a one-element list, that element (also line 138) |
| Format.TimeText | cw2graphite.js:120-121 | the epoch seconds rendered in decimal: digits, with a leading "-" exactly when negative, reading back as the truncated epoch seconds |
| Format.NamespacePath | cw2graphite.js:116 | the namespace with its first "/" replaced by "." (also line 135) |
| Format.NameValueTokens | cw2graphite.js:111-112 | the `_.map` callback of `newFormat`: one `Name_Value` token per dimension, in order |
| Format.ValueTokens | cw2graphite.js:130-131 | the `_.map` callback of `legacyFormat`: the value of each dimension, in order |
| Format.NewPrefix | cw2graphite.js:111-113 | `dimension_prefix` of `newFormat`: the `Name_Value` tokens joined by "." |
| Format.LegacyPrefix | cw2graphite.js:130-132 | `dimension_prefix` of `legacyFormat`: the dimension values joined by "." |
| Format.NewPath | cw2graphite.js:115-118 | the `newFormat` path: namespace path, ".", `NewPrefix` of the dimensions, ".", metric name |
| Format.NewLine | cw2graphite.js:115-121 | the `newFormat` line: path, " ", value, " ", epoch seconds |
| Format.LegacyPath | cw2graphite.js:134-139 | the `legacyFormat` path before lower-casing: namespace path, `LegacyPrefix` of the dimensions, metric name, statistics, unit, separated by "." |
| Format.LegacyLine | cw2graphite.js:134-142 | the `legacyFormat` line: Graphite prefix, ".", the lower-cased path, " ", value, " ", epoch seconds |
| Format.NewFormat | cw2graphite.js:110-123 | one line per datapoint, in datapoint order, each the `newFormat` line of that datapoint; an empty list gives no lines |
| Format.NewLineFields | cw2graphite.js:115-121 | a `newFormat` line splits at spaces into exactly the path, the value and the time, and the time reads back as the truncated epoch seconds |
| Format.LegacyFormat | cw2graphite.js:127-144 | one line per datapoint, in datapoint order, each the `legacyFormat` line of that datapoint; an empty list gives no lines |
| Format.LegacyLineFields | cw2graphite.js:134-142 | a `legacyFormat` line splits at spaces into exactly the prefix with the lower-cased path, the value and the time, and the time reads back as the epoch seconds |
| Format.LegacyLineLead | cw2graphite.js:142 | every legacy line starts with the Graphite prefix, unchanged, and a "." |
| Format.LegacyCaseConfined | cw2graphite.js:142 | lower-casing is confined to the path: the prefix and the value keep their case, and the path part of the first field has no upper-case letter |
| Format.FormatResponse | cw2graphite.js:103 | the `legacyFormat` flag picks the formatter, and the result has one line per datapoint in either case |
| Format.FormatIgnoresWindow | cw2graphite.js:92-104 | formatting the stamped query gives the same lines as formatting the unstamped one |
| Format.ConsoleOutput | cw2graphite.js:104 | the console output always ends with a newline; no lines still write one empty line |
| Format.ConsoleOutputLines | cw2graphite.js:104 | lines without newlines are recovered from the console output by splitting it at newlines |
| Format.ExampleNamespaceFirstSlash | cw2graphite.js:116 | "Custom/App/Web" becomes "Custom.App/Web": the second "/" stays |
| Format.ExampleNewFormat | cw2graphite.js:110-123 | `AWS/ELB`, `LoadBalancerName=myelb`, `Latency` gives `AWS.ELB.LoadBalancerName_myelb.Latency 0.42 1700000000` |
| Format.ExampleLegacyFormat | cw2graphite.js:127-144 | the same query under the default prefix gives `cloudwatch.aws.elb.myelb.latency.average.seconds 0.42 1700000000` |
| Resources.TwoDimensionPrefixes | cw2graphite.js:111-113 | with two dimensions, the `newFormat` prefix is `Name_Value.Name_Value` and the `legacyFormat` prefix is `Value.Value` |
| Resources.ELBDimensions | cw2graphite.js:175 | a single `LoadBalancerName` dimension holding the load balancer's name, with the path prefixes it yields in both formats |
| Resources.RDSDimensions | cw2graphite.js:201 | a single `DBInstanceIdentifier` dimension holding the instance identifier, with both path prefixes |
| Resources.CacheNodeDimensions | cw2graphite.js:219-220 | exactly `CacheClusterId` then `CacheNodeId`, the latter taken from the first node, with both path prefixes |
| Resources.CacheClusterDimensionSets | cw2graphite.js:218-221 | the mapping succeeds if and only if every cluster has a node, and then gives each cluster's dimensions in order; otherwise it fails at the first cluster without nodes |
| Resources.ECSClusterDimensions | cw2graphite.js:278-280 | a single `ClusterName` dimension holding the cluster name, with both path prefixes |
| Resources.ECSServiceDimensions | cw2graphite.js:331-334 | exactly `ClusterName` then `ServiceName`; the cluster value is the cluster names joined by ","; with both path prefixes |
| Resources.LambdaDimensions | cw2graphite.js:358-360 | a single `FunctionName` dimension holding the function name, with both path prefixes |
| Resources.DimensionSets | cw2graphite.js:173-175 | one dimension list per discovered identifier, in discovery order |
| Catalog.ExpandUnit | cw2graphite.js:177-179 | one unit yields one query per pair, in pair order, each built by `buildMetricQuery` from that pair and unit |
| Catalog.CatalogQuery | cw2graphite.js:178 | the `buildMetricQuery(namespace, metric[0], unit, metric[1], dimensions)` call of the inner loop, with no period (also lines 204, 232, 281, 335, 361) |
| Catalog.Expand | cw2graphite.js:176-180 | one resource yields Σ over units of the number of pairs queries |
| Catalog.ExpandShape | cw2graphite.js:176-180 | every query of one resource has the namespace, that resource's dimensions, period 60 and one statistic, and its unit and pair come from the catalog |
| Catalog.ExpandAt | cw2graphite.js:176-180 | pair `j` of unit `i` is query number `Offset(i) + j`, built from that unit and that pair |
| Catalog.ExpandAll | cw2graphite.js:173-181 | the resource loop as a function: the catalog expansion of each dimension set, one resource after another |
| Catalog.ExpandAllCount | cw2graphite.js:173-181 | n resources yield n × Σ over units of the number of pairs queries; duplicate pairs are kept |
| Catalog.ExpandAllAt | cw2graphite.js:173-181 | query `k` of resource `r` is query number `r × size + k` of the whole run |
| Catalog.ExpandAllShapeAt | cw2graphite.js:173-181 | query number `r × size + k` carries resource `r`'s dimensions and the catalog's shape |
| Catalog.ExpandAllOrder | cw2graphite.js:173-181 | the order is resource, then unit, then pair: query number `r × size + Offset(i) + j` is built from resource `r`, unit `i` and pair `j` |
| Emit.QuerySink.PrintMetric | cw2graphite.js:90-97 | the sink receives exactly the stamped query, appended after the earlier ones |
| Emit.EmitUnit | cw2graphite.js:177-179 | the innermost `forEach` sends, in order, the stamped queries of one unit |
| Emit.EmitCatalog | cw2graphite.js:176-180 | the unit loop sends, in order, the stamped queries of one resource's catalog expansion |
| Emit.EmitResources | cw2graphite.js:173-181 | the resource loop sends, in order, the stamped expansion of every resource |
| Emit.GetELBMetrics | cw2graphite.js:172-182 | sends the `AWS/ELB` expansion over the load balancers' `LoadBalancerName` dimensions |
| Emit.GetRDSMetrics | cw2graphite.js:198-208 | sends the `AWS/RDS` expansion over the instances' `DBInstanceIdentifier` dimensions |
| Emit.GetElasticCacheMetrics | cw2graphite.js:227-236 | sends the `AWS/ElastiCache` expansion over the given node dimension lists |
| Emit.GetECSClusterMetrics | cw2graphite.js:273-285 | sends the `AWS/ECS` expansion over the cluster names' `ClusterName` dimensions |
| Emit.ServiceDimensionSets | cw2graphite.js:327-334 | one `[ClusterName, ServiceName]` dimension list per service, in order, all with the same joined cluster names |
| Emit.GetECSServiceMetrics | cw2graphite.js:325-340 | sends nothing for an empty service list; otherwise the `AWS/ECS` expansion over the services' `[ClusterName, ServiceName]` dimensions |
| Emit.GetLambdaMetrics | cw2graphite.js:353-365 | sends the `AWS/Lambda` expansion over the functions' `FunctionName` dimensions |
| Emit.GetAdHocMetrics | cw2graphite.js:86-88 | the configuration's own queries are sent as they are, stamped, in order |
| Emit.CacheQueries | cw2graphite.js:218-236 | no cache queries once any cluster has no nodes; otherwise resources × catalog-size queries |
| Emit.CacheQueryAt | cw2graphite.js:218-232 | query number `r × size + k` of the cache run is an `AWS/ElastiCache` query with cluster `r`'s dimensions |
| Emit.EmitElastiCache | cw2graphite.js:58-60 | the cache pipeline sends exactly the stamped cache queries: none when the mapping throws |
| Emit.ECSQueries | cw2graphite.js:68-79 | the queries of one cluster ARN: none without service ARNs, otherwise the cluster expansion followed by the service expansion |
| Emit.EmitECSCluster | cw2graphite.js:68-79 | for one cluster ARN, the pipeline sends the stamped `ECSQueries`: the cluster queries, then the service queries, or nothing when there are no service ARNs |
| Emit.ECSQueriesCount | cw2graphite.js:306-322 | no service ARNs means no queries at all for that cluster ARN; otherwise cluster names × cluster-catalog size + services × service-catalog size |
| Emit.ECSClusterQueryAt | cw2graphite.js:72-74 | the cluster-level queries come first: query `c × size + k` is an `AWS/ECS` query with a single `ClusterName` dimension of cluster name `c` |
| Emit.ECSServiceQueryAt | cw2graphite.js:72-74 | the service queries follow: after all cluster queries, query `s × size + k` is an `AWS/ECS` query with `ClusterName` (the joined cluster names) and `ServiceName` of service `s` |

## Left out

- Calls to the cloud provider are not modelled, because they are foreign network
  calls. This covers `describeLoadBalancers`, `describeDBInstances`,
  `describeCacheClusters`, `listClusters`, `describeClusters`, `listServices`,
  `describeServices`, `listFunctions` and `getMetricStatistics`. Their results
  (identifiers, datapoints) are parameters, and the sink records what would be sent.
- The relative order of the discovery pipelines is not modelled, because it is
  decided by when asynchronous responses arrive. This covers ELB, cache, RDS, ECS
  and Lambda, and also the order across ECS cluster ARNs. Each pipeline is
  modelled on its own. The ad hoc queries (lines 86-88) are sent synchronously,
  before any discovery callback (lines 53-84) can run, so they always go first;
  only the order of their output lines depends on when the responses arrive.
- The discovery error paths (for example lines 162-165) are not modelled. They call
  `callback([])` and then read `data`, which fails at run time.
- The crash that follows a `TypeError` in the cache mapping is not modelled. The
  model shows only that no cache queries are sent.
- Configuration loading (line 1) is not modelled, because it is code outside this
  file. The time-window computation (lines 37-40) is not modelled either, because
  it is library code; the two window strings are a parameter.
- JavaScript's rendering of the datapoint values (floating-point numbers) is not
  modelled: they are opaque strings. A timestamp is integer milliseconds, and the
  integer rendering of its epoch seconds (line 121) is modelled by `TimeText`. Dates that are out of range
  and `NaN` timestamps are not modelled.
- Error output through `console.error` (lines 99-100) is not modelled.
- `toLowerCase` is modelled for ASCII letters only. Full Unicode case mapping is
  not modelled.
- Emit.QuerySink.PrintMetric: does not model that `printMetric` writes
  `StartTime`/`EndTime` into the caller's object. That object is shared with the
  configuration's ad hoc list and with the formatter. The model passes the stamped
  query by value; `FormatIgnoresWindow` shows the formatter's result does not
  depend on the stamp.
- Emit.GetELBMetrics: takes the catalog as a parameter. `getELBMetrics` reads the
  global `ELBMetrics` instead, which is the value its one caller passes (line 54).
- `Object.keys` and `for…in` order are taken as the order of the catalog and
  identifier sequences. Inherited enumerable properties are not modelled.
- The module-level `index` declared at line 86 and reused by the resource loops
  (lines 173, 199, 228, 274, 327, 354) is not modelled. Each loop runs
  synchronously to its end, so the loops cannot interleave on it.
