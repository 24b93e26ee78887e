/**
 * The two Graphite plaintext-protocol formatters, `newFormat` and `legacyFormat`.
 * Each maps a query and the `Datapoints` of its response to one
 * `path value epochSeconds` line per datapoint.
 */
module Format {
  import opened Text
  import opened Query

  /**
   * One element of a response's `Datapoints`: its statistic fields, each value
   * already rendered as text, and its `Timestamp` as milliseconds since the epoch.
   */
  datatype Datapoint = Datapoint(fields: map<string, string>, timestampMs: int)

  const DEFAULT_GRAPHITE_PREFIX := "cloudwatch"

  /** `carbonNameSpacePrefix || 'cloudwatch'`: an absent or empty prefix becomes the default. */
  function GraphitePrefix(configured: Option<string>): (p: string)
    ensures p != ""
    ensures configured.Some? && configured.value != "" ==> p == configured.value
    ensures configured.None? || configured.value == "" ==> p == DEFAULT_GRAPHITE_PREFIX
  {
    match configured
    case Some(s) => if s != "" then s else DEFAULT_GRAPHITE_PREFIX
    case None => DEFAULT_GRAPHITE_PREFIX
  }

  /**
   * `query['Statistics']` where a string is needed: JavaScript turns the list into
   * its elements joined by ",".
   */
  function StatisticsText(q: MetricQuery): (t: string)
    ensures |q.statistics| == 1 ==> t == q.statistics[0]
  {
    Join(q.statistics, ",")
  }

  /** `point[query['Statistics']]`: "undefined" when the datapoint has no such field. */
  function Value(q: MetricQuery, p: Datapoint): (v: string)
    ensures StatisticsText(q) in p.fields ==> v == p.fields[StatisticsText(q)]
    ensures StatisticsText(q) !in p.fields ==> v == "undefined"
  {
    var key := StatisticsText(q);
    if key in p.fields then p.fields[key] else "undefined"
  }

  /** `parseInt(ms / 1000.0)`: the quotient truncated toward zero. */
  function EpochSeconds(ms: int): (s: int)
    ensures ms >= 0 ==> 0 <= s && s * 1000 <= ms < s * 1000 + 1000
    ensures ms < 0 ==> s <= 0 && s * 1000 - 1000 < ms <= s * 1000
  {
    if ms >= 0 then ms / 1000 else -((-ms) / 1000)
  }

  /** The epoch seconds as the line shows them; the text reads back as the number. */
  function TimeText(p: Datapoint): (t: string)
    ensures |t| >= 1 && (t[0] == '-' <==> EpochSeconds(p.timestampMs) < 0)
    ensures t[0] == '-' ==> |t| >= 2 && AllDigits(t[1..])
    ensures t[0] != '-' ==> AllDigits(t)
    ensures ParseInt(t) == EpochSeconds(p.timestampMs)
  {
    IntToStringRoundTrip(EpochSeconds(p.timestampMs));
    IntToString(EpochSeconds(p.timestampMs))
  }

  /** `namespace.replace("/", ".")`: only the first "/" becomes ".". */
  function NamespacePath(namespace: string): (path: string)
  {
    ReplaceFirst(namespace, '/', '.')
  }

  /** The `Name_Value` token of each dimension, in order. */
  function NameValueTokens(dims: seq<Dimension>): (t: seq<string>)
    ensures |t| == |dims|
    ensures forall k :: 0 <= k < |dims| ==> t[k] == dims[k].name + "_" + dims[k].value
  {
    seq(|dims|, k requires 0 <= k < |dims| => dims[k].name + "_" + dims[k].value)
  }

  /** The value of each dimension, in order. */
  function ValueTokens(dims: seq<Dimension>): (t: seq<string>)
    ensures |t| == |dims|
    ensures forall k :: 0 <= k < |dims| ==> t[k] == dims[k].value
  {
    seq(|dims|, k requires 0 <= k < |dims| => dims[k].value)
  }

  /** The dimension segment of a `newFormat` path. */
  function NewPrefix(dims: seq<Dimension>): (prefix: string)
  {
    Join(NameValueTokens(dims), ".")
  }

  /** The dimension segment of a `legacyFormat` path. */
  function LegacyPrefix(dims: seq<Dimension>): (prefix: string)
  {
    Join(ValueTokens(dims), ".")
  }

  /** The metric path of `newFormat`: namespace, `Name_Value` tokens, metric name. */
  function NewPath(q: MetricQuery): (path: string)
  {
    NamespacePath(q.namespace) + "." + NewPrefix(q.dimensions) + "." + q.metricName
  }

  function NewLine(q: MetricQuery, p: Datapoint): (line: string)
  {
    NewPath(q) + " " + Value(q, p) + " " + TimeText(p)
  }

  /** `newFormat(query, data)`: one line per datapoint, in datapoint order. */
  function NewFormat(q: MetricQuery, points: seq<Datapoint>): (lines: seq<string>)
    ensures |lines| == |points|
    ensures forall k :: 0 <= k < |points| ==> lines[k] == NewLine(q, points[k])
  {
    if points == [] then [] else [NewLine(q, points[0])] + NewFormat(q, points[1..])
  }

  /**
   * The metric path of `legacyFormat` before lower-casing: namespace, dimension
   * values, metric name, statistic, unit.
   */
  function LegacyPath(q: MetricQuery): (path: string)
  {
    NamespacePath(q.namespace) + "." + LegacyPrefix(q.dimensions) + "." + q.metricName
      + "." + StatisticsText(q) + "." + q.unit
  }

  function LegacyLine(prefix: string, q: MetricQuery, p: Datapoint): (line: string)
  {
    prefix + "." + ToLower(LegacyPath(q)) + " " + Value(q, p) + " " + TimeText(p)
  }

  /** `legacyFormat(query, data)` under the Graphite prefix: one line per datapoint, in order. */
  function LegacyFormat(prefix: string, q: MetricQuery, points: seq<Datapoint>): (lines: seq<string>)
    ensures |lines| == |points|
    ensures forall k :: 0 <= k < |points| ==> lines[k] == LegacyLine(prefix, q, points[k])
  {
    if points == [] then [] else [LegacyLine(prefix, q, points[0])] + LegacyFormat(prefix, q, points[1..])
  }

  /** The formatter `printMetric` picks from the `legacyFormat` configuration flag. */
  function FormatResponse(useLegacy: bool, prefix: string, q: MetricQuery, points: seq<Datapoint>): (lines: seq<string>)
    ensures |lines| == |points|
    ensures useLegacy ==> forall k :: 0 <= k < |points| ==> lines[k] == LegacyLine(prefix, q, points[k])
    ensures !useLegacy ==> forall k :: 0 <= k < |points| ==> lines[k] == NewLine(q, points[k])
  {
    if useLegacy then LegacyFormat(prefix, q, points) else NewFormat(q, points)
  }

  /**
   * What `console.log(lines.join("\n"))` writes for a successful response: the
   * lines joined by newlines, then one newline. An empty response still writes an
   * empty line.
   */
  function ConsoleOutput(lines: seq<string>): (out: string)
    ensures |out| >= 1 && out[|out| - 1] == '\n'
    ensures lines == [] ==> out == "\n"
  {
    Join(lines, "\n") + "\n"
  }

  /** Lines without newlines are recovered from the console output, one per line. */
  lemma ConsoleOutputLines(lines: seq<string>)
    requires |lines| >= 1
    requires forall k :: 0 <= k < |lines| ==> '\n' !in lines[k]
    ensures var out := ConsoleOutput(lines); Split(out[..|out| - 1], '\n') == lines
  {
    var text := Join(lines, "\n");
    assert ConsoleOutput(lines)[..|text|] == text;
    SplitJoin(lines, '\n');
  }

  // ---------------------------------------------------------------------------
  // Properties of the line shapes

  /** A rendered integer holds neither a space nor a letter. */
  lemma IntTextPlain(i: int, c: char)
    requires c == ' ' || ('A' <= c <= 'Z') || ('a' <= c <= 'z')
    ensures c !in IntToString(i)
  {
    var n: nat := if i < 0 then -i else i;
    var digits := NatToString(n);
    assert forall k :: 0 <= k < |digits| ==> digits[k] != c;
  }

  ghost predicate SpaceFree(s: string)
  {
    ' ' !in s
  }

  /** No space in any part of the query that reaches the path. */
  ghost predicate PathPartsSpaceFree(q: MetricQuery)
  {
    SpaceFree(q.namespace) && SpaceFree(q.metricName) && SpaceFree(q.unit) &&
    (forall k :: 0 <= k < |q.statistics| ==> SpaceFree(q.statistics[k])) &&
    (forall k :: 0 <= k < |q.dimensions| ==> SpaceFree(q.dimensions[k].name) && SpaceFree(q.dimensions[k].value))
  }

  lemma ThreeFields(a: string, b: string, c: string)
    ensures a + " " + b + " " + c == Join([a, b, c], " ")
  {
    assert [a, b, c][1..] == [b, c];
    assert [b, c][1..] == [c];
    assert Join([b, c], " ") == b + " " + c;
  }

  lemma NamespacePathSpaceFree(ns: string)
    requires SpaceFree(ns)
    ensures SpaceFree(NamespacePath(ns))
  {
    var r := NamespacePath(ns);
    assert forall k :: 0 <= k < |r| ==> r[k] != ' ';
  }

  lemma NewPathSpaceFree(q: MetricQuery)
    requires PathPartsSpaceFree(q)
    ensures SpaceFree(NewPath(q))
  {
    NamespacePathSpaceFree(q.namespace);
    var tokens := NameValueTokens(q.dimensions);
    forall k | 0 <= k < |tokens| ensures ' ' !in tokens[k] {
      assert tokens[k] == q.dimensions[k].name + "_" + q.dimensions[k].value;
    }
    JoinFree(tokens, ".", ' ');
  }

  lemma LegacyPathSpaceFree(q: MetricQuery)
    requires PathPartsSpaceFree(q)
    ensures SpaceFree(LegacyPath(q))
  {
    NamespacePathSpaceFree(q.namespace);
    JoinFree(ValueTokens(q.dimensions), ".", ' ');
    JoinFree(q.statistics, ",", ' ');
  }

  /**
   * A `newFormat` line is exactly three space-separated fields: the path, the
   * datapoint's value and the epoch seconds, and the last reads back as the
   * truncated timestamp.
   */
  lemma NewLineFields(q: MetricQuery, p: Datapoint)
    requires PathPartsSpaceFree(q) && SpaceFree(Value(q, p))
    ensures Split(NewLine(q, p), ' ') == [NewPath(q), Value(q, p), TimeText(p)]
    ensures ParseInt(TimeText(p)) == EpochSeconds(p.timestampMs)
  {
    NewPathSpaceFree(q);
    IntTextPlain(EpochSeconds(p.timestampMs), ' ');
    ThreeFields(NewPath(q), Value(q, p), TimeText(p));
    SplitJoin([NewPath(q), Value(q, p), TimeText(p)], ' ');
    IntToStringRoundTrip(EpochSeconds(p.timestampMs));
  }

  /**
   * A `legacyFormat` line is exactly three space-separated fields: the prefix with
   * the lower-cased path, the datapoint's value as it is, and the epoch seconds.
   */
  lemma LegacyLineFields(prefix: string, q: MetricQuery, p: Datapoint)
    requires SpaceFree(prefix) && PathPartsSpaceFree(q) && SpaceFree(Value(q, p))
    ensures Split(LegacyLine(prefix, q, p), ' ') ==
              [prefix + "." + ToLower(LegacyPath(q)), Value(q, p), TimeText(p)]
    ensures ParseInt(TimeText(p)) == EpochSeconds(p.timestampMs)
  {
    LegacyPathSpaceFree(q);
    ToLowerKeeps(LegacyPath(q), ' ');
    var head := prefix + "." + ToLower(LegacyPath(q));
    assert SpaceFree(head);
    IntTextPlain(EpochSeconds(p.timestampMs), ' ');
    ThreeFields(head, Value(q, p), TimeText(p));
    SplitJoin([head, Value(q, p), TimeText(p)], ' ');
    IntToStringRoundTrip(EpochSeconds(p.timestampMs));
  }

  /**
   * Lower-casing in `legacyFormat` is confined to the metric path: the Graphite
   * prefix and the value keep their case, and the path carries no upper-case letter.
   */
  lemma LegacyCaseConfined(prefix: string, q: MetricQuery, p: Datapoint)
    requires SpaceFree(prefix) && PathPartsSpaceFree(q) && SpaceFree(Value(q, p))
    // Repeats LegacyLineLead, so that the whole claim about case reads from one contract.
    ensures LegacyLine(prefix, q, p)[..|prefix| + 1] == prefix + "."
    ensures var fields := Split(LegacyLine(prefix, q, p), ' ');
            |fields| == 3 && fields[1] == Value(q, p) &&
            forall k :: |prefix| < k < |fields[0]| ==> !('A' <= fields[0][k] <= 'Z')
  {
    LegacyLineLead(prefix, q, p);
    LegacyLineFields(prefix, q, p);
    var path := ToLower(LegacyPath(q));
    ToLowerNoUpper(LegacyPath(q));
    NoUpperAfter(prefix + ".", path);
    assert |prefix + "."| == |prefix| + 1;
  }

  /** The Graphite prefix and its dot stand at the head of every legacy line, unchanged. */
  lemma LegacyLineLead(prefix: string, q: MetricQuery, p: Datapoint)
    ensures |prefix| + 1 <= |LegacyLine(prefix, q, p)|
    ensures LegacyLine(prefix, q, p)[..|prefix| + 1] == prefix + "."
  {
    var lead := prefix + ".";
    var rest := ToLower(LegacyPath(q)) + " " + Value(q, p) + " " + TimeText(p);
    assert LegacyLine(prefix, q, p) == lead + rest;
    assert (lead + rest)[..|lead|] == lead;
  }

  lemma NoUpperAfter(lead: string, tail: string)
    requires forall i :: 0 <= i < |tail| ==> !('A' <= tail[i] <= 'Z')
    ensures forall k :: |lead| <= k < |lead + tail| ==> !('A' <= (lead + tail)[k] <= 'Z')
  {
    forall k | |lead| <= k < |lead + tail| ensures !('A' <= (lead + tail)[k] <= 'Z') {
      assert (lead + tail)[k] == tail[k - |lead|];
    }
  }

  /**
   * The query `printMetric` formats is the one it stamped: the time window does not
   * reach any formatted line.
   */
  lemma FormatIgnoresWindow(useLegacy: bool, prefix: string, q: MetricQuery, w: TimeWindow, points: seq<Datapoint>)
    ensures FormatResponse(useLegacy, prefix, Stamp(q, w), points) == FormatResponse(useLegacy, prefix, q, points)
  {
    var a := FormatResponse(useLegacy, prefix, Stamp(q, w), points);
    var b := FormatResponse(useLegacy, prefix, q, points);
    assert forall k :: 0 <= k < |points| ==> a[k] == b[k];
  }

  /** For a query from `buildMetricQuery`, the value comes from the field named by its one statistic. */
  lemma BuiltQueryValue(namespace: string, name: string, unit: string, statistic: string,
                        dimensions: seq<Dimension>, period: Option<int>, p: Datapoint)
    ensures var q := BuildMetricQuery(namespace, name, unit, statistic, dimensions, period);
            StatisticsText(q) == statistic &&
            Value(q, p) == if statistic in p.fields then p.fields[statistic] else "undefined"
  {
  }

  // ---------------------------------------------------------------------------
  // The worked examples of the two formats

  // The worked examples below go through small lemmas about literal strings
  // (LiteralNewPath and the like) and a digit-by-digit chain in ExampleTime: the
  // solver evaluates a long concatenation of literals, or the rendering of a
  // ten-digit number, far more cheaply in such steps than in one piece.

  const EXAMPLE_QUERY := BuildMetricQuery("AWS/ELB", "Latency", "Seconds", "Average",
                                          [Dimension("LoadBalancerName", "myelb")], None)
  const EXAMPLE_POINT := Datapoint(map["Average" := "0.42"], 1700000000420)

  lemma ExampleNamespace()
    ensures NamespacePath(EXAMPLE_QUERY.namespace) == "AWS.ELB"
  {
    assert IndexOf("AWS/ELB", '/') == 3;
  }

  lemma ExampleValue()
    ensures Value(EXAMPLE_QUERY, EXAMPLE_POINT) == "0.42"
  {
    assert StatisticsText(EXAMPLE_QUERY) == "Average";
  }

  lemma ExampleTime()
    ensures TimeText(EXAMPLE_POINT) == "1700000000"
  {
    assert EpochSeconds(1700000000420) == 1700000000;
    assert NatToString(1) == "1";
    assert NatToString(17) == "17";
    assert NatToString(170) == "170";
    assert NatToString(1700) == "1700";
    assert NatToString(17000) == "17000";
    assert NatToString(170000) == "170000";
    assert NatToString(1700000) == "1700000";
    assert NatToString(17000000) == "17000000";
    assert NatToString(170000000) == "170000000";
    assert NatToString(1700000000) == "1700000000";
  }

  lemma ExampleNewPath()
    ensures NewPath(EXAMPLE_QUERY) == "AWS.ELB.LoadBalancerName_myelb.Latency"
  {
    ExampleNamespace();
    assert NewPrefix(EXAMPLE_QUERY.dimensions) == "LoadBalancerName_myelb";
    assert NewPath(EXAMPLE_QUERY) == "AWS.ELB" + "." + "LoadBalancerName_myelb" + "." + "Latency";
    LiteralNewPath();
  }

  lemma LiteralNewPath()
    ensures "AWS.ELB" + "." + "LoadBalancerName_myelb" + "." + "Latency" == "AWS.ELB.LoadBalancerName_myelb.Latency"
  {
  }

  lemma ExampleLegacyPath()
    ensures LegacyPath(EXAMPLE_QUERY) == "AWS.ELB.myelb.Latency.Average.Seconds"
  {
    ExampleNamespace();
    assert LegacyPrefix(EXAMPLE_QUERY.dimensions) == "myelb";
    assert StatisticsText(EXAMPLE_QUERY) == "Average";
    assert LegacyPath(EXAMPLE_QUERY) ==
             "AWS.ELB" + "." + "myelb" + "." + "Latency" + "." + "Average" + "." + "Seconds";
    LiteralLegacyPath();
  }

  lemma LiteralLegacyPath()
    ensures "AWS.ELB" + "." + "myelb" + "." + "Latency" + "." + "Average" + "." + "Seconds" ==
              "AWS.ELB.myelb.Latency.Average.Seconds"
  {
  }

  lemma ExampleLowered()
    ensures ToLower("AWS.ELB.myelb.Latency.Average.Seconds") == "aws.elb.myelb.latency.average.seconds"
  {
  }

  lemma ExampleNewFormat()
    ensures NewFormat(EXAMPLE_QUERY, [EXAMPLE_POINT]) ==
              ["AWS.ELB.LoadBalancerName_myelb.Latency 0.42 1700000000"]
  {
    ExampleNewPath();
    ExampleValue();
    ExampleTime();
    assert NewLine(EXAMPLE_QUERY, EXAMPLE_POINT) ==
             "AWS.ELB.LoadBalancerName_myelb.Latency" + " " + "0.42" + " " + "1700000000";
    LiteralNewLine();
  }

  lemma LiteralNewLine()
    ensures "AWS.ELB.LoadBalancerName_myelb.Latency" + " " + "0.42" + " " + "1700000000" ==
              "AWS.ELB.LoadBalancerName_myelb.Latency 0.42 1700000000"
  {
  }

  lemma ExampleLegacyFormat()
    ensures LegacyFormat(GraphitePrefix(None), EXAMPLE_QUERY, [EXAMPLE_POINT]) ==
              ["cloudwatch.aws.elb.myelb.latency.average.seconds 0.42 1700000000"]
  {
    ExampleLegacyPath();
    ExampleLowered();
    ExampleValue();
    ExampleTime();
    assert LegacyLine(GraphitePrefix(None), EXAMPLE_QUERY, EXAMPLE_POINT) ==
             "cloudwatch" + "." + "aws.elb.myelb.latency.average.seconds" + " " + "0.42" + " " + "1700000000";
    LiteralLegacyLine();
  }

  lemma LiteralLegacyLine()
    ensures "cloudwatch" + "." + "aws.elb.myelb.latency.average.seconds" + " " + "0.42" + " " + "1700000000" ==
              "cloudwatch.aws.elb.myelb.latency.average.seconds 0.42 1700000000"
  {
    var head := "cloudwatch" + "." + "aws.elb.myelb.latency.average.seconds";
    assert head == "cloudwatch.aws.elb.myelb.latency.average.seconds";
    assert head + " " == "cloudwatch.aws.elb.myelb.latency.average.seconds ";
    assert head + " " + "0.42" == "cloudwatch.aws.elb.myelb.latency.average.seconds 0.42";
    assert head + " " + "0.42" + " " == "cloudwatch.aws.elb.myelb.latency.average.seconds 0.42 ";
  }

  /** A namespace with two slashes keeps the second one. */
  lemma ExampleNamespaceFirstSlash()
    ensures NamespacePath("Custom/App/Web") == "Custom.App/Web"
  {
    assert IndexOf("Custom/App/Web", '/') == 6;
  }
}
