/** The profile document: the text WriteProfile produces, and the writer's appending loops. */
module ProfileText {
  import opened Timestamps
  import opened Json

  datatype ProfilerConfig = ProfilerConfig(enabled: bool, intervalUsec: int, intervals: int, tracePath: string)

  /** One node's data; the mean is the text the stream makes of a double. */
  datatype NodeProfile = NodeProfile(name: string, open: int, close: int, count: int, total: int, mean: string,
                                     intervalUsec: int, intervals: int, buckets: seq<int>)

  // ------------------------------------------------------------------ atoms

  function EscapedChar(c: char): (r: string)
    ensures r != ""
  {
    match c
    case '"' => "\\\""
    case '\\' => "\\\\"
    case '\n' => "\\n"
    case '\r' => "\\r"
    case '\t' => "\\t"
    case _ => [c]
  }

  function Escaped(s: string): (r: string) {
    if s == "" then "" else EscapedChar(s[0]) + Escaped(s[1..])
  }

  function Digit(d: nat): (c: char)
    requires d < 10
    ensures IsDigit(c) && c as int - '0' as int == d
  {
    ('0' as int + d) as char
  }

  function NatText(n: nat): (r: string)
    ensures r != "" && forall i :: 0 <= i < |r| ==> IsDigit(r[i])
  {
    if n < 10 then [Digit(n)] else NatText(n / 10) + [Digit(n % 10)]
  }

  function IntText(n: int): (r: string)
    ensures r != "" && StartsNumber(r[0])
  {
    if n < 0 then "-" + NatText(-n) else NatText(n)
  }

  // A double the stream printed without an exponent.
  predicate IsPlainDecimal(m: string) {
    var u := Unsigned(m);
    var n := DigitCount(u);
    n > 0 && (n == |u| || (u[n] == '.' && DigitCount(u[n + 1..]) == |u| - n - 1))
  }

  function BoolText(b: bool): (r: string) {
    if b then "true" else "false"
  }

  // ------------------------------------------------------------------ records, followed by `tail`

  function QuotedThen(s: string, tail: string): (r: string) {
    "\"" + (Escaped(s) + ("\"" + tail))
  }

  // indent"key": 
  function KeyThen(indent: string, key: string, tail: string): (r: string) {
    indent + ("\"" + (key + ("\"" + (": " + tail))))
  }

  function IntField(indent: string, key: string, n: int, tail: string): (r: string) {
    KeyThen(indent, key, IntText(n) + (",\n" + tail))
  }

  function BucketsThen(bs: seq<int>, first: bool, tail: string): (r: string) {
    if bs == [] then tail
    else (if first then "" else ", ") + (IntText(bs[0]) + BucketsThen(bs[1..], false, tail))
  }

  function HistogramThen(n: NodeProfile, tail: string): (r: string) {
    var buckets := KeyThen("      ", "buckets", "[" + BucketsThen(n.buckets, true, "]\n    }" + tail));
    var total := IntField("      ", "total_usec", n.total, buckets);
    var count := IntField("      ", "count", n.count, total);
    var intervals := IntField("      ", "num_intervals", n.intervals, count);
    "{\n" + IntField("      ", "interval_size_usec", n.intervalUsec, intervals)
  }

  function NodeMean(n: NodeProfile, tail: string): (r: string) {
    KeyThen("    ", "process_time_mean_usec", n.mean + (",\n" + KeyThen("    ", "process_runtime", HistogramThen(n, "\n  }" + tail))))
  }

  function NodeNumbers(n: NodeProfile, tail: string): (r: string) {
    var total := IntField("    ", "process_time_total_usec", n.total, NodeMean(n, tail));
    var count := IntField("    ", "process_count", n.count, total);
    var close := IntField("    ", "close_runtime_usec", n.close, count);
    IntField("    ", "open_runtime_usec", n.open, close)
  }

  // A node's text after its opening brace.
  function NodeInside(n: NodeProfile, tail: string): (r: string) {
    "\n" + KeyThen("    ", "node_name", QuotedThen(n.name, ",\n" + NodeNumbers(n, tail)))
  }

  function NodeThen(n: NodeProfile, tail: string): (r: string) {
    "  " + ("{" + NodeInside(n, tail))
  }

  function NodesThen(ns: seq<NodeProfile>, first: bool, tail: string): (r: string) {
    if ns == [] then tail
    else (if first then "" else ",\n") + NodeThen(ns[0], NodesThen(ns[1..], false, tail))
  }

  function ConfigThen(c: ProfilerConfig, tail: string): (r: string) {
    var path := KeyThen("    ", "trace_log_path", QuotedThen(c.tracePath, "\n  }" + tail));
    var intervals := IntField("    ", "num_histogram_intervals", c.intervals, path);
    var size := IntField("    ", "histogram_interval_size_usec", c.intervalUsec, intervals);
    "{\n" + KeyThen("    ", "enable_profiler", BoolText(c.enabled) + (",\n" + size))
  }

  const LIST_END := "\n  ]\n" + "}\n"

  function NodesMember(ns: seq<NodeProfile>): (r: string) {
    KeyThen("  ", "nodes", "[" + ("\n" + NodesThen(ns, true, LIST_END)))
  }

  function ConfigMember(c: ProfilerConfig, ns: seq<NodeProfile>): (r: string) {
    KeyThen("  ", "profiler_config", ConfigThen(c, ",\n" + NodesMember(ns)))
  }

  function CountMember(c: ProfilerConfig, ns: seq<NodeProfile>): (r: string) {
    IntField("  ", "node_count", |ns|, ConfigMember(c, ns))
  }

  function TimeMember(time: string, c: ProfilerConfig, ns: seq<NodeProfile>): (r: string) {
    KeyThen("  ", "capture_time", QuotedThen(time, ",\n" + CountMember(c, ns)))
  }

  /** The whole file. */
  function Document(time: string, c: ProfilerConfig, ns: seq<NodeProfile>): (r: string) {
    "{\n" + TimeMember(time, c, ns)
  }

  // ------------------------------------------------------------------ the writer

  lemma Associate(a: string, b: string, c: string)
    ensures (a + b) + c == a + (b + c)
  {
  }

  method WriteJsonString(os: string, s: string, ghost tail: string) returns (r: string)
    ensures r + tail == os + QuotedThen(s, tail)
  {
    r := os + "\"";
    Associate(os, "\"", Escaped(s) + ("\"" + tail));
    for i := 0 to |s|
      invariant r + (Escaped(s[i..]) + ("\"" + tail)) == os + QuotedThen(s, tail)
    {
      ghost var rest := Escaped(s[i + 1..]) + ("\"" + tail);
      assert s[i..][1..] == s[i + 1..];
      Associate(EscapedChar(s[i]), Escaped(s[i + 1..]), "\"" + tail);
      Associate(r, EscapedChar(s[i]), rest);
      match s[i]
      case '"' => r := r + "\\\"";
      case '\\' => r := r + "\\\\";
      case '\n' => r := r + "\\n";
      case '\r' => r := r + "\\r";
      case '\t' => r := r + "\\t";
      case c => r := r + [c];
    }
    assert s[|s|..] == "" && "" + ("\"" + tail) == "\"" + tail;
    Associate(r, "\"", tail);
    r := r + "\"";
  }

  // The `[`b0, b1, ...`]` list of a histogram.
  method WriteBuckets(os: string, bs: seq<int>, ghost tail: string) returns (r: string)
    ensures r + tail == os + BucketsThen(bs, true, tail)
  {
    r := os;
    for i := 0 to |bs|
      invariant r + BucketsThen(bs[i..], i == 0, tail) == os + BucketsThen(bs, true, tail)
    {
      assert bs[i..][1..] == bs[i + 1..];
      ghost var rest := BucketsThen(bs[i + 1..], false, tail);
      if i > 0 {
        Associate(r, ", ", IntText(bs[i]) + rest);
        r := r + ", ";
      } else {
        assert "" + (IntText(bs[i]) + rest) == IntText(bs[i]) + rest;
      }
      Associate(r, IntText(bs[i]), rest);
      r := r + IntText(bs[i]);
    }
  }

  method WriteKey(os: string, indent: string, key: string, ghost tail: string) returns (r: string)
    ensures r + tail == os + KeyThen(indent, key, tail)
  {
    r := os + indent + "\"" + key + "\"" + ": ";
    assert r + tail == os + indent + "\"" + key + "\"" + (": " + tail);
    assert os + indent + "\"" + key + "\"" + (": " + tail) == os + indent + "\"" + key + ("\"" + (": " + tail));
    assert os + indent + "\"" + key + ("\"" + (": " + tail)) == os + indent + "\"" + (key + ("\"" + (": " + tail)));
  }

  method WriteIntField(os: string, indent: string, key: string, n: int, ghost tail: string) returns (r: string)
    ensures r + tail == os + IntField(indent, key, n, tail)
  {
    r := WriteKey(os, indent, key, IntText(n) + (",\n" + tail));
    Associate(r, IntText(n), ",\n" + tail);
    Associate(r + IntText(n), ",\n", tail);
    r := r + IntText(n) + ",\n";
  }

  method WriteHistogram(os: string, n: NodeProfile, ghost tail: string) returns (r: string)
    ensures r + tail == os + HistogramThen(n, tail)
  {
    ghost var buckets := KeyThen("      ", "buckets", "[" + BucketsThen(n.buckets, true, "]\n    }" + tail));
    ghost var total := IntField("      ", "total_usec", n.total, buckets);
    ghost var count := IntField("      ", "count", n.count, total);
    ghost var intervals := IntField("      ", "num_intervals", n.intervals, count);
    Associate(os, "{\n", IntField("      ", "interval_size_usec", n.intervalUsec, intervals));
    assert HistogramThen(n, tail) == "{\n" + IntField("      ", "interval_size_usec", n.intervalUsec, intervals);
    hide KeyThen, IntField, BucketsThen, HistogramThen;
    r := WriteIntField(os + "{\n", "      ", "interval_size_usec", n.intervalUsec, intervals);
    r := WriteIntField(r, "      ", "num_intervals", n.intervals, count);
    r := WriteIntField(r, "      ", "count", n.count, total);
    r := WriteIntField(r, "      ", "total_usec", n.total, buckets);
    r := WriteKey(r, "      ", "buckets", "[" + BucketsThen(n.buckets, true, "]\n    }" + tail));
    Associate(r, "[", BucketsThen(n.buckets, true, "]\n    }" + tail));
    r := WriteBuckets(r + "[", n.buckets, "]\n    }" + tail);
    Associate(r, "]\n    }", tail);
    r := r + "]\n    }";
  }

  lemma NodeHead(os: string, n: NodeProfile, tail: string)
    ensures os + NodeThen(n, tail) ==
      os + "  " + "{" + "\n" + KeyThen("    ", "node_name", QuotedThen(n.name, ",\n" + NodeNumbers(n, tail)))
  {
    hide KeyThen, QuotedThen, NodeNumbers;
    var name := KeyThen("    ", "node_name", QuotedThen(n.name, ",\n" + NodeNumbers(n, tail)));
    Associate(os, "  ", "{" + ("\n" + name));
    Associate(os + "  ", "{", "\n" + name);
    Associate(os + "  " + "{", "\n", name);
  }

  lemma NodeParts(n: NodeProfile, tail: string)
    ensures NodeMean(n, tail) ==
      KeyThen("    ", "process_time_mean_usec", n.mean + (",\n" + KeyThen("    ", "process_runtime", HistogramThen(n, "\n  }" + tail))))
    ensures NodeNumbers(n, tail) ==
      IntField("    ", "open_runtime_usec", n.open, IntField("    ", "close_runtime_usec", n.close,
        IntField("    ", "process_count", n.count, IntField("    ", "process_time_total_usec", n.total, NodeMean(n, tail)))))
  {
    hide KeyThen, IntField, HistogramThen;
  }

  method WriteNodeDataJson(os: string, n: NodeProfile, ghost tail: string) returns (r: string)
    ensures r + tail == os + NodeThen(n, tail)
  {
    ghost var runtime := KeyThen("    ", "process_runtime", HistogramThen(n, "\n  }" + tail));
    ghost var mean := NodeMean(n, tail);
    ghost var total := IntField("    ", "process_time_total_usec", n.total, mean);
    ghost var count := IntField("    ", "process_count", n.count, total);
    ghost var close := IntField("    ", "close_runtime_usec", n.close, count);
    ghost var open := NodeNumbers(n, tail);
    hide KeyThen, IntField, QuotedThen, HistogramThen, NodeThen, NodeMean, NodeNumbers;
    NodeHead(os, n, tail);
    NodeParts(n, tail);
    r := WriteKey(os + "  " + "{" + "\n", "    ", "node_name", QuotedThen(n.name, ",\n" + open));
    r := WriteJsonString(r, n.name, ",\n" + open);
    Associate(r, ",\n", open);
    r := WriteIntField(r + ",\n", "    ", "open_runtime_usec", n.open, close);
    r := WriteIntField(r, "    ", "close_runtime_usec", n.close, count);
    r := WriteIntField(r, "    ", "process_count", n.count, total);
    r := WriteIntField(r, "    ", "process_time_total_usec", n.total, mean);
    r := WriteKey(r, "    ", "process_time_mean_usec", n.mean + (",\n" + runtime));
    Associate(r, n.mean, ",\n" + runtime);
    Associate(r + n.mean, ",\n", runtime);
    r := WriteKey(r + n.mean + ",\n", "    ", "process_runtime", HistogramThen(n, "\n  }" + tail));
    r := WriteHistogram(r, n, "\n  }" + tail);
    Associate(r, "\n  }", tail);
    r := r + "\n  }";
  }

  method WriteNodes(os: string, ns: seq<NodeProfile>, ghost tail: string) returns (r: string)
    ensures r + tail == os + NodesThen(ns, true, tail)
  {
    r := os;
    hide NodeThen, NodesThen;
    assert ns[0..] == ns;
    for i := 0 to |ns|
      invariant r + NodesThen(ns[i..], i == 0, tail) == os + NodesThen(ns, true, tail)
    {
      ghost var rest := NodesThen(ns[i + 1..], false, tail);
      NextNodeText(r, ns, i, tail);
      if i > 0 {
        r := r + ",\n";
      }
      r := WriteNodeDataJson(r, ns[i], rest);
    }
    assert NodesThen(ns[|ns|..], |ns| == 0, tail) == tail by { NoNodeText(ns, tail); }
  }

  lemma NoNodeText(ns: seq<NodeProfile>, tail: string)
    ensures NodesThen(ns[|ns|..], |ns| == 0, tail) == tail
  {
    hide NodeThen;
    assert ns[|ns|..] == [];
  }

  lemma NextNodeText(r: string, ns: seq<NodeProfile>, i: nat, tail: string)
    requires i < |ns|
    ensures r + NodesThen(ns[i..], i == 0, tail) ==
      (if i > 0 then r + ",\n" else r) + NodeThen(ns[i], NodesThen(ns[i + 1..], false, tail))
  {
    hide NodeThen;
    assert ns[i..][1..] == ns[i + 1..];
    var node := NodeThen(ns[i], NodesThen(ns[i + 1..], false, tail));
    if i > 0 {
      Associate(r, ",\n", node);
    } else {
      assert "" + node == node;
    }
  }

  method WriteProfilerConfigJson(os: string, c: ProfilerConfig, ghost tail: string) returns (r: string)
    ensures r + tail == os + ConfigThen(c, tail)
  {
    ghost var path := KeyThen("    ", "trace_log_path", QuotedThen(c.tracePath, "\n  }" + tail));
    ghost var intervals := IntField("    ", "num_histogram_intervals", c.intervals, path);
    ghost var size := IntField("    ", "histogram_interval_size_usec", c.intervalUsec, intervals);
    ghost var enabled := KeyThen("    ", "enable_profiler", BoolText(c.enabled) + (",\n" + size));
    Associate(os, "{\n", enabled);
    assert ConfigThen(c, tail) == "{\n" + enabled;
    hide KeyThen, IntField, QuotedThen, ConfigThen, BoolText;
    r := WriteKey(os + "{\n", "    ", "enable_profiler", BoolText(c.enabled) + (",\n" + size));
    Associate(r, BoolText(c.enabled), ",\n" + size);
    Associate(r + BoolText(c.enabled), ",\n", size);
    r := WriteIntField(r + BoolText(c.enabled) + ",\n", "    ", "histogram_interval_size_usec", c.intervalUsec, intervals);
    r := WriteIntField(r, "    ", "num_histogram_intervals", c.intervals, path);
    r := WriteKey(r, "    ", "trace_log_path", QuotedThen(c.tracePath, "\n  }" + tail));
    r := WriteJsonString(r, c.tracePath, "\n  }" + tail);
    Associate(r, "\n  }", tail);
    r := r + "\n  }";
  }

  method WriteProfile(time: string, c: ProfilerConfig, ns: seq<NodeProfile>) returns (r: string)
    ensures r == Document(time, c, ns)
  {
    ghost var nodes, config, count := NodesMember(ns), ConfigMember(c, ns), CountMember(c, ns);
    ghost var list := "\n" + NodesThen(ns, true, LIST_END);
    assert nodes == KeyThen("  ", "nodes", "[" + list);
    assert config == KeyThen("  ", "profiler_config", ConfigThen(c, ",\n" + nodes));
    assert count == IntField("  ", "node_count", |ns|, config);
    assert Document(time, c, ns) == "{\n" + KeyThen("  ", "capture_time", QuotedThen(time, ",\n" + count));
    hide KeyThen, IntField, QuotedThen, ConfigThen, NodesThen, Document, LIST_END, NodesMember, ConfigMember, CountMember, TimeMember;
    r := WriteKey("{\n", "  ", "capture_time", QuotedThen(time, ",\n" + count));
    r := WriteJsonString(r, time, ",\n" + count);
    Associate(r, ",\n", count);
    r := WriteIntField(r + ",\n", "  ", "node_count", |ns|, config);
    r := WriteKey(r, "  ", "profiler_config", ConfigThen(c, ",\n" + nodes));
    r := WriteProfilerConfigJson(r, c, ",\n" + nodes);
    Associate(r, ",\n", nodes);
    r := WriteKey(r + ",\n", "  ", "nodes", "[" + list);
    Associate(r, "[", list);
    Associate(r + "[", "\n", NodesThen(ns, true, LIST_END));
    r := WriteNodes(r + "[" + "\n", ns, LIST_END);
    r := r + LIST_END;
  }
}
