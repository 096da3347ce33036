/** The parts of a profile document the reporter skips, read back with the reader's own calls: the histogram
    of a node, the profiler configuration, and the head of the document. */
module ProfileValues {
  import opened Graphs
  import opened Json
  import opened ProfileText
  import opened ReadBack

  // ------------------------------------------------------------------ members read by key

  // The text after `key` and its colon, when the next member has that key.
  function AfterKey(s: string, key: string): (r: Option<string>) {
    var k := ReadString(s);
    if k.value == key then Some(Expect(k.rest, ':').rest) else None
  }

  function IntMember(s: string, key: string): (r: Option<Read<int>>) {
    match AfterKey(s, key)
    case None => None
    case Some(v) => Some(Read(ReadInt(v).value, Expect(ReadInt(v).rest, ',').rest))
  }

  function TextMember(s: string, key: string): (r: Option<Read<string>>) {
    match AfterKey(s, key)
    case None => None
    case Some(v) => Some(Read(ReadString(v).value, Expect(ReadString(v).rest, ',').rest))
  }

  function FlagMember(s: string, key: string): (r: Option<Read<bool>>) {
    match AfterKey(s, key)
    case None => None
    case Some(v) => Some(Read("true" <= SkipBlanks(v), Expect(SkipBool(v), ',').rest))
  }

  predicate Blanks(b: string) {
    forall i :: 0 <= i < |b| ==> IsBlank(b[i])
  }

  lemma AfterKeyBack(b: string, indent: string, key: string, value: string)
    requires Blanks(b) && Blanks(indent) && IsPlain(key)
    ensures AfterKey(b + KeyThen(indent, key, value), key) == Some(" " + value)
  {
    KeyBack(indent, key, value);
    SkipBlanksPast(b, KeyThen(indent, key, value));
    assert ReadString(b + KeyThen(indent, key, value)) == ReadString(KeyThen(indent, key, value));
    hide KeyThen, ReadString, IsPlain;
  }

  lemma CommaBack(t: string)
    ensures Expect(",\n" + t, ',').rest == "\n" + t
  {
    assert (",\n" + t)[1..] == "\n" + t;
  }

  lemma IntMemberBack(b: string, indent: string, key: string, n: int, t: string)
    requires Blanks(b) && Blanks(indent) && IsPlain(key)
    ensures IntMember(b + IntField(indent, key, n, t), key) == Some(Read(n, "\n" + t))
  {
    var value := IntText(n) + (",\n" + t);
    AfterKeyBack(b, indent, key, value);
    IntBack(n, ",\n" + t);
    SkipBlanksPast(" ", value);
    assert ReadInt(" " + value) == ReadInt(value);
    CommaBack(t);
    hide AfterKey, KeyThen, IntText, ReadInt, IsPlain;
  }

  lemma TextMemberBack(b: string, indent: string, key: string, text: string, t: string)
    requires Blanks(b) && Blanks(indent) && IsPlain(key)
    ensures TextMember(b + KeyThen(indent, key, QuotedThen(text, t)), key) == Some(Read(text, Expect(t, ',').rest))
  {
    var value := QuotedThen(text, t);
    AfterKeyBack(b, indent, key, value);
    StringBack(text, t);
    SkipBlanksPast(" ", value);
    assert ReadString(" " + value) == ReadString(value);
    hide AfterKey, KeyThen, QuotedThen, ReadString, IsPlain;
  }

  lemma FlagMemberBack(b: string, indent: string, key: string, flag: bool, t: string)
    requires Blanks(b) && Blanks(indent) && IsPlain(key)
    ensures FlagMember(b + KeyThen(indent, key, BoolText(flag) + (",\n" + t)), key) == Some(Read(flag, "\n" + t))
  {
    var value := BoolText(flag) + (",\n" + t);
    AfterKeyBack(b, indent, key, value);
    FlagText(flag, ",\n" + t);
    SkipBlanksPast(" ", value);
    assert SkipBool(" " + value) == SkipBool(value);
    CommaBack(t);
    hide AfterKey, KeyThen, BoolText, IsPlain;
  }

  lemma FlagText(flag: bool, t: string)
    ensures SkipBlanks(BoolText(flag) + t) == BoolText(flag) + t
    ensures "true" <= BoolText(flag) + t <==> flag
    ensures SkipBool(BoolText(flag) + t) == t
  {
    var w := BoolText(flag) + t;
    SolidStart(w);
    if flag {
      assert w[..4] == "true" && w[4..] == t;
    } else {
      assert w[0] == 'f' && w[..5] == "false" && w[5..] == t;
    }
  }

  // ------------------------------------------------------------------ lists of integers

  // The next `n` integers and the commas between them.
  function Ints(s: string, n: nat): (r: Read<seq<int>>)
    decreases n
  {
    if n == 0 then Read([], s)
    else
      var v := ReadInt(s);
      var r := Ints(Expect(v.rest, ',').rest, n - 1);
      Read([v.value] + r.value, r.rest)
  }

  lemma {:induction false} IntsBack(b: string, bs: seq<int>, s: string)
    requires Blanks(b) && bs != [] && s != "" && s[0] == ']'
    ensures Ints(b + (IntText(bs[0]) + BucketsThen(bs[1..], false, s)), |bs|) == Read(bs, s)
    decreases |bs|
  {
    hide IntText, ReadInt, Blanks;
    var rest := BucketsThen(bs[1..], false, s);
    var more := bs[1..];
    SolidStart(s);
    if more != [] {
      assert rest == ", " + (IntText(more[0]) + BucketsThen(more[1..], false, s));
      assert rest[1..] == " " + (IntText(more[0]) + BucketsThen(more[1..], false, s));
      SolidStart(rest);
      OneBlank();
      IntsBack(" ", more, s);
    }
    IntAhead(b, bs[0], rest);
    assert [bs[0]] + more == bs;
  }

  lemma OneBlank()
    ensures Blanks(" ")
  {
  }

  lemma IntAhead(b: string, n: int, rest: string)
    requires Blanks(b) && EndsNumber(rest)
    ensures ReadInt(b + (IntText(n) + rest)) == Read(n, rest)
  {
    IntBack(n, rest);
    SkipBlanksPast(b, IntText(n) + rest);
    hide IntText;
  }

  // ------------------------------------------------------------------ the histogram

  datatype Histogram = Histogram(interval: int, intervals: int, count: int, total: int, buckets: seq<int>)

  // The object after its opening brace, with so many buckets.
  function ReadHistogram(s: string, n: nat): (r: Option<Read<Histogram>>) {
    var size := IntMember(s, "interval_size_usec");
    if size.None? then None else
    var intervals := IntMember(size.value.rest, "num_intervals");
    if intervals.None? then None else
    var count := IntMember(intervals.value.rest, "count");
    if count.None? then None else
    var total := IntMember(count.value.rest, "total_usec");
    if total.None? then None else
    var buckets := AfterKey(total.value.rest, "buckets");
    if buckets.None? || !Expect(buckets.value, '[').value then None else
    var list := Ints(Expect(buckets.value, '[').rest, n);
    Some(Read(Histogram(size.value.value, intervals.value.value, count.value.value, total.value.value, list.value), list.rest))
  }

  /** A printed histogram says, key by key, the interval size, the number of intervals, the node's count and
      total and its buckets in order. */
  lemma HistogramValues(n: NodeProfile, tail: string)
    ensures var text := HistogramThen(n, tail);
      && Expect(text, '{') == Read(true, text[1..])
      && ReadHistogram(text[1..], |n.buckets|) ==
           Some(Read(Histogram(n.intervalUsec, n.intervals, n.count, n.total, n.buckets), "]\n    }" + tail))
  {
    WriterKeysArePlain();
    NoBlanks();
    hide KeyThen, IntField, BucketsThen, IsPlain, Blanks, IntMember, AfterKey, Ints, Expect;
    var close := "]\n    }" + tail;
    var list := BucketsThen(n.buckets, true, close);
    var buckets := KeyThen("      ", "buckets", "[" + list);
    var total := IntField("      ", "total_usec", n.total, buckets);
    var count := IntField("      ", "count", n.count, total);
    var intervals := IntField("      ", "num_intervals", n.intervals, count);
    var size := IntField("      ", "interval_size_usec", n.intervalUsec, intervals);
    assert HistogramThen(n, tail) == "{\n" + size;
    BraceOpens(size);
    IntMemberBack("\n", "      ", "interval_size_usec", n.intervalUsec, intervals);
    IntMemberBack("\n", "      ", "num_intervals", n.intervals, count);
    IntMemberBack("\n", "      ", "count", n.count, total);
    IntMemberBack("\n", "      ", "total_usec", n.total, buckets);
    AfterKeyBack("\n", "      ", "buckets", "[" + list);
    ListOpens(list);
    ListBack(n.buckets, close);
  }

  lemma NoBlanks()
    ensures Blanks("") && Blanks("\n") && Blanks("      ") && Blanks("    ") && Blanks("  ")
  {
  }

  lemma BraceOpens(inside: string)
    ensures Expect("{\n" + inside, '{') == Read(true, "\n" + inside) && ("{\n" + inside)[1..] == "\n" + inside
  {
    SolidStart("{\n" + inside);
    assert ("{\n" + inside)[1..] == "\n" + inside;
  }

  lemma ListOpens(list: string)
    ensures Expect(" " + ("[" + list), '[') == Read(true, list)
  {
    SkipBlanksPast(" ", "[" + list);
    SolidStart("[" + list);
    assert ("[" + list)[1..] == list;
  }

  lemma ListBack(bs: seq<int>, close: string)
    requires close != "" && close[0] == ']'
    ensures Ints(BucketsThen(bs, true, close), |bs|) == Read(bs, close)
  {
    if bs != [] {
      NoBlanks();
      IntsBack("", bs, close);
      var list := IntText(bs[0]) + BucketsThen(bs[1..], false, close);
      assert "" + list == list && BucketsThen(bs, true, close) == list;
    }
    hide Ints, IntText, BucketsThen;
  }

  // ------------------------------------------------------------------ the configuration and the document's head

  /** The printed configuration says, key by key, what the profiler was configured with. */
  lemma ConfigValues(c: ProfilerConfig, tail: string)
    ensures var text := ConfigThen(c, tail);
      && Expect(text, '{') == Read(true, text[1..])
      && var enabled := FlagMember(text[1..], "enable_profiler");
      && enabled.Some? && enabled.value.value == c.enabled
      && var size := IntMember(enabled.value.rest, "histogram_interval_size_usec");
      && size.Some? && size.value.value == c.intervalUsec
      && var intervals := IntMember(size.value.rest, "num_histogram_intervals");
      && intervals.Some? && intervals.value.value == c.intervals
      && var path := TextMember(intervals.value.rest, "trace_log_path");
         path.Some? && path.value.value == c.tracePath
  {
    WriterKeysArePlain();
    NoBlanks();
    hide KeyThen, IntField, IsPlain, Blanks, IntMember, TextMember, FlagMember, Expect, QuotedThen, BoolText;
    var path := KeyThen("    ", "trace_log_path", QuotedThen(c.tracePath, "\n  }" + tail));
    var intervals := IntField("    ", "num_histogram_intervals", c.intervals, path);
    var size := IntField("    ", "histogram_interval_size_usec", c.intervalUsec, intervals);
    var enabled := KeyThen("    ", "enable_profiler", BoolText(c.enabled) + (",\n" + size));
    assert ConfigThen(c, tail) == "{\n" + enabled;
    BraceOpens(enabled);
    FlagMemberBack("\n", "    ", "enable_profiler", c.enabled, size);
    IntMemberBack("\n", "    ", "histogram_interval_size_usec", c.intervalUsec, intervals);
    IntMemberBack("\n", "    ", "num_histogram_intervals", c.intervals, path);
    TextMemberBack("\n", "    ", "trace_log_path", c.tracePath, "\n  }" + tail);
  }

  lemma HeadKeysArePlain()
    ensures IsPlain("capture_time") && IsPlain("node_count") && IsPlain("profiler_config")
  {
  }

  /** The document opens with the capture time and the number of nodes, and then the configuration. */
  lemma HeadValues(time: string, c: ProfilerConfig, ns: seq<NodeProfile>, inside: string)
    requires inside == "\n" + TimeMember(time, c, ns)
    ensures Document(time, c, ns) == "{" + inside
    ensures var capture := TextMember(inside, "capture_time");
      && capture.Some? && capture.value.value == time
      && var count := IntMember(capture.value.rest, "node_count");
      && count.Some? && count.value.value == |ns|
      && AfterKey(count.value.rest, "profiler_config") == Some(" " + ConfigThen(c, ",\n" + NodesMember(ns)))
  {
    HeadKeysArePlain();
    NoBlanks();
    hide KeyThen, IsPlain, Blanks, IntMember, TextMember, AfterKey, Expect, QuotedThen, ConfigThen, NodesMember, IntField, IntText, Escaped, BoolText;
    CommaBack(CountMember(c, ns));
    TextMemberBack("\n", "  ", "capture_time", time, ",\n" + CountMember(c, ns));
    IntMemberBack("\n", "  ", "node_count", |ns|, ConfigMember(c, ns));
    AfterKeyBack("\n", "  ", "profiler_config", ConfigThen(c, ",\n" + NodesMember(ns)));
  }
}
