/** The profile document round trip: what Accumulate makes of the text WriteProfile produces. */
module ProfileRoundTrip {
  import opened Timestamps
  import opened Graphs
  import opened Json
  import opened ProfileText
  import opened ReadBack
  import opened ProfileReport

  function FieldsOf(n: NodeProfile): (f: NodeFields) {
    NodeFields(n.name, n.open, n.close, n.count, n.total, Unreadable(n.open) || Unreadable(n.close) || Unreadable(n.count) || Unreadable(n.total))
  }

  // The nodes recorded one after the other.
  function AllRecorded(data: seq<Accum>, ns: seq<NodeProfile>): (r: seq<Accum>)
    decreases |ns|
  {
    if ns == [] then data else AllRecorded(Recorded(data, FieldsOf(ns[0])), ns[1..])
  }

  // A double the stream printed in exponent form: a decimal and a lower-case e.
  predicate HasExponent(m: string) {
    exists k :: 0 < k < |m| && IsPlainDecimal(m[..k]) && m[k] == 'e'
  }

  ghost predicate MeansPrinted(ns: seq<NodeProfile>) {
    forall i :: 0 <= i < |ns| ==> IsPlainDecimal(ns[i].mean) || HasExponent(ns[i].mean)
  }

  ghost predicate MeansPlain(ns: seq<NodeProfile>) {
    forall i :: 0 <= i < |ns| ==> IsPlainDecimal(ns[i].mean)
  }

  // ------------------------------------------------------------------ one node

  predicate AllBlank(b: string) {
    forall i :: 0 <= i < |b| ==> IsBlank(b[i])
  }

  lemma FieldsPastBlanks(b: string, s: string, f: NodeFields)
    requires AllBlank(b)
    ensures Fields(b + s, f) == Fields(s, f)
  {
    SkipBlanksPast(b, s);
    if s == "" || b == "" {
      assert b + s == s || b + s == b;
    }
  }

  lemma KeyTurn(key: string, value: string, f: NodeFields)
    requires IsPlain(key) && key != ""
    ensures var s := KeyThen("    ", key, value);
      && s != "" && Expect(s, '}') == Read(false, SkipBlanks(s))
      && ReadString(SkipBlanks(s)) == Read(key, ": " + value) && Expect(": " + value, ':') == Read(true, " " + value)
  {
    var s := KeyThen("    ", key, value);
    KeyBack("    ", key, value);
    SkipBlanksPast("    ", QuotedThen(key, ": " + value));
    PlainEscaped(key);
    SolidStart(QuotedThen(key, ": " + value));
    assert SkipBlanks(s)[0] == '"';
  }

  // A field whose value leaves a comma is followed by the remaining fields.
  lemma FieldTurn(key: string, value: string, f: NodeFields, f': NodeFields, left: string)
    requires IsPlain(key) && key != ""
    requires FieldRead(key, " " + value, f) == Some(Read(f', left))
    ensures Fields(KeyThen("    ", key, value), f) == Fields(Expect(left, ',').rest, f')
  {
    hide FieldRead, KeyThen, IsPlain;
    KeyTurn(key, value, f);
  }

  lemma CommaNext(t: string, f: NodeFields)
    ensures Fields(Expect(",\n" + t, ',').rest, f) == Fields(t, f)
  {
    assert (",\n" + t)[1..] == "\n" + t;
    FieldsPastBlanks("\n", t, f);
  }

  lemma NodeKeysArePlain()
    ensures IsPlain("node_name") && IsPlain("open_runtime_usec") && IsPlain("close_runtime_usec") && IsPlain("process_count")
    ensures IsPlain("process_time_total_usec") && IsPlain("process_time_mean_usec") && IsPlain("process_runtime")
  {
  }

  // The fields ReadInt64 fills.
  predicate IsIntKey(key: string) {
    key == "open_runtime_usec" || key == "close_runtime_usec" || key == "process_count" || key == "process_time_total_usec"
  }

  function Filled(key: string, n: int, over: bool, f: NodeFields): (r: NodeFields) {
    var o := f.over || over;
    if key == "open_runtime_usec" then f.(open := n, over := o)
    else if key == "close_runtime_usec" then f.(close := n, over := o)
    else if key == "process_count" then f.(count := n, over := o)
    else f.(total := n, over := o)
  }

  function WithInt(key: string, n: int, f: NodeFields): (r: NodeFields) {
    Filled(key, n, Unreadable(n), f)
  }

  lemma IntRead(key: string, s: string, f: NodeFields)
    requires IsIntKey(key)
    ensures FieldRead(key, s, f) == Some(Read(Filled(key, ReadInt(s).value, IntOverflows(s), f), ReadInt(s).rest))
    ensures IsPlain(key) && key != ""
  {
    NodeKeysArePlain();
    hide ReadInt, IsPlain, IntOverflows;
  }

  lemma SpacedIntBack(n: int, tail: string)
    requires EndsNumber(tail)
    ensures ReadInt(" " + (IntText(n) + tail)) == Read(n, tail)
    ensures IntOverflows(" " + (IntText(n) + tail)) == Unreadable(n)
  {
    IntBack(n, tail);
    SkipBlanksPast(" ", IntText(n) + tail);
    hide IntText, DigitsFrom;
  }

  // An integer field of a node goes into the field it names.
  lemma IntFieldBack(key: string, n: int, t: string, f: NodeFields)
    requires IsIntKey(key)
    ensures Fields(IntField("    ", key, n, t), f) == Fields(t, WithInt(key, n, f))
  {
    hide IsPlain, KeyThen, Fields, IntText, FieldRead, Filled, IsIntKey, ReadInt, Expect, IntOverflows, Unreadable;
    var value := IntText(n) + (",\n" + t);
    SpacedIntBack(n, ",\n" + t);
    IntRead(key, " " + value, f);
    FieldTurn(key, value, f, WithInt(key, n, f), ",\n" + t);
    CommaNext(t, WithInt(key, n, f));
  }

  lemma NameBack(name: string, t: string, f: NodeFields)
    ensures Fields(KeyThen("    ", "node_name", QuotedThen(name, ",\n" + t)), f) == Fields(t, f.(name := name))
  {
    var value := QuotedThen(name, ",\n" + t);
    NodeKeysArePlain();
    StringBack(name, ",\n" + t);
    SkipBlanksPast(" ", value);
    assert ReadString(" " + value) == ReadString(value);
    hide IsPlain, KeyThen, Fields, QuotedThen;
    FieldTurn("node_name", value, f, f.(name := name), ",\n" + t);
    CommaNext(t, f.(name := name));
  }

  lemma MeanBack(m: string, t: string, f: NodeFields)
    requires IsPlainDecimal(m)
    ensures Fields(KeyThen("    ", "process_time_mean_usec", m + (",\n" + t)), f) == Fields(t, f)
  {
    var value := m + (",\n" + t);
    NodeKeysArePlain();
    DecimalBack(m, ",\n" + t);
    hide IsPlain, KeyThen, Fields, SkipNumber, IsPlainDecimal, FieldRead;
    SpacedNumber(value);
    MeanRead(" " + value, f);
    FieldTurn("process_time_mean_usec", value, f, f, ",\n" + t);
    CommaNext(t, f);
  }

  // With an exponent the number ends early.
  lemma ExponentLeft(m: string, t: string) returns (left: string)
    requires HasExponent(m)
    ensures left != "" && left[0] == 'e' && SkipNumber(" " + (m + t)) == left
  {
    var k: nat :| 0 < k < |m| && IsPlainDecimal(m[..k]) && m[k] == 'e';
    hide *;
    left := m[k..] + t;
    ExponentAt(m, t, k);
  }

  lemma ExponentAt(m: string, t: string, k: nat)
    requires 0 < k < |m| && IsPlainDecimal(m[..k]) && m[k] == 'e'
    ensures SkipNumber(" " + (m + t)) == m[k..] + t
  {
    hide IsPlainDecimal, SkipNumber;
    var left := m[k..] + t;
    assert EndsNumber(left);
    hide *;
    assert m == m[..k] + m[k..];
    Associate(m[..k], m[k..], t);
    SpacedNumber(m + t);
    DecimalBack(m[..k], left);
  }

  lemma SpacedNumber(s: string)
    ensures SkipNumber(" " + s) == SkipNumber(s)
  {
    hide SkipBlanks, DigitsFrom;
    SkipBlanksPast(" ", s);
  }

  lemma MeanRead(s: string, f: NodeFields)
    ensures FieldRead("process_time_mean_usec", s, f) == Some(Read(f, SkipNumber(s)))
  {
    hide SkipNumber;
  }

  // The object is abandoned at the `e`.
  lemma MeanStops(m: string, t: string, f: NodeFields) returns (left: string)
    requires HasExponent(m)
    ensures left != "" && left[0] == 'e'
    ensures Fields(KeyThen("    ", "process_time_mean_usec", m + (",\n" + t)), f) == Some(Read(f, left))
  {
    NodeKeysArePlain();
    hide IsPlain, KeyThen, Fields, SkipNumber, HasExponent, FieldRead;
    left := ExponentLeft(m, ",\n" + t);
    MeanRead(" " + (m + (",\n" + t)), f);
    FieldTurn("process_time_mean_usec", m + (",\n" + t), f, f, left);
    StopAtLetter(left, f);
  }

  lemma StopAtLetter(left: string, f: NodeFields)
    requires left != "" && left[0] == 'e'
    ensures Fields(Expect(left, ',').rest, f) == Some(Read(f, left))
  {
    SolidStart(left);
    assert Expect(left, ',').rest == left;
  }

  lemma RuntimeRead(s: string, f: NodeFields, left: string)
    requires SkipValue(s) == Some(left)
    ensures FieldRead("process_runtime", s, f) == Some(Read(f, left))
  {
    hide SkipValue;
  }

  lemma ObjectCloses(tail: string, f: NodeFields)
    ensures Fields(Expect("\n  }" + tail, ',').rest, f) == Some(Read(f, Expect(tail, ',').rest))
  {
    var closing := "}" + tail;
    assert "\n  }" + tail == "\n  " + closing && closing[1..] == tail;
    SkipBlanksPast("\n  ", closing);
    SolidStart(closing);
    assert Expect("\n  }" + tail, ',').rest == closing;
  }

  lemma RuntimeBack(n: NodeProfile, tail: string, f: NodeFields)
    ensures Fields(KeyThen("    ", "process_runtime", HistogramThen(n, "\n  }" + tail)), f) == Some(Read(f, Expect(tail, ',').rest))
  {
    NodeKeysArePlain();
    hide IsPlain, KeyThen, Fields, SkipValue, HistogramThen, FieldRead, Expect;
    HistogramBack(n, "\n  }" + tail);
    RuntimeRead(" " + HistogramThen(n, "\n  }" + tail), f, "\n  }" + tail);
    FieldTurn("process_runtime", HistogramThen(n, "\n  }" + tail), f, f, "\n  }" + tail);
    ObjectCloses(tail, f);
  }

  // Up to the mean every field is read back.
  lemma NumbersBack(n: NodeProfile, tail: string)
    ensures Fields(NodeInside(n, tail), NO_FIELDS) == Fields(NodeMean(n, tail), FieldsOf(n))
  {
    hide KeyThen, IntField, Fields, QuotedThen, NodeMean, IsPlain;
    var total := IntField("    ", "process_time_total_usec", n.total, NodeMean(n, tail));
    var count := IntField("    ", "process_count", n.count, total);
    var close := IntField("    ", "close_runtime_usec", n.close, count);
    FieldsPastBlanks("\n", KeyThen("    ", "node_name", QuotedThen(n.name, ",\n" + NodeNumbers(n, tail))), NO_FIELDS);
    var f0 := NO_FIELDS.(name := n.name);
    NameBack(n.name, NodeNumbers(n, tail), NO_FIELDS);
    var f1 := WithInt("open_runtime_usec", n.open, f0);
    var f2 := WithInt("close_runtime_usec", n.close, f1);
    var f3 := WithInt("process_count", n.count, f2);
    IntFieldBack("open_runtime_usec", n.open, close, f0);
    IntFieldBack("close_runtime_usec", n.close, count, f1);
    IntFieldBack("process_count", n.count, total, f2);
    IntFieldBack("process_time_total_usec", n.total, NodeMean(n, tail), f3);
    assert WithInt("process_time_total_usec", n.total, f3) == FieldsOf(n) by { hide Unreadable; }
  }

  /** One printed node is read back field by field, up to the comma that may follow it. */
  lemma NodeBack(n: NodeProfile, tail: string)
    requires IsPlainDecimal(n.mean)
    ensures Fields(NodeInside(n, tail), NO_FIELDS) == Some(Read(FieldsOf(n), Expect(tail, ',').rest))
  {
    NumbersBack(n, tail);
    hide KeyThen, Fields, HistogramThen, NodeInside, IsPlainDecimal;
    var runtime := KeyThen("    ", "process_runtime", HistogramThen(n, "\n  }" + tail));
    MeanBack(n.mean, runtime, FieldsOf(n));
    RuntimeBack(n, tail, FieldsOf(n));
  }

  // ------------------------------------------------------------------ the node list

  lemma NodesOpen(s: string, inside: string, data: seq<Accum>)
    requires SkipBlanks(s) == "{" + inside && s != ""
    ensures Nodes(s, data) ==
      match Fields(inside, NO_FIELDS)
      case None => None
      case Some(f) => Nodes(f.rest, Recorded(data, f.value))
  {
    var w := "{" + inside;
    assert w[1..] == inside;
    SolidStart(w);
    assert Expect(s, ']') == Read(false, w) && Expect(w, '{') == Read(true, inside);
    hide Fields, Recorded;
  }

  // The array after its opening bracket, or after the comma of the previous node.
  lemma NodesTurn(s: string, n: NodeProfile, tail: string, data: seq<Accum>)
    requires SkipBlanks(s) == "{" + NodeInside(n, tail) && s != ""
    ensures IsPlainDecimal(n.mean) ==> Nodes(s, data) == Nodes(Expect(tail, ',').rest, Recorded(data, FieldsOf(n)))
    ensures HasExponent(n.mean) && !IsPlainDecimal(n.mean) ==> Nodes(s, data) == None
  {
    hide NodeInside, NodeThen, IsPlainDecimal, HasExponent, Recorded, Fields, Nodes, Expect, SkipBlanks, KeyThen, HistogramThen;
    var inside := NodeInside(n, tail);
    NodesOpen(s, inside, data);
    if IsPlainDecimal(n.mean) {
      NodeBack(n, tail);
    } else if HasExponent(n.mean) {
      NumbersBack(n, tail);
      var left := MeanStops(n.mean, KeyThen("    ", "process_runtime", HistogramThen(n, "\n  }" + tail)), FieldsOf(n));
      NodesSpin(left, Recorded(data, FieldsOf(n)));
    }
  }

  // The array loop looks at an `e` for ever.
  lemma NodesSpin(left: string, data: seq<Accum>)
    requires left != "" && left[0] == 'e'
    ensures Nodes(left, data) == None
  {
    SolidStart(left);
    assert SkipNumber(left) == left;
  }

  lemma ListEnds(data: seq<Accum>)
    ensures Nodes(Expect(LIST_END, ',').rest, data) == Some(Read(data, "\n}\n"))
    ensures Nodes("\n" + LIST_END, data) == Some(Read(data, "\n}\n"))
  {
    var w := "]\n}\n";
    assert LIST_END == "\n  " + w && "\n" + LIST_END == "\n\n  " + w && w[1..] == "\n}\n";
    SkipBlanksPast("\n  ", w);
    SkipBlanksPast("\n\n  ", w);
    SolidStart(w);
    assert Expect(LIST_END, ',').rest == w;
  }

  lemma NodeStarts(n: NodeProfile, tail: string)
    ensures Expect(",\n" + NodeThen(n, tail), ',').rest == "\n" + NodeThen(n, tail)
    ensures SkipBlanks("\n" + NodeThen(n, tail)) == "{" + NodeInside(n, tail)
  {
    hide NodeInside;
    var w := "{" + NodeInside(n, tail);
    assert (",\n" + NodeThen(n, tail))[1..] == "\n" + NodeThen(n, tail);
    assert "\n" + NodeThen(n, tail) == "\n  " + w;
    SkipBlanksPast("\n  ", w);
    SolidStart(w);
  }

  lemma {:induction false} NodesBack(ns: seq<NodeProfile>, data: seq<Accum>)
    requires MeansPrinted(ns)
    ensures Nodes(Expect(NodesThen(ns, false, LIST_END), ',').rest, data) ==
      if MeansPlain(ns) then Some(Read(AllRecorded(data, ns), "\n}\n")) else None
    decreases |ns|
  {
    hide NodeThen, NodeInside, Nodes, Recorded, IsPlainDecimal, HasExponent, Expect, SkipBlanks, LIST_END, MeansPlain;
    if ns == [] {
      ListEnds(data);
      NoMeans();
    } else {
      var tail := NodesThen(ns[1..], false, LIST_END);
      NodeStarts(ns[0], tail);
      NodesTurn("\n" + NodeThen(ns[0], tail), ns[0], tail, data);
      PlainSplit(ns);
      NodesBack(ns[1..], Recorded(data, FieldsOf(ns[0])));
    }
  }

  lemma NoMeans()
    ensures MeansPlain([])
  {
  }

  lemma PlainSplit(ns: seq<NodeProfile>)
    requires ns != []
    ensures MeansPlain(ns) <==> IsPlainDecimal(ns[0].mean) && MeansPlain(ns[1..])
  {
    hide IsPlainDecimal;
    if MeansPlain(ns[1..]) && IsPlainDecimal(ns[0].mean) {
      forall i | 0 <= i < |ns| ensures IsPlainDecimal(ns[i].mean) {
        assert i > 0 ==> ns[i] == ns[1..][i - 1];
      }
    }
  }

  // ------------------------------------------------------------------ the document

  // One top-level member that is skipped.
  lemma MemberSkipped(key: string, value: string, left: string, data: seq<Accum>)
    requires IsPlain(key) && key != "" && key != "nodes" && SkipValue(" " + value) == Some(",\n" + left)
    ensures Members(KeyThen("  ", key, value), data) == Members("\n" + left, data)
  {
    MemberKey(key, value);
    assert (",\n" + left)[1..] == "\n" + left;
    assert Expect(",\n" + left, ',').rest == "\n" + left;
    hide SkipValue, KeyThen, IsPlain;
  }

  lemma MemberKey(key: string, value: string)
    requires IsPlain(key) && key != ""
    ensures var s := KeyThen("  ", key, value);
      && s != "" && Expect(s, '}') == Read(false, SkipBlanks(s))
      && ReadString(SkipBlanks(s)) == Read(key, ": " + value) && Expect(": " + value, ':') == Read(true, " " + value)
  {
    var s := KeyThen("  ", key, value);
    KeyBack("  ", key, value);
    SkipBlanksPast("  ", QuotedThen(key, ": " + value));
    PlainEscaped(key);
    SolidStart(QuotedThen(key, ": " + value));
    assert SkipBlanks(s)[0] == '"';
  }

  lemma MembersPastBlanks(s: string, data: seq<Accum>)
    ensures Members("\n" + s, data) == Members(s, data)
  {
    SkipBlanksPast("\n", s);
    assert "\n" + s != "";
  }

  lemma QuotedSkipped(s: string, tail: string)
    ensures SkipValue(" " + QuotedThen(s, tail)) == Some(tail)
  {
    var q := QuotedThen(s, tail);
    SkipBlanksPast(" ", q);
    SolidStart(q);
    StringBack(s, tail);
    assert q[1..] == Escaped(s) + ("\"" + tail);
  }

  lemma NumberSkipped(w: string)
    requires w != "" && StartsNumber(w[0])
    ensures SkipValue(" " + w) == Some(SkipNumber(w))
  {
    hide SkipNumber, NestedRest, Chars, SkipBool, IntText;
    SkipBlanksPast(" ", w);
    SolidStart(w);
  }

  lemma IntSkipped(n: int, tail: string)
    requires EndsNumber(tail)
    ensures SkipValue(" " + (IntText(n) + tail)) == Some(tail)
  {
    hide SkipValue, SkipNumber;
    var w := IntText(n) + tail;
    assert w[0] == IntText(n)[0];
    NumberSkipped(w);
    IntBack(n, tail);
  }

  lemma ListMember(list: string, data: seq<Accum>)
    ensures Members(KeyThen("  ", "nodes", "[" + list), data) ==
      match Nodes(list, data)
      case None => None
      case Some(n) => Members(n.rest, n.value)
  {
    var value := "[" + list;
    MemberKey("nodes", value);
    SkipBlanksPast(" ", value);
    SolidStart(value);
    assert value[1..] == list;
    assert Expect(" " + value, '[') == Read(true, list);
    hide KeyThen, Nodes;
  }

  // The member holding the nodes, read to the end of the document.
  lemma NodesMemberBack(ns: seq<NodeProfile>, data: seq<Accum>)
    requires MeansPrinted(ns)
    ensures Members(NodesMember(ns), data) == if MeansPlain(ns) then Some(AllRecorded(data, ns)) else None
  {
    hide KeyThen, Nodes, NodesThen, LIST_END, MeansPlain, MeansPrinted, AllRecorded, Members;
    ListMember("\n" + NodesThen(ns, true, LIST_END), data);
    ListBack(ns, data);
    DocumentEnds(AllRecorded(data, ns));
  }

  lemma DocumentEnds(data: seq<Accum>)
    ensures Members("\n}\n", data) == Some(data)
  {
    SkipBlanksPast("\n", "}\n");
    assert "\n}\n" == "\n" + "}\n";
    SolidStart("}\n");
  }

  // The list right after its opening bracket.
  lemma ListBack(ns: seq<NodeProfile>, data: seq<Accum>)
    requires MeansPrinted(ns)
    ensures Nodes("\n" + NodesThen(ns, true, LIST_END), data) ==
      if MeansPlain(ns) then Some(Read(AllRecorded(data, ns), "\n}\n")) else None
  {
    hide NodeThen, NodeInside, Nodes, Recorded, IsPlainDecimal, HasExponent, Expect, SkipBlanks, LIST_END, MeansPlain;
    if ns == [] {
      ListEnds(data);
      NoMeans();
    } else {
      var tail := NodesThen(ns[1..], false, LIST_END);
      assert NodesThen(ns, true, LIST_END) == NodeThen(ns[0], tail);
      NodeStarts(ns[0], tail);
      NodesTurn("\n" + NodeThen(ns[0], tail), ns[0], tail, data);
      PlainSplit(ns);
      NodesBack(ns[1..], Recorded(data, FieldsOf(ns[0])));
    }
  }

  lemma HeadBack(time: string, c: ProfilerConfig, ns: seq<NodeProfile>, data: seq<Accum>)
    ensures Members(TimeMember(time, c, ns), data) == Members(ConfigMember(c, ns), data)
  {
    hide KeyThen, QuotedThen, Members, IsPlain, IntText, SkipValue, ConfigMember;
    TopKeysArePlain();
    QuotedSkipped(time, ",\n" + CountMember(c, ns));
    MemberSkipped("capture_time", QuotedThen(time, ",\n" + CountMember(c, ns)), CountMember(c, ns), data);
    MembersPastBlanks(CountMember(c, ns), data);
    IntSkipped(|ns|, ",\n" + ConfigMember(c, ns));
    MemberSkipped("node_count", IntText(|ns|) + (",\n" + ConfigMember(c, ns)), ConfigMember(c, ns), data);
    MembersPastBlanks(ConfigMember(c, ns), data);
  }

  /** The profile round trip: accumulating a written document records every node of it, in order, exactly
      when every mean was printed without an exponent; with one, the reader never returns. */
  lemma DocumentBack(time: string, c: ProfilerConfig, ns: seq<NodeProfile>, data: seq<Accum>)
    requires MeansPrinted(ns)
    ensures Accumulated(Document(time, c, ns), data) == if MeansPlain(ns) then Done(AllRecorded(data, ns)) else Spins
  {
    hide KeyThen, QuotedThen, ConfigThen, Members, IsPlain, SkipValue, Expect, MeansPlain, MeansPrinted, NodesMember, TimeMember;
    TopKeysArePlain();
    DocumentOpens(TimeMember(time, c, ns));
    MembersPastBlanks(TimeMember(time, c, ns), data);
    HeadBack(time, c, ns, data);
    ConfigBack(c, ",\n" + NodesMember(ns));
    MemberSkipped("profiler_config", ConfigThen(c, ",\n" + NodesMember(ns)), NodesMember(ns), data);
    MembersPastBlanks(NodesMember(ns), data);
    NodesMemberBack(ns, data);
  }

  lemma DocumentOpens(first: string)
    ensures Expect("{\n" + first, '{') == Read(true, "\n" + first)
  {
    SolidStart("{\n" + first);
    assert ("{\n" + first)[1..] == "\n" + first;
  }

  lemma TopKeysArePlain()
    ensures IsPlain("capture_time") && IsPlain("node_count") && IsPlain("profiler_config")
  {
  }

  // ------------------------------------------------------------------ reports

  ghost predicate NamesDistinct(ns: seq<NodeProfile>) {
    && (forall i :: 0 <= i < |ns| ==> ns[i].name != "")
    && (forall i, j :: 0 <= i < j < |ns| ==> ns[i].name != ns[j].name)
  }

  // The entry a node seen for the first time gets.
  function Fresh(n: NodeProfile): (r: Accum)
    ensures r.name == n.name && r.open == n.open && r.close == n.close && r.count == n.count && r.total == n.total
    ensures r.over == FieldsOf(n).over
  {
    Merged(NewEntry(n.name), FieldsOf(n))
  }

  function AllFresh(ns: seq<NodeProfile>): (r: seq<Accum>)
    ensures |r| == |ns| && forall i :: 0 <= i < |ns| ==> r[i] == Fresh(ns[i])
  {
    if ns == [] then [] else [Fresh(ns[0])] + AllFresh(ns[1..])
  }

  ghost predicate Unknown(data: seq<Accum>, ns: seq<NodeProfile>) {
    forall k, i :: 0 <= k < |data| && 0 <= i < |ns| ==> data[k].name != ns[i].name
  }

  lemma FirstSeen(data: seq<Accum>, ns: seq<NodeProfile>)
    requires ns != [] && NamesDistinct(ns) && Unknown(data, ns)
    ensures Recorded(data, FieldsOf(ns[0])) == data + [Fresh(ns[0])]
    ensures NamesDistinct(ns[1..]) && Unknown(data + [Fresh(ns[0])], ns[1..])
  {
    assert Place(data, ns[0].name) == |data|;
  }

  /** Distinct, non-empty names: every node gets an entry of its own, in the order of the document. */
  lemma {:induction false} DistinctNodesKept(data: seq<Accum>, ns: seq<NodeProfile>)
    requires NamesDistinct(ns) && Unknown(data, ns)
    ensures AllRecorded(data, ns) == data + AllFresh(ns)
    decreases |ns|
  {
    if ns != [] {
      FirstSeen(data, ns);
      hide NamesDistinct, Unknown, Recorded, Fresh;
      DistinctNodesKept(data + [Fresh(ns[0])], ns[1..]);
      assert data + [Fresh(ns[0])] + AllFresh(ns[1..]) == data + ([Fresh(ns[0])] + AllFresh(ns[1..]));
    }
  }

  // What the report says of one node.
  predicate Reports(s: NodeStats, n: NodeProfile) {
    s.name == n.name && s.open == n.open && s.close == n.close && s.count == n.count && s.total == n.total
  }

  // The partial sums of the nodes' counts and times.
  function CountsOf(ns: seq<NodeProfile>): (n: int) {
    if ns == [] then 0 else CountsOf(ns[..|ns| - 1]) + ns[|ns| - 1].count
  }

  function TimesOf(ns: seq<NodeProfile>): (n: int) {
    if ns == [] then 0 else TimesOf(ns[..|ns| - 1]) + ns[|ns| - 1].total
  }

  /** Every integer the reader sums up lies above INT64_MIN and within int64, and so do the report's totals at
      every node. */
  ghost predicate Fits(ns: seq<NodeProfile>) {
    && (forall i :: 0 <= i < |ns| ==>
          !Unreadable(ns[i].open) && !Unreadable(ns[i].close) && !Unreadable(ns[i].count) && !Unreadable(ns[i].total))
    && (forall k :: 0 <= k <= |ns| ==> InInt64(CountsOf(ns[..k])) && InInt64(TimesOf(ns[..k])))
  }

  /** End to end: write, accumulate into an empty reporter, report. No int64 sum overflows on the way exactly
      when the numbers fit; then the report lists exactly the written nodes, in order, with the same names,
      times, counts and totals. */
  method WriteThenReport(time: string, c: ProfilerConfig, ns: seq<NodeProfile>) returns (r: Report)
    requires NamesDistinct(ns) && MeansPlain(ns)
    ensures !r.over <==> Fits(ns)
    ensures !r.over ==> |r.nodes| == |ns| && forall i :: 0 <= i < |ns| ==> Reports(r.nodes[i], ns[i])
    ensures !r.over ==> r.totalCount == CountsOf(ns) && r.totalTime == TimesOf(ns)
  {
    hide Document, Accumulated, AllRecorded, NamesDistinct, MeansPlain, MeansPrinted, Reports, Stats, Fits, Sound, AllFresh;
    var text := WriteProfile(time, c, ns);
    var reporter := new Reporter();
    PlainIsPrinted(ns);
    DocumentBack(time, c, ns, []);
    var _ := reporter.Accumulate(text);
    AllReported(ns);
    r := reporter.MakeReport();
  }

  lemma PlainIsPrinted(ns: seq<NodeProfile>)
    requires MeansPlain(ns)
    ensures MeansPrinted(ns)
  {
    hide IsPlainDecimal, HasExponent;
  }

  lemma AllReported(ns: seq<NodeProfile>)
    requires NamesDistinct(ns)
    ensures var data := AllRecorded([], ns);
      && |data| == |ns| && (forall i :: 0 <= i < |ns| ==> Reports(Stats(data[i]), ns[i]))
      && (Sound(data) <==> Fits(ns)) && SumCounts(data) == CountsOf(ns) && SumTimes(data) == TimesOf(ns)
  {
    DistinctNodesKept([], ns);
    var data := AllFresh(ns);
    assert AllRecorded([], ns) == data;
    SumsAgree(data, ns);
    SoundWhenFits(ns);
    hide Sound, Fits, SumCounts, SumTimes, CountsOf, TimesOf, NamesDistinct, FieldsOf;
  }

  lemma SoundWhenFits(ns: seq<NodeProfile>)
    ensures Sound(AllFresh(ns)) <==> Fits(ns)
  {
    var data := AllFresh(ns);
    forall k | 0 <= k <= |ns| ensures SumCounts(data[..k]) == CountsOf(ns[..k]) && SumTimes(data[..k]) == TimesOf(ns[..k]) {
      SumsAgree(data[..k], ns[..k]);
    }
    forall i | 0 <= i < |ns|
      ensures data[i].over <==> Unreadable(ns[i].open) || Unreadable(ns[i].close) || Unreadable(ns[i].count) || Unreadable(ns[i].total)
    {
    }
    hide Unreadable, InInt64, SumCounts, SumTimes, CountsOf, TimesOf, Fresh, AllFresh, FieldsOf;
  }

  lemma {:induction false} SumsAgree(data: seq<Accum>, ns: seq<NodeProfile>)
    requires |data| == |ns| && forall i :: 0 <= i < |ns| ==> data[i].count == ns[i].count && data[i].total == ns[i].total
    ensures SumCounts(data) == CountsOf(ns) && SumTimes(data) == TimesOf(ns)
  {
    if ns != [] {
      SumsAgree(data[..|data| - 1], ns[..|ns| - 1]);
    }
  }

  lemma NodesKeyOf(rest: string)
    ensures Expect("{\"nodes\":[" + rest, '{') == Read(true, "\"nodes\":[" + rest)
    ensures Expect("\"nodes\":[" + rest, '}') == Read(false, "\"nodes\":[" + rest)
    ensures ReadString("\"nodes\":[" + rest) == Read("nodes", ":[" + rest)
    ensures Expect(":[" + rest, ':') == Read(true, "[" + rest) && Expect("[" + rest, '[') == Read(true, rest)
  {
    hide Escaped, Chars, ReadString;
    var w := "\"nodes\":[" + rest;
    SolidExpect('{', w);
    assert "{\"nodes\":[" + rest == ['{'] + w;
    SolidStart(w);
    SolidExpect(':', "[" + rest);
    assert ":[" + rest == [':'] + ("[" + rest);
    SolidExpect('[', rest);
    NodesKeyText();
    assert "\"nodes\":[" == "\"nodes\"" + ":[" && "\"nodes\"" == "\"" + "nodes\"" && "nodes\"" == "nodes" + "\"";
    Associate("\"nodes\"", ":[", rest);
    Associate("\"", "nodes\"", ":[" + rest);
    Associate("nodes", "\"", ":[" + rest);
    StringBack("nodes", ":[" + rest);
  }

  lemma SolidExpect(c: char, s: string)
    requires !IsBlank(c)
    ensures Expect([c] + s, c) == Read(true, s)
  {
    SolidStart([c] + s);
    assert ([c] + s)[1..] == s;
  }

  lemma NodesKeyText()
    ensures Escaped("nodes") == "nodes"
  {
    PlainEscaped("nodes");
  }
}
