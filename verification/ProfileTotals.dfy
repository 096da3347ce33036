/** Accumulation over any number of documents: what the report says of a name, in terms of the nodes written
    under that name in all of them. */
module ProfileTotals {
  import opened Timestamps
  import opened Graphs
  import opened Json
  import opened ProfileText
  import opened ReadBack
  import opened ProfileReport
  import opened ProfileRoundTrip

  // ------------------------------------------------------------------ what the nodes of one name add up to

  function CountFor(ns: seq<NodeProfile>, name: string): (n: int) {
    if ns == [] then 0
    else CountFor(ns[..|ns| - 1], name) + if ns[|ns| - 1].name == name then ns[|ns| - 1].count else 0
  }

  function TotalFor(ns: seq<NodeProfile>, name: string): (n: int) {
    if ns == [] then 0
    else TotalFor(ns[..|ns| - 1], name) + if ns[|ns| - 1].name == name then ns[|ns| - 1].total else 0
  }

  function LastOf(ns: seq<NodeProfile>, name: string): (r: Option<NodeProfile>) {
    if ns == [] then None
    else if ns[|ns| - 1].name == name then Some(ns[|ns| - 1])
    else LastOf(ns[..|ns| - 1], name)
  }

  // A node that says something about the time per call.
  predicate Timed(n: NodeProfile, name: string) { n.name == name && n.count > 0 }

  function Average(n: NodeProfile): (q: int)
    requires n.count > 0
  {
    TruncDiv(n.total, n.count)
  }

  /** The smallest average of the name's timed nodes, INT64_MAX without any. */
  ghost predicate IsMin(ns: seq<NodeProfile>, name: string, m: int) {
    && m <= INT64_MAX
    && (forall i :: 0 <= i < |ns| && Timed(ns[i], name) ==> m <= Average(ns[i]))
    && (m == INT64_MAX || exists i :: 0 <= i < |ns| && Timed(ns[i], name) && m == Average(ns[i]))
  }

  /** The largest average of the name's timed nodes, never below 0. */
  ghost predicate IsMax(ns: seq<NodeProfile>, name: string, m: int) {
    && 0 <= m
    && (forall i :: 0 <= i < |ns| && Timed(ns[i], name) ==> Average(ns[i]) <= m)
    && (m == 0 || exists i :: 0 <= i < |ns| && Timed(ns[i], name) && m == Average(ns[i]))
  }

  ghost predicate Mentions(ns: seq<NodeProfile>, name: string) {
    exists i :: 0 <= i < |ns| && ns[i].name == name
  }

  lemma MentionsLast(ns: seq<NodeProfile>, name: string)
    requires ns != []
    ensures Mentions(ns, name) <==> Mentions(ns[..|ns| - 1], name) || ns[|ns| - 1].name == name
  {
    var init := ns[..|ns| - 1];
    if i :| 0 <= i < |init| && init[i].name == name {
      assert ns[i].name == name;
    }
    if i :| 0 <= i < |ns| && ns[i].name == name {
      assert i < |init| ==> init[i].name == name;
    }
  }

  /** The names in order of first appearance; unnamed nodes are not reported. */
  function FirstNames(ns: seq<NodeProfile>): (r: seq<string>)
    ensures forall i, j :: 0 <= i < j < |r| ==> r[i] != r[j]
  {
    if ns == [] then []
    else
      var last, names := ns[|ns| - 1], FirstNames(ns[..|ns| - 1]);
      if last.name == "" || last.name in names then names else names + [last.name]
  }

  lemma {:induction false} NamesAreMentioned(ns: seq<NodeProfile>, name: string)
    ensures name in FirstNames(ns) <==> name != "" && Mentions(ns, name)
  {
    if ns != [] {
      NamesAreMentioned(ns[..|ns| - 1], name);
      MentionsLast(ns, name);
    }
  }

  // Some int64 sum on the way to the name's entry overflowed.
  predicate OverFor(ns: seq<NodeProfile>, name: string) {
    ns != []
    && (OverFor(ns[..|ns| - 1], name)
        || (ns[|ns| - 1].name == name
            && (FieldsOf(ns[|ns| - 1]).over || !InInt64(CountFor(ns, name)) || !InInt64(TotalFor(ns, name)))))
  }

  // The running values of an entry.
  ghost predicate Tallies(e: Accum, ns: seq<NodeProfile>, name: string) {
    && e.name == name && e.count == CountFor(ns, name) && e.total == TotalFor(ns, name)
    && IsMin(ns, name, e.min) && IsMax(ns, name, e.max) && e.over == OverFor(ns, name)
  }

  ghost predicate EntryFor(e: Accum, ns: seq<NodeProfile>, name: string) {
    && Tallies(e, ns, name)
    && var last := LastOf(ns, name); last.Some? && e.open == last.value.open && e.close == last.value.close
  }

  // ------------------------------------------------------------------ one more node

  lemma Snoc(ns: seq<NodeProfile>, n: NodeProfile)
    ensures (ns + [n])[..|ns + [n]| - 1] == ns && (ns + [n])[|ns + [n]| - 1] == n
  {
  }

  lemma MinNext(ns: seq<NodeProfile>, n: NodeProfile, name: string, m: int)
    requires IsMin(ns, name, m)
    ensures IsMin(ns + [n], name, if Timed(n, name) && Average(n) < m then Average(n) else m)
  {
    var all := ns + [n];
    assert all[|ns|] == n && forall i :: 0 <= i < |ns| ==> all[i] == ns[i];
    hide Average;
    var m' := if Timed(n, name) && Average(n) < m then Average(n) else m;
    if m' != INT64_MAX && m' == m && !(Timed(n, name) && Average(n) == m) {
      var i :| 0 <= i < |ns| && Timed(ns[i], name) && m == Average(ns[i]);
      assert Timed(all[i], name) && m' == Average(all[i]);
    }
  }

  lemma MaxNext(ns: seq<NodeProfile>, n: NodeProfile, name: string, m: int)
    requires IsMax(ns, name, m)
    ensures IsMax(ns + [n], name, if Timed(n, name) && Average(n) > m then Average(n) else m)
  {
    var all := ns + [n];
    assert all[|ns|] == n && forall i :: 0 <= i < |ns| ==> all[i] == ns[i];
    hide Average;
    var m' := if Timed(n, name) && Average(n) > m then Average(n) else m;
    if m' != 0 && m' == m && !(Timed(n, name) && Average(n) == m) {
      var i :| 0 <= i < |ns| && Timed(ns[i], name) && m == Average(ns[i]);
      assert Timed(all[i], name) && m' == Average(all[i]);
    }
  }

  // Merging the node of that name keeps an entry's account.
  lemma MergedTallies(e: Accum, ns: seq<NodeProfile>, n: NodeProfile)
    requires Tallies(e, ns, n.name)
    ensures EntryFor(Merged(e, FieldsOf(n)), ns + [n], n.name)
  {
    Snoc(ns, n);
    MinNext(ns, n, n.name, e.min);
    MaxNext(ns, n, n.name, e.max);
    hide IsMin, IsMax, InInt64, Unreadable;
  }

  // A node of another name leaves it alone.
  lemma OtherTallies(e: Accum, ns: seq<NodeProfile>, n: NodeProfile, name: string)
    requires EntryFor(e, ns, name) && n.name != name
    ensures EntryFor(e, ns + [n], name)
  {
    Snoc(ns, n);
    MinNext(ns, n, name, e.min);
    MaxNext(ns, n, name, e.max);
    hide IsMin, IsMax, InInt64, FieldsOf;
  }

  lemma {:induction false} UnseenTallies(ns: seq<NodeProfile>, name: string)
    requires forall i :: 0 <= i < |ns| ==> ns[i].name != name
    ensures Tallies(NewEntry(name), ns, name)
  {
    if ns != [] {
      UnseenTallies(ns[..|ns| - 1], name);
    }
  }

  ghost predicate AllEntries(data: seq<Accum>, ns: seq<NodeProfile>) {
    && |data| == |FirstNames(ns)|
    && forall i :: 0 <= i < |data| ==> EntryFor(data[i], ns, FirstNames(ns)[i])
  }

  lemma RecordedEntries(data: seq<Accum>, ns: seq<NodeProfile>, n: NodeProfile)
    requires AllEntries(data, ns)
    ensures AllEntries(Recorded(data, FieldsOf(n)), ns + [n])
  {
    var names, data' := FirstNames(ns), Recorded(data, FieldsOf(n));
    Snoc(ns, n);
    var names' := FirstNames(ns + [n]);
    assert names' == if n.name == "" || n.name in names then names else names + [n.name];
    var p := Place(data, n.name);
    forall i | 0 <= i < |names| ensures data[i].name == names[i] {
      assert EntryFor(data[i], ns, names[i]);
    }
    forall i | 0 <= i < |names'| ensures i < |data'| && EntryFor(data'[i], ns + [n], names'[i]) {
      RecordedAt(data, ns, n, i);
    }
  }

  lemma RecordedAt(data: seq<Accum>, ns: seq<NodeProfile>, n: NodeProfile, i: nat)
    requires AllEntries(data, ns) && i < |FirstNames(ns + [n])|
    requires forall k :: 0 <= k < |FirstNames(ns)| ==> data[k].name == FirstNames(ns)[k]
    ensures |Recorded(data, FieldsOf(n))| == |FirstNames(ns + [n])|
    ensures EntryFor(Recorded(data, FieldsOf(n))[i], ns + [n], FirstNames(ns + [n])[i])
  {
    var names := FirstNames(ns);
    Snoc(ns, n);
    var p := Place(data, n.name);
    hide EntryFor, Tallies, Merged;
    NamesAreMentioned(ns, n.name);
    if n.name != "" && n.name !in names {
      assert p == |data|;
      UnseenTallies(ns, n.name);
      MergedTallies(NewEntry(n.name), ns, n);
    } else if n.name != "" {
      var k :| 0 <= k < |names| && names[k] == n.name;
      assert p <= k && data[p].name == n.name && p == k;
      EntryTallies(data[p], ns, n.name);
      MergedTallies(data[p], ns, n);
    }
    if i < |names| {
      assert EntryFor(data[i], ns, names[i]);
      NamesAreMentioned(ns, names[i]);
      assert names[i] in names;
      if names[i] != n.name {
        OtherTallies(data[i], ns, n, names[i]);
      }
    }
  }

  lemma EntryTallies(e: Accum, ns: seq<NodeProfile>, name: string)
    requires EntryFor(e, ns, name)
    ensures Tallies(e, ns, name)
  {
  }

  // ------------------------------------------------------------------ all of them

  lemma {:induction false} RecordedLast(data: seq<Accum>, ns: seq<NodeProfile>, n: NodeProfile)
    ensures AllRecorded(data, ns + [n]) == Recorded(AllRecorded(data, ns), FieldsOf(n))
    decreases |ns|
  {
    hide Recorded, FieldsOf;
    if ns == [] {
      assert ns + [n] == [n] && [n][1..] == [];
    } else {
      assert (ns + [n])[0] == ns[0] && (ns + [n])[1..] == ns[1..] + [n];
      RecordedLast(Recorded(data, FieldsOf(ns[0])), ns[1..], n);
    }
  }

  lemma {:induction false} RecordedConcat(data: seq<Accum>, a: seq<NodeProfile>, b: seq<NodeProfile>)
    ensures AllRecorded(data, a + b) == AllRecorded(AllRecorded(data, a), b)
    decreases |a|
  {
    hide Recorded, FieldsOf;
    if a == [] {
      assert a + b == b;
    } else {
      assert (a + b)[0] == a[0] && (a + b)[1..] == a[1..] + b;
      RecordedConcat(Recorded(data, FieldsOf(a[0])), a[1..], b);
    }
  }

  lemma {:induction false} EntriesOf(ns: seq<NodeProfile>)
    ensures AllEntries(AllRecorded([], ns), ns)
  {
    hide AllEntries, Recorded, FieldsOf;
    if ns == [] {
      NoEntries();
    } else {
      var init, n := ns[..|ns| - 1], ns[|ns| - 1];
      assert ns == init + [n];
      EntriesOf(init);
      RecordedLast([], init, n);
      RecordedEntries(AllRecorded([], init), init, n);
    }
  }

  lemma NoEntries()
    ensures AllEntries([], [])
  {
  }

  // ------------------------------------------------------------------ the report

  /** What the report says under one name. */
  ghost predicate LineFor(s: NodeStats, ns: seq<NodeProfile>, name: string) {
    var count, total, last := CountFor(ns, name), TotalFor(ns, name), LastOf(ns, name);
    && s.name == name && s.count == count && s.total == total
    && last.Some? && s.open == last.value.open && s.close == last.value.close
    && s.mean == (if count > 0 then total as real / count as real else 0.0)
    && (exists m :: IsMin(ns, name, m) && s.min == if m == INT64_MAX then 0 else m)
    && IsMax(ns, name, s.max)
  }

  lemma EntryLine(e: Accum, ns: seq<NodeProfile>, name: string)
    requires EntryFor(e, ns, name)
    ensures LineFor(Stats(e), ns, name)
  {
    assert IsMin(ns, name, e.min);
    hide IsMin, IsMax;
  }

  function NamedCounts(ns: seq<NodeProfile>): (n: int) {
    if ns == [] then 0 else NamedCounts(ns[..|ns| - 1]) + if ns[|ns| - 1].name != "" then ns[|ns| - 1].count else 0
  }

  function NamedTimes(ns: seq<NodeProfile>): (n: int) {
    if ns == [] then 0 else NamedTimes(ns[..|ns| - 1]) + if ns[|ns| - 1].name != "" then ns[|ns| - 1].total else 0
  }

  lemma {:induction false} SumsReplace(data: seq<Accum>, i: nat, e: Accum)
    requires i < |data|
    ensures SumCounts(data[i := e]) == SumCounts(data) - data[i].count + e.count
    ensures SumTimes(data[i := e]) == SumTimes(data) - data[i].total + e.total
  {
    var n := |data| - 1;
    if i == n {
      assert data[i := e][..n] == data[..n];
    } else {
      assert data[i := e][..n] == data[..n][i := e];
      SumsReplace(data[..n], i, e);
    }
  }

  lemma SumsRecorded(data: seq<Accum>, n: NodeProfile)
    ensures SumCounts(Recorded(data, FieldsOf(n))) == SumCounts(data) + if n.name != "" then n.count else 0
    ensures SumTimes(Recorded(data, FieldsOf(n))) == SumTimes(data) + if n.name != "" then n.total else 0
  {
    if n.name != "" {
      var i := Place(data, n.name);
      if i < |data| {
        SumsReplace(data, i, Merged(data[i], FieldsOf(n)));
      } else {
        var e := Merged(NewEntry(n.name), FieldsOf(n));
        assert (data + [e])[..|data|] == data;
      }
    }
  }

  // The grand totals are the sums over all named nodes.
  lemma {:induction false} SumsOf(ns: seq<NodeProfile>)
    ensures SumCounts(AllRecorded([], ns)) == NamedCounts(ns) && SumTimes(AllRecorded([], ns)) == NamedTimes(ns)
  {
    hide Recorded, FieldsOf, SumCounts, SumTimes;
    if ns == [] {
      NoSums();
    } else {
      var init, n := ns[..|ns| - 1], ns[|ns| - 1];
      assert ns == init + [n];
      SumsOf(init);
      RecordedLast([], init, n);
      hide AllRecorded;
      SumsRecorded(AllRecorded([], init), n);
    }
  }

  lemma NoSums()
    ensures AllRecorded([], []) == [] && SumCounts([]) == 0 && SumTimes([]) == 0
  {
  }

  function CountsUnder(ns: seq<NodeProfile>, names: seq<string>): (n: int) {
    if names == [] then 0 else CountsUnder(ns, names[..|names| - 1]) + CountFor(ns, names[|names| - 1])
  }

  function TimesUnder(ns: seq<NodeProfile>, names: seq<string>): (n: int) {
    if names == [] then 0 else TimesUnder(ns, names[..|names| - 1]) + TotalFor(ns, names[|names| - 1])
  }

  /** No int64 sum overflows: no reading, no running sum of a name, no running total of the report. */
  ghost predicate AllFit(ns: seq<NodeProfile>) {
    var names := FirstNames(ns);
    && (forall i :: 0 <= i < |names| ==> !OverFor(ns, names[i]))
    && (forall n :: 0 <= n <= |names| ==> InInt64(CountsUnder(ns, names[..n])) && InInt64(TimesUnder(ns, names[..n])))
  }

  lemma {:induction false} PrefixSums(data: seq<Accum>, ns: seq<NodeProfile>, n: nat)
    requires AllEntries(data, ns) && n <= |data|
    ensures SumCounts(data[..n]) == CountsUnder(ns, FirstNames(ns)[..n])
    ensures SumTimes(data[..n]) == TimesUnder(ns, FirstNames(ns)[..n])
  {
    if n > 0 {
      PrefixSums(data, ns, n - 1);
      var names := FirstNames(ns);
      assert data[..n][..n - 1] == data[..n - 1] && names[..n][..n - 1] == names[..n - 1];
      assert EntryFor(data[n - 1], ns, names[n - 1]);
      hide AllEntries, FirstNames, CountFor, TotalFor, IsMin, IsMax, OverFor, LastOf;
    }
  }

  lemma SoundExactly(ns: seq<NodeProfile>)
    ensures Sound(AllRecorded([], ns)) <==> AllFit(ns)
  {
    var data, names := AllRecorded([], ns), FirstNames(ns);
    EntriesOf(ns);
    forall i | 0 <= i < |data| ensures data[i].over == OverFor(ns, names[i]) {
      assert EntryFor(data[i], ns, names[i]);
    }
    forall n | 0 <= n <= |data|
      ensures SumCounts(data[..n]) == CountsUnder(ns, names[..n]) && SumTimes(data[..n]) == TimesUnder(ns, names[..n])
    {
      PrefixSums(data, ns, n);
    }
    hide AllRecorded, FirstNames, OverFor, CountsUnder, TimesUnder, SumCounts, SumTimes, InInt64, EntryFor;
  }

  /** One run of the profiled program: what WriteProfile was given. */
  datatype Profile = Profile(time: string, config: ProfilerConfig, nodes: seq<NodeProfile>)

  function AllNodes(ps: seq<Profile>): (ns: seq<NodeProfile>) {
    if ps == [] then [] else AllNodes(ps[..|ps| - 1]) + ps[|ps| - 1].nodes
  }

  /** Any number of documents, written and accumulated into one reporter: no int64 sum overflows exactly when
      the numbers fit; then the report has one line per name, in order of first appearance, with the sums of the
      counts and times of all nodes of that name, their mean, least and greatest average and the last open and
      close times, and the grand totals are the sums over all named nodes. */
  method AccumulateAll(ps: seq<Profile>) returns (r: Report)
    requires forall i :: 0 <= i < |ps| ==> MeansPlain(ps[i].nodes)
    ensures !r.over <==> AllFit(AllNodes(ps))
    ensures !r.over ==>
      && |r.nodes| == |FirstNames(AllNodes(ps))|
      && (forall i :: 0 <= i < |r.nodes| ==> LineFor(r.nodes[i], AllNodes(ps), FirstNames(AllNodes(ps))[i]))
      && r.totalCount == NamedCounts(AllNodes(ps)) && r.totalTime == NamedTimes(AllNodes(ps))
  {
    hide Document, Accumulated, AllRecorded, MeansPlain, MeansPrinted, LineFor, Stats, Sound, AllFit, FirstNames, NamedCounts, NamedTimes;
    var reporter := new Reporter();
    NothingRecorded();
    for i := 0 to |ps|
      invariant fresh(reporter) && reporter.nodeData == AllRecorded([], AllNodes(ps[..i]))
    {
      var text := WriteProfile(ps[i].time, ps[i].config, ps[i].nodes);
      PlainIsPrinted(ps[i].nodes);
      DocumentBack(ps[i].time, ps[i].config, ps[i].nodes, reporter.nodeData);
      RecordedConcat([], AllNodes(ps[..i]), ps[i].nodes);
      assert ps[..i + 1][..i] == ps[..i];
      var _ := reporter.Accumulate(text);
    }
    assert ps[..|ps|] == ps;
    LinesOf(AllNodes(ps));
    SumsOf(AllNodes(ps));
    SoundExactly(AllNodes(ps));
    r := reporter.MakeReport();
  }

  lemma NothingRecorded()
    ensures AllRecorded([], AllNodes([])) == []
  {
  }

  lemma LinesOf(ns: seq<NodeProfile>)
    ensures var data := AllRecorded([], ns);
      && |data| == |FirstNames(ns)| && forall i :: 0 <= i < |data| ==> LineFor(Stats(data[i]), ns, FirstNames(ns)[i])
  {
    EntriesOf(ns);
    var data := AllRecorded([], ns);
    forall i | 0 <= i < |data| ensures LineFor(Stats(data[i]), ns, FirstNames(ns)[i]) {
      EntryLine(data[i], ns, FirstNames(ns)[i]);
    }
    hide LineFor, Stats, AllRecorded, FirstNames, EntryFor;
  }
}
