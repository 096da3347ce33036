/** TagMap: "TAG:index:name" entries laid out as one block of consecutive ids per tag. */
module TagMaps {
  import opened Timestamps
  import opened Graphs
  import opened Json
  import opened ProfileText
  import opened ReadBack

  // ------------------------------------------------------------------ parsing

  datatype Entry = Entry(tag: string, index: int, name: string)

  function Split(s: string): (parts: seq<string>)
    ensures |parts| >= 1
  {
    if s == "" then [""]
    else
      var rest := Split(s[1..]);
      if s[0] == ':' then [""] + rest else [[s[0]] + rest[0]] + rest[1..]
  }

  // The 32-bit value a long is cut down to.
  function ToInt32(v: int): (r: int)
    ensures -0x8000_0000 <= r < 0x8000_0000 && (v - r) % 0x1_0000_0000 == 0
  {
    var m := v % 0x1_0000_0000;
    if m >= 0x8000_0000 then m - 0x1_0000_0000 else m
  }

  predicate IsSpace(c: char) { c == ' ' || '\t' <= c <= '\r' }

  function SkipSpaces(s: string): (r: string) {
    if s != "" && IsSpace(s[0]) then SkipSpaces(s[1..]) else s
  }

  // strtol in base 10 over the whole string: optional spaces, optional sign, digits, nothing else.
  function ParseIndex(s: string): (r: Option<int>) {
    var w := SkipSpaces(s);
    var u := if w != "" && (w[0] == '-' || w[0] == '+') then w[1..] else w;
    var d := DigitsFrom(u, 0);
    if u == "" || d.rest != "" then None
    else
      var v: int := if w[0] == '-' then 0 - d.value else d.value;
      Some(ToInt32(if v > INT64_MAX then INT64_MAX else if v < INT64_MIN then INT64_MIN else v))
  }

  function ParseTagIndexName(s: string): (r: Option<Entry>) {
    var parts := Split(s);
    if |parts| == 1 then Some(Entry("", -1, parts[0]))
    else if |parts| > 3 then None
    else
      match ParseIndex(parts[1])
      case None => None
      case Some(i) => Some(Entry(parts[0], i, if |parts| == 3 then parts[2] else ""))
  }

  lemma {:induction false} SplitPlain(a: string)
    requires ':' !in a
    ensures Split(a) == [a]
  {
    if a != "" {
      SplitPlain(a[1..]);
      assert [a[0]] + a[1..] == a;
    }
  }

  lemma {:induction false} SplitAt(a: string, b: string)
    requires ':' !in a
    ensures Split(a + (":" + b)) == [a] + Split(b)
  {
    var s := a + (":" + b);
    if a == "" {
      assert s == ":" + b && s[1..] == b;
    } else {
      assert s[1..] == a[1..] + (":" + b);
      SplitAt(a[1..], b);
      assert [a[0]] + a[1..] == a;
    }
  }

  lemma {:induction false} NoColon(n: nat)
    ensures ':' !in NatText(n)
  {
    if n >= 10 { NoColon(n / 10); }
  }

  lemma DigitsParse(w: string, v: nat)
    requires w != "" && IsDigit(w[0]) && DigitsFrom(w, 0) == Read(v, "") && v < 0x8000_0000
    ensures ParseIndex(w) == Some(v)
  {
    hide DigitsFrom;
    assert SkipSpaces(w) == w;
  }

  lemma IndexBack(n: nat)
    requires n < 0x8000_0000
    ensures ParseIndex(NatText(n)) == Some(n)
  {
    hide NatText, ParseIndex;
    NatBack(n, "");
    assert NatText(n) + "" == NatText(n) && DigitsFrom("", n) == Read(n, "");
    hide DigitsFrom;
    assert IsDigit(NatText(n)[0]);
    DigitsParse(NatText(n), n);
  }

  /** An index may be signed and preceded by spaces; it is read as a 64-bit value, stopped at the ends of that
      range, and cut down to 32 bits. Anything after the digits is refused. */
  lemma IndexText(spaces: string, sign: string, n: nat, after: string)
    requires (forall i :: 0 <= i < |spaces| ==> IsSpace(spaces[i])) && (sign == "" || sign == "+" || sign == "-")
    requires after == "" || !IsDigit(after[0])
    ensures var v: int := if sign == "-" then 0 - n else n;
      ParseIndex(spaces + (sign + (NatText(n) + after))) ==
        if after == "" then Some(ToInt32(if v > INT64_MAX then INT64_MAX else if v < INT64_MIN then INT64_MIN else v)) else None
  {
    var number := NatText(n) + after;
    var w := sign + number;
    assert IsDigit(number[0]) by { assert number[0] == NatText(n)[0]; }
    SpacesPassed(spaces, w);
    assert w != "" && (sign == "" ==> w == number) && (sign != "" ==> w[0] == sign[0] && w[1..] == number);
    NatBack(n, after);
    assert DigitsFrom(after, n) == Read(n, after);
    hide DigitsFrom, NatText, ToInt32, SkipSpaces;
  }

  lemma {:induction false} SpacesPassed(spaces: string, w: string)
    requires (forall i :: 0 <= i < |spaces| ==> IsSpace(spaces[i])) && w != "" && !IsSpace(w[0])
    ensures SkipSpaces(spaces + w) == w
  {
    if spaces == "" {
      assert spaces + w == w;
    } else {
      assert (spaces + w)[1..] == spaces[1..] + w;
      SpacesPassed(spaces[1..], w);
    }
  }

  /** "TAG:i:name" and "TAG:i" are parsed back into their parts. */
  lemma ParseBack(tag: string, n: nat, name: string)
    requires ':' !in tag && ':' !in name && n < 0x8000_0000
    ensures ParseTagIndexName(tag + (":" + (NatText(n) + (":" + name)))) == Some(Entry(tag, n, name))
    ensures ParseTagIndexName(tag + (":" + NatText(n))) == Some(Entry(tag, n, ""))
  {
    NoColon(n);
    IndexBack(n);
    hide NatText, ParseIndex;
    SplitPlain(name);
    SplitPlain(NatText(n));
    SplitAt(NatText(n), name);
    SplitAt(tag, NatText(n) + (":" + name));
    SplitAt(tag, NatText(n));
    hide Split;
  }

  // ------------------------------------------------------------------ grouping and sorting

  datatype Slot = Slot(index: int, name: string)

  datatype Group = Group(tag: string, slots: seq<Slot>)

  predicate NameLess(a: string, b: string) {
    if b == "" then false else if a == "" then true
    else if a[0] != b[0] then a[0] < b[0] else NameLess(a[1..], b[1..])
  }

  predicate Before(a: Slot, b: Slot) {
    a.index < b.index || (a.index == b.index && NameLess(a.name, b.name))
  }

  function Inserted(s: seq<Slot>, x: Slot): (r: seq<Slot>) {
    if s == [] || Before(x, s[0]) then [x] + s else [s[0]] + Inserted(s[1..], x)
  }

  // std::sort on (index, name) pairs.
  function Sorted(s: seq<Slot>): (r: seq<Slot>) {
    if s == [] then [] else Inserted(Sorted(s[..|s| - 1]), s[|s| - 1])
  }

  ghost predicate IndexOrdered(s: seq<Slot>) {
    forall i, j :: 0 <= i < j < |s| ==> s[i].index <= s[j].index
  }

  lemma {:induction false} InsertedSame(s: seq<Slot>, x: Slot)
    ensures multiset(Inserted(s, x)) == multiset(s) + multiset{x}
  {
    if s != [] && !Before(x, s[0]) {
      InsertedSame(s[1..], x);
      assert s == [s[0]] + s[1..];
    }
  }

  lemma {:induction false} InsertedKeeps(s: seq<Slot>, x: Slot)
    requires IndexOrdered(s)
    ensures IndexOrdered(Inserted(s, x)) && multiset(Inserted(s, x)) == multiset(s) + multiset{x}
  {
    InsertedSame(s, x);
    if s != [] && !Before(x, s[0]) {
      InsertedKeeps(s[1..], x);
      var r := Inserted(s[1..], x);
      hide Inserted;
      forall k | 0 <= k < |r| ensures s[0].index <= r[k].index {
        assert r[k] in multiset(r);
        assert r[k] in multiset(s[1..]) || r[k] == x;
      }
      InFront(s[0], r);
    }
  }

  lemma InFront(x: Slot, r: seq<Slot>)
    requires IndexOrdered(r) && forall k :: 0 <= k < |r| ==> x.index <= r[k].index
    ensures IndexOrdered([x] + r)
  {
  }

  lemma {:induction false} SortedKeeps(s: seq<Slot>)
    ensures IndexOrdered(Sorted(s)) && multiset(Sorted(s)) == multiset(s) && |Sorted(s)| == |s|
  {
    if s != [] {
      SortedKeeps(s[..|s| - 1]);
      InsertedKeeps(Sorted(s[..|s| - 1]), s[|s| - 1]);
      assert s == s[..|s| - 1] + [s[|s| - 1]];
    }
    assert |multiset(Sorted(s))| == |multiset(s)|;
  }

  // The order of names is a strict total order.
  lemma {:induction false} NameOrder(a: string, b: string, c: string)
    ensures !(NameLess(a, b) && NameLess(b, a))
    ensures NameLess(a, b) || NameLess(b, a) || a == b
    ensures NameLess(a, b) && NameLess(b, c) ==> NameLess(a, c)
  {
    if a != "" && b != "" {
      NameOrder(a[1..], b[1..], if c != "" then c[1..] else "");
      assert a == [a[0]] + a[1..] && b == [b[0]] + b[1..];
    }
  }

  // Nothing later goes before anything earlier, by index and then by name.
  ghost predicate PairOrdered(s: seq<Slot>) {
    forall i, j :: 0 <= i < j < |s| ==> !Before(s[j], s[i])
  }

  lemma BeforeChain(a: Slot, b: Slot, c: Slot)
    requires !Before(b, a) && !Before(c, b)
    ensures !Before(c, a)
  {
    NameOrder(a.name, b.name, c.name);
    NameOrder(b.name, c.name, a.name);
    NameOrder(c.name, a.name, b.name);
  }

  lemma {:induction false} InsertedPairs(s: seq<Slot>, x: Slot)
    requires PairOrdered(s)
    ensures PairOrdered(Inserted(s, x))
  {
    if s == [] {
    } else if Before(x, s[0]) {
      hide Inserted;
      forall k | 0 <= k < |s| ensures !Before(s[k], x) {
        NameOrder(x.name, s[0].name, x.name);
        if k > 0 { BeforeChain(x, s[0], s[k]); }
      }
    } else {
      InsertedPairs(s[1..], x);
      InsertedSame(s[1..], x);
      var r := Inserted(s[1..], x);
      hide Inserted, Before;
      forall k | 0 <= k < |r| ensures !Before(r[k], s[0]) {
        assert r[k] in multiset(r);
        assert r[k] in multiset(s[1..]) || r[k] == x;
      }
    }
  }

  /** The slots of a tag are laid out by index, and by name where indices agree. */
  lemma {:induction false} SortedPairs(s: seq<Slot>)
    ensures PairOrdered(Sorted(s))
  {
    if s != [] {
      SortedPairs(s[..|s| - 1]);
      InsertedPairs(Sorted(s[..|s| - 1]), s[|s| - 1]);
      hide PairOrdered, Inserted;
    }
  }

  // The slots declared under one tag, in declaration order.
  function SlotsOf(es: seq<Entry>, tag: string): (r: seq<Slot>) {
    if es == [] then []
    else
      var e := es[|es| - 1];
      SlotsOf(es[..|es| - 1], tag) + (if e.tag == tag then [Slot(e.index, e.name)] else [])
  }

  // The tags in the order they first appear.
  function TagsOf(es: seq<Entry>): (r: seq<string>)
    ensures forall j, k :: 0 <= j < k < |r| ==> r[j] != r[k]
  {
    if es == [] then []
    else
      var before := TagsOf(es[..|es| - 1]);
      if es[|es| - 1].tag in before then before else before + [es[|es| - 1].tag]
  }

  ghost predicate GroupsOk(es: seq<Entry>, groups: seq<Group>) {
    && |groups| == |TagsOf(es)|
    && forall k :: 0 <= k < |groups| ==> groups[k].tag == TagsOf(es)[k] && groups[k].slots == SlotsOf(es, groups[k].tag)
  }

  lemma {:induction false} NewTagHasNoSlots(es: seq<Entry>, tag: string)
    requires tag !in TagsOf(es)
    ensures SlotsOf(es, tag) == []
  {
    if es != [] { NewTagHasNoSlots(es[..|es| - 1], tag); }
  }

  lemma NextEntry(es: seq<Entry>, e: Entry)
    ensures forall tag :: SlotsOf(es + [e], tag) == SlotsOf(es, tag) + (if e.tag == tag then [Slot(e.index, e.name)] else [])
    ensures TagsOf(es + [e]) == if e.tag in TagsOf(es) then TagsOf(es) else TagsOf(es) + [e.tag]
  {
    assert (es + [e])[..|es|] == es;
  }

  // One more entry: it joins the group of its tag, or opens one at the end.
  lemma GroupsNext(es: seq<Entry>, e: Entry, groups: seq<Group>, k: nat)
    requires GroupsOk(es, groups) && k <= |groups| && forall j :: 0 <= j < k ==> groups[j].tag != e.tag
    requires k < |groups| ==> groups[k].tag == e.tag
    ensures var slot := Slot(e.index, e.name);
      GroupsOk(es + [e], if k < |groups| then groups[k := Group(e.tag, groups[k].slots + [slot])] else groups + [Group(e.tag, [slot])])
  {
    NextEntry(es, e);
    hide SlotsOf, TagsOf;
    if k < |groups| {
      assert TagsOf(es)[k] == e.tag;
      forall j | 0 <= j < |groups| && j != k ensures groups[j].tag != e.tag {
        assert TagsOf(es)[j] != TagsOf(es)[k];
      }
    } else {
      assert forall j :: 0 <= j < |groups| ==> TagsOf(es)[j] != e.tag;
      NewTagHasNoSlots(es, e.tag);
      assert [] + [Slot(e.index, e.name)] == [Slot(e.index, e.name)];
    }
  }

  method GroupByTag(es: seq<Entry>) returns (groups: seq<Group>)
    ensures GroupsOk(es, groups)
  {
    groups := [];
    for i := 0 to |es|
      invariant GroupsOk(es[..i], groups)
    {
      var e := es[i];
      var k := 0;
      while k < |groups| && groups[k].tag != e.tag
        invariant k <= |groups| && forall j :: 0 <= j < k ==> groups[j].tag != e.tag
      {
        k := k + 1;
      }
      hide GroupsOk;
      GroupsNext(es[..i], e, groups, k);
      assert es[..i + 1] == es[..i] + [e];
      if k < |groups| {
        groups := groups[k := Group(e.tag, groups[k].slots + [Slot(e.index, e.name)])];
      } else {
        groups := groups + [Group(e.tag, [Slot(e.index, e.name)])];
      }
    }
    assert es[..|es|] == es;
  }

  // ------------------------------------------------------------------ the layout

  datatype TagData = TagData(firstId: nat, count: nat)

  datatype TagMap = TagMap(mapping: map<string, TagData>, order: seq<string>, names: seq<string>)

  // Ids given to the first `k` tags.
  function Offset(es: seq<Entry>, k: nat): (n: nat)
    requires k <= |TagsOf(es)|
  {
    if k == 0 then 0 else Offset(es, k - 1) + |SlotsOf(es, TagsOf(es)[k - 1])|
  }

  ghost predicate BlockOk(es: seq<Entry>, m: TagMap, k: nat)
    requires k < |TagsOf(es)|
  {
    var tag := TagsOf(es)[k];
    var slots := Sorted(SlotsOf(es, tag));
    && tag in m.mapping && m.mapping[tag] == TagData(Offset(es, k), |slots|)
    && Offset(es, k) + |slots| <= |m.names|
    && forall i :: 0 <= i < |slots| ==> m.names[Offset(es, k) + i] == slots[i].name
  }

  /** The layout: one block of consecutive ids per tag, in order of first appearance, the blocks side by
      side, and within a block the entries sorted by index. */
  ghost predicate Laid(es: seq<Entry>, m: TagMap, n: nat)
    requires n <= |TagsOf(es)|
  {
    && m.order == TagsOf(es)[..n] && |m.names| == Offset(es, n)
    && (forall tag :: tag in m.mapping <==> tag in m.order)
    && (forall k: nat {:trigger BlockOk(es, m, k)} :: k < n ==> BlockOk(es, m, k))
  }

  lemma {:induction false} OffsetGrows(es: seq<Entry>, j: nat, k: nat)
    requires j <= k <= |TagsOf(es)|
    ensures Offset(es, j) <= Offset(es, k)
    decreases k
  {
    hide TagsOf, SlotsOf;
    if j < k { OffsetGrows(es, j, k - 1); }
  }

  lemma BlockKept(es: seq<Entry>, m: TagMap, m': TagMap, k: nat)
    requires k < |TagsOf(es)| && BlockOk(es, m, k) && m.names <= m'.names
    requires TagsOf(es)[k] in m'.mapping && m'.mapping[TagsOf(es)[k]] == m.mapping[TagsOf(es)[k]]
    ensures BlockOk(es, m', k)
  {
    hide Sorted, SlotsOf, TagsOf, Offset;
  }

  lemma BlockNew(es: seq<Entry>, m: TagMap, n: nat, names: seq<string>)
    requires n < |TagsOf(es)| && |m.names| == Offset(es, n)
    requires var slots := Sorted(SlotsOf(es, TagsOf(es)[n]));
      |names| == |slots| && forall i :: 0 <= i < |slots| ==> names[i] == slots[i].name
    ensures var tag := TagsOf(es)[n];
      BlockOk(es, TagMap(m.mapping[tag := TagData(|m.names|, |names|)], m.order + [tag], m.names + names), n)
    ensures Offset(es, n + 1) == |m.names| + |names|
  {
    SortedKeeps(SlotsOf(es, TagsOf(es)[n]));
    hide Sorted, SlotsOf, TagsOf;
  }

  lemma BlockAdded(es: seq<Entry>, m: TagMap, n: nat, names: seq<string>)
    requires n < |TagsOf(es)| && Laid(es, m, n)
    requires var slots := Sorted(SlotsOf(es, TagsOf(es)[n]));
      |names| == |slots| && forall i :: 0 <= i < |slots| ==> names[i] == slots[i].name
    ensures var tag := TagsOf(es)[n];
      Laid(es, TagMap(m.mapping[tag := TagData(|m.names|, |names|)], m.order + [tag], m.names + names), n + 1)
  {
    hide Sorted, SlotsOf, TagsOf, Offset;
    var tag := TagsOf(es)[n];
    var m' := TagMap(m.mapping[tag := TagData(|m.names|, |names|)], m.order + [tag], m.names + names);
    BlockNew(es, m, n, names);
    forall k: nat | k < n ensures BlockOk(es, m', k) {
      assert BlockOk(es, m, k) && TagsOf(es)[k] != tag;
      hide BlockOk;
      assert TagsOf(es)[k] in TagsOf(es)[..n];
      BlockKept(es, m, m', k);
    }
    hide BlockOk;
  }

  method Create(es: seq<Entry>) returns (m: TagMap)
    ensures Laid(es, m, |TagsOf(es)|)
  {
    var groups := GroupByTag(es);
    m := TagMap(map[], [], []);
    for k := 0 to |groups|
      invariant Laid(es, m, k)
    {
      var slots := Sorted(groups[k].slots);
      var names: seq<string> := [];
      for i := 0 to |slots|
        invariant |names| == i && forall j :: 0 <= j < i ==> names[j] == slots[j].name
      {
        names := names + [slots[i].name];
      }
      BlockAdded(es, m, k, names);
      m := TagMap(m.mapping[groups[k].tag := TagData(|m.names|, |slots|)], m.order + [groups[k].tag], m.names + names);
    }
    assert TagsOf(es)[..|TagsOf(es)|] == TagsOf(es);
  }

  // TagMap::Create from the strings themselves; the first that does not parse fails the call.
  method CreateFromNames(tagIndexNames: seq<string>) returns (r: Option<TagMap>, ghost es: seq<Entry>)
    ensures r.None? <==> exists i :: 0 <= i < |tagIndexNames| && ParseTagIndexName(tagIndexNames[i]).None?
    ensures r.Some? ==> Parses(tagIndexNames, es) && Laid(es, r.value, |TagsOf(es)|)
  {
    var parsed: seq<Entry> := [];
    es := [];
    for i := 0 to |tagIndexNames|
      invariant |parsed| == i && forall j :: 0 <= j < i ==> ParseTagIndexName(tagIndexNames[j]) == Some(parsed[j])
    {
      var e := ParseTagIndexName(tagIndexNames[i]);
      if e.None? {
        return None, es;
      }
      parsed := parsed + [e.value];
    }
    var m := Create(parsed);
    return Some(m), parsed;
  }

  function GetId(m: TagMap, tag: string, index: int): (id: int) {
    if tag !in m.mapping || index < 0 || index >= m.mapping[tag].count then -1 else m.mapping[tag].firstId + index
  }

  // Resolve "TAG:index" or "TAG:index:name".
  function GetIdByName(m: TagMap, s: string): (id: int) {
    match ParseTagIndexName(s)
    case None => -1
    case Some(e) => if e.tag == "" then -1 else GetId(m, e.tag, e.index)
  }

  // ------------------------------------------------------------------ what the layout means

  lemma {:induction false} SlotsAreEntries(es: seq<Entry>, tag: string, x: Slot)
    ensures x in SlotsOf(es, tag) <==> Entry(tag, x.index, x.name) in es
  {
    if es != [] {
      SlotsAreEntries(es[..|es| - 1], tag, x);
      var last := es[|es| - 1];
      assert es == es[..|es| - 1] + [last];
      assert Entry(tag, x.index, x.name) == last <==> last.tag == tag && x == Slot(last.index, last.name);
    }
  }

  function Listed(tags: seq<string>): (r: set<string>) {
    set t | t in tags
  }

  // Entries whose tag is one of these.
  function Covered(es: seq<Entry>, tags: set<string>): (n: nat) {
    if es == [] then 0 else Covered(es[..|es| - 1], tags) + (if es[|es| - 1].tag in tags then 1 else 0)
  }

  lemma {:induction false} CoveredAdd(es: seq<Entry>, tags: set<string>, tag: string)
    requires tag !in tags
    ensures Covered(es, tags + {tag}) == Covered(es, tags) + |SlotsOf(es, tag)|
  {
    if es != [] { CoveredAdd(es[..|es| - 1], tags, tag); }
  }

  lemma {:induction false} OffsetCovers(es: seq<Entry>, k: nat)
    requires k <= |TagsOf(es)|
    ensures Offset(es, k) == Covered(es, Listed(TagsOf(es)[..k]))
  {
    var tags := TagsOf(es);
    if k == 0 {
      CoveredNone(es);
      assert Listed(tags[..0]) == {};
    } else {
      OffsetCovers(es, k - 1);
      assert tags[..k] == tags[..k - 1] + [tags[k - 1]];
      assert Listed(tags[..k]) == Listed(tags[..k - 1]) + {tags[k - 1]};
      CoveredAdd(es, Listed(tags[..k - 1]), tags[k - 1]);
    }
  }

  lemma {:induction false} CoveredNone(es: seq<Entry>)
    ensures Covered(es, {}) == 0
  {
    if es != [] { CoveredNone(es[..|es| - 1]); }
  }

  lemma {:induction false} CoveredAll(es: seq<Entry>, tags: set<string>)
    requires forall i :: 0 <= i < |es| ==> es[i].tag in tags
    ensures Covered(es, tags) == |es|
  {
    if es != [] { CoveredAll(es[..|es| - 1], tags); }
  }

  lemma {:induction false} EveryTagListed(es: seq<Entry>, i: nat)
    requires i < |es|
    ensures es[i].tag in TagsOf(es)
  {
    if i < |es| - 1 { EveryTagListed(es[..|es| - 1], i); }
  }

  lemma OffsetOfAll(es: seq<Entry>)
    ensures Offset(es, |TagsOf(es)|) == |es|
  {
    hide Offset, Covered;
    var tags := TagsOf(es);
    OffsetCovers(es, |tags|);
    assert tags[..|tags|] == tags;
    forall i | 0 <= i < |es| ensures es[i].tag in Listed(tags) {
      EveryTagListed(es, i);
    }
    CoveredAll(es, Listed(tags));
  }

  lemma BlockOf(es: seq<Entry>, m: TagMap, k: nat)
    requires Laid(es, m, |TagsOf(es)|) && k < |TagsOf(es)|
    ensures TagsOf(es)[k] in m.mapping
    ensures m.mapping[TagsOf(es)[k]] == TagData(Offset(es, k), |SlotsOf(es, TagsOf(es)[k])|)
    ensures Offset(es, k + 1) == Offset(es, k) + |SlotsOf(es, TagsOf(es)[k])|
  {
    SortedKeeps(SlotsOf(es, TagsOf(es)[k]));
    assert BlockOk(es, m, k);
    hide Sorted, SlotsOf, TagsOf;
  }

  /** The blocks fill the ids 0..n-1 exactly, one id for each entry, side by side. */
  lemma BlocksPartition(es: seq<Entry>, m: TagMap)
    requires Laid(es, m, |TagsOf(es)|)
    ensures |m.names| == |es|
    ensures forall k: nat :: k < |TagsOf(es)| ==>
      TagsOf(es)[k] in m.mapping &&
      m.mapping[TagsOf(es)[k]].firstId + m.mapping[TagsOf(es)[k]].count == Offset(es, k + 1)
    ensures forall k: nat :: k < |TagsOf(es)| ==> m.mapping[TagsOf(es)[k]].firstId == Offset(es, k)
    ensures Offset(es, |TagsOf(es)|) == |es|
  {
    hide Sorted, SlotsOf, TagsOf, Offset;
    OffsetOfAll(es);
    forall k: nat | k < |TagsOf(es)|
      ensures TagsOf(es)[k] in m.mapping
      ensures m.mapping[TagsOf(es)[k]].firstId == Offset(es, k)
      ensures m.mapping[TagsOf(es)[k]].firstId + m.mapping[TagsOf(es)[k]].count == Offset(es, k + 1)
    {
      BlockOf(es, m, k);
    }
  }

  lemma NamesOfBlock(es: seq<Entry>, m: TagMap, k: nat)
    requires Laid(es, m, |TagsOf(es)|) && k < |TagsOf(es)|
    ensures Offset(es, k) <= Offset(es, k + 1) <= |m.names|
    ensures m.names[..Offset(es, k + 1)] == m.names[..Offset(es, k)] + NamesIn(Sorted(SlotsOf(es, TagsOf(es)[k])))
  {
    var slots := Sorted(SlotsOf(es, TagsOf(es)[k]));
    SortedKeeps(SlotsOf(es, TagsOf(es)[k]));
    BlockOf(es, m, k);
    assert BlockOk(es, m, k);
    assert |m.names| == Offset(es, |TagsOf(es)|);
    hide Sorted, SlotsOf, TagsOf, Offset, Laid;
    PrefixAndBlock(m.names, Offset(es, k), NamesIn(slots));
  }

  lemma PrefixAndBlock(names: seq<string>, a: nat, block: seq<string>)
    requires a + |block| <= |names| && forall i :: 0 <= i < |block| ==> names[a + i] == block[i]
    ensures names[..a + |block|] == names[..a] + block
  {
  }

  // The names of the first `k` tags' entries are the names laid out before id Offset(k).
  lemma {:induction false} NamesUpTo(es: seq<Entry>, m: TagMap, k: nat)
    requires Laid(es, m, |TagsOf(es)|) && k <= |TagsOf(es)|
    ensures Offset(es, k) <= |m.names|
    ensures multiset(m.names[..Offset(es, k)]) == NamesUnder(es, Listed(TagsOf(es)[..k]))
  {
    hide *;
    if k == 0 {
      NamesAtStart(es, m);
    } else {
      NamesUpTo(es, m, k - 1);
      OneMoreBlock(es, m, k - 1);
    }
  }

  lemma NamesAtStart(es: seq<Entry>, m: TagMap)
    ensures Offset(es, 0) == 0 && multiset(m.names[..0]) == NamesUnder(es, Listed(TagsOf(es)[..0]))
  {
    hide NamesUnder;
    NamesUnderNone(es);
    assert Listed(TagsOf(es)[..0]) == {} && m.names[..0] == [];
  }

  lemma OneMoreBlock(es: seq<Entry>, m: TagMap, k: nat)
    requires Laid(es, m, |TagsOf(es)|) && k < |TagsOf(es)| && Offset(es, k) <= |m.names|
    requires multiset(m.names[..Offset(es, k)]) == NamesUnder(es, Listed(TagsOf(es)[..k]))
    ensures Offset(es, k + 1) <= |m.names|
    ensures multiset(m.names[..Offset(es, k + 1)]) == NamesUnder(es, Listed(TagsOf(es)[..k + 1]))
  {
    hide *;
    NamesOfBlock(es, m, k);
    SortedNames(SlotsOf(es, TagsOf(es)[k]));
    ListedNext(TagsOf(es), k);
    NamesUnderAdd(es, Listed(TagsOf(es)[..k]), TagsOf(es)[k]);
  }

  lemma ListedNext(tags: seq<string>, k: nat)
    requires k < |tags| && forall i, j :: 0 <= i < j < |tags| ==> tags[i] != tags[j]
    ensures Listed(tags[..k + 1]) == Listed(tags[..k]) + {tags[k]} && tags[k] !in Listed(tags[..k])
  {
    assert tags[..k + 1] == tags[..k] + [tags[k]];
  }

  function NamesIn(s: seq<Slot>): (r: seq<string>)
    ensures |r| == |s| && forall i :: 0 <= i < |s| ==> r[i] == s[i].name
  {
    seq(|s|, i requires 0 <= i < |s| => s[i].name)
  }

  // The names of the entries whose tag is one of these.
  ghost function NamesUnder(es: seq<Entry>, tags: set<string>): (r: multiset<string>) {
    if es == [] then multiset{}
    else NamesUnder(es[..|es| - 1], tags) + (if es[|es| - 1].tag in tags then multiset{es[|es| - 1].name} else multiset{})
  }

  lemma {:induction false} NamesUnderNone(es: seq<Entry>)
    ensures NamesUnder(es, {}) == multiset{}
  {
    if es != [] { NamesUnderNone(es[..|es| - 1]); }
  }

  lemma NamesAppend(s: seq<Slot>, x: Slot)
    ensures multiset(NamesIn(s + [x])) == multiset(NamesIn(s)) + multiset{x.name}
  {
    assert NamesIn(s + [x]) == NamesIn(s) + [x.name];
  }

  lemma {:induction false} NamesUnderAdd(es: seq<Entry>, tags: set<string>, tag: string)
    requires tag !in tags
    ensures NamesUnder(es, tags + {tag}) == NamesUnder(es, tags) + multiset(NamesIn(SlotsOf(es, tag)))
  {
    if es == [] {
      assert NamesIn([]) == [];
    } else {
      var e, init := es[|es| - 1], es[..|es| - 1];
      NamesUnderAdd(init, tags, tag);
      hide NamesIn;
      if e.tag == tag {
        NamesAppend(SlotsOf(init, tag), Slot(e.index, e.name));
        assert NamesUnder(es, tags) == NamesUnder(init, tags);
      } else {
        assert SlotsOf(init, tag) + [] == SlotsOf(init, tag);
        assert e.tag in tags + {tag} <==> e.tag in tags;
      }
    }
  }

  lemma NamesPrepend(x: Slot, s: seq<Slot>)
    ensures multiset(NamesIn([x] + s)) == multiset{x.name} + multiset(NamesIn(s))
  {
    assert NamesIn([x] + s) == [x.name] + NamesIn(s);
  }

  lemma {:induction false} InsertedNames(s: seq<Slot>, x: Slot)
    ensures multiset(NamesIn(Inserted(s, x))) == multiset(NamesIn(s)) + multiset{x.name}
  {
    if s == [] || Before(x, s[0]) {
      NamesPrepend(x, s);
    } else {
      InsertedNames(s[1..], x);
      NamesPrepend(s[0], Inserted(s[1..], x));
      NamesPrepend(s[0], s[1..]);
      assert s == [s[0]] + s[1..];
    }
  }

  // Sorting rearranges the names.
  lemma {:induction false} SortedNames(s: seq<Slot>)
    ensures multiset(NamesIn(Sorted(s))) == multiset(NamesIn(s))
  {
    if s != [] {
      var n := |s| - 1;
      SortedNames(s[..n]);
      InsertedNames(Sorted(s[..n]), s[n]);
      NamesAppend(s[..n], s[n]);
      assert s == s[..n] + [s[n]];
    }
  }

  /** The names laid out are the declared names, rearranged: none lost, none repeated. */
  lemma NamesArePermuted(es: seq<Entry>, m: TagMap)
    requires Laid(es, m, |TagsOf(es)|)
    ensures multiset(m.names) == AllNames(es)
  {
    var tags := TagsOf(es);
    NamesUpTo(es, m, |tags|);
    assert tags[..|tags|] == tags && m.names[..|m.names|] == m.names;
    forall i | 0 <= i < |es| ensures es[i].tag in Listed(tags) {
      EveryTagListed(es, i);
    }
    hide TagsOf;
    NamesUnderAll(es, Listed(tags));
  }

  ghost function AllNames(es: seq<Entry>): (r: multiset<string>) {
    if es == [] then multiset{} else AllNames(es[..|es| - 1]) + multiset{es[|es| - 1].name}
  }

  lemma {:induction false} NamesUnderAll(es: seq<Entry>, tags: set<string>)
    requires forall i :: 0 <= i < |es| ==> es[i].tag in tags
    ensures NamesUnder(es, tags) == AllNames(es)
  {
    if es != [] { NamesUnderAll(es[..|es| - 1], tags); }
  }

  // The tag's indices are 0, 1, ..., count - 1, in whatever order they were given.
  ghost predicate Dense(es: seq<Entry>, tag: string) {
    var slots := SlotsOf(es, tag);
    && (forall i, j :: 0 <= i < j < |slots| ==> slots[i].index != slots[j].index)
    && (forall i :: 0 <= i < |slots| ==> 0 <= slots[i].index < |slots|)
  }

  // Ordered, distinct and within 0..n-1: position and index agree.
  lemma {:induction false} PositionIsIndex(s: seq<Slot>, i: nat)
    requires i < |s| && forall j, k :: 0 <= j < k < |s| ==> s[j].index < s[k].index
    requires forall j :: 0 <= j < |s| ==> 0 <= s[j].index < |s|
    ensures s[i].index == i
  {
    AtLeast(s, i);
    AtMost(s, i);
  }

  lemma {:induction false} AtLeast(s: seq<Slot>, i: nat)
    requires i < |s| && forall j, k :: 0 <= j < k < |s| ==> s[j].index < s[k].index
    requires forall j :: 0 <= j < |s| ==> 0 <= s[j].index
    ensures s[i].index >= i
  {
    if i > 0 { AtLeast(s, i - 1); }
  }

  lemma {:induction false} AtMost(s: seq<Slot>, i: nat)
    requires i < |s| && forall j, k :: 0 <= j < k < |s| ==> s[j].index < s[k].index
    requires forall j :: 0 <= j < |s| ==> s[j].index < |s|
    ensures s[i].index <= i
    decreases |s| - i
  {
    if i + 1 < |s| { AtMost(s, i + 1); }
  }

  // Sorting distinct indices makes them strictly increasing.
  lemma SortedStrictly(s: seq<Slot>)
    requires forall i, j :: 0 <= i < j < |s| ==> s[i].index != s[j].index
    ensures var r := Sorted(s); forall j, k :: 0 <= j < k < |r| ==> r[j].index < r[k].index
  {
    var r := Sorted(s);
    SortedKeeps(s);
    forall j, k | 0 <= j < k < |r| ensures r[j].index < r[k].index {
      assert r[j] in multiset(s) && r[k] in multiset(s);
      if r[j] == r[k] {
        AppearsTwice(r, j, k);
        AppearsOnce(s, r[j]);
      }
    }
  }

  lemma {:induction false} AppearsTwice(r: seq<Slot>, j: nat, k: nat)
    requires j < k < |r| && r[j] == r[k]
    ensures multiset(r)[r[j]] >= 2
  {
    assert r == r[..k] + r[k..];
    assert r[j] in multiset(r[..k]) by { assert r[..k][j] == r[j]; }
    assert r[k] in multiset(r[k..]) by { assert r[k..][0] == r[k]; }
  }

  lemma {:induction false} AppearsOnce(s: seq<Slot>, x: Slot)
    requires forall i, j :: 0 <= i < j < |s| ==> s[i].index != s[j].index
    ensures multiset(s)[x] <= 1
  {
    if s != [] {
      var n := |s| - 1;
      AppearsOnce(s[..n], x);
      assert s == s[..n] + [s[n]];
      if s[n] == x {
        assert forall i :: 0 <= i < n ==> s[..n][i] != x;
        assert x !in s[..n];
      }
    }
  }

  lemma TagPlace(es: seq<Entry>, tag: string) returns (k: nat)
    requires tag in TagsOf(es)
    ensures k < |TagsOf(es)| && TagsOf(es)[k] == tag
  {
    k :| k < |TagsOf(es)| && TagsOf(es)[k] == tag;
  }

  /** GetId finds the id under which the name was given: for a tag whose indices are dense, the id of
      (tag, i) is in range and carries the name declared as "tag:i:name"; any other index is refused. */
  lemma GetIdFindsName(es: seq<Entry>, m: TagMap, e: Entry)
    requires Laid(es, m, |TagsOf(es)|) && e in es && Dense(es, e.tag)
    ensures 0 <= GetId(m, e.tag, e.index) < |m.names|
    ensures m.names[GetId(m, e.tag, e.index)] == e.name
    ensures forall i :: !(0 <= i < |SlotsOf(es, e.tag)|) ==> GetId(m, e.tag, i) == -1
  {
    hide Sorted, SlotsOf, TagsOf, Offset;
    var slots := SlotsOf(es, e.tag);
    var sorted := Sorted(slots);
    SortedKeeps(slots);
    SortedStrictly(slots);
    var at :| 0 <= at < |es| && es[at] == e;
    EveryTagListed(es, at);
    var k := TagPlace(es, e.tag);
    assert BlockOk(es, m, k);
    var x := Slot(e.index, e.name);
    SlotsAreEntries(es, e.tag, x);
    assert x in multiset(sorted);
    var p: nat :| p < |sorted| && sorted[p] == x;
    forall j | 0 <= j < |sorted| ensures 0 <= sorted[j].index < |sorted| {
      assert sorted[j] in multiset(slots);
    }
    PositionIsIndex(sorted, p);
  }

  // The strings a map was created from and what they parse to.
  ghost predicate Parses(declared: seq<string>, es: seq<Entry>) {
    |es| == |declared| && forall k :: 0 <= k < |es| ==> ParseTagIndexName(declared[k]) == Some(es[k])
  }

  function Numbered(tag: string, i: nat): (r: string) {
    tag + (":" + NatText(i))
  }

  function Named(tag: string, i: nat, name: string): (r: string) {
    tag + (":" + (NatText(i) + (":" + name)))
  }

  /** From string to string: if "TAG:i:name" was declared and the indices of TAG are dense, "TAG:i" and
      "TAG:i:name" both resolve to the id that carries the name; an empty tag is refused. */
  lemma GetIdOfDeclared(declared: seq<string>, es: seq<Entry>, m: TagMap, tag: string, i: nat, name: string)
    requires Parses(declared, es) && Laid(es, m, |TagsOf(es)|) && Dense(es, tag)
    requires ':' !in tag && ':' !in name && i < 0x8000_0000 && Named(tag, i, name) in declared
    ensures GetIdByName(m, Named(tag, i, name)) == GetIdByName(m, Numbered(tag, i))
    ensures tag == "" ==> GetIdByName(m, Numbered(tag, i)) == -1
    ensures tag != "" ==>
      var id := GetIdByName(m, Numbered(tag, i)); 0 <= id < |m.names| && m.names[id] == name
  {
    ParseBack(tag, i, name);
    var k :| 0 <= k < |declared| && declared[k] == Named(tag, i, name);
    assert ParseTagIndexName(declared[k]) == Some(es[k]) && es[k] == Entry(tag, i, name);
    hide ParseTagIndexName, Laid, Dense, TagsOf, SlotsOf, GetId;
    GetIdFindsName(es, m, es[k]);
  }
}
