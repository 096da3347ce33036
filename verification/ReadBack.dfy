/** The reader undoes the writer, value by value. */
module ReadBack {
  import opened Timestamps
  import opened Graphs
  import opened Json
  import opened ProfileText

  lemma {:induction false} SkipBlanksPast(b: string, s: string)
    requires forall i :: 0 <= i < |b| ==> IsBlank(b[i])
    ensures SkipBlanks(b + s) == SkipBlanks(s)
  {
    if b == "" {
      assert b + s == s;
    } else {
      assert (b + s)[1..] == b[1..] + s;
      SkipBlanksPast(b[1..], s);
    }
  }

  lemma SolidStart(s: string)
    requires s != "" && !IsBlank(s[0])
    ensures SkipBlanks(s) == s
  {
  }

  // ------------------------------------------------------------------ strings

  /** ReadString inverts WriteJsonString on every string, with whatever follows left unread. */
  lemma {:induction false} StringBack(s: string, tail: string)
    ensures Chars(Escaped(s) + ("\"" + tail)) == Read(s, tail)
    ensures ReadString(QuotedThen(s, tail)) == Read(s, tail)
  {
    CharsBack(s, tail);
    var q := QuotedThen(s, tail);
    assert q[0] == '"' && q[1..] == Escaped(s) + ("\"" + tail);
    SolidStart(q);
  }

  lemma {:induction false} CharsBack(s: string, tail: string)
    ensures Chars(Escaped(s) + ("\"" + tail)) == Read(s, tail)
  {
    if s == "" {
      assert "" + ("\"" + tail) == "\"" + tail && ("\"" + tail)[1..] == tail;
    } else {
      var rest := Escaped(s[1..]) + ("\"" + tail);
      Associate(EscapedChar(s[0]), Escaped(s[1..]), "\"" + tail);
      CharsBack(s[1..], tail);
      OneCharBack(s[0], rest);
      assert [s[0]] + s[1..] == s;
    }
  }

  lemma OneCharBack(c: char, rest: string)
    ensures Chars(EscapedChar(c) + rest) == Read([c] + Chars(rest).value, Chars(rest).rest)
  {
    var t := EscapedChar(c) + rest;
    if |EscapedChar(c)| == 2 {
      assert t[0] == '\\' && t[2..] == rest && t[1] == EscapedChar(c)[1];
    } else {
      assert t[0] == c && t[1..] == rest;
    }
  }

  // A string with every character but n, r and t behind a backslash.
  function Slashed(s: string): (r: string) {
    if s == "" then ""
    else (if s[0] == 'n' || s[0] == 'r' || s[0] == 't' then [s[0]] else ['\\', s[0]]) + Slashed(s[1..])
  }

  /** A backslash before any other character stands for that character. */
  lemma {:induction false} SlashesDrop(s: string, tail: string)
    ensures Chars(Slashed(s) + ("\"" + tail)) == Read(s, tail)
  {
    if s == "" {
      assert "" + ("\"" + tail) == "\"" + tail && ("\"" + tail)[1..] == tail;
    } else {
      var head := if s[0] == 'n' || s[0] == 'r' || s[0] == 't' then [s[0]] else ['\\', s[0]];
      var rest := Slashed(s[1..]) + ("\"" + tail);
      Associate(head, Slashed(s[1..]), "\"" + tail);
      SlashesDrop(s[1..], tail);
      var t := head + rest;
      assert t[0] == head[0] && t[|head|..] == rest;
      assert [s[0]] + s[1..] == s;
    }
  }

  // A key holds no character that needs escaping, so its literal is read as it is.
  predicate IsPlain(k: string) {
    forall i :: 0 <= i < |k| ==> k[i] != '"' && k[i] != '\\' && k[i] != '\n' && k[i] != '\r' && k[i] != '\t'
  }

  lemma {:induction false} PlainEscaped(k: string)
    requires IsPlain(k)
    ensures Escaped(k) == k
  {
    if k != "" {
      assert IsPlain(k[1..]);
      PlainEscaped(k[1..]);
      assert [k[0]] + k[1..] == k;
    }
  }

  lemma KeyBack(indent: string, k: string, tail: string)
    requires IsPlain(k) && forall i :: 0 <= i < |indent| ==> IsBlank(indent[i])
    ensures ReadString(KeyThen(indent, k, tail)) == Read(k, ": " + tail)
    ensures Expect(": " + tail, ':') == Read(true, " " + tail)
  {
    PlainEscaped(k);
    StringBack(k, ": " + tail);
    SkipBlanksPast(indent, QuotedThen(k, ": " + tail));
    assert SkipBlanks(KeyThen(indent, k, tail)) == SkipBlanks(QuotedThen(k, ": " + tail));
    assert (": " + tail)[1..] == " " + tail;
  }

  // ------------------------------------------------------------------ numbers

  // Reading printed digits continues with their number.
  lemma {:induction false} NatBack(n: nat, rest: string)
    ensures DigitsFrom(NatText(n) + rest, 0) == DigitsFrom(rest, n)
  {
    if n < 10 {
      assert ([Digit(n)] + rest)[1..] == rest;
    } else {
      var last := [Digit(n % 10)];
      Associate(NatText(n / 10), last, rest);
      NatBack(n / 10, last + rest);
      assert (last + rest)[1..] == rest;
    }
  }

  // The text starts no further digit or fraction.
  predicate EndsNumber(tail: string) {
    tail != "" && !IsDigit(tail[0]) && tail[0] != '.'
  }

  lemma UnsignedThen(m: string, tail: string)
    requires m != "" && StartsNumber(m[0])
    ensures SkipBlanks(m + tail) == m + tail && Signed(m + tail) == Signed(m) && Unsigned(m + tail) == Unsigned(m) + tail
  {
    var w := m + tail;
    assert w[0] == m[0];
    if Signed(m) { assert w[1..] == m[1..] + tail; }
  }

  lemma UnsignedInt(n: int)
    ensures Signed(IntText(n)) == (n < 0) && Unsigned(IntText(n)) == NatText(if n < 0 then -n else n)
  {
  }

  // The digits alone do not fit an int64; of the int64 values that is INT64_MIN.
  predicate Unreadable(n: int) { n > INT64_MAX || n < -INT64_MAX }

  /** Every printed integer is read back, and the sum leaves int64 for INT64_MIN alone. */
  lemma IntBack(n: int, tail: string)
    requires EndsNumber(tail)
    ensures ReadInt(IntText(n) + tail) == Read(n, tail)
    ensures SkipNumber(IntText(n) + tail) == tail
    ensures IntOverflows(IntText(n) + tail) <==> Unreadable(n)
    ensures INT64_MIN <= n <= INT64_MAX ==> (IntOverflows(IntText(n) + tail) <==> n == INT64_MIN)
  {
    hide IntText, NatText;
    UnsignedThen(IntText(n), tail);
    UnsignedInt(n);
    NatBack(if n < 0 then -n else n, tail);
  }

  lemma {:induction false} DigitsPass(ds: string, rest: string, val: nat)
    requires (forall i :: 0 <= i < |ds| ==> IsDigit(ds[i])) && rest != "" && !IsDigit(rest[0])
    ensures DigitsFrom(ds + rest, val).rest == rest
  {
    if ds == "" {
      assert ds + rest == rest;
    } else {
      assert (ds + rest)[1..] == ds[1..] + rest;
      DigitsPass(ds[1..], rest, val * 10 + (ds[0] as int - '0' as int));
    }
  }

  lemma DecimalBack(m: string, tail: string)
    requires IsPlainDecimal(m) && EndsNumber(tail)
    ensures m != "" && StartsNumber(m[0]) && SkipNumber(m + tail) == tail
  {
    var u := Unsigned(m);
    var n := DigitCount(u);
    assert IsDigit(u[0]);
    UnsignedThen(m, tail);
    if n == |u| {
      DigitsPass(u, tail, 0);
    } else {
      var ds, f := u[..n], u[n + 1..];
      assert u == ds + ("." + f);
      assert u + tail == ds + ("." + (f + tail));
      DigitsPass(ds, "." + (f + tail), 0);
      assert ("." + (f + tail))[1..] == f + tail;
      DigitsPass(f, tail, 0);
    }
  }

  // ------------------------------------------------------------------ skipping a printed object

  lemma NestedBlanks(b: string, s: string, isObject: bool, depth: nat)
    requires (forall i :: 0 <= i < |b| ==> IsBlank(b[i])) && depth > 0
    ensures NestedRest(b + s, isObject, depth) == NestedRest(s, isObject, depth)
  {
    SkipBlanksPast(b, s);
    if s == "" || b == "" {
      assert b + s == s || b + s == b;
    }
  }

  // Punctuation between the parts of an object is passed over.
  lemma NestedOther(c: char, s: string, isObject: bool, depth: nat)
    requires depth > 0 && (c == ':' || c == ',')
    ensures NestedRest([c] + s, isObject, depth) == NestedRest(s, isObject, depth)
  {
    assert ([c] + s)[1..] == s;
  }

  lemma NestedString(k: string, s: string, isObject: bool, depth: nat)
    requires depth > 0
    ensures NestedRest(QuotedThen(k, s), isObject, depth) == NestedRest(s, isObject, depth)
  {
    StringBack(k, s);
    var q := QuotedThen(k, s);
    assert q[1..] == Escaped(k) + ("\"" + s);
  }

  lemma NestedNumber(w: string, isObject: bool, depth: nat)
    requires depth > 0 && w != "" && StartsNumber(w[0])
    ensures NestedRest(w, isObject, depth) == NestedRest(SkipNumber(w), isObject, depth)
  {
    hide SkipNumber, Chars, SkipBool;
    SolidStart(w);
    hide SkipBlanks;
  }

  lemma NestedInt(n: int, s: string, isObject: bool, depth: nat)
    requires depth > 0 && EndsNumber(s)
    ensures NestedRest(IntText(n) + s, isObject, depth) == NestedRest(s, isObject, depth)
  {
    hide NestedRest, SkipNumber;
    IntBack(n, s);
    assert (IntText(n) + s)[0] == IntText(n)[0];
    NestedNumber(IntText(n) + s, isObject, depth);
  }

  lemma KeyIsQuoted(indent: string, k: string, s: string)
    requires IsPlain(k)
    ensures KeyThen(indent, k, s) == indent + QuotedThen(k, [':'] + (" " + s))
  {
    PlainEscaped(k);
    assert ": " + s == [':'] + (" " + s);
    hide Escaped;
  }

  lemma NestedKey(indent: string, k: string, s: string, depth: nat)
    requires IsPlain(k) && depth > 0 && forall i :: 0 <= i < |indent| ==> IsBlank(indent[i])
    ensures NestedRest(KeyThen(indent, k, s), true, depth) == NestedRest(s, true, depth)
  {
    hide NestedRest, KeyThen, QuotedThen, IsPlain;
    var value := " " + s;
    KeyIsQuoted(indent, k, s);
    NestedBlanks(indent, QuotedThen(k, [':'] + value), true, depth);
    NestedString(k, [':'] + value, true, depth);
    NestedOther(':', value, true, depth);
    NestedBlanks(" ", s, true, depth);
  }

  lemma NestedComma(s: string, isObject: bool, depth: nat)
    requires depth > 0
    ensures NestedRest(",\n" + s, isObject, depth) == NestedRest(s, isObject, depth)
  {
    assert ",\n" + s == [','] + ("\n" + s);
    NestedOther(',', "\n" + s, isObject, depth);
    NestedBlanks("\n", s, isObject, depth);
  }

  lemma NestedIntField(indent: string, k: string, n: int, s: string, depth: nat)
    requires IsPlain(k) && depth > 0 && forall i :: 0 <= i < |indent| ==> IsBlank(indent[i])
    ensures NestedRest(IntField(indent, k, n, s), true, depth) == NestedRest(s, true, depth)
  {
    NestedKey(indent, k, IntText(n) + (",\n" + s), depth);
    NestedInt(n, ",\n" + s, true, depth);
    NestedComma(s, true, depth);
  }

  lemma {:induction false} NestedBuckets(bs: seq<int>, first: bool, s: string)
    requires EndsNumber(s)
    ensures NestedRest(BucketsThen(bs, first, s), false, 1) == NestedRest(s, false, 1)
    ensures !first ==> EndsNumber(BucketsThen(bs, first, s))
    decreases |bs|
  {
    hide NestedRest, IntText;
    if bs != [] {
      var rest := BucketsThen(bs[1..], false, s);
      NestedBuckets(bs[1..], false, s);
      NestedInt(bs[0], rest, false, 1);
      NestedSeparator(first, IntText(bs[0]) + rest);
    }
  }

  lemma NestedSeparator(first: bool, number: string)
    ensures NestedRest((if first then "" else ", ") + number, false, 1) == NestedRest(number, false, 1)
  {
    hide NestedRest;
    if first {
      assert "" + number == number;
    } else {
      assert ", " + number == [','] + (" " + number);
      NestedOther(',', " " + number, false, 1);
      NestedBlanks(" ", number, false, 1);
    }
  }

  lemma NestedCloseHere(isObject: bool, s: string)
    ensures NestedRest([Closer(isObject)] + s, isObject, 1) == Some(s)
  {
    var w := [Closer(isObject)] + s;
    assert w[1..] == s && SkipBlanks(w) == w;
    assert NestedRest(s, isObject, 0) == Some(s);
  }

  lemma NestedClose(b: string, isObject: bool, s: string)
    requires forall i :: 0 <= i < |b| ==> IsBlank(b[i])
    ensures NestedRest(b + ([Closer(isObject)] + s), isObject, 1) == Some(s)
  {
    hide NestedRest;
    NestedBlanks(b, [Closer(isObject)] + s, isObject, 1);
    NestedCloseHere(isObject, s);
  }

  lemma NestedArray(bs: seq<int>, s: string)
    ensures NestedRest("[" + BucketsThen(bs, true, "]" + s), true, 1) == NestedRest(s, true, 1)
  {
    var inside := BucketsThen(bs, true, "]" + s);
    assert ("[" + inside)[1..] == inside;
    NestedBuckets(bs, true, "]" + s);
    NestedClose("", false, s);
    assert "" + ([Closer(false)] + s) == "]" + s;
  }

  lemma ObjectBack(inside: string)
    ensures SkipValue(" " + ("{\n" + inside)) == NestedRest(inside, true, 1)
  {
    var text := "{\n" + inside;
    SkipBlanksPast(" ", text);
    SolidStart(text);
    assert text[1..] == "\n" + inside;
    hide NestedRest;
    NestedBlanks("\n", inside, true, 1);
  }

  // The keys the writer uses need no escaping.
  lemma WriterKeysArePlain()
    ensures IsPlain("interval_size_usec") && IsPlain("num_intervals") && IsPlain("count") && IsPlain("total_usec") && IsPlain("buckets")
    ensures IsPlain("enable_profiler") && IsPlain("histogram_interval_size_usec") && IsPlain("num_histogram_intervals") && IsPlain("trace_log_path")
  {
  }

  /** SkipValue consumes exactly one printed histogram. */
  lemma HistogramBack(n: NodeProfile, tail: string)
    ensures SkipValue(" " + HistogramThen(n, tail)) == Some(tail)
  {
    hide KeyThen, IntField, NestedRest, BucketsThen, SkipValue, IsPlain;
    WriterKeysArePlain();
    var closing := "\n    }" + tail;
    var buckets := KeyThen("      ", "buckets", "[" + BucketsThen(n.buckets, true, "]\n    }" + tail));
    var total := IntField("      ", "total_usec", n.total, buckets);
    var count := IntField("      ", "count", n.count, total);
    var intervals := IntField("      ", "num_intervals", n.intervals, count);
    var size := IntField("      ", "interval_size_usec", n.intervalUsec, intervals);
    ObjectBack(size);
    NestedIntField("      ", "interval_size_usec", n.intervalUsec, intervals, 1);
    NestedIntField("      ", "num_intervals", n.intervals, count, 1);
    NestedIntField("      ", "count", n.count, total, 1);
    NestedIntField("      ", "total_usec", n.total, buckets, 1);
    BucketsKeyBack(n.buckets, tail);
  }

  lemma BucketsKeyBack(bs: seq<int>, tail: string)
    ensures NestedRest(KeyThen("      ", "buckets", "[" + BucketsThen(bs, true, "]\n    }" + tail)), true, 1) == Some(tail)
  {
    hide KeyThen, NestedRest, BucketsThen, IsPlain;
    WriterKeysArePlain();
    var closing := "\n    }" + tail;
    assert "]\n    }" + tail == "]" + closing;
    NestedKey("      ", "buckets", "[" + BucketsThen(bs, true, "]" + closing), 1);
    NestedArray(bs, closing);
    assert closing == "\n    " + ([Closer(true)] + tail);
    NestedClose("\n    ", true, tail);
  }

  lemma NestedBool(b: bool, s: string, depth: nat)
    requires depth > 0
    ensures NestedRest(BoolText(b) + s, true, depth) == NestedRest(s, true, depth)
  {
    var w := BoolText(b) + s;
    if b {
      assert w[..4] == "true" && w[4..] == s;
    } else {
      assert w[..5] == "false" && w[5..] == s;
    }
    SolidStart(w);
  }

  /** SkipValue consumes exactly the printed configuration, whatever its path holds. */
  lemma ConfigBack(c: ProfilerConfig, tail: string)
    ensures SkipValue(" " + ConfigThen(c, tail)) == Some(tail)
  {
    hide KeyThen, IntField, NestedRest, QuotedThen, SkipValue, IsPlain, BoolText;
    WriterKeysArePlain();
    var path := KeyThen("    ", "trace_log_path", QuotedThen(c.tracePath, "\n  }" + tail));
    var intervals := IntField("    ", "num_histogram_intervals", c.intervals, path);
    var size := IntField("    ", "histogram_interval_size_usec", c.intervalUsec, intervals);
    var enabled := KeyThen("    ", "enable_profiler", BoolText(c.enabled) + (",\n" + size));
    ObjectBack(enabled);
    NestedKey("    ", "enable_profiler", BoolText(c.enabled) + (",\n" + size), 1);
    NestedBool(c.enabled, ",\n" + size, 1);
    NestedComma(size, true, 1);
    NestedIntField("    ", "histogram_interval_size_usec", c.intervalUsec, intervals, 1);
    NestedIntField("    ", "num_histogram_intervals", c.intervals, path, 1);
    PathKeyBack(c.tracePath, tail);
  }

  lemma PathKeyBack(tracePath: string, tail: string)
    ensures NestedRest(KeyThen("    ", "trace_log_path", QuotedThen(tracePath, "\n  }" + tail)), true, 1) == Some(tail)
  {
    hide KeyThen, NestedRest, QuotedThen, IsPlain;
    WriterKeysArePlain();
    NestedKey("    ", "trace_log_path", QuotedThen(tracePath, "\n  }" + tail), 1);
    NestedString(tracePath, "\n  }" + tail, true, 1);
    assert "\n  }" + tail == "\n  " + ([Closer(true)] + tail);
    NestedClose("\n  ", true, tail);
  }
}
