/** SimpleJsonReader: what each call returns and what it leaves unread, as functions of the unread text,
    and the reader object that computes them. */
module Json {
  import opened Timestamps
  import opened Graphs

  /** A value and the text left after it. */
  datatype Read<T> = Read(value: T, rest: string)

  predicate IsBlank(c: char) { c == ' ' || c == '\n' || c == '\r' || c == '\t' }
  predicate IsDigit(c: char) { '0' <= c <= '9' }

  function SkipBlanks(s: string): (r: string)
    ensures |r| <= |s| && (r != "" ==> !IsBlank(r[0]))
  {
    if s != "" && IsBlank(s[0]) then SkipBlanks(s[1..]) else s
  }

  function Expect(s: string, c: char): (r: Read<bool>)
    ensures |r.rest| <= |s| && (r.value ==> |r.rest| < |s|)
  {
    var w := SkipBlanks(s);
    if w != "" && w[0] == c then Read(true, w[1..]) else Read(false, w)
  }

  function Unescaped(c: char): (r: char) {
    if c == 'n' then '\n' else if c == 'r' then '\r' else if c == 't' then '\t' else c
  }

  // The inside of a string, up to and past its closing quote or the end of the text.
  function Chars(s: string): (r: Read<string>)
    ensures |r.rest| <= |s|
  {
    if s == "" then Read("", "")
    else if s[0] == '"' then Read("", s[1..])
    else if s[0] == '\\' then
      if |s| == 1 then Read("", "")
      else
        var r := Chars(s[2..]);
        Read([Unescaped(s[1])] + r.value, r.rest)
    else
      var r := Chars(s[1..]);
      Read([s[0]] + r.value, r.rest)
  }

  // ReadString and ReadKey: nothing is consumed but blanks when no string starts here.
  function ReadString(s: string): (r: Read<string>)
    ensures |r.rest| <= |s| && (r.value != "" ==> |r.rest| < |s|)
  {
    var w := SkipBlanks(s);
    if w == "" || w[0] != '"' then Read("", w) else Chars(w[1..])
  }

  function DigitCount(s: string): (n: nat)
    ensures n <= |s| && (forall i :: 0 <= i < n ==> IsDigit(s[i])) && (n < |s| ==> !IsDigit(s[n]))
  {
    if s != "" && IsDigit(s[0]) then 1 + DigitCount(s[1..]) else 0
  }

  // val = val * 10 + digit, over the leading digits.
  function DigitsFrom(s: string, val: nat): (r: Read<nat>)
    ensures |r.rest| <= |s| && (s != "" && IsDigit(s[0]) ==> |r.rest| < |s|)
  {
    if s != "" && IsDigit(s[0]) then DigitsFrom(s[1..], val * 10 + (s[0] as int - '0' as int)) else Read(val, s)
  }

  predicate Signed(s: string) { s != "" && s[0] == '-' }

  function Unsigned(s: string): (r: string)
    ensures |r| <= |s|
  {
    if Signed(s) then s[1..] else s
  }

  // ReadInt64, with the sum taken without wrap-around; see IntOverflows.
  function ReadInt(s: string): (r: Read<int>)
    ensures |r.rest| <= |s|
  {
    var w := SkipBlanks(s);
    var d := DigitsFrom(Unsigned(w), 0);
    Read(if Signed(w) then 0 - d.value else d.value, d.rest)
  }

  // The accumulating sum leaves int64 before the sign is applied.
  predicate IntOverflows(s: string) {
    DigitsFrom(Unsigned(SkipBlanks(s)), 0).value > INT64_MAX
  }

  // What ReadDouble leaves: sign, digits, and a fraction; no exponent.
  function SkipNumber(s: string): (r: string)
    ensures |r| <= |s|
  {
    var r := DigitsFrom(Unsigned(SkipBlanks(s)), 0).rest;
    if r != "" && r[0] == '.' then DigitsFrom(r[1..], 0).rest else r
  }

  function SkipBool(s: string): (r: string)
    ensures |r| <= |s|
  {
    var w := SkipBlanks(s);
    if "true" <= w then w[4..] else if "false" <= w then w[5..] else w
  }

  predicate StartsNumber(c: char) { c == '-' || IsDigit(c) }

  function Opener(isObject: bool): char { if isObject then '{' else '[' }
  function Closer(isObject: bool): char { if isObject then '}' else ']' }

  /** What SkipObject, or SkipArray, leaves after `depth` closing brackets, or None when the loop spins: at a
      `t` or `f` that starts neither literal the reader does not move, and the loop sees it again for ever. */
  function NestedRest(s: string, isObject: bool, depth: nat): (r: Option<string>)
    ensures r.Some? ==> |r.value| <= |s|
    decreases |s|
  {
    if s == "" || depth == 0 then Some(s)
    else
      var w := SkipBlanks(s);
      if w == "" then Some("")
      else if w[0] == Opener(isObject) then NestedRest(w[1..], isObject, depth + 1)
      else if w[0] == Closer(isObject) then NestedRest(w[1..], isObject, depth - 1)
      else if w[0] == '"' then NestedRest(Chars(w[1..]).rest, isObject, depth)
      else if w[0] == Opener(!isObject) then
        match NestedRest(w[1..], !isObject, 1)
        case None => None
        case Some(rest) => NestedRest(rest, isObject, depth)
      else if w[0] == 't' || w[0] == 'f' then
        if |SkipBool(w)| < |w| then NestedRest(SkipBool(w), isObject, depth) else None
      else if StartsNumber(w[0]) then
        assert |SkipNumber(w)| < |w| by { NumberMoves(w); }
        NestedRest(SkipNumber(w), isObject, depth)
      else NestedRest(w[1..], isObject, depth)
  }

  lemma NumberMoves(w: string)
    requires w != "" && StartsNumber(w[0])
    ensures |SkipNumber(w)| < |w|
  {
    assert SkipBlanks(w) == w;
  }

  // Skipping blanks first changes nothing.
  lemma SkippedOnce(s: string)
    ensures SkipBlanks(SkipBlanks(s)) == SkipBlanks(s)
  {
  }

  function SkipValue(s: string): (r: Option<string>)
    ensures r.Some? ==> |r.value| <= |s|
  {
    var w := SkipBlanks(s);
    if w == "" then Some("")
    else if w[0] == '"' then Some(Chars(w[1..]).rest)
    else if w[0] == '{' then NestedRest(w[1..], true, 1)
    else if w[0] == '[' then NestedRest(w[1..], false, 1)
    else if w[0] == 't' || w[0] == 'f' then Some(SkipBool(w))
    else Some(SkipNumber(w))
  }

  // Text already read, in front of what is still to be read.
  ghost function Joined(text: string, r: Read<string>): (j: Read<string>)
    ensures text == "" ==> j == r
    ensures r.value == "" ==> j == Read(text, r.rest)
  {
    assert text == "" ==> text + r.value == r.value;
    assert r.value == "" ==> text + r.value == text;
    Read(text + r.value, r.rest)
  }

  lemma JoinedNext(text: string, c: char, r: Read<string>)
    ensures Joined(text + [c], r) == Joined(text, Read([c] + r.value, r.rest))
  {
    assert text + [c] + r.value == text + ([c] + r.value);
  }

  // One turn of the string loop.
  lemma CharsTurn(u: string)
    requires u != "" && u[0] != '"'
    ensures u[0] == '\\' && |u| > 1 ==>
      u[1..] != "" && u[1..][0] == u[1] && u[1..][1..] == u[2..]
      && Chars(u) == Read([Unescaped(u[1])] + Chars(u[2..]).value, Chars(u[2..]).rest)
    ensures u[0] == '\\' && |u| == 1 ==> u[1..] == "" && Chars(u) == Chars("")
    ensures u[0] != '\\' ==> Chars(u) == Read([u[0]] + Chars(u[1..]).value, Chars(u[1..]).rest)
  {
  }

  lemma CharsEnd(u: string)
    requires u == "" || u[0] == '"'
    ensures Chars(u) == Read("", if u == "" then "" else u[1..])
  {
  }

  // ------------------------------------------------------------------ the reader

  class SimpleJsonReader {
    const content: string
    var pos: nat

    constructor (content: string)
      ensures this.content == content && pos == 0 && Unread() == content
    {
      this.content := content;
      pos := 0;
    }

    // A skip may leave the position one past the end.
    ghost function Unread(): (s: string)
      reads this`pos
    {
      if pos < |content| then content[pos..] else ""
    }

    // Characters left from a position on.
    function RemainingFrom(p: nat): (n: nat)
      ensures p < |content| ==> n == |content[p..]|
      ensures p >= |content| ==> n == 0
    {
      if p < |content| then |content| - p else 0
    }

    function Remaining(): (n: nat)
      reads this`pos
      ensures n == |Unread()|
    {
      RemainingFrom(pos)
    }

    // The next character, if there is one, heads the unread text.
    lemma Look()
      ensures (pos < |content|) == (Unread() != "")
      ensures pos < |content| ==> Unread()[0] == content[pos]
    {
    }

    method Ok() returns (ok: bool)
      ensures ok == (Unread() != "")
    {
      ok := pos < |content|;
    }

    method Advance()
      modifies this`pos
      ensures Unread() == if old(Unread()) == "" then "" else old(Unread())[1..]
      ensures pos == old(pos) + 1
    {
      assert Unread() != "" ==> Unread()[1..] == content[pos + 1..];
      pos := pos + 1;
    }

    method SkipWhitespace()
      modifies this`pos
      ensures Unread() == SkipBlanks(old(Unread()))
      ensures pos >= old(pos) && (old(pos) <= |content| ==> pos <= |content|)
    {
      while pos < |content| && IsBlank(content[pos])
        invariant SkipBlanks(Unread()) == SkipBlanks(old(Unread()))
        invariant pos >= old(pos) && (old(pos) <= |content| ==> pos <= |content|)
      {
        assert Unread()[1..] == content[pos + 1..];
        pos := pos + 1;
      }
    }

    method ExpectChar(c: char) returns (ok: bool)
      modifies this`pos
      ensures Read(ok, Unread()) == Expect(old(Unread()), c)
    {
      SkipWhitespace();
      if pos < |content| && content[pos] == c {
        assert Unread()[1..] == content[pos + 1..];
        pos := pos + 1;
        return true;
      }
      return false;
    }

    // The loop of ReadString, after the opening quote.
    method ReadChars() returns (text: string)
      modifies this`pos
      ensures Read(text, Unread()) == Chars(old(Unread()))
    {
      ghost var all := Chars(Unread());
      text := "";
      hide Chars, Joined;
      while pos < |content| && content[pos] != '"'
        invariant all == Joined(text, Chars(Unread()))
        decreases |Unread()|
      {
        ghost var u := Unread();
        CharsTurn(u);
        if content[pos] == '\\' {
          Advance();
          if pos >= |content| {
            break;
          }
          JoinedNext(text, Unescaped(content[pos]), Chars(u[2..]));
          text := text + [Unescaped(content[pos])];
        } else {
          JoinedNext(text, content[pos], Chars(u[1..]));
          text := text + [content[pos]];
        }
        Advance();
      }
      CharsEnd(Unread());
      if pos < |content| {
        Advance();
      }
    }

    method ReadStringAt() returns (text: string)
      modifies this`pos
      ensures Read(text, Unread()) == ReadString(old(Unread()))
    {
      SkipWhitespace();
      if pos >= |content| || content[pos] != '"' {
        return "";
      }
      Advance();
      text := ReadChars();
    }

    method SkipSign() returns (neg: bool)
      modifies this`pos
      ensures neg == Signed(old(Unread())) && Unread() == Unsigned(old(Unread()))
    {
      neg := pos < |content| && content[pos] == '-';
      if neg {
        assert Unread()[1..] == content[pos + 1..];
        pos := pos + 1;
      }
    }

    // The digit loop shared by the two number readers.
    method ReadDigits() returns (val: nat)
      modifies this`pos
      ensures Read(val, Unread()) == DigitsFrom(old(Unread()), 0)
    {
      hide Unread;
      val := 0;
      Look();
      while pos < |content| && IsDigit(content[pos])
        invariant (pos < |content|) == (Unread() != "") && (pos < |content| ==> Unread()[0] == content[pos])
        invariant DigitsFrom(Unread(), val) == DigitsFrom(old(Unread()), 0)
        decreases |Unread()|
      {
        val := val * 10 + (content[pos] as int - '0' as int);
        Advance();
        Look();
      }
    }

    // `over` reports that the int64 sum overflowed, after which the value means nothing.
    method ReadInt64() returns (val: int, over: bool)
      modifies this`pos
      ensures Read(val, Unread()) == ReadInt(old(Unread())) && over == IntOverflows(old(Unread()))
    {
      hide DigitsFrom, SkipBlanks, Unread;
      SkipWhitespace();
      var neg := SkipSign();
      val := ReadDigits();
      over := val > INT64_MAX;
      val := if neg then -val else val;
    }

    // ReadDouble; the callers of interest drop its value.
    method SkipDouble()
      modifies this`pos
      ensures Unread() == SkipNumber(old(Unread()))
    {
      SkipWhitespace();
      var _ := SkipSign();
      var _ := ReadDigits();
      if pos < |content| && content[pos] == '.' {
        assert Unread()[1..] == content[pos + 1..];
        pos := pos + 1;
        var _ := ReadDigits();
      }
    }

    method ReadBoolAt()
      modifies this`pos
      ensures Unread() == SkipBool(old(Unread()))
    {
      SkipWhitespace();
      ghost var w := Unread();
      if pos + 4 <= |content| && content[pos..pos + 4] == "true" {
        assert content[pos..pos + 4] == w[..4] && w[4..] == content[pos + 4..];
        pos := pos + 4;
      } else if pos + 5 <= |content| && content[pos..pos + 5] == "false" {
        assert content[pos..pos + 5] == w[..5] && w[5..] == content[pos + 5..];
        pos := pos + 5;
      }
    }

    // One turn of the SkipObject and SkipArray loops. `spins` reports that nothing would move any more.
    method SkipTurn(isObject: bool, depth: nat) returns (spins: bool, depth': nat)
      requires depth > 0 && Unread() != ""
      modifies this`pos
      ensures spins ==> NestedRest(old(Unread()), isObject, depth) == None
      ensures !spins ==> NestedRest(old(Unread()), isObject, depth) == NestedRest(Unread(), isObject, depth')
      ensures |Unread()| <= |old(Unread())| && (!spins ==> |Unread()| < |old(Unread())|)
      decreases |Unread()|, 0
    {
      hide Chars, SkipBool, SkipNumber;
      ghost var s := Unread();
      SkipWhitespace();
      spins, depth' := false, depth;
      ghost var w := Unread();
      SkippedOnce(s);
      if pos >= |content| {
        Advance();
        return;
      }
      var c := content[pos];
      if c == Opener(isObject) {
        depth' := depth + 1;
        Advance();
      } else if c == Closer(isObject) {
        depth' := depth - 1;
        Advance();
      } else if c == '"' {
        var _ := ReadStringAt();
      } else if c == Opener(!isObject) {
        Advance();
        spins := SkipNested(!isObject);
      } else if c == 't' || c == 'f' {
        var at := pos;
        ReadBoolAt();
        spins := pos == at;
      } else if c == '-' || IsDigit(c) {
        NumberMoves(w);
        SkipDouble();
      } else {
        Advance();
      }
    }

    // SkipObject or SkipArray, past the opening bracket.
    method SkipNested(isObject: bool) returns (spins: bool)
      modifies this`pos
      ensures var r := NestedRest(old(Unread()), isObject, 1); spins == r.None? && (r.Some? ==> Unread() == r.value)
      ensures |Unread()| <= |old(Unread())|
      decreases |Unread()|, 1
    {
      var depth := 1;
      spins := false;
      while pos < |content| && depth > 0 && !spins
        invariant |Unread()| <= |old(Unread())|
        invariant !spins ==> NestedRest(old(Unread()), isObject, 1) == NestedRest(Unread(), isObject, depth)
        invariant spins ==> NestedRest(old(Unread()), isObject, 1) == None
        decreases |Unread()|, !spins
      {
        spins, depth := SkipTurn(isObject, depth);
      }
    }

    method SkipValueAt() returns (spins: bool)
      modifies this`pos
      ensures var r := SkipValue(old(Unread())); spins == r.None? && (r.Some? ==> Unread() == r.value)
    {
      SkipWhitespace();
      spins := false;
      if pos >= |content| { return; }
      if content[pos] == '"' {
        var _ := ReadStringAt();
      } else if content[pos] == '{' {
        Advance();
        spins := SkipNested(true);
      } else if content[pos] == '[' {
        Advance();
        spins := SkipNested(false);
      } else if content[pos] == 't' || content[pos] == 'f' {
        ReadBoolAt();
      } else {
        SkipDouble();
      }
    }
  }
}
