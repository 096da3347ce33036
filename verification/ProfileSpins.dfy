/** On which texts Accumulate never returns: exactly those in which one of its loops comes to stand at a
    character that starts nothing the loop can step over. */
module ProfileSpins {
  import opened Graphs
  import opened Json
  import opened ReadBack
  import opened ProfileReport
  import opened ProfileRoundTrip

  /** A place, past blanks, where a loop of the reader looks at the text: at an element of the "nodes" array,
      or inside a value that is being skipped. */
  datatype Look = AtElement(text: string) | InsideValue(text: string)

  predicate StartsLiteral(s: string) { "true" <= s || "false" <= s }

  /** The character a loop cannot step over. Inside a skipped value: a `t` or `f` that begins neither literal.
      At an element: one that is no bracket, brace, quote, comma, point, sign or digit, and begins no literal. */
  predicate Stuck(l: Look) {
    && l.text != ""
    && match l
       case InsideValue(s) => (s[0] == 't' || s[0] == 'f') && !StartsLiteral(s)
       case AtElement(s) =>
         && !IsBlank(s[0]) && s[0] != ']' && s[0] != '{' && s[0] != '[' && s[0] != '"' && s[0] != ',' && s[0] != '.'
         && !StartsNumber(s[0]) && !StartsLiteral(s)
  }

  ghost predicate AnyStuck(ls: seq<Look>) {
    exists i :: 0 <= i < |ls| && Stuck(ls[i])
  }

  lemma AnyStuckConcat(a: seq<Look>, b: seq<Look>)
    ensures AnyStuck(a + b) <==> AnyStuck(a) || AnyStuck(b)
  {
    if i :| 0 <= i < |a| && Stuck(a[i]) {
      assert (a + b)[i] == a[i];
    }
    if i :| 0 <= i < |b| && Stuck(b[i]) {
      assert (a + b)[|a| + i] == b[i];
    }
  }

  // ------------------------------------------------------------------ where the loops look

  // The places SkipObject or SkipArray looks at, inner values included.
  function NestedLooks(s: string, isObject: bool, depth: nat): (ls: seq<Look>)
    decreases |s|
  {
    if s == "" || depth == 0 then []
    else
      var w := SkipBlanks(s);
      if w == "" then []
      else if w[0] == Opener(isObject) then NestedLooks(w[1..], isObject, depth + 1)
      else if w[0] == Closer(isObject) then NestedLooks(w[1..], isObject, depth - 1)
      else if w[0] == '"' then NestedLooks(Chars(w[1..]).rest, isObject, depth)
      else if w[0] == Opener(!isObject) then
        NestedLooks(w[1..], !isObject, 1) +
        match NestedRest(w[1..], !isObject, 1)
        case None => []
        case Some(rest) => NestedLooks(rest, isObject, depth)
      else if w[0] == 't' || w[0] == 'f' then
        [InsideValue(w)] + (if |SkipBool(w)| < |w| then NestedLooks(SkipBool(w), isObject, depth) else [])
      else if StartsNumber(w[0]) then
        assert |SkipNumber(w)| < |w| by { NumberMoves(w); }
        NestedLooks(SkipNumber(w), isObject, depth)
      else NestedLooks(w[1..], isObject, depth)
  }

  function ValueLooks(s: string): (ls: seq<Look>) {
    var w := SkipBlanks(s);
    if w == "" then []
    else if w[0] == '{' then NestedLooks(w[1..], true, 1)
    else if w[0] == '[' then NestedLooks(w[1..], false, 1)
    else []
  }

  // A field of a node object; only a value of no interest is skipped.
  predicate IsKnownField(key: string) {
    key == "node_name" || key == "open_runtime_usec" || key == "close_runtime_usec" || key == "process_count"
    || key == "process_time_total_usec" || key == "process_time_mean_usec"
  }

  function FieldLooks(s: string): (ls: seq<Look>)
    decreases |s|
  {
    if s == "" then []
    else
      var close := Expect(s, '}');
      if close.value then []
      else
        var key := ReadString(close.rest);
        if key.value == "" then []
        else
          var v := Expect(key.rest, ':').rest;
          (if IsKnownField(key.value) then [] else ValueLooks(v)) +
          match FieldRead(key.value, v, NO_FIELDS)
          case None => []
          case Some(r) => FieldLooks(Expect(r.rest, ',').rest)
  }

  function ElementLooks(s: string): (ls: seq<Look>)
    decreases |s|
  {
    if s == "" then []
    else
      var close := Expect(s, ']');
      if close.value then []
      else
        var open := Expect(close.rest, '{');
        if open.value then
          FieldLooks(open.rest) +
          match Fields(open.rest, NO_FIELDS)
          case None => []
          case Some(f) => ElementLooks(f.rest)
        else
          [AtElement(open.rest)] + ValueLooks(open.rest) +
          match SkipValue(open.rest)
          case None => []
          case Some(rest) =>
            var next := Expect(rest, ',').rest;
            if |next| < |s| then ElementLooks(next) else []
  }

  function MemberLooks(s: string): (ls: seq<Look>)
    decreases |s|
  {
    if s == "" then []
    else
      var close := Expect(s, '}');
      if close.value then []
      else
        var key := ReadString(close.rest);
        if key.value == "" then []
        else
          var v := Expect(key.rest, ':').rest;
          var list := Expect(v, '[');
          if key.value == "nodes" && list.value then
            ElementLooks(list.rest) +
            match Nodes(list.rest, [])
            case None => []
            case Some(n) => MemberLooks(n.rest)
          else
            var at := if key.value == "nodes" then list.rest else v;
            ValueLooks(at) +
            match SkipValue(at)
            case None => []
            case Some(rest) => MemberLooks(Expect(rest, ',').rest)
  }

  /** Every place a loop of Accumulate looks at on this text, up to the first where it no longer moves. */
  function Looks(text: string): (ls: seq<Look>) {
    var open := Expect(text, '{');
    if open.value then MemberLooks(open.rest) else []
  }

  // ------------------------------------------------------------------ one turn

  // ReadBool moves exactly at a literal.
  lemma BoolMoves(w: string)
    requires w != "" && !IsBlank(w[0])
    ensures |SkipBool(w)| < |w| <==> StartsLiteral(w)
  {
    SolidStart(w);
  }

  lemma NumberStays(w: string)
    requires w != "" && !IsBlank(w[0]) && !StartsNumber(w[0]) && w[0] != '.'
    ensures SkipNumber(w) == w
  {
    SolidStart(w);
  }

  lemma PointMoves(w: string)
    requires w != "" && w[0] == '.'
    ensures |SkipNumber(w)| < |w|
  {
    SolidStart(w);
    assert DigitsFrom(w, 0).rest == w;
  }

  /** One turn of the element loop, at a place that closes nothing and opens no node, leaves the text as it is
      exactly when it is stuck. */
  lemma ElementTurn(w: string)
    requires w != "" && !IsBlank(w[0]) && w[0] != ']' && w[0] != '{' && SkipValue(w).Some?
    ensures |Expect(SkipValue(w).value, ',').rest| < |w| <==> !Stuck(AtElement(w))
    ensures Stuck(AtElement(w)) ==> Expect(SkipValue(w).value, ',').rest == w
  {
    SolidStart(w);
    if w[0] == '"' || w[0] == '[' {
      hide Chars, NestedRest;
      assert |SkipValue(w).value| < |w|;
    } else if w[0] == 't' || w[0] == 'f' {
      BoolMoves(w);
      if !StartsLiteral(w) {
        assert SkipBool(w) == w;
      }
      hide SkipBool;
    } else if StartsNumber(w[0]) {
      NumberMoves(w);
      hide SkipNumber;
    } else if w[0] == '.' {
      PointMoves(w);
      hide SkipNumber;
    } else {
      NumberStays(w);
      hide SkipNumber;
    }
  }

  // ------------------------------------------------------------------ whole loops

  lemma {:induction false} NestedSpins(s: string, isObject: bool, depth: nat)
    ensures NestedRest(s, isObject, depth) == None <==> AnyStuck(NestedLooks(s, isObject, depth))
    decreases |s|
  {
    if s != "" && depth > 0 && SkipBlanks(s) != "" {
      var w := SkipBlanks(s);
      hide Chars, SkipBool, SkipNumber, AnyStuck, SkipBlanks;
      NoneStuck();
      if w[0] == Opener(isObject) {
        NestedSpins(w[1..], isObject, depth + 1);
      } else if w[0] == Closer(isObject) {
        NestedSpins(w[1..], isObject, depth - 1);
      } else if w[0] == '"' {
        NestedSpins(Chars(w[1..]).rest, isObject, depth);
      } else if w[0] == Opener(!isObject) {
        NestedSpins(w[1..], !isObject, 1);
        var rest := NestedRest(w[1..], !isObject, 1);
        AnyStuckConcat(NestedLooks(w[1..], !isObject, 1), if rest.None? then [] else NestedLooks(rest.value, isObject, depth));
        if rest.Some? {
          NestedSpins(rest.value, isObject, depth);
        }
      } else if w[0] == 't' || w[0] == 'f' {
        BoolMoves(w);
        OneStuck(InsideValue(w));
        AnyStuckConcat([InsideValue(w)], if |SkipBool(w)| < |w| then NestedLooks(SkipBool(w), isObject, depth) else []);
        if |SkipBool(w)| < |w| {
          NestedSpins(SkipBool(w), isObject, depth);
        }
      } else if StartsNumber(w[0]) {
        NumberMoves(w);
        NestedSpins(SkipNumber(w), isObject, depth);
      } else {
        NestedSpins(w[1..], isObject, depth);
      }
    }
  }

  lemma NoneStuck()
    ensures !AnyStuck([])
  {
  }

  lemma OneStuck(l: Look)
    ensures AnyStuck([l]) <==> Stuck(l)
  {
    if Stuck(l) { assert [l][0] == l; }
  }

  lemma ValueSpins(s: string)
    ensures SkipValue(s) == None <==> AnyStuck(ValueLooks(s))
  {
    var w := SkipBlanks(s);
    NoneStuck();
    if w != "" {
      NestedSpins(w[1..], true, 1);
      NestedSpins(w[1..], false, 1);
    }
    hide Chars, SkipBool, SkipNumber, AnyStuck, SkipBlanks, NestedLooks, NestedRest;
  }

  // Which field is read does not depend on the fields read before.
  lemma FieldReadShape(key: string, s: string, f: NodeFields)
    ensures FieldRead(key, s, f) == None <==> !IsKnownField(key) && SkipValue(s) == None
    ensures FieldRead(key, s, f).None? <==> FieldRead(key, s, NO_FIELDS).None?
    ensures FieldRead(key, s, f).Some? ==> FieldRead(key, s, f).value.rest == FieldRead(key, s, NO_FIELDS).value.rest
  {
    hide SkipValue, ReadString, ReadInt, SkipNumber;
  }

  lemma {:induction false} FieldsSpin(s: string, f: NodeFields)
    ensures Fields(s, f) == None <==> AnyStuck(FieldLooks(s))
    decreases |s|
  {
    NoneStuck();
    if s != "" && !Expect(s, '}').value {
      var key := ReadString(Expect(s, '}').rest);
      if key.value != "" {
        var v := Expect(key.rest, ':').rest;
        hide AnyStuck, FieldRead, ReadString, Expect, ValueLooks, SkipValue, IsKnownField;
        ValueSpins(v);
        FieldReadShape(key.value, v, f);
        var mine := if IsKnownField(key.value) then [] else ValueLooks(v);
        var r := FieldRead(key.value, v, NO_FIELDS);
        AnyStuckConcat(mine, if r.None? then [] else FieldLooks(Expect(r.value.rest, ',').rest));
        if r.Some? {
          FieldsSpin(Expect(r.value.rest, ',').rest, FieldRead(key.value, v, f).value.value);
        }
      }
    }
  }

  // What is left does not depend on the fields or the entries collected so far.
  lemma {:induction false} NodesShape(s: string, data: seq<Accum>)
    ensures Nodes(s, data).None? <==> Nodes(s, []).None?
    ensures Nodes(s, data).Some? ==> Nodes(s, data).value.rest == Nodes(s, []).value.rest
    decreases |s|
  {
    if s != "" && !Expect(s, ']').value {
      var open := Expect(Expect(s, ']').rest, '{');
      hide Expect, Fields, SkipValue, Recorded;
      if open.value {
        var f := Fields(open.rest, NO_FIELDS);
        if f.Some? {
          NodesShape(f.value.rest, Recorded(data, f.value.value));
          NodesShape(f.value.rest, Recorded([], f.value.value));
        }
      } else {
        var v := SkipValue(open.rest);
        if v.Some? && |Expect(v.value, ',').rest| < |s| {
          NodesShape(Expect(v.value, ',').rest, data);
        }
      }
    }
  }

  lemma ElementPlace(s: string)
    requires s != "" && !Expect(s, ']').value && !Expect(Expect(s, ']').rest, '{').value
    ensures var w := Expect(Expect(s, ']').rest, '{').rest;
      |w| <= |s| && w == SkipBlanks(s) && (w != "" ==> !IsBlank(w[0]) && w[0] != ']' && w[0] != '{')
  {
    SkippedOnce(s);
  }

  lemma {:induction false} NodesSpinAt(s: string, data: seq<Accum>)
    ensures Nodes(s, data) == None <==> AnyStuck(ElementLooks(s))
    decreases |s|
  {
    NoneStuck();
    if s != "" && !Expect(s, ']').value {
      var open := Expect(Expect(s, ']').rest, '{');
      hide AnyStuck, Expect, Fields, FieldLooks, ValueLooks, SkipValue, Recorded;
      if open.value {
        FieldsSpin(open.rest, NO_FIELDS);
        var f := Fields(open.rest, NO_FIELDS);
        AnyStuckConcat(FieldLooks(open.rest), if f.None? then [] else ElementLooks(f.value.rest));
        if f.Some? {
          NodesSpinAt(f.value.rest, Recorded(data, f.value.value));
        }
      } else {
        ElementPlace(s);
        ElementSpins(s, open.rest, data);
      }
    }
  }

  lemma ElementSpins(s: string, w: string, data: seq<Accum>)
    requires s != "" && !Expect(s, ']').value && Expect(Expect(s, ']').rest, '{') == Read(false, w)
    requires |w| <= |s| && (w != "" ==> !IsBlank(w[0]) && w[0] != ']' && w[0] != '{')
    ensures Nodes(s, data) == None <==> AnyStuck(ElementLooks(s))
    decreases |s|, 0
  {
    var v := SkipValue(w);
    ValueSpins(w);
    OneStuck(AtElement(w));
    var next := if v.None? then "" else Expect(v.value, ',').rest;
    var more := if v.Some? && |next| < |s| then ElementLooks(next) else [];
    NoneStuck();
    AnyStuckConcat([AtElement(w)], ValueLooks(w));
    AnyStuckConcat([AtElement(w)] + ValueLooks(w), more);
    if w != "" && v.Some? {
      ElementTurn(w);
    }
    if v.Some? && |next| < |s| {
      if w != "" && Stuck(AtElement(w)) {
        StuckForEver(w, data);
      } else {
        NodesSpinAt(next, data);
      }
    }
    hide AnyStuck, SkipValue, ValueLooks, Stuck, Fields;
  }

  lemma StuckForEver(w: string, data: seq<Accum>)
    requires Stuck(AtElement(w))
    ensures SkipValue(w).Some? ==> Nodes(w, data) == None
  {
    SolidStart(w);
    if SkipValue(w).Some? {
      ElementTurn(w);
    }
    hide SkipValue, Stuck;
  }

  lemma {:induction false} MembersSpin(s: string, data: seq<Accum>)
    ensures Members(s, data) == None <==> AnyStuck(MemberLooks(s))
    decreases |s|
  {
    NoneStuck();
    if s != "" && !Expect(s, '}').value {
      var key := ReadString(Expect(s, '}').rest);
      if key.value != "" {
        var v := Expect(key.rest, ':').rest;
        var list := Expect(v, '[');
        hide AnyStuck, ReadString, Expect, ValueLooks, SkipValue, Nodes, ElementLooks;
        if key.value == "nodes" && list.value {
          NodesSpinAt(list.rest, data);
          NodesShape(list.rest, data);
          var n := Nodes(list.rest, []);
          AnyStuckConcat(ElementLooks(list.rest), if n.None? then [] else MemberLooks(n.value.rest));
          if n.Some? {
            MembersSpin(n.value.rest, Nodes(list.rest, data).value.value);
          }
        } else {
          var at := if key.value == "nodes" then list.rest else v;
          ValueSpins(at);
          var rest := SkipValue(at);
          AnyStuckConcat(ValueLooks(at), if rest.None? then [] else MemberLooks(Expect(rest.value, ',').rest));
          if rest.Some? {
            MembersSpin(Expect(rest.value, ',').rest, data);
          }
        }
      }
    }
  }

  /** Accumulate never returns exactly when one of the places its loops look at is stuck. */
  lemma SpinsExactly(text: string, data: seq<Accum>)
    ensures Accumulated(text, data) == Spins <==> AnyStuck(Looks(text))
  {
    NoneStuck();
    var open := Expect(text, '{');
    if open.value {
      MembersSpin(open.rest, data);
    }
    hide AnyStuck, Members, MemberLooks, Expect;
  }

  /** Any text whose "nodes" array begins with a stuck element traps the reader at once. `null`, an element of
      well-formed JSON, is one. */
  lemma FirstElement(element: string, data: seq<Accum>)
    requires Stuck(AtElement(element))
    ensures Accumulated("{\"nodes\":[" + element, data) == Spins
    ensures Stuck(AtElement("null]}"))
  {
    NodesKeyOf(element);
    if SkipValue(element).Some? {
      StuckForEver(element, data);
    }
    hide Nodes, SkipValue, Expect, ReadString, Stuck;
  }
}
