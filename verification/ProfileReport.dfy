/** Reporter: reading profile documents into per-node totals, and reporting them. */
module ProfileReport {
  import opened Timestamps
  import opened Graphs
  import opened Json

  /** The fields of one node object the reporter looks at. */
  // `over`: an int64 sum overflowed on the way to these values, so the program's own may differ.
  datatype NodeFields = NodeFields(name: string, open: int, close: int, count: int, total: int, over: bool)

  const NO_FIELDS := NodeFields("", 0, 0, 0, 0, false)

  datatype Accum = Accum(name: string, open: int, close: int, count: int, total: int, min: int, max: int, samples: nat, over: bool)

  predicate InInt64(n: int) { INT64_MIN <= n <= INT64_MAX }

  /** How Accumulate ends. `Spins` is a loop that no longer moves: the call never returns. */
  datatype Outcome = NotAnObject | Spins | Done(data: seq<Accum>)

  // ------------------------------------------------------------------ totals

  // C++ integer division truncates towards zero.
  function TruncDiv(a: int, b: int): (q: int)
    requires b > 0
    ensures -b < a - q * b < b
    ensures a >= 0 ==> a - q * b >= 0
    ensures a <= 0 ==> a - q * b <= 0
  {
    if a >= 0 then a / b else -((-a) / b)
  }

  function Merged(e: Accum, f: NodeFields): (r: Accum) {
    var avg := if f.count > 0 then TruncDiv(f.total, f.count) else 0;
    Accum(e.name, f.open, f.close, e.count + f.count, e.total + f.total,
          if f.count > 0 && avg < e.min then avg else e.min, if f.count > 0 && avg > e.max then avg else e.max, e.samples + 1,
          e.over || f.over || !InInt64(e.count + f.count) || !InInt64(e.total + f.total))
  }

  function NewEntry(name: string): (r: Accum) {
    Accum(name, 0, 0, 0, 0, INT64_MAX, 0, 0, false)
  }

  function Place(data: seq<Accum>, name: string): (i: nat)
    ensures i <= |data| && (i < |data| ==> data[i].name == name)
    ensures forall k :: 0 <= k < i ==> data[k].name != name
  {
    if data == [] || data[0].name == name then 0 else Place(data[1..], name) + 1
  }

  function Recorded(data: seq<Accum>, f: NodeFields): (r: seq<Accum>) {
    if f.name == "" then data
    else
      var i := Place(data, f.name);
      if i < |data| then data[i := Merged(data[i], f)]
      else data + [Merged(NewEntry(f.name), f)]
  }

  // ------------------------------------------------------------------ the document

  // One field's value, into the field it names; any other value is skipped.
  function FieldRead(key: string, s: string, f: NodeFields): (r: Option<Read<NodeFields>>)
    ensures r.Some? ==> |r.value.rest| <= |s|
  {
    if key == "node_name" then
      var v := ReadString(s); Some(Read(f.(name := v.value), v.rest))
    else if key == "open_runtime_usec" then
      var v := ReadInt(s); Some(Read(f.(open := v.value, over := f.over || IntOverflows(s)), v.rest))
    else if key == "close_runtime_usec" then
      var v := ReadInt(s); Some(Read(f.(close := v.value, over := f.over || IntOverflows(s)), v.rest))
    else if key == "process_count" then
      var v := ReadInt(s); Some(Read(f.(count := v.value, over := f.over || IntOverflows(s)), v.rest))
    else if key == "process_time_total_usec" then
      var v := ReadInt(s); Some(Read(f.(total := v.value, over := f.over || IntOverflows(s)), v.rest))
    else if key == "process_time_mean_usec" then Some(Read(f, SkipNumber(s)))
    else
      match SkipValue(s)
      case None => None
      case Some(rest) => Some(Read(f, rest))
  }

  // The rest of one node object; None when a skip spins.
  function Fields(s: string, f: NodeFields): (r: Option<Read<NodeFields>>)
    ensures r.Some? ==> |r.value.rest| <= |s|
    decreases |s|
  {
    if s == "" then Some(Read(f, s))
    else
      var close := Expect(s, '}');
      if close.value then Some(Read(f, Expect(close.rest, ',').rest))
      else
        var key := ReadString(close.rest);
        if key.value == "" then Some(Read(f, key.rest))
        else
          match FieldRead(key.value, Expect(key.rest, ':').rest, f)
          case None => None
          case Some(v) => Fields(Expect(v.rest, ',').rest, v.value)
  }

  // The rest of the "nodes" array. A turn that does not move repeats for ever.
  function Nodes(s: string, data: seq<Accum>): (r: Option<Read<seq<Accum>>>)
    ensures r.Some? ==> |r.value.rest| <= |s|
    decreases |s|
  {
    if s == "" then Some(Read(data, s))
    else
      var close := Expect(s, ']');
      if close.value then Some(Read(data, close.rest))
      else
        var open := Expect(close.rest, '{');
        if open.value then
          match Fields(open.rest, NO_FIELDS)
          case None => None
          case Some(f) => Nodes(f.rest, Recorded(data, f.value))
        else
          match SkipValue(open.rest)
          case None => None
          case Some(rest) =>
            var next := Expect(rest, ',').rest;
            if |next| < |s| then Nodes(next, data) else None
  }

  // The rest of the top-level object.
  function Members(s: string, data: seq<Accum>): (r: Option<seq<Accum>>)
    decreases |s|
  {
    if s == "" then Some(data)
    else
      var close := Expect(s, '}');
      if close.value then Some(data)
      else
        var key := ReadString(close.rest);
        if key.value == "" then Some(data)
        else
          var v := Expect(key.rest, ':').rest;
          var list := Expect(v, '[');
          if key.value == "nodes" && list.value then
            match Nodes(list.rest, data)
            case None => None
            case Some(n) => Members(n.rest, n.value)
          else
            match SkipValue(if key.value == "nodes" then list.rest else v)
            case None => None
            case Some(rest) => Members(Expect(rest, ',').rest, data)
  }

  function Accumulated(text: string, data: seq<Accum>): (r: Outcome) {
    var open := Expect(text, '{');
    if !open.value then NotAnObject
    else
      match Members(open.rest, data)
      case None => Spins
      case Some(d) => Done(d)
  }

  datatype NodeStats = NodeStats(name: string, open: int, close: int, count: int, total: int, mean: real, min: int, max: int)

  datatype Report = Report(nodes: seq<NodeStats>, totalCount: int, totalTime: int, over: bool)

  function Stats(e: Accum): (r: NodeStats) {
    NodeStats(e.name, e.open, e.close, e.count, e.total,
              if e.count > 0 then e.total as real / e.count as real else 0.0, if e.min == INT64_MAX then 0 else e.min, e.max)
  }

  function SumCounts(data: seq<Accum>): (n: int) {
    if data == [] then 0 else SumCounts(data[..|data| - 1]) + data[|data| - 1].count
  }

  function SumTimes(data: seq<Accum>): (n: int) {
    if data == [] then 0 else SumTimes(data[..|data| - 1]) + data[|data| - 1].total
  }

  // Every entry is sound and every partial sum of the report stays within int64.
  ghost predicate Sound(data: seq<Accum>) {
    && (forall i :: 0 <= i < |data| ==> !data[i].over)
    && (forall n :: 0 <= n <= |data| ==> InInt64(SumCounts(data[..n])) && InInt64(SumTimes(data[..n])))
  }

  class Reporter {
    var nodeData: seq<Accum>

    constructor ()
      ensures nodeData == []
    {
      nodeData := [];
    }

    method ReadField(reader: SimpleJsonReader, key: string, f: NodeFields) returns (spins: bool, f': NodeFields)
      modifies reader
      ensures var r := FieldRead(key, old(reader.Unread()), f);
        spins == r.None? && (r.Some? ==> Read(f', reader.Unread()) == r.value)
    {
      spins, f' := false, f;
      if key == "node_name" {
        var v := reader.ReadStringAt();
        f' := f.(name := v);
      } else if key == "open_runtime_usec" {
        var v, over := reader.ReadInt64();
        f' := f.(open := v, over := f.over || over);
      } else if key == "close_runtime_usec" {
        var v, over := reader.ReadInt64();
        f' := f.(close := v, over := f.over || over);
      } else if key == "process_count" {
        var v, over := reader.ReadInt64();
        f' := f.(count := v, over := f.over || over);
      } else if key == "process_time_total_usec" {
        var v, over := reader.ReadInt64();
        f' := f.(total := v, over := f.over || over);
      } else if key == "process_time_mean_usec" {
        reader.SkipDouble();
      } else {
        spins := reader.SkipValueAt();
      }
    }

    method ReadFields(reader: SimpleJsonReader) returns (spins: bool, f: NodeFields)
      modifies reader
      ensures var r := Fields(old(reader.Unread()), NO_FIELDS);
        spins == r.None? && (r.Some? ==> Read(f, reader.Unread()) == r.value)
    {
      f, spins := NO_FIELDS, false;
      ghost var goal := Fields(reader.Unread(), NO_FIELDS);
      var more := reader.Ok();
      while more
        invariant more == (reader.Unread() != "")
        invariant goal == Fields(reader.Unread(), f)
        decreases |reader.Unread()|
      {
        var closed := reader.ExpectChar('}');
        if closed {
          var _ := reader.ExpectChar(',');
          return;
        }
        var key := reader.ReadStringAt();
        if key == "" {
          return;
        }
        var _ := reader.ExpectChar(':');
        spins, f := ReadField(reader, key, f);
        if spins {
          return;
        }
        var _ := reader.ExpectChar(',');
        more := reader.Ok();
      }
    }

    method Record(f: NodeFields)
      modifies this
      ensures nodeData == Recorded(old(nodeData), f)
    {
      if f.name == "" { return; }
      var i := 0;
      while i < |nodeData| && nodeData[i].name != f.name
        invariant i <= |nodeData| && Place(nodeData, f.name) == i + Place(nodeData[i..], f.name)
      {
        assert nodeData[i..][1..] == nodeData[i + 1..];
        i := i + 1;
      }
      if i == |nodeData| {
        nodeData := nodeData + [NewEntry(f.name)];
      }
      nodeData := nodeData[i := Merged(nodeData[i], f)];
    }

    method ReadNodes(reader: SimpleJsonReader) returns (spins: bool)
      modifies this, reader
      ensures var r := Nodes(old(reader.Unread()), old(nodeData));
        spins == r.None? && (r.Some? ==> Read(nodeData, reader.Unread()) == r.value)
    {
      spins := false;
      ghost var goal := Nodes(reader.Unread(), nodeData);
      var more := reader.Ok();
      while more
        invariant more == (reader.Unread() != "")
        invariant goal == Nodes(reader.Unread(), nodeData)
        decreases |reader.Unread()|
      {
        var at := reader.pos;
        ghost var s := reader.Unread();
        var closed := reader.ExpectChar(']');
        if closed {
          return;
        }
        var found := reader.ExpectChar('{');
        if found {
          var f;
          spins, f := ReadFields(reader);
          if spins { return; }
          Record(f);
        } else {
          spins := reader.SkipValueAt();
          if spins { return; }
          var _ := reader.ExpectChar(',');
          if reader.Remaining() >= reader.RemainingFrom(at) {
            return true;
          }
        }
        more := reader.Ok();
      }
    }

    /** Accumulate computes exactly what the document says, and reports when it would never return. */
    method Accumulate(content: string) returns (r: Outcome)
      modifies this
      ensures r == Accumulated(content, old(nodeData))
      ensures r.Done? ==> nodeData == r.data
      ensures r.NotAnObject? ==> nodeData == old(nodeData)
    {
      var reader := new SimpleJsonReader(content);
      var found := reader.ExpectChar('{');
      if !found {
        return NotAnObject;
      }
      ghost var goal := Members(reader.Unread(), nodeData);
      var more := reader.Ok();
      while more
        invariant fresh(reader)
        invariant more == (reader.Unread() != "")
        invariant goal == Members(reader.Unread(), nodeData)
        decreases |reader.Unread()|
      {
        var closed := reader.ExpectChar('}');
        if closed {
          return Done(nodeData);
        }
        var key := reader.ReadStringAt();
        if key == "" {
          return Done(nodeData);
        }
        var _ := reader.ExpectChar(':');
        var spins, list := false, false;
        if key == "nodes" {
          list := reader.ExpectChar('[');
        }
        if list {
          spins := ReadNodes(reader);
          if spins { return Spins; }
        } else {
          spins := reader.SkipValueAt();
          if spins { return Spins; }
          var _ := reader.ExpectChar(',');
        }
        more := reader.Ok();
      }
      r := Done(nodeData);
    }

    method MakeReport() returns (r: Report)
      ensures |r.nodes| == |nodeData| && forall i :: 0 <= i < |nodeData| ==> r.nodes[i] == Stats(nodeData[i])
      ensures r.totalCount == SumCounts(nodeData) && r.totalTime == SumTimes(nodeData)
      ensures r.over <==> !Sound(nodeData)
    {
      var nodes: seq<NodeStats> := [];
      var count, time, over := 0, 0, false;
      assert nodeData[..0] == [];
      for i := 0 to |nodeData|
        invariant |nodes| == i && forall k :: 0 <= k < i ==> nodes[k] == Stats(nodeData[k])
        invariant count == SumCounts(nodeData[..i]) && time == SumTimes(nodeData[..i])
        invariant !over <==>
          (forall k :: 0 <= k < i ==> !nodeData[k].over)
          && (forall n :: 0 <= n <= i ==> InInt64(SumCounts(nodeData[..n])) && InInt64(SumTimes(nodeData[..n])))
      {
        assert nodeData[..i + 1][..i] == nodeData[..i];
        over := over || nodeData[i].over || !InInt64(count + nodeData[i].count) || !InInt64(time + nodeData[i].total);
        nodes := nodes + [Stats(nodeData[i])];
        count := count + nodeData[i].count;
        time := time + nodeData[i].total;
      }
      assert nodeData[..|nodeData|] == nodeData;
      r := Report(nodes, count, time, over);
    }
  }
}
