/**
 The event-stream codec: the printer with its keep-alives and the incremental
 parser that reads whatever chunks the network delivers (section 9.2.6 of the
 WHATWG HTML Standard, except that this parser forgets the id at every event).
 Characters are already decoded.
 */
module Sse {
  import opened Options
  import opened Chunks

  datatype Frame = Frame(name: string, data: string, id: Option<string>)

  datatype Message = Message(event: string, data: string, id: Option<string>)

  // The printer.

  const HELLO := "retry: 1000\n\n"
  const PING := ": ping\n\n"

  function Encode(f: Frame): string {
    (match f.id case None => "" case Some(id) => "id: " + id + "\n")
    + "event: " + f.name + "\n" + "data: " + f.data + "\n" + "\n"
  }

  /** What one wait of the pump prints: a ping when nothing came in time. */
  function Item(tick: Option<Frame>): string {
    match tick case None => PING case Some(f) => Encode(f)
  }

  function Output(ticks: seq<Option<Frame>>): string {
    if ticks == [] then HELLO else Output(ticks[..|ticks| - 1]) + Item(ticks[|ticks| - 1])
  }

  /** The pump: one chunk per wait, until the source of frames is exhausted. */
  method Pump(ticks: seq<Option<Frame>>) returns (chunks: seq<string>)
    ensures Joined(chunks) == Output(ticks) && |chunks| == |ticks| + 1
  {
    chunks := [HELLO];
    assert Joined(chunks) == "" + HELLO;
    for n := 0 to |ticks|
      invariant Joined(chunks) == Output(ticks[..n]) && |chunks| == n + 1
    {
      assert ticks[..n + 1][..n] == ticks[..n];
      match ticks[n] {
        case None => chunks := chunks + [PING];
        case Some(f) => chunks := chunks + [Encode(f)];
      }
    }
    assert ticks[..|ticks|] == ticks;
  }

  // The parser.

  datatype Draft = Draft(event: string, data: seq<string>, id: Option<string>)

  const BLANK := Draft("message", [], None)

  /** `text` is the unfinished line; `out` is what has been delivered. */
  datatype Parser = Parser(text: string, draft: Draft, out: seq<Message>)

  const START := Parser("", BLANK, [])

  predicate Starts(line: string, prefix: string) {
    prefix <= line
  }

  function Stripped(line: string): string {
    if line != "" && line[|line| - 1] == '\r' then Stripped(line[..|line| - 1]) else line
  }

  function Field(line: string, name: string): string
    requires Starts(line, name)
  {
    var value := line[|name|..];
    if Starts(value, " ") then value[1..] else value
  }

  function Lines(data: seq<string>): string {
    if data == [] then "" else if |data| == 1 then data[0]
    else Lines(data[..|data| - 1]) + "\n" + data[|data| - 1]
  }

  function Feed(d: Draft, line: string): (Draft, seq<Message>) {
    if line == "" then (BLANK, if d.data == [] then [] else [Message(d.event, Lines(d.data), d.id)])
    else if Starts(line, ":") then (d, [])
    else if Starts(line, "event:") then (d.(event := Field(line, "event:")), [])
    else if Starts(line, "id:") then (d.(id := Some(Field(line, "id:"))), [])
    else if Starts(line, "data:") then (d.(data := d.data + [Field(line, "data:")]), [])
    else (d, [])
  }

  function EndLine(p: Parser): Parser {
    var (draft, more) := Feed(p.draft, Stripped(p.text));
    Parser("", draft, p.out + more)
  }

  /** The meaning of a text: its characters one by one. */
  function Read(p: Parser, s: string): Parser
    decreases |s|
  {
    if s == "" then p
    else if s[0] == '\n' then Read(EndLine(p), s[1..])
    else Read(p.(text := p.text + [s[0]]), s[1..])
  }

  lemma {:induction false} ReadJoins(p: Parser, a: string, b: string)
    ensures Read(p, a + b) == Read(Read(p, a), b)
    decreases |a|
  {
    if a == "" {
      assert a + b == b;
    } else {
      assert (a + b)[1..] == a[1..] + b;
      ReadJoins(if a[0] == '\n' then EndLine(p) else p.(text := p.text + [a[0]]), a[1..], b);
    }
  }

  lemma {:induction false} ReadPlain(p: Parser, s: string)
    requires '\n' !in s
    ensures Read(p, s) == p.(text := p.text + s)
    decreases |s|
  {
    if s == "" {
      assert p.text + s == p.text;
    } else {
      assert p.text + [s[0]] + s[1..] == p.text + s;
      ReadPlain(p.(text := p.text + [s[0]]), s[1..]);
    }
  }

  lemma ReadLine(p: Parser, line: string)
    requires '\n' !in line && p.text == ""
    ensures Read(p, line + "\n") == EndLine(p.(text := line))
  {
    ReadJoins(p, line, "\n");
    ReadPlain(p, line);
    assert "" + line == line;
    var q := p.(text := line);
    assert Read(q, "\n") == Read(EndLine(q), "\n"[1..]);
  }

  /** The parser as it runs: it appends a chunk and takes off complete lines. */
  method ParseSse(chunks: seq<string>) returns (out: seq<Message>)
    ensures out == Read(START, Joined(chunks)).out
  {
    var buffer := "";
    var draft := BLANK;
    out := [];
    for n := 0 to |chunks|
      invariant '\n' !in buffer
      invariant Parser(buffer, draft, out) == Read(START, Joined(chunks[..n]))
    {
      ghost var seen := Read(START, Joined(chunks[..n]) + chunks[n]);
      assert chunks[..n + 1][..n] == chunks[..n];
      ReadJoins(START, Joined(chunks[..n]), chunks[n]);
      Reopened(buffer, draft, out, chunks[n]);
      buffer := buffer + chunks[n];
      while '\n' in buffer
        invariant Read(Parser("", draft, out), buffer) == seen
        decreases |buffer|
      {
        var i := 0;
        while buffer[i] != '\n'
          invariant i < |buffer| && '\n' !in buffer[..i]
          invariant '\n' in buffer[i..]
          decreases |buffer| - i
        {
          i := i + 1;
        }
        var line := buffer[..i];
        assert buffer == line + "\n" + buffer[i + 1..];
        ReadJoins(Parser("", draft, out), line + "\n", buffer[i + 1..]);
        ReadLine(Parser("", draft, out), line);
        var (next, more) := Feed(draft, Stripped(line));
        draft, out, buffer := next, out + more, buffer[i + 1..];
      }
      ReadPlain(Parser("", draft, out), buffer);
    }
    assert chunks[..|chunks|] == chunks;
  }

  lemma Reopened(buffer: string, draft: Draft, out: seq<Message>, chunk: string)
    requires '\n' !in buffer
    ensures Read(Parser("", draft, out), buffer + chunk) == Read(Parser(buffer, draft, out), chunk)
  {
    ReadJoins(Parser("", draft, out), buffer, chunk);
    ReadPlain(Parser("", draft, out), buffer);
    assert "" + buffer == buffer;
  }

  // Round trip.

  /** A field value that fits on one line and survives the parser's stripping. */
  predicate SingleLine(s: string) {
    '\n' !in s && (s == "" || s[|s| - 1] != '\r')
  }

  predicate Printable(f: Frame) {
    SingleLine(f.name) && SingleLine(f.data) && (f.id.Some? ==> SingleLine(f.id.value))
  }

  function AsMessage(f: Frame): Message {
    Message(f.name, f.data, f.id)
  }

  function Frames(ticks: seq<Option<Frame>>): seq<Message> {
    if ticks == [] then []
    else Frames(ticks[..|ticks| - 1]) +
         match ticks[|ticks| - 1] case None => [] case Some(f) => [AsMessage(f)]
  }

  lemma FieldLine(p: Parser, name: string, value: string)
    requires p.text == "" && SingleLine(value) && '\n' !in name && name != "" && name[|name| - 1] == ':'
    ensures var line := name + " " + value;
            && Read(p, line + "\n") == EndLine(p.(text := line))
            && Stripped(line) == line && Starts(line, name) && Field(line, name) == value
  {
    var line := name + " " + value;
    ReadLine(p, line);
    assert line[|line| - 1] != '\r';
    assert line[|name|..] == " " + value;
  }

  lemma EventLine(p: Parser, value: string)
    requires p.text == "" && SingleLine(value)
    ensures Read(p, "event: " + value + "\n") == p.(draft := p.draft.(event := value))
  {
    FieldLine(p, "event:", value);
    var line := "event:" + " " + value;
    assert "event: " + value == line;
    assert p.out + [] == p.out && line[0] == 'e';
  }

  lemma IdLine(p: Parser, value: string)
    requires p.text == "" && SingleLine(value)
    ensures Read(p, "id: " + value + "\n") == p.(draft := p.draft.(id := Some(value)))
  {
    FieldLine(p, "id:", value);
    var line := "id:" + " " + value;
    assert "id: " + value == line;
    assert p.out + [] == p.out && line[0] == 'i' && !Starts(line, "event:");
  }

  lemma DataLine(p: Parser, value: string)
    requires p.text == "" && SingleLine(value)
    ensures Read(p, "data: " + value + "\n") == p.(draft := p.draft.(data := p.draft.data + [value]))
  {
    FieldLine(p, "data:", value);
    var line := "data:" + " " + value;
    assert "data: " + value == line;
    assert p.out + [] == p.out && line[0] == 'd' && !Starts(line, "event:") && !Starts(line, "id:");
  }

  /** Between two events the parser holds nothing. */
  predicate Clean(p: Parser) {
    p.text == "" && p.draft == BLANK
  }

  function IdPart(id: Option<string>): string {
    match id case None => "" case Some(i) => "id: " + i + "\n"
  }

  function EventPart(name: string): string {
    "event: " + name + "\n"
  }

  function DataPart(data: string): string {
    "data: " + data + "\n"
  }

  /** Everything of a frame but its last newline. */
  function Body(f: Frame): string {
    IdPart(f.id) + EventPart(f.name) + DataPart(f.data)
  }

  lemma Encoded(f: Frame)
    ensures Encode(f) == Body(f) + "\n"
  {
  }

  lemma ReadThree(p: Parser, a: string, b: string, c: string)
    ensures Read(p, a + b + c) == Read(Read(Read(p, a), b), c)
  {
    ReadJoins(p, a + b, c);
    ReadJoins(p, a, b);
  }

  lemma IdPartRead(p: Parser, id: Option<string>)
    requires Clean(p) && (id.Some? ==> SingleLine(id.value))
    ensures Read(p, IdPart(id)) == p.(draft := p.draft.(id := id))
  {
    if id.Some? { IdLine(p, id.value); }
  }

  lemma BodyRead(p: Parser, f: Frame)
    requires Clean(p) && Printable(f)
    ensures Read(p, Body(f)) == p.(draft := Draft(f.name, [f.data], f.id))
  {
    var p1 := p.(draft := p.draft.(id := f.id));
    var p2 := p1.(draft := p1.draft.(event := f.name));
    IdPartRead(p, f.id);
    EventLine(p1, f.name);
    DataLine(p2, f.data);
    ReadThree(p, IdPart(f.id), EventPart(f.name), DataPart(f.data));
  }

  lemma FrameRead(p: Parser, f: Frame)
    requires Clean(p) && Printable(f)
    ensures Read(p, Encode(f)) == p.(out := p.out + [AsMessage(f)])
  {
    BodyRead(p, f);
    Encoded(f);
    ReadJoins(p, Body(f), "\n");
    assert Lines([f.data]) == f.data;
  }

  // What the printer does not do, but others may.

  /** A carriage return before the newline makes no difference. */
  lemma CarriageReturns(p: Parser, line: string)
    requires '\n' !in line && p.text == ""
    ensures Read(p, line + "\r" + "\n") == Read(p, line + "\n")
  {
    ReadLine(p, line);
    ReadLine(p, line + "\r");
    assert (line + "\r")[..|line + "\r"| - 1] == line;
  }

  /** An event may spread its data over several lines. */
  function DataLines(data: seq<string>): string {
    if data == [] then "" else DataLines(data[..|data| - 1]) + DataPart(data[|data| - 1])
  }

  ghost predicate AllSingleLine(data: seq<string>) {
    forall i :: 0 <= i < |data| ==> SingleLine(data[i])
  }

  lemma {:induction false} DataLinesRead(p: Parser, data: seq<string>)
    requires Clean(p) && AllSingleLine(data)
    ensures Read(p, DataLines(data)) == p.(draft := p.draft.(data := data))
    decreases |data|
  {
    if data != [] {
      var front := data[..|data| - 1];
      DataLinesRead(p, front);
      ReadJoins(p, DataLines(front), DataPart(data[|data| - 1]));
      DataLine(p.(draft := p.draft.(data := front)), data[|data| - 1]);
      assert front + [data[|data| - 1]] == data;
    }
  }

  /** A text cut at its newlines. */
  function Split(s: string): (r: seq<string>)
    ensures r != []
  {
    if s == "" then [""]
    else
      var before, last := Split(s[..|s| - 1]), s[|s| - 1];
      if last == '\n' then before + [""] else before[..|before| - 1] + [before[|before| - 1] + [last]]
  }

  lemma {:induction false} SplitAdds(s: string, line: string)
    requires '\n' !in line
    ensures Split(s + "\n" + line) == Split(s) + [line]
    decreases |line|
  {
    var all := s + "\n" + line;
    if line == "" {
      assert all[..|all| - 1] == s;
    } else {
      var front, last := line[..|line| - 1], line[|line| - 1];
      assert all[..|all| - 1] == s + "\n" + front && all[|all| - 1] == last;
      SplitAdds(s, front);
      assert front + [last] == line;
    }
  }

  lemma {:induction false} SplitPlain(s: string)
    requires '\n' !in s
    ensures Split(s) == [s]
  {
    if s != "" {
      SplitPlain(s[..|s| - 1]);
      assert s[..|s| - 1] + [s[|s| - 1]] == s;
    }
  }

  lemma {:induction false} SplitLines(data: seq<string>)
    requires data != [] && AllSingleLine(data)
    ensures Split(Lines(data)) == data
  {
    if |data| == 1 {
      SplitPlain(data[0]);
    } else {
      var front := data[..|data| - 1];
      SplitLines(front);
      SplitAdds(Lines(front), data[|data| - 1]);
      assert front + [data[|data| - 1]] == data;
    }
  }

  /** It is delivered as one event whose text has exactly those lines. */
  lemma ManyLines(p: Parser, data: seq<string>)
    requires Clean(p) && data != [] && AllSingleLine(data)
    ensures exists text :: Split(text) == data && Read(p, DataLines(data) + "\n") ==
                                                  p.(out := p.out + [Message("message", text, None)])
  {
    DataLinesRead(p, data);
    ReadJoins(p, DataLines(data), "\n");
    SplitLines(data);
    assert Read(p, DataLines(data) + "\n") == p.(out := p.out + [Message("message", Lines(data), None)]);
  }

  /** A line that is neither blank nor a field changes nothing. */
  lemma IgnoredBlock(p: Parser, line: string)
    requires Clean(p) && '\n' !in line && line != "" && line[|line| - 1] != '\r'
    requires Feed(BLANK, line) == (BLANK, [])
    ensures Read(p, line + "\n" + "\n") == p
  {
    ReadJoins(p, line + "\n", "\n");
    ReadLine(p, line);
    assert Read(p, line + "\n") == p by { assert p.out + [] == p.out; }
    assert p.out + [] == p.out;
  }

  lemma ItemRead(p: Parser, tick: Option<Frame>)
    requires Clean(p) && (tick.Some? ==> Printable(tick.value))
    ensures Read(p, Item(tick)) ==
            p.(out := p.out + match tick case None => [] case Some(f) => [AsMessage(f)])
  {
    match tick
    case Some(f) => FrameRead(p, f);
    case None =>
      assert PING == ": ping" + "\n" + "\n" && ": ping"[0] == ':';
      IgnoredBlock(p, ": ping");
      assert p.out + [] == p.out;
  }

  ghost predicate AllPrintable(ticks: seq<Option<Frame>>) {
    forall n :: 0 <= n < |ticks| && ticks[n].Some? ==> Printable(ticks[n].value)
  }

  lemma {:induction false} OutputRead(ticks: seq<Option<Frame>>)
    requires AllPrintable(ticks)
    ensures Read(START, Output(ticks)) == Parser("", BLANK, Frames(ticks))
  {
    if ticks == [] {
      var line := "retry: 1000";
      assert HELLO == line + "\n" + "\n" && line[0] == 'r';
      IgnoredBlock(START, line);
    } else {
      var front, last := ticks[..|ticks| - 1], ticks[|ticks| - 1];
      OutputRead(front);
      ReadJoins(START, Output(front), Item(last));
      ItemRead(Read(START, Output(front)), last);
    }
  }

  /** Whatever frames are printed, with pings anywhere between them, and however
      the output is cut into chunks, the parser delivers exactly those frames. */
  lemma RoundTrip(ticks: seq<Option<Frame>>, chunks: seq<string>)
    requires AllPrintable(ticks) && Joined(chunks) == Output(ticks)
    ensures Read(START, Joined(chunks)).out == Frames(ticks)
  {
    OutputRead(ticks);
  }

  lemma {:induction false} OutGrows(p: Parser, s: string)
    ensures p.out <= Read(p, s).out
    decreases |s|
  {
    if s != "" {
      OutGrows(if s[0] == '\n' then EndLine(p) else p.(text := p.text + [s[0]]), s[1..]);
    }
  }

  lemma OutBetween(p: Parser, s: string, k: nat)
    requires k <= |s|
    ensures p.out <= Read(p, s[..k]).out <= Read(p, s).out
  {
    OutGrows(p, s[..k]);
    OutGrows(Read(p, s[..k]), s[k..]);
    ReadJoins(p, s[..k], s[k..]);
    assert s[..k] + s[k..] == s;
  }

  lemma UnfinishedBody(p: Parser, body: string, k: nat)
    requires k <= |body| && Read(p, body).out == p.out
    ensures Read(p, (body + "\n")[..k]).out == p.out
  {
    assert (body + "\n")[..k] == body[..k];
    OutBetween(p, body, k);
  }

  lemma UnfinishedItem(p: Parser, tick: Option<Frame>, k: nat)
    requires Clean(p) && (tick.Some? ==> Printable(tick.value)) && k < |Item(tick)|
    ensures Read(p, Item(tick)[..k]).out == p.out
  {
    match tick
    case None =>
      ItemRead(p, tick);
      OutBetween(p, PING, k);
    case Some(f) =>
      BodyRead(p, f);
      Encoded(f);
      UnfinishedBody(p, Body(f), k);
  }

  lemma CutInItem(front: seq<Option<Frame>>, last: Option<Frame>, k: nat)
    requires AllPrintable(front) && (last.Some? ==> Printable(last.value)) && k < |Item(last)|
    ensures Read(START, Output(front) + Item(last)[..k]).out == Frames(front)
  {
    OutputRead(front);
    ReadJoins(START, Output(front), Item(last)[..k]);
    UnfinishedItem(Read(START, Output(front)), last, k);
  }

  lemma CutInHello(text: string)
    requires text <= HELLO
    ensures Read(START, text).out == []
  {
    OutputRead([]);
    OutBetween(START, HELLO, |text|);
    assert HELLO[..|text|] == text;
  }

  /** `m` is how many items `text`, a cut of the output, holds in full. */
  ghost predicate HoldsInFull(ticks: seq<Option<Frame>>, text: string, m: nat) {
    && m <= |ticks|
    && (m > 0 ==> Output(ticks[..m]) <= text)
    && (m < |ticks| ==> |text| < |Output(ticks[..m + 1])|)
  }

  lemma HoldsInLonger(front: seq<Option<Frame>>, last: Option<Frame>, text: string, m: nat)
    requires HoldsInFull(front, text, m) && |text| < |Output(front)|
    ensures HoldsInFull(front + [last], text, m)
    ensures (front + [last])[..m] == front[..m]
  {
    var ticks := front + [last];
    assert ticks[..|front|] == front;
    assert ticks[..m] == front[..m];
    if m < |front| {
      assert ticks[..m + 1] == front[..m + 1];
    } else {
      assert ticks[..m + 1] == ticks;
    }
  }

  lemma HoldsAllButLast(front: seq<Option<Frame>>, last: Option<Frame>, text: string)
    requires AllPrintable(front) && (last.Some? ==> Printable(last.value))
    requires Output(front) <= text && text <= Output(front) + Item(last) && text != Output(front) + Item(last)
    ensures HoldsInFull(front + [last], text, |front|)
    ensures Read(START, text).out == Frames((front + [last])[..|front|])
  {
    var ticks := front + [last];
    assert ticks[..|front|] == front && ticks[..|front| + 1] == ticks;
    var k := CutWhere(Output(front), Item(last), text);
    assert Output(ticks) == Output(front) + Item(last);
    CutInItem(front, last, k);
  }

  lemma CutWhere(a: string, b: string, text: string) returns (k: nat)
    requires a <= text <= a + b && text != a + b
    ensures k < |b| && text == a + b[..k]
  {
    k := |text| - |a|;
  }

  lemma HoldsAll(ticks: seq<Option<Frame>>)
    requires AllPrintable(ticks)
    ensures HoldsInFull(ticks, Output(ticks), |ticks|)
    ensures Read(START, Output(ticks)).out == Frames(ticks[..|ticks|])
  {
    assert ticks[..|ticks|] == ticks;
    OutputRead(ticks);
  }

  lemma OutputAdds(ticks: seq<Option<Frame>>)
    requires ticks != []
    ensures ticks == ticks[..|ticks| - 1] + [ticks[|ticks| - 1]]
    ensures Output(ticks) == Output(ticks[..|ticks| - 1]) + Item(ticks[|ticks| - 1])
  {
    var front, last := ticks[..|ticks| - 1], ticks[|ticks| - 1];
    assert ticks == front + [last];
    assert Output(ticks) == Output(front) + Item(last);
  }

  /** A connection cut anywhere delivers exactly the frames that were printed
      in full before the cut, never an unfinished one. */
  lemma {:induction false} CutDelivers(ticks: seq<Option<Frame>>, text: string) returns (m: nat)
    requires AllPrintable(ticks) && text <= Output(ticks)
    ensures HoldsInFull(ticks, text, m)
    ensures Read(START, text).out == Frames(ticks[..m])
    decreases |ticks|
  {
    if text == Output(ticks) {
      m := |ticks|;
      HoldsAll(ticks);
    } else if ticks == [] {
      m := 0;
      CutInHello(text);
    } else {
      var front, last := ticks[..|ticks| - 1], ticks[|ticks| - 1];
      OutputAdds(ticks);
      if |text| < |Output(front)| {
        m := CutDelivers(front, text);
        HoldsInLonger(front, last, text, m);
      } else {
        m := |front|;
        HoldsAllButLast(front, last, text);
      }
    }
  }
}
