/** Events are read as they are written to mean, however they are written; a last line left open
    is not read. */
module SseProofs {
  import opened Sse

  // --------------------------------------------------------------- written lines

  /** A line: a comment, a field with its value, which one space may come before, or a name alone. */
  datatype Line = Comment(text: string) | Field(name: string, spaced: bool, value: string) | Flag(name: string)

  function WriteLine(x: Line): string {
    match x
    case Comment(text) => ":" + text
    case Field(name, spaced, value) => name + ((if spaced then ": " else ":") + value)
    case Flag(name) => name
  }

  ghost predicate SoundLine(x: Line) {
    && '\n' !in WriteLine(x)
    && (!x.Comment? ==> x.name != "" && ':' !in x.name)
    && (x.Field? && !x.spaced && x.value != "" ==> x.value[0] != ' ')
  }

  ghost predicate SoundLines(xs: seq<Line>) {
    forall i :: 0 <= i < |xs| ==> SoundLine(xs[i])
  }

  function WriteLines(xs: seq<Line>): (r: seq<string>)
    ensures |r| == |xs|
  {
    seq(|xs|, i requires 0 <= i < |xs| => WriteLine(xs[i]))
  }

  /** What the line gives the field of this name. */
  function Gives(x: Line, name: string): seq<string> {
    if x.Comment? || x.name != name then [] else [if x.Field? then x.value else ""]
  }

  /** All that the lines give the field of this name, in order. */
  function Values(xs: seq<Line>, name: string): seq<string> {
    if xs == [] then [] else Values(xs[..|xs| - 1], name) + Gives(xs[|xs| - 1], name)
  }

  function LastOf(values: seq<string>): string {
    if values == [] then "" else values[|values| - 1]
  }

  /** The values with a newline between each two. */
  function Joined(values: seq<string>): string {
    if values == [] then ""
    else if |values| == 1 then values[0]
    else Joined(values[..|values| - 1]) + "\n" + values[|values| - 1]
  }

  /** The event the lines make: the last name and id, and every data line; none without data. */
  function Means(xs: seq<Line>): seq<Event> {
    if Values(xs, "data") == [] then []
    else
      [Event(ShownName(LastOf(Values(xs, "event"))), Joined(Values(xs, "data")), LastOf(Values(xs, "id")))]
  }

  /** Blocks of lines, each ended by an empty line. */
  function WriteBlocks(blocks: seq<seq<Line>>): string {
    if blocks == [] then "" else Unlines(WriteLines(blocks[0]) + [""]) + WriteBlocks(blocks[1..])
  }

  function BlocksMean(blocks: seq<seq<Line>>): seq<Event> {
    if blocks == [] then [] else Means(blocks[0]) + BlocksMean(blocks[1..])
  }

  // ----------------------------------------------------------------- printing

  /** The lines, each with its newline. */
  function Unlines(lines: seq<string>): string {
    if lines == [] then "" else Unlines(lines[..|lines| - 1]) + lines[|lines| - 1] + "\n"
  }

  /** The data, one field line for each of its lines. */
  function DataLines(pieces: seq<string>): (r: seq<Line>)
    ensures |r| == |pieces|
  {
    seq(|pieces|, i requires 0 <= i < |pieces| => Field("data", true, pieces[i]))
  }

  /** The lines of the data, the last of which has no newline. */
  function Pieces(data: string): seq<string> {
    Lines(data) + [Tail(data)]
  }

  function EventLines(e: Event): seq<Line> {
    [Field("event", true, e.event), Field("id", true, e.id)] + DataLines(Pieces(e.data))
  }

  function PrintEvent(e: Event): string {
    Unlines(WriteLines(EventLines(e)) + [""])
  }

  function PrintEvents(events: seq<Event>): string {
    if events == [] then "" else PrintEvent(events[0]) + PrintEvents(events[1..])
  }

  /** An event type of one line that is not empty, and an id of one line; any data. */
  predicate Printable(e: Event) {
    e.event != "" && '\n' !in e.event && '\n' !in e.id
  }

  // ------------------------------------------------------------ the lines of it

  ghost predicate OneLine(lines: seq<string>) {
    forall i :: 0 <= i < |lines| ==> '\n' !in lines[i]
  }

  lemma LinesOfOne(line: string)
    requires '\n' !in line
    ensures Lines(line + "\n") == [line] && Tail(line + "\n") == ""
  {
    assert line + "\n" == line + "\n" + "";
    LinesFirst(line + "\n", line, "");
    assert [line] + [] == [line];
  }

  lemma LinesNext(before: string, line: string)
    requires Tail(before) == "" && '\n' !in line
    ensures Lines(before + (line + "\n")) == Lines(before) + [line] && Tail(before + (line + "\n")) == ""
  {
    SplitConcat(before, line + "\n");
    LinesOfOne(line);
    assert "" + (line + "\n") == line + "\n";
  }

  lemma UnlinesNext(lines: seq<string>, line: string, text: string)
    requires text == Unlines(lines)
    ensures Unlines(lines + [line]) == text + (line + "\n")
  {
    assert (lines + [line])[..|lines|] == lines;
    assert text + line + "\n" == text + (line + "\n");
  }

  /** Lines put together come apart again. */
  lemma {:induction false} LinesUnlines(lines: seq<string>, text: string)
    requires OneLine(lines) && text == Unlines(lines)
    ensures Lines(text) == lines && Tail(text) == ""
    decreases |lines|
  {
    if lines != [] {
      var n := |lines| - 1;
      var before, line := lines[..n], lines[n];
      var text0 := Unlines(before);
      LinesUnlines(before, text0);
      LinesNext(text0, line);
      assert lines == before + [line];
      UnlinesNext(before, line, text0);
    }
  }

  lemma {:induction false} TailHasNoNewline(s: string)
    ensures '\n' !in Tail(s)
    decreases |s|
  {
    var n := FirstNewline(s);
    FirstNewlineIsFirst(s);
    if n == |s| {
      assert s[..n] == s;
    } else {
      TailHasNoNewline(s[n + 1..]);
    }
  }

  lemma {:induction false} LinesHaveNoNewline(s: string, i: nat)
    requires i < |Lines(s)|
    ensures '\n' !in Lines(s)[i]
    decreases |s|
  {
    var n := FirstNewline(s);
    FirstNewlineIsFirst(s);
    if i > 0 {
      LinesHaveNoNewline(s[n + 1..], i - 1);
    }
  }

  lemma {:induction false} UnlinesCons(line: string, lines: seq<string>)
    ensures Unlines([line] + lines) == line + "\n" + Unlines(lines)
    decreases |lines|
  {
    var all := [line] + lines;
    if lines == [] {
      assert all[..0] == [] && "" + line + "\n" == line + "\n" + "";
    } else {
      var n := |lines| - 1;
      UnlinesCons(line, lines[..n]);
      assert all[..|all| - 1] == [line] + lines[..n];
    }
  }

  /** Text that comes apart goes together again. */
  lemma {:induction false} UnlinesLines(s: string, lines: seq<string>, tail: string)
    requires lines == Lines(s) && tail == Tail(s)
    ensures Unlines(lines) + tail == s
    decreases |s|
  {
    var n := FirstNewline(s);
    FirstNewlineIsFirst(s);
    if n == |s| {
      assert "" + s == s;
    } else {
      var line, rest := s[..n], s[n + 1..];
      UnlinesLines(rest, lines[1..], tail);
      UnlinesCons(line, lines[1..]);
      assert lines == [line] + lines[1..];
      PutBack(s, n, Unlines(lines[1..]), tail);
    }
  }

  lemma PutBack(s: string, n: nat, lines: string, tail: string)
    requires n < |s| && s[n] == '\n' && lines + tail == s[n + 1..]
    ensures s[..n] + "\n" + lines + tail == s
  {
    assert s == s[..n] + "\n" + (lines + tail);
  }

  lemma UnlinesPieces(data: string)
    ensures Unlines(Pieces(data)) == data + "\n"
  {
    UnlinesLines(data, Lines(data), Tail(data));
    UnlinesNext(Lines(data), Tail(data), Unlines(Lines(data)));
  }

  lemma PiecesAreOneLine(data: string)
    ensures OneLine(Pieces(data))
  {
    forall i | 0 <= i < |Lines(data)|
      ensures '\n' !in Lines(data)[i]
    {
      LinesHaveNoNewline(data, i);
    }
    TailHasNoNewline(data);
  }

  lemma FieldSound(name: string, value: string)
    requires name != "" && ':' !in name && '\n' !in name && '\n' !in value
    ensures SoundLine(Field(name, true, value))
  {}

  lemma EventLinesSound(e: Event)
    requires Printable(e)
    ensures SoundLines(EventLines(e))
  {
    var pieces := Pieces(e.data);
    PiecesAreOneLine(e.data);
    hide SoundLine, Pieces;
    FieldSound("event", e.event);
    FieldSound("id", e.id);
    forall i | 0 <= i < |pieces|
      ensures SoundLine(DataLines(pieces)[i])
    {
      FieldSound("data", pieces[i]);
    }
  }

  // ---------------------------------------------------------------- reading it

  lemma {:induction false} ColonAt(s: string, n: nat)
    requires n < |s| && s[n] == ':' && forall i :: 0 <= i < n ==> s[i] != ':'
    ensures FirstColon(s) == n
  {
    if n > 0 {
      ColonAt(s[1..], n - 1);
    }
  }

  lemma FieldAt(name: string, colon: string, value: string)
    requires ':' !in name && (colon == ": " || (colon == ":" && (value != "" ==> value[0] != ' ')))
    ensures var line := name + (colon + value); FieldName(line) == name && FieldValue(line) == value
  {
    var line := name + (colon + value);
    ColonAt(line, |name|);
    assert line[|name|..] == colon + value && line[|name| + |colon|..] == value;
    assert |name| + 1 < |line| ==> line[|name| + 1] == (colon + value)[1];
  }

  lemma {:induction false} NoColon(name: string)
    requires ':' !in name
    ensures FirstColon(name) == |name|
  {
    if name != "" {
      NoColon(name[1..]);
    }
  }

  /** A line sets the field it names to the value it gives it; a comment does nothing. */
  lemma LineRead(f: Fields, x: Line)
    requires SoundLine(x)
    ensures ReadLine(f, WriteLine(x)) ==
              (if x.Comment? then f else SetField(f, x.name, if x.Field? then x.value else ""), [])
  {
    match x
    case Comment(_) =>
    case Field(name, spaced, value) => FieldAt(name, if spaced then ": " else ":", value);
    case Flag(name) =>
      NoColon(name);
      assert name[..|name|] == name;
  }

  /** The fields once all the lines are read. */
  function FieldsOf(xs: seq<Line>): Fields {
    Fields(LastOf(Values(xs, "event")), Unlines(Values(xs, "data")), LastOf(Values(xs, "id")))
  }

  lemma ValuesNext(xs: seq<Line>, x: Line, name: string)
    ensures Values(xs + [x], name) == Values(xs, name) + Gives(x, name)
  {
    assert (xs + [x])[..|xs|] == xs;
  }

  lemma FieldSet(xs: seq<Line>, x: Line)
    ensures FieldsOf(xs + [x]) ==
              if x.Comment? then FieldsOf(xs) else SetField(FieldsOf(xs), x.name, if x.Field? then x.value else "")
  {
    ValuesNext(xs, x, "event");
    ValuesNext(xs, x, "data");
    ValuesNext(xs, x, "id");
    hide Values;
    var data := Values(xs, "data");
    assert data + [] == data;
    assert Values(xs, "event") + [] == Values(xs, "event") && Values(xs, "id") + [] == Values(xs, "id");
    if Gives(x, "data") != [] {
      UnlinesNext(data, Gives(x, "data")[0], Unlines(data));
      Reassociate(Unlines(data), Gives(x, "data")[0], "\n");
    }
  }

  lemma WriteLinesNext(xs: seq<Line>, x: Line)
    ensures WriteLines(xs + [x]) == WriteLines(xs) + [WriteLine(x)]
  {}

  lemma SoundLinesNext(xs: seq<Line>, x: Line)
    requires SoundLines(xs + [x])
    ensures SoundLines(xs) && SoundLine(x)
  {
    hide SoundLine;
    assert (xs + [x])[|xs|] == x;
    assert forall i :: 0 <= i < |xs| ==> (xs + [x])[i] == xs[i];
  }

  lemma {:induction false} BlockRead(xs: seq<Line>)
    requires SoundLines(xs)
    ensures ReadLines(NOTHING, WriteLines(xs)) == (FieldsOf(xs), [])
    decreases |xs|
  {
    if xs != [] {
      var before, x := xs[..|xs| - 1], xs[|xs| - 1];
      assert xs == before + [x];
      hide WriteLine, WriteLines, FieldsOf, SoundLine, SoundLines, ReadLines, ReadLine, SetField;
      SoundLinesNext(before, x);
      BlockRead(before);
      LineRead(FieldsOf(before), x);
      WriteLinesNext(before, x);
      FieldSet(before, x);
      ReadFieldNext(NOTHING, WriteLines(before), WriteLine(x), FieldsOf(before), FieldsOf(xs));
    }
  }

  lemma {:induction false} UnlinesJoined(values: seq<string>)
    requires values != []
    ensures Unlines(values) == Joined(values) + "\n"
    decreases |values|
  {
    if |values| > 1 {
      UnlinesJoined(values[..|values| - 1]);
    } else {
      assert Unlines(values[..0]) == "" && "" + values[0] + "\n" == values[0] + "\n";
    }
  }

  lemma FieldsMean(xs: seq<Line>)
    ensures Dispatch(FieldsOf(xs)) == Means(xs)
  {
    var data := Values(xs, "data");
    hide Values, Joined;
    if data != [] {
      UnlinesJoined(data);
      hide Unlines;
      var text := Joined(data) + "\n";
      assert text[|text| - 1] == '\n' && text[..|text| - 1] == Joined(data);
    }
  }

  lemma Reassociate(a: string, b: string, c: string)
    ensures a + b + c == a + (b + c)
  {}

  lemma ReadFieldNext(f: Fields, lines: seq<string>, line: string, g: Fields, h: Fields)
    requires ReadLines(f, lines) == (g, []) && ReadLine(g, line) == (h, [])
    ensures ReadLines(f, lines + [line]) == (h, [])
  {
    ReadLinesNext(f, lines, line);
  }

  lemma BlockLines(xs: seq<Line>)
    requires SoundLines(xs)
    ensures OneLine(WriteLines(xs)) && OneLine(WriteLines(xs) + [""])
  {
    forall i | 0 <= i < |xs|
      ensures '\n' !in WriteLines(xs)[i]
    {
      assert SoundLine(xs[i]);
    }
  }

  lemma BlockEvents(xs: seq<Line>)
    requires SoundLines(xs)
    ensures ReadLines(NOTHING, WriteLines(xs) + [""]) == (NOTHING, Means(xs))
  {
    BlockRead(xs);
    FieldsMean(xs);
    ReadLinesNext(NOTHING, WriteLines(xs), "");
    assert [] + Means(xs) == Means(xs);
  }

  ghost predicate SoundBlocks(blocks: seq<seq<Line>>) {
    forall i :: 0 <= i < |blocks| ==> SoundLines(blocks[i])
  }

  lemma {:induction false} BlocksRead(blocks: seq<seq<Line>>, last: seq<Line>)
    requires SoundBlocks(blocks) && SoundLines(last)
    ensures ReadLines(NOTHING, Lines(WriteBlocks(blocks) + Unlines(WriteLines(last))))
            == (FieldsOf(last), BlocksMean(blocks))
    decreases |blocks|
  {
    var rest := Unlines(WriteLines(last));
    if blocks == [] {
      assert "" + rest == rest;
      BlockLines(last);
      LinesUnlines(WriteLines(last), rest);
      BlockRead(last);
    } else {
      var text, more := Unlines(WriteLines(blocks[0]) + [""]), WriteBlocks(blocks[1..]) + rest;
      BlocksRead(blocks[1..], last);
      BlockLines(blocks[0]);
      LinesUnlines(WriteLines(blocks[0]) + [""], text);
      BlockEvents(blocks[0]);
      hide WriteLines, SoundLines, Unlines, FieldsOf, Means, Lines, Tail, ReadLines;
      Reassociate(text, WriteBlocks(blocks[1..]), rest);
      SplitConcat(text, more);
      assert "" + more == more;
      ReadLinesConcat(NOTHING, WriteLines(blocks[0]) + [""], Lines(more));
    }
  }

  /** However events are written, with comments, other fields and names alone between them, they
      are read as what they are written to mean; the last is flushed without its empty line. */
  lemma ParseWrittenEvents(blocks: seq<seq<Line>>, last: seq<Line>)
    requires SoundBlocks(blocks) && SoundLines(last)
    ensures ParseAll(WriteBlocks(blocks) + Unlines(WriteLines(last))) == BlocksMean(blocks) + Means(last)
  {
    BlocksRead(blocks, last);
    FieldsMean(last);
  }

  lemma {:induction false} ColonIsFirst(s: string)
    ensures var n := FirstColon(s); (n < |s| ==> s[n] == ':') && ':' !in s[..n]
  {
    if s != "" && s[0] != ':' {
      ColonIsFirst(s[1..]);
      var n := FirstColon(s[1..]);
      assert s[..n + 1] == [s[0]] + s[1..][..n];
    }
  }

  lemma FieldText(line: string, n: nat, colon: string)
    requires n + |colon| <= |line| && line[n..n + |colon|] == colon
    ensures line[..n] + (colon + line[n + |colon|..]) == line
  {
    assert colon + line[n + |colon|..] == line[n..];
  }

  /** Every line that is not empty is written in one of these ways. */
  lemma EveryLineIsWritten(line: string) returns (x: Line)
    requires line != "" && '\n' !in line
    ensures SoundLine(x) && WriteLine(x) == line
  {
    var n := FirstColon(line);
    ColonIsFirst(line);
    hide FirstColon;
    if n == 0 {
      x := Comment(line[1..]);
      assert ":" + line[1..] == line;
    } else if n == |line| {
      x := Flag(line);
      assert line[..n] == line;
    } else {
      var colon := if n + 1 < |line| && line[n + 1] == ' ' then ": " else ":";
      x := Field(line[..n], colon == ": ", line[n + |colon|..]);
      assert line[n..n + |colon|] == colon;
      FieldText(line, n, colon);
    }
  }

  // ----------------------------------------------------------------- printed events

  lemma DataLinesNext(xs: seq<Line>, pieces: seq<string>, piece: string)
    ensures xs + DataLines(pieces + [piece]) == (xs + DataLines(pieces)) + [Field("data", true, piece)]
  {}

  lemma {:induction false} DataValues(xs: seq<Line>, pieces: seq<string>, name: string)
    ensures Values(xs + DataLines(pieces), name) == Values(xs, name) + if name == "data" then pieces else []
    decreases |pieces|
  {
    if pieces == [] {
      assert xs + DataLines(pieces) == xs;
    } else {
      var before, piece := pieces[..|pieces| - 1], pieces[|pieces| - 1];
      assert pieces == before + [piece];
      hide Values, DataLines;
      DataValues(xs, before, name);
      DataLinesNext(xs, before, piece);
      ValuesNext(xs + DataLines(before), Field("data", true, piece), name);
      DataValueNext(Values(xs, name), before, piece, name);
    }
  }

  lemma DataValueNext(values: seq<string>, before: seq<string>, piece: string, name: string)
    ensures values + (if name == "data" then before else []) + Gives(Field("data", true, piece), name)
            == values + if name == "data" then before + [piece] else []
  {}

  lemma HeadValues(e: Event, name: string)
    ensures Values([Field("event", true, e.event), Field("id", true, e.id)], name) ==
              if name == "event" then [e.event] else if name == "id" then [e.id] else []
  {
    var first, second := Field("event", true, e.event), Field("id", true, e.id);
    ValuesNext([], first, name);
    ValuesNext([first], second, name);
    assert [] + [first] == [first] && [first] + [second] == [first, second];
  }

  lemma PrintedMeans(e: Event)
    requires Printable(e)
    ensures Means(EventLines(e)) == [e]
  {
    var head, pieces := [Field("event", true, e.event), Field("id", true, e.id)], Pieces(e.data);
    HeadValues(e, "event");
    HeadValues(e, "id");
    HeadValues(e, "data");
    DataValues(head, pieces, "event");
    DataValues(head, pieces, "id");
    DataValues(head, pieces, "data");
    hide Values, Pieces, DataLines;
    assert [] + pieces == pieces && [e.event] + [] == [e.event] && [e.id] + [] == [e.id];
    PiecesJoined(e.data);
  }

  lemma PiecesJoined(data: string)
    ensures Pieces(data) != [] && Joined(Pieces(data)) == data
  {
    UnlinesPieces(data);
    UnlinesJoined(Pieces(data));
    hide Pieces, Joined, Unlines;
    assert (data + "\n")[..|data|] == (Joined(Pieces(data)) + "\n")[..|data|];
    assert (data + "\n")[..|data|] == data && (Joined(Pieces(data)) + "\n")[..|data|] == Joined(Pieces(data));
  }

  function EventBlocks(events: seq<Event>): (r: seq<seq<Line>>)
    ensures |r| == |events|
  {
    seq(|events|, i requires 0 <= i < |events| => EventLines(events[i]))
  }

  lemma BlocksFirst(events: seq<Event>)
    requires events != []
    ensures var blocks := EventBlocks(events);
            blocks[0] == EventLines(events[0]) && blocks[1..] == EventBlocks(events[1..])
    ensures PrintEvents(events) == PrintEvent(events[0]) + PrintEvents(events[1..])
  {}

  lemma BlocksNext(blocks: seq<seq<Line>>)
    requires blocks != []
    ensures WriteBlocks(blocks) == Unlines(WriteLines(blocks[0]) + [""]) + WriteBlocks(blocks[1..])
    ensures BlocksMean(blocks) == Means(blocks[0]) + BlocksMean(blocks[1..])
  {}

  lemma NoBlocks()
    ensures EventBlocks([]) == [] && WriteBlocks([]) == PrintEvents([]) && BlocksMean([]) == []
  {}

  lemma {:induction false} PrintedBlocks(events: seq<Event>)
    requires forall i :: 0 <= i < |events| ==> Printable(events[i])
    ensures WriteBlocks(EventBlocks(events)) == PrintEvents(events)
    ensures BlocksMean(EventBlocks(events)) == events
    decreases |events|
  {
    hide EventLines, Means, WriteLines, Unlines, EventBlocks, Printable, WriteBlocks, BlocksMean, PrintEvents;
    if events == [] {
      NoBlocks();
    } else {
      BlocksFirst(events);
      BlocksNext(EventBlocks(events));
      PrintedMeans(events[0]);
      PrintedBlocks(events[1..]);
      assert events == [events[0]] + events[1..];
    }
  }

  lemma PrintedBlocksSound(events: seq<Event>)
    requires forall i :: 0 <= i < |events| ==> Printable(events[i])
    ensures SoundBlocks(EventBlocks(events))
  {
    hide EventLines, SoundLines;
    forall i | 0 <= i < |events|
      ensures SoundLines(EventBlocks(events)[i])
    {
      EventLinesSound(events[i]);
    }
  }

  /** Parsing printed events gives them back. */
  lemma ParsePrintedEvents(events: seq<Event>)
    requires forall i :: 0 <= i < |events| ==> Printable(events[i])
    ensures ParseAll(PrintEvents(events)) == events
  {
    PrintedBlocks(events);
    PrintedBlocksSound(events);
    ParseWrittenEvents(EventBlocks(events), []);
    assert Unlines(WriteLines([])) == "" && PrintEvents(events) + "" == PrintEvents(events);
    assert Means([]) == [] && events + [] == events;
  }

  // ---------------------------------------------------------- an open last line

  /** A last line without its newline is not read, whatever it says. */
  lemma OpenLineIsLost(text: string, line: string)
    requires '\n' !in line
    ensures ParseAll(text + line) == ParseAll(text)
  {
    TailHasNoNewline(text);
    SplitConcat(text, line);
    NewlineAt(Tail(text) + line, "");
    assert Tail(text) + line + "" == Tail(text) + line;
    assert Lines(text) + [] == Lines(text);
  }

  function ShownName(event: string): string {
    if event == "" then "message" else event
  }

  /** Reading `line` as well would not change what the fields make when the text ends. */
  predicate ChangesNothing(f: Fields, line: string) {
    line == "" || line[0] == ':' || ChangesNoField(f, FieldName(line), FieldValue(line))
  }

  predicate ChangesNoField(f: Fields, name: string, value: string) {
    if name == "event" then f.data == "" || ShownName(value) == ShownName(f.event)
    else if name == "data" then false
    else if name == "id" then f.data == "" || value == f.id
    else true
  }

  predicate DataIsLines(f: Fields) {
    f.data == "" || f.data[|f.data| - 1] == '\n'
  }

  lemma {:induction false} ReadDataIsLines(lines: seq<string>)
    ensures DataIsLines(ReadLines(NOTHING, lines).0)
    decreases |lines|
  {
    if lines != [] {
      var n := |lines| - 1;
      ReadDataIsLines(lines[..n]);
      SetDataIsLines(ReadLines(NOTHING, lines[..n]).0, FieldName(lines[n]), FieldValue(lines[n]));
    }
  }

  lemma SetDataIsLines(f: Fields, name: string, value: string)
    requires DataIsLines(f)
    ensures DataIsLines(SetField(f, name, value))
  {}

  lemma FieldChangesDispatch(f: Fields, name: string, value: string)
    requires DataIsLines(f)
    ensures Dispatch(SetField(f, name, value)) == Dispatch(f) <==> ChangesNoField(f, name, value)
  {
    var g := SetField(f, name, value);
    if name == "data" {
      assert |g.data| == |f.data| + |value| + 1 && g.data[|g.data| - 1] == '\n';
      assert |Dispatch(g)| == 1 && |Dispatch(g)[0].data| == |f.data| + |value|;
    }
  }

  lemma LineChangesDispatch(f: Fields, line: string)
    requires DataIsLines(f)
    ensures ReadLine(f, line).1 + Dispatch(ReadLine(f, line).0) == Dispatch(f) <==> ChangesNothing(f, line)
  {
    if line != "" && line[0] != ':' {
      FieldChangesDispatch(f, FieldName(line), FieldValue(line));
    }
  }

  lemma SameAfter(a: seq<Event>, b: seq<Event>, c: seq<Event>)
    ensures a + b == a + c <==> b == c
  {
    assert (a + b)[|a|..] == b && (a + c)[|a|..] == c;
  }

  /** The flush at the end is right, that is, it gives what the text would have given with
      its last line ended, exactly if that line is empty, a comment or an ignored field, or
      sets an event name or id that the open event has or has no use for. */
  lemma FlushIsCompleteExactlyIf(text: string)
    ensures ParseAll(text) == ParseAll(text + "\n")
            <==> ChangesNothing(ReadLines(NOTHING, Lines(text)).0, Tail(text))
  {
    var lines, line := Lines(text), Tail(text);
    var f, events := ReadLines(NOTHING, lines).0, ReadLines(NOTHING, lines).1;
    TailHasNoNewline(text);
    SplitConcat(text, "\n");
    LinesOfOne(line);
    ReadLinesNext(NOTHING, lines, line);
    ReadDataIsLines(lines);
    LineChangesDispatch(f, line);
    LinesAssociate(events, ReadLine(f, line).1, Dispatch(ReadLine(f, line).0));
    SameAfter(events, ReadLine(f, line).1 + Dispatch(ReadLine(f, line).0), Dispatch(f));
  }

  lemma LinesAssociate(a: seq<Event>, b: seq<Event>, c: seq<Event>)
    ensures a + b + c == a + (b + c)
  {}

  /** A text whose trailing event the flush loses. */
  lemma TrailingEventIsLost()
    ensures ParseAll("data: x") == [] && ParseAll("data: x\n") == [Event("message", "x", "")]
  {
    hide ParseAll;
    OpenLineIsLost("", "data: x");
    assert "" + "data: x" == "data: x" && "data: x" + "\n" == "data: x\n";
    NothingParsed();
    OneDataLine("data: x", "x");
  }

  lemma NothingParsed()
    ensures ParseAll("") == []
  {}

  lemma OneDataLine(line: string, x: string)
    requires line == "data: " + x && '\n' !in x
    ensures ParseAll(line + "\n") == [Event("message", x, "")]
  {
    var field := Field("data", true, x);
    assert WriteLine(field) == line && SoundLine(field);
    assert WriteLines([field]) == [line];
    hide ParseAll, WriteLine, WriteLines, SoundLine;
    UnlinesNext([], line, "");
    assert [] + [line] == [line] && "" + ("" + (line + "\n")) == line + "\n";
    ParseWrittenEvents([], [field]);
    OneFieldMeans(field);
  }

  lemma OneFieldMeans(field: Line)
    requires field.Field? && field.name == "data"
    ensures Means([field]) == [Event("message", field.value, "")]
  {
    ValuesNext([], field, "event");
    ValuesNext([], field, "id");
    ValuesNext([], field, "data");
    assert [] + [field] == [field];
  }
}
