/** The server-sent events parser of oam:ai, over decoded text. */
module Sse {
  datatype Event = Event(event: string, data: string, id: string)

  /** The fields of the event under way. */
  datatype Fields = Fields(event: string, data: string, id: string)

  const NOTHING := Fields("", "", "")

  // -------------------------------------------------------------------- lines

  function FirstNewline(s: string): (n: nat)
    ensures n <= |s|
  {
    if s == "" || s[0] == '\n' then 0 else 1 + FirstNewline(s[1..])
  }

  lemma {:induction false} FirstNewlineIsFirst(s: string)
    ensures var n := FirstNewline(s); n < |s| ==> s[n] == '\n'
    ensures '\n' !in s[..FirstNewline(s)]
  {
    if s != "" && s[0] != '\n' {
      FirstNewlineIsFirst(s[1..]);
      var n := FirstNewline(s[1..]);
      assert s[..n + 1] == [s[0]] + s[1..][..n];
    }
  }

  /** The complete lines of `s`. */
  function Lines(s: string): seq<string>
    decreases |s|
  {
    var n := FirstNewline(s);
    if n == |s| then [] else [s[..n]] + Lines(s[n + 1..])
  }

  /** What follows the last newline. */
  function Tail(s: string): string
    decreases |s|
  {
    var n := FirstNewline(s);
    if n == |s| then s else Tail(s[n + 1..])
  }

  // -------------------------------------------------------------------- events

  function FirstColon(s: string): (n: nat)
    ensures n <= |s|
  {
    if s == "" || s[0] == ':' then 0 else 1 + FirstColon(s[1..])
  }

  function FieldName(line: string): string {
    line[..FirstColon(line)]
  }

  /** The value after the colon, without one leading space. */
  function FieldValue(line: string): string {
    var n := FirstColon(line);
    if n == |line| then ""
    else if n + 1 < |line| && line[n + 1] == ' ' then line[n + 2..]
    else line[n + 1..]
  }

  function SetField(f: Fields, name: string, value: string): Fields {
    if name == "event" then f.(event := value)
    else if name == "data" then f.(data := f.data + value + "\n")
    else if name == "id" then f.(id := value)
    else f
  }

  /** The event the fields make, if there is data. */
  function Dispatch(f: Fields): seq<Event> {
    if f.data == "" then []
    else
      [Event(if f.event == "" then "message" else f.event,
             if f.data[|f.data| - 1] == '\n' then f.data[..|f.data| - 1] else f.data,
             f.id)]
  }

  function ReadLine(f: Fields, line: string): (Fields, seq<Event>) {
    if line == "" then (NOTHING, Dispatch(f))
    else if line[0] == ':' then (f, [])
    else (SetField(f, FieldName(line), FieldValue(line)), [])
  }

  function ReadLines(f: Fields, lines: seq<string>): (Fields, seq<Event>) {
    if lines == [] then (f, [])
    else
      var (g, events) := ReadLines(f, lines[..|lines| - 1]);
      var (h, more) := ReadLine(g, lines[|lines| - 1]);
      (h, events + more)
  }

  /** The whole text at once: every complete line, then the event left open.  Text after the
      last newline is never read. */
  function ParseAll(text: string): seq<Event> {
    var (f, events) := ReadLines(NOTHING, Lines(text));
    events + Dispatch(f)
  }

  function Concat(chunks: seq<string>): string {
    if chunks == [] then "" else Concat(chunks[..|chunks| - 1]) + chunks[|chunks| - 1]
  }

  // ------------------------------------------------------ chunks do not matter

  lemma LinesFirst(s: string, line: string, rest: string)
    requires '\n' !in line && s == line + "\n" + rest
    ensures Lines(s) == [line] + Lines(rest) && Tail(s) == Tail(rest)
  {
    NewlineAt(line, "\n" + rest);
    assert s == line + ("\n" + rest) && s[..|line|] == line && s[|line| + 1..] == rest;
  }

  lemma {:induction false} NewlineAt(line: string, rest: string)
    requires '\n' !in line && (rest == "" || rest[0] == '\n')
    ensures FirstNewline(line + rest) == |line|
  {
    if line == "" {
      assert line + rest == rest;
    } else {
      assert (line + rest)[1..] == line[1..] + rest;
      NewlineAt(line[1..], rest);
    }
  }

  lemma LinesConcat(x: seq<string>, y: seq<string>, z: seq<string>)
    ensures x + (y + z) == (x + y) + z
  {}

  /** Splitting what was kept and what came next is splitting the whole. */
  lemma {:induction false} SplitConcat(a: string, b: string)
    ensures Lines(a + b) == Lines(a) + Lines(Tail(a) + b)
    ensures Tail(a + b) == Tail(Tail(a) + b)
    decreases |a|
  {
    var n := FirstNewline(a);
    FirstNewlineIsFirst(a);
    if n == |a| {
      assert Lines(a) == [] && Tail(a) == a;
    } else {
      var line, rest := a[..n], a[n + 1..];
      assert a == line + "\n" + rest && a + b == line + "\n" + (rest + b);
      LinesFirst(a, line, rest);
      LinesFirst(a + b, line, rest + b);
      SplitConcat(rest, b);
      LinesConcat([line], Lines(rest), Lines(Tail(rest) + b));
    }
  }

  lemma ReadLinesNext(f: Fields, a: seq<string>, line: string)
    ensures ReadLines(f, a + [line]).0 == ReadLine(ReadLines(f, a).0, line).0
    ensures ReadLines(f, a + [line]).1 == ReadLines(f, a).1 + ReadLine(ReadLines(f, a).0, line).1
  {
    assert (a + [line])[..|a|] == a;
  }

  lemma {:induction false} ReadLinesConcat(f: Fields, a: seq<string>, b: seq<string>)
    ensures ReadLines(f, a + b).0 == ReadLines(ReadLines(f, a).0, b).0
    ensures ReadLines(f, a + b).1 == ReadLines(f, a).1 + ReadLines(ReadLines(f, a).0, b).1
    decreases |b|
  {
    var g := ReadLines(f, a).0;
    if b == [] {
      assert a + b == a;
    } else {
      var n := |b| - 1;
      ReadLinesConcat(f, a, b[..n]);
      ReadLinesNext(f, a + b[..n], b[n]);
      ReadLinesNext(g, b[..n], b[n]);
      assert b == b[..n] + [b[n]] && a + b == (a + b[..n]) + [b[n]];
    }
  }
}
