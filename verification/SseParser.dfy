/** parseSSEStream() as it runs: a buffer for the open line, the fields of the event under way,
    and two loops over chunks and lines. */
module SseParser {
  import opened Sse

  method SplitLines(s: string) returns (lines: seq<string>, rest: string)
    ensures lines == Lines(s) && rest == Tail(s)
  {
    lines, rest := [], s;
    while FirstNewline(rest) < |rest|
      invariant lines + Lines(rest) == Lines(s) && Tail(rest) == Tail(s)
      decreases |rest|
    {
      var n := FirstNewline(rest);
      LinesConcat(lines, [rest[..n]], Lines(rest[n + 1..]));
      lines, rest := lines + [rest[..n]], rest[n + 1..];
    }
  }

  /** The loop over the lines of one chunk, with the fields the event under way has so far. */
  method ReadChunkLines(start: Fields, lines: seq<string>) returns (f: Fields, events: seq<Event>)
    ensures (f, events) == ReadLines(start, lines)
  {
    var event, data, id := start.event, start.data, start.id;
    events := [];
    for i := 0 to |lines|
      invariant (Fields(event, data, id), events) == ReadLines(start, lines[..i])
    {
      var line := lines[i];
      ReadLinesNext(start, lines[..i], line);
      assert lines[..i + 1] == lines[..i] + [line];
      assert events + [] == events;
      if line == "" {
        if data != "" {
          events := events + Dispatch(Fields(event, data, id));
        }
        event, data, id := "", "", "";
      } else if line[0] != ':' {
        var field, value := FieldName(line), FieldValue(line);
        if field == "event" {
          event := value;
        } else if field == "data" {
          data := data + value + "\n";
        } else if field == "id" {
          id := value;
        }
      }
    }
    assert lines[..|lines|] == lines;
    f := Fields(event, data, id);
  }

  /** What has been read of a stream: its complete lines; the rest is kept for the next chunk. */
  ghost predicate ReadSoFar(text: string, buffer: string, f: Fields, events: seq<Event>) {
    buffer == Tail(text) && (f, events) == ReadLines(NOTHING, Lines(text))
  }

  lemma ReadMore(text: string, chunk: string, f: Fields, events: seq<Event>, g: Fields, more: seq<Event>)
    requires ReadSoFar(text, Tail(text), f, events)
    requires (g, more) == ReadLines(f, Lines(Tail(text) + chunk))
    ensures ReadSoFar(text + chunk, Tail(Tail(text) + chunk), g, events + more)
  {
    SplitConcat(text, chunk);
    ReadLinesConcat(NOTHING, Lines(text), Lines(Tail(text) + chunk));
  }

  /** However the text is cut into chunks, the events are those of the whole text. */
  method ParseSSEStream(chunks: seq<string>) returns (events: seq<Event>)
    ensures events == ParseAll(Concat(chunks))
  {
    var buffer, f := "", NOTHING;
    events := [];
    for i := 0 to |chunks|
      invariant ReadSoFar(Concat(chunks[..i]), buffer, f, events)
    {
      var lines, rest := SplitLines(buffer + chunks[i]);
      var g, more := ReadChunkLines(f, lines);
      ReadMore(Concat(chunks[..i]), chunks[i], f, events, g, more);
      assert chunks[..i + 1][..i] == chunks[..i];
      buffer, f, events := rest, g, events + more;
    }
    assert chunks[..|chunks|] == chunks;
    events := events + Dispatch(f);
  }
}
