/** serializeMimeType() as it runs: one cursor over the text, the result built as it goes. */
module MimeSerializer {
  import opened Base
  import opened Mime
  import opened MimeForms
  import opened MimeProofs

  method FindNonSpace(text: string, start: nat) returns (pos: nat)
    requires start <= |text|
    ensures pos == SkipSpaces(text, start)
  {
    pos := start;
    while pos < |text| && IsSpace(text[pos])
      invariant start <= pos <= |text|
      invariant SkipSpaces(text, pos) == SkipSpaces(text, start)
    {
      pos := pos + 1;
    }
  }

  method FindStop(text: string, start: nat, stops: set<char>) returns (pos: nat)
    requires start <= |text|
    ensures pos == Until(text, start, stops)
  {
    pos := start;
    while pos < |text| && text[pos] !in stops
      invariant start <= pos <= |text|
      invariant Until(text, pos, stops) == Until(text, start, stops)
    {
      pos := pos + 1;
    }
  }

  method FindEnd(text: string, start: nat, end: nat) returns (pos: nat)
    requires start <= end <= |text|
    ensures pos == TrimEnd(text, start, end)
  {
    pos := end;
    while start < pos && IsSpace(text[pos - 1])
      invariant start <= pos <= end
      invariant TrimEnd(text, start, pos) == TrimEnd(text, start, end)
    {
      pos := pos - 1;
    }
  }

  /** From behind the opening quote to behind the closing one. */
  method ReadQuoted(text: string, start: nat) returns (value: string, pos: nat)
    requires start <= |text|
    ensures (value, pos) == Quoted(text, start)
  {
    value, pos := "", start;
    ghost var all := Quoted(text, start);
    assert "" + all.0 == all.0;
    while pos < |text|
      invariant start <= pos <= |text|
      invariant all == (value + Quoted(text, pos).0, Quoted(text, pos).1)
    {
      ghost var was := pos;
      var ch := text[pos];
      pos := pos + 1;
      if ch == '"' {
        assert value + "" == value;
        return;
      }
      if ch == '\\' {
        if pos >= |text| {
          value := value + "\\";
          return;
        }
        ch := text[pos];
        pos := pos + 1;
      }
      QuotedNext(value, text, was, pos);
      value := value + [ch];
    }
    assert value + "" == value;
  }

  /** One character of a quoted value, escaped or not. */
  lemma QuotedNext(value: string, s: string, i: nat, next: nat)
    requires i < next <= |s| && s[i] != '"' && next == i + (if s[i] == '\\' then 2 else 1)
    ensures value + Quoted(s, i).0 == value + [s[next - 1]] + Quoted(s, next).0
    ensures Quoted(s, i).1 == Quoted(s, next).1
  {}

  method ReadValue(text: string, start: nat) returns (value: Option<string>, pos: nat)
    requires start <= |text|
    ensures (value, pos) == ParseValue(text, start)
  {
    if start < |text| && text[start] == '"' {
      var quoted, end := ReadQuoted(text, start + 1);
      pos := FindStop(text, end, {';'});
      value := Some(quoted);
    } else {
      pos := FindStop(text, start, {';'});
      var stop := FindEnd(text, start, pos);
      value := if stop == start then None else Some(text[start..stop]);
    }
  }

  /** One parameter, from behind its ";". */
  method ReadParam(text: string, start: nat) returns (param: Option<Param>, pos: nat)
    requires start <= |text|
    ensures (param, pos) == ParseParam(text, start)
  {
    var from := FindNonSpace(text, start);
    pos := FindStop(text, from, {';', '='});
    var name := Lower(text[from..pos]);
    if pos >= |text| || text[pos] == ';' {
      return None, pos;
    }
    var value;
    value, pos := ReadValue(text, pos + 1);
    param := if value.None? then None else Some(Param(name, value.value));
  }

  lemma SelectStep(p: Option<Param>, rest: seq<Param>, seen: set<string>)
    ensures p.Some? && Accepted(p.value, seen) ==>
              PrintParams(Select(OptionSeq(p) + rest, seen))
              == PrintParam(p.value) + PrintParams(Select(rest, seen + {p.value.name}))
    ensures p.None? || !Accepted(p.value, seen) ==> Select(OptionSeq(p) + rest, seen) == Select(rest, seen)
  {
    var all := OptionSeq(p) + rest;
    if p.None? {
      assert all == rest;
    } else {
      assert all[0] == p.value && all[1..] == rest;
      if Accepted(p.value, seen) {
        var selected := Select(rest, seen + {p.value.name});
        assert ([p.value] + selected)[1..] == selected;
      }
    }
  }

  /** `out`, then what is still to be printed; folded away. */
  ghost function Whole(out: string, rest: seq<Param>, seen: set<string>, n: nat): string {
    if n == 0 then out + PrintParams(Select(rest, seen)) else Whole(out, rest, seen, n - 1)
  }

  lemma {:induction false} WholeMeans(out: string, rest: seq<Param>, seen: set<string>, n: nat)
    ensures Whole(out, rest, seen, n) == out + PrintParams(Select(rest, seen))
  {
    if n > 0 {
      WholeMeans(out, rest, seen, n - 1);
    }
  }

  lemma WholeStep(out: string, p: Option<Param>, rest: seq<Param>, seen: set<string>, n: nat)
    ensures Whole(out, OptionSeq(p) + rest, seen, n) ==
              if p.Some? && Accepted(p.value, seen) then
                Whole(out + PrintParam(p.value), rest, seen + {p.value.name}, n)
              else Whole(out, rest, seen, n)
  {
    SelectStep(p, rest, seen);
    WholeMeans(out, OptionSeq(p) + rest, seen, n);
    WholeMeans(out, rest, seen, n);
    if p.Some? && Accepted(p.value, seen) {
      WholeMeans(out + PrintParam(p.value), rest, seen + {p.value.name}, n);
      ConcatAssoc(out, PrintParam(p.value), PrintParams(Select(rest, seen + {p.value.name})));
    }
  }

  lemma ConcatAssoc(a: string, b: string, c: string)
    ensures a + (b + c) == a + b + c
  {}

  /** One turn of the loop: a parameter that counts is printed and its name remembered. */
  method PrintNext(text: string, start: nat, printed: string, names: set<string>, ghost n: nat)
    returns (out: string, seen: set<string>, pos: nat)
    requires start < |text|
    ensures start < pos <= |text|
    ensures Whole(out, RawParams(text, pos), seen, n) == Whole(printed, RawParams(text, start), names, n)
  {
    var param;
    param, pos := ReadParam(text, start + 1);
    WholeStep(printed, param, RawParams(text, pos), names, n);
    if param.Some? && Accepted(param.value, names) {
      return printed + PrintParam(param.value), names + {param.value.name}, pos;
    }
    return printed, names, pos;
  }

  /** The parameters from `start` on, which is a ";" or the end, printed after `head`. */
  method SerializeParams(text: string, start: nat, head: string) returns (out: string)
    requires start <= |text|
    ensures out == head + PrintParams(Select(RawParams(text, start), {}))
  {
    out := head;
    var seen: set<string> := {};
    var pos := start;
    ghost var n := |text| + 5;
    ghost var whole := Whole(head, RawParams(text, start), {}, n);
    while pos < |text|
      invariant start <= pos <= |text|
      invariant Whole(out, RawParams(text, pos), seen, n) == whole
      decreases |text| - pos
    {
      out, seen, pos := PrintNext(text, pos, out, seen, n);
    }
    NothingLeft(out, seen, n);
    WholeMeans(head, RawParams(text, start), {}, n);
  }

  lemma NothingLeft(out: string, seen: set<string>, n: nat)
    ensures Whole(out, [], seen, n) == out
  {
    WholeMeans(out, [], seen, n);
    assert out + "" == out;
  }

  /** Text is serialized if it is a type, to the print of what it is written to mean. */
  ghost predicate SerializedAs(input: string, r: Option<string>) {
    && (r.Some? <==> IsTypeText(Trim(input)))
    && forall w :: Sound(w) && Text(w) == input ==> r == Some(Print(Means(w)))
  }

  lemma SerializesMeaning(input: string)
    ensures SerializedAs(input, Serialize(input))
  {
    ParsesExactlyIf(input);
    forall w | Sound(w) && Text(w) == input
      ensures Serialize(input) == Some(Print(Means(w)))
    {
      ParseWritten(w);
    }
  }

  /** The MIME type of a body, printed again however it was written; None when the text is not one. */
  method SerializeMimeType(input: string) returns (r: Option<string>)
    ensures r == Serialize(input) && SerializedAs(input, r)
  {
    hide SerializedAs;
    SerializesMeaning(input);
    var from := FindNonSpace(input, 0);
    var to := FindEnd(input, from, |input|);
    var text := input[from..to];
    assert text == Trim(input);
    hide Trim, ParseText, Until, TrimEnd, RawParams, Select, PrintParams, IsToken, Lower, Serialize;
    var slash := FindStop(text, 0, {'/'});
    if slash == 0 || slash == |text| {
      SerializedNone(input, text, slash);
      return None;
    }
    var end := FindStop(text, slash + 1, {';'});
    var stop := FindEnd(text, slash + 1, end);
    SerializedFrom(input, text, slash, end, stop);
    var kind, subtype := text[..slash], text[slash + 1..stop];
    if !IsToken(kind) || !IsToken(subtype) {
      return None;
    }
    var out := SerializeParams(text, end, Lower(kind) + "/" + Lower(subtype));
    return Some(out);
  }

  lemma SerializedNone(input: string, text: string, slash: nat)
    requires text == Trim(input) && slash == Until(text, 0, {'/'}) && (slash == 0 || slash == |text|)
    ensures Serialize(input) == None
  {
    hide Trim, Until, TrimEnd, RawParams, Select, PrintParams, IsToken, Lower;
  }

  lemma SerializedFrom(input: string, text: string, slash: nat, end: nat, stop: nat)
    requires text == Trim(input) && slash == Until(text, 0, {'/'}) && 0 < slash < |text|
    requires end == Until(text, slash + 1, {';'}) && stop == TrimEnd(text, slash + 1, end)
    ensures var kind, subtype := text[..slash], text[slash + 1..stop];
            Serialize(input) ==
              if !IsToken(kind) || !IsToken(subtype) then None
              else Some(Lower(kind) + "/" + Lower(subtype) + PrintParams(Select(RawParams(text, end), {})))
  {
    hide Trim, Until, TrimEnd, RawParams, Select, PrintParams, IsToken, Lower;
  }
}
