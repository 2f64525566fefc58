/** A MIME type is parsed to what it is written to mean, however it is written; printing and
    parsing are inverse, so serializing twice changes nothing. */
module MimeProofs {
  import opened Base
  import opened Mime
  import opened MimeForms

  // ----------------------------------------------------------------- scanning

  lemma Assoc(a: string, b: string, c: string)
    ensures (a + b) + c == a + (b + c)
  {}

  /** What follows the text at `i`. */
  lemma Tail(s: string, i: nat, a: string, b: string)
    requires i <= |s| && s[i..] == a + b
    ensures i + |a| <= |s| && s[i + |a|..] == b && s[i..i + |a|] == a
    ensures a != "" ==> s[i] == a[0]
    ensures a == "" && b != "" ==> s[i] == b[0]
  {
    assert s[i + |a|..] == s[i..][|a|..];
    assert s[i..i + |a|] == s[i..][..|a|];
    assert a + b != "" ==> s[i] == s[i..][0];
  }

  lemma TailFirst(s: string, i: nat, a: string, b: string)
    requires i <= |s| && s[i..] == a + b && a != ""
    ensures i < |s| && s[i] == a[0] && s[i + 1..] == a[1..] + b
  {
    assert s[i] == s[i..][0];
    assert s[i + 1..] == s[i..][1..];
  }

  lemma {:induction false} SkipAt(s: string, i: nat, pad: string, more: string)
    requires i <= |s| && s[i..] == pad + more && Spaces(pad) && (more != "" ==> !IsSpace(more[0]))
    ensures SkipSpaces(s, i) == i + |pad|
    decreases |pad|
  {
    if pad == "" {
      Tail(s, i, pad, more);
    } else {
      TailFirst(s, i, pad, more);
      SkipAt(s, i + 1, pad[1..], more);
    }
  }

  lemma {:induction false} UntilAt(s: string, i: nat, x: string, more: string, stops: set<char>)
    requires i <= |s| && s[i..] == x + more && Without(x, stops) && (more != "" ==> more[0] in stops)
    ensures Until(s, i, stops) == i + |x|
    decreases |x|
  {
    if x == "" {
      Tail(s, i, x, more);
    } else {
      TailFirst(s, i, x, more);
      UntilAt(s, i + 1, x[1..], more, stops);
    }
  }

  lemma {:induction false} TrimAt(s: string, lo: nat, x: string, gap: string)
    requires lo + |x| + |gap| <= |s| && s[lo..lo + |x| + |gap|] == x + gap
    requires Spaces(gap) && (x != "" ==> !IsSpace(x[|x| - 1]))
    ensures TrimEnd(s, lo, lo + |x| + |gap|) == lo + |x|
    decreases |gap|
  {
    var hi := lo + |x| + |gap|;
    var all := s[lo..hi];
    if gap == "" {
      assert x + gap == x;
      assert x != "" ==> s[hi - 1] == all[|all| - 1] == x[|x| - 1];
    } else {
      assert s[hi - 1] == all[|all| - 1] == gap[|gap| - 1];
      assert s[lo..hi - 1] == all[..|all| - 1] == x + gap[..|gap| - 1];
      TrimAt(s, lo, x, gap[..|gap| - 1]);
    }
  }

  // -------------------------------------------------------------------- a value

  lemma ItemsFirst(items: seq<Item>, more: string)
    requires items != [] && Quotables(items)
    ensures Quotables(items[1..]) && (items[0].Lit? ==> items[0].c != '"' && items[0].c != '\\')
    ensures Inner(items) + more == WriteItem(items[0]) + (Inner(items[1..]) + more)
    ensures |Inner(items)| == |WriteItem(items[0])| + |Inner(items[1..])|
    ensures Chars(items) == [items[0].c] + Chars(items[1..])
  {
    Assoc(WriteItem(items[0]), Inner(items[1..]), more);
  }

  lemma ItemAt(s: string, i: nat, x: Item, more: string)
    requires i <= |s| && s[i..] == WriteItem(x) + more && (x.Lit? ==> x.c != '"' && x.c != '\\')
    ensures var next := i + |WriteItem(x)|;
            && next <= |s| && s[next..] == more
            && Quoted(s, i) == ([x.c] + Quoted(s, next).0, Quoted(s, next).1)
  {
    Tail(s, i, WriteItem(x), more);
    TailFirst(s, i, WriteItem(x), more);
    if x.Esc? {
      assert s[i + 1] == s[i..][1] == x.c;
    }
  }

  /** What stands between quotes, and how it may end. */
  ghost predicate QuoteEnds(more: string) {
    more == "" || more == "\\" || more[0] == '"'
  }

  /** What is read from there: the characters, and where they end. */
  ghost function QuotedAs(size: nat, i: nat, inner: nat, chars: string, more: string): (string, int) {
    if more == "\\" then (chars + "\\", size) else (chars, i + inner + if more == "" then 0 else 1)
  }

  lemma QuotedCons(size: nat, i: nat, c: char, n: nat, inner: nat, chars: string, more: string)
    ensures var rest := QuotedAs(size, i + n, inner, chars, more);
            ([c] + rest.0, rest.1) == QuotedAs(size, i, n + inner, [c] + chars, more)
  {
    Assoc([c], chars, "\\");
  }

  lemma {:induction false} QuotedAt(s: string, i: nat, items: seq<Item>, more: string)
    requires i <= |s| && Quotables(items) && QuoteEnds(more) && s[i..] == Inner(items) + more
    ensures Quoted(s, i) == QuotedAs(|s|, i, |Inner(items)|, Chars(items), more)
    decreases |items|
  {
    if items == [] {
      assert Inner(items) + more == more;
      assert Chars(items) + "\\" == "\\";
      QuoteEndsAt(s, i, more);
    } else {
      hide Quoted, Inner, WriteItem, Chars, QuotedAs, Quotables, QuoteEnds;
      var x, n := items[0], |WriteItem(items[0])|;
      ItemsFirst(items, more);
      ItemAt(s, i, x, Inner(items[1..]) + more);
      QuotedAt(s, i + n, items[1..], more);
      QuotedCons(|s|, i, x.c, n, |Inner(items[1..])|, Chars(items[1..]), more);
    }
  }

  lemma QuoteEndsAt(s: string, i: nat, more: string)
    requires i <= |s| && QuoteEnds(more) && s[i..] == more
    ensures Quoted(s, i) == if more == "\\" then ("\\", |s|) else ("", i + if more == "" then 0 else 1)
  {
    assert |s| == i + |s[i..]|;
    assert more != "" ==> s[i] == s[i..][0];
  }

  lemma BareStart(text: string, gap: string, rest: string)
    requires SoundValue(Bare(text, gap)) && (rest != "" ==> rest[0] == ';')
    ensures var all := text + (gap + rest); all != "" ==> all[0] != '"'
    ensures Without(text + gap, {';'})
  {}

  lemma BareFrom(s: string, i: nat, stop: nat, end: nat)
    requires i <= stop <= end <= |s| && (i < |s| ==> s[i] != '"')
    requires Until(s, i, {';'}) == end && TrimEnd(s, i, end) == stop
    ensures ParseValue(s, i) == (if stop == i then None else Some(s[i..stop]), end)
  {}

  lemma BareAt(s: string, i: nat, text: string, gap: string, rest: string)
    requires SoundValue(Bare(text, gap)) && (rest != "" ==> rest[0] == ';')
    requires i <= |s| && s[i..] == text + (gap + rest)
    ensures ParseValue(s, i) == (ValueMeans(Bare(text, gap)), i + |text| + |gap|)
  {
    BareStart(text, gap, rest);
    hide Spaces, Without, Until, TrimEnd, Quoted, ParseValue;
    SubtypeAt(s, i, text, gap, rest);
    assert i < |s| ==> s[i] == s[i..][0];
    BareFrom(s, i, i + |text|, i + |text| + |gap|);
  }

  lemma QuotedFrom(s: string, i: nat, value: string, end: nat, stop: nat)
    requires i < |s| && s[i] == '"' && Quoted(s, i + 1) == (value, end) && Until(s, end, {';'}) == stop
    ensures ParseValue(s, i) == (Some(value), stop)
  {}

  /** Behind the closing quote the scan goes on to the next ";". */
  lemma CloseAt(s: string, end: nat, after: string, rest: string)
    requires end <= |s| && s[end..] == "\"" + (after + rest)
    requires Without(after, {';'}) && (rest != "" ==> rest[0] == ';')
    ensures end < |s| && Until(s, end + 1, {';'}) == |s| - |rest|
  {
    hide Until, Without;
    QuoteFirst(s, end, after + rest);
    UntilAt(s, end + 1, after, rest, {';'});
    Tail(s, end + 1, after, rest);
    assert |s| == end + 1 + |after| + |s[end + 1 + |after|..]|;
  }

  /** From the opening quote to behind the closing one, and on to the next ";". */
  lemma ClosedAt(s: string, i: nat, items: seq<Item>, after: string, rest: string)
    requires Quotables(items) && i < |s| && s[i] == '"' && s[i + 1..] == Inner(items) + ("\"" + (after + rest))
    requires Without(after, {';'}) && (rest != "" ==> rest[0] == ';')
    ensures ParseValue(s, i) == (Some(Chars(items)), |s| - |rest|)
  {
    hide Quoted, ParseValue, Until, Inner, Chars, Quotables, Without;
    var more := "\"" + (after + rest);
    assert more[0] == '"' && more != "\\";
    QuotedAt(s, i + 1, items, more);
    Tail(s, i + 1, Inner(items), more);
    CloseAt(s, i + 1 + |Inner(items)|, after, rest);
    QuotedFrom(s, i, Chars(items), i + 1 + |Inner(items)| + 1, |s| - |rest|);
  }

  lemma OpenAt(s: string, i: nat, items: seq<Item>, backslash: bool)
    requires Quotables(items) && i < |s| && s[i] == '"'
    requires s[i + 1..] == Inner(items) + if backslash then "\\" else ""
    ensures ParseValue(s, i) == (Some(Chars(items) + if backslash then "\\" else ""), |s|)
  {
    hide Quoted, ParseValue, Inner, Chars, Quotables;
    QuotedAt(s, i + 1, items, if backslash then "\\" else "");
    assert Chars(items) + "" == Chars(items);
    assert |s| == i + 1 + |s[i + 1..]|;
    QuotedFrom(s, i, Quoted(s, i + 1).0, |s|, |s|);
  }

  lemma InQuotesAt(s: string, i: nat, v: Value, rest: string)
    requires SoundValue(v) && v.InQuotes? && (rest != "" ==> rest[0] == ';')
    requires i <= |s| && s[i..] == WriteValue(v) + rest
    ensures ParseValue(s, i) == (ValueMeans(v), i + |WriteValue(v)|)
  {
    hide ParseValue, Inner, Chars, Quotables, Without;
    Assoc("\"", Inner(v.items) + ("\"" + v.after), rest);
    Assoc(Inner(v.items), "\"" + v.after, rest);
    Assoc("\"", v.after, rest);
    QuoteFirst(s, i, Inner(v.items) + ("\"" + (v.after + rest)));
    assert |s| == i + |s[i..]|;
    ClosedAt(s, i, v.items, v.after, rest);
  }

  lemma UnclosedAt(s: string, i: nat, v: Value)
    requires SoundValue(v) && v.Unclosed? && i <= |s| && s[i..] == WriteValue(v)
    ensures ParseValue(s, i) == (ValueMeans(v), |s|)
  {
    hide ParseValue, Inner, Chars, Quotables;
    QuoteFirst(s, i, Inner(v.items) + if v.backslash then "\\" else "");
    OpenAt(s, i, v.items, v.backslash);
  }

  lemma QuoteFirst(s: string, i: nat, more: string)
    requires i <= |s| && s[i..] == "\"" + more
    ensures i < |s| && s[i] == '"' && s[i + 1..] == more
  {
    TailFirst(s, i, "\"", more);
    assert "" + more == more;
  }

  lemma ValueAt(s: string, i: nat, v: Value, rest: string)
    requires SoundValue(v) && (rest != "" ==> rest[0] == ';' && !v.Unclosed?)
    requires i <= |s| && s[i..] == WriteValue(v) + rest
    ensures ParseValue(s, i) == (ValueMeans(v), i + |WriteValue(v)|)
  {
    hide ParseValue, Inner, Chars, Quotables;
    match v
    case Bare(text, gap) =>
      Assoc(text, gap, rest);
      BareAt(s, i, text, gap, rest);
    case InQuotes(_, _) => InQuotesAt(s, i, v, rest);
    case Unclosed(_, _) =>
      hide WriteValue, SoundValue, ValueMeans;
      assert WriteValue(v) + "" == WriteValue(v);
      assert |s| == i + |s[i..]|;
      UnclosedAt(s, i, v);
  }

  // ---------------------------------------------------------------- a parameter

  lemma NameAt(s: string, i: nat, pad: string, name: string, more: string)
    requires i <= |s| && s[i..] == pad + (name + more) && Spaces(pad) && Without(name, {';', '='})
    requires (name != "" ==> !IsSpace(name[0])) && (more != "" ==> more[0] == ';' || more[0] == '=')
    ensures ParseName(s, i) == (Lower(name), i + |pad| + |name|)
    ensures i + |pad| + |name| <= |s| && s[i + |pad| + |name|..] == more
  {
    assert name + more != "" ==> (name + more)[0] == (if name != "" then name[0] else more[0]);
    SkipAt(s, i, pad, name + more);
    Tail(s, i, pad, name + more);
    UntilAt(s, i + |pad|, name, more, {';', '='});
    Tail(s, i + |pad|, name, more);
  }

  lemma NamedParam(s: string, i: nat, name: string, stop: nat, value: Option<string>, end: nat)
    requires i <= stop < |s| && s[stop] == '=' && ParseName(s, i) == (name, stop)
    requires ParseValue(s, stop + 1) == (value, end)
    ensures ParseParam(s, i) == (if value.Some? then Some(Param(name, value.value)) else None, end)
  {
    hide ParseName, ParseValue;
  }

  lemma ValuedAt(s: string, i: nat, x: Segment, rest: string, stop: nat)
    requires SoundSegment(x) && x.Valued? && (rest != "" ==> rest[0] == ';' && !Ends(x))
    requires i <= stop <= |s| && ParseName(s, i) == (Lower(x.name), stop)
    requires s[stop..] == ("=" + WriteValue(x.value)) + rest
    ensures ParseParam(s, i) == (SegmentMeans(x), stop + 1 + |WriteValue(x.value)|)
  {
    hide ParseName, ParseValue, WriteValue, SoundValue, ValueMeans, ParseParam;
    var shown := WriteValue(x.value);
    Assoc("=", shown, rest);
    TailFirst(s, stop, "=", shown + rest);
    assert "" + (shown + rest) == shown + rest;
    ValueAt(s, stop + 1, x.value, rest);
    NamedParam(s, i, Lower(x.name), stop, ValueMeans(x.value), stop + 1 + |shown|);
  }

  lemma UnvaluedAt(s: string, i: nat, name: string, rest: string, stop: nat)
    requires i <= stop <= |s| && ParseName(s, i) == (name, stop) && s[stop..] == rest
    requires rest != "" ==> rest[0] == ';'
    ensures ParseParam(s, i) == (None, stop)
  {
    hide ParseName, ParseValue;
    assert rest != "" ==> s[stop] == s[stop..][0];
    assert |s| == stop + |s[stop..]|;
  }

  lemma SegmentAt(s: string, i: nat, x: Segment, rest: string)
    requires SoundSegment(x) && (rest != "" ==> rest[0] == ';' && !Ends(x))
    requires i <= |s| && s[i..] == WriteSegment(x) + rest
    ensures ParseParam(s, i) == (SegmentMeans(x), i + |WriteSegment(x)|)
    ensures i + |WriteSegment(x)| <= |s| && s[i + |WriteSegment(x)|..] == rest
  {
    hide ParseName, ParseParam, WriteValue, SoundValue, ValueMeans;
    var shown := if x.Valued? then "=" + WriteValue(x.value) else "";
    Tail(s, i, WriteSegment(x), rest);
    Assoc(x.pad, x.name + shown, rest);
    Assoc(x.name, shown, rest);
    assert shown + rest != "" ==> (shown + rest)[0] == ';' || (shown + rest)[0] == '=';
    NameAt(s, i, x.pad, x.name, shown + rest);
    if x.Valued? {
      ValuedAt(s, i, x, rest, i + |x.pad| + |x.name|);
    } else {
      assert "" + rest == rest;
      UnvaluedAt(s, i, Lower(x.name), rest, i + |x.pad| + |x.name|);
    }
  }

  lemma SegmentsStart(xs: seq<Segment>)
    ensures WriteSegments(xs) != "" ==> WriteSegments(xs)[0] == ';' && xs != []
  {}

  lemma RestSound(xs: seq<Segment>)
    requires SoundSegments(xs) && xs != []
    ensures SoundSegments(xs[1..]) && SoundSegment(xs[0]) && (xs[1..] != [] ==> !Ends(xs[0]))
  {}

  lemma RawFirst(s: string, i: nat, p: Option<Param>, end: nat, rest: seq<Param>)
    requires i < |s| && end <= |s| && ParseParam(s, i + 1) == (p, end) && RawParams(s, end) == rest
    ensures RawParams(s, i) == OptionSeq(p) + rest
  {
    hide ParseParam;
  }

  lemma SegmentsFirst(xs: seq<Segment>)
    requires xs != []
    ensures WriteSegments(xs) == ";" + (WriteSegment(xs[0]) + WriteSegments(xs[1..]))
    ensures SegmentsMean(xs) == OptionSeq(SegmentMeans(xs[0])) + SegmentsMean(xs[1..])
  {}

  lemma FirstSegmentAt(s: string, i: nat, x: Segment, rest: string, params: seq<Param>)
    requires SoundSegment(x) && (rest != "" ==> rest[0] == ';' && !Ends(x))
    requires i <= |s| && s[i..] == ";" + (WriteSegment(x) + rest)
    ensures i < |s| && i + 1 + |WriteSegment(x)| <= |s| && s[i + 1 + |WriteSegment(x)|..] == rest
    ensures RawParams(s, i + 1 + |WriteSegment(x)|) == params ==> RawParams(s, i) == OptionSeq(SegmentMeans(x)) + params
  {
    hide ParseParam, WriteSegment, SegmentMeans, RawParams, SoundSegment;
    var shown := WriteSegment(x);
    TailFirst(s, i, ";", shown + rest);
    assert "" + (shown + rest) == shown + rest;
    SegmentAt(s, i + 1, x, rest);
    if RawParams(s, i + 1 + |shown|) == params {
      RawFirst(s, i, SegmentMeans(x), i + 1 + |shown|, params);
    }
  }

  lemma NoSegmentAt(s: string, i: nat)
    requires i <= |s| && s[i..] == WriteSegments([])
    ensures RawParams(s, i) == SegmentsMean([])
  {
    assert |s| == i + |s[i..]|;
  }

  /** Every segment is read as the parameter it means, if it means one. */
  lemma {:induction false} SegmentsAt(s: string, i: nat, xs: seq<Segment>)
    requires SoundSegments(xs) && i <= |s| && s[i..] == WriteSegments(xs)
    ensures RawParams(s, i) == SegmentsMean(xs)
    decreases |xs|
  {
    hide SoundSegments, SoundSegment, WriteSegment, WriteSegments, SegmentsMean, SegmentMeans, RawParams, OptionSeq;
    if xs == [] {
      NoSegmentAt(s, i);
    } else {
      SegmentsFirst(xs);
      RestSound(xs);
      SegmentsStart(xs[1..]);
      FirstSegmentAt(s, i, xs[0], WriteSegments(xs[1..]), SegmentsMean(xs[1..]));
      SegmentsAt(s, i + 1 + |WriteSegment(xs[0])|, xs[1..]);
    }
  }

  // ------------------------------------------------------- the parameters that count

  /** The names of the acceptable parameters before `n`. */
  ghost predicate NamesBefore(params: seq<Param>, n: nat, seen: set<string>)
    requires n <= |params|
  {
    && (forall i :: 0 <= i < n && Acceptable(params[i]) ==> params[i].name in seen)
    && (forall name :: name in seen ==> exists i :: 0 <= i < n && Acceptable(params[i]) && params[i].name == name)
  }

  lemma FirstIffNew(params: seq<Param>, n: nat, seen: set<string>)
    requires n < |params| && NamesBefore(params, n, seen)
    ensures IsFirst(params, n) <==> Accepted(params[n], seen)
    ensures NamesBefore(params, n + 1, if Accepted(params[n], seen) then seen + {params[n].name} else seen)
  {
    if Acceptable(params[n]) && params[n].name in seen {
      var i :| 0 <= i < n && Acceptable(params[i]) && params[i].name == params[n].name;
    }
    var next := if Accepted(params[n], seen) then seen + {params[n].name} else seen;
    forall name | name in next
      ensures exists i :: 0 <= i < n + 1 && Acceptable(params[i]) && params[i].name == name
    {
      if name in seen {
        var i :| 0 <= i < n && Acceptable(params[i]) && params[i].name == name;
      } else {
        assert params[n].name == name;
      }
    }
  }

  lemma SelectNext(params: seq<Param>, n: nat, seen: set<string>)
    requires n < |params|
    ensures var p := params[n];
            Select(params[n..], seen) ==
              if Accepted(p, seen) then [p] + Select(params[n + 1..], seen + {p.name})
              else Select(params[n + 1..], seen)
  {
    assert params[n..][0] == params[n] && params[n..][1..] == params[n + 1..];
  }

  lemma KeptFirst(a: seq<Param>, p: Param, b: seq<Param>)
    ensures a + [p] + b == a + ([p] + b) && a + [] == a
  {}

  lemma {:induction false} SelectFrom(params: seq<Param>, n: nat, seen: set<string>)
    requires n <= |params| && NamesBefore(params, n, seen)
    ensures Firsts(params, |params|) == Firsts(params, n) + Select(params[n..], seen)
    decreases |params| - n
  {
    if n < |params| {
      var next := if Accepted(params[n], seen) then seen + {params[n].name} else seen;
      FirstIffNew(params, n, seen);
      SelectNext(params, n, seen);
      hide NamesBefore, IsFirst, Select, Accepted;
      SelectFrom(params, n + 1, next);
      KeptFirst(Firsts(params, n), params[n], Select(params[n + 1..], next));
    }
  }

  /** The first acceptable parameter of each name is kept, in the order they stand. */
  lemma SelectsFirsts(params: seq<Param>)
    ensures Select(params, {}) == Firsts(params, |params|)
  {
    SelectFrom(params, 0, {});
    assert params[0..] == params;
    assert Firsts(params, 0) + Select(params, {}) == Select(params, {});
  }

  // ------------------------------------------------------------- the whole text

  lemma {:induction false} TokenAvoids(s: string)
    requires TokenChars(s)
    ensures forall i :: 0 <= i < |s| ==> !IsSpace(s[i]) && s[i] != ';' && s[i] != '=' && s[i] != '/' && s[i] != '"'
  {
    if s != "" {
      TokenAvoids(s[1..]);
      assert forall i :: 1 <= i < |s| ==> s[i] == s[1..][i - 1];
    }
  }

  /** Spaces around a text that neither begins nor ends with one are dropped. */
  lemma TrimIs(before: string, body: string, after: string)
    requires Spaces(before) && Spaces(after) && body != "" && !IsSpace(body[0]) && !IsSpace(body[|body| - 1])
    ensures Trim(before + (body + after)) == body
  {
    var s := before + (body + after);
    assert s[0..] == s && (body + after)[0] == body[0];
    SkipAt(s, 0, before, body + after);
    assert s[|before|..|before| + |body| + |after|] == body + after;
    TrimAt(s, |before|, body, after);
  }

  lemma BodyParsed(w: Written)
    requires Spaces(w.gap) && IsToken(w.kind) && IsToken(w.subtype) && SoundSegments(w.segments)
    ensures ParseText(Body(w)) == Some(Means(w))
  {
    var s, shown := Body(w), WriteSegments(w.segments);
    var slash := |w.kind|;
    TokenAvoids(w.kind);
    TokenAvoids(w.subtype);
    SegmentsStart(w.segments);
    assert s[0..] == s;
    UntilAt(s, 0, w.kind, "/" + (w.subtype + (w.gap + shown)), {'/'});
    Tail(s, 0, w.kind, "/" + (w.subtype + (w.gap + shown)));
    TailFirst(s, slash, "/", w.subtype + (w.gap + shown));
    assert "" + (w.subtype + (w.gap + shown)) == w.subtype + (w.gap + shown);
    assert s[..slash] == s[0..slash];
    RestParsed(w, s, slash);
  }

  lemma TextIs(s: string, slash: nat, end: nat, stop: nat, params: seq<Param>)
    requires 0 < slash < |s| && slash == Until(s, 0, {'/'}) && end == Until(s, slash + 1, {';'})
    requires stop == TrimEnd(s, slash + 1, end) && params == RawParams(s, end)
    ensures ParseText(s) == MakeType(s[..slash], s[slash + 1..stop], params)
  {}

  lemma RestParsed(w: Written, s: string, slash: nat)
    requires Spaces(w.gap) && IsToken(w.kind) && IsToken(w.subtype) && SoundSegments(w.segments)
    requires 0 < slash < |s| && Until(s, 0, {'/'}) == slash && s[..slash] == w.kind
    requires s[slash + 1..] == w.subtype + (w.gap + WriteSegments(w.segments))
    requires Without(w.subtype, {';'}) && !IsSpace(w.subtype[|w.subtype| - 1])
    requires WriteSegments(w.segments) != "" ==> WriteSegments(w.segments)[0] == ';'
    ensures ParseText(s) == Some(Means(w))
  {
    hide IsToken, SoundSegments, WriteSegments, SegmentsMean, Until, TrimEnd, RawParams, Select, ParseText, Firsts;
    var shown := WriteSegments(w.segments);
    var end := slash + 1 + |w.subtype| + |w.gap|;
    SubtypeAt(s, slash + 1, w.subtype, w.gap, shown);
    SegmentsAt(s, end, w.segments);
    SelectsFirsts(SegmentsMean(w.segments));
    TextIs(s, slash, end, slash + 1 + |w.subtype|, SegmentsMean(w.segments));
  }

  lemma SubtypeAt(s: string, i: nat, subtype: string, gap: string, shown: string)
    requires i <= |s| && s[i..] == subtype + (gap + shown) && Spaces(gap) && Without(subtype, {';'})
    requires (subtype != "" ==> !IsSpace(subtype[|subtype| - 1])) && (shown != "" ==> shown[0] == ';')
    ensures var end := i + |subtype| + |gap|;
            && end <= |s| && Until(s, i, {';'}) == end && TrimEnd(s, i, end) == i + |subtype|
            && s[i..i + |subtype|] == subtype && s[end..] == shown
  {
    Assoc(subtype, gap, shown);
    Tail(s, i, subtype + gap, shown);
    Tail(s, i, subtype, gap + shown);
    assert Without(subtype + gap, {';'});
    UntilAt(s, i, subtype + gap, shown, {';'});
    TrimAt(s, i, subtype, gap);
  }

  lemma BodyStarts(w: Written)
    requires IsToken(w.kind)
    ensures Body(w) != "" && !IsSpace(Body(w)[0])
  {
    TokenAvoids(w.kind);
    assert Body(w)[0] == w.kind[0];
  }

  /** However a type is written, it is parsed to what it is written to mean. */
  lemma ParseWritten(w: Written)
    requires Sound(w)
    ensures Parse(Text(w)) == Some(Means(w))
  {
    BodyStarts(w);
    TrimIs(w.before, Body(w), w.after);
    BodyParsed(w);
  }

  // ------------------------------------------------- every text is written somehow

  lemma {:induction false} SkipTo(s: string, i: nat)
    requires i <= |s|
    ensures var n := SkipSpaces(s, i); (forall k :: i <= k < n ==> IsSpace(s[k])) && (n < |s| ==> !IsSpace(s[n]))
    decreases |s| - i
  {
    if i < |s| && IsSpace(s[i]) {
      SkipTo(s, i + 1);
    }
  }

  lemma {:induction false} UntilTo(s: string, i: nat, stops: set<char>)
    requires i <= |s|
    ensures var n := Until(s, i, stops); (forall k :: i <= k < n ==> s[k] !in stops) && (n < |s| ==> s[n] in stops)
    decreases |s| - i
  {
    if i < |s| && s[i] !in stops {
      UntilTo(s, i + 1, stops);
    }
  }

  lemma {:induction false} TrimTo(s: string, lo: nat, hi: nat)
    requires lo <= hi <= |s|
    ensures var n := TrimEnd(s, lo, hi); (forall k :: n <= k < hi ==> IsSpace(s[k])) && (lo < n ==> !IsSpace(s[n - 1]))
    decreases hi
  {
    if lo < hi && IsSpace(s[hi - 1]) {
      TrimTo(s, lo, hi - 1);
    }
  }

  lemma ItemsCons(x: Item, items: seq<Item>, more: string)
    ensures Inner([x] + items) + more == WriteItem(x) + (Inner(items) + more)
    ensures Quotables(items) && (x.Lit? ==> x.c != '"' && x.c != '\\') ==> Quotables([x] + items)
  {
    assert ([x] + items)[1..] == items;
    Assoc(WriteItem(x), Inner(items), more);
  }

  lemma {:induction false} ItemsOf(t: string) returns (items: seq<Item>, more: string)
    ensures Quotables(items) && QuoteEnds(more) && t == Inner(items) + more
    decreases |t|
  {
    if QuoteEnds(t) {
      items, more := [], t;
      assert "" + t == t;
    } else {
      var x := if t[0] == '\\' then Esc(t[1]) else Lit(t[0]);
      var n := |WriteItem(x)|;
      items, more := ItemsOf(t[n..]);
      assert t == WriteItem(x) + t[n..];
      ItemsCons(x, items, more);
      items := [x] + items;
    }
  }

  lemma QuotedOf(t: string) returns (v: Value, rest: string)
    requires t != "" && t[0] == '"'
    ensures SoundValue(v) && (rest != "" ==> rest[0] == ';' && !v.Unclosed?) && t == WriteValue(v) + rest
  {
    var items, more := ItemsOf(t[1..]);
    assert t == "\"" + t[1..];
    hide Inner, Quotables;
    if more == "" || more == "\\" {
      v, rest := Unclosed(items, more != ""), "";
      assert WriteValue(v) + "" == WriteValue(v);
    } else {
      var k := Until(more, 1, {';'});
      UntilTo(more, 1, {';'});
      v, rest := InQuotes(items, more[1..k]), more[k..];
      assert more == ("\"" + more[1..k]) + rest;
      Assoc("\"", Inner(items) + ("\"" + v.after), rest);
      Assoc(Inner(items), "\"" + v.after, rest);
    }
  }

  lemma BareSlices(t: string, n: nat, k: nat)
    requires n <= k <= |t| && (t != "" ==> t[0] != '"') && (forall j :: 0 <= j < k ==> t[j] != ';')
    requires (forall j :: n <= j < k ==> IsSpace(t[j])) && (0 < n ==> !IsSpace(t[n - 1]))
    ensures SoundValue(Bare(t[..n], t[n..k])) && t == (t[..n] + t[n..k]) + t[k..]
  {
    assert t[..n] + t[n..k] == t[..k];
  }

  lemma BareOf(t: string) returns (v: Value, rest: string)
    requires t != "" ==> t[0] != '"'
    ensures SoundValue(v) && (rest != "" ==> rest[0] == ';' && !v.Unclosed?) && t == WriteValue(v) + rest
  {
    var k := Until(t, 0, {';'});
    var n := TrimEnd(t, 0, k);
    UntilTo(t, 0, {';'});
    TrimTo(t, 0, k);
    hide Until, TrimEnd, SoundValue;
    v, rest := Bare(t[..n], t[n..k]), t[k..];
    BareSlices(t, n, k);
  }

  lemma NameFrom(t: string, from: nat, stop: nat) returns (pad: string, name: string, more: string)
    requires from <= stop <= |t| && (forall k :: 0 <= k < from ==> IsSpace(t[k])) && (from < |t| ==> !IsSpace(t[from]))
    requires forall k :: from <= k < stop ==> t[k] != ';' && t[k] != '='
    requires stop < |t| ==> t[stop] == ';' || t[stop] == '='
    ensures t == pad + (name + more) && Spaces(pad) && Without(name, {';', '='})
    ensures (name != "" ==> !IsSpace(name[0])) && (more != "" ==> more[0] == ';' || more[0] == '=')
  {
    pad, name, more := t[..from], t[from..stop], t[stop..];
    ThreeSlices(t, from, stop);
  }

  lemma NameOf(t: string) returns (pad: string, name: string, more: string)
    ensures t == pad + (name + more) && Spaces(pad) && Without(name, {';', '='})
    ensures (name != "" ==> !IsSpace(name[0])) && (more != "" ==> more[0] == ';' || more[0] == '=')
  {
    SkipTo(t, 0);
    UntilTo(t, SkipSpaces(t, 0), {';', '='});
    pad, name, more := NameFrom(t, SkipSpaces(t, 0), Until(t, SkipSpaces(t, 0), {';', '='}));
  }

  lemma ValueOf(t: string) returns (v: Value, rest: string)
    ensures SoundValue(v) && (rest != "" ==> rest[0] == ';' && !v.Unclosed?) && t == WriteValue(v) + rest
  {
    hide WriteValue, SoundValue;
    if t != "" && t[0] == '"' {
      v, rest := QuotedOf(t);
    } else {
      v, rest := BareOf(t);
    }
  }

  lemma SegmentOf(t: string) returns (x: Segment, rest: string)
    ensures SoundSegment(x) && (rest != "" ==> rest[0] == ';' && !Ends(x)) && t == WriteSegment(x) + rest
  {
    hide WriteValue, SoundValue, Spaces, Without;
    var pad, name, more := NameOf(t);
    if more == "" || more[0] == ';' {
      x, rest := NoValue(pad, name), more;
      assert name + "" == name;
      Assoc(pad, name, rest);
    } else {
      var v;
      v, rest := ValueOf(more[1..]);
      x := Valued(pad, name, v);
      ValuedText(pad, name, more, WriteValue(v), rest);
    }
  }

  lemma ValuedText(pad: string, name: string, more: string, value: string, rest: string)
    requires more != "" && more[0] == '=' && more[1..] == value + rest
    ensures pad + (name + more) == (pad + (name + ("=" + value))) + rest
  {
    assert more == ("=" + value) + rest;
    Assoc(name, "=" + value, rest);
    Assoc(pad, name + ("=" + value), rest);
  }

  lemma {:induction false} SegmentsOf(t: string) returns (xs: seq<Segment>)
    requires t != "" ==> t[0] == ';'
    ensures SoundSegments(xs) && t == WriteSegments(xs)
    decreases |t|
  {
    if t == "" {
      xs := [];
    } else {
      var x, rest := SegmentOf(t[1..]);
      assert t == ";" + t[1..];
      var ys := SegmentsOf(rest);
      hide WriteSegment, SoundSegment, Ends;
      xs := [x] + ys;
      assert xs[1..] == ys;
    }
  }

  /** The text is a type: a "/" behind a token, then another, and spaces up to a ";" or the end. */
  ghost predicate Splits(t: string, kind: string, subtype: string, gap: string, rest: string) {
    && t == kind + ("/" + (subtype + (gap + rest))) && IsToken(kind) && IsToken(subtype)
    && Spaces(gap) && (rest != "" ==> rest[0] == ';')
  }

  ghost predicate IsTypeText(t: string) {
    exists kind, subtype, gap, rest :: Splits(t, kind, subtype, gap, rest)
  }

  lemma BodyOf(t: string) returns (w: Written)
    requires IsTypeText(t)
    ensures w.before == w.after == "" && Body(w) == t
    ensures Spaces(w.gap) && IsToken(w.kind) && IsToken(w.subtype) && SoundSegments(w.segments)
  {
    var kind, subtype, gap, rest :| Splits(t, kind, subtype, gap, rest);
    var xs := SegmentsOf(rest);
    w := Written("", kind, subtype, gap, xs, "");
  }

  lemma Slices(t: string, slash: nat, stop: nat, end: nat)
    requires slash < |t| && t[slash] == '/' && slash + 1 <= stop <= end <= |t|
    ensures t == t[..slash] + ("/" + (t[slash + 1..stop] + (t[stop..end] + t[end..])))
  {
    assert t[stop..end] + t[end..] == t[stop..];
    assert t[slash + 1..stop] + t[stop..] == t[slash + 1..];
    assert "/" + t[slash + 1..] == t[slash..];
  }

  /** Where the parts of a parsed text end. */
  ghost predicate Parts(t: string, slash: nat, stop: nat, end: nat) {
    && slash < |t| && t[slash] == '/' && slash + 1 <= stop <= end <= |t|
    && IsToken(t[..slash]) && IsToken(t[slash + 1..stop])
    && (forall k :: stop <= k < end ==> IsSpace(t[k])) && (end < |t| ==> t[end] == ';')
  }

  lemma PartsSplit(t: string, slash: nat, stop: nat, end: nat)
    requires Parts(t, slash, stop, end)
    ensures IsTypeText(t)
  {
    hide IsToken;
    Slices(t, slash, stop, end);
    assert t[end..] != "" ==> t[end..][0] == t[end];
    assert Splits(t, t[..slash], t[slash + 1..stop], t[stop..end], t[end..]);
  }

  lemma ParsedTokens(t: string, slash: nat, end: nat, stop: nat)
    requires ParseText(t).Some? && slash == Until(t, 0, {'/'})
    requires slash < |t| && end == Until(t, slash + 1, {';'}) && stop == TrimEnd(t, slash + 1, end)
    ensures IsToken(t[..slash]) && IsToken(t[slash + 1..stop])
  {
    hide RawParams, Select, IsToken, Until, TrimEnd;
  }

  lemma ParsedSplits(t: string)
    requires ParseText(t).Some?
    ensures IsTypeText(t)
  {
    var slash := Until(t, 0, {'/'});
    assert slash < |t|;
    hide ParseText, IsToken, IsTypeText, Until, TrimEnd, Spaces, Without;
    var end := Until(t, slash + 1, {';'});
    var stop := TrimEnd(t, slash + 1, end);
    ParsedTokens(t, slash, end, stop);
    UntilTo(t, 0, {'/'});
    UntilTo(t, slash + 1, {';'});
    TrimTo(t, slash + 1, end);
    PartsSplit(t, slash, stop, end);
  }

  lemma ThreeSlices(s: string, a: nat, b: nat)
    requires a <= b <= |s|
    ensures s == s[..a] + (s[a..b] + s[b..])
  {
    assert s[a..b] + s[b..] == s[a..];
  }

  lemma TrimmedAt(s: string, start: nat, end: nat)
    requires start <= end <= |s| && (forall k :: 0 <= k < start ==> IsSpace(s[k]))
    requires (forall k :: end <= k < |s| ==> IsSpace(s[k])) && (start < end ==> !IsSpace(s[end - 1]))
    ensures Spaces(s[..start]) && Spaces(s[end..]) && s == s[..start] + (s[start..end] + s[end..])
    ensures var body := s[start..end]; body != "" ==> !IsSpace(body[|body| - 1])
  {
    ThreeSlices(s, start, end);
  }

  lemma Trimmed(s: string) returns (before: string, after: string)
    ensures Spaces(before) && Spaces(after) && s == before + (Trim(s) + after)
    ensures Trim(s) != "" ==> !IsSpace(Trim(s)[|Trim(s)| - 1])
  {
    var start := SkipSpaces(s, 0);
    var end := TrimEnd(s, start, |s|);
    SkipTo(s, 0);
    TrimTo(s, start, |s|);
    hide SkipSpaces, TrimEnd, Spaces;
    before, after := s[..start], s[end..];
    TrimmedAt(s, start, end);
  }

  /** Text parses exactly if, without the spaces around it, it is a type. */
  lemma ParsesExactlyIf(input: string)
    ensures Parse(input).Some? <==> IsTypeText(Trim(input))
  {
    if Parse(input).Some? {
      ParsedSplits(Trim(input));
    } else if IsTypeText(Trim(input)) {
      var w := BodyOf(Trim(input));
      BodyParsed(w);
    }
  }

  /** Whatever parses is written in some such way, so nothing about parsing is left open. */
  lemma EveryTypeIsWritten(input: string) returns (w: Written)
    requires Parse(input).Some?
    ensures Sound(w) && Text(w) == input
  {
    ParsedSplits(Trim(input));
    var before, after := Trimmed(input);
    var bare := BodyOf(Trim(input));
    w := bare.(before := before, after := after);
    BodyStarts(w);
  }

  // ------------------------------------------------------------ the printed form

  function EscapeItem(c: char): Item {
    if c == '"' || c == '\\' then Esc(c) else Lit(c)
  }

  function EscapeItems(s: string): (r: seq<Item>)
    ensures |r| == |s|
  {
    seq(|s|, i requires 0 <= i < |s| => EscapeItem(s[i]))
  }

  lemma {:induction false} EscapeIs(s: string)
    ensures Inner(EscapeItems(s)) == Escape(s) && Chars(EscapeItems(s)) == s && Quotables(EscapeItems(s))
  {
    if s != "" {
      EscapeIs(s[1..]);
      assert EscapeItems(s)[1..] == EscapeItems(s[1..]);
    }
  }

  function PrintedValue(value: string): Value {
    if IsToken(value) then Bare(value, "") else InQuotes(EscapeItems(value), "")
  }

  function PrintedSegments(params: seq<Param>): (r: seq<Segment>)
    ensures |r| == |params|
  {
    seq(|params|, i requires 0 <= i < |params| => Valued("", params[i].name, PrintedValue(params[i].value)))
  }

  lemma PrintedValueIs(value: string)
    ensures var v := PrintedValue(value);
            && SoundValue(v) && !v.Unclosed? && ValueMeans(v) == Some(value) && WriteValue(v) == Shown(value)
    ensures Shown(value) != "" && !IsSpace(Shown(value)[|Shown(value)| - 1])
  {
    if IsToken(value) {
      TokenAvoids(value);
      assert value + "" == value;
    } else {
      EscapeIs(value);
      assert "\"" + (Escape(value) + ("\"" + "")) == "\"" + Escape(value) + "\"";
    }
  }

  lemma PrintedSegmentIs(p: Param)
    requires IsLowerToken(p.name)
    ensures var x := Valued("", p.name, PrintedValue(p.value));
            SoundSegment(x) && !Ends(x) && SegmentMeans(x) == Some(p) && ";" + WriteSegment(x) == PrintParam(p)
    ensures PrintParam(p) != "" && !IsSpace(PrintParam(p)[|PrintParam(p)| - 1])
  {
    PrintedValueIs(p.value);
    TokenAvoids(p.name);
    var shown := Shown(p.value);
    hide Shown, PrintedValue;
    assert ";" + ("" + (p.name + ("=" + shown))) == ";" + p.name + "=" + shown;
  }

  lemma PrintedFirst(params: seq<Param>)
    requires params != []
    ensures var xs, x := PrintedSegments(params), Valued("", params[0].name, PrintedValue(params[0].value));
            && xs[0] == x && xs[1..] == PrintedSegments(params[1..])
            && WriteSegments(xs) == (";" + WriteSegment(x)) + WriteSegments(xs[1..])
            && SegmentsMean(xs) == OptionSeq(SegmentMeans(x)) + SegmentsMean(xs[1..])
  {
    var xs := PrintedSegments(params);
    SegmentsFirst(xs);
    hide PrintedValue, WriteSegment, SegmentMeans, WriteSegments, SegmentsMean;
    Assoc(";", WriteSegment(xs[0]), WriteSegments(xs[1..]));
  }

  lemma {:induction false} PrintedSegmentsAre(params: seq<Param>)
    requires forall i :: 0 <= i < |params| ==> IsLowerToken(params[i].name)
    ensures var xs := PrintedSegments(params);
            && (forall i :: 0 <= i < |xs| ==> SoundSegment(xs[i]) && !Ends(xs[i]))
            && WriteSegments(xs) == PrintParams(params) && SegmentsMean(xs) == params
    decreases |params|
  {
    if params != [] {
      var xs := PrintedSegments(params);
      PrintedFirst(params);
      PrintedSegmentIs(params[0]);
      PrintedSegmentsAre(params[1..]);
      hide PrintedValue, WriteSegment, PrintParam, SegmentMeans, SoundSegment, WriteSegments, SegmentsMean,
           IsLowerToken,
           PrintedSegments, Ends;
      assert params == [params[0]] + params[1..];
      forall i | 0 <= i < |xs|
        ensures SoundSegment(xs[i]) && !Ends(xs[i])
      {
        if i > 0 {
          assert xs[i] == xs[1..][i - 1];
        }
      }
    }
  }

  lemma {:induction false} PrintedEnds(params: seq<Param>)
    requires params != [] && forall i :: 0 <= i < |params| ==> IsLowerToken(params[i].name)
    ensures PrintParams(params) != "" && !IsSpace(PrintParams(params)[|PrintParams(params)| - 1])
    decreases |params|
  {
    PrintedSegmentIs(params[0]);
    var p, rest := PrintParam(params[0]), PrintParams(params[1..]);
    hide PrintParam, IsLowerToken;
    if |params| == 1 {
      assert p + rest == p;
    } else {
      PrintedEnds(params[1..]);
      assert (p + rest)[|p + rest| - 1] == rest[|rest| - 1];
    }
  }

  lemma {:induction false} SelectKeeps(params: seq<Param>, seen: set<string>)
    requires WellFormedParams(params)
    requires forall i :: 0 <= i < |params| ==> params[i].name !in seen
    ensures Select(params, seen) == params
    decreases |params|
  {
    if params != [] {
      SelectKeeps(params[1..], seen + {params[0].name});
      assert params == [params[0]] + params[1..];
    }
  }

  function Printed(m: MimeType): Written {
    Written("", m.kind, m.subtype, "", PrintedSegments(m.params), "")
  }

  lemma PrintedMeans(m: MimeType)
    requires WellFormed(m)
    ensures Means(Printed(m)) == m
  {
    PrintedSegmentsAre(m.params);
    SelectKeeps(m.params, {});
    SelectsFirsts(m.params);
    hide Firsts, Select, PrintedSegments, SegmentsMean;
  }

  lemma PrintedSegmentsSound(params: seq<Param>)
    requires forall i :: 0 <= i < |params| ==> IsLowerToken(params[i].name)
    ensures SoundSegments(PrintedSegments(params)) && WriteSegments(PrintedSegments(params)) == PrintParams(params)
  {
    PrintedSegmentsAre(params);
    hide SoundSegment, Ends, WriteSegments, PrintParams, PrintedSegments, IsLowerToken;
  }

  lemma PrintedLast(subtype: string, params: seq<Param>)
    requires IsToken(subtype) && forall i :: 0 <= i < |params| ==> IsLowerToken(params[i].name)
    ensures var shown := PrintParams(params);
            !IsSpace(if shown == "" then subtype[|subtype| - 1] else shown[|shown| - 1])
  {
    hide IsLowerToken, PrintParam;
    TokenAvoids(subtype);
    if params != [] {
      PrintedEnds(params);
    }
  }

  lemma PrintedSound(m: MimeType)
    requires WellFormed(m)
    ensures Sound(Printed(m)) && Text(Printed(m)) == Print(m)
  {
    assert IsToken(m.kind) && IsToken(m.subtype) && m.subtype != "";
    hide PrintParams, WriteSegments, PrintedSegments, IsToken, IsLowerToken, SoundSegments, Sound, Text, DistinctNames;
    PrintedSegmentsSound(m.params);
    PrintedLast(m.subtype, m.params);
    UndressedSound(Printed(m), PrintParams(m.params));
  }

  /** A type written without anything to look past. */
  lemma UndressedSound(w: Written, shown: string)
    requires w.before == w.gap == w.after == "" && WriteSegments(w.segments) == shown && w.subtype != ""
    requires IsToken(w.kind) && IsToken(w.subtype) && SoundSegments(w.segments)
    requires !IsSpace(if shown == "" then w.subtype[|w.subtype| - 1] else shown[|shown| - 1])
    ensures Sound(w) && Text(w) == w.kind + "/" + w.subtype + shown
  {
    hide WriteSegments, IsToken, SoundSegments;
    var body := w.kind + "/" + w.subtype + shown;
    assert Body(w) == body by {
      assert w.kind + ("/" + (w.subtype + ("" + shown))) == body;
    }
    hide Body;
    assert "" + (body + "") == body;
    assert body[|body| - 1] == if shown == "" then w.subtype[|w.subtype| - 1] else shown[|shown| - 1];
  }

  /** Parsing the printed form of a well-formed MIME type gives it back. */
  lemma ParsePrint(m: MimeType)
    requires WellFormed(m)
    ensures Parse(Print(m)) == Some(m)
  {
    PrintedSound(m);
    PrintedMeans(m);
    ParseWritten(Printed(m));
  }

  // ------------------------------------------- what parsing gives is well-formed

  lemma {:induction false} LowerTokenChars(s: string)
    requires TokenChars(s)
    ensures TokenChars(Lower(s))
  {
    if s != "" {
      LowerTokenChars(s[1..]);
      assert Lower(s)[1..] == Lower(s[1..]);
    }
  }

  lemma LowerTwice(s: string)
    ensures Lower(Lower(s)) == Lower(s)
  {}

  lemma LowerToken(s: string)
    requires IsToken(s)
    ensures IsLowerToken(Lower(s))
  {
    LowerTokenChars(s);
    LowerTwice(s);
  }

  lemma ParsedNameLower(s: string, i: nat)
    requires i <= |s|
    ensures Lower(ParseName(s, i).0) == ParseName(s, i).0
  {
    var start := SkipSpaces(s, i);
    LowerTwice(s[start..Until(s, start, {';', '='})]);
  }

  lemma ParamName(s: string, i: nat)
    requires i <= |s|
    ensures var p := ParseParam(s, i).0; p.Some? ==> Lower(p.value.name) == p.value.name
  {
    ParsedNameLower(s, i);
  }

  predicate LowerNames(params: seq<Param>) {
    params == [] || (Lower(params[0].name) == params[0].name && LowerNames(params[1..]))
  }

  lemma LowerNamesFirst(p: Option<Param>, rest: seq<Param>)
    requires (p.Some? ==> Lower(p.value.name) == p.value.name) && LowerNames(rest)
    ensures LowerNames(OptionSeq(p) + rest)
  {
    var all := OptionSeq(p) + rest;
    if p.None? {
      assert all == rest;
    } else {
      assert all[0] == p.value && all[1..] == rest;
    }
  }

  lemma {:induction false} RawNamesLower(s: string, i: nat)
    requires i <= |s|
    ensures LowerNames(RawParams(s, i))
    decreases |s| - i
  {
    if i < |s| {
      var (p, end) := ParseParam(s, i + 1);
      ParamName(s, i + 1);
      RawNamesLower(s, end);
      LowerNamesFirst(p, RawParams(s, end));
    }
  }

  lemma {:induction false} LowerNameOf(params: seq<Param>, p: Param)
    requires LowerNames(params) && p in params
    ensures Lower(p.name) == p.name
  {
    if p != params[0] {
      LowerNameOf(params[1..], p);
    }
  }

  lemma {:induction false} SelectedAt(params: seq<Param>, seen: set<string>, i: nat)
    requires i < |Select(params, seen)|
    ensures var p := Select(params, seen)[i]; Accepted(p, seen) && p in params
    decreases |params|
  {
    if !Accepted(params[0], seen) {
      SelectedAt(params[1..], seen, i);
    } else if i > 0 {
      SelectedAt(params[1..], seen + {params[0].name}, i - 1);
    }
  }

  lemma {:induction false} SelectedDiffer(params: seq<Param>, seen: set<string>, i: nat, j: nat)
    requires i < j < |Select(params, seen)|
    ensures Select(params, seen)[i].name != Select(params, seen)[j].name
    decreases |params|
  {
    if !Accepted(params[0], seen) {
      SelectedDiffer(params[1..], seen, i, j);
    } else if i > 0 {
      SelectedDiffer(params[1..], seen + {params[0].name}, i - 1, j - 1);
    } else {
      SelectedAt(params[1..], seen + {params[0].name}, j - 1);
    }
  }

  lemma SelectedWellFormed(params: seq<Param>)
    requires LowerNames(params)
    ensures WellFormedParams(Select(params, {}))
  {
    var selected := Select(params, {});
    forall i | 0 <= i < |selected|
      ensures IsLowerToken(selected[i].name) && IsQuotable(selected[i].value)
    {
      SelectedAt(params, {}, i);
      LowerNameOf(params, selected[i]);
    }
    forall i, j | 0 <= i < j < |selected|
      ensures selected[i].name != selected[j].name
    {
      SelectedDiffer(params, {}, i, j);
    }
  }

  lemma MadeWellFormed(kind: string, subtype: string, params: seq<Param>)
    requires LowerNames(params)
    ensures MakeType(kind, subtype, params).Some? ==> WellFormed(MakeType(kind, subtype, params).value)
  {
    if IsToken(kind) && IsToken(subtype) {
      LowerToken(kind);
      LowerToken(subtype);
      SelectedWellFormed(params);
    }
  }

  /** Whatever parses is well-formed: lower-case tokens, distinct names, quotable values. */
  lemma ParsedWellFormed(s: string)
    ensures ParseText(s).Some? ==> WellFormed(ParseText(s).value)
  {
    var slash := Until(s, 0, {'/'});
    if 0 < slash < |s| {
      var end := Until(s, slash + 1, {';'});
      RawNamesLower(s, end);
      MadeWellFormed(s[..slash], s[slash + 1..TrimEnd(s, slash + 1, end)], RawParams(s, end));
    }
  }

  /** Serializing is idempotent wherever it gives a result, and its result parses to the same
      MIME type. */
  lemma SerializeIdempotent(input: string)
    requires Serialize(input).Some?
    ensures Serialize(Serialize(input).value) == Serialize(input)
    ensures Parse(Serialize(input).value) == Parse(input)
  {
    ParsedWellFormed(Trim(input));
    ParsePrint(Parse(input).value);
  }
}
