/** What a MIME type may be written as, and what that means.  Nothing here scans text: a written
    type is put together from its parts, with everything a reader has to look past. */
module MimeForms {
  import opened Base
  import opened Mime

  ghost predicate Spaces(s: string) {
    forall i :: 0 <= i < |s| ==> IsSpace(s[i])
  }

  ghost predicate Without(s: string, stops: set<char>) {
    forall i :: 0 <= i < |s| ==> s[i] !in stops
  }

  /** A character between quotes: as it is, or behind a backslash. */
  datatype Item = Lit(c: char) | Esc(c: char)

  function WriteItem(x: Item): string {
    if x.Esc? then ['\\', x.c] else [x.c]
  }

  function Inner(items: seq<Item>): string {
    if items == [] then "" else WriteItem(items[0]) + Inner(items[1..])
  }

  function Chars(items: seq<Item>): (r: string)
    ensures |r| == |items|
  {
    seq(|items|, i requires 0 <= i < |items| => items[i].c)
  }

  ghost predicate Quotables(items: seq<Item>) {
    forall i :: 0 <= i < |items| && items[i].Lit? ==> items[i].c != '"' && items[i].c != '\\'
  }

  /** A value: bare, with spaces behind it; in quotes, with anything up to the next ";" behind
      them; or in quotes that are never closed, at the end of the text. */
  datatype Value = Bare(text: string, gap: string)
                 | InQuotes(items: seq<Item>, after: string)
                 | Unclosed(items: seq<Item>, backslash: bool)

  function WriteValue(v: Value): string {
    match v
    case Bare(text, gap) => text + gap
    case InQuotes(items, after) => "\"" + (Inner(items) + ("\"" + after))
    case Unclosed(items, backslash) => "\"" + (Inner(items) + if backslash then "\\" else "")
  }

  ghost predicate SoundValue(v: Value) {
    match v
    case Bare(text, gap) =>
      && Spaces(gap) && Without(text, {';'})
      && (text != "" ==> text[0] != '"' && !IsSpace(text[|text| - 1]))
    case InQuotes(items, after) => Quotables(items) && Without(after, {';'})
    case Unclosed(items, _) => Quotables(items)
  }

  /** An empty bare value does not count. */
  function ValueMeans(v: Value): Option<string> {
    match v
    case Bare(text, _) => if text == "" then None else Some(text)
    case InQuotes(items, _) => Some(Chars(items))
    case Unclosed(items, backslash) => Some(Chars(items) + if backslash then "\\" else "")
  }

  /** What stands between two ";": a name, perhaps with a value. */
  datatype Segment = NoValue(pad: string, name: string) | Valued(pad: string, name: string, value: Value)

  function WriteSegment(x: Segment): string {
    x.pad + (x.name + if x.Valued? then "=" + WriteValue(x.value) else "")
  }

  ghost predicate SoundSegment(x: Segment) {
    && Spaces(x.pad) && Without(x.name, {';', '='}) && (x.name != "" ==> !IsSpace(x.name[0]))
    && (x.Valued? ==> SoundValue(x.value))
  }

  predicate Ends(x: Segment) {
    x.Valued? && x.value.Unclosed?
  }

  function SegmentMeans(x: Segment): Option<Param> {
    if x.Valued? && ValueMeans(x.value).Some? then Some(Param(Lower(x.name), ValueMeans(x.value).value)) else None
  }

  function WriteSegments(xs: seq<Segment>): string {
    if xs == [] then "" else ";" + (WriteSegment(xs[0]) + WriteSegments(xs[1..]))
  }

  /** Quotes that are not closed swallow the rest of the text. */
  ghost predicate SoundSegments(xs: seq<Segment>) {
    && (forall i :: 0 <= i < |xs| ==> SoundSegment(xs[i]))
    && (forall i :: 0 <= i < |xs| - 1 ==> !Ends(xs[i]))
  }

  function SegmentsMean(xs: seq<Segment>): seq<Param> {
    if xs == [] then [] else OptionSeq(SegmentMeans(xs[0])) + SegmentsMean(xs[1..])
  }

  // ------------------------------------------------------- the parameters that count

  predicate Acceptable(p: Param) {
    IsToken(p.name) && IsQuotable(p.value)
  }

  /** The first acceptable parameter of its name. */
  ghost predicate IsFirst(params: seq<Param>, i: nat)
    requires i < |params|
  {
    Acceptable(params[i]) && forall j :: 0 <= j < i && Acceptable(params[j]) ==> params[j].name != params[i].name
  }

  ghost function Firsts(params: seq<Param>, n: nat): seq<Param>
    requires n <= |params|
  {
    if n == 0 then []
    else Firsts(params, n - 1) + if IsFirst(params, n - 1) then [params[n - 1]] else []
  }

  // ---------------------------------------------------------------- a whole type

  datatype Written = Written(
    before: string, kind: string, subtype: string, gap: string, segments: seq<Segment>, after: string)

  function Body(w: Written): string {
    w.kind + ("/" + (w.subtype + (w.gap + WriteSegments(w.segments))))
  }

  function Text(w: Written): string {
    w.before + (Body(w) + w.after)
  }

  ghost predicate Sound(w: Written) {
    && Spaces(w.before) && Spaces(w.gap) && Spaces(w.after)
    && IsToken(w.kind) && IsToken(w.subtype) && SoundSegments(w.segments)
    && !IsSpace(Body(w)[|Body(w)| - 1])
  }

  ghost function Means(w: Written): MimeType {
    var params := SegmentsMean(w.segments);
    MimeType(Lower(w.kind), Lower(w.subtype), Firsts(params, |params|))
  }
}
