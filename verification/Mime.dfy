/** MIME types as section 4.4 (parsing) and section 4.5 (serializing) of the MIME Sniffing
    Standard give them. */
module Mime {
  import opened Base

  // --------------------------------------------------------------- characters

  predicate IsSpace(c: char) {
    c == '\t' || c == '\n' || c == '\r' || c == ' '
  }

  predicate IsTokenChar(c: char) {
    || 'a' <= c <= 'z' || 'A' <= c <= 'Z' || '0' <= c <= '9'
    || c == '!' || '#' <= c <= '\'' || c == '*' || c == '+' || c == '-' || c == '.'
    || '^' <= c <= '`' || c == '|' || c == '~'
  }

  predicate TokenChars(s: string) {
    s == "" || (IsTokenChar(s[0]) && TokenChars(s[1..]))
  }

  predicate IsToken(s: string) {
    s != "" && TokenChars(s)
  }

  /** What may stand between quotes. */
  predicate IsQuotable(s: string) {
    s == "" || ((s[0] == '\t' || ' ' <= s[0] <= '~' || '\U{80}' <= s[0] <= '\U{ff}') && IsQuotable(s[1..]))
  }

  /** Lower case.  Of the letters outside ASCII only the Kelvin sign has an ASCII lower case;
      what the others become is no token either way. */
  function LowerChar(c: char): char {
    if 'A' <= c <= 'Z' then (c as int + 32) as char
    else if c == '\U{212A}' then 'k'
    else c
  }

  function Lower(s: string): (r: string)
    ensures |r| == |s|
  {
    seq(|s|, i requires 0 <= i < |s| => LowerChar(s[i]))
  }

  // ----------------------------------------------------------------- scanning

  /** The first position from `i` on that holds one of `stops`. */
  function Until(s: string, i: nat, stops: set<char>): (n: nat)
    requires i <= |s|
    ensures i <= n <= |s|
    decreases |s| - i
  {
    if i == |s| || s[i] in stops then i else Until(s, i + 1, stops)
  }

  /** The first position from `i` on that holds no space. */
  function SkipSpaces(s: string, i: nat): (n: nat)
    requires i <= |s|
    ensures i <= n <= |s|
    decreases |s| - i
  {
    if i == |s| || !IsSpace(s[i]) then i else SkipSpaces(s, i + 1)
  }

  /** Where s[lo..hi] ends without the spaces at its end. */
  function TrimEnd(s: string, lo: nat, hi: nat): (n: nat)
    requires lo <= hi <= |s|
    ensures lo <= n <= hi
    decreases hi
  {
    if lo < hi && IsSpace(s[hi - 1]) then TrimEnd(s, lo, hi - 1) else hi
  }

  /** The text of a quoted value from `i` to its closing quote, and where that ends. */
  function Quoted(s: string, i: nat): (r: (string, nat))
    requires i <= |s|
    ensures i <= r.1 <= |s|
    decreases |s| - i
  {
    if i == |s| then ("", i)
    else if s[i] == '"' then ("", i + 1)
    else if s[i] == '\\' && i + 1 == |s| then ("\\", i + 1)
    else
      var at := if s[i] == '\\' then i + 1 else i;
      var (rest, end) := Quoted(s, at + 1);
      ([s[at]] + rest, end)
  }

  // ------------------------------------------------------------------ parsing

  datatype Param = Param(name: string, value: string)

  datatype MimeType = MimeType(kind: string, subtype: string, params: seq<Param>)

  /** A parameter's name, and where it ends. */
  function ParseName(s: string, i: nat): (r: (string, nat))
    requires i <= |s|
    ensures i <= r.1 <= |s|
  {
    var start := SkipSpaces(s, i);
    var stop := Until(s, start, {';', '='});
    (Lower(s[start..stop]), stop)
  }

  /** A parameter's value, unless it is empty, and where it ends. */
  function ParseValue(s: string, i: nat): (r: (Option<string>, nat))
    requires i <= |s|
    ensures i <= r.1 <= |s|
  {
    if i < |s| && s[i] == '"' then
      var (value, end) := Quoted(s, i + 1);
      (Some(value), Until(s, end, {';'}))
    else
      var end := Until(s, i, {';'});
      var stop := TrimEnd(s, i, end);
      (if stop == i then None else Some(s[i..stop]), end)
  }

  /** One parameter from behind its ";": the name and the value unless there is none, and
      where it ends. */
  function ParseParam(s: string, i: nat): (r: (Option<Param>, nat))
    requires i <= |s|
    ensures i <= r.1 <= |s|
  {
    var (name, stop) := ParseName(s, i);
    if stop == |s| || s[stop] == ';' then (None, stop)
    else
      var (value, end) := ParseValue(s, stop + 1);
      (if value.None? then None else Some(Param(name, value.value)), end)
  }

  /** Every parameter from `i` on, where there is a ";" or the end. */
  function RawParams(s: string, i: nat): seq<Param>
    requires i <= |s|
    decreases |s| - i
  {
    if i == |s| then []
    else
      var (p, end) := ParseParam(s, i + 1);
      OptionSeq(p) + RawParams(s, end)
  }

  predicate Accepted(p: Param, seen: set<string>) {
    IsToken(p.name) && IsQuotable(p.value) && p.name !in seen
  }

  /** The parameters that count: the first of each name, if its name and value will do. */
  function Select(params: seq<Param>, seen: set<string>): seq<Param> {
    if params == [] then []
    else if Accepted(params[0], seen) then [params[0]] + Select(params[1..], seen + {params[0].name})
    else Select(params[1..], seen)
  }

  function MakeType(kind: string, subtype: string, params: seq<Param>): Option<MimeType> {
    if !IsToken(kind) || !IsToken(subtype) then None
    else Some(MimeType(Lower(kind), Lower(subtype), Select(params, {})))
  }

  function ParseText(s: string): Option<MimeType> {
    var slash := Until(s, 0, {'/'});
    if slash == 0 || slash == |s| then None
    else
      var end := Until(s, slash + 1, {';'});
      MakeType(s[..slash], s[slash + 1..TrimEnd(s, slash + 1, end)], RawParams(s, end))
  }

  function Trim(s: string): string {
    var start := SkipSpaces(s, 0);
    s[start..TrimEnd(s, start, |s|)]
  }

  function Parse(input: string): Option<MimeType> {
    ParseText(Trim(input))
  }

  // ----------------------------------------------------------------- printing

  /** Quotes and backslashes get a backslash. */
  function Escape(s: string): string {
    if s == "" then ""
    else (if s[0] == '"' || s[0] == '\\' then ['\\', s[0]] else [s[0]]) + Escape(s[1..])
  }

  function Shown(value: string): string {
    if IsToken(value) then value else "\"" + Escape(value) + "\""
  }

  function PrintParam(p: Param): string {
    ";" + p.name + "=" + Shown(p.value)
  }

  function PrintParams(params: seq<Param>): string {
    if params == [] then "" else PrintParam(params[0]) + PrintParams(params[1..])
  }

  function Print(m: MimeType): string {
    m.kind + "/" + m.subtype + PrintParams(m.params)
  }

  function Serialize(input: string): Option<string> {
    match Parse(input)
    case None => None
    case Some(m) => Some(Print(m))
  }

  // -------------------------------------------------------------- well-formed

  ghost predicate IsLowerToken(s: string) {
    IsToken(s) && Lower(s) == s
  }

  ghost predicate DistinctNames(params: seq<Param>) {
    forall i, j :: 0 <= i < j < |params| ==> params[i].name != params[j].name
  }

  ghost predicate WellFormedParams(params: seq<Param>) {
    && (forall i :: 0 <= i < |params| ==> IsLowerToken(params[i].name) && IsQuotable(params[i].value))
    && DistinctNames(params)
  }

  ghost predicate WellFormed(m: MimeType) {
    IsLowerToken(m.kind) && IsLowerToken(m.subtype) && WellFormedParams(m.params)
  }
}
