/** The object graphs structuredClone() works on, and what a clone of one is. */
module CloneSpec {
  import opened Base

  /** A value in a field: a primitive, something that cannot be cloned (a function or a
      symbol), or a reference to an object. */
  datatype Value = Primitive(code: int) | Function | Ref(id: nat)

  const UNDEFINED: Value := Primitive(0)

  /** An object.  `Opaque` is a Date, a RegExp or a Blob, copied as a whole. */
  datatype Object =
    | Opaque(data: int)
    | FileBlob
    | Buffer(bytes: seq<int>, detached: bool)
    | View(kind: int, buffer: nat, offset: nat, length: nat)
    | Map(entries: seq<(Value, Value)>)
    | Set(elements: seq<Value>)
    | Array(items: seq<Value>)
    | Plain(proto: int, props: seq<(string, Value)>)

  type Heap = map<nat, Object>

  /** The key and the value of each entry, in turn. */
  function Flatten(entries: seq<(Value, Value)>): (r: seq<Value>)
    ensures |r| == 2 * |entries|
  {
    seq(2 * |entries|, i requires 0 <= i < 2 * |entries| =>
      if i % 2 == 0 then entries[i / 2].0 else entries[i / 2].1)
  }

  function Values(props: seq<(string, Value)>): (r: seq<Value>)
    ensures |r| == |props|
  {
    seq(|props|, i requires 0 <= i < |props| => props[i].1)
  }

  /** What an object holds, in the order the clone visits it. */
  function Children(o: Object): seq<Value> {
    match o
    case Opaque(_) => []
    case FileBlob => []
    case Buffer(_, _) => []
    case View(_, buffer, _, _) => [Ref(buffer)]
    case Map(entries) => Flatten(entries)
    case Set(elements) => elements
    case Array(items) => items
    case Plain(_, props) => Values(props)
  }

  // ------------------------------------------------------- filling a fresh object

  /** map.set(): replaces the entry of an equal key, else appends. */
  function MapSet(entries: seq<(Value, Value)>, k: Value, v: Value): seq<(Value, Value)> {
    if entries == [] then [(k, v)]
    else if entries[0].0 == k then [(k, v)] + entries[1..]
    else [entries[0]] + MapSet(entries[1..], k, v)
  }

  function PropSet(props: seq<(string, Value)>, k: string, v: Value): seq<(string, Value)> {
    if props == [] then [(k, v)]
    else if props[0].0 == k then [(k, v)] + props[1..]
    else [props[0]] + PropSet(props[1..], k, v)
  }

  function SetAdd(elements: seq<Value>, v: Value): seq<Value> {
    if v in elements then elements else elements + [v]
  }

  function FillMap(images: seq<Value>): seq<(Value, Value)> {
    var n := |images|;
    if n < 2 then []
    else if n % 2 == 1 then FillMap(images[..n - 1])
    else MapSet(FillMap(images[..n - 2]), images[n - 2], images[n - 1])
  }

  function FillSet(images: seq<Value>): seq<Value> {
    var n := |images|;
    if n == 0 then [] else SetAdd(FillSet(images[..n - 1]), images[n - 1])
  }

  function FillProps(props: seq<(string, Value)>, images: seq<Value>): seq<(string, Value)>
    requires |images| <= |props|
  {
    var n := |images|;
    if n == 0 then [] else PropSet(FillProps(props, images[..n - 1]), props[n - 1].0, images[n - 1])
  }

  /** The clone of `o` after the first `images` of its children were cloned. */
  function Fill(o: Object, images: seq<Value>): Object
    requires |images| <= |Children(o)|
  {
    match o
    case Opaque(data) => Opaque(data)
    case FileBlob => FileBlob
    case Buffer(bytes, _) => Buffer(bytes, false)
    case View(kind, buffer, offset, length) =>
      View(kind, if images != [] && images[0].Ref? then images[0].id else buffer, offset, length)
    case Map(_) => Map(FillMap(images))
    case Set(_) => Set(FillSet(images))
    case Array(items) => Array(images + seq(|items| - |images|, i => UNDEFINED))
    case Plain(proto, props) => Plain(proto, FillProps(props, images))
  }

  // ----------------------------------------------------------- what a clone is

  type Memo = map<nat, nat>

  /** A value with its reference redirected. */
  function Image(memo: Memo, v: Value): Value {
    if v.Ref? && v.id in memo then Ref(memo[v.id]) else v
  }

  function Images(memo: Memo, vs: seq<Value>): (r: seq<Value>)
    ensures |r| == |vs|
  {
    seq(|vs|, i requires 0 <= i < |vs| => Image(memo, vs[i]))
  }

  /** The same object with every reference redirected: same kind, size, order and contents. */
  function Copy(memo: Memo, o: Object): Object {
    match o
    case Opaque(data) => Opaque(data)
    case FileBlob => FileBlob
    case Buffer(bytes, _) => Buffer(bytes, false)
    case View(kind, buffer, offset, length) =>
      View(kind, if buffer in memo then memo[buffer] else buffer, offset, length)
    case Map(entries) =>
      Map(seq(|entries|, i requires 0 <= i < |entries| => (Image(memo, entries[i].0), Image(memo, entries[i].1))))
    case Set(elements) => Set(Images(memo, elements))
    case Array(items) => Array(Images(memo, items))
    case Plain(proto, props) =>
      Plain(proto, seq(|props|, i requires 0 <= i < |props| => (props[i].0, Image(memo, props[i].1))))
  }

  ghost predicate Injective(memo: Memo) {
    forall a, b :: a in memo && b in memo && memo[a] == memo[b] ==> a == b
  }

  /** Every reference among the values has an image. */
  ghost predicate Mapped(memo: Memo, vs: seq<Value>) {
    forall i :: 0 <= i < |vs| && vs[i].Ref? ==> vs[i].id in memo
  }

  ghost predicate DistinctKeys(entries: seq<(Value, Value)>) {
    forall i, j :: 0 <= i < j < |entries| ==> entries[i].0 != entries[j].0
  }

  /** Keys and members are distinct, as a Map, a Set and an object's own keys are. */
  ghost predicate Proper(o: Object) {
    match o
    case Map(entries) => DistinctKeys(entries)
    case Set(elements) => NoDuplicates(elements)
    case Plain(_, props) => forall i, j :: 0 <= i < j < |props| ==> props[i].0 != props[j].0
    case Opaque(_) => true
    case FileBlob => true
    case Buffer(_, _) => true
    case View(_, _, _, _) => true
    case Array(_) => true
  }

  // ------------------------------------------------ filling makes an exact copy

  lemma {:induction false} MapSetNew(entries: seq<(Value, Value)>, k: Value, v: Value)
    requires forall i :: 0 <= i < |entries| ==> entries[i].0 != k
    ensures MapSet(entries, k, v) == entries + [(k, v)]
  {
    if entries != [] {
      MapSetNew(entries[1..], k, v);
      assert entries == [entries[0]] + entries[1..];
    }
  }

  lemma {:induction false} PropSetNew(props: seq<(string, Value)>, k: string, v: Value)
    requires forall i :: 0 <= i < |props| ==> props[i].0 != k
    ensures PropSet(props, k, v) == props + [(k, v)]
  {
    if props != [] {
      PropSetNew(props[1..], k, v);
      assert props == [props[0]] + props[1..];
    }
  }

  lemma {:induction false} FillSetCopies(images: seq<Value>)
    requires NoDuplicates(images)
    ensures FillSet(images) == images
  {
    var n := |images|;
    if n > 0 {
      FillSetCopies(images[..n - 1]);
      assert images == images[..n - 1] + [images[n - 1]];
    }
  }

  lemma FlattenAt(entries: seq<(Value, Value)>, i: nat)
    requires i < |entries|
    ensures Flatten(entries)[2 * i] == entries[i].0 && Flatten(entries)[2 * i + 1] == entries[i].1
  {
    assert (2 * i) / 2 == i && (2 * i) % 2 == 0 && (2 * i + 1) / 2 == i && (2 * i + 1) % 2 == 1;
  }

  lemma FlattenInit(entries: seq<(Value, Value)>)
    requires entries != []
    ensures Flatten(entries)[..2 * |entries| - 2] == Flatten(entries[..|entries| - 1])
  {}

  lemma FillMapLast(images: seq<Value>, n: nat)
    requires |images| == 2 * n > 0
    ensures FillMap(images) == MapSet(FillMap(images[..2 * n - 2]), images[2 * n - 2], images[2 * n - 1])
  {
    assert |images| % 2 == 0;
  }

  lemma DistinctInit(entries: seq<(Value, Value)>)
    requires DistinctKeys(entries) && entries != []
    ensures DistinctKeys(entries[..|entries| - 1])
    ensures var before, k := entries[..|entries| - 1], entries[|entries| - 1].0;
            forall i :: 0 <= i < |before| ==> before[i].0 != k
  {}

  lemma {:induction false} FillMapCopies(entries: seq<(Value, Value)>, images: seq<Value>)
    requires DistinctKeys(entries) && images == Flatten(entries)
    ensures FillMap(images) == entries
    decreases |entries|
  {
    var n := |entries|;
    if n > 0 {
      var before, last := entries[..n - 1], entries[n - 1];
      hide FillMap, DistinctKeys;
      DistinctInit(entries);
      FlattenInit(entries);
      FillMapCopies(before, images[..2 * n - 2]);
      FlattenAt(entries, n - 1);
      assert entries == before + [last];
      FillMapNext(images, n, before, last);
    }
  }

  lemma FillMapNext(images: seq<Value>, n: nat, before: seq<(Value, Value)>, last: (Value, Value))
    requires |images| == 2 * n > 0 && FillMap(images[..2 * n - 2]) == before
    requires images[2 * n - 2] == last.0 && images[2 * n - 1] == last.1
    requires forall i :: 0 <= i < |before| ==> before[i].0 != last.0
    ensures FillMap(images) == before + [last]
  {
    FillMapLast(images, n);
    hide FillMap, MapSet;
    MapSetNew(before, last.0, last.1);
  }

  lemma {:induction false} FillPropsCopies(props: seq<(string, Value)>, images: seq<Value>)
    requires |images| <= |props|
    requires forall i, j :: 0 <= i < j < |props| ==> props[i].0 != props[j].0
    ensures FillProps(props, images) == seq(|images|, i requires 0 <= i < |images| => (props[i].0, images[i]))
    decreases |images|
  {
    var n := |images|;
    if n > 0 {
      FillPropsCopies(props, images[..n - 1]);
      PropSetNew(FillProps(props, images[..n - 1]), props[n - 1].0, images[n - 1]);
    }
  }

  /** A clone filled entry by entry is the exact copy: no two members fall together, because
      the memo never gives two objects one clone. */
  lemma FillCopies(memo: Memo, o: Object)
    requires Injective(memo) && Mapped(memo, Children(o)) && Proper(o)
    ensures Fill(o, Images(memo, Children(o))) == Copy(memo, o)
  {
    var images := Images(memo, Children(o));
    match o {
      case Map(entries) =>
        var copies := Copy(memo, o).entries;
        assert images == Flatten(copies);
        KeysStayDistinct(memo, entries);
        FillMapCopies(copies, images);
      case Set(elements) =>
        ElementsStayDistinct(memo, elements);
        FillSetCopies(images);
      case Plain(_, props) => FillPropsCopies(props, images);
      case View(_, buffer, _, _) => assert Children(o)[0] == Ref(buffer);
      case _ =>
    }
  }

  lemma KeysStayDistinct(memo: Memo, entries: seq<(Value, Value)>)
    requires Injective(memo) && Mapped(memo, Flatten(entries)) && Proper(Map(entries))
    ensures var copies := Copy(memo, Map(entries)).entries;
            DistinctKeys(copies)
  {
    forall i, j | 0 <= i < j < |entries|
      ensures Image(memo, entries[i].0) != Image(memo, entries[j].0)
    {
      assert Flatten(entries)[2 * i] == entries[i].0 && Flatten(entries)[2 * j] == entries[j].0;
    }
  }

  lemma ElementsStayDistinct(memo: Memo, elements: seq<Value>)
    requires Injective(memo) && Mapped(memo, elements) && NoDuplicates(elements)
    ensures NoDuplicates(Images(memo, elements))
  {
    forall i, j | 0 <= i < j < |elements|
      ensures Image(memo, elements[i]) != Image(memo, elements[j])
    {
      assert elements[i] != elements[j];
    }
  }
}
