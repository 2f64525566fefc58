/** Which objects a clone visits, and what holds of the memo and the heap while it does. */
module CloneProofs {
  import opened Base
  import opened CloneSpec

  // ------------------------------------------------------------- reachability

  /** A heap without dangling references, whose views are over buffers. */
  ghost predicate Closed(src: Heap) {
    forall r :: r in src ==>
      && Proper(src[r])
      && (forall i :: 0 <= i < |Children(src[r])| && Children(src[r])[i].Ref? ==> Children(src[r])[i].id in src)
      && (src[r].View? ==> src[r].buffer in src && src[src[r].buffer].Buffer?)
  }

  /** The same, folded away. */
  ghost predicate Sealed(src: Heap, n: nat) {
    if n == 0 then Closed(src) else Sealed(src, n - 1)
  }

  ghost predicate Sound(src: Heap) {
    Sealed(src, |src| + 5)
  }

  lemma {:induction false} SealedMeans(src: Heap, n: nat)
    ensures Sealed(src, n) == Closed(src)
  {
    if n > 0 {
      SealedMeans(src, n - 1);
    }
  }

  lemma SoundMeans(src: Heap)
    ensures Sound(src) == Closed(src)
  {
    SealedMeans(src, |src| + 5);
  }

  ghost predicate InHeap(src: Heap, v: Value) {
    v.Ref? ==> v.id in src
  }

  lemma ChildInHeap(src: Heap, r: nat, i: nat)
    requires Sound(src) && r in src && i < |Children(src[r])|
    ensures InHeap(src, Children(src[r])[i]) && Children(src[r])[i] in Children(src[r])
  {
    SoundMeans(src);
  }

  lemma ViewOverBuffer(src: Heap, r: nat)
    requires Sound(src) && r in src && src[r].View?
    ensures src[r].buffer in src && src[src[r].buffer].Buffer?
  {
    SoundMeans(src);
  }

  ghost predicate Path(src: Heap, path: seq<nat>) {
    && path != []
    && (forall i :: 0 <= i < |path| ==> path[i] in src)
    && (forall i :: 0 <= i < |path| - 1 ==> Ref(path[i + 1]) in Children(src[path[i]]))
  }

  ghost predicate Reaches(src: Heap, v: Value, x: nat) {
    v.Ref? && exists path :: Path(src, path) && path[0] == v.id && path[|path| - 1] == x
  }

  lemma ReachesItself(src: Heap, r: nat)
    requires r in src
    ensures Reaches(src, Ref(r), r)
  {
    assert Path(src, [r]);
    assert [r][0] == r && [r][|[r]| - 1] == r;
  }

  lemma ReachesThrough(src: Heap, r: nat, v: Value, x: nat)
    requires r in src && v in Children(src[r]) && Reaches(src, v, x)
    ensures Reaches(src, Ref(r), x) && x in src
  {
    var path :| Path(src, path) && path[0] == v.id && path[|path| - 1] == x;
    var longer := [r] + path;
    assert Path(src, longer);
    assert longer[0] == r && longer[|longer| - 1] == x;
  }

  /** Nothing is reachable from a buffer but itself. */
  lemma BufferReaches(src: Heap, r: nat, x: nat)
    requires r in src && src[r].Buffer? && Reaches(src, Ref(r), x)
    ensures x == r
  {
    var path :| Path(src, path) && path[0] == r && path[|path| - 1] == x;
    assert |path| > 1 ==> Ref(path[1]) in Children(src[path[0]]);
  }

  // ------------------------------------------------------------------ failures

  datatype CloneError = DataCloneError | InvalidStateError | NotAnObject

  /** An object no clone can be made of, and the error it gives. */
  predicate Refuses(o: Object, error: CloneError) {
    match error
    case DataCloneError => (o.Buffer? && o.detached) || Function in Children(o)
    case InvalidStateError => o.FileBlob?
    case NotAnObject => false
  }

  predicate Bad(o: Object) {
    Refuses(o, DataCloneError) || Refuses(o, InvalidStateError)
  }

  /** Cloning `v` can end with this error. */
  ghost predicate FailsWith(src: Heap, v: Value, error: CloneError) {
    || (v.Function? && error.DataCloneError?)
    || exists x :: Reaches(src, v, x) && x in src && Refuses(src[x], error)
  }

  ghost predicate Fails(src: Heap, v: Value) {
    FailsWith(src, v, DataCloneError) || FailsWith(src, v, InvalidStateError)
  }

  lemma FailsThrough(src: Heap, r: nat, v: Value, error: CloneError)
    requires r in src && v in Children(src[r]) && FailsWith(src, v, error)
    ensures FailsWith(src, Ref(r), error)
  {
    if v.Function? {
      ReachesItself(src, r);
      assert Refuses(src[r], DataCloneError);
    } else {
      var x :| Reaches(src, v, x) && x in src && Refuses(src[x], error);
      ReachesThrough(src, r, v, x);
    }
  }

  // -------------------------------------------------------------- the invariant

  /** The source is untouched; the memo leads from it to distinct new objects. */
  ghost predicate Keeps(src: Heap, heap: Heap, memo: Memo, next: nat) {
    && (forall r :: r in src ==> r in heap && heap[r] == src[r])
    && (forall r :: r in heap ==> r < next)
    && (forall r :: r in memo ==> r in src && memo[r] in heap && memo[r] !in src)
    && Injective(memo)
  }

  /** The clone of `r` is finished. */
  ghost predicate Done(src: Heap, heap: Heap, memo: Memo, r: nat) {
    && r in src && r in memo && memo[r] in heap
    && !Bad(src[r]) && Mapped(memo, Children(src[r]))
    && heap[memo[r]] == Fill(src[r], Images(memo, Children(src[r])))
  }

  /** Nothing there was changes. */
  ghost predicate Grown(heap: Heap, memo: Memo, heap2: Heap, memo2: Memo) {
    && (forall r :: r in heap ==> r in heap2 && heap2[r] == heap[r])
    && (forall r :: r in memo ==> r in memo2 && memo2[r] == memo[r])
  }

  lemma ImagesStay(memo: Memo, memo2: Memo, vs: seq<Value>)
    requires Mapped(memo, vs) && forall r :: r in memo ==> r in memo2 && memo2[r] == memo[r]
    ensures Mapped(memo2, vs) && Images(memo2, vs) == Images(memo, vs)
  {}

  lemma DoneStays(src: Heap, heap: Heap, memo: Memo, heap2: Heap, memo2: Memo, r: nat)
    requires Done(src, heap, memo, r) && Grown(heap, memo, heap2, memo2)
    ensures Done(src, heap2, memo2, r)
  {
    ImagesStay(memo, memo2, Children(src[r]));
  }

  lemma AllocateKeeps(src: Heap, heap: Heap, memo: Memo, next: nat, r: nat, o: Object)
    requires Keeps(src, heap, memo, next) && r in src && r !in memo
    ensures Keeps(src, heap[next := o], memo[r := next], next + 1)
    ensures Grown(heap, memo, heap[next := o], memo[r := next])
  {
    assert next !in src;
  }

  lemma AllocateLeavesLess(src: Heap, memo: Memo, r: nat, c: nat)
    requires r in src && r !in memo
    ensures |src.Keys - memo[r := c].Keys| + 1 == |src.Keys - memo.Keys|
  {
    assert src.Keys - memo.Keys == (src.Keys - memo[r := c].Keys) + {r};
  }

  lemma GrownLeavesNoMore(src: Heap, heap: Heap, memo: Memo, heap2: Heap, memo2: Memo)
    requires Grown(heap, memo, heap2, memo2)
    ensures |src.Keys - memo2.Keys| <= |src.Keys - memo.Keys|
  {
    SubsetSize(src.Keys - memo2.Keys, src.Keys - memo.Keys);
  }

  lemma {:induction false} SubsetSize(a: set<nat>, b: set<nat>)
    requires a <= b
    ensures |a| <= |b|
  {
    if a != {} {
      var x :| x in a;
      SubsetSize(a - {x}, b - {x});
    }
  }

  lemma GrownTwice(heap: Heap, memo: Memo, heap1: Heap, memo1: Memo, heap2: Heap, memo2: Memo)
    requires Grown(heap, memo, heap1, memo1) && Grown(heap1, memo1, heap2, memo2)
    ensures Grown(heap, memo, heap2, memo2)
  {}

  /** Every object the memo got since `memo0`, but `grey`, is finished and reachable from `v`. */
  ghost predicate Finished(src: Heap, v: Value, memo0: Memo, heap: Heap, memo: Memo, grey: Option<nat>) {
    forall x :: x in memo && x !in memo0 && grey != Some(x) ==> Done(src, heap, memo, x) && Reaches(src, v, x)
  }

  /** Objects finished for a child of `r` are finished for `r`. */
  lemma FinishedThrough(src: Heap, r: nat, v: Value, memo0: Memo, heap1: Heap, memo1: Memo, heap2: Heap, memo2: Memo)
    requires r in src && v in Children(src[r])
    requires Finished(src, Ref(r), memo0, heap1, memo1, Some(r))
    requires Finished(src, v, memo1, heap2, memo2, None)
    requires Grown(heap1, memo1, heap2, memo2)
    ensures Finished(src, Ref(r), memo0, heap2, memo2, Some(r))
  {
    forall x | x in memo2 && x !in memo0 && x != r
      ensures Done(src, heap2, memo2, x) && Reaches(src, Ref(r), x)
    {
      if x in memo1 {
        DoneStays(src, heap1, memo1, heap2, memo2, x);
      } else {
        ReachesThrough(src, r, v, x);
      }
    }
  }

  /** Writing the unfinished clone touches no other. */
  lemma FinishedBeside(src: Heap, r: nat, memo0: Memo, heap: Heap, memo: Memo, o: Object)
    requires Finished(src, Ref(r), memo0, heap, memo, Some(r)) && r in memo && Injective(memo)
    ensures Finished(src, Ref(r), memo0, heap[memo[r] := o], memo, Some(r))
  {
    forall x | x in memo && x !in memo0 && x != r
      ensures Done(src, heap[memo[r] := o], memo, x)
    {
      assert Done(src, heap, memo, x);
      assert memo[x] != memo[r];
    }
  }

  /** Once every child is cloned, the unfinished clone is finished. */
  lemma GreyFinished(src: Heap, r: nat, memo0: Memo, heap: Heap, memo: Memo)
    requires Finished(src, Ref(r), memo0, heap, memo, Some(r)) && Done(src, heap, memo, r)
    ensures Finished(src, Ref(r), memo0, heap, memo, None)
  {
    ReachesItself(src, r);
  }

  /** The images of the first children, none of which is a function. */
  ghost predicate Imaged(memo: Memo, children: seq<Value>, images: seq<Value>) {
    && |images| <= |children|
    && (forall i :: 0 <= i < |images| ==>
          && !children[i].Function? && (children[i].Ref? ==> children[i].id in memo)
          && images[i] == Image(memo, children[i]))
  }

  lemma ImagedNext(memo1: Memo, memo2: Memo, children: seq<Value>, images: seq<Value>)
    requires Imaged(memo1, children, images) && |images| < |children|
    requires forall r :: r in memo1 ==> r in memo2 && memo2[r] == memo1[r]
    requires var v := children[|images|]; !v.Function? && (v.Ref? ==> v.id in memo2)
    ensures Imaged(memo2, children, images + [Image(memo2, children[|images|])])
  {}

  /** A view whose buffer has a clone, and whose own clone is over that one. */
  lemma ViewFinished(src: Heap, r: nat, memo0: Memo, heap1: Heap, memo1: Memo, heap: Heap, memo: Memo)
    requires r in src && src[r].View? && src[r].buffer in memo1
    requires Finished(src, Ref(src[r].buffer), memo0, heap1, memo1, None)
    requires Grown(heap1, memo1, heap, memo) && r in memo && memo == memo1[r := memo[r]] && memo[r] in heap
    requires heap[memo[r]] == Fill(src[r], [Image(memo1, Ref(src[r].buffer))])
    ensures Finished(src, Ref(r), memo0, heap, memo, None)
  {
    var v := Ref(src[r].buffer);
    assert Children(src[r]) == [v];
    assert Images(memo, [v]) == [Image(memo, v)];
    assert Done(src, heap, memo, r);
    ReachesItself(src, r);
    forall x | x in memo && x !in memo0 && x != r
      ensures Done(src, heap, memo, x) && Reaches(src, Ref(r), x)
    {
      DoneStays(src, heap1, memo1, heap, memo, x);
      ReachesThrough(src, r, v, x);
    }
  }

  /** A clone of a container under way: the first children have their images. */
  ghost predicate Filling(src: Heap, r: nat, memo0: Memo, heap: Heap, memo: Memo, images: seq<Value>) {
    && r in src && r in memo && memo[r] in heap
    && Finished(src, Ref(r), memo0, heap, memo, Some(r))
    && Imaged(memo, Children(src[r]), images)
    && heap[memo[r]] == Fill(src[r], images)
  }

  lemma FillingNext(src: Heap, r: nat, memo0: Memo, heap1: Heap, memo1: Memo, heap2: Heap, memo2: Memo,
                    images: seq<Value>, v: Value)
    requires Filling(src, r, memo0, heap1, memo1, images) && |images| < |Children(src[r])| && Injective(memo2)
    requires v == Children(src[r])[|images|] && !v.Function? && (v.Ref? ==> v.id in memo2)
    requires Finished(src, v, memo1, heap2, memo2, None)
    requires Grown(heap1, memo1, heap2, memo2)
    ensures Imaged(memo2, Children(src[r]), images + [Image(memo2, v)]) && r in memo2
    ensures Filling(src, r, memo0, heap2[memo2[r] := Fill(src[r], images + [Image(memo2, v)])], memo2,
                    images + [Image(memo2, v)])
  {
    ImagedNext(memo1, memo2, Children(src[r]), images);
    FinishedThrough(src, r, v, memo0, heap1, memo1, heap2, memo2);
    FinishedBeside(src, r, memo0, heap2, memo2, Fill(src[r], images + [Image(memo2, v)]));
  }

  lemma GrownBeside(heap0: Heap, memo0: Memo, heap: Heap, memo: Memo, c: nat, o: Object)
    requires Grown(heap0, memo0, heap, memo) && c !in heap0
    ensures Grown(heap0, memo0, heap[c := o], memo)
  {}

  lemma FillingDone(src: Heap, r: nat, memo0: Memo, heap: Heap, memo: Memo, images: seq<Value>)
    requires Filling(src, r, memo0, heap, memo, images) && |images| == |Children(src[r])|
    requires !src[r].FileBlob? && !src[r].Buffer?
    ensures Finished(src, Ref(r), memo0, heap, memo, None)
  {
    assert images == Images(memo, Children(src[r]));
    GreyFinished(src, r, memo0, heap, memo);
  }

  // ------------------------------------------------------- the whole of a clone

  /** What a successful clone of `v` is: every object reachable from `v` has a copy of its own,
      with each reference redirected to the copy of what it refers to. */
  ghost predicate Faithful(src: Heap, heap: Heap, memo: Memo, v: Value, w: Value) {
    && w == Image(memo, v) && !v.Function?
    && Injective(memo)
    && (forall x :: Reaches(src, v, x) ==>
          && x in src && x in memo && memo[x] !in src && memo[x] in heap
          && heap[memo[x]] == Copy(memo, src[x]))
  }

  lemma {:induction false} ReachedIsMapped(src: Heap, heap: Heap, memo: Memo, path: seq<nat>)
    requires Path(src, path) && path[0] in memo
    requires forall x :: x in memo ==> Done(src, heap, memo, x)
    ensures path[|path| - 1] in memo
    decreases |path|
  {
    var n := |path| - 1;
    if n > 0 {
      ReachedIsMapped(src, heap, memo, path[..n]);
      assert path[..n][n - 1] == path[n - 1];
      var children := Children(src[path[n - 1]]);
      assert Ref(path[n]) in children;
      var i :| 0 <= i < |children| && children[i] == Ref(path[n]);
    }
  }

  lemma FinishedIsFaithful(src: Heap, heap: Heap, memo: Memo, next: nat, v: Value)
    requires Sound(src) && Keeps(src, heap, memo, next)
    requires forall x :: x in memo ==> Done(src, heap, memo, x)
    requires !v.Function? && (v.Ref? ==> v.id in memo)
    ensures Faithful(src, heap, memo, v, Image(memo, v)) && !Fails(src, v)
  {
    SoundMeans(src);
    forall x | Reaches(src, v, x)
      ensures x in src && x in memo && heap[memo[x]] == Copy(memo, src[x]) && !Bad(src[x])
    {
      var path :| Path(src, path) && path[0] == v.id && path[|path| - 1] == x;
      ReachedIsMapped(src, heap, memo, path);
      assert Done(src, heap, memo, x);
      FillCopies(memo, src[x]);
    }
  }

  /** Views over one buffer have clones over one buffer: the clone of that buffer. */
  lemma ViewsShareTheirBuffer(src: Heap, heap: Heap, memo: Memo, v: Value, w: Value, a: nat, b: nat)
    requires Closed(src) && Faithful(src, heap, memo, v, w)
    requires Reaches(src, v, a) && Reaches(src, v, b) && src[a].View? && src[b].View?
    ensures heap[memo[a]].View? && heap[memo[b]].View?
    ensures heap[memo[a]].buffer == heap[memo[b]].buffer <==> src[a].buffer == src[b].buffer
  {
    ReachesNext(src, v, a, src[a].buffer);
    ReachesNext(src, v, b, src[b].buffer);
  }

  lemma ReachesNext(src: Heap, v: Value, a: nat, b: nat)
    requires Reaches(src, v, a) && a in src && b in src && Ref(b) in Children(src[a])
    ensures Reaches(src, v, b)
  {
    var path :| Path(src, path) && path[0] == v.id && path[|path| - 1] == a;
    var longer := path + [b];
    assert Path(src, longer);
    assert longer[0] == v.id && longer[|longer| - 1] == b;
  }

  // --------------------------------------------------------------- transfer lists

  /** A transfer list holds distinct, readable buffers. */
  ghost predicate Transferable(src: Heap, ts: seq<Value>) {
    && NoDuplicates(ts)
    && forall i :: 0 <= i < |ts| ==> ts[i].Ref? && ts[i].id in src && src[ts[i].id].Buffer? && !src[ts[i].id].detached
  }

  /** The memo holds a copy of each buffer in the list, and nothing else. */
  ghost predicate Seeded(src: Heap, heap: Heap, memo: Memo, ts: seq<Value>) {
    && (forall x :: x in memo <==> Ref(x) in ts)
    && (forall x :: x in memo ==> Done(src, heap, memo, x))
  }

  lemma SeededNext(src: Heap, heap: Heap, memo: Memo, next: nat, ts: seq<Value>, r: nat)
    requires Keeps(src, heap, memo, next) && Seeded(src, heap, memo, ts) && Ref(r) !in ts
    requires r in src && src[r].Buffer? && !src[r].detached
    ensures Seeded(src, heap[next := Fill(src[r], [])], memo[r := next], ts + [Ref(r)])
  {
    var heap2, memo2 := heap[next := Fill(src[r], [])], memo[r := next];
    AllocateKeeps(src, heap, memo, next, r, Fill(src[r], []));
    assert Images(memo2, Children(src[r])) == [];
    forall x | x in memo2
      ensures Done(src, heap2, memo2, x)
    {
      if x in memo {
        DoneStays(src, heap, memo, heap2, memo2, x);
      }
    }
  }

  /** After a clone, the memo holds what was listed and what is reachable. */
  lemma ClonedSeeded(src: Heap, v: Value, ts: seq<Value>, heap0: Heap, memo0: Memo, heap: Heap, memo: Memo)
    requires Seeded(src, heap0, memo0, ts) && Grown(heap0, memo0, heap, memo)
    requires Finished(src, v, memo0, heap, memo, None)
    ensures forall x :: x in memo ==> Done(src, heap, memo, x)
    ensures forall x :: x in memo ==> Reaches(src, v, x) || Ref(x) in ts
    ensures forall x :: Ref(x) in ts ==> x in memo
  {
    forall x | x in memo
      ensures Done(src, heap, memo, x)
    {
      if x in memo0 {
        DoneStays(src, heap0, memo0, heap, memo, x);
      }
    }
  }
}
