/** structuredClone(): a depth-first walk that gives each object a clone before it visits what
    the object holds, so that cycles and shared objects find it in the memo. */
module StructuredClone {
  import opened Base
  import opened CloneSpec
  import opened CloneProofs

  datatype CloneResult = Cloned(value: Value) | NotCloned(error: CloneError)

  class Cloner {
    var heap: Heap
    var memo: Memo
    var next: nat
    ghost const source: Heap

    /** Every object is in `heap`; whatever is new gets numbers from `next` on. */
    constructor (heap: Heap, next: nat)
      requires Closed(heap) && forall r :: r in heap ==> r < next
      ensures this.heap == heap && memo == map[] && this.next == next && source == heap
      ensures Valid()
    {
      this.heap, this.memo, this.next, this.source := heap, map[], next, heap;
      SoundMeans(heap);
    }

    ghost predicate Valid()
      reads this
    {
      Sound(source) && Keeps(source, heap, memo, next)
    }

    /** What cloning `v` did: new clones, all finished, or a reason it cannot be done. */
    ghost predicate Did(v: Value, heap0: Heap, memo0: Memo, r: CloneResult)
      reads this
    {
      && Valid() && Grown(heap0, memo0, heap, memo)
      && (r.NotCloned? ==> FailsWith(source, v, r.error))
      && (r.Cloned? ==>
            && !v.Function? && (v.Ref? ==> v.id in memo) && r.value == Image(memo, v)
            && Finished(source, v, memo0, heap, memo, None))
    }

    /** A new object, remembered as the clone of `r`. */
    method Allocate(r: nat, o: Object) returns (c: nat)
      requires Valid() && r in source && r !in memo
      modifies this`heap, this`memo, this`next
      ensures c == old(next) && heap == old(heap)[c := o] && memo == old(memo)[r := c] && Valid()
      ensures Grown(old(heap), old(memo), heap, memo)
      ensures |source.Keys - memo.Keys| + 1 == |source.Keys - old(memo).Keys|
    {
      AllocateKeeps(source, heap, memo, next, r, o);
      AllocateLeavesLess(source, memo, r, next);
      c := next;
      heap, memo, next := heap[c := o], memo[r := c], next + 1;
    }

    /** An object that holds no others: copied at once. */
    method CloneLeaf(r: nat) returns (res: CloneResult)
      requires Valid() && r in source && r !in memo && Children(source[r]) == [] && !Bad(source[r])
      requires !source[r].View?
      modifies this`heap, this`memo, this`next
      ensures Did(Ref(r), old(heap), old(memo), res)
    {
      ghost var memo0 := memo;
      var c := Allocate(r, Fill(heap[r], []));
      assert Images(memo, Children(source[r])) == [];
      ReachesItself(source, r);
      assert Finished(source, Ref(r), memo0, heap, memo, None);
      return Cloned(Ref(c));
    }
  
    /** A view: its whole buffer is cloned through the memo, then the view over the clone. */
    method CloneView(r: nat) returns (res: CloneResult)
      requires Valid() && r in source && r !in memo && source[r].View?
      modifies this`heap, this`memo, this`next
      ensures Did(Ref(r), old(heap), old(memo), res)
      decreases |source.Keys - memo.Keys|, 2, 0
    {
      ghost var heap0, memo0 := heap, memo;
      res := CloneChild(r, 0);
      if res.NotCloned? {
        return;
      }
      NewFromBuffer(r, memo0);
      res := WrapBuffer(r, res.value, heap0, memo0);
    }

    /** The view over the clone of its buffer. */
    method WrapBuffer(r: nat, buffer: Value, ghost heap0: Heap, ghost memo0: Memo) returns (res: CloneResult)
      requires Valid() && r in source && r !in memo && source[r].View? && source[r].buffer in memo
      requires buffer == Image(memo, Ref(source[r].buffer))
      requires Finished(source, Ref(source[r].buffer), memo0, heap, memo, None) && Grown(heap0, memo0, heap, memo)
      modifies this`heap, this`memo, this`next
      ensures Did(Ref(r), heap0, memo0, res)
    {
      ghost var heap1, memo1 := heap, memo;
      var c := Allocate(r, Fill(heap[r], [buffer]));
      ViewFinished(source, r, memo0, heap1, memo1, heap, memo);
      GrownTwice(heap0, memo0, heap1, memo1, heap, memo);
      res := Cloned(Ref(c));
    }

    /** One thing an object holds is cloned. */
    method CloneChild(r: nat, i: nat) returns (res: CloneResult)
      requires Valid() && r in source && i < |Children(source[r])|
      modifies this`heap, this`memo, this`next
      ensures Valid() && Grown(old(heap), old(memo), heap, memo)
      ensures |source.Keys - memo.Keys| <= |source.Keys - old(memo).Keys|
      ensures res.NotCloned? ==> FailsWith(source, Ref(r), res.error)
      ensures var v := Children(source[r])[i];
              res.Cloned? ==>
                && !v.Function? && (v.Ref? ==> v.id in memo) && res.value == Image(memo, v)
                && Finished(source, v, old(memo), heap, memo, None)
      decreases |source.Keys - memo.Keys|, if r in source && source[r].View? then 1 else 3, 0
    {
      ghost var heap0, memo0 := heap, memo;
      ChildInHeap(source, r, i);
      var v := Children(heap[r])[i];
      if heap[r].View? {
        ViewOverBuffer(source, r);
      }
      res := CloneInner(v);
      GrownLeavesNoMore(source, heap0, memo0, heap, memo);
      if res.NotCloned? {
        FailsThrough(source, r, v, res.error);
      }
    }

    /** Cloning the buffer gave the view itself no clone. */
    lemma NewFromBuffer(r: nat, memo0: Memo)
      requires Valid() && r in source && source[r].View? && r !in memo0
      requires Finished(source, Ref(source[r].buffer), memo0, heap, memo, None)
      ensures r !in memo
    {
      ViewOverBuffer(source, r);
      if r in memo {
        BufferReaches(source, source[r].buffer, r);
      }
    }

    /** A Map, a Set, an array or a plain object: the clone is remembered empty, then filled. */
    method CloneContainer(r: nat) returns (res: CloneResult)
      requires Valid() && r in source && r !in memo
      requires source[r].Map? || source[r].Set? || source[r].Array? || source[r].Plain?
      modifies this`heap, this`memo, this`next
      ensures Did(Ref(r), old(heap), old(memo), res)
      decreases |source.Keys - memo.Keys|, 0, 0
    {
      ghost var heap0, memo0 := heap, memo;
      var n := |Children(heap[r])|;
      var c := Allocate(r, Fill(heap[r], []));
      var images := [];
      while |images| < n
        invariant Valid() && Grown(heap0, memo0, heap, memo)
        invariant c !in heap0 && r in memo && memo[r] == c && n == |Children(source[r])|
        invariant |source.Keys - memo.Keys| < |source.Keys - memo0.Keys|
        invariant Filling(source, r, memo0, heap, memo, images)
      {
        var image := CloneNext(r, images, heap0, memo0);
        if image.NotCloned? {
          return image;
        }
        images := images + [image.value];
      }
      FillingDone(source, r, memo0, heap, memo, images);
      res := Cloned(Ref(c));
    }

    /** The next child of a container is cloned and put into the container's clone. */
    method CloneNext(r: nat, images: seq<Value>, ghost heap0: Heap, ghost memo0: Memo) returns (image: CloneResult)
      requires Valid() && r in source && Filling(source, r, memo0, heap, memo, images)
      requires |images| < |Children(source[r])| && memo[r] !in heap0
      requires Grown(heap0, memo0, heap, memo)
      modifies this`heap, this`memo, this`next
      ensures Valid() && r in memo && memo[r] == old(memo)[r]
      ensures Grown(heap0, memo0, heap, memo)
      ensures |source.Keys - memo.Keys| <= |source.Keys - old(memo).Keys|
      ensures image.NotCloned? ==> FailsWith(source, Ref(r), image.error)
      ensures image.Cloned? ==> Filling(source, r, memo0, heap, memo, images + [image.value])
      decreases |source.Keys - memo.Keys|, 4, 0
    {
      ghost var heap1, memo1 := heap, memo;
      image := CloneChild(r, |images|);
      GrownTwice(heap0, memo0, heap1, memo1, heap, memo);
      if image.Cloned? {
        Put(r, images, Children(heap[r])[|images|], heap0, memo0, heap1, memo1);
      }
    }

    method Put(r: nat, images: seq<Value>, v: Value, ghost heap0: Heap, ghost memo0: Memo, ghost heap1: Heap,
               ghost memo1: Memo)
      requires Valid() && Filling(source, r, memo0, heap1, memo1, images) && |images| < |Children(source[r])|
      requires v == Children(source[r])[|images|] && !v.Function? && (v.Ref? ==> v.id in memo)
      requires Finished(source, v, memo1, heap, memo, None) && Grown(heap1, memo1, heap, memo)
      requires Grown(heap0, memo0, heap, memo) && r in memo && memo[r] !in heap0
      modifies this`heap
      ensures Valid() && Grown(heap0, memo0, heap, memo)
      ensures Filling(source, r, memo0, heap, memo, images + [Image(memo, v)])
    {
      FillingNext(source, r, memo0, heap1, memo1, heap, memo, images, v);
      GrownBeside(heap0, memo0, heap, memo, memo[r], Fill(heap[r], images + [Image(memo, v)]));
      Write(memo[r], Fill(heap[r], images + [Image(memo, v)]));
    }

    /** A clone is changed in place. */
    method Write(c: nat, o: Object)
      requires Valid() && c in heap && c !in source
      modifies this`heap
      ensures Valid() && heap == old(heap)[c := o]
    {
      heap := heap[c := o];
    }

    method CloneInner(v: Value) returns (res: CloneResult)
      requires Valid() && InHeap(source, v)
      modifies this`heap, this`memo, this`next
      ensures Did(v, old(heap), old(memo), res)
      decreases |source.Keys - memo.Keys|, if v.Ref? && v.id in source && source[v.id].View? then 2 else 0, 1
    {
      if v.Function? {
        return NotCloned(DataCloneError);
      }
      if v.Primitive? {
        return Cloned(v);
      }
      if v.id in memo {
        return Cloned(Ref(memo[v.id]));
      }
      var o := heap[v.id];
      if o.FileBlob? {
        ReachesItself(source, v.id);
        return NotCloned(InvalidStateError);
      }
      if o.Buffer? && o.detached {
        ReachesItself(source, v.id);
        return NotCloned(DataCloneError);
      }
      if o.Opaque? || o.Buffer? {
        res := CloneLeaf(v.id);
      } else if o.View? {
        res := CloneView(v.id);
      } else {
        res := CloneContainer(v.id);
      }
    }
  
    /** The checks on the transfer list, entry by entry. */
    method CheckTransfers(ts: seq<Value>) returns (error: Option<CloneError>)
      requires Valid() && forall i :: 0 <= i < |ts| ==> InHeap(source, ts[i])
      ensures error.None? <==> Transferable(source, ts)
      ensures error.Some? ==>
                exists i :: && 0 <= i < |ts| && Transferable(source, ts[..i]) && !Transferable(source, ts[..i + 1])
                            && error.value == if ts[i].Ref? then DataCloneError else NotAnObject
    {
      var seen: set<Value> := {};
      for i := 0 to |ts|
        invariant Transferable(source, ts[..i])
        invariant forall v :: v in seen <==> v in ts[..i]
      {
        var t := ts[i];
        assert ts[..i + 1] == ts[..i] + [t];
        if !t.Ref? {
          return Some(NotAnObject);
        }
        if !heap[t.id].Buffer? || t in seen || heap[t.id].detached {
          return Some(DataCloneError);
        }
        seen := seen + {t};
      }
      assert ts[..|ts|] == ts;
      return None;
    }

    /** Each listed buffer gets its copy before anything is cloned. */
    method Seed(ts: seq<Value>)
      requires Valid() && memo == map[] && Transferable(source, ts)
      modifies this`heap, this`memo, this`next
      ensures Valid() && Seeded(source, heap, memo, ts)
    {
      for i := 0 to |ts|
        invariant Valid() && Seeded(source, heap, memo, ts[..i])
      {
        SeedOne(ts[..i], ts[i].id);
        assert ts[..i + 1] == ts[..i] + [ts[i]];
      }
      assert ts[..|ts|] == ts;
    }

    method SeedOne(ghost seeded: seq<Value>, r: nat)
      requires Valid() && Seeded(source, heap, memo, seeded) && Ref(r) !in seeded
      requires r in source && source[r].Buffer? && !source[r].detached
      modifies this`heap, this`memo, this`next
      ensures Valid() && Seeded(source, heap, memo, seeded + [Ref(r)])
    {
      SeededNext(source, heap, memo, next, seeded, r);
      var c := Allocate(r, Fill(heap[r], []));
    }

    /** The listed buffers are detached; every other object stays as it is. */
    method Detach(ts: seq<Value>)
      requires Valid() && Transferable(source, ts)
      modifies this`heap
      ensures heap.Keys == old(heap).Keys
      ensures forall r :: r in heap ==> heap[r] == if Ref(r) in ts then Buffer([], true) else old(heap)[r]
    {
      for i := 0 to |ts|
        invariant heap.Keys == old(heap).Keys
        invariant forall r :: r in heap ==> heap[r] == if Ref(r) in ts[..i] then Buffer([], true) else old(heap)[r]
      {
        heap := heap[ts[i].id := Buffer([], true)];
        assert ts[..i + 1] == ts[..i] + [ts[i]];
      }
      assert ts[..|ts|] == ts;
    }

    /** The whole call.  It succeeds exactly when the transfer list is good and nothing
        reachable refuses cloning; then every reachable object has one faithful copy and the
        listed buffers are detached.  If it fails, no object that was there has changed. */
    method StructuredClone(v: Value, ts: seq<Value>) returns (res: CloneResult)
      requires Valid() && memo == map[] && heap == source
      requires InHeap(source, v) && forall i :: 0 <= i < |ts| ==> InHeap(source, ts[i])
      modifies this
      ensures res.Cloned? <==> Transferable(source, ts) && !Fails(source, v)
      ensures res.NotCloned? && Transferable(source, ts) ==> FailsWith(source, v, res.error)
      ensures forall r :: r in source ==> r in heap
      ensures res.NotCloned? ==> forall r :: r in source ==> heap[r] == source[r]
      ensures res.Cloned? ==>
                forall r :: r in source ==> heap[r] == if Ref(r) in ts then Buffer([], true) else source[r]
      ensures res.Cloned? ==> Faithful(source, heap, memo, v, res.value)
      ensures res.Cloned? ==> forall x :: x in memo <==> Reaches(source, v, x) || Ref(x) in ts
    {
      var error := CheckTransfers(ts);
      if error.Some? {
        return NotCloned(error.value);
      }
      Seed(ts);
      ghost var heap0, memo0 := heap, memo;
      res := CloneInner(v);
      if res.NotCloned? {
        return;
      }
      ClonedSeeded(source, v, ts, heap0, memo0, heap, memo);
      FinishedIsFaithful(source, heap, memo, next, v);
      ghost var heap1 := heap;
      Detach(ts);
      StillFaithful(source, heap1, heap, memo, v, res.value);
    }
  }

  /** Detaching source buffers touches no clone. */
  lemma StillFaithful(src: Heap, heap: Heap, heap2: Heap, memo: Memo, v: Value, w: Value)
    requires Faithful(src, heap, memo, v, w)
    requires forall r :: r in heap && r !in src ==> r in heap2 && heap2[r] == heap[r]
    ensures Faithful(src, heap2, memo, v, w)
  {}
}
