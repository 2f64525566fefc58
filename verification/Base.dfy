/** Values shared by the models. */
module Base {

  datatype Option<+T> = None | Some(value: T)

  /** What a promise is rejected with.  User code supplies `Thrown`; the engine
      itself rejects with one of the others, and `undefined` is a legal reason. */
  datatype Reason = Undefined | Thrown(code: int) | InvalidState | InvalidSize | Released

  /** The state of a promise the engine holds the resolvers of. */
  datatype Outcome = Pending | Fulfilled | Rejected(reason: Reason)
  {
    /** Resolving a promise that is already settled has no effect. */
    function Resolve(): Outcome {
      if Pending? then Fulfilled else this
    }

    function Reject(reason: Reason): Outcome {
      if Pending? then Rejected(reason) else this
    }
  }

  /** What calling `strategy.size(chunk)` and checking its result gives:
      a number, an exception, or a number the queue refuses. */
  datatype SizeResult = Size(size: nat) | Threw(error: Reason) | Refused(error: Reason)

  /** How a promise returned by user code settles. */
  datatype Settlement = Ok | Failed(error: Reason)

  ghost predicate NoDuplicates<T>(s: seq<T>) {
    forall i, j :: 0 <= i < j < |s| ==> s[i] != s[j]
  }

  function OptionSeq<T>(o: Option<T>): seq<T> {
    if o.Some? then [o.value] else []
  }

  /** lo, lo + 1, ..., hi - 1 */
  function Range(lo: nat, hi: nat): (r: seq<nat>)
    requires lo <= hi
    ensures |r| == hi - lo
  {
    seq(hi - lo, i requires 0 <= i => lo + i)
  }
}
