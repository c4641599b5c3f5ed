/** Every sequence of calls on one buffer: it is a byte queue, and its memory is bounded. */
module BufferRuns {
  import opened Kernel
  import opened BufferLayout
  import opened Buffers

  datatype Call =
    | CallAppend(bytes: Bytes)
    | CallPrepend(bytes: Bytes)
    | CallRetrieve(n: nat)
    | CallRetrieveAsString(n: nat)
    | CallReadFd(kernel: ReadResult)

  /** What the call does to the indexes. */
  function Moves(call: Call): Op {
    match call
    case CallAppend(bytes) => DoAppend(|bytes|)
    case CallPrepend(bytes) => DoPrepend(|bytes|)
    case CallRetrieve(n) => DoRetrieve(n)
    case CallRetrieveAsString(n) => DoRetrieve(n)
    case CallReadFd(kernel) => DoReadFd(if kernel.Arrived? then |kernel.data| else 0)
  }

  function AllMoves(calls: seq<Call>): (ops: seq<Op>)
    ensures |ops| == |calls|
  {
    if calls == [] then [] else [Moves(calls[0])] + AllMoves(calls[1..])
  }

  /** prepend within the prependable bytes, retrieveAsString within the readable ones, readv within its blocks. */
  predicate Fits(l: Layout, call: Call)
    requires l.Valid()
  {
    match call
    case CallPrepend(bytes) => |bytes| <= l.reader
    case CallRetrieveAsString(n) => n <= l.Readable()
    case CallReadFd(kernel) => kernel.Arrived? ==> |kernel.data| <= l.Writable() + if l.Writable() < EXTRA then EXTRA else 0
    case _ => true
  }

  predicate AllFit(l: Layout, calls: seq<Call>)
    requires l.Valid()
    decreases |calls|
  {
    calls == [] || (Fits(l, calls[0]) && AllFit(Step(l, Moves(calls[0])), calls[1..]))
  }

  lemma {:induction false} FittingIsLegal(l: Layout, calls: seq<Call>)
    requires l.Valid() && AllFit(l, calls)
    ensures Legal(l, AllMoves(calls))
    decreases |calls|
  {
    if calls != [] {
      assert AllMoves(calls)[0] == Moves(calls[0]) && AllMoves(calls)[1..] == AllMoves(calls[1..]);
      FittingIsLegal(Step(l, Moves(calls[0])), calls[1..]);
    }
  }

  // ----- the abstract queue -----

  /** Bytes that enter at the back. */
  function Given(call: Call): Bytes {
    match call
    case CallAppend(bytes) => bytes
    case CallReadFd(kernel) => if kernel.Arrived? then kernel.data else []
    case _ => []
  }

  function Front(q: Bytes, n: nat): Bytes {
    if n < |q| then q[..n] else q
  }

  /** Bytes that leave at the front. */
  function Taken(q: Bytes, call: Call): Bytes {
    match call
    case CallRetrieve(n) => Front(q, n)
    case CallRetrieveAsString(n) => Front(q, n)
    case _ => []
  }

  function After(q: Bytes, call: Call): Bytes {
    if call.CallPrepend? then call.bytes + q else q[|Taken(q, call)|..] + Given(call)
  }

  function AllGiven(calls: seq<Call>): Bytes {
    if calls == [] then [] else Given(calls[0]) + AllGiven(calls[1..])
  }

  function AllTaken(q: Bytes, calls: seq<Call>): Bytes
    decreases |calls|
  {
    if calls == [] then [] else Taken(q, calls[0]) + AllTaken(After(q, calls[0]), calls[1..])
  }

  function AllAfter(q: Bytes, calls: seq<Call>): Bytes
    decreases |calls|
  {
    if calls == [] then q else AllAfter(After(q, calls[0]), calls[1..])
  }

  /** First in, first out: without prepends, what left and what stays is what was there and what came, in order. */
  lemma {:induction false} Fifo(q: Bytes, calls: seq<Call>)
    requires forall call :: call in calls ==> !call.CallPrepend?
    ensures AllTaken(q, calls) + AllAfter(q, calls) == q + AllGiven(calls)
    decreases |calls|
  {
    hide Taken, After, Given;
    if calls == [] {
      assert [] + q == q + [];
    } else {
      var call, rest := calls[0], calls[1..];
      assert call in calls;
      forall c | c in rest ensures !c.CallPrepend? { assert c in calls; }
      var q1 := After(q, call);
      OneCall(q, call);
      Fifo(q1, rest);
      Glue(Taken(q, call), q1, q, Given(call), AllTaken(q1, rest), AllAfter(q1, rest), AllGiven(rest));
    }
  }

  lemma OneCall(q: Bytes, call: Call)
    requires !call.CallPrepend?
    ensures Taken(q, call) + After(q, call) == q + Given(call)
  {
    var t := Taken(q, call);
    assert q == t + q[|t|..];
    assert t + (q[|t|..] + Given(call)) == (t + q[|t|..]) + Given(call);
  }

  lemma Glue(t: Bytes, q1: Bytes, q: Bytes, g: Bytes, taken: Bytes, after: Bytes, given: Bytes)
    requires t + q1 == q + g && taken + after == q1 + given
    ensures (t + taken) + after == q + (g + given)
  {
    assert (t + taken) + after == t + (taken + after) == (t + q1) + given;
  }

  // ----- the class -----

  method Do(b: Buffer, call: Call) returns (out: Bytes)
    requires b.Valid() && Fits(b.Shape(), call)
    modifies b, b.data
    ensures b.Valid() && (fresh(b.data) || b.data == old(b.data))
    ensures b.Contents() == After(old(b.Contents()), call) && b.Shape() == Step(old(b.Shape()), Moves(call))
    ensures out == if call.CallRetrieveAsString? then Taken(old(b.Contents()), call) else []
  {
    out := [];
    ghost var q := b.Contents();
    match call {
      case CallAppend(bytes) => b.Append(bytes);
      case CallPrepend(bytes) => b.Prepend(bytes);
      case CallRetrieve(n) => b.Retrieve(n);
      case CallRetrieveAsString(n) =>
        out := b.RetrieveAsString(n);
        assert q == out + b.Contents();
      case CallReadFd(kernel) => var n, savedErrno := b.ReadFd(kernel);
    }
  }

  /**
   For every sequence of calls the readable bytes are the abstract queue, the
   indexes stay in order, and the vector is bounded by its first size or twice
   the most bytes that waited at one moment.
   */
  method Run(b: Buffer, calls: seq<Call>)
    requires b.Valid() && AllFit(b.Shape(), calls)
    modifies b, b.data
    ensures b.Valid() && b.Contents() == AllAfter(old(b.Contents()), calls)
    ensures Legal(old(b.Shape()), AllMoves(calls)) && b.Shape() == Exec(old(b.Shape()), AllMoves(calls))
    ensures b.data.Length <= Max(old(b.data.Length), 2 * Peak(old(b.Shape()), AllMoves(calls)) + CHEAP_PREPEND)
  {
    ghost var l := b.Shape();
    FittingIsLegal(l, calls);
    MemoryBound(l, AllMoves(calls));
    var i := 0;
    assert calls[0..] == calls;
    while i < |calls|
      invariant 0 <= i <= |calls| && b.Valid() && (fresh(b.data) || b.data == old(b.data))
      invariant AllFit(b.Shape(), calls[i..])
      invariant AllAfter(b.Contents(), calls[i..]) == AllAfter(old(b.Contents()), calls)
      invariant Legal(b.Shape(), AllMoves(calls[i..])) && Exec(b.Shape(), AllMoves(calls[i..])) == Exec(l, AllMoves(calls))
    {
      assert calls[i..][0] == calls[i] && calls[i..][1..] == calls[i + 1..];
      assert AllMoves(calls[i..])[0] == Moves(calls[i]) && AllMoves(calls[i..])[1..] == AllMoves(calls[i + 1..]);
      var out := Do(b, calls[i]);
      i := i + 1;
    }
  }
}
