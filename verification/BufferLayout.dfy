/** Buffer.h seen as its three indexes: how `buffer_`, `readerIndex_` and `writerIndex_` move. */
module BufferLayout {

  const CHEAP_PREPEND: nat := 8
  const INITIAL_SIZE: nat := 1024

  datatype Layout = Layout(size: nat, reader: nat, writer: nat) {
    predicate Valid() {
      CHEAP_PREPEND <= size && reader <= writer <= size
    }

    function Readable(): nat
      requires Valid()
    {
      writer - reader
    }

    function Writable(): nat
      requires Valid()
    {
      size - writer
    }
  }

  function New(initial: nat): (l: Layout)
    ensures l.Valid() && l.Readable() == 0 && l.Writable() == initial
  {
    Layout(CHEAP_PREPEND + initial, CHEAP_PREPEND, CHEAP_PREPEND)
  }

  /**
   makeSPace: grow, or slide the readable bytes down to the prepend area.  The
   slide is only taken with the source strictly past its destination, which is
   what makes the overlapping forward copy correct.
   */
  function MakeSpace(l: Layout, len: nat): (r: Layout)
    requires l.Valid() && l.Writable() < len
    ensures r.Valid() && r.Readable() == l.Readable() && r.Writable() >= len
    ensures r.size != l.size ==> r.size == l.writer + len && l.size < l.Readable() + len + CHEAP_PREPEND
    ensures r.size == l.size ==> r.reader == CHEAP_PREPEND < l.reader
  {
    if l.Writable() + l.reader < len + CHEAP_PREPEND
    then l.(size := l.writer + len)
    else l.(reader := CHEAP_PREPEND, writer := CHEAP_PREPEND + l.Readable())
  }

  function Ensure(l: Layout, len: nat): (r: Layout)
    requires l.Valid()
    ensures r.Valid() && r.Readable() == l.Readable() && r.Writable() >= len
  {
    if l.Writable() < len then MakeSpace(l, len) else l
  }

  function Append(l: Layout, len: nat): (r: Layout)
    requires l.Valid()
    ensures r.Valid() && r.Readable() == l.Readable() + len
  {
    var e := Ensure(l, len);
    e.(writer := e.writer + len)
  }

  function Prepend(l: Layout, len: nat): (r: Layout)
    requires l.Valid() && len <= l.reader
    ensures r.Valid() && r.Readable() == l.Readable() + len && r.size == l.size
  {
    l.(reader := l.reader - len)
  }

  function Retrieve(l: Layout, len: nat): (r: Layout)
    requires l.Valid()
    ensures r.Valid() && r.Readable() == (if len < l.Readable() then l.Readable() - len else 0) && r.size == l.size
  {
    if len < l.Readable() then l.(reader := l.reader + len)
    else l.(reader := CHEAP_PREPEND, writer := CHEAP_PREPEND)
  }

  /** readFd with `n` bytes arriving: fill the tail, then append what overflowed. */
  function ReadFd(l: Layout, n: nat): (r: Layout)
    requires l.Valid()
    ensures r.Valid() && r.Readable() == l.Readable() + n
  {
    if n <= l.Writable() then l.(writer := l.writer + n)
    else Append(l.(writer := l.size), n - l.Writable())
  }

  // ----- runs -----

  datatype Op = DoAppend(n: nat) | DoPrepend(n: nat) | DoRetrieve(n: nat) | DoReadFd(n: nat)

  /** The assert of line 81 is the only demand on callers. */
  predicate Enabled(l: Layout, op: Op) {
    op.DoPrepend? ==> op.n <= l.reader
  }

  function Step(l: Layout, op: Op): (r: Layout)
    requires l.Valid() && Enabled(l, op)
    ensures r.Valid()
  {
    match op
    case DoAppend(n) => Append(l, n)
    case DoPrepend(n) => Prepend(l, n)
    case DoRetrieve(n) => Retrieve(l, n)
    case DoReadFd(n) => ReadFd(l, n)
  }

  predicate Legal(l: Layout, run: seq<Op>)
    requires l.Valid()
    decreases |run|
  {
    run == [] || (Enabled(l, run[0]) && Legal(Step(l, run[0]), run[1..]))
  }

  function Exec(l: Layout, run: seq<Op>): (r: Layout)
    requires l.Valid() && Legal(l, run)
    ensures r.Valid()
    decreases |run|
  {
    if run == [] then l else Exec(Step(l, run[0]), run[1..])
  }

  function Max(a: nat, b: nat): nat {
    if a < b then b else a
  }

  /** The largest readable length along a run. */
  function Peak(l: Layout, run: seq<Op>): (p: nat)
    requires l.Valid() && Legal(l, run)
    ensures p >= l.Readable()
    decreases |run|
  {
    if run == [] then l.Readable() else Max(l.Readable(), Peak(Step(l, run[0]), run[1..]))
  }

  /** One operation grows the vector at most to twice the bytes then readable, plus the prepend area. */
  lemma GrowthStep(l: Layout, op: Op)
    requires l.Valid() && Enabled(l, op)
    ensures var r := Step(l, op); r.size <= Max(l.size, 2 * r.Readable() + CHEAP_PREPEND)
  {
  }

  /**
   The memory a buffer ever holds: its first allocation, or twice the most
   bytes that were waiting in it at one moment plus the prepend area.
   */
  lemma {:induction false} MemoryBound(l: Layout, run: seq<Op>)
    requires l.Valid() && Legal(l, run)
    ensures Exec(l, run).size <= Max(l.size, 2 * Peak(l, run) + CHEAP_PREPEND)
    decreases |run|
  {
    if run != [] {
      hide Step;
      GrowthStep(l, run[0]);
      MemoryBound(Step(l, run[0]), run[1..]);
    }
  }

  lemma MemoryBoundFromNew(initial: nat, run: seq<Op>)
    requires Legal(New(initial), run)
    ensures Exec(New(initial), run).size <= Max(CHEAP_PREPEND + initial, 2 * Peak(New(initial), run) + CHEAP_PREPEND)
  {
    MemoryBound(New(initial), run);
  }
}
