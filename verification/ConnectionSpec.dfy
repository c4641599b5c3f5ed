/**
 TcpConnection.cpp for calls on the loop thread: every handler as a function
 from the connection, and what the kernel answers, to the new connection and
 what it asks of the loop.  `write` and `readv` may return any legal count.
 */
module ConnectionSpec {
  import opened Kernel
  import opened PollerSpec

  datatype ConnState = Connecting | Connected | Disconnecting | Disconnected

  /** System calls on the socket: write with the bytes the kernel took, shutdown(SHUT_WR). */
  datatype Call = Write(bytes: Bytes) | Fin

  datatype Conn = Conn(
    state: ConnState,       // state_
    events: Mask,           // channel_->events_
    out: Bytes,             // readable bytes of outputBuffer_
    inp: Bytes,             // readable bytes of inputBuffer_
    mark: nat,              // highWaterMark_
    wantsHigh: bool,        // highWaterMarkCallback_ is set
    wantsComplete: bool,    // writeCompleteCallback_ is set
    // history
    received: Bytes,        // every byte readv delivered
    consumed: Bytes,        // what callbacks took out of inputBuffer_
    accepted: Bytes,        // payloads of every send() that found kConnected
    calls: seq<Call>,       // system calls on the write side
    lengths: seq<nat>,      // output length after every change
    highs: nat,             // high-water callbacks queued
    shut: bool,             // shutdown() took effect
    closes: nat)            // closeCallback_ calls

  /** Functors a connection queues in its loop. */
  datatype Kind = Destroy | ForceClose | WriteComplete | HighWater(size: nat)

  /**
   The outcome of a handler: masks pushed to the poller in order, functors
   queued, closeCallback_ calls, and whether LOG_ERROR aborted the process.
   */
  datatype Effect = Effect(conn: Conn, pushes: seq<Mask>, queued: seq<Kind>, closed: nat, aborted: bool)

  function Plain(c: Conn): Effect {
    Effect(c, [], [], 0, false)
  }

  function Abort(c: Conn): Effect {
    Effect(c, [], [], 0, true)
  }

  function Fresh(mark: nat, wantsHigh: bool, wantsComplete: bool): Conn {
    Conn(Connecting, NONE_EVENT, [], [], mark, wantsHigh, wantsComplete, [], [], [], [], [0], 0, false, 0)
  }

  predicate Writing(c: Conn) {
    c.events * WRITE_EVENT != {}
  }

  function SetMask(c: Conn, events: Mask): Effect {
    Effect(c.(events := events), [events], [], 0, false)
  }

  function Send(c: Conn, data: Bytes, w: WriteResult): Effect
    requires w.Wrote? ==> w.n <= |data|
  {
    if c.state.Connected? then SendInLoop(c, data, w) else Plain(c)
  }

  function SendInLoop(c: Conn, data: Bytes, w: WriteResult): Effect
    requires w.Wrote? ==> w.n <= |data|
  {
    if Writing(c) || |c.out| != 0 then
      Enqueue(c, data, 0, [])
    else if w.Wrote? then
      Enqueue(c.(calls := c.calls + [Write(data[..w.n])]), data, w.n,
              if w.n == |data| && c.wantsComplete then [WriteComplete] else [])
    else if w.errno != EWOULDBLOCK then
      Abort(c)
    else
      Enqueue(c.(calls := c.calls + [Write([])]), data, 0, [])
  }

  /** The second half of sendInLoop: keep what the kernel did not take. */
  function Enqueue(c: Conn, data: Bytes, n: nat, queued: seq<Kind>): Effect
    requires n <= |data|
  {
    var c1 := c.(accepted := c.accepted + data);
    if n == |data| then Effect(c1, [], queued, 0, false) else
    var size := |c.out| + (|data| - n);
    var high := size >= c.mark && |c.out| < c.mark && c.wantsHigh;
    var c2 := c1.(out := c.out + data[n..], lengths := c.lengths + [size],
                  highs := if high then c.highs + 1 else c.highs);
    var queued2 := if high then queued + [HighWater(size)] else queued;
    if Writing(c) then Effect(c2, [], queued2, 0, false)
    else SetMask(c2, c.events + WRITE_EVENT).(queued := queued2)
  }

  function ShutdownInLoop(c: Conn): Effect {
    if Writing(c) then Plain(c) else Plain(c.(calls := c.calls + [Fin]))
  }

  function Shutdown(c: Conn): Effect {
    if c.state.Connected? then ShutdownInLoop(c.(state := Disconnecting, shut := true)) else Plain(c)
  }

  predicate Open(c: Conn) {
    c.state.Connected? || c.state.Disconnecting?
  }

  function ForceClosing(c: Conn): Effect {
    if Open(c) then Plain(c.(state := Disconnecting)).(queued := [ForceClose]) else Plain(c)
  }

  function ForceCloseInLoop(c: Conn): Effect {
    if Open(c) then HandleClose(c) else Plain(c)
  }

  function HandleClose(c: Conn): Effect {
    SetMask(c.(state := Disconnected, closes := c.closes + 1), NONE_EVENT).(closed := 1)
  }

  function ConnectEstablished(c: Conn): Effect {
    SetMask(c.(state := Connected), c.events + READ_EVENT)
  }

  /** connectDestroyed up to channel_->remove(). */
  function ConnectDestroyed(c: Conn): Effect {
    if c.state.Connected? then SetMask(c.(state := Disconnected), NONE_EVENT) else Plain(c)
  }

  function HandleRead(c: Conn, r: ReadResult): Effect {
    if r.ReadFailed? then Abort(c)
    else if r.data == [] then HandleClose(c)
    else Plain(c.(inp := c.inp + r.data, received := c.received + r.data))
  }

  /** A callback takes bytes out of the input buffer it was handed: Buffer::retrieve. */
  function TakeInput(c: Conn, n: nat): Effect {
    var k := if n < |c.inp| then n else |c.inp|;
    Plain(c.(inp := c.inp[k..], consumed := c.consumed + c.inp[..k]))
  }

  function HandleWrite(c: Conn, w: WriteResult): Effect
    requires w.Wrote? ==> w.n <= |c.out|
  {
    if !Writing(c) then Plain(c)
    else if w.WriteFailed? || w.n == 0 then Plain(c.(calls := c.calls + [Write([])]))
    else
      var rest := c.out[w.n..];
      var c1 := c.(calls := c.calls + [Write(c.out[..w.n])], out := rest, lengths := c.lengths + [|rest|]);
      if rest != [] then Plain(c1) else
      var e := SetMask(c1, c.events - WRITE_EVENT).(queued := if c.wantsComplete then [WriteComplete] else []);
      if c.state.Disconnecting? then e.(conn := ShutdownInLoop(e.conn).conn) else e
  }

  // ----- what every handler keeps -----

  function Written(calls: seq<Call>): Bytes {
    if calls == [] then []
    else Written(calls[..|calls| - 1]) + match calls[|calls| - 1] case Write(b) => b case Fin => []
  }

  /** No bytes lost, duplicated or reordered. */
  ghost predicate Stream(c: Conn) {
    Written(c.calls) + c.out == c.accepted
  }

  /** What callbacks took and what still waits is what arrived, in order. */
  ghost predicate InputStream(c: Conn) {
    c.consumed + c.inp == c.received
  }

  function OpenMask(open: bool, waiting: bool): Mask {
    if !open then NONE_EVENT else if waiting then READ_EVENT + WRITE_EVENT else READ_EVENT
  }

  lemma MaskFacts()
    ensures OpenMask(true, false) + WRITE_EVENT == OpenMask(true, true)
    ensures OpenMask(true, true) - WRITE_EVENT == OpenMask(true, false)
    ensures forall waiting :: OpenMask(false, waiting) == NONE_EVENT
    ensures NONE_EVENT + READ_EVENT == OpenMask(true, false)
    ensures forall open, waiting :: OpenMask(open, waiting) * WRITE_EVENT != {} <==> open && waiting
  {
    assert OUT in OpenMask(true, true) * WRITE_EVENT;
    assert (READ_EVENT + WRITE_EVENT) - WRITE_EVENT == READ_EVENT;
  }

  lemma WritingMeansWaiting(c: Conn)
    requires MaskFollows(c)
    ensures Writing(c) <==> Open(c) && c.out != []
  {
    MaskFacts();
  }

  /** Write interest is on exactly while bytes wait; read interest while open. */
  ghost predicate MaskFollows(c: Conn) {
    && c.events == OpenMask(Open(c), c.out != [])
    && (c.state.Connecting? ==> c.out == [] && c.calls == [] && c.closes == 0)
  }

  predicate SentFin(c: Conn) {
    c.calls != [] && c.calls[|c.calls| - 1].Fin?
  }

  /** FIN is the last call, comes after every accepted byte, and answers shutdown(). */
  ghost predicate FinLast(c: Conn) {
    && (forall i :: 0 <= i < |c.calls| - 1 ==> c.calls[i].Write?)
    && (SentFin(c) ==> c.out == [] && (c.state.Disconnecting? || c.state.Disconnected?))
    && (c.shut ==> !c.state.Connected? && !c.state.Connecting? && (c.out == [] <==> SentFin(c)))
  }

  ghost predicate ClosedOnce(c: Conn) {
    c.closes <= 1 && (c.closes == 1 ==> c.state.Disconnected?)
  }

  /** Upward crossings of the mark along a series of lengths. */
  function Crossings(lengths: seq<nat>, mark: nat): nat {
    if |lengths| <= 1 then 0
    else
      var n := |lengths|;
      Crossings(lengths[..n - 1], mark) + if lengths[n - 2] < mark <= lengths[n - 1] then 1 else 0
  }

  ghost predicate HighWaterCounted(c: Conn) {
    && c.lengths != [] && c.lengths[|c.lengths| - 1] == |c.out|
    && (c.wantsHigh ==> c.highs == Crossings(c.lengths, c.mark))
  }

  ghost predicate ConnInv(c: Conn) {
    Stream(c) && InputStream(c) && MaskFollows(c) && FinLast(c) && ClosedOnce(c) && HighWaterCounted(c)
  }

  function Rank(s: ConnState): nat {
    match s case Connecting => 0 case Connected => 1 case Disconnecting => 2 case Disconnected => 3
  }

  /** A handler keeps the invariant and never takes the state back. */
  ghost predicate Keeps(c: Conn, e: Effect) {
    !e.aborted ==> ConnInv(e.conn) && Rank(c.state) <= Rank(e.conn.state)
  }

  lemma FreshInv(mark: nat, wantsHigh: bool, wantsComplete: bool)
    ensures ConnInv(Fresh(mark, wantsHigh, wantsComplete))
  {
  }

  lemma WrittenSnoc(calls: seq<Call>, call: Call)
    ensures Written(calls + [call]) == Written(calls) + match call case Write(b) => b case Fin => []
  {
    assert (calls + [call])[..|calls|] == calls;
  }

  lemma CrossingsSnoc(lengths: seq<nat>, n: nat, mark: nat)
    requires lengths != []
    ensures Crossings(lengths + [n], mark)
            == Crossings(lengths, mark) + if lengths[|lengths| - 1] < mark <= n then 1 else 0
  {
    assert (lengths + [n])[..|lengths|] == lengths;
  }

  predicate SameInput(c: Conn, d: Conn) {
    d.inp == c.inp && d.received == c.received && d.consumed == c.consumed
  }

  /** What the second half of sendInLoop does, given the invariant. */
  lemma EnqueueShape(c: Conn, n: nat, data: Bytes, queued: seq<Kind>)
    requires c.state.Connected? && MaskFollows(c) && n < |data|
    ensures var e := Enqueue(c, data, n, queued).conn;
            && e.state == c.state && e.calls == c.calls && e.shut == c.shut && e.closes == c.closes
            && e.mark == c.mark && e.wantsHigh == c.wantsHigh && SameInput(c, e)
            && e.accepted == c.accepted + data && e.out == c.out + data[n..]
            && e.events == OpenMask(true, true)
            && e.lengths == c.lengths + [|e.out|]
            && e.highs == c.highs + if c.wantsHigh && |c.out| < c.mark <= |e.out| then 1 else 0
  {
    hide OpenMask;
    MaskFacts();
    WritingMeansWaiting(c);
  }

  lemma EnqueueKeeps(c: Conn, n: nat, data: Bytes, queued: seq<Kind>)
    requires c.state.Connected? && InputStream(c) && MaskFollows(c) && FinLast(c) && ClosedOnce(c) && HighWaterCounted(c)
    requires n <= |data|
    requires Written(c.calls) + c.out + data[n..] == c.accepted + data
    ensures var e := Enqueue(c, data, n, queued); ConnInv(e.conn) && e.conn.state == c.state
  {
    hide OpenMask, Written, Crossings;
    if n == |data| {
      assert data[|data|..] == [];
      assert Written(c.calls) + c.out + [] == Written(c.calls) + c.out;
    } else {
      EnqueueShape(c, n, data, queued);
      hide Enqueue;
      var e := Enqueue(c, data, n, queued).conn;
      CrossingsSnoc(c.lengths, |e.out|, c.mark);
      assert Stream(e) by { assert Written(c.calls) + (c.out + data[n..]) == Written(c.calls) + c.out + data[n..]; }
      assert FinLast(e);
    }
  }

  lemma SendKeeps(c: Conn, data: Bytes, w: WriteResult)
    requires ConnInv(c) && (w.Wrote? ==> w.n <= |data|)
    ensures Keeps(c, Send(c, data, w))
  {
    hide OpenMask, FinLast, ClosedOnce, HighWaterCounted, Enqueue, Written;
    if c.state.Connected? {
      WritingMeansWaiting(c);
      if Writing(c) || |c.out| != 0 {
        SplitPayload(c, data, 0, c.calls);
        EnqueueKeeps(c, 0, data, []);
      } else if w.Wrote? {
        DirectWriteKeeps(c, data, w.n, if w.n == |data| && c.wantsComplete then [WriteComplete] else []);
      } else {
        assert data[..0] == [];
        DirectWriteKeeps(c, data, 0, []);
      }
    }
  }

  lemma SplitPayload(c: Conn, data: Bytes, n: nat, calls: seq<Call>)
    requires Stream(c) && n <= |data| && (n == 0 || c.out == [])
    requires Written(calls) == Written(c.calls) + data[..n]
    ensures Written(calls) + c.out + data[n..] == c.accepted + data
  {
    hide Written;
    assert data == data[..n] + data[n..];
    if n == 0 { assert data[..0] == [] && data[0..] == data; }
  }

  lemma DirectWriteKeeps(c: Conn, data: Bytes, n: nat, queued: seq<Kind>)
    requires ConnInv(c) && c.state.Connected? && c.out == [] && n <= |data|
    ensures var e := Enqueue(c.(calls := c.calls + [Write(data[..n])]), data, n, queued);
            ConnInv(e.conn) && e.conn.state == c.state
  {
    hide OpenMask, FinLast, ClosedOnce, HighWaterCounted, Enqueue, Written;
    var c1 := c.(calls := c.calls + [Write(data[..n])]);
    WroteDirectly(c, data[..n], c1);
    SplitPayload(c, data, n, c1.calls);
    EnqueueKeeps(c1, n, data, queued);
  }

  lemma WroteDirectly(c: Conn, bytes: Bytes, c1: Conn)
    requires ConnInv(c) && c.state.Connected? && c1 == c.(calls := c.calls + [Write(bytes)])
    ensures Written(c1.calls) == Written(c.calls) + bytes
    ensures InputStream(c1) && MaskFollows(c1) && FinLast(c1) && ClosedOnce(c1) && HighWaterCounted(c1)
  {
    hide Crossings, OpenMask, Written;
    WrittenSnoc(c.calls, Write(bytes));
  }

  lemma ShutdownKeeps(c: Conn)
    requires ConnInv(c)
    ensures Keeps(c, Shutdown(c))
  {
    hide OpenMask, Written, Crossings;
    WritingMeansWaiting(c);
    WrittenSnoc(c.calls, Fin);
    assert Written(c.calls) + [] == Written(c.calls);
  }

  lemma ForceClosingKeeps(c: Conn)
    requires ConnInv(c)
    ensures Keeps(c, ForceClosing(c))
  {
  }

  lemma HandleCloseKeeps(c: Conn)
    requires ConnInv(c) && Open(c)
    ensures Keeps(c, HandleClose(c))
  {
  }

  lemma EstablishedKeeps(c: Conn)
    requires ConnInv(c) && c.state.Connecting?
    ensures Keeps(c, ConnectEstablished(c))
  {
  }

  lemma DestroyedKeeps(c: Conn)
    requires ConnInv(c)
    ensures Keeps(c, ConnectDestroyed(c))
  {
  }

  lemma HandleReadKeeps(c: Conn, r: ReadResult)
    requires ConnInv(c) && Open(c)
    ensures Keeps(c, HandleRead(c, r))
  {
    hide Written, Crossings;
    if r.Arrived? && r.data != [] {
      hide OpenMask;
      assert c.consumed + (c.inp + r.data) == (c.consumed + c.inp) + r.data;
    }
  }

  lemma TakeInputKeeps(c: Conn, n: nat)
    requires ConnInv(c)
    ensures Keeps(c, TakeInput(c, n))
  {
    hide Written, Crossings, OpenMask;
    var k := if n < |c.inp| then n else |c.inp|;
    assert c.inp == c.inp[..k] + c.inp[k..];
    assert (c.consumed + c.inp[..k]) + c.inp[k..] == c.consumed + c.inp;
  }

  lemma HandleWriteKeeps(c: Conn, w: WriteResult)
    requires ConnInv(c) && (w.Wrote? ==> w.n <= |c.out|)
    ensures Keeps(c, HandleWrite(c, w))
  {
    hide ConnInv, OpenMask;
    WritingNeedsBytes(c);
    if Writing(c) {
      if w.WriteFailed? || w.n == 0 {
        NoProgressKeeps(c);
      } else {
        DrainShape(c, w.n);
        hide HandleWrite, OpenMask;
        DrainKeeps(c, w.n, HandleWrite(c, w).conn);
      }
    }
  }

  lemma WritingNeedsBytes(c: Conn)
    requires ConnInv(c)
    ensures MaskFollows(c) && (Writing(c) <==> Open(c) && c.out != [])
  {
    WritingMeansWaiting(c);
  }

  lemma NoProgressKeeps(c: Conn)
    requires ConnInv(c) && Open(c) && c.out != []
    ensures ConnInv(c.(calls := c.calls + [Write([])]))
  {
    hide OpenMask, Crossings, Written;
    WrittenSnoc(c.calls, Write([]));
    assert Written(c.calls) + [] == Written(c.calls);
    var d := c.(calls := c.calls + [Write([])]);
    assert Stream(d);
    assert FinLast(d);
    hide Stream, FinLast;
  }

  /** What a successful drain of `n` bytes does, given the invariant. */
  lemma DrainShape(c: Conn, n: nat)
    requires MaskFollows(c) && Open(c) && 0 < n <= |c.out|
    ensures var d := HandleWrite(c, Wrote(n)).conn;
            var written := c.calls + [Write(c.out[..n])];
            && d.state == c.state && d.out == c.out[n..] && d.accepted == c.accepted && SameInput(c, d)
            && d.shut == c.shut && d.closes == c.closes && d.mark == c.mark && d.wantsHigh == c.wantsHigh && d.highs == c.highs
            && d.lengths == c.lengths + [|d.out|] && d.events == OpenMask(true, d.out != [])
            && d.calls == if d.out == [] && c.state.Disconnecting? then written + [Fin] else written
  {
    hide OpenMask;
    MaskFacts();
    WritingMeansWaiting(c);
  }

  lemma DrainKeeps(c: Conn, n: nat, d: Conn)
    requires ConnInv(c) && Open(c) && 0 < n <= |c.out|
    requires d.state == c.state && d.out == c.out[n..] && d.accepted == c.accepted && SameInput(c, d)
    requires d.shut == c.shut && d.closes == c.closes && d.mark == c.mark && d.wantsHigh == c.wantsHigh && d.highs == c.highs
    requires d.lengths == c.lengths + [|d.out|] && d.events == OpenMask(true, d.out != [])
    requires var written := c.calls + [Write(c.out[..n])];
             d.calls == if d.out == [] && c.state.Disconnecting? then written + [Fin] else written
    ensures ConnInv(d)
  {
    hide OpenMask, Stream, Written, Crossings, FinLast;
    DrainStream(c, n, d);
    CrossingsSnoc(c.lengths, |d.out|, c.mark);
    NoFinWhileWaiting(c);
    DrainFin(c.calls, Write(c.out[..n]), d);
  }

  lemma NoFinWhileWaiting(c: Conn)
    requires FinLast(c) && c.out != []
    ensures forall i :: 0 <= i < |c.calls| ==> c.calls[i].Write?
    ensures Open(c) ==> c.shut ==> c.state.Disconnecting?
  {
  }

  lemma DrainFin(calls: seq<Call>, w: Call, d: Conn)
    requires forall i :: 0 <= i < |calls| ==> calls[i].Write?
    requires w.Write? && Open(d) && (d.shut ==> d.state.Disconnecting?)
    requires d.calls == if d.out == [] && d.state.Disconnecting? then calls + [w] + [Fin] else calls + [w]
    ensures FinLast(d)
  {
  }

  lemma DrainStream(c: Conn, n: nat, d: Conn)
    requires Stream(c) && n <= |c.out| && d.out == c.out[n..] && d.accepted == c.accepted
    requires var written := c.calls + [Write(c.out[..n])]; d.calls == written || d.calls == written + [Fin]
    ensures Stream(d)
  {
    hide Written;
    var written := c.calls + [Write(c.out[..n])];
    WrittenSnoc(c.calls, Write(c.out[..n]));
    WrittenSnoc(written, Fin);
    assert Written(written) + [] == Written(written);
    Regroup(Written(c.calls), c.out, n);
  }

  lemma Regroup(a: Bytes, b: Bytes, n: nat)
    requires n <= |b|
    ensures (a + b[..n]) + b[n..] == a + b
  {
    assert b == b[..n] + b[n..];
  }

  // ----- what the callbacks may rely on -----

  ghost predicate Flushed(c: Conn) {
    c.out == [] && Written(c.calls) == c.accepted
  }

  /** A write-complete callback is queued exactly when this send left nothing unwritten and wrote directly. */
  lemma SendCompletes(c: Conn, data: Bytes, w: WriteResult)
    requires ConnInv(c) && (w.Wrote? ==> w.n <= |data|)
    ensures var e := Send(c, data, w);
            !e.aborted ==>
              (WriteComplete in e.queued <==> c.wantsComplete && c.state.Connected? && c.out == [] && w.Wrote? && Flushed(e.conn))
  {
    SendKeeps(c, data, w);
    WritingNeedsBytes(c);
    hide ConnInv, Written;
    if c.state.Connected? {
      FlushedIffEmpty(Send(c, data, w).conn);
      if Writing(c) || |c.out| != 0 {
        EnqueueQueued(c, data, 0, []);
      } else if w.Wrote? {
        EnqueueQueued(c.(calls := c.calls + [Write(data[..w.n])]), data, w.n, if w.n == |data| && c.wantsComplete then [WriteComplete] else []);
      } else {
        EnqueueQueued(c.(calls := c.calls + [Write([])]), data, 0, []);
      }
    }
  }

  lemma FlushedIffEmpty(c: Conn)
    ensures ConnInv(c) ==> (Flushed(c) <==> c.out == [])
  {
    hide Written;
    assert c.out == [] ==> Written(c.calls) + c.out == Written(c.calls);
  }

  lemma EnqueueQueued(c: Conn, data: Bytes, n: nat, queued: seq<Kind>)
    requires n <= |data|
    ensures var e := Enqueue(c, data, n, queued);
            && !e.aborted && (WriteComplete in e.queued <==> WriteComplete in queued)
            && (e.conn.out == [] <==> c.out == [] && n == |data|)
  {
  }

  /** Draining queues it exactly when it wrote the last waiting byte. */
  lemma HandleWriteCompletes(c: Conn, w: WriteResult)
    requires ConnInv(c) && (w.Wrote? ==> w.n <= |c.out|)
    ensures var e := HandleWrite(c, w);
            WriteComplete in e.queued <==> c.wantsComplete && Open(c) && c.out != [] && Flushed(e.conn)
  {
    HandleWriteKeeps(c, w);
    WritingNeedsBytes(c);
    DrainQueued(c, w);
    hide ConnInv, Flushed, HandleWrite;
    FlushedIffEmpty(HandleWrite(c, w).conn);
  }

  lemma DrainQueued(c: Conn, w: WriteResult)
    requires w.Wrote? ==> w.n <= |c.out|
    ensures var e := HandleWrite(c, w);
            && !e.aborted
            && (WriteComplete in e.queued <==> c.wantsComplete && Writing(c) && w.Wrote? && w.n > 0 && e.conn.out == [])
            && (Writing(c) && !(w.Wrote? && w.n > 0) ==> e.conn.out == c.out)
  {
  }

  /** FIN is sent at most once, after the last accepted byte, and no write() follows it. */
  lemma FinIsFinal(c: Conn, i: nat)
    requires ConnInv(c) && i < |c.calls| && c.calls[i].Fin?
    ensures i == |c.calls| - 1 && Flushed(c) && Written(c.calls[..i]) == c.accepted
  {
    assert c.calls[..i] + [Fin] == c.calls;
    WrittenSnoc(c.calls[..i], Fin);
  }
}
