/** What each call does to a connection, told by its fields before and after and by what the kernel answered. */
module ConnectionCalls {
  import opened Kernel
  import opened PollerSpec
  import opened ConnectionSpec
  import opened ChannelSpec

  /** The settings and the histories a call does not speak of are left alone. */
  predicate SameSettings(c: Conn, d: Conn) {
    d.mark == c.mark && d.wantsHigh == c.wantsHigh && d.wantsComplete == c.wantsComplete
  }

  predicate SameOutput(c: Conn, d: Conn) {
    && d.out == c.out && d.accepted == c.accepted && d.calls == c.calls && d.shut == c.shut
    && d.lengths == c.lengths && d.highs == c.highs
  }

  /** The bytes of `data` a first write took; there is one only when nothing waits. */
  function TakenAtOnce(c: Conn, w: WriteResult): nat {
    if c.out == [] && w.Wrote? then w.n else 0
  }

  /** The high-water callback, when the output grew to the mark or past it. */
  function HighWaters(c: Conn, d: Conn): seq<Kind> {
    if c.wantsHigh && |c.out| < c.mark <= |d.out| then [HighWater(|d.out|)] else []
  }

  /** The accounts of the output length. */
  predicate LengthsFollow(c: Conn, d: Conn) {
    && d.lengths == (if d.out == c.out then c.lengths else c.lengths + [|d.out|])
    && d.highs == c.highs + |HighWaters(c, d)|
  }

  /** send(data) on a connected connection: every byte is written or waits, behind those that waited. */
  ghost predicate SendDone(c: Conn, data: Bytes, w: WriteResult, e: Effect)
    requires w.Wrote? ==> w.n <= |data|
  {
    var d, took := e.conn, TakenAtOnce(c, w);
    && d.out == c.out + data[took..]
    && d.calls == c.calls + (if c.out == [] then [Write(data[..took])] else [])
    && d.accepted == c.accepted + data && Written(d.calls) + d.out == Written(c.calls) + c.out + data
    && d.state == c.state && d.closes == c.closes && d.shut == c.shut && SameInput(c, d) && SameSettings(c, d)
    && d.events == (if d.out == [] then READ_EVENT else READ_EVENT + WRITE_EVENT)
    && e.pushes == (if d.events == c.events then [] else [d.events]) && e.closed == 0
    && e.queued == (if c.wantsComplete && c.out == [] && w.Wrote? && d.out == [] then [WriteComplete] else []) + HighWaters(c, d)
    && LengthsFollow(c, d)
  }

  /** What the second half of sendInLoop leaves. */
  ghost predicate Kept(c: Conn, rest: Bytes, data: Bytes, queued: seq<Kind>, e: Effect) {
    var d := e.conn;
    && d.out == c.out + rest && d.calls == c.calls && d.accepted == c.accepted + data
    && d.state == c.state && d.closes == c.closes && d.shut == c.shut && SameInput(c, d) && SameSettings(c, d)
    && d.events == (if rest == [] then c.events else READ_EVENT + WRITE_EVENT)
    && e.pushes == (if d.events == c.events then [] else [d.events]) && e.closed == 0 && !e.aborted
    && e.queued == queued + HighWaters(c, d)
    && LengthsFollow(c, d)
  }

  lemma EnqueueOutcome(c: Conn, n: nat, data: Bytes, queued: seq<Kind>)
    requires c.state.Connected? && MaskFollows(c) && n <= |data|
    ensures Kept(c, data[n..], data, queued, Enqueue(c, data, n, queued))
  {
    assert c.out + [] == c.out && queued + [] == queued;
    if n < |data| {
      EnqueueShape(c, n, data, queued);
      EnqueueAsks(c, n, data, queued);
      hide Enqueue, MaskFollows;
    }
  }

  /** What it asks of poller and loop. */
  lemma EnqueueAsks(c: Conn, n: nat, data: Bytes, queued: seq<Kind>)
    requires c.state.Connected? && MaskFollows(c) && n < |data|
    ensures var e := Enqueue(c, data, n, queued);
            && e.pushes == (if c.events == OpenMask(true, true) then [] else [OpenMask(true, true)])
            && e.queued == queued + HighWaters(c, e.conn) && e.closed == 0 && !e.aborted
            && e.conn.wantsComplete == c.wantsComplete
    ensures OpenMask(true, true) == READ_EVENT + WRITE_EVENT
  {
    MaskFacts();
    WritingMeansWaiting(c);
    assert queued + [] == queued;
    assert OUT in OpenMask(true, true) && OUT !in OpenMask(true, false);
    hide OpenMask;
  }

  /** sendInLoop by its halves. */
  lemma SendHalves(c: Conn, data: Bytes, w: WriteResult)
    requires ConnInv(c) && (w.Wrote? ==> w.n <= |data|)
    ensures !c.state.Connected? ==> Send(c, data, w) == Plain(c)
    ensures c.state.Connected? && c.out != [] ==> Send(c, data, w) == Enqueue(c, data, 0, [])
    ensures c.state.Connected? && c.out == [] && w.WriteFailed? && w.errno != EWOULDBLOCK ==> Send(c, data, w).aborted
    ensures c.state.Connected? && c.out == [] && !(w.WriteFailed? && w.errno != EWOULDBLOCK) ==>
              var n := TakenAtOnce(c, w);
              Send(c, data, w) == Enqueue(c.(calls := c.calls + [Write(data[..n])]), data, n,
                                          if w.Wrote? && n == |data| && c.wantsComplete then [WriteComplete] else [])
  {
    WritingNeedsBytes(c);
    assert data[..0] == [];
    hide ConnInv, Enqueue;
  }

  lemma SendOutcome(c: Conn, data: Bytes, w: WriteResult)
    requires ConnInv(c) && (w.Wrote? ==> w.n <= |data|)
    ensures !c.state.Connected? ==> Send(c, data, w) == Plain(c)
    ensures Send(c, data, w).aborted <==> c.state.Connected? && c.out == [] && w.WriteFailed? && w.errno != EWOULDBLOCK
    ensures c.state.Connected? && !Send(c, data, w).aborted ==> SendDone(c, data, w, Send(c, data, w))
  {
    SendHalves(c, data, w);
    SendStreams(c, data, w);
    if c.state.Connected? && !(c.out == [] && w.WriteFailed? && w.errno != EWOULDBLOCK) {
      OpenEvents(c);
      var n := TakenAtOnce(c, w);
      var c1 := if c.out == [] then c.(calls := c.calls + [Write(data[..n])]) else c;
      var queued := if w.Wrote? && n == |data| && c.wantsComplete && c.out == [] then [WriteComplete] else [];
      EnqueueOutcome(c1, n, data, queued);
      hide ConnInv, Enqueue, Send, Written, Kept, SendDone;
      KeptIsDone(c, c1, data, w, queued, Send(c, data, w));
    }
  }

  lemma KeptIsDone(c: Conn, c1: Conn, data: Bytes, w: WriteResult, queued: seq<Kind>, e: Effect)
    requires w.Wrote? ==> w.n <= |data|
    requires c1 == if c.out == [] then c.(calls := c.calls + [Write(data[..TakenAtOnce(c, w)])]) else c
    requires c.events == if c.out == [] then READ_EVENT else READ_EVENT + WRITE_EVENT
    requires queued == if w.Wrote? && TakenAtOnce(c, w) == |data| && c.wantsComplete && c.out == [] then [WriteComplete] else []
    requires Kept(c1, data[TakenAtOnce(c, w)..], data, queued, e)
    requires e.conn.accepted == c.accepted + data ==> Written(e.conn.calls) + e.conn.out == Written(c.calls) + c.out + data
    ensures SendDone(c, data, w, e)
  {
    hide Written;
    assert c.calls + [] == c.calls;
  }

  lemma OpenEvents(c: Conn)
    requires ConnInv(c) && Open(c)
    ensures c.events == if c.out == [] then READ_EVENT else READ_EVENT + WRITE_EVENT
  {
  }

  /** The stream, from the invariant before and after. */
  lemma SendStreams(c: Conn, data: Bytes, w: WriteResult)
    requires ConnInv(c) && (w.Wrote? ==> w.n <= |data|)
    ensures var d := Send(c, data, w).conn;
            !Send(c, data, w).aborted && d.accepted == c.accepted + data ==> Written(d.calls) + d.out == Written(c.calls) + c.out + data
  {
    SendKeeps(c, data, w);
    hide Written, Send, MaskFollows, FinLast, HighWaterCounted;
  }

  /** shutdown(): FIN at once if nothing waits, otherwise when the output has drained. */
  ghost predicate ShutdownDone(c: Conn, e: Effect) {
    var d := e.conn;
    && d.state == Disconnecting && d.shut && d.calls == c.calls + (if c.out == [] then [Fin] else [])
    && d.out == c.out && d.accepted == c.accepted && d.events == c.events && d.closes == c.closes && SameInput(c, d) && SameSettings(c, d)
    && d.lengths == c.lengths && d.highs == c.highs
    && e.pushes == [] && e.queued == [] && e.closed == 0 && !e.aborted
  }

  lemma ShutdownOutcome(c: Conn, data: Bytes, w: WriteResult)
    requires ConnInv(c) && (w.Wrote? ==> w.n <= |data|)
    ensures !c.state.Connected? ==> Shutdown(c) == Plain(c)
    ensures c.state.Connected? ==> ShutdownDone(c, Shutdown(c))
    ensures c.state.Connected? ==> Send(Shutdown(c).conn, data, w) == Plain(Shutdown(c).conn)
  {
  }

  /** forceClose() on an open connection: one functor, and sends are refused from now on. */
  ghost predicate ForceCloseDone(c: Conn, e: Effect) {
    && e.conn == c.(state := Disconnecting)
    && e.queued == [ForceClose] && e.pushes == [] && e.closed == 0 && !e.aborted
  }

  /** An open connection is closed: the mask is empty, the close callback is due, and the bytes stay where they are. */
  ghost predicate CloseDone(c: Conn, e: Effect) {
    var d := e.conn;
    && d.state == Disconnected && d.events == {} && d.closes == c.closes + 1
    && SameOutput(c, d) && SameInput(c, d) && SameSettings(c, d)
    && e.pushes == [{}] && e.queued == [] && e.closed == 1 && !e.aborted
  }

  lemma ForceCloseOutcome(c: Conn)
    ensures if c.state == Connected || c.state == Disconnecting then ForceCloseDone(c, ForceClosing(c)) else ForceClosing(c) == Plain(c)
    ensures if c.state == Connected || c.state == Disconnecting then CloseDone(c, ForceCloseInLoop(c)) else ForceCloseInLoop(c) == Plain(c)
  {
  }

  lemma CloseOutcome(c: Conn)
    ensures CloseDone(c, HandleClose(c))
  {
  }

  /** connectEstablished: connected, and read interest pushed. */
  lemma EstablishedOutcome(c: Conn)
    requires ConnInv(c) && c.state == Connecting
    ensures var e := ConnectEstablished(c);
            && e.conn == c.(state := Connected, events := READ_EVENT)
            && e.pushes == [READ_EVENT] && e.queued == [] && e.closed == 0 && !e.aborted
  {
  }

  /** connectDestroyed before the channel goes: only a connection still connected changes. */
  lemma DestroyedOutcome(c: Conn)
    ensures var e := ConnectDestroyed(c);
            && e.conn == (if c.state == Connected then c.(state := Disconnected, events := {}) else c)
            && e.pushes == (if c.state == Connected then [{}] else []) && e.queued == [] && e.closed == 0 && !e.aborted
  {
  }

  /** handleRead: what arrived waits behind what waited; the end of file closes; an error ends the process. */
  ghost predicate ReadDone(c: Conn, r: ReadResult, e: Effect) {
    match r
    case ReadFailed(_) => e.aborted
    case Arrived(data) =>
      if data == [] then CloseDone(c, e)
      else
        && e.conn.inp == c.inp + data && e.conn.received == c.received + data && e.conn.consumed == c.consumed
        && e.conn == c.(inp := e.conn.inp, received := e.conn.received)
        && e.pushes == [] && e.queued == [] && e.closed == 0 && !e.aborted
  }

  lemma ReadOutcome(c: Conn, r: ReadResult)
    ensures ReadDone(c, r, HandleRead(c, r))
  {
  }

  /** A callback takes bytes: those in front, as many as it asked for or as there are. */
  lemma TakeOutcome(c: Conn, n: nat)
    ensures var e := TakeInput(c, n);
            && e.conn == c.(inp := e.conn.inp, consumed := e.conn.consumed)
            && e.pushes == [] && e.queued == [] && e.closed == 0 && !e.aborted
            && c.consumed <= e.conn.consumed
            && var taken := e.conn.consumed[|c.consumed|..];
               c.inp == taken + e.conn.inp && (|taken| == n || (|taken| < n && e.conn.inp == []))
  {
    var k := if n < |c.inp| then n else |c.inp|;
    assert c.inp == c.inp[..k] + c.inp[k..];
    assert TakeInput(c, n).conn.consumed[|c.consumed|..] == c.inp[..k];
  }

  /** The bytes a drain wrote. */
  function Taken(w: WriteResult): nat {
    if w.Wrote? then w.n else 0
  }

  /**
   handleWrite with bytes waiting: what the kernel took leaves from the front.
   With the last one write interest goes, the completion is queued, and a FIN
   that was waiting is sent.
   */
  ghost predicate WriteDone(c: Conn, w: WriteResult, e: Effect)
    requires w.Wrote? ==> w.n <= |c.out|
  {
    var d, took := e.conn, Taken(w);
    && d.out == c.out[took..]
    && d.calls == c.calls + [Write(c.out[..took])] + (if d.out == [] && c.state == Disconnecting then [Fin] else [])
    && Written(d.calls) == Written(c.calls) + c.out[..took]
    && d.state == c.state && d.closes == c.closes && d.shut == c.shut && d.accepted == c.accepted && SameInput(c, d) && SameSettings(c, d)
    && d.events == (if d.out == [] then READ_EVENT else READ_EVENT + WRITE_EVENT)
    && e.pushes == (if d.out == [] then [READ_EVENT] else []) && e.closed == 0 && !e.aborted
    && e.queued == (if d.out == [] && c.wantsComplete then [WriteComplete] else [])
    && LengthsFollow(c, d)
  }

  lemma WriteOutcome(c: Conn, w: WriteResult)
    requires ConnInv(c) && (w.Wrote? ==> w.n <= |c.out|)
    ensures if Open(c) && c.out != [] then WriteDone(c, w, HandleWrite(c, w)) else HandleWrite(c, w) == Plain(c)
  {
    WritingNeedsBytes(c);
    if Open(c) && c.out != [] {
      OpenEvents(c);
      if Taken(w) > 0 { DrainOutcome(c, w); } else { StallOutcome(c, w); }
    } else {
      hide ConnInv;
    }
  }

  lemma DrainOutcome(c: Conn, w: WriteResult)
    requires MaskFollows(c) && Open(c) && (w.Wrote? ==> w.n <= |c.out|) && Taken(w) > 0
    ensures WriteDone(c, w, HandleWrite(c, w))
  {
    DrainShape(c, w.n);
    DrainAsks(c, w.n);
    DrainedMask();
    hide Written, HandleWrite, Writing, OpenMask, MaskFollows, WriteDone, READ_EVENT, WRITE_EVENT;
    WriteIsDone(c, w, HandleWrite(c, w));
  }

  lemma StallOutcome(c: Conn, w: WriteResult)
    requires Writing(c) && Open(c) && c.out != [] && (w.Wrote? ==> w.n <= |c.out|) && Taken(w) == 0
    requires c.events == READ_EVENT + WRITE_EVENT
    ensures WriteDone(c, w, HandleWrite(c, w))
  {
    assert c.out[..0] == [] && c.out[0..] == c.out;
    assert HandleWrite(c, w) == Plain(c.(calls := c.calls + [Write([])]));
    hide Written, HandleWrite, Writing, WriteDone, READ_EVENT, WRITE_EVENT;
    WriteIsDone(c, w, HandleWrite(c, w));
  }

  lemma WriteIsDone(c: Conn, w: WriteResult, e: Effect)
    requires (w.Wrote? ==> w.n <= |c.out|) && c.out != []
    requires var d, took := e.conn, Taken(w);
             var written := c.calls + [Write(c.out[..took])];
             && d.out == c.out[took..] && d.calls == (if d.out == [] && c.state == Disconnecting then written + [Fin] else written)
             && d.state == c.state && d.closes == c.closes && d.shut == c.shut && d.accepted == c.accepted && SameInput(c, d) && SameSettings(c, d)
             && d.events == (if d.out == [] then READ_EVENT else READ_EVENT + WRITE_EVENT)
             && d.lengths == (if took == 0 then c.lengths else c.lengths + [|d.out|]) && d.highs == c.highs
    requires e.pushes == (if e.conn.out == [] then [READ_EVENT] else []) && e.closed == 0 && !e.aborted
    requires e.queued == (if e.conn.out == [] && c.wantsComplete then [WriteComplete] else [])
    ensures WriteDone(c, w, e)
  {
    WrittenBy(c, Taken(w));
    hide Written, READ_EVENT, WRITE_EVENT;
  }

  lemma DrainedMask()
    ensures OpenMask(true, true) == READ_EVENT + WRITE_EVENT && OpenMask(true, false) == READ_EVENT
  {
  }

  lemma WrittenBy(c: Conn, took: nat)
    requires took <= |c.out|
    ensures var written := c.calls + [Write(c.out[..took])];
            && Written(written) == Written(c.calls) + c.out[..took] && Written(written + [Fin]) == Written(written)
            && written + [] == written
  {
    var written := c.calls + [Write(c.out[..took])];
    WrittenSnoc(c.calls, Write(c.out[..took]));
    WrittenSnoc(written, Fin);
    assert Written(written) + [] == Written(written);
  }

  /** What draining `n` bytes asks of poller and loop. */
  lemma DrainAsks(c: Conn, n: nat)
    requires MaskFollows(c) && Open(c) && 0 < n <= |c.out|
    ensures var e := HandleWrite(c, Wrote(n));
            && e.pushes == (if e.conn.out == [] then [OpenMask(true, false)] else []) && e.closed == 0 && !e.aborted
            && e.queued == (if e.conn.out == [] && c.wantsComplete then [WriteComplete] else [])
            && e.conn.wantsComplete == c.wantsComplete
  {
    hide OpenMask;
    MaskFacts();
    WritingMeansWaiting(c);
  }

  // ----- one test of an event -----

  /** Which handler one test runs. */
  ghost predicate PartDone(c: Conn, revents: Mask, part: Part, r: ReadResult, w: WriteResult, e: Effect)
    requires part.WritePart? && w.Wrote? ==> w.n <= |c.out|
  {
    match part
    case ClosePart => if HUP in revents && IN !in revents then CloseDone(c, e) else e == Plain(c)
    case ErrorPart => if ERR in revents then e.aborted else e == Plain(c)
    case ReadPart => if IN in revents || PRI in revents then ReadDone(c, r, e) else e == Plain(c)
    case WritePart => if OUT in revents && Open(c) && c.out != [] then WriteDone(c, w, e) else e == Plain(c)
  }

  lemma PartOutcome(c: Conn, revents: Mask, part: Part, r: ReadResult, w: WriteResult)
    requires ConnInv(c) && (part.WritePart? && w.Wrote? ==> w.n <= |c.out|)
    ensures PartDone(c, revents, part, r, w, RunPart(c, revents, part, r, w))
  {
    CloseOutcome(c);
    ReadOutcome(c, r);
    if part.WritePart? { WriteOutcome(c, w); }
    hide ConnInv, CloseDone, ReadDone, WriteDone, HandleClose, HandleRead, HandleWrite;
  }
}
