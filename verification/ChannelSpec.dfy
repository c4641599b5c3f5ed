/** Channel::handleEventWithGuard: which handlers one event mask runs, and in what order. */
module ChannelSpec {
  import opened Kernel
  import opened PollerSpec
  import opened ConnectionSpec

  /** The four tests of handleEventWithGuard, in source order. */
  datatype Part = ClosePart | ErrorPart | ReadPart | WritePart

  function RunPart(c: Conn, revents: Mask, part: Part, r: ReadResult, w: WriteResult): Effect
    requires part.WritePart? && w.Wrote? ==> w.n <= |c.out|
  {
    match part
    case ClosePart => if HUP in revents && IN !in revents then HandleClose(c) else Plain(c)
    case ErrorPart => if ERR in revents then Abort(c) else Plain(c)
    case ReadPart => if IN in revents || PRI in revents then HandleRead(c, r) else Plain(c)
    case WritePart => if OUT in revents then HandleWrite(c, w) else Plain(c)
  }

  function Then(e: Effect, f: Effect): Effect {
    if e.aborted then e
    else Effect(f.conn, e.pushes + f.pushes, e.queued + f.queued, e.closed + f.closed, f.aborted)
  }

  /** One whole call, with callbacks that leave the connection alone. */
  function HandleEvent(c: Conn, revents: Mask, r: ReadResult, w: WriteResult): Effect
    requires w.Wrote? ==> w.n <= |c.out|
  {
    var e1 := RunPart(c, revents, ClosePart, r, w);
    var e2 := Then(e1, RunPart(e1.conn, revents, ErrorPart, r, w));
    var e3 := Then(e2, RunPart(e2.conn, revents, ReadPart, r, w));
    Then(e3, RunPart(e3.conn, revents, WritePart, r, w))
  }

  /** Hang-up without input runs the close handler; urgent data then runs the read handler too. */
  predicate ClosesTwice(revents: Mask) {
    HUP in revents && PRI in revents && IN !in revents && ERR !in revents
  }

  /**
   One event closes a connection at most once exactly when its mask does not
   carry HUP and PRI without IN (an error bit ends the process before the read).
   */
  lemma ClosesAtMostOnceIff(revents: Mask)
    ensures (forall c: Conn, r: ReadResult, w: WriteResult :: ConnInv(c) && Open(c) && (w.Wrote? ==> w.n <= |c.out|) ==>
               HandleEvent(c, revents, r, w).closed <= 1)
            <==> !ClosesTwice(revents)
  {
    if ClosesTwice(revents) {
      var newborn := Fresh(1, false, false);
      FreshInv(1, false, false);
      EstablishedKeeps(newborn);
      var c := ConnectEstablished(newborn).conn;
      assert ConnInv(c) && Open(c);
      assert HandleEvent(c, revents, Arrived([]), Wrote(0)).closed == 2;
    }
  }

  /** One whole event on an open connection keeps its invariant, unless the mask closes twice. */
  lemma HandleEventKeeps(c: Conn, revents: Mask, r: ReadResult, w: WriteResult)
    requires ConnInv(c) && Open(c) && !ClosesTwice(revents) && (w.Wrote? ==> w.n <= |c.out|)
    ensures Keeps(c, HandleEvent(c, revents, r, w)) && HandleEvent(c, revents, r, w).closed <= 1
  {
    var e1 := RunPart(c, revents, ClosePart, r, w);
    FirstPartKeeps(c, revents, r, w);
    EventWithoutError(c, revents, r, w);
    hide ConnInv, HandleEvent, RunPart;
    if ERR !in revents {
      ReadPartKeeps(e1.conn, revents, r, w);
      var e3 := RunPart(e1.conn, revents, ReadPart, r, w);
      WritePartKeeps(e3, revents, r, w);
    }
  }

  lemma EventWithoutError(c: Conn, revents: Mask, r: ReadResult, w: WriteResult)
    requires (w.Wrote? ==> w.n <= |c.out|)
    ensures var e := HandleEvent(c, revents, r, w);
            var e1 := RunPart(c, revents, ClosePart, r, w);
            var e3 := RunPart(e1.conn, revents, ReadPart, r, w);
            && (ERR in revents ==> e.aborted && e.closed <= 1) && e3.conn.out == c.out
            && var e4 := RunPart(e3.conn, revents, WritePart, r, w);
            ERR !in revents ==>
              e.aborted == e3.aborted && (!e.aborted ==> e.conn == e4.conn) && e.closed == e1.closed + e3.closed
  {
    hide HandleWrite, HandleRead, HandleClose;
    var e1 := RunPart(c, revents, ClosePart, r, w);
    ReadKeepsOut(c, r);
    ReadKeepsOut(e1.conn, r);
    WriteIsQuiet(RunPart(e1.conn, revents, ReadPart, r, w).conn, w);
  }

  lemma ReadKeepsOut(c: Conn, r: ReadResult)
    ensures HandleRead(c, r).conn.out == c.out && HandleRead(c, r).closed <= 1
    ensures HandleClose(c).conn.out == c.out && HandleClose(c).closed == 1 && !HandleClose(c).aborted
  {
  }

  lemma WriteIsQuiet(c: Conn, w: WriteResult)
    requires w.Wrote? ==> w.n <= |c.out|
    ensures HandleWrite(c, w).closed == 0 && !HandleWrite(c, w).aborted
  {
  }

  lemma WritePartKeeps(e: Effect, revents: Mask, r: ReadResult, w: WriteResult)
    requires (!e.aborted ==> ConnInv(e.conn)) && (w.Wrote? ==> w.n <= |e.conn.out|)
    ensures !e.aborted ==> Keeps(e.conn, RunPart(e.conn, revents, WritePart, r, w)) && !RunPart(e.conn, revents, WritePart, r, w).aborted
  {
    if !e.aborted { HandleWriteKeeps(e.conn, w); }
    WriteIsQuiet(e.conn, w);
    hide ConnInv, HandleWrite;
  }

  lemma FirstPartKeeps(c: Conn, revents: Mask, r: ReadResult, w: WriteResult)
    requires ConnInv(c) && Open(c)
    ensures var e := RunPart(c, revents, ClosePart, r, w);
            && Keeps(c, e) && !e.aborted && e.closed <= 1 && e.conn.out == c.out
            && ((HUP in revents && IN !in revents) || (Open(e.conn) && e.closed == 0))
  {
    HandleCloseKeeps(c);
    hide ConnInv;
  }

  lemma ReadPartKeeps(c: Conn, revents: Mask, r: ReadResult, w: WriteResult)
    requires ConnInv(c) && (Open(c) || (IN !in revents && PRI !in revents))
    ensures var e := RunPart(c, revents, ReadPart, r, w);
            && Keeps(c, e) && e.closed <= 1 && e.conn.out == c.out
            && (HUP in revents && !Open(c) ==> e.closed == 0)
            && (IN !in revents && PRI !in revents ==> e == Plain(c))
  {
    if Open(c) { HandleReadKeeps(c, r); }
    hide ConnInv;
  }
}
