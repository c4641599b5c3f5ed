/**
 TcpConnection.cpp in its own, imperative form: a state, a channel and two
 buffers updated in place, tied to the functions of ConnectionSpec.
 */
module TcpConnections {
  import opened Kernel
  import opened PollerSpec
  import opened ConnectionSpec
  import opened ChannelSpec
  import opened ConnectionCalls
  import LoopSpec
  import LoopRuns
  import opened Pollers
  import opened BufferLayout
  import opened Buffers
  import opened EventLoops

  /** A functor bound to a connection. */
  datatype Functor = Functor(conn: TcpConnection, kind: Kind)

  function Bind(conn: TcpConnection, kinds: seq<Kind>): (fs: seq<Functor>)
    ensures |fs| == |kinds| && forall i :: 0 <= i < |fs| ==> fs[i] == Functor(conn, kinds[i])
  {
    seq(|kinds|, i requires 0 <= i < |kinds| => Functor(conn, kinds[i]))
  }

  lemma BindConcat(conn: TcpConnection, a: seq<Kind>, b: seq<Kind>)
    ensures Bind(conn, a + b) == Bind(conn, a) + Bind(conn, b)
  {
  }

  /** A connection together with what it works on, the loop's functor queue and poller, and what it leaves alone there. */
  datatype Host = Host(conn: Conn, pending: seq<Functor>, poller: Poller<Channel>, stage: LoopSpec.Stage, batch: seq<Functor>, reported: bool)

  /** The effect `e` has been carried out. */
  ghost predicate Took(h: Host, self: TcpConnection, e: Effect, t: Host) {
    && t.conn == e.conn && t.pending == h.pending + Bind(self, e.queued)
    && PushAll(h.poller, self.channel, e.pushes) == Result.Ok(t.poller)
    && t.stage == h.stage && t.batch == h.batch && t.reported == h.reported
  }

  lemma TookThen(h: Host, self: TcpConnection, e: Effect, h1: Host, f: Effect, h2: Host)
    requires Took(h, self, e, h1) && Took(h1, self, f, h2) && !e.aborted
    ensures Took(h, self, Then(e, f), h2)
  {
    PushAllConcat(h.poller, self.channel, e.pushes, f.pushes);
    BindConcat(self, e.queued, f.queued);
  }

  lemma TookNothing(h: Host, self: TcpConnection, c: Conn)
    ensures Took(h, self, Plain(c), h.(conn := c))
  {
    assert h.pending + Bind(self, []) == h.pending;
  }

  lemma TookPush(h: Host, self: TcpConnection, e: Effect, t: Host)
    requires e.queued == [] && |e.pushes| == 1 && t == h.(conn := e.conn, poller := t.poller)
    requires self.channel in h.poller.chans && SetEvents(h.poller, self.channel, e.pushes[0]) == Result.Ok(t.poller)
    ensures Took(h, self, e, t)
  {
    assert e.pushes == [e.pushes[0]];
    PushOne(h.poller, self.channel, e.pushes[0]);
    assert h.pending + Bind(self, []) == h.pending;
  }

  lemma EnqueueQueues(c: Conn, data: Bytes, n: nat, queued: seq<Kind>)
    requires n <= |data|
    ensures Enqueue(c, data, n, queued) == Enqueue(c, data, n, []).(queued := queued + Enqueue(c, data, n, []).queued)
  {
  }

  class TcpConnection {
    const id: nat                        // the number in name_
    const loop: EventLoop<Functor>
    const channel: Channel
    const inputBuffer: Buffer
    const outputBuffer: Buffer
    const highWaterMark: nat
    const wantsHigh: bool                // highWaterMarkCallback_ is set
    const wantsComplete: bool            // writeCompleteCallback_ is set
    var state: ConnState

    ghost var received: Bytes
    ghost var consumed: Bytes
    ghost var accepted: Bytes
    ghost var calls: seq<Call>
    ghost var lengths: seq<nat>
    ghost var highs: nat
    ghost var shut: bool
    ghost var closes: nat

    ghost predicate Plumbed()
      reads inputBuffer, inputBuffer.data, outputBuffer, outputBuffer.data
    {
      inputBuffer.Valid() && outputBuffer.Valid() && inputBuffer != outputBuffer && inputBuffer.data != outputBuffer.data
    }

    /** The connection as a value. */
    ghost function Value(): Conn
      reads this, channel`events, inputBuffer, inputBuffer.data, outputBuffer, outputBuffer.data
      requires Plumbed()
    {
      Conn(state, channel.events, outputBuffer.Contents(), inputBuffer.Contents(), highWaterMark, wantsHigh, wantsComplete,
           received, consumed, accepted, calls, lengths, highs, shut, closes)
    }

    /** Fit to run a handler. */
    ghost predicate Shaped()
      reads this, channel, channel.poller, channel.poller.chans.Keys, loop
      reads inputBuffer, inputBuffer.data, outputBuffer, outputBuffer.data
    {
      Plumbed() && channel.Valid() && loop.Valid() && !loop.stage.Polling?
    }

    /** Between handlers. */
    ghost predicate Valid()
      reads this, channel, channel.poller, channel.poller.chans.Keys, loop
      reads inputBuffer, inputBuffer.data, outputBuffer, outputBuffer.data
    {
      Shaped() && ConnInv(View())
    }

    ghost function View(): Conn
      reads this, channel, channel.poller, channel.poller.chans.Keys, loop
      reads inputBuffer, inputBuffer.data, outputBuffer, outputBuffer.data
      requires Shaped()
    {
      Value()
    }

    ghost function Snapshot(): (h: Host)
      reads this, channel, channel.poller, channel.poller.chans.Keys, loop
      reads inputBuffer, inputBuffer.data, outputBuffer, outputBuffer.data
      requires Shaped()
      ensures h.conn == View()
    {
      Host(View(), loop.pendingFunctors, channel.poller.View(), loop.stage, loop.batch, loop.reported)
    }

    /** The value's fields are the object's. */
    lemma FieldsShown()
      requires Shaped()
      ensures Snapshot().conn == View() && Snapshot().pending == loop.pendingFunctors
      ensures var c := View();
              && c.state == state && c.out == outputBuffer.Contents() && c.inp == inputBuffer.Contents() && c.calls == calls
              && c.accepted == accepted && c.received == received && c.consumed == consumed && c.closes == closes && c.events == channel.events
    {
    }

    constructor (id: nat, loop: EventLoop<Functor>, poller: EPollPoller, sockfd: nat, mark: nat, wantsHigh: bool, wantsComplete: bool)
      requires loop.Valid() && !loop.stage.Polling? && poller.Valid() && FdFree(poller.View(), sockfd)
      modifies poller`chans
      ensures Shaped() && View() == Fresh(mark, wantsHigh, wantsComplete)
      ensures this.id == id && this.loop == loop && channel.poller == poller && fresh(channel)
      ensures fresh(inputBuffer) && fresh(inputBuffer.data) && fresh(outputBuffer) && fresh(outputBuffer.data)
      ensures poller.View() == AddChan(old(poller.View()), channel, sockfd)
    {
      this.id, this.loop, state := id, loop, Connecting;
      channel := new Channel(poller, sockfd);
      inputBuffer := new Buffer(INITIAL_SIZE);
      outputBuffer := new Buffer(INITIAL_SIZE);
      highWaterMark, this.wantsHigh, this.wantsComplete := mark, wantsHigh, wantsComplete;
      received, consumed, accepted, calls, lengths, highs, shut, closes := [], [], [], [], [0], 0, false, 0;
    }

    /** queueInLoop from a callback on the loop thread. */
    method Queue(kind: Kind)
      requires loop.Valid() && !loop.stage.Polling?
      modifies loop
      ensures loop.Valid() && loop.stage == old(loop.stage) && loop.batch == old(loop.batch) && loop.reported == old(loop.reported)
      ensures loop.pendingFunctors == old(loop.pendingFunctors) + Bind(this, [kind])
    {
      loop.QueueInLoop(Functor(this, kind), LoopThread);
      assert Bind(this, [kind]) == [Functor(this, kind)];
    }

    /** Queue the high-water callback when the output is about to cross the mark. */
    method CountHighWater(remaining: nat)
      requires Shaped()
      modifies this`highs, loop
      ensures Shaped() && Took(old(Snapshot()), this, CrossingEffect(old(View()), remaining), Snapshot())
    {
      hide Consistent, LoopRuns.Inv;
      var oldLen := outputBuffer.ReadableBytes();
      if oldLen + remaining >= highWaterMark && oldLen < highWaterMark && wantsHigh {
        Queue(HighWater(oldLen + remaining));
        highs := highs + 1;
      }
      assert loop.pendingFunctors == old(loop.pendingFunctors) + Bind(this, CrossingEffect(old(View()), remaining).queued);
    }

    method AppendOutput(bytes: Bytes, ghost payload: Bytes)
      requires Shaped()
      modifies this`lengths, this`accepted, outputBuffer, outputBuffer.data
      ensures Shaped() && (fresh(outputBuffer.data) || outputBuffer.data == old(outputBuffer.data))
      ensures Took(old(Snapshot()), this, Plain(Appended(old(View()), bytes, payload)), Snapshot())
    {
      TookNothing(Snapshot(), this, Appended(View(), bytes, payload));
      hide Consistent, LoopRuns.Inv, Took;
      outputBuffer.Append(bytes);
      lengths, accepted := lengths + [outputBuffer.ReadableBytes()], accepted + payload;
    }

    method WantWriting()
      requires Shaped()
      modifies channel`events, channel`index, channel.poller`channels, channel.poller`kernel, channel.poller`chans
      ensures Shaped() && Took(old(Snapshot()), this, WritingEffect(old(View())), Snapshot())
    {
      hide Consistent, LoopRuns.Inv, SetEvents, Took;
      TookNothing(Snapshot(), this, View());
      if !channel.IsWriting() {
        ghost var h := Snapshot();
        channel.EnableWriting();
        TookPush(h, this, WritingEffect(h.conn), Snapshot());
      }
    }

    /** The second half of sendInLoop: keep what the kernel did not take. */
    method KeepRest(data: Bytes, nwrote: nat)
      requires Shaped() && nwrote < |data|
      modifies this, loop, outputBuffer, outputBuffer.data
      modifies channel`events, channel`index, channel.poller`channels, channel.poller`kernel, channel.poller`chans
      ensures Shaped() && (fresh(outputBuffer.data) || outputBuffer.data == old(outputBuffer.data))
      ensures Took(old(Snapshot()), this, Enqueue(old(View()), data, nwrote, []), Snapshot())
    {
      hide *;
      ghost var h := Snapshot();
      CountHighWater(|data| - nwrote);
      ghost var h1 := Snapshot();
      AppendOutput(data[nwrote..], data);
      ghost var h2 := Snapshot();
      WantWriting();
      KeptRest(h, h1, h2, Snapshot(), this, data, nwrote);
    }

    /** Every byte went out at once: nothing to keep. */
    method Accept(ghost payload: Bytes)
      requires Shaped()
      modifies this`accepted
      ensures Shaped() && Took(old(Snapshot()), this, Plain(old(View()).(accepted := old(View()).accepted + payload)), Snapshot())
    {
      TookNothing(Snapshot(), this, View().(accepted := View().accepted + payload));
      hide Consistent, LoopRuns.Inv, Took;
      accepted := accepted + payload;
    }

    method Keep(data: Bytes, nwrote: nat)
      requires Shaped() && nwrote <= |data|
      modifies this, loop, outputBuffer, outputBuffer.data
      modifies channel`events, channel`index, channel.poller`channels, channel.poller`kernel, channel.poller`chans
      ensures Shaped() && (fresh(outputBuffer.data) || outputBuffer.data == old(outputBuffer.data))
      ensures Took(old(Snapshot()), this, Enqueue(old(View()), data, nwrote, []), Snapshot())
    {
      KeptNothing(View(), data);
      hide *;
      var remaining := |data| - nwrote;
      if remaining > 0 {
        KeepRest(data, nwrote);
      } else {
        Accept(data);
      }
    }

    /** The write() of sendInLoop; `aborted` when LOG_ERROR ends the process. */
    method WriteDirectly(data: Bytes, w: WriteResult) returns (aborted: bool, nwrote: nat)
      requires Shaped() && (w.Wrote? ==> w.n <= |data|)
      modifies this`calls, loop
      ensures Shaped() && nwrote == (if w.Wrote? then w.n else 0)
      ensures aborted == DirectEffect(old(View()), data, w).aborted
      ensures !aborted ==> Took(old(Snapshot()), this, DirectEffect(old(View()), data, w), Snapshot())
    {
      ghost var c := View();
      TookNothing(Snapshot(), this, DirectEffect(c, data, w).conn);
      hide Consistent, LoopRuns.Inv;
      aborted, nwrote := false, 0;
      match w {
        case Wrote(n) =>
          nwrote := n;
          calls := calls + [Write(data[..n])];
          if nwrote == |data| && wantsComplete {
            Queue(WriteComplete);
          }
        case WriteFailed(errno) =>
          calls := calls + [Write([])];
          aborted := errno != EWOULDBLOCK;
      }
    }

    method SendInLoop(data: Bytes, w: WriteResult) returns (aborted: bool)
      requires Shaped() && (w.Wrote? ==> w.n <= |data|)
      modifies this, loop, outputBuffer, outputBuffer.data
      modifies channel`events, channel`index, channel.poller`channels, channel.poller`kernel, channel.poller`chans
      ensures aborted == ConnectionSpec.SendInLoop(old(View()), data, w).aborted
      ensures !aborted ==> Shaped() && (fresh(outputBuffer.data) || outputBuffer.data == old(outputBuffer.data))
      ensures !aborted ==> Took(old(Snapshot()), this, ConnectionSpec.SendInLoop(old(View()), data, w), Snapshot())
    {
      ghost var h := Snapshot();
      SendParts(h.conn, data, w);
      aborted := false;
      var nwrote := 0;
      var idle := !channel.IsWriting() && outputBuffer.ReadableBytes() == 0;
      assert idle <==> !(Writing(h.conn) || |h.conn.out| != 0);
      hide *;
      if idle {
        aborted, nwrote := WriteDirectly(data, w);
        if aborted { return; }
      }
      ghost var h1 := Snapshot();
      Keep(data, nwrote);
      if idle {
        TookThen(h, this, DirectEffect(h.conn, data, w), h1, Enqueue(h1.conn, data, nwrote, []), Snapshot());
        SameEffect(h, this, Then(DirectEffect(h.conn, data, w), Enqueue(h1.conn, data, nwrote, [])), ConnectionSpec.SendInLoop(h.conn, data, w), Snapshot());
      }
    }

    /** On the loop thread; a connection that is not kConnected drops the payload. */
    method Send(data: Bytes, w: WriteResult) returns (aborted: bool)
      requires Valid() && (w.Wrote? ==> w.n <= |data|)
      modifies this, loop, outputBuffer, outputBuffer.data
      modifies channel`events, channel`index, channel.poller`channels, channel.poller`kernel, channel.poller`chans
      ensures aborted == ConnectionSpec.Send(old(View()), data, w).aborted
      ensures !aborted ==> Valid() && (fresh(outputBuffer.data) || outputBuffer.data == old(outputBuffer.data))
      ensures !aborted ==> Took(old(Snapshot()), this, ConnectionSpec.Send(old(View()), data, w), Snapshot())
      ensures aborted <==> old(state) == Connected && old(outputBuffer.Contents()) == [] && w.WriteFailed? && w.errno != EWOULDBLOCK
      ensures !aborted && old(state) == Connected ==>
                && accepted == old(accepted) + data
                && Written(calls) + outputBuffer.Contents() == old(Written(calls)) + old(outputBuffer.Contents()) + data
      ensures old(state) != Connected ==> View() == old(View())
    {
      hide *;
      ValidParts();
      ghost var h := Snapshot();
      FieldsShown();
      SendOutcome(h.conn, data, w);
      aborted := SendOrDrop(data, w);
      if !aborted {
        ValidParts();
        FieldsShown();
        TookConn(h, ConnectionSpec.Send(h.conn, data, w), Snapshot(), Plain(h.conn), Snapshot());
        SentBytes(h.conn, data, w, ConnectionSpec.Send(h.conn, data, w));
      }
    }

    lemma SentBytes(c: Conn, data: Bytes, w: WriteResult, e: Effect)
      requires w.Wrote? ==> w.n <= |data|
      requires if c.state.Connected? then SendDone(c, data, w, e) else e == Plain(c)
      ensures c.state == Connected ==> e.conn.accepted == c.accepted + data && Written(e.conn.calls) + e.conn.out == Written(c.calls) + c.out + data
      ensures c.state != Connected ==> e.conn == c
    {
      hide Written;
    }

    method SendOrDrop(data: Bytes, w: WriteResult) returns (aborted: bool)
      requires Valid() && (w.Wrote? ==> w.n <= |data|)
      modifies this, loop, outputBuffer, outputBuffer.data
      modifies channel`events, channel`index, channel.poller`channels, channel.poller`kernel, channel.poller`chans
      ensures aborted == ConnectionSpec.Send(old(View()), data, w).aborted
      ensures !aborted ==> Valid() && (fresh(outputBuffer.data) || outputBuffer.data == old(outputBuffer.data))
      ensures !aborted ==> Took(old(Snapshot()), this, ConnectionSpec.Send(old(View()), data, w), Snapshot())
    {
      ghost var c := View();
      SendKeeps(c, data, w);
      TookNothing(Snapshot(), this, c);
      aborted := false;
      hide ConnectionSpec.SendInLoop, Consistent, LoopRuns.Inv, ConnInv;
      if state.Connected? {
        aborted := SendInLoop(data, w);
      }
    }

    method ShutdownInLoop()
      requires Shaped()
      modifies this`calls
      ensures Shaped() && Took(old(Snapshot()), this, ConnectionSpec.ShutdownInLoop(old(View())), Snapshot())
    {
      TookNothing(Snapshot(), this, ConnectionSpec.ShutdownInLoop(View()).conn);
      hide Consistent, LoopRuns.Inv, Took;
      if !channel.IsWriting() {
        calls := calls + [Fin];
      }
    }

    lemma ValidParts()
      requires Valid()
      ensures Shaped() && ConnInv(View()) && Snapshot().conn == View()
    {
      hide ConnInv, Shaped, View;
    }

    lemma ValidAgain(h: Host, e: Effect)
      requires Shaped() && Took(h, this, e, Snapshot()) && ConnInv(e.conn)
      ensures Valid()
    {
      hide ConnInv, Shaped, View;
    }

    method Shutdown()
      requires Valid()
      modifies this`state, this`shut, this`calls
      ensures Valid() && Took(old(Snapshot()), this, ConnectionSpec.Shutdown(old(View())), Snapshot())
      ensures old(state) == Connected ==> state == Disconnecting && calls == old(calls) + if outputBuffer.Contents() == [] then [Fin] else []
      ensures old(state) != Connected ==> View() == old(View())
    {
      hide *;
      ValidParts();
      FieldsShown();
      ghost var h := Snapshot();
      ShutdownOutcome(h.conn, [], Wrote(0));
      ShutdownInv(h.conn);
      BeginShutdown();
      ValidAgain(h, ConnectionSpec.Shutdown(h.conn));
      FieldsShown();
      TookConn(h, ConnectionSpec.Shutdown(h.conn), Snapshot(), Plain(h.conn), Snapshot());
      ShutBytes(h.conn, ConnectionSpec.Shutdown(h.conn));
    }

    lemma ShutBytes(c: Conn, e: Effect)
      requires if c.state.Connected? then ShutdownDone(c, e) else e == Plain(c)
      ensures c.state == Connected ==> e.conn.state == Disconnecting && e.conn.out == c.out && e.conn.calls == c.calls + if c.out == [] then [Fin] else []
      ensures c.state != Connected ==> e.conn == c
    {
    }

    lemma ShutdownInv(c: Conn)
      requires ConnInv(c)
      ensures ConnInv(ConnectionSpec.Shutdown(c).conn)
    {
      ShutdownKeeps(c);
      hide ConnInv;
    }

    method BeginShutdown()
      requires Shaped()
      modifies this`state, this`shut, this`calls
      ensures Shaped() && Took(old(Snapshot()), this, ConnectionSpec.Shutdown(old(View())), Snapshot())
    {
      ghost var h := Snapshot();
      TookNothing(h, this, h.conn);
      hide Consistent, LoopRuns.Inv, Took;
      if state.Connected? {
        state, shut := Disconnecting, true;
        TookNothing(h, this, View());
        ghost var h1 := Snapshot();
        ShutdownInLoop();
        TookThen(h, this, Plain(h1.conn), h1, ConnectionSpec.ShutdownInLoop(h1.conn), Snapshot());
        SameEffect(h, this, Then(Plain(h1.conn), ConnectionSpec.ShutdownInLoop(h1.conn)), ConnectionSpec.Shutdown(h.conn), Snapshot());
      }
    }

    method ForceClose()
      requires Valid()
      modifies this`state, loop
      ensures Valid() && Took(old(Snapshot()), this, ForceClosing(old(View())), Snapshot())
      ensures if old(state) == Connected || old(state) == Disconnecting
              then state == Disconnecting && loop.pendingFunctors == old(loop.pendingFunctors) + [Functor(this, Kind.ForceClose)]
              else View() == old(View()) && loop.pendingFunctors == old(loop.pendingFunctors)
    {
      hide *;
      ValidParts();
      FieldsShown();
      ghost var h := Snapshot();
      ForceCloseOutcome(h.conn);
      ForceClosingInv(h.conn);
      BeginForceClose();
      ValidAgain(h, ForceClosing(h.conn));
      FieldsShown();
      ForceQueued(h, ForceClosing(h.conn), Snapshot());
    }

    lemma ForceQueued(h: Host, e: Effect, t: Host)
      requires Took(h, this, e, t)
      requires if h.conn.state == Connected || h.conn.state == Disconnecting then ForceCloseDone(h.conn, e) else e == Plain(h.conn)
      ensures if h.conn.state == Connected || h.conn.state == Disconnecting
              then t.conn.state == Disconnecting && t.pending == h.pending + [Functor(this, Kind.ForceClose)]
              else t.conn == h.conn && t.pending == h.pending
    {
      assert Bind(this, [Kind.ForceClose]) == [Functor(this, Kind.ForceClose)];
      assert h.pending + Bind(this, []) == h.pending;
      hide PushAll;
    }

    lemma ForceClosingInv(c: Conn)
      requires ConnInv(c)
      ensures ConnInv(ForceClosing(c).conn)
    {
      ForceClosingKeeps(c);
      hide ConnInv;
    }

    method BeginForceClose()
      requires Shaped()
      modifies this`state, loop
      ensures Shaped() && Took(old(Snapshot()), this, ForceClosing(old(View())), Snapshot())
    {
      TookNothing(Snapshot(), this, ForceClosing(View()).conn);
      hide Consistent, LoopRuns.Inv;
      if state.Connected? || state.Disconnecting? {
        state := Disconnecting;
        Queue(Kind.ForceClose);
      }
    }

    /** Up to the callbacks; the close callback is the server's RemoveConnection. */
    method HandleClose()
      requires Shaped()
      modifies this`state, this`closes
      modifies channel`events, channel`index, channel.poller`channels, channel.poller`kernel, channel.poller`chans
      ensures Shaped() && Took(old(Snapshot()), this, ConnectionSpec.HandleClose(old(View())), Snapshot())
      ensures state == Disconnected && channel.events == {}
    {
      hide Consistent, LoopRuns.Inv, SetEvents, Took;
      ghost var h := Snapshot();
      state, closes := Disconnected, closes + 1;
      channel.DisableAll();
      TookPush(h, this, ConnectionSpec.HandleClose(h.conn), Snapshot());
    }

    /** The functor forceClose() queued; `closed` when the close callback is due. */
    method ForceCloseInLoop() returns (closed: bool)
      requires Valid()
      modifies this`state, this`closes
      modifies channel`events, channel`index, channel.poller`channels, channel.poller`kernel, channel.poller`chans
      ensures Valid() && Took(old(Snapshot()), this, ConnectionSpec.ForceCloseInLoop(old(View())), Snapshot())
      ensures closed == (ConnectionSpec.ForceCloseInLoop(old(View())).closed == 1)
      ensures closed <==> old(state) == Connected || old(state) == Disconnecting
      ensures closed ==> state == Disconnected && channel.events == {}
      ensures !closed ==> View() == old(View())
    {
      FieldsShown();
      ghost var c := View();
      TookNothing(Snapshot(), this, c);
      closed := state.Connected? || state.Disconnecting?;
      if closed { HandleCloseKeeps(c); }
      hide Consistent, LoopRuns.Inv, Took, ConnInv;
      if closed {
        HandleClose();
        FieldsShown();
      }
    }

    method ConnectEstablished()
      requires Valid() && state.Connecting?
      modifies this`state
      modifies channel`events, channel`index, channel.poller`channels, channel.poller`kernel, channel.poller`chans
      ensures Valid() && Took(old(Snapshot()), this, ConnectionSpec.ConnectEstablished(old(View())), Snapshot())
    {
      StateShown();
      hide *;
      ValidParts();
      ghost var h := Snapshot();
      EstablishedInv(h.conn);
      Establish();
      ValidAgain(h, ConnectionSpec.ConnectEstablished(h.conn));
    }

    lemma StateShown()
      requires Valid()
      ensures View().state == state
    {
      hide ConnInv;
    }

    lemma EstablishedInv(c: Conn)
      requires ConnInv(c) && c.state.Connecting?
      ensures ConnInv(ConnectionSpec.ConnectEstablished(c).conn)
    {
      EstablishedKeeps(c);
      hide ConnInv;
    }

    method Establish()
      requires Shaped()
      modifies this`state
      modifies channel`events, channel`index, channel.poller`channels, channel.poller`kernel, channel.poller`chans
      ensures Shaped() && Took(old(Snapshot()), this, ConnectionSpec.ConnectEstablished(old(View())), Snapshot())
    {
      ghost var h := Snapshot();
      hide Consistent, LoopRuns.Inv, SetEvents, Took;
      state := Connected;
      channel.EnableReading();
      TookPush(h, this, ConnectionSpec.ConnectEstablished(h.conn), Snapshot());
    }

    /** connectDestroyed up to channel_->remove(). */
    method Disconnect()
      requires Valid()
      modifies this`state
      modifies channel`events, channel`index, channel.poller`channels, channel.poller`kernel, channel.poller`chans
      ensures Valid() && Took(old(Snapshot()), this, ConnectionSpec.ConnectDestroyed(old(View())), Snapshot())
    {
      hide *;
      ValidParts();
      ghost var h := Snapshot();
      DestroyedInv(h.conn);
      TurnOff();
      ValidAgain(h, ConnectionSpec.ConnectDestroyed(h.conn));
    }

    lemma DestroyedInv(c: Conn)
      requires ConnInv(c)
      ensures ConnInv(ConnectionSpec.ConnectDestroyed(c).conn)
    {
      DestroyedKeeps(c);
      hide ConnInv;
    }

    method TurnOff()
      requires Shaped()
      modifies this`state
      modifies channel`events, channel`index, channel.poller`channels, channel.poller`kernel, channel.poller`chans
      ensures Shaped() && Took(old(Snapshot()), this, ConnectionSpec.ConnectDestroyed(old(View())), Snapshot())
    {
      ghost var h := Snapshot();
      TookNothing(h, this, h.conn);
      hide Consistent, LoopRuns.Inv, SetEvents, Took;
      if state.Connected? {
        state := Disconnected;
        channel.DisableAll();
        TookPush(h, this, ConnectionSpec.ConnectDestroyed(h.conn), Snapshot());
      }
    }

    /** channel_->remove(). */
    method Unregister()
      requires Valid()
      modifies channel`index, channel.poller`channels, channel.poller`kernel, channel.poller`chans
      ensures Valid() && RemoveChannel(old(channel.poller.View()), channel) == Result.Ok(channel.poller.View())
      ensures Snapshot() == old(Snapshot()).(poller := channel.poller.View())
    {
      hide Consistent, LoopRuns.Inv, RemoveChannel, ConnInv;
      channel.Remove();
    }

    /** Afterwards neither channels_ nor the kernel holds the descriptor. */
    method ConnectDestroyed() returns (ghost mid: Host)
      requires Valid()
      modifies this`state
      modifies channel`events, channel`index, channel.poller`channels, channel.poller`kernel, channel.poller`chans
      ensures Valid() && Took(old(Snapshot()), this, ConnectionSpec.ConnectDestroyed(old(View())), mid)
      ensures channel in mid.poller.chans && RemoveChannel(mid.poller, channel) == Result.Ok(channel.poller.View())
      ensures Snapshot() == mid.(poller := channel.poller.View())
      ensures channel.fd !in channel.poller.channels && channel.fd !in channel.poller.kernel
    {
      Disconnect();
      mid := Snapshot();
      Registered();
      hide *;
      Unregister();
    }

    lemma Registered()
      requires Shaped()
      ensures var p := channel.poller.View();
              && Consistent(p) && channel in p.chans && RemoveChannel(p, channel).Ok?
              && channel.fd !in RemoveChannel(p, channel).p.channels && channel.fd !in RemoveChannel(p, channel).p.kernel
    {
      RemoveConsistent(channel.poller.View(), channel);
      assert channel.poller.View().chans[channel].fd == channel.fd;
    }

    /** What arrived is handed on; end of file closes; an error ends the process. */
    method HandleRead(r: ReadResult) returns (aborted: bool, closed: bool)
      requires Shaped() && (r.Arrived? ==> |r.data| <= inputBuffer.ReadRoom())
      modifies this`state, this`closes, this`received, inputBuffer, inputBuffer.data
      modifies channel`events, channel`index, channel.poller`channels, channel.poller`kernel, channel.poller`chans
      ensures aborted == ConnectionSpec.HandleRead(old(View()), r).aborted
      ensures Shaped() && (fresh(inputBuffer.data) || inputBuffer.data == old(inputBuffer.data))
      ensures !aborted ==> Took(old(Snapshot()), this, ConnectionSpec.HandleRead(old(View()), r), Snapshot())
      ensures !aborted ==> closed == (ConnectionSpec.HandleRead(old(View()), r).closed == 1)
      ensures aborted <==> r.ReadFailed?
      ensures closed <==> r == Arrived([])
      ensures !aborted ==> inputBuffer.Contents() == old(inputBuffer.Contents()) + r.data && received == old(received) + r.data
      ensures !aborted ==> state == if closed then Disconnected else old(state)
    {
      hide *;
      FieldsShown();
      ghost var h := Snapshot();
      ReadOutcome(h.conn, r);
      aborted, closed := ReadOrClose(r);
      FieldsShown();
      if !aborted {
        TookConn(h, ConnectionSpec.HandleRead(h.conn, r), Snapshot(), Plain(h.conn), Snapshot());
        ReadBytes(h.conn, r, ConnectionSpec.HandleRead(h.conn, r));
      }
    }

    method ReadOrClose(r: ReadResult) returns (aborted: bool, closed: bool)
      requires Shaped() && (r.Arrived? ==> |r.data| <= inputBuffer.ReadRoom())
      modifies this`state, this`closes, this`received, inputBuffer, inputBuffer.data
      modifies channel`events, channel`index, channel.poller`channels, channel.poller`kernel, channel.poller`chans
      ensures aborted == ConnectionSpec.HandleRead(old(View()), r).aborted
      ensures Shaped() && (fresh(inputBuffer.data) || inputBuffer.data == old(inputBuffer.data))
      ensures !aborted ==> Took(old(Snapshot()), this, ConnectionSpec.HandleRead(old(View()), r), Snapshot())
      ensures closed == (ConnectionSpec.HandleRead(old(View()), r).closed == 1)
      ensures (aborted <==> r.ReadFailed?) && (closed <==> r == Arrived([]))
    {
      hide *;
      FieldsShown();
      ghost var h := Snapshot();
      ReadParts(h.conn, r);
      var n := ReadInput(r);
      aborted, closed := n < 0, n == 0;
      if n == 0 {
        ghost var h1 := Snapshot();
        FieldsShown();
        NothingFed(h, h1);
        HandleClose();
        TookThen(h, this, Plain(h1.conn), h1, ConnectionSpec.HandleClose(h1.conn), Snapshot());
        SameEffect(h, this, Then(Plain(h1.conn), ConnectionSpec.HandleClose(h1.conn)), ConnectionSpec.HandleRead(h.conn, r), Snapshot());
      }
    }

    lemma NothingFed(h: Host, h1: Host)
      requires Took(h, this, Plain(Fed(h.conn, [])), h1) && Fed(h.conn, []) == h.conn
      ensures h1.conn == h.conn && Took(h, this, Plain(h1.conn), h1) && !Plain(h1.conn).aborted
    {
      hide PushAll;
    }

    lemma ReadBytes(c: Conn, r: ReadResult, e: Effect)
      requires r.Arrived? && ReadDone(c, r, e)
      ensures e.conn.inp == c.inp + r.data && e.conn.received == c.received + r.data && e.conn.consumed == c.consumed
      ensures e.conn.state == if r.data == [] then Disconnected else c.state
    {
      assert c.inp + [] == c.inp && c.received + [] == c.received;
    }

    method ReadInput(r: ReadResult) returns (n: int)
      requires Shaped() && (r.Arrived? ==> |r.data| <= inputBuffer.ReadRoom())
      modifies this`received, inputBuffer, inputBuffer.data
      ensures Shaped() && (fresh(inputBuffer.data) || inputBuffer.data == old(inputBuffer.data))
      ensures r.ReadFailed? <==> n < 0
      ensures r.Arrived? ==> n == |r.data|
      ensures r.Arrived? ==> Took(old(Snapshot()), this, Plain(Fed(old(View()), r.data)), Snapshot())
    {
      ghost var c := View();
      TookNothing(Snapshot(), this, if r.Arrived? then Fed(c, r.data) else c);
      hide Consistent, LoopRuns.Inv, Took;
      var savedErrno;
      n, savedErrno := inputBuffer.ReadFd(r);
      received := if r.Arrived? then received + r.data else received;
    }

    /** writeFd, and take from the output what the kernel took. */
    method Drain(w: WriteResult) returns (n: int)
      requires Shaped() && (w.Wrote? ==> w.n <= |outputBuffer.Contents()|)
      modifies this`calls, this`lengths, outputBuffer`readerIndex, outputBuffer`writerIndex
      ensures Shaped() && n == (if w.Wrote? then w.n else -1)
      ensures Took(old(Snapshot()), this, DrainEffect(old(View()), w), Snapshot())
    {
      TookNothing(Snapshot(), this, DrainEffect(View(), w).conn);
      hide Consistent, LoopRuns.Inv, Took;
      var savedErrno, sent;
      n, savedErrno, sent := outputBuffer.WriteFd(w);
      if n > 0 {
        TakeSent(n);
      } else {
        calls := calls + [Write([])];
      }
    }

    method TakeSent(n: nat)
      requires Shaped() && n <= |outputBuffer.Contents()|
      modifies this`calls, this`lengths, outputBuffer`readerIndex, outputBuffer`writerIndex
      ensures Shaped() && Snapshot() == old(Snapshot()).(conn := Sent(old(View()), n))
    {
      OutputIs();
      hide *;
      ghost var c := View();
      DropSent(n);
      Record(Write(c.out[..n]), |c.out[n..]|);
      SentIs(c, n);
    }

    lemma OutputIs()
      requires Shaped()
      ensures View().out == outputBuffer.Contents() && Snapshot().conn == View()
    {
    }

    method DropSent(n: nat)
      requires Shaped() && n <= |outputBuffer.Contents()|
      modifies outputBuffer`readerIndex, outputBuffer`writerIndex
      ensures Shaped() && Snapshot() == old(Snapshot()).(conn := old(View()).(out := old(View()).out[n..]))
    {
      hide Consistent, LoopRuns.Inv;
      ghost var was := outputBuffer.Contents();
      assert n == |was| ==> was[n..] == [];
      outputBuffer.Retrieve(n);
      assert outputBuffer.Contents() == was[n..];
    }

    ghost method Record(call: Call, length: nat)
      requires Shaped()
      modifies this`calls, this`lengths
      ensures Shaped()
      ensures Snapshot() == old(Snapshot()).(conn := old(View()).(calls := old(View()).calls + [call], lengths := old(View()).lengths + [length]))
    {
      hide Consistent, LoopRuns.Inv;
      calls, lengths := calls + [call], lengths + [length];
    }

    /** The output is empty: stop waiting for EPOLLOUT. */
    method StopWriting()
      requires Shaped()
      modifies loop
      modifies channel`events, channel`index, channel.poller`channels, channel.poller`kernel, channel.poller`chans
      ensures Shaped() && Took(old(Snapshot()), this, DrainedEffect(old(View())), Snapshot())
    {
      ghost var h := Snapshot();
      ghost var e := SetMask(h.conn, h.conn.events - WRITE_EVENT);
      hide Consistent, LoopRuns.Inv, SetEvents, Took;
      channel.DisableWriting();
      ghost var h1 := Snapshot();
      TookPush(h, this, e, h1);
      TookNothing(h1, this, h1.conn);
      if wantsComplete {
        QueueComplete();
      }
      TookThen(h, this, e, h1, CompleteEffect(h1.conn), Snapshot());
    }

    method QueueComplete()
      requires Shaped()
      modifies loop
      ensures Shaped() && Took(old(Snapshot()), this, Effect(old(View()), [], [WriteComplete], 0, false), Snapshot())
    {
      hide Consistent, LoopRuns.Inv;
      Queue(WriteComplete);
    }

    method HandleWrite(w: WriteResult)
      requires Shaped() && (w.Wrote? ==> w.n <= |View().out|)
      modifies this`calls, this`lengths, loop, outputBuffer`readerIndex, outputBuffer`writerIndex
      modifies channel`events, channel`index, channel.poller`channels, channel.poller`kernel, channel.poller`chans
      ensures Shaped() && Took(old(Snapshot()), this, ConnectionSpec.HandleWrite(old(View()), w), Snapshot())
    {
      hide *;
      ghost var h := Snapshot();
      Shows();
      TookNothing(h, this, h.conn);
      WriteParts(h.conn, w);
      if channel.IsWriting() {
        var n := Drain(w);
        ghost var h1 := Snapshot();
        Shows();
        if n > 0 && outputBuffer.ReadableBytes() == 0 {
          StopWriting();
          TookThen(h, this, DrainEffect(h.conn, w), h1, DrainedEffect(h1.conn), Snapshot());
          ghost var h2 := Snapshot();
          Shows();
          TookConn(h, DrainEffect(h.conn, w), h1, DrainedEffect(h1.conn), h2);
          if state.Disconnecting? {
            ShutdownInLoop();
            TookThen(h, this, Then(DrainEffect(h.conn, w), DrainedEffect(h1.conn)), h2, ConnectionSpec.ShutdownInLoop(h2.conn), Snapshot());
          }
        } else {
          TookConn(h, DrainEffect(h.conn, w), h1, DrainEffect(h.conn, w), h1);
        }
      }
    }

    /** The fields as the handlers read them. */
    lemma Shows()
      requires Shaped()
      ensures var c := Snapshot().conn;
              && c == View() && outputBuffer.Valid() && c.out == outputBuffer.Contents() && c.state == state
              && (channel.IsWriting() <==> Writing(c)) && (outputBuffer.ReadableBytes() == 0 <==> c.out == [])
    {
    }

    lemma TookConn(h: Host, e: Effect, h1: Host, f: Effect, h2: Host)
      requires Took(h, this, e, h1)
      ensures h1.conn == e.conn && (Took(h1, this, f, h2) ==> h2.conn == f.conn)
    {
    }

    /** The message callback takes `n` bytes out of the buffer it was handed. */
    method RetrieveInput(n: nat)
      requires Valid()
      modifies this`consumed, inputBuffer`readerIndex, inputBuffer`writerIndex
      ensures Valid() && Took(old(Snapshot()), this, TakeInput(old(View()), n), Snapshot())
      ensures old(consumed) <= consumed
      ensures var taken := consumed[|old(consumed)|..];
              && old(inputBuffer.Contents()) == taken + inputBuffer.Contents()
              && (|taken| == n || (|taken| < n && inputBuffer.Contents() == []))
    {
      hide *;
      ValidParts();
      FieldsShown();
      ghost var h := Snapshot();
      TakeOutcome(h.conn, n);
      TakeInputInv(h.conn, n);
      Consume(n);
      ValidAgain(h, TakeInput(h.conn, n));
      FieldsShown();
      TookConn(h, TakeInput(h.conn, n), Snapshot(), Plain(h.conn), Snapshot());
    }

    lemma TakeInputInv(c: Conn, n: nat)
      requires ConnInv(c)
      ensures ConnInv(TakeInput(c, n).conn)
    {
      TakeInputKeeps(c, n);
      hide ConnInv;
    }

    method Consume(n: nat)
      requires Shaped()
      modifies this`consumed, inputBuffer`readerIndex, inputBuffer`writerIndex
      ensures Shaped() && Took(old(Snapshot()), this, TakeInput(old(View()), n), Snapshot())
    {
      TookNothing(Snapshot(), this, TakeInput(View(), n).conn);
      hide Consistent, LoopRuns.Inv, Took;
      ghost var was := inputBuffer.Contents();
      consumed := consumed + was[..if n < |was| then n else |was|];
      inputBuffer.Retrieve(n);
    }

    /** The first test of handleEventWithGuard: hang-up. */
    method CloseTest() returns (closed: bool)
      requires Shaped()
      modifies this`state, this`closes
      modifies channel`events, channel`index, channel.poller`channels, channel.poller`kernel, channel.poller`chans
      ensures Shaped() && Tested(old(Snapshot()), this, PartEffect(old(View()), channel.revents, ClosePart), Snapshot(), false, if closed then 1 else 0)
    {
      ghost var h := Snapshot();
      TookNothing(h, this, h.conn);
      CloseIs(h.conn, channel.revents);
      closed := HUP in channel.revents && IN !in channel.revents;
      hide *;
      if HUP in channel.revents && IN !in channel.revents {
        HandleClose();
      }
      TestedAs(h, this, PartEffect(h.conn, channel.revents, ClosePart), Snapshot());
    }

    /** The second: error. */
    method ErrorTest() returns (aborted: bool)
      requires Shaped()
      ensures Tested(Snapshot(), this, PartEffect(View(), channel.revents, ErrorPart), Snapshot(), aborted, 0)
    {
      TookNothing(Snapshot(), this, View());
      aborted := ERR in channel.revents;
    }

    /** The third: input. */
    method ReadTest(r: ReadResult) returns (aborted: bool, closed: bool)
      requires Shaped() && (r.Arrived? ==> |r.data| <= inputBuffer.ReadRoom())
      modifies this`state, this`closes, this`received, inputBuffer, inputBuffer.data
      modifies channel`events, channel`index, channel.poller`channels, channel.poller`kernel, channel.poller`chans
      ensures Shaped() && (fresh(inputBuffer.data) || inputBuffer.data == old(inputBuffer.data))
      ensures Tested(old(Snapshot()), this, ReadEffect(old(View()), channel.revents, r), Snapshot(), aborted, if closed then 1 else 0)
      ensures var input := IN in channel.revents || PRI in channel.revents;
              && (aborted <==> input && r.ReadFailed?) && (closed <==> input && r == Arrived([]))
              && (!aborted ==> inputBuffer.Contents() == old(inputBuffer.Contents()) + if input then r.data else [])
              && (!aborted ==> received == old(received) + if input then r.data else [])
    {
      ghost var h := Snapshot();
      TookNothing(h, this, h.conn);
      ReadParts(h.conn, r);
      aborted, closed := false, false;
      hide Consistent, LoopRuns.Inv, Took, ConnectionSpec.HandleRead;
      if IN in channel.revents || PRI in channel.revents {
        aborted, closed := HandleRead(r);
      }
    }

    /** The fourth: output. */
    method WriteTest(w: WriteResult)
      requires Shaped() && (w.Wrote? ==> w.n <= |View().out|)
      modifies this`calls, this`lengths, loop, outputBuffer`readerIndex, outputBuffer`writerIndex
      modifies channel`events, channel`index, channel.poller`channels, channel.poller`kernel, channel.poller`chans
      ensures Shaped() && Tested(old(Snapshot()), this, WriteEffect(old(View()), channel.revents, w), Snapshot(), false, 0)
    {
      ghost var h := Snapshot();
      TookNothing(h, this, h.conn);
      WriteQuiet(h.conn, channel.revents, w);
      hide *;
      if OUT in channel.revents {
        HandleWrite(w);
      }
      TestedAs(h, this, WriteEffect(h.conn, channel.revents, w), Snapshot());
    }
  }

  function DirectEffect(c: Conn, data: Bytes, w: WriteResult): Effect
    requires w.Wrote? ==> w.n <= |data|
  {
    if w.Wrote? then
      Effect(c.(calls := c.calls + [Write(data[..w.n])]), [], if w.n == |data| && c.wantsComplete then [WriteComplete] else [], 0, false)
    else if w.errno != EWOULDBLOCK then Abort(c)
    else Plain(c.(calls := c.calls + [Write([])]))
  }

  function Fed(c: Conn, data: Bytes): Conn {
    c.(inp := c.inp + data, received := c.received + data)
  }

  lemma SentIs(c: Conn, n: nat)
    requires n <= |c.out|
    ensures var d := c.(out := c.out[n..]);
            d.(calls := d.calls + [Write(c.out[..n])], lengths := d.lengths + [|c.out[n..]|]) == Sent(c, n)
  {
  }

  lemma ReadParts(c: Conn, r: ReadResult)
    ensures var e := ConnectionSpec.HandleRead(c, r);
            && (e.aborted <==> r.ReadFailed?) && (e.closed == 1 <==> r == Arrived([]))
            && (r.Arrived? && r.data != [] ==> e == Plain(Fed(c, r.data)))
            && (r == Arrived([]) ==> e == ConnectionSpec.HandleClose(c) && Fed(c, []) == c && Then(Plain(c), e) == e && !Plain(c).aborted)
  {
    assert c.inp + [] == c.inp && c.received + [] == c.received;
    var e := ConnectionSpec.HandleClose(c);
    assert [] + e.pushes == e.pushes && [] + e.queued == e.queued;
  }

  function DrainEffect(c: Conn, w: WriteResult): Effect
    requires w.Wrote? ==> w.n <= |c.out|
  {
    if w.WriteFailed? || w.n == 0 then Plain(c.(calls := c.calls + [Write([])]))
    else Plain(Sent(c, w.n))
  }

  function Sent(c: Conn, n: nat): Conn
    requires n <= |c.out|
  {
    c.(calls := c.calls + [Write(c.out[..n])], out := c.out[n..], lengths := c.lengths + [|c.out[n..]|])
  }

  function CompleteEffect(c: Conn): Effect {
    Effect(c, [], if c.wantsComplete then [WriteComplete] else [], 0, false)
  }

  function DrainedEffect(c: Conn): Effect {
    Then(SetMask(c, c.events - WRITE_EVENT), CompleteEffect(c.(events := c.events - WRITE_EVENT)))
  }

  /** What a handler ran through left: it aborted, or the effect took place with that many close callbacks. */
  ghost predicate Tested(h: Host, self: TcpConnection, e: Effect, t: Host, aborted: bool, closes: nat) {
    aborted == e.aborted && (!aborted ==> Took(h, self, e, t) && closes == e.closed)
  }

  function PartEffect(c: Conn, revents: Mask, part: Part): Effect
    requires part.ClosePart? || part.ErrorPart?
  {
    ChannelSpec.RunPart(c, revents, part, Arrived([]), Wrote(0))
  }

  function ReadEffect(c: Conn, revents: Mask, r: ReadResult): Effect {
    ChannelSpec.RunPart(c, revents, ReadPart, r, Wrote(0))
  }

  function WriteEffect(c: Conn, revents: Mask, w: WriteResult): Effect
    requires w.Wrote? ==> w.n <= |c.out|
  {
    ChannelSpec.RunPart(c, revents, WritePart, Arrived([]), w)
  }

  lemma CloseIs(c: Conn, revents: Mask)
    ensures var e := PartEffect(c, revents, ClosePart);
            var closed := HUP in revents && IN !in revents;
            && !e.aborted && e.closed == (if closed then 1 else 0)
            && e == if closed then ConnectionSpec.HandleClose(c) else Plain(c)
  {
  }

  lemma WriteQuiet(c: Conn, revents: Mask, w: WriteResult)
    requires w.Wrote? ==> w.n <= |c.out|
    ensures var e := WriteEffect(c, revents, w);
            e.closed == 0 && !e.aborted && e == if OUT in revents then ConnectionSpec.HandleWrite(c, w) else Plain(c)
  {
    WriteIsQuiet(c, w);
    hide ConnectionSpec.HandleWrite;
  }

  lemma TestedAs(h: Host, self: TcpConnection, e: Effect, t: Host)
    requires Took(h, self, e, t) && !e.aborted
    ensures Tested(h, self, e, t, false, e.closed)
  {
  }

  /** handleWrite is the drain, and when it empties the output, what follows. */
  lemma WriteParts(c: Conn, w: WriteResult)
    requires w.Wrote? ==> w.n <= |c.out|
    ensures var e, d := ConnectionSpec.HandleWrite(c, w), DrainEffect(c, w);
            var f := Then(d, DrainedEffect(d.conn));
            && !d.aborted && !f.aborted
            && (!Writing(c) ==> e == Plain(c))
            && (Writing(c) && !(w.Wrote? && w.n > 0 && d.conn.out == []) ==> e == d)
            && (Writing(c) && w.Wrote? && w.n > 0 && d.conn.out == [] ==>
                  e == if c.state.Disconnecting? then Then(f, ConnectionSpec.ShutdownInLoop(f.conn)) else f)
  {
  }

  lemma KeptNothing(c: Conn, data: Bytes)
    ensures Enqueue(c, data, |data|, []) == Plain(c.(accepted := c.accepted + data))
  {
  }

  /** sendInLoop is the direct write, when nothing waits, and then Enqueue. */
  lemma SendParts(c: Conn, data: Bytes, w: WriteResult)
    requires w.Wrote? ==> w.n <= |data|
    ensures var e, d := ConnectionSpec.SendInLoop(c, data, w), DirectEffect(c, data, w);
            if Writing(c) || |c.out| != 0 then e == Enqueue(c, data, 0, [])
            else e.aborted == d.aborted && (!d.aborted ==> e == Then(d, Enqueue(d.conn, data, if w.Wrote? then w.n else 0, [])))
  {
    if w.Wrote? { EnqueueQueues(DirectEffect(c, data, w).conn, data, w.n, DirectEffect(c, data, w).queued); }
  }

  function CrossingEffect(c: Conn, remaining: nat): Effect {
    var size := |c.out| + remaining;
    if size >= c.mark && |c.out| < c.mark && c.wantsHigh
    then Effect(c.(highs := c.highs + 1), [], [HighWater(size)], 0, false)
    else Plain(c)
  }

  function Appended(c: Conn, bytes: Bytes, payload: Bytes): Conn {
    c.(out := c.out + bytes, lengths := c.lengths + [|c.out| + |bytes|], accepted := c.accepted + payload)
  }

  function WritingEffect(c: Conn): Effect {
    if Writing(c) then Plain(c) else SetMask(c, c.events + WRITE_EVENT)
  }

  /** The second half of sendInLoop is its three parts, one after the other. */
  lemma KeptRest(h: Host, h1: Host, h2: Host, h3: Host, self: TcpConnection, data: Bytes, n: nat)
    requires n < |data|
    requires Took(h, self, CrossingEffect(h.conn, |data| - n), h1)
    requires Took(h1, self, Plain(Appended(h1.conn, data[n..], data)), h2)
    requires Took(h2, self, WritingEffect(h2.conn), h3)
    ensures Took(h, self, Enqueue(h.conn, data, n, []), h3)
  {
    var e1, e2, e3 := CrossingEffect(h.conn, |data| - n), Plain(Appended(h1.conn, data[n..], data)), WritingEffect(h2.conn);
    TookThen(h, self, e1, h1, e2, h2);
    TookThen(h, self, Then(e1, e2), h2, e3, h3);
    assert h1.conn == e1.conn && h2.conn == e2.conn;
    hide Took;
    SameEffect(h, self, Then(Then(e1, e2), e3), Enqueue(h.conn, data, n, []), h3);
  }

  lemma SameEffect(h: Host, self: TcpConnection, e: Effect, f: Effect, t: Host)
    requires Took(h, self, e, t) && f.conn == e.conn && f.queued == e.queued && f.pushes == e.pushes
    ensures Took(h, self, f, t)
  {
  }
}
