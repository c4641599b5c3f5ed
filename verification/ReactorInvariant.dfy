/** What every step of the reactor keeps. */
module ReactorInvariant {
  import opened Kernel
  import opened PollerSpec
  import opened ConnectionSpec
  import opened ChannelSpec
  import opened ReactorSpec
  import opened Seqs

  /** Destroy functors queued for a connection. */
  ghost function Owed(s: Sys, id: ConnId): nat {
    multiset(s.batch)[Task(id, Destroy)] + multiset(s.pending)[Task(id, Destroy)]
  }

  /** In connections_, registered, open. */
  ghost predicate Serving(s: Sys, id: ConnId)
    requires id in s.conns && id in s.poller.chans
  {
    && Open(s.conns[id]) && s.conns[id].closes == 0 && s.poller.chans[id].index.Added?
    && id in s.server && id !in s.removed && Owed(s, id) == 0 && s.closing != Closing(id)
  }

  /** Inside handleClose, before closeCallback_. */
  ghost predicate Leaving(s: Sys, id: ConnId)
    requires id in s.conns && id in s.poller.chans
  {
    && s.conns[id].state.Disconnected? && s.conns[id].closes == 1 && s.poller.chans[id].index.Deleted?
    && id in s.server && id !in s.removed && Owed(s, id) == 0 && s.closing == Closing(id)
  }

  /** Removed from the server, connectDestroyed queued. */
  ghost predicate Doomed(s: Sys, id: ConnId)
    requires id in s.conns && id in s.poller.chans
  {
    && s.conns[id].state.Disconnected? && s.conns[id].closes == 1 && s.poller.chans[id].index.Deleted?
    && id !in s.server && id in s.removed && id !in s.destroyed && Owed(s, id) == 1 && s.closing != Closing(id)
  }

  /** connectDestroyed has run. */
  ghost predicate Gone(s: Sys, id: ConnId)
    requires id in s.conns && id in s.poller.chans
  {
    && s.conns[id].state.Disconnected? && s.conns[id].closes == 1 && s.poller.chans[id].index.New?
    && id !in s.server && id in s.removed && id in s.destroyed && Owed(s, id) == 0 && s.closing != Closing(id)
  }

  ghost predicate Life(s: Sys, id: ConnId)
    requires id in s.conns && id in s.poller.chans
  {
    Serving(s, id) || Leaving(s, id) || Doomed(s, id) || Gone(s, id)
  }

  /** Connection objects and channels correspond, and agree on the mask. */
  ghost predicate Matched(s: Sys) {
    && Consistent(s.poller)
    && s.poller.chans.Keys == s.conns.Keys
    && (forall id :: id in s.conns ==>
          ConnInv(s.conns[id]) && s.poller.chans[id].events == s.conns[id].events && 1 <= id < s.nextId)
  }

  /** connections_ is exactly created minus removed; objects that are gone were destroyed. */
  ghost predicate Ledger(s: Sys) {
    && s.nextId >= 1
    && (forall id :: id in s.server || id in s.removed <==> 1 <= id < s.nextId)
    && (forall id :: id in s.server ==> id in s.conns && id !in s.removed)
    && NoRepeats(s.removed) && NoRepeats(s.destroyed)
    && (forall id :: id in s.destroyed ==> id in s.removed)
    && (forall id :: id in s.removed && id !in s.conns ==> id in s.destroyed)
    && (forall t :: t in s.batch || t in s.pending ==> t.id in s.conns)
    && (s.closing.Closing? ==> s.closing.id in s.conns)
  }

  /** Every channel still waiting for its turn is registered and open. */
  ghost predicate Dispatch(s: Sys) {
    && (forall i, j :: 0 <= i < j < |s.active| ==> s.active[i].id != s.active[j].id)
    && (forall a :: a in s.active ==>
          a.id in s.conns && Open(s.conns[a.id]) && !ClosesTwice(a.revents) && (s.turn.Turn? ==> a.id != s.turn.id))
    && (!s.phase.Dispatching? ==> s.active == [] && s.turn.NoTurn?)
    && (!s.phase.Functors? ==> s.batch == [])
    && (s.phase.Polling? ==> s.closing.NoClosing?)
    && (s.turn.Turn? ==> s.turn.id in s.conns && !ClosesTwice(s.turn.revents) && TurnOk(s.conns[s.turn.id], s.turn.revents, s.turn.part))
    && (s.turn.Turn? && s.closing.Closing? ==> s.closing.id == s.turn.id)
  }

  /** By the time of the read test a closed channel has no read bit left to act on. */
  ghost predicate TurnOk(c: Conn, revents: Mask, part: Part) {
    match part
    case ClosePart => Open(c)
    case ErrorPart => Open(c) || (HUP in revents && IN !in revents)
    case ReadPart => Open(c) || (IN !in revents && PRI !in revents)
    case WritePart => true
  }

  ghost predicate Lives(s: Sys)
    requires s.poller.chans.Keys == s.conns.Keys
  {
    forall id :: id in s.conns ==> Life(s, id)
  }

  ghost predicate SysInv(s: Sys) {
    Matched(s) && Ledger(s) && Dispatch(s) && Lives(s)
  }

  lemma BootInv()
    ensures SysInv(BOOT)
  {
  }

  // ----- what handlers ask for -----

  /** A handler pushes its final mask or leaves it, queues no Destroy, and closes only by disconnecting. */
  ghost predicate Tidy(c: Conn, e: Effect) {
    !e.aborted ==>
      && ((e.pushes == [] && e.conn.events == c.events) || e.pushes == [e.conn.events])
      && Destroy !in e.queued && e.closed <= 1
      && (e.closed == 1 ==> e.conn.state.Disconnected? && e.conn.closes == c.closes + 1 && e.pushes == [NONE_EVENT])
      && (e.closed == 0 ==> e.conn.closes == c.closes && (Open(c) ==> Open(e.conn)))
      && (c.state.Disconnected? ==> e.conn.state.Disconnected? && e.conn.events == c.events && e.pushes == [] && e.closed == 0)
  }

  lemma SendTidy(c: Conn, data: Bytes, w: WriteResult)
    requires w.Wrote? ==> w.n <= |data|
    ensures Tidy(c, Send(c, data, w))
  {
    if c.state.Connected? && w.Wrote? { EnqueueTidy(c.(calls := c.calls + [Write(data[..w.n])]), data, w.n, if w.n == |data| && c.wantsComplete then [WriteComplete] else []); }
    if c.state.Connected? { EnqueueTidy(c.(calls := c.calls + [Write([])]), data, 0, []); EnqueueTidy(c, data, 0, []); }
    hide Enqueue;
  }

  lemma EnqueueTidy(c: Conn, data: Bytes, n: nat, queued: seq<Kind>)
    requires n <= |data| && c.state.Connected? && Destroy !in queued
    ensures Tidy(c, Enqueue(c, data, n, queued))
  {
  }

  lemma StateChangesTidy(c: Conn)
    ensures Tidy(c, Shutdown(c)) && Tidy(c, ForceClosing(c)) && Tidy(c, ForceCloseInLoop(c))
    ensures Open(c) ==> Tidy(c, HandleClose(c))
  {
  }

  lemma TakeInputTidy(c: Conn, n: nat)
    ensures Tidy(c, TakeInput(c, n))
  {
  }

  lemma WriteTidy(c: Conn, w: WriteResult)
    requires (w.Wrote? ==> w.n <= |c.out|) && (Writing(c) ==> Open(c))
    ensures Tidy(c, HandleWrite(c, w)) && !HandleWrite(c, w).aborted
  {
  }

  function AfterPart(part: Part): Part {
    match part case ClosePart => ErrorPart case ErrorPart => ReadPart case ReadPart => WritePart case WritePart => WritePart
  }

  lemma PartTidy(c: Conn, revents: Mask, part: Part, r: ReadResult, w: WriteResult)
    requires ConnInv(c) && TurnOk(c, revents, part) && !ClosesTwice(revents) && (part.WritePart? && w.Wrote? ==> w.n <= |c.out|)
    ensures var e := RunPart(c, revents, part, r, w);
            Tidy(c, e) && Keeps(c, e) && (!e.aborted ==> TurnOk(e.conn, revents, AfterPart(part)))
  {
    hide ConnInv, HandleWrite;
    StateChangesTidy(c);
    match part
    case ClosePart => if Open(c) { HandleCloseKeeps(c); }
    case ErrorPart =>
    case ReadPart => if Open(c) { HandleReadKeeps(c, r); }
    case WritePart => WritingNeedsBytes(c); WriteTidy(c, w); HandleWriteKeeps(c, w);
  }

  // ----- carrying out an effect -----

  /** The poller after an effect: no epoll_ctl fails, and the index follows the mask. */
  lemma ApplyPoller(s: Sys, id: ConnId, e: Effect)
    requires Matched(s) && id in s.conns && Tidy(s.conns[id], e) && !e.aborted && ConnInv(e.conn)
    requires Open(s.conns[id]) ==> s.poller.chans[id].index.Added?
    requires Open(s.conns[id]) || s.conns[id].state.Disconnected?
    ensures Apply(s, id, e).Next?
    ensures var q := Apply(s, id, e).s.poller;
            && Consistent(q) && OnlyTouches(s.poller, q, id) && q.chans[id].events == e.conn.events
            && (Open(s.conns[id]) ==> q.chans[id].index == if e.closed == 1 then Deleted else Added)
            && (s.conns[id].state.Disconnected? ==> q == s.poller)
  {
    hide Consistent, SetEvents, ConnInv, OnlyTouches;
    TouchNothing(s.poller, id);
    if e.pushes != [] {
      PushOne(s.poller, id, e.pushes[0]);
      SetEventsConsistent(s.poller, id, e.pushes[0]);
      if e.closed == 0 { assert Open(e.conn); OpenHasMask(e.conn); }
    }
  }

  lemma TouchNothing(p: Poller<ConnId>, id: ConnId)
    requires id in p.chans
    ensures OnlyTouches(p, p, id)
  {
  }

  lemma OpenHasMask(c: Conn)
    requires ConnInv(c) && Open(c)
    ensures c.events != NONE_EVENT
  {
    assert IN in c.events;
  }

  lemma ApplyMatched(s: Sys, id: ConnId, e: Effect)
    requires Matched(s) && id in s.conns && Apply(s, id, e).Next? && !e.aborted && ConnInv(e.conn)
    requires var q := Apply(s, id, e).s.poller;
             Consistent(q) && OnlyTouches(s.poller, q, id) && q.chans[id].events == e.conn.events
    ensures Matched(Apply(s, id, e).s)
  {
    hide Consistent, ConnInv, PushAll;
  }

  lemma NoNewDestroy(s: Sys, id: ConnId, kinds: seq<Kind>, other: ConnId)
    requires Destroy !in kinds
    ensures multiset(s.pending + Tasks(id, kinds))[Task(other, Destroy)] == multiset(s.pending)[Task(other, Destroy)]
  {
    var ts := Tasks(id, kinds);
    forall i | 0 <= i < |ts| ensures ts[i] != Task(other, Destroy) { assert kinds[i] in kinds; }
    assert Task(other, Destroy) !in ts;
  }

  ghost predicate Applied(s: Sys, id: ConnId, e: Effect, t: Sys) {
    && t == s.(poller := t.poller, conns := s.conns[id := e.conn], pending := s.pending + Tasks(id, e.queued),
               closing := if e.closed > 0 then Closing(id) else s.closing)
    && t.poller.chans.Keys == s.poller.chans.Keys
    && (forall l :: l in s.poller.chans && l != id ==> t.poller.chans[l] == s.poller.chans[l])
  }

  lemma ApplyLives(s: Sys, id: ConnId, e: Effect, t: Sys)
    requires s.poller.chans.Keys == s.conns.Keys && Lives(s) && id in s.conns && Tidy(s.conns[id], e) && !e.aborted
    requires Applied(s, id, e, t)
    requires e.closed == 1 ==> s.closing.NoClosing?
    requires Open(s.conns[id]) ==> t.poller.chans[id].index == if e.closed == 1 then Deleted else Added
    requires s.conns[id].state.Disconnected? ==> t.poller == s.poller
    ensures Lives(t)
  {
    forall l | l in t.conns ensures Life(t, l) {
      NoNewDestroy(s, id, e.queued, l);
      assert Owed(t, l) == Owed(s, l);
      assert Life(s, l);
      if l != id { OtherLife(s, id, e, t, l); } else { OwnLife(s, id, e, t); }
    }
  }

  lemma OtherLife(s: Sys, id: ConnId, e: Effect, t: Sys, l: ConnId)
    requires s.poller.chans.Keys == s.conns.Keys && Applied(s, id, e, t) && l in s.conns && l != id && id in s.conns
    requires Life(s, l) && Owed(t, l) == Owed(s, l) && (e.closed > 0 ==> s.closing.NoClosing?)
    ensures Life(t, l)
  {
  }

  lemma OwnLife(s: Sys, id: ConnId, e: Effect, t: Sys)
    requires s.poller.chans.Keys == s.conns.Keys && Applied(s, id, e, t) && id in s.conns && Tidy(s.conns[id], e) && !e.aborted
    requires Life(s, id) && Owed(t, id) == Owed(s, id) && (e.closed > 0 ==> s.closing.NoClosing?)
    requires Open(s.conns[id]) ==> t.poller.chans[id].index == if e.closed == 1 then Deleted else Added
    requires s.conns[id].state.Disconnected? ==> t.poller == s.poller
    ensures Life(t, id)
  {
    assert t.conns[id] == e.conn;
  }

  lemma ApplyLedger(s: Sys, id: ConnId, e: Effect)
    requires Ledger(s) && id in s.conns && Apply(s, id, e).Next?
    ensures Ledger(Apply(s, id, e).s)
  {
    var s' := Apply(s, id, e).s;
    forall t | t in s'.batch || t in s'.pending ensures t.id in s'.conns {
      if t !in s.batch && t !in s.pending { assert t in Tasks(id, e.queued); }
    }
  }

  lemma ApplyDispatch(s: Sys, id: ConnId, e: Effect)
    requires Dispatch(s) && id in s.conns && Tidy(s.conns[id], e) && !e.aborted && Apply(s, id, e).Next?
    requires !s.phase.Polling?
    requires e.closed == 1 ==> s.closing.NoClosing? && (forall a :: a in s.active ==> a.id != id)
    requires s.turn.Turn? ==> e.closed == 0
    ensures Dispatch(Apply(s, id, e).s)
  {
    var s' := Apply(s, id, e).s;
    assert s'.active == s.active && s'.turn == s.turn;
  }

  lemma ApplyInv(s: Sys, id: ConnId, e: Effect)
    requires SysInv(s) && id in s.conns && Tidy(s.conns[id], e) && Keeps(s.conns[id], e) && !e.aborted && !s.phase.Polling?
    requires e.closed == 1 ==> s.closing.NoClosing? && (forall a :: a in s.active ==> a.id != id)
    requires s.turn.Turn? ==> e.closed == 0
    ensures Apply(s, id, e).Next? && SysInv(Apply(s, id, e).s)
  {
    hide Matched, Ledger, Dispatch, Lives, Tidy, ConnInv;
    IndexFollowsLife(s, id);
    ApplyPoller(s, id, e);
    ApplyMatched(s, id, e);
    assert Applied(s, id, e, Apply(s, id, e).s);
    ApplyLives(s, id, e, Apply(s, id, e).s);
    ApplyLedger(s, id, e);
    ApplyDispatch(s, id, e);
  }

  lemma IndexFollowsLife(s: Sys, id: ConnId)
    requires Matched(s) && Lives(s) && id in s.conns
    ensures ConnInv(s.conns[id]) && s.poller.chans.Keys == s.conns.Keys
    ensures Open(s.conns[id]) ==> s.poller.chans[id].index.Added?
    ensures Open(s.conns[id]) || s.conns[id].state.Disconnected?
  {
    assert Life(s, id);
  }
}
