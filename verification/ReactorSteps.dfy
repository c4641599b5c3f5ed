/** One lemma per reactor event: the invariant is kept and nothing dies but by a socket error. */
module ReactorSteps {
  import opened Kernel
  import opened PollerSpec
  import opened ConnectionSpec
  import opened ChannelSpec
  import opened ReactorSpec
  import opened ReactorInvariant

  /** The outcome every step must have. */
  ghost predicate Survives(o: Outcome) {
    (o.Next? ==> SysInv(o.s)) && (o.Died? ==> o.why == SocketError)
  }

  lemma ConnFacts(s: Sys, id: ConnId)
    requires SysInv(s) && id in s.conns
    ensures ConnInv(s.conns[id]) && id in s.poller.chans && Life(s, id)
  {
  }

  // ----- user calls -----

  lemma UserInv(s: Sys, id: ConnId, e: Effect)
    requires SysInv(s) && id in s.conns && InCallbacks(s)
    requires Tidy(s.conns[id], e) && Keeps(s.conns[id], e) && (!e.aborted ==> e.closed == 0)
    ensures Survives(Apply(s, id, e))
  {
    hide SysInv, Tidy, Keeps;
    if !e.aborted { ApplyInv(s, id, e); }
  }

  lemma SendEffect(c: Conn, data: Bytes, w: WriteResult)
    requires ConnInv(c) && (w.Wrote? ==> w.n <= |data|)
    ensures var e := Send(c, data, w); Tidy(c, e) && Keeps(c, e) && e.closed == 0
  {
    SendTidy(c, data, w);
    SendKeeps(c, data, w);
    hide ConnInv;
  }

  lemma ShutdownEffect(c: Conn)
    requires ConnInv(c)
    ensures var e := Shutdown(c); Tidy(c, e) && Keeps(c, e) && e.closed == 0
  {
    hide ConnInv;
    StateChangesTidy(c);
    ShutdownKeeps(c);
  }

  lemma ForceClosingEffect(c: Conn)
    requires ConnInv(c)
    ensures var e := ForceClosing(c); Tidy(c, e) && Keeps(c, e) && e.closed == 0
  {
    hide ConnInv;
    StateChangesTidy(c);
    ForceClosingKeeps(c);
  }

  lemma TakeInputEffect(c: Conn, n: nat)
    requires ConnInv(c)
    ensures var e := TakeInput(c, n); Tidy(c, e) && Keeps(c, e) && e.closed == 0
  {
    TakeInputTidy(c, n);
    TakeInputKeeps(c, n);
    hide ConnInv;
  }

  lemma UserRetrieveInv(s: Sys, id: ConnId, n: nat)
    requires SysInv(s) && id in s.conns && InCallbacks(s)
    ensures Survives(Apply(s, id, TakeInput(s.conns[id], n)))
  {
    ConnFacts(s, id);
    hide *;
    TakeInputEffect(s.conns[id], n);
    UserInv(s, id, TakeInput(s.conns[id], n));
  }

  lemma UserCallInv(s: Sys, id: ConnId, data: Bytes, w: WriteResult)
    requires SysInv(s) && id in s.conns && InCallbacks(s) && (w.Wrote? ==> w.n <= |data|)
    ensures Survives(Apply(s, id, Send(s.conns[id], data, w)))
    ensures Survives(Apply(s, id, Shutdown(s.conns[id])))
    ensures Survives(Apply(s, id, ForceClosing(s.conns[id])))
  {
    ConnFacts(s, id);
    hide *;
    var c := s.conns[id];
    SendEffect(c, data, w);
    ShutdownEffect(c);
    ForceClosingEffect(c);
    UserInv(s, id, Send(c, data, w));
    UserInv(s, id, Shutdown(c));
    UserInv(s, id, ForceClosing(c));
  }

  // ----- the loop moving along -----

  /** Connections and the server are left alone. */
  ghost predicate SameObjects(s: Sys, t: Sys) {
    && t.poller == s.poller && t.conns == s.conns && t.server == s.server && t.nextId == s.nextId
    && t.removed == s.removed && t.destroyed == s.destroyed && t.closing == s.closing
    && (forall x :: x in t.batch || x in t.pending ==> x in s.batch || x in s.pending)
    && (forall id :: Owed(t, id) == Owed(s, id))
  }

  lemma SamePlaces(s: Sys, t: Sys)
    requires Matched(s) && Ledger(s) && Lives(s) && SameObjects(s, t)
    ensures Matched(t) && Ledger(t) && Lives(t)
  {
    forall id | id in t.conns ensures Life(t, id) {
      assert Life(s, id);
      assert Owed(t, id) == Owed(s, id);
    }
  }

  /** What the kernel points at is a live, registered channel of an open connection. */
  lemma KernelPointsAtOpen(s: Sys, fd: nat)
    requires SysInv(s) && fd in s.poller.kernel
    ensures var id := s.poller.kernel[fd].ptr;
            id in s.conns && id in s.poller.chans && s.poller.chans[id].fd == fd && Serving(s, id)
  {
    var id := s.poller.kernel[fd].ptr;
    assert Tracks(s.poller, id);
    assert Life(s, id);
  }

  lemma PollInv(s: Sys, events: seq<(nat, Mask)>)
    requires SysInv(s) && s.phase.Polling? && Reports(s.poller, events)
    ensures SysInv(PollStep(s, events))
  {
    var t := PollStep(s, events);
    forall i | 0 <= i < |events|
      ensures events[i].0 in s.poller.kernel && !ClosesTwice(t.active[i].revents)
      ensures t.active[i].id in s.conns && Open(s.conns[t.active[i].id]) && s.poller.chans[t.active[i].id].fd == events[i].0
    {
      assert events[i] in events;
      KernelPointsAtOpen(s, events[i].0);
    }
    forall i, j | 0 <= i < j < |t.active| ensures t.active[i].id != t.active[j].id {
      assert s.poller.chans[t.active[i].id].fd == events[i].0 != events[j].0;
    }
    SamePlaces(s, t);
  }

  lemma NextChannelInv(s: Sys)
    requires SysInv(s) && s.phase.Dispatching? && s.turn.NoTurn? && s.closing.NoClosing? && s.active != []
    ensures NextChannelStep(s).Next? && SysInv(NextChannelStep(s).s)
  {
    hide Matched, Ledger, Lives;
    assert s.active[0] in s.active;
    var t := NextChannelStep(s).s;
    SamePlaces(s, t);
    NextChannelDispatch(s, t);
  }

  lemma NextChannelDispatch(s: Sys, t: Sys)
    requires Dispatch(s) && s.phase.Dispatching? && s.closing.NoClosing? && s.active != []
    requires t == s.(active := s.active[1..], turn := Turn(s.active[0].id, s.active[0].revents, ClosePart))
    ensures Dispatch(t)
  {
    assert s.active[0] in s.active;
    forall a | a in t.active ensures a in s.active && a.id != t.turn.id {
      var i :| 0 <= i < |t.active| && t.active[i] == a;
      assert s.active[i + 1] == a;
    }
  }

  lemma HandleInv(s: Sys, r: ReadResult, w: WriteResult)
    requires SysInv(s) && s.turn.Turn? && s.closing.NoClosing?
    requires s.turn.part.WritePart? && w.Wrote? && s.turn.id in s.conns ==> w.n <= |s.conns[s.turn.id].out|
    ensures Survives(HandleStep(s, r, w))
  {
    TurnFacts(s);
    hide SysInv, Tidy, Keeps, TurnOk, Apply, RunPart, Survives, ConnInv;
    PartTidy(s.conns[s.turn.id], s.turn.revents, s.turn.part, r, w);
    HandleApplied(s, RunPart(s.conns[s.turn.id], s.turn.revents, s.turn.part, r, w));
  }

  /** One test of handleEventWithGuard, for any effect its handler may have. */
  lemma HandleApplied(s: Sys, e: Effect)
    requires SysInv(s) && s.turn.Turn? && s.closing.NoClosing? && s.turn.id in s.conns
    requires Tidy(s.conns[s.turn.id], e) && Keeps(s.conns[s.turn.id], e)
    requires !e.aborted ==> TurnOk(e.conn, s.turn.revents, AfterPart(s.turn.part))
    ensures Survives(Apply(s.(turn := NextPart(s.turn)), s.turn.id, e))
  {
    TurnFacts(s);
    var id, s1 := s.turn.id, s.(turn := NoTurn);
    EffectCloses(s.conns[id], e);
    hide SysInv, Tidy, Keeps, TurnOk, PushAll, ConnInv;
    if !e.aborted {
      ApplyInv(s1, id, e);
      var t := Apply(s1, id, e).s;
      SetTurnInv(t, t.(turn := NextPart(s.turn)), id);
    }
  }

  lemma EffectCloses(c: Conn, e: Effect)
    requires Tidy(c, e)
    ensures !e.aborted ==> e.closed <= 1
  {
  }

  lemma TurnFacts(s: Sys)
    requires SysInv(s) && s.turn.Turn?
    ensures var id := s.turn.id;
            && id in s.conns && ConnInv(s.conns[id]) && !ClosesTwice(s.turn.revents)
            && TurnOk(s.conns[id], s.turn.revents, s.turn.part)
            && (forall a :: a in s.active ==> a.id != id)
            && s.phase.Dispatching?
    ensures SysInv(s.(turn := NoTurn))
  {
    SamePlaces(s, s.(turn := NoTurn));
  }

  lemma SetTurnInv(t1: Sys, t: Sys, id: ConnId)
    requires SysInv(t1) && t1.phase.Dispatching? && t1.turn.NoTurn? && t == t1.(turn := t.turn)
    requires id in t1.conns && (forall a :: a in t1.active ==> a.id != id)
    requires t.turn.Turn? ==> t.turn.id == id && !ClosesTwice(t.turn.revents) && TurnOk(t1.conns[id], t.turn.revents, t.turn.part)
    requires t1.closing.Closing? ==> t1.closing.id == id
    ensures SysInv(t)
  {
    hide Matched, Ledger, Lives;
    SamePlaces(t1, t);
  }

  lemma EndDispatchInv(s: Sys)
    requires SysInv(s) && s.phase.Dispatching? && s.active == [] && s.turn.NoTurn? && s.closing.NoClosing?
    ensures SysInv(s.(phase := Functors, batch := s.pending, pending := []))
  {
    SamePlaces(s, s.(phase := Functors, batch := s.pending, pending := []));
  }

  lemma EndFunctorsInv(s: Sys)
    requires SysInv(s) && s.phase.Functors? && s.batch == [] && s.closing.NoClosing?
    ensures SysInv(s.(phase := Polling))
  {
    SamePlaces(s, s.(phase := Polling));
  }

  // ----- the server -----

  lemma RemoveConnectionInv(s: Sys)
    requires SysInv(s) && s.closing.Closing?
    ensures SysInv(RemoveConnection(s))
  {
    var id := s.closing.id;
    var t := RemoveConnection(s);
    ClosingIsLeaving(s);
    hide SysInv;
    assert id !in s.destroyed;
    RemovedLives(s, t, id);
    RemovedRest(s, t, id);
  }

  lemma ClosingIsLeaving(s: Sys)
    requires SysInv(s) && s.closing.Closing?
    ensures Matched(s) && Ledger(s) && Dispatch(s) && Lives(s) && s.closing.id in s.conns && Leaving(s, s.closing.id)
  {
    assert Life(s, s.closing.id);
  }

  lemma RemovedLives(s: Sys, t: Sys, id: ConnId)
    requires s.poller.chans.Keys == s.conns.Keys && Lives(s) && s.closing == Closing(id) && id in s.conns && Leaving(s, id)
    requires t == RemoveConnection(s) && id !in s.destroyed
    ensures Lives(t)
  {
    forall l | l in t.conns ensures Life(t, l) {
      assert Life(s, l);
      assert multiset(t.pending) == multiset(s.pending) + multiset{Task(id, Destroy)};
      assert Owed(t, l) == Owed(s, l) + if l == id then 1 else 0;
      assert l in t.removed <==> l in s.removed || l == id;
    }
  }

  lemma RemovedRest(s: Sys, t: Sys, id: ConnId)
    requires Matched(s) && Ledger(s) && Dispatch(s) && s.closing == Closing(id) && id in s.conns && id in s.server && id !in s.removed
    requires t == RemoveConnection(s)
    ensures Matched(t) && Ledger(t) && Dispatch(t)
  {
    RemovedLedger(s, t, id);
    RemovedDispatch(s, t);
    hide Consistent, ConnInv, Ledger, Dispatch;
  }

  lemma RemovedLedger(s: Sys, t: Sys, id: ConnId)
    requires Ledger(s) && s.closing == Closing(id) && id in s.conns && id in s.server && id !in s.removed
    requires t == RemoveConnection(s)
    ensures Ledger(t)
  {
    assert forall l :: l in t.removed <==> l in s.removed || l == id;
    assert forall x :: x in t.pending <==> x in s.pending || x == Task(id, Destroy);
  }

  lemma RemovedDispatch(s: Sys, t: Sys)
    requires Dispatch(s) && s.closing.Closing? && t == RemoveConnection(s)
    ensures Dispatch(t)
  {
    hide TurnOk;
  }

  lemma NewConnectionInv(s: Sys, fd: nat, mark: nat, wantsHigh: bool, wantsComplete: bool)
    requires SysInv(s) && s.phase.Dispatching? && s.turn.NoTurn? && s.closing.NoClosing? && FdFree(s.poller, fd)
    ensures NewConnection(s, fd, mark, wantsHigh, wantsComplete).Next?
    ensures SysInv(NewConnection(s, fd, mark, wantsHigh, wantsComplete).s)
  {
    var id, newborn := s.nextId, Fresh(mark, wantsHigh, wantsComplete);
    var e := ConnectEstablished(newborn);
    NextIdIsNew(s);
    SysParts(s);
    NewbornServes(newborn, mark, wantsHigh, wantsComplete);
    hide SysInv, Consistent, ConnInv, PushAll, ConnectEstablished, FdFree;
    NewChannel(s.poller, id, fd, e.conn.events);
    NewConnectionApplied(s, fd, mark, wantsHigh, wantsComplete);
    var t := NewConnection(s, fd, mark, wantsHigh, wantsComplete).s;
    hide NewConnection;
    NewConnectionPlaces(s, t, e.conn);
  }

  lemma NewConnectionApplied(s: Sys, fd: nat, mark: nat, wantsHigh: bool, wantsComplete: bool)
    requires var e := ConnectEstablished(Fresh(mark, wantsHigh, wantsComplete));
             !e.aborted && e.queued == [] && e.closed == 0
             && PushAll(AddChan(s.poller, s.nextId, fd), s.nextId, e.pushes).Ok?
    ensures var e := ConnectEstablished(Fresh(mark, wantsHigh, wantsComplete));
            NewConnection(s, fd, mark, wantsHigh, wantsComplete)
            == Next(s.(nextId := s.nextId + 1, server := s.server + {s.nextId}, conns := s.conns[s.nextId := e.conn],
                       poller := PushAll(AddChan(s.poller, s.nextId, fd), s.nextId, e.pushes).p))
  {
    hide PushAll, AddChan, ConnectEstablished;
    assert Tasks(s.nextId, []) == [] && s.pending + [] == s.pending;
  }

  lemma SysParts(s: Sys)
    requires SysInv(s)
    ensures Matched(s) && Consistent(s.poller) && s.poller.chans.Keys == s.conns.Keys
  {
  }

  lemma NewbornServes(c: Conn, mark: nat, wantsHigh: bool, wantsComplete: bool)
    requires c == Fresh(mark, wantsHigh, wantsComplete)
    ensures var e := ConnectEstablished(c);
            && !e.aborted && e.pushes == [e.conn.events] && e.queued == [] && e.closed == 0
            && ConnInv(e.conn) && Open(e.conn) && e.conn.closes == 0 && e.conn.events != NONE_EVENT
  {
    FreshInv(mark, wantsHigh, wantsComplete);
    EstablishedKeeps(c);
    OpenHasMask(ConnectEstablished(c).conn);
  }

  lemma AddChanFacts(p: Poller<ConnId>, id: ConnId, fd: nat)
    requires id !in p.chans
    ensures var q := AddChan(p, id, fd).chans;
            && q.Keys == p.chans.Keys + {id} && q[id].index.New?
            && (forall l :: l in p.chans ==> q[l] == p.chans[l])
  {
  }

  lemma NewChannel(p: Poller<ConnId>, id: ConnId, fd: nat, mask: Mask)
    requires Consistent(p) && id !in p.chans && FdFree(p, fd) && mask != NONE_EVENT
    ensures PushAll(AddChan(p, id, fd), id, [mask]).Ok?
    ensures var q := PushAll(AddChan(p, id, fd), id, [mask]).p;
            && Consistent(q) && q.chans.Keys == p.chans.Keys + {id}
            && (forall l :: l in p.chans ==> q.chans[l] == p.chans[l])
            && q.chans[id].events == mask && q.chans[id].index.Added?
  {
    var p1 := AddChan(p, id, fd);
    AddChanConsistent(p, id, fd);
    AddChanFacts(p, id, fd);
    PushOne(p1, id, mask);
    hide Consistent, SetEvents, PushAll, AddChan;
    SetEventsConsistent(p1, id, mask);
  }

  /** A newborn connection next to the others. */
  ghost predicate Joined(s: Sys, t: Sys, c: Conn) {
    && t == s.(nextId := s.nextId + 1, server := s.server + {s.nextId}, poller := t.poller, conns := s.conns[s.nextId := c])
    && Open(c) && c.closes == 0
    && t.poller.chans.Keys == s.poller.chans.Keys + {s.nextId}
    && (forall l :: l in s.poller.chans ==> t.poller.chans[l] == s.poller.chans[l])
    && t.poller.chans[s.nextId].events == c.events && t.poller.chans[s.nextId].index.Added?
  }

  lemma NewConnectionPlaces(s: Sys, t: Sys, c: Conn)
    requires SysInv(s) && s.phase.Dispatching? && s.turn.NoTurn? && s.closing.NoClosing?
    requires Joined(s, t, c) && ConnInv(c) && Consistent(t.poller)
    ensures SysInv(t)
  {
    NextIdIsNew(s);
    hide Matched, Ledger, Dispatch, Lives;
    JoinedMatched(s, t, c);
    JoinedLedger(s, t, c);
    JoinedDispatch(s, t, c);
    JoinedLives(s, t, c);
  }

  lemma NextIdIsNew(s: Sys)
    requires SysInv(s)
    ensures s.nextId !in s.conns && s.nextId !in s.removed && s.nextId !in s.server && Owed(s, s.nextId) == 0
    ensures s.poller.chans.Keys == s.conns.Keys && s.closing != Closing(s.nextId)
  {
    var id := s.nextId;
    assert id !in s.conns;
    assert Task(id, Destroy) !in s.batch && Task(id, Destroy) !in s.pending;
  }

  lemma JoinedMatched(s: Sys, t: Sys, c: Conn)
    requires Matched(s) && s.nextId >= 1 && s.nextId !in s.conns && Joined(s, t, c) && ConnInv(c) && Consistent(t.poller)
    ensures Matched(t)
  {
    hide Consistent, ConnInv;
  }

  lemma JoinedLedger(s: Sys, t: Sys, c: Conn)
    requires Ledger(s) && s.nextId !in s.conns && Joined(s, t, c)
    ensures Ledger(t)
  {
  }

  lemma JoinedDispatch(s: Sys, t: Sys, c: Conn)
    requires Dispatch(s) && s.nextId !in s.conns && Joined(s, t, c)
    ensures Dispatch(t)
  {
  }

  lemma JoinedLives(s: Sys, t: Sys, c: Conn)
    requires s.poller.chans.Keys == s.conns.Keys && Lives(s) && Joined(s, t, c)
    requires s.nextId !in s.conns && s.nextId !in s.removed && Owed(s, s.nextId) == 0 && s.closing != Closing(s.nextId)
    ensures Lives(t)
  {
    forall l | l in t.conns ensures Life(t, l) {
      assert Owed(t, l) == Owed(s, l);
      if l != s.nextId { assert Life(s, l); } else { assert Serving(t, l); }
    }
  }

  lemma ReleaseInv(s: Sys, id: ConnId)
    requires SysInv(s) && id in s.conns && Unreferenced(s, id)
    ensures ReleaseStep(s, id).Next? && SysInv(ReleaseStep(s, id).s)
  {
    UnreferencedIsGone(s, id);
    hide Matched, Ledger, Dispatch, Lives;
    var t := ReleaseStep(s, id).s;
    ReleasedMatched(s, t, id);
    ReleasedLives(s, t, id);
    ReleasedRest(s, t, id);
  }

  lemma ReleasedMatched(s: Sys, t: Sys, id: ConnId)
    requires Matched(s) && id in s.conns && s.poller.chans[id].index.New?
    requires t == s.(conns := s.conns - {id}, poller := DropChan(s.poller, id))
    ensures Matched(t)
  {
    DropChanConsistent(s.poller, id);
    hide Consistent, ConnInv;
  }

  lemma ReleasedLives(s: Sys, t: Sys, id: ConnId)
    requires s.poller.chans.Keys == s.conns.Keys && Lives(s)
    requires t == s.(conns := s.conns - {id}, poller := DropChan(s.poller, id))
    ensures Lives(t)
  {
    forall l | l in t.conns ensures Life(t, l) {
      assert Life(s, l) && Owed(t, l) == Owed(s, l);
    }
  }

  lemma ReleasedRest(s: Sys, t: Sys, id: ConnId)
    requires Ledger(s) && Dispatch(s) && id in s.conns && Unreferenced(s, id) && id in s.destroyed && !Open(s.conns[id])
    requires t == s.(conns := s.conns - {id}, poller := DropChan(s.poller, id))
    ensures Ledger(t) && Dispatch(t)
  {
    forall x | x in t.batch || x in t.pending ensures x.id in t.conns { assert x in Queue(s); }
  }

  /** A connection nobody references any more has been destroyed and unregistered. */
  lemma UnreferencedIsGone(s: Sys, id: ConnId)
    requires SysInv(s) && id in s.conns && Unreferenced(s, id)
    ensures s.poller.chans.Keys == s.conns.Keys && Gone(s, id)
  {
    assert Life(s, id);
    forall t | t in s.batch || t in s.pending ensures t.id != id { assert t in Queue(s); }
    assert Task(id, Destroy) !in s.batch && Task(id, Destroy) !in s.pending;
  }

  // ----- functors -----

  /** Taking a functor off the batch that is not a connectDestroyed. */
  lemma TakeTaskInv(s: Sys)
    requires SysInv(s) && s.phase.Functors? && s.batch != [] && !s.batch[0].kind.Destroy?
    ensures SysInv(s.(batch := s.batch[1..]))
  {
    var t := s.(batch := s.batch[1..]);
    TakeTaskSame(s, t);
    TakeTaskDispatch(s, t);
    hide Matched, Ledger, Lives, Dispatch, SameObjects;
    SamePlaces(s, t);
  }

  lemma TakeTaskDispatch(s: Sys, t: Sys)
    requires Dispatch(s) && s.phase.Functors? && t == s.(batch := t.batch)
    ensures Dispatch(t)
  {
  }

  lemma TakeTaskSame(s: Sys, t: Sys)
    requires s.batch != [] && !s.batch[0].kind.Destroy? && t == s.(batch := s.batch[1..])
    ensures SameObjects(s, t)
  {
    BatchHead(s.batch);
    forall id ensures Owed(t, id) == Owed(s, id) {
      assert multiset{s.batch[0]}[Task(id, Destroy)] == 0;
    }
  }

  lemma BatchHead(batch: seq<Task>)
    requires batch != []
    ensures multiset(batch) == multiset{batch[0]} + multiset(batch[1..])
  {
    assert batch == [batch[0]] + batch[1..];
  }

  lemma ForceCloseTaskInv(s: Sys, id: ConnId)
    requires SysInv(s) && s.phase.Functors? && id in s.conns && s.closing.NoClosing?
    ensures Survives(Apply(s, id, ForceCloseInLoop(s.conns[id])))
  {
    ConnFacts(s, id);
    assert s.active == [] && s.turn.NoTurn?;
    var c := s.conns[id];
    hide SysInv, ConnInv, Tidy, Life;
    StateChangesTidy(c);
    if Open(c) { HandleCloseKeeps(c); }
    ApplyInv(s, id, ForceCloseInLoop(c));
  }

  lemma DestroyTaskInv(s: Sys)
    requires SysInv(s) && s.phase.Functors? && s.batch != [] && s.batch[0].kind.Destroy? && s.closing.NoClosing?
    ensures s.batch[0].id in s.conns
    ensures var o := DestroyStep(s.(batch := s.batch[1..]), s.batch[0].id); o.Next? && SysInv(o.s)
  {
    var id, s1 := s.batch[0].id, s.(batch := s.batch[1..]);
    BatchHead(s.batch);
    OwedIsDoomed(s, id);
    DestroyIsRemove(s1, id);
    RemoveConsistent(s.poller, id);
    var t := DestroyStep(s1, id).s;
    hide *;
    DestroyedPlaces(s, t, id);
  }

  lemma OwedIsDoomed(s: Sys, id: ConnId)
    requires SysInv(s) && Task(id, Destroy) in s.batch
    ensures id in s.conns && id in s.poller.chans && Doomed(s, id)
    ensures Consistent(s.poller)
  {
    assert Life(s, id);
  }

  lemma DestroyIsRemove(s: Sys, id: ConnId)
    requires id in s.conns && s.conns[id].state.Disconnected? && id in s.poller.chans
    ensures DestroyStep(s, id) ==
            if RemoveChannel(s.poller, id).Failed? then Died(CtlError)
            else Next(s.(poller := RemoveChannel(s.poller, id).p, destroyed := s.destroyed + [id]))
  {
    assert s.conns[id := s.conns[id]] == s.conns;
    assert s.pending + Tasks(id, []) == s.pending;
  }

  /** connectDestroyed for the functor at the head of the batch. */
  ghost predicate Unhooked(s: Sys, t: Sys, id: ConnId) {
    && s.batch != [] && s.batch[0] == Task(id, Destroy) && id in s.poller.chans
    && multiset(s.batch) == multiset{s.batch[0]} + multiset(s.batch[1..])
    && t == s.(batch := s.batch[1..], poller := t.poller, destroyed := s.destroyed + [id])
    && OnlyTouches(s.poller, t.poller, id) && t.poller.chans[id] == s.poller.chans[id].(index := New)
  }

  lemma DestroyedPlaces(s: Sys, t: Sys, id: ConnId)
    requires SysInv(s) && s.phase.Functors? && id in s.conns && id in s.poller.chans && Doomed(s, id)
    requires Unhooked(s, t, id) && Consistent(t.poller)
    ensures SysInv(t)
  {
    DestroyedMatched(s, t, id);
    DestroyedLives(s, t, id);
    DestroyedRest(s, t, id);
    hide Matched, Ledger, Dispatch, Lives;
  }

  lemma DestroyedMatched(s: Sys, t: Sys, id: ConnId)
    requires Matched(s) && Unhooked(s, t, id) && Consistent(t.poller)
    ensures Matched(t)
  {
    hide Consistent, ConnInv;
  }

  lemma DestroyedLives(s: Sys, t: Sys, id: ConnId)
    requires s.poller.chans.Keys == s.conns.Keys && Lives(s) && Unhooked(s, t, id)
    requires Doomed(s, id)
    ensures Lives(t)
  {
    forall l | l in t.conns ensures Life(t, l) {
      assert Life(s, l);
      assert Owed(t, l) + (if l == id then 1 else 0) == Owed(s, l);
      assert l in t.destroyed <==> l in s.destroyed || l == id;
    }
  }

  lemma DestroyedRest(s: Sys, t: Sys, id: ConnId)
    requires Ledger(s) && Dispatch(s) && s.phase.Functors? && Unhooked(s, t, id)
    requires id in s.removed && id !in s.destroyed
    ensures Ledger(t) && Dispatch(t)
  {
    assert forall l :: l in t.destroyed <==> l in s.destroyed || l == id;
  }

  lemma RunTaskInv(s: Sys)
    requires SysInv(s) && s.phase.Functors? && s.batch != [] && s.closing.NoClosing?
    ensures Survives(RunTaskStep(s))
  {
    TaskOwner(s);
    hide SysInv, Apply, DestroyStep;
    if s.batch[0].kind.Destroy? {
      DestroyTaskInv(s);
    } else {
      TakeTaskInv(s);
      if s.batch[0].kind.ForceClose? { ForceCloseTaskInv(s.(batch := s.batch[1..]), s.batch[0].id); }
    }
  }

  lemma TaskOwner(s: Sys)
    requires SysInv(s) && s.batch != []
    ensures s.batch[0].id in s.conns
  {
    assert s.batch[0] in s.batch;
  }
}
