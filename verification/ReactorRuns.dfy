/** Every run of the reactor from start-up: what holds of connections, the server map and the poller. */
module ReactorRuns {
  import opened Kernel
  import opened PollerSpec
  import opened ConnectionSpec
  import opened ChannelSpec
  import opened ReactorSpec
  import opened Seqs
  import opened ReactorInvariant
  import opened ReactorSteps

  /** No step breaks the invariant, fails an epoll_ctl, or touches a destroyed object. */
  lemma StepInv(s: Sys, ev: Event)
    requires SysInv(s) && Enabled(s, ev)
    ensures Survives(Step(s, ev))
  {
    hide SysInv, PollStep, NextChannelStep, HandleStep, RemoveConnection, NewConnection, ReleaseStep, RunTaskStep, Apply, Reports, Unreferenced, FdFree;
    match ev
    case PollReturns(events) => PollInv(s, events);
    case NextChannel => NextChannelInv(s);
    case Handle(r, w) => HandleInv(s, r, w);
    case CloseCallback => RemoveConnectionInv(s);
    case Accept(fd, mark, wantsHigh, wantsComplete) => NewConnectionInv(s, fd, mark, wantsHigh, wantsComplete);
    case UserSend(id, data, w) => UserCallInv(s, id, data, w);
    case UserShutdown(id) => UserCallInv(s, id, [], Wrote(0));
    case UserForceClose(id) => UserCallInv(s, id, [], Wrote(0));
    case UserRetrieve(id, n) => UserRetrieveInv(s, id, n);
    case EndDispatch => EndDispatchInv(s);
    case RunTask => RunTaskInv(s);
    case EndFunctors => EndFunctorsInv(s);
    case Release(id) => ReleaseInv(s, id);
  }

  lemma {:induction false} ExecInv(s: Sys, run: seq<Event>)
    requires SysInv(s) && Legal(s, run)
    ensures Survives(Exec(s, run))
    decreases |run|
  {
    hide SysInv, Step;
    if run != [] {
      StepInv(s, run[0]);
      if Step(s, run[0]).Next? { ExecInv(Step(s, run[0]).s, run[1..]); }
    }
  }

  /** From start-up, the only way a run ends early is a failing socket call. */
  lemma RunsAreSafe(run: seq<Event>)
    requires Legal(BOOT, run)
    ensures Survives(Exec(BOOT, run))
  {
    BootInv();
    ExecInv(BOOT, run);
  }

  ghost predicate Reachable(s: Sys) {
    exists run :: Legal(BOOT, run) && Exec(BOOT, run) == Next(s)
  }

  lemma ReachableInv(s: Sys)
    requires Reachable(s)
    ensures SysInv(s)
  {
    var run :| Legal(BOOT, run) && Exec(BOOT, run) == Next(s);
    RunsAreSafe(run);
  }

  lemma BootReachable()
    ensures Reachable(BOOT)
  {
    var run: seq<Event> := [];
    assert Legal(BOOT, run) && Exec(BOOT, run) == Next(BOOT);
  }

  lemma {:induction false} RunSnoc(s: Sys, run: seq<Event>, ev: Event)
    requires Legal(s, run) && Exec(s, run).Next? && Enabled(Exec(s, run).s, ev)
    ensures Legal(s, run + [ev]) && Exec(s, run + [ev]) == Step(Exec(s, run).s, ev)
    decreases |run|
  {
    hide Enabled, Step;
    if run == [] {
      assert run + [ev] == [ev] && [ev][1..] == [];
      if Step(s, ev).Next? { assert Legal(Step(s, ev).s, []) && Exec(Step(s, ev).s, []) == Step(s, ev); }
    } else {
      assert (run + [ev])[0] == run[0] && (run + [ev])[1..] == run[1..] + [ev];
      RunSnoc(Step(s, run[0]).s, run[1..], ev);
    }
  }

  lemma ReachableStep(s: Sys, ev: Event, t: Sys)
    requires Reachable(s) && Enabled(s, ev) && Step(s, ev) == Next(t)
    ensures Reachable(t)
  {
    var run :| Legal(BOOT, run) && Exec(BOOT, run) == Next(s);
    hide Enabled, Step;
    RunSnoc(BOOT, run, ev);
  }

  // ----- connections -----

  /** Every connection, in every reachable state: stream, FIN, closing and high-water accounts. */
  lemma EveryConnection(s: Sys, id: ConnId)
    requires Reachable(s) && id in s.conns
    ensures var c := s.conns[id];
            && Written(c.calls) + c.out == c.accepted && c.consumed + c.inp == c.received
            && (c.shut && c.out == [] ==> SentFin(c))
            && (SentFin(c) ==> Written(c.calls) == c.accepted)
            && (forall i :: 0 <= i < |c.calls| && c.calls[i].Fin? ==> i == |c.calls| - 1)
            && c.closes <= 1 && (c.closes == 1 <==> c.state.Disconnected?)
            && (c.state.Disconnected? ==> c.events == NONE_EVENT)
            && (c.wantsHigh ==> c.highs == Crossings(c.lengths, c.mark))
  {
    ReachableInv(s);
    ConnFacts(s, id);
    var c := s.conns[id];
    hide SysInv, Crossings, Written;
    assert c.out == [] ==> Written(c.calls) + c.out == Written(c.calls);
  }

  /** A later value of a connection: nothing accepted or sent is taken back, the state only advances. */
  ghost predicate Grows(c: Conn, d: Conn) {
    && Rank(c.state) <= Rank(d.state) && c.closes <= d.closes
    && c.accepted <= d.accepted && c.calls <= d.calls && c.received <= d.received && c.consumed <= d.consumed
  }

  lemma EnqueueGrows(c: Conn, data: Bytes, n: nat, queued: seq<Kind>)
    requires n <= |data|
    ensures Grows(c, Enqueue(c, data, n, queued).conn)
  {
  }

  lemma CallGrows(c: Conn, call: Call)
    ensures Grows(c, c.(calls := c.calls + [call]))
  {
  }

  lemma SendGrows(c: Conn, data: Bytes, w: WriteResult)
    requires w.Wrote? ==> w.n <= |data|
    ensures Grows(c, Send(c, data, w).conn)
  {
    GrowsSame(c);
    EnqueueGrows(c, data, 0, []);
    var bytes := if w.Wrote? then data[..w.n] else [];
    var n := if w.Wrote? then w.n else 0;
    var queued := if w.Wrote? && w.n == |data| && c.wantsComplete then [WriteComplete] else [];
    var c1 := c.(calls := c.calls + [Write(bytes)]);
    CallGrows(c, Write(bytes));
    EnqueueGrows(c1, data, n, queued);
    hide Enqueue, Grows;
    GrowsTrans(c, c1, Enqueue(c1, data, n, queued).conn);
  }

  lemma StateGrows(c: Conn, d: Conn)
    requires d.accepted == c.accepted && d.received == c.received && d.consumed == c.consumed && (d.calls == c.calls || d.calls == c.calls + [Fin])
    requires Rank(c.state) <= Rank(d.state) && c.closes <= d.closes
    ensures Grows(c, d)
  {
  }

  lemma RankTop(x: ConnState)
    ensures Rank(x) <= Rank(Disconnected)
  {
  }

  lemma CloseGrows(c: Conn)
    ensures Grows(c, HandleClose(c).conn) && Grows(c, ForceCloseInLoop(c).conn)
  {
    RankTop(c.state);
    StateGrows(c, HandleClose(c).conn);
    StateGrows(c, c);
    hide Grows, Rank, HandleClose;
  }

  lemma DestroyedGrows(c: Conn)
    ensures Grows(c, ConnectDestroyed(c).conn)
  {
    StateGrows(c, ConnectDestroyed(c).conn);
  }

  lemma ShutdownGrows(c: Conn)
    ensures Grows(c, Shutdown(c).conn) && Grows(c, ForceClosing(c).conn)
  {
    StateGrows(c, Shutdown(c).conn);
    StateGrows(c, ForceClosing(c).conn);
    hide Grows;
  }

  lemma StateChangesGrow(c: Conn)
    ensures Grows(c, Shutdown(c).conn) && Grows(c, ForceClosing(c).conn) && Grows(c, ForceCloseInLoop(c).conn)
    ensures Grows(c, ConnectDestroyed(c).conn) && Grows(c, HandleClose(c).conn)
  {
    CloseGrows(c);
    DestroyedGrows(c);
    ShutdownGrows(c);
    hide *;
  }

  lemma TakeInputGrows(c: Conn, n: nat)
    ensures Grows(c, TakeInput(c, n).conn)
  {
  }

  lemma HandleWriteGrows(c: Conn, w: WriteResult)
    requires w.Wrote? ==> w.n <= |c.out|
    ensures Grows(c, HandleWrite(c, w).conn)
  {
    GrowsSame(c);
    var d := HandleWrite(c, w).conn;
    WriteFields(c, w);
    hide HandleWrite, Grows;
    if d.calls != c.calls {
      var bytes := if w.Wrote? && w.n > 0 then c.out[..w.n] else [];
      CallGrows(c, Write(bytes));
      StateGrows(c.(calls := c.calls + [Write(bytes)]), d);
      GrowsTrans(c, c.(calls := c.calls + [Write(bytes)]), d);
    } else {
      StateGrows(c, d);
    }
  }

  lemma WriteFields(c: Conn, w: WriteResult)
    requires w.Wrote? ==> w.n <= |c.out|
    ensures var d := HandleWrite(c, w).conn;
            var bytes := if w.Wrote? && w.n > 0 then c.out[..w.n] else [];
            && d.accepted == c.accepted && d.received == c.received && d.consumed == c.consumed && d.state == c.state && d.closes == c.closes
            && (d.calls == c.calls || d.calls == c.calls + [Write(bytes)] || d.calls == c.calls + [Write(bytes)] + [Fin])
  {
    hide Writing, SetMask, ShutdownInLoop;
    if w.Wrote? {
      var rest := c.out[w.n..];
      var c1 := c.(calls := c.calls + [Write(c.out[..w.n])], out := rest, lengths := c.lengths + [|rest|]);
      MaskFields(c1, c.events - WRITE_EVENT);
      ShutFields(SetMask(c1, c.events - WRITE_EVENT).conn);
    }
  }

  lemma MaskFields(c: Conn, events: Mask)
    ensures SetMask(c, events).conn == c.(events := events)
  {
  }

  lemma ShutFields(c: Conn)
    ensures var d := ShutdownInLoop(c).conn; d == c || d == c.(calls := c.calls + [Fin])
  {
    hide Writing;
  }

  lemma PartGrows(c: Conn, revents: Mask, part: Part, r: ReadResult, w: WriteResult)
    requires part.WritePart? && w.Wrote? ==> w.n <= |c.out|
    ensures Grows(c, RunPart(c, revents, part, r, w).conn)
  {
    GrowsSame(c);
    StateChangesGrow(c);
    if part.WritePart? { HandleWriteGrows(c, w); }
    hide HandleWrite, HandleClose;
  }

  /** The connection a step works on, and the effect it has there. */
  lemma ApplyGrows(s: Sys, o: Sys, e: Effect, at: ConnId, id: ConnId)
    requires at in s.conns && Apply(s, at, e) == Next(o) && Grows(s.conns[at], e.conn) && id in s.conns
    ensures id in o.conns && Grows(s.conns[id], o.conns[id])
  {
  }

  lemma GrowsSame(c: Conn)
    ensures Grows(c, c)
  {
  }

  lemma GrowsTrans(c: Conn, d: Conn, e: Conn)
    requires Grows(c, d) && Grows(d, e)
    ensures Grows(c, e)
  {
  }

  lemma HandleGrows(s: Sys, r: ReadResult, w: WriteResult, id: ConnId)
    requires s.turn.Turn? && (s.turn.part.WritePart? && w.Wrote? && s.turn.id in s.conns ==> w.n <= |s.conns[s.turn.id].out|)
    requires id in s.conns && HandleStep(s, r, w).Next?
    ensures var t := HandleStep(s, r, w).s; id in t.conns && Grows(s.conns[id], t.conns[id])
  {
    hide Apply, Grows, RunPart;
    var at := s.turn.id;
    PartGrows(s.conns[at], s.turn.revents, s.turn.part, r, w);
    ApplyGrows(s.(turn := NextPart(s.turn)), HandleStep(s, r, w).s, RunPart(s.conns[at], s.turn.revents, s.turn.part, r, w), at, id);
  }

  lemma AcceptGrows(s: Sys, fd: nat, mark: nat, wantsHigh: bool, wantsComplete: bool, id: ConnId)
    requires s.nextId !in s.conns && id in s.conns && NewConnection(s, fd, mark, wantsHigh, wantsComplete).Next?
    ensures var t := NewConnection(s, fd, mark, wantsHigh, wantsComplete).s; id in t.conns && t.conns[id] == s.conns[id]
  {
  }

  lemma RunTaskGrows(s: Sys, id: ConnId)
    requires s.batch != [] && RunTaskStep(s).Next? && id in s.conns
    ensures var t := RunTaskStep(s).s; id in t.conns && Grows(s.conns[id], t.conns[id])
  {
    hide Apply, Grows, ForceCloseInLoop, ConnectDestroyed, RemoveChannel;
    GrowsSame(s.conns[id]);
    var at, s1 := s.batch[0].id, s.(batch := s.batch[1..]);
    StateChangesGrow(s.conns[at]);
    if s.batch[0].kind.ForceClose? {
      ApplyGrows(s1, RunTaskStep(s).s, ForceCloseInLoop(s.conns[at]), at, id);
    } else if s.batch[0].kind.Destroy? {
      ApplyGrows(s1, Apply(s1, at, ConnectDestroyed(s.conns[at])).s, ConnectDestroyed(s.conns[at]), at, id);
    }
  }

  lemma StepGrows(s: Sys, ev: Event, id: ConnId)
    requires SysInv(s) && Enabled(s, ev) && Step(s, ev).Next? && id in s.conns
    requires id in Step(s, ev).s.conns
    ensures Grows(s.conns[id], Step(s, ev).s.conns[id])
  {
    NextIdIsNew(s);
    hide SysInv, Apply, Reports, Unreferenced, FdFree, Grows, Send, Shutdown, ForceClosing, TakeInput, HandleStep, NewConnection, RunTaskStep, Owed;
    GrowsSame(s.conns[id]);
    var t := Step(s, ev).s;
    match ev
    case Handle(r, w) => HandleGrows(s, r, w, id);
    case Accept(fd, mark, wantsHigh, wantsComplete) => AcceptGrows(s, fd, mark, wantsHigh, wantsComplete, id);
    case UserSend(at, data, w) => SendGrows(s.conns[at], data, w); ApplyGrows(s, t, Send(s.conns[at], data, w), at, id);
    case UserShutdown(at) => StateChangesGrow(s.conns[at]); ApplyGrows(s, t, Shutdown(s.conns[at]), at, id);
    case UserRetrieve(at, n) => TakeInputGrows(s.conns[at], n); ApplyGrows(s, t, TakeInput(s.conns[at], n), at, id);
    case UserForceClose(at) => StateChangesGrow(s.conns[at]); ApplyGrows(s, t, ForceClosing(s.conns[at]), at, id);
    case RunTask => RunTaskGrows(s, id);
    case _ => KeepsOthers(s, ev, id);
  }

  lemma KeepsOthers(s: Sys, ev: Event, id: ConnId)
    requires Enabled(s, ev) && (ev.PollReturns? || ev.NextChannel? || ev.CloseCallback? || ev.EndDispatch? || ev.EndFunctors? || ev.Release?)
    requires Step(s, ev).Next? && id in s.conns && id in Step(s, ev).s.conns
    ensures Step(s, ev).s.conns[id] == s.conns[id]
  {
    hide Reports, Unreferenced, DropChan, FillActive;
  }

  /** Numbers are never used twice, so a connection present later is the same object. */
  lemma StepIds(s: Sys, ev: Event)
    requires SysInv(s) && Enabled(s, ev) && Step(s, ev).Next?
    ensures var t := Step(s, ev).s; s.nextId <= t.nextId && (forall id :: id in t.conns && id !in s.conns ==> id >= s.nextId)
  {
    hide SysInv, PushAll, Reports, Unreferenced, FdFree, Send, RunPart, TakeInput, Shutdown, ForceClosing, ForceCloseInLoop, ConnectDestroyed, RemoveChannel, ConnectEstablished;
  }

  /** Over any run: bytes accepted and system calls made are only added to, the state only advances. */
  lemma {:induction false} ConnectionsAdvance(s: Sys, run: seq<Event>, id: ConnId)
    requires SysInv(s) && Legal(s, run) && Exec(s, run).Next? && id in s.conns && id in Exec(s, run).s.conns
    ensures Grows(s.conns[id], Exec(s, run).s.conns[id])
    decreases |run|
  {
    hide SysInv, Step, Grows, Enabled;
    GrowsSame(s.conns[id]);
    if run != [] {
      var t := Step(s, run[0]).s;
      StepInv(s, run[0]);
      if id in t.conns {
        StepGrows(s, run[0], id);
        ConnectionsAdvance(t, run[1..], id);
        GrowsTrans(s.conns[id], t.conns[id], Exec(t, run[1..]).s.conns[id]);
      } else {
        NextIdIsNew(s);
        IdBound(s, id);
        StepIds(s, run[0]);
        NeverBack(t, run[1..], id);
      }
    }
  }

  lemma IdBound(s: Sys, id: ConnId)
    requires SysInv(s) && id in s.conns
    ensures id < s.nextId
  {
  }

  lemma {:induction false} NeverBack(s: Sys, run: seq<Event>, id: ConnId)
    requires SysInv(s) && Legal(s, run) && Exec(s, run).Next? && id !in s.conns && id < s.nextId
    ensures id !in Exec(s, run).s.conns
    decreases |run|
  {
    hide SysInv, Step, Enabled;
    if run != [] {
      StepInv(s, run[0]);
      StepIds(s, run[0]);
      NeverBack(Step(s, run[0]).s, run[1..], id);
    }
  }

  /** Once FIN is out, no run makes another system call on that connection's write side. */
  lemma NothingAfterFin(s: Sys, run: seq<Event>, id: ConnId)
    requires Reachable(s) && Legal(s, run) && Exec(s, run).Next? && id in s.conns && id in Exec(s, run).s.conns
    requires SentFin(s.conns[id])
    ensures var c, d := s.conns[id], Exec(s, run).s.conns[id];
            d.calls == c.calls && d.accepted == c.accepted
  {
    ReachableInv(s);
    ConnectionsAdvance(s, run, id);
    ExecInv(s, run);
    ConnFacts(s, id);
    ConnFacts(Exec(s, run).s, id);
    hide SysInv, Exec, Legal;
    FinStays(s.conns[id], Exec(s, run).s.conns[id]);
  }

  lemma FinStays(c: Conn, d: Conn)
    requires ConnInv(c) && ConnInv(d) && Grows(c, d) && SentFin(c)
    ensures d.calls == c.calls && d.accepted == c.accepted
  {
    hide Written, MaskFollows, HighWaterCounted;
    assert d.calls[|c.calls| - 1] == c.calls[|c.calls| - 1];
    assert Written(c.calls) + c.out == Written(c.calls);
    assert Written(d.calls) + d.out == Written(d.calls);
  }

  // ----- write-complete callbacks -----

  /** What a step appended to pendingFunctors_. */
  function NewTasks(s: Sys, t: Sys): seq<Task> {
    if s.pending <= t.pending then t.pending[|s.pending|..] else []
  }

  lemma ApplyFlushed(s: Sys, at: ConnId, e: Effect, t: Sys, id: ConnId)
    requires Apply(s, at, e) == Next(t) && (WriteComplete in e.queued ==> Flushed(e.conn))
    requires Task(id, WriteComplete) in NewTasks(s, t)
    ensures id in t.conns && Flushed(t.conns[id])
  {
    hide Flushed, PushAll;
    var ts := Tasks(at, e.queued);
    assert NewTasks(s, t) == ts;
    var i :| 0 <= i < |ts| && ts[i] == Task(id, WriteComplete);
    assert e.queued[i] in e.queued;
  }

  lemma PartFlushed(c: Conn, revents: Mask, part: Part, r: ReadResult, w: WriteResult)
    requires ConnInv(c) && (part.WritePart? && w.Wrote? ==> w.n <= |c.out|)
    ensures WriteComplete in RunPart(c, revents, part, r, w).queued ==> Flushed(RunPart(c, revents, part, r, w).conn)
  {
    if part.WritePart? { HandleWriteCompletes(c, w); }
    hide ConnInv, Flushed, HandleWrite;
  }

  lemma QuietHandlers(c: Conn, n: nat)
    ensures WriteComplete !in Shutdown(c).queued && WriteComplete !in ForceClosing(c).queued
    ensures WriteComplete !in ForceCloseInLoop(c).queued && WriteComplete !in TakeInput(c, n).queued
    ensures WriteComplete !in ConnectEstablished(c).queued && WriteComplete !in ConnectDestroyed(c).queued
  {
  }

  /** Whenever any step queues a write-complete callback, everything accepted so far is on the wire. */
  lemma WriteCompleteIsFlushed(s: Sys, ev: Event, id: ConnId)
    requires Reachable(s) && Enabled(s, ev) && Step(s, ev).Next?
    requires Task(id, WriteComplete) in NewTasks(s, Step(s, ev).s)
    ensures id in Step(s, ev).s.conns && Flushed(Step(s, ev).s.conns[id])
  {
    ReachableInv(s);
    hide SysInv, Reachable, Apply, Reports, Unreferenced, FdFree, Flushed, Send, Shutdown, ForceClosing, TakeInput, ConnInv,
         HandleStep, NewConnection, RunTaskStep, NewTasks, PollStep, NextChannelStep, RemoveConnection, ReleaseStep;
    match ev
    case Handle(r, w) => HandleFlushed(s, r, w, id);
    case Accept(fd, mark, wantsHigh, wantsComplete) => AcceptQuiet(s, fd, mark, wantsHigh, wantsComplete, id);
    case UserSend(at, data, w) => SendFlushed(s, at, data, w, id);
    case UserShutdown(at) => QuietHandlers(s.conns[at], 0); ApplyQuiet(s, at, Shutdown(s.conns[at]), id);
    case UserForceClose(at) => QuietHandlers(s.conns[at], 0); ApplyQuiet(s, at, ForceClosing(s.conns[at]), id);
    case UserRetrieve(at, n) => QuietHandlers(s.conns[at], n); ApplyQuiet(s, at, TakeInput(s.conns[at], n), id);
    case RunTask => RunTaskQuiet(s, id);
    case _ => QuietSteps(s, ev, id);
  }

  /** The other steps queue no write-complete callback. */
  lemma QuietSteps(s: Sys, ev: Event, id: ConnId)
    requires ev.PollReturns? || ev.NextChannel? || ev.CloseCallback? || ev.EndDispatch? || ev.EndFunctors? || ev.Release?
    requires Enabled(s, ev) && Step(s, ev).Next?
    ensures Task(id, WriteComplete) !in NewTasks(s, Step(s, ev).s)
  {
    hide Reports, Unreferenced, DropChan, FillActive;
    if ev.CloseCallback? {
      assert Step(s, ev).s.pending[|s.pending|..] == [Task(s.closing.id, Destroy)];
    }
  }

  lemma SendFlushed(s: Sys, at: ConnId, data: Bytes, w: WriteResult, id: ConnId)
    requires SysInv(s) && at in s.conns && (w.Wrote? ==> w.n <= |data|) && Apply(s, at, Send(s.conns[at], data, w)).Next?
    requires Task(id, WriteComplete) in NewTasks(s, Apply(s, at, Send(s.conns[at], data, w)).s)
    ensures var t := Apply(s, at, Send(s.conns[at], data, w)).s; id in t.conns && Flushed(t.conns[id])
  {
    hide SysInv, Apply, Flushed, Send, ConnInv, NewTasks;
    ConnFacts(s, at);
    SendCompletes(s.conns[at], data, w);
    var e := Send(s.conns[at], data, w);
    Unaborted(s, at, e);
    ApplyFlushed(s, at, e, Apply(s, at, e).s, id);
  }

  lemma Unaborted(s: Sys, at: ConnId, e: Effect)
    requires Apply(s, at, e).Next?
    ensures !e.aborted
  {
    hide PushAll;
  }

  lemma ApplyQuiet(s: Sys, at: ConnId, e: Effect, id: ConnId)
    requires Apply(s, at, e).Next? && WriteComplete !in e.queued
    ensures Task(id, WriteComplete) !in NewTasks(s, Apply(s, at, e).s)
  {
    hide PushAll;
    var ts := Tasks(at, e.queued);
    assert NewTasks(s, Apply(s, at, e).s) == ts;
    forall i | 0 <= i < |ts| ensures ts[i] != Task(id, WriteComplete) { assert e.queued[i] in e.queued; }
  }

  lemma HandleFlushed(s: Sys, r: ReadResult, w: WriteResult, id: ConnId)
    requires SysInv(s) && s.turn.Turn? && (s.turn.part.WritePart? && w.Wrote? && s.turn.id in s.conns ==> w.n <= |s.conns[s.turn.id].out|)
    requires HandleStep(s, r, w).Next? && Task(id, WriteComplete) in NewTasks(s, HandleStep(s, r, w).s)
    ensures var t := HandleStep(s, r, w).s; id in t.conns && Flushed(t.conns[id])
  {
    var at := s.turn.id;
    ConnFacts(s, at);
    hide SysInv, Apply, Flushed, RunPart, ConnInv;
    PartFlushed(s.conns[at], s.turn.revents, s.turn.part, r, w);
    ApplyFlushed(s.(turn := NextPart(s.turn)), at, RunPart(s.conns[at], s.turn.revents, s.turn.part, r, w), HandleStep(s, r, w).s, id);
  }

  lemma AcceptQuiet(s: Sys, fd: nat, mark: nat, wantsHigh: bool, wantsComplete: bool, id: ConnId)
    requires NewConnection(s, fd, mark, wantsHigh, wantsComplete).Next?
    ensures Task(id, WriteComplete) !in NewTasks(s, NewConnection(s, fd, mark, wantsHigh, wantsComplete).s)
  {
    hide Apply, ConnectEstablished;
    var c := Fresh(mark, wantsHigh, wantsComplete);
    QuietHandlers(c, 0);
    var s1 := s.(nextId := s.nextId + 1, server := s.server + {s.nextId}, poller := AddChan(s.poller, s.nextId, fd));
    ApplyQuiet(s1, s.nextId, ConnectEstablished(c), id);
  }

  lemma RunTaskQuiet(s: Sys, id: ConnId)
    requires s.batch != [] && RunTaskStep(s).Next?
    ensures Task(id, WriteComplete) !in NewTasks(s, RunTaskStep(s).s)
  {
    hide Apply, ForceCloseInLoop, ConnectDestroyed, RemoveChannel;
    var at, s1 := s.batch[0].id, s.(batch := s.batch[1..]);
    QuietHandlers(s.conns[at], 0);
    if s.batch[0].kind.ForceClose? {
      ApplyQuiet(s1, at, ForceCloseInLoop(s.conns[at]), id);
    } else if s.batch[0].kind.Destroy? {
      ApplyQuiet(s1, at, ConnectDestroyed(s.conns[at]), id);
    }
  }

  // ----- after closing -----

  /** Only the user still taking input away changes anything. */
  ghost predicate Frozen(c: Conn, d: Conn) {
    d == c.(inp := d.inp, consumed := d.consumed)
  }

  lemma HandlersFrozen(c: Conn, data: Bytes, w: WriteResult, n: nat)
    requires c.state.Disconnected? && (w.Wrote? ==> w.n <= |data|)
    ensures Frozen(c, Send(c, data, w).conn) && Frozen(c, Shutdown(c).conn) && Frozen(c, ForceClosing(c).conn)
    ensures Frozen(c, ForceCloseInLoop(c).conn) && Frozen(c, ConnectDestroyed(c).conn) && Frozen(c, TakeInput(c, n).conn)
  {
    hide SendInLoop, ShutdownInLoop, HandleClose, SetMask;
  }

  lemma PartFrozen(c: Conn, revents: Mask, part: Part, r: ReadResult, w: WriteResult)
    requires c.state.Disconnected? && ConnInv(c) && TurnOk(c, revents, part) && (part.WritePart? && w.Wrote? ==> w.n <= |c.out|)
    ensures Frozen(c, RunPart(c, revents, part, r, w).conn)
  {
    WritingNeedsBytes(c);
    hide ConnInv, HandleClose, HandleRead;
  }

  lemma ApplyFrozen(s: Sys, o: Sys, e: Effect, at: ConnId, id: ConnId)
    requires at in s.conns && Apply(s, at, e) == Next(o) && id in s.conns && (at == id ==> Frozen(s.conns[id], e.conn))
    ensures id in o.conns && Frozen(s.conns[id], o.conns[id])
  {
    hide PushAll;
  }

  lemma StepFrozen(s: Sys, ev: Event, id: ConnId)
    requires SysInv(s) && Enabled(s, ev) && Step(s, ev).Next? && id in s.conns && s.conns[id].state.Disconnected?
    requires id in Step(s, ev).s.conns
    ensures Frozen(s.conns[id], Step(s, ev).s.conns[id])
  {
    NextIdIsNew(s);
    hide SysInv, Apply, Reports, Unreferenced, FdFree, Frozen, Send, Shutdown, ForceClosing, TakeInput, HandleStep, NewConnection, RunTaskStep, Owed;
    FrozenSame(s.conns[id]);
    var t := Step(s, ev).s;
    match ev
    case Handle(r, w) => HandleFrozen(s, r, w, id);
    case Accept(fd, mark, wantsHigh, wantsComplete) => AcceptGrows(s, fd, mark, wantsHigh, wantsComplete, id);
    case UserSend(at, data, w) =>
      if at == id { HandlersFrozen(s.conns[at], data, w, 0); }
      ApplyFrozen(s, t, Send(s.conns[at], data, w), at, id);
    case UserShutdown(at) =>
      if at == id { HandlersFrozen(s.conns[at], [], Wrote(0), 0); }
      ApplyFrozen(s, t, Shutdown(s.conns[at]), at, id);
    case UserForceClose(at) =>
      if at == id { HandlersFrozen(s.conns[at], [], Wrote(0), 0); }
      ApplyFrozen(s, t, ForceClosing(s.conns[at]), at, id);
    case UserRetrieve(at, n) =>
      if at == id { HandlersFrozen(s.conns[at], [], Wrote(0), n); }
      ApplyFrozen(s, t, TakeInput(s.conns[at], n), at, id);
    case RunTask => RunTaskFrozen(s, id);
    case _ => KeepsOthers(s, ev, id);
  }

  lemma FrozenSame(c: Conn)
    ensures Frozen(c, c)
  {
  }

  lemma FrozenTrans(c: Conn, d: Conn, e: Conn)
    requires Frozen(c, d) && Frozen(d, e)
    ensures Frozen(c, e) && d.state == c.state
  {
  }

  lemma HandleFrozen(s: Sys, r: ReadResult, w: WriteResult, id: ConnId)
    requires SysInv(s) && s.turn.Turn? && (s.turn.part.WritePart? && w.Wrote? && s.turn.id in s.conns ==> w.n <= |s.conns[s.turn.id].out|)
    requires HandleStep(s, r, w).Next? && id in s.conns && s.conns[id].state.Disconnected?
    ensures var t := HandleStep(s, r, w).s; id in t.conns && Frozen(s.conns[id], t.conns[id])
  {
    var at := s.turn.id;
    TurnFacts(s);
    hide SysInv, Apply, Frozen, RunPart, ConnInv, TurnOk;
    if at == id { PartFrozen(s.conns[at], s.turn.revents, s.turn.part, r, w); }
    ApplyFrozen(s.(turn := NextPart(s.turn)), HandleStep(s, r, w).s, RunPart(s.conns[at], s.turn.revents, s.turn.part, r, w), at, id);
  }

  lemma RunTaskFrozen(s: Sys, id: ConnId)
    requires s.batch != [] && RunTaskStep(s).Next? && id in s.conns && s.conns[id].state.Disconnected?
    ensures var t := RunTaskStep(s).s; id in t.conns && Frozen(s.conns[id], t.conns[id])
  {
    hide Apply, Frozen, ForceCloseInLoop, ConnectDestroyed, RemoveChannel;
    FrozenSame(s.conns[id]);
    var at, s1 := s.batch[0].id, s.(batch := s.batch[1..]);
    if at == id { HandlersFrozen(s.conns[at], [], Wrote(0), 0); }
    if s.batch[0].kind.ForceClose? {
      ApplyFrozen(s1, RunTaskStep(s).s, ForceCloseInLoop(s.conns[at]), at, id);
    } else if s.batch[0].kind.Destroy? {
      ApplyFrozen(s1, Apply(s1, at, ConnectDestroyed(s.conns[at])).s, ConnectDestroyed(s.conns[at]), at, id);
    }
  }

  /**
   Once closed, a connection stays as it is through every run: mask empty, no
   system call, nothing accepted, no second close, whatever handlers, functors
   and users do; only waiting input may still be taken.
   */
  lemma {:induction false} ClosedStaysClosed(s: Sys, run: seq<Event>, id: ConnId)
    requires SysInv(s) && Legal(s, run) && Exec(s, run).Next? && id in s.conns && id in Exec(s, run).s.conns
    requires s.conns[id].state.Disconnected?
    ensures Frozen(s.conns[id], Exec(s, run).s.conns[id])
    decreases |run|
  {
    hide SysInv, Step, Frozen, Enabled;
    FrozenSame(s.conns[id]);
    if run != [] {
      var t := Step(s, run[0]).s;
      StepInv(s, run[0]);
      if id in t.conns {
        StepFrozen(s, run[0], id);
        FrozenState(s.conns[id], t.conns[id]);
        ClosedStaysClosed(t, run[1..], id);
        FrozenTrans(s.conns[id], t.conns[id], Exec(t, run[1..]).s.conns[id]);
      } else {
        IdBound(s, id);
        StepIds(s, run[0]);
        NeverBack(t, run[1..], id);
      }
    }
  }

  lemma FrozenState(c: Conn, d: Conn)
    requires Frozen(c, d)
    ensures d.state == c.state
  {
  }

  // ----- the server map -----

  /** connections_ is exactly the connections created minus those removed. */
  lemma ServerMap(s: Sys, id: ConnId)
    requires Reachable(s)
    ensures id in s.server <==> 1 <= id < s.nextId && id !in s.removed
    ensures id in s.server ==> id in s.conns && (Open(s.conns[id]) || s.closing == Closing(id))
  {
    ReachableInv(s);
    if id in s.conns { ConnFacts(s, id); }
  }

  /** Each removed connection is destroyed once: either it has been, or exactly one functor for it is queued. */
  lemma DestroyedOnce(s: Sys, id: ConnId)
    requires Reachable(s)
    ensures NoRepeats(s.removed) && NoRepeats(s.destroyed)
    ensures id in s.removed <==> id in s.destroyed || Owed(s, id) == 1
    ensures id in s.destroyed ==> Owed(s, id) == 0
    ensures Owed(s, id) <= 1
  {
    ReachableInv(s);
    if id in s.conns {
      ConnFacts(s, id);
      DestroyedIsRemoved(s, id);
    } else {
      OwedNeedsConn(s, id);
    }
  }

  lemma DestroyedIsRemoved(s: Sys, id: ConnId)
    requires SysInv(s)
    ensures id in s.destroyed ==> id in s.removed
  {
  }

  lemma OwedNeedsConn(s: Sys, id: ConnId)
    requires SysInv(s) && id !in s.conns
    ensures Owed(s, id) == 0 && (id in s.removed <==> id in s.destroyed)
  {
    assert Task(id, Destroy) !in s.batch && Task(id, Destroy) !in s.pending;
  }

  /** connectDestroyed runs only from doPendingFunctors. */
  lemma DestroyedInFunctorPhase(s: Sys, ev: Event)
    requires Enabled(s, ev) && Step(s, ev).Next? && Step(s, ev).s.destroyed != s.destroyed
    ensures ev.RunTask? && s.phase.Functors? && s.batch[0].kind.Destroy?
    ensures Step(s, ev).s.destroyed == s.destroyed + [s.batch[0].id]
  {
    hide PushAll, Reports, Unreferenced, FdFree, Send, RunPart, TakeInput, Shutdown, ForceClosing, ForceCloseInLoop, RemoveChannel, ConnectEstablished;
  }

  /** Every channel still waiting in activeChannels_ is registered with the kernel when its turn comes. */
  lemma ActiveStaysRegistered(s: Sys, a: Ready)
    requires Reachable(s) && a in s.active
    ensures a.id in s.conns && Open(s.conns[a.id]) && a.id in s.poller.chans
    ensures var c := s.poller.chans[a.id];
            && c.fd in s.poller.kernel && s.poller.kernel[c.fd] == Interest(s.conns[a.id].events, a.id)
            && c.fd in s.poller.channels && s.poller.channels[c.fd] == a.id
  {
    ReachableInv(s);
    ConnFacts(s, a.id);
    assert Tracks(s.poller, a.id);
  }

  /** After connectDestroyed neither channels_ nor the kernel knows the connection. */
  lemma DestroyedIsForgotten(s: Sys, id: ConnId, fd: nat)
    requires Reachable(s) && id in s.destroyed
    ensures fd in s.poller.kernel ==> s.poller.kernel[fd].ptr != id
    ensures fd in s.poller.channels ==> s.poller.channels[fd] != id
    ensures id in s.conns ==> id in s.poller.chans && s.poller.chans[id].fd !in s.poller.kernel && s.poller.chans[id].fd !in s.poller.channels
  {
    ReachableInv(s);
    SysParts(s);
    if id in s.conns {
      ConnFacts(s, id);
      assert Tracks(s.poller, id);
    }
  }

  /** The kernel watches exactly the open connections, for reading, and for writing while bytes wait. */
  lemma KernelWatchesOpen(s: Sys, id: ConnId)
    requires Reachable(s) && id in s.conns
    ensures id in s.poller.chans
    ensures var fd := s.poller.chans[id].fd;
            && (fd in s.poller.kernel <==> Open(s.conns[id]))
            && (Open(s.conns[id]) ==> s.poller.kernel[fd] == Interest(OpenMask(true, s.conns[id].out != []), id))
  {
    ReachableInv(s);
    ConnFacts(s, id);
    assert Tracks(s.poller, id);
  }

  // ----- one functor phase -----

  /** Connections whose connectDestroyed is in the batch or done. */
  ghost predicate Promised(s: Sys, ids: seq<ConnId>) {
    forall id :: id in ids ==> id in s.destroyed || Task(id, Destroy) in s.batch
  }

  lemma PromisedStep(s: Sys, ev: Event, ids: seq<ConnId>)
    requires SysInv(s) && s.phase.Functors? && Promised(s, ids) && Enabled(s, ev) && Step(s, ev).Next?
    ensures Promised(Step(s, ev).s, ids)
    ensures if ev.EndFunctors? then s.batch == [] else Step(s, ev).s.phase.Functors?
  {
    hide SysInv, PushAll, Reports, Unreferenced, FdFree, Send, RunPart, TakeInput, Shutdown, ForceClosing, ForceCloseInLoop, RemoveChannel, ConnectEstablished;
    if ev.RunTask? {
      assert s.batch == [s.batch[0]] + s.batch[1..];
      if s.batch[0].kind.Destroy? {
        OwedIsDoomed(s, s.batch[0].id);
        DestroyIsRemove(s.(batch := s.batch[1..]), s.batch[0].id);
      }
    }
  }

  /** The rest of a functor phase: ends with the first EndFunctors. */
  ghost predicate ToPhaseEnd(run: seq<Event>) {
    run != [] && if |run| == 1 then run[0].EndFunctors? else !run[0].EndFunctors? && ToPhaseEnd(run[1..])
  }

  lemma {:induction false} PhaseDestroys(s: Sys, run: seq<Event>, ids: seq<ConnId>)
    requires SysInv(s) && s.phase.Functors? && Promised(s, ids) && Legal(s, run) && Exec(s, run).Next? && ToPhaseEnd(run)
    ensures forall id :: id in ids ==> id in Exec(s, run).s.destroyed
    decreases |run|
  {
    hide Step, Enabled, SysInv;
    StepInv(s, run[0]);
    PromisedStep(s, run[0], ids);
    var t := Step(s, run[0]).s;
    if |run| > 1 { PhaseDestroys(t, run[1..], ids); } else { EndFunctorsStep(s); assert Exec(t, run[1..]) == Next(t); }
  }

  lemma EndFunctorsStep(s: Sys)
    requires Enabled(s, EndFunctors)
    ensures s.batch == [] && Step(s, EndFunctors) == Next(s.(phase := Polling))
  {
  }

  /** Every connection removed before the swap has been destroyed when that functor phase ends. */
  lemma RemovedAreDestroyed(s: Sys, run: seq<Event>)
    requires Reachable(s) && Enabled(s, EndDispatch)
    requires var t := Step(s, EndDispatch).s; Legal(t, run) && Exec(t, run).Next? && ToPhaseEnd(run)
    ensures forall id :: id in s.removed ==> id in Exec(Step(s, EndDispatch).s, run).s.destroyed
  {
    var t := Step(s, EndDispatch).s;
    ReachableInv(s);
    StepInv(s, EndDispatch);
    SwapPromises(s);
    hide SysInv, Reachable, Step, Legal, Exec;
    PhaseDestroys(t, run, s.removed);
  }

  /** A connection is closed before connectDestroyed runs, so the branch for a connected one is never taken. */
  lemma DestroyFindsClosed(s: Sys, id: ConnId)
    requires Reachable(s) && (Task(id, Destroy) in s.batch || Task(id, Destroy) in s.pending)
    ensures id in s.conns && s.conns[id].state.Disconnected? && ConnectDestroyed(s.conns[id]) == Plain(s.conns[id])
  {
    ReachableInv(s);
    hide Reachable;
    OwedIsClosed(s, id);
  }

  lemma OwedIsClosed(s: Sys, id: ConnId)
    requires SysInv(s) && (Task(id, Destroy) in s.batch || Task(id, Destroy) in s.pending)
    ensures id in s.conns && s.conns[id].state.Disconnected?
  {
    assert id in s.conns && id in s.poller.chans by { hide Dispatch, Lives, Consistent, ConnInv; }
    assert Life(s, id) by { hide Matched, Ledger, Dispatch; }
    hide SysInv;
    assert Owed(s, id) > 0;
  }

  lemma SwapPromises(s: Sys)
    requires Reachable(s) && Enabled(s, EndDispatch)
    ensures Step(s, EndDispatch).s.phase.Functors? && Promised(Step(s, EndDispatch).s, s.removed)
  {
    forall id | id in s.removed ensures id in s.destroyed || Task(id, Destroy) in s.pending {
      ReachableInv(s);
      DestroyedOnce(s, id);
      assert s.batch == [] by { EmptyBatch(s); }
    }
  }

  lemma EmptyBatch(s: Sys)
    requires SysInv(s) && !s.phase.Functors?
    ensures s.batch == []
  {
  }
}
