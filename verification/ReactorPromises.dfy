/** What a call on a connection leads to, however the run goes on. */
module ReactorPromises {
  import opened Kernel
  import opened PollerSpec
  import opened ConnectionSpec
  import opened ChannelSpec
  import opened ConnectionCalls
  import opened ReactorSpec
  import opened ReactorInvariant
  import opened ReactorSteps
  import opened ReactorRuns
  import opened ReactorAccounts
  import ReactorLoop
  import ReactorFunctors

  // ----- shutdown() -----

  /** Nobody may send any more, and FIN is out if nothing waits. */
  predicate Asked(a: Account) {
    a.state != Connecting && a.state != Connected && (Waiting(a) == 0 ==> a.fin)
  }

  lemma BookedAsked(s: Sys, ev: Event, id: ConnId, a: Account)
    requires Asked(a) && id < s.nextId
    ensures Asked(Booked(s, ev, id, a)) && Booked(s, ev, id, a).sent == a.sent
  {
  }

  lemma {:induction false} RunAsked(s: Sys, run: seq<Event>, id: ConnId, a: Account)
    requires SysInv(s) && Legal(s, run) && Exec(s, run).Next? && Asked(a) && id < s.nextId
    ensures Asked(AccountOf(s, run, id, a)) && AccountOf(s, run, id, a).sent == a.sent
    decreases |run|
  {
    hide SysInv, Step, Enabled, Asked, Booked;
    if run != [] {
      StepInv(s, run[0]);
      StepIds(s, run[0]);
      BookedAsked(s, run[0], id, a);
      RunAsked(Step(s, run[0]).s, run[1..], id, Booked(s, run[0], id, a));
    }
  }

  lemma AccountExists(s: Sys, id: ConnId) returns (a: Account)
    requires Reachable(s)
    ensures Holds(s, id, a)
  {
    var run :| Legal(BOOT, run) && Exec(BOOT, run) == Next(s);
    BootInv();
    RunHolds(BOOT, run, id, UNBORN);
    a := AccountOf(BOOT, run, id, UNBORN);
  }

  /**
   shutdown() on a connected connection: from then on nothing more is accepted,
   and in every continuation FIN is out exactly when nothing waits any more.
   */
  lemma ShutdownSendsFin(s: Sys, id: ConnId, run: seq<Event>)
    requires Reachable(s) && Enabled(s, UserShutdown(id)) && s.conns[id].state == Connected
    requires Step(s, UserShutdown(id)).Next? ==> Legal(Step(s, UserShutdown(id)).s, run)
    ensures Step(s, UserShutdown(id)).Next?
    ensures var o := Exec(Step(s, UserShutdown(id)).s, run);
            o.Next? && id in o.s.conns ==>
              var c := o.s.conns[id];
              && c.accepted == s.conns[id].accepted && c.state != Connected
              && (c.out == [] <==> SentFin(c))
  {
    hide *;
    ReachableInv(s);
    var a := AccountExists(s, id);
    var ev := UserShutdown(id);
    ShutdownSteps(s, id);
    StepInv(s, ev);
    SurvivesAs(Step(s, ev));
    StepHolds(s, ev, id, a);
    StepIds(s, ev);
    ShutsNow(s, id, a);
    var t, b := Step(s, ev).s, Booked(s, ev, id, a);
    if Exec(t, run).Next? && id in Exec(t, run).s.conns {
      RunHolds(t, run, id, b);
      RunAsked(t, run, id, b);
      ExecInv(t, run);
      SurvivesAs(Exec(t, run));
      ConnFacts(Exec(t, run).s, id);
      AskedMeans(s.conns[id], a, Exec(t, run).s, id, AccountOf(t, run, id, b));
    }
  }

  lemma SurvivesAs(o: Outcome)
    requires Survives(o)
    ensures o.Next? ==> SysInv(o.s)
    ensures o.Died? ==> o.why == SocketError
  {
    hide SysInv;
  }

  lemma ShutdownSteps(s: Sys, id: ConnId)
    requires Enabled(s, UserShutdown(id))
    ensures id in s.conns && Step(s, UserShutdown(id)) != Died(SocketError)
  {
    hide PushAll;
  }

  lemma ShutsNow(s: Sys, id: ConnId, a: Account)
    requires SysInv(s) && id in s.conns && s.conns[id].state == Connected && Holds(s, id, a)
    ensures id < s.nextId && Matches(s.conns[id], a)
    ensures Asked(Booked(s, UserShutdown(id), id, a)) && Booked(s, UserShutdown(id), id, a).sent == a.sent
  {
    hide *;
    IdBound(s, id);
    HoldsMatches(s, id, a);
    ReactorFunctors.LengthIsWaiting(s.conns[id], a);
    ShutsAsks(s, id, a);
  }

  lemma ShutsAsks(s: Sys, id: ConnId, a: Account)
    requires a.state == Connected
    ensures Asked(Booked(s, UserShutdown(id), id, a)) && Booked(s, UserShutdown(id), id, a).sent == a.sent
  {
  }

  lemma AskedMeans(c: Conn, a: Account, t: Sys, id: ConnId, b: Account)
    requires Matches(c, a) && id in t.conns && Holds(t, id, b) && Asked(b) && b.sent == a.sent && ConnInv(t.conns[id])
    ensures var d := t.conns[id]; d.accepted == c.accepted && d.state != Connected && (d.out == [] <==> SentFin(d))
  {
    NoFinYet(t.conns[id]);
    hide ConnInv, InputMatches, SentFin;
  }

  // ----- forceClose() -----

  /** forceClose() on an open connection queues its functor. */
  lemma ForceCloseIsQueued(s: Sys, id: ConnId)
    requires SysInv(s) && Enabled(s, UserForceClose(id)) && (s.conns[id].state == Connected || s.conns[id].state == Disconnecting)
    ensures Step(s, UserForceClose(id)).Next?
    ensures var t := Step(s, UserForceClose(id)).s;
            id in t.conns && t.conns[id].state == Disconnecting && Task(id, ForceClose) in t.pending
  {
    hide *;
    ForceCloseSteps(s, id);
    ForceCloseOutcome(s.conns[id]);
    ForceCloseApplied(s, id, ForceClosing(s.conns[id]));
  }

  lemma ForceCloseSteps(s: Sys, id: ConnId)
    requires Enabled(s, UserForceClose(id))
    ensures id in s.conns && Step(s, UserForceClose(id)) == Apply(s, id, ForceClosing(s.conns[id]))
  {
    hide Apply, ForceClosing;
  }

  lemma ForceCloseApplied(s: Sys, id: ConnId, e: Effect)
    requires id in s.conns && ForceCloseDone(s.conns[id], e)
    ensures Apply(s, id, e).Next?
    ensures var t := Apply(s, id, e).s; id in t.conns && t.conns[id].state == Disconnecting && Task(id, ForceClose) in t.pending
  {
    assert Tasks(id, [ForceClose])[0] == Task(id, ForceClose);
    assert PushAll(s.poller, id, []) == Ok(s.poller);
  }

  /** Closed, or about to be by this batch. */
  ghost predicate Forced(s: Sys, id: ConnId) {
    id < s.nextId && (id in s.conns ==> s.conns[id].state == Disconnected || Task(id, ForceClose) in s.batch)
  }

  lemma ForcedTask(s: Sys, id: ConnId)
    requires SysInv(s) && Enabled(s, RunTask) && Step(s, RunTask).Next? && Forced(s, id)
    ensures Forced(Step(s, RunTask).s, id)
  {
    hide *;
    TaskReady(s);
    TaskOwner(s);
    var at := s.batch[0].id;
    ConnFacts(s, at);
    if s.batch[0].kind.Destroy? { OwedIsClosed(s, at); DestroyedIsPlain(s.conns[at]); }
    TaskConns(s);
    ReactorFunctors.TaskIds(s);
    ReactorLoop.StepQueue(s, RunTask);
    EitherWay(s, at);
    ForceCloseOutcome(s.conns[at]);
    TaskForced(s, Step(s, RunTask).s, id);
  }

  lemma EitherWay(s: Sys, id: ConnId)
    requires SysInv(s) && id in s.conns
    ensures s.conns[id].state == Connected || s.conns[id].state == Disconnecting || s.conns[id].state == Disconnected
  {
    assert Life(s, id);
  }

  lemma TaskForced(s: Sys, t: Sys, id: ConnId)
    requires s.batch != [] && s.batch[0].id in s.conns && Forced(s, id) && t.nextId == s.nextId && ReactorLoop.QueueMoves(s, RunTask, t)
    requires var c := s.conns[s.batch[0].id];
             && (c.state == Connected || c.state == Disconnecting || c.state == Disconnected)
             && (if c.state == Connected || c.state == Disconnecting then CloseDone(c, ForceCloseInLoop(c)) else ForceCloseInLoop(c) == Plain(c))
             && t.conns == if s.batch[0].kind.ForceClose? then s.conns[s.batch[0].id := ForceCloseInLoop(c).conn] else s.conns
    ensures Forced(t, id)
  {
    assert s.batch == [s.batch[0]] + s.batch[1..];
    hide ForceCloseInLoop, NewTasks;
  }

  lemma ForcedStep(s: Sys, ev: Event, id: ConnId)
    requires SysInv(s) && s.phase.Functors? && Enabled(s, ev) && Step(s, ev).Next? && Forced(s, id)
    ensures Forced(Step(s, ev).s, id)
    ensures if ev.EndFunctors? then s.batch == [] else Step(s, ev).s.phase.Functors?
  {
    hide *;
    ReactorLoop.StepQueue(s, ev);
    ReactorLoop.PhaseOf(s, ev);
    StepIds(s, ev);
    if ev.RunTask? { ForcedTask(s, id); }
    if id in s.conns && id in Step(s, ev).s.conns { StepGrows(s, ev, id); }
    QueueForced(s, ev, Step(s, ev).s, id);
  }

  lemma QueueForced(s: Sys, ev: Event, t: Sys, id: ConnId)
    requires ReactorLoop.QueueMoves(s, ev, t) && s.phase.Functors? && Forced(s, id) && s.nextId <= t.nextId
    requires ev.EndDispatch? ==> s.phase.Dispatching?
    requires ev.PollReturns? ==> s.phase.Polling?
    requires ev.EndFunctors? ==> s.batch == []
    requires forall i :: i in t.conns && i !in s.conns ==> i >= s.nextId
    requires id in s.conns && id in t.conns ==> Grows(s.conns[id], t.conns[id])
    requires ev.RunTask? ==> Forced(t, id)
    ensures Forced(t, id)
    ensures if ev.EndFunctors? then s.batch == [] else t.phase.Functors?
  {
    hide NewTasks;
  }

  lemma {:induction false} PhaseCloses(s: Sys, run: seq<Event>, id: ConnId)
    requires SysInv(s) && s.phase.Functors? && Forced(s, id) && Legal(s, run) && Exec(s, run).Next? && ToPhaseEnd(run)
    ensures id in Exec(s, run).s.conns ==> Exec(s, run).s.conns[id].state == Disconnected
    decreases |run|
  {
    hide Step, Enabled, SysInv;
    StepInv(s, run[0]);
    ForcedStep(s, run[0], id);
    var t := Step(s, run[0]).s;
    if |run| > 1 {
      PhaseCloses(t, run[1..], id);
    } else {
      EndFunctorsStep(s);
      assert Exec(t, run[1..]) == Next(t);
    }
  }

  /** Every connection with a forced close queued before the swap is closed when that functor phase ends. */
  lemma ForcedAreClosed(s: Sys, run: seq<Event>, id: ConnId)
    requires Reachable(s) && Enabled(s, EndDispatch) && Task(id, ForceClose) in s.pending
    requires var t := Step(s, EndDispatch).s; Legal(t, run) && Exec(t, run).Next? && ToPhaseEnd(run)
    ensures var u := Exec(Step(s, EndDispatch).s, run).s; id in u.conns ==> u.conns[id].state == Disconnected
  {
    hide *;
    ReachableInv(s);
    StepInv(s, EndDispatch);
    SwapIs(s);
    SurvivesAs(Step(s, EndDispatch));
    SwapForces(s, id);
    PhaseCloses(Step(s, EndDispatch).s, run, id);
  }

  lemma SwapIs(s: Sys)
    requires Enabled(s, EndDispatch)
    ensures Step(s, EndDispatch) == Next(s.(phase := Functors, batch := s.pending, pending := []))
  {
  }

  lemma SwapForces(s: Sys, id: ConnId)
    requires SysInv(s) && Task(id, ForceClose) in s.pending
    ensures Forced(s.(phase := Functors, batch := s.pending, pending := []), id)
  {
    hide Dispatch, Lives, Consistent, ConnInv;
  }

  // ----- one event of a channel -----

  const TESTS: seq<Part> := [ClosePart, ErrorPart, ReadPart, WritePart]

  /** Where a turn is after `k` of its tests. */
  function After(id: ConnId, revents: Mask, k: nat): ReactorSpec.Turn {
    if k < 4 then Turn(id, revents, TESTS[k]) else NoTurn
  }

  ghost predicate TurnMoved(s: Sys, ev: Event, t: Sys) {
    match ev
    case PollReturns(events) =>
      && t.turn == NoTurn && |t.active| == |events|
      && forall i :: 0 <= i < |events| ==> events[i].0 in s.poller.kernel && t.active[i] == Ready(s.poller.kernel[events[i].0].ptr, events[i].1)
    case NextChannel =>
      s.active != [] && t.turn == After(s.active[0].id, s.active[0].revents, 0) && t.active == s.active[1..]
    case Handle(_, _) =>
      && s.turn.Turn? && t.active == s.active
      && forall k :: 0 <= k < 4 && s.turn.part == TESTS[k] ==> t.turn == After(s.turn.id, s.turn.revents, k + 1)
    case _ => t.turn == s.turn && t.active == s.active
  }

  /** What moves the loop from channel to channel and from test to test: the poll, the next channel, one test, and nothing else. */
  lemma TurnMoves(s: Sys, ev: Event)
    requires SysInv(s) && Enabled(s, ev) && Step(s, ev).Next?
    ensures TurnMoved(s, ev, Step(s, ev).s)
  {
    hide SysInv, TurnMoved, HandleStep, RunTaskStep, NewConnection, Apply, Reports, Unreferenced, FdFree, PollStep, NextChannelStep, ReleaseStep, RemoveConnection;
    match ev
    case Handle(r, w) => HandleTurn(s, r, w);
    case Accept(fd, mark, wantsHigh, wantsComplete) => AcceptTurn(s, ev);
    case UserSend(at, data, w) => ApplyTurn(s, ev, at, Send(s.conns[at], data, w)); hide Send;
    case UserShutdown(at) => ApplyTurn(s, ev, at, Shutdown(s.conns[at])); hide Shutdown;
    case UserForceClose(at) => ApplyTurn(s, ev, at, ForceClosing(s.conns[at])); hide ForceClosing;
    case UserRetrieve(at, n) => ApplyTurn(s, ev, at, TakeInput(s.conns[at], n)); hide TakeInput;
    case RunTask => TaskTurn(s);
    case PollReturns(events) => PollTurn(s, events);
    case NextChannel => NextTurn(s);
    case _ => SameTurn(s, ev);
  }

  lemma ApplyTurn(s: Sys, ev: Event, at: ConnId, e: Effect)
    requires ev.UserSend? || ev.UserShutdown? || ev.UserForceClose? || ev.UserRetrieve?
    ensures Apply(s, at, e).Next? ==> TurnMoved(s, ev, Apply(s, at, e).s)
  {
    hide PushAll;
  }

  lemma ApplyKeepsTurn(s: Sys, at: ConnId, e: Effect)
    ensures Apply(s, at, e).Next? ==> Apply(s, at, e).s.turn == s.turn && Apply(s, at, e).s.active == s.active
  {
    hide PushAll;
  }

  lemma HandleTurn(s: Sys, r: ReadResult, w: WriteResult)
    requires SysInv(s) && Enabled(s, Handle(r, w)) && Step(s, Handle(r, w)).Next?
    ensures TurnMoved(s, Handle(r, w), Step(s, Handle(r, w)).s)
  {
    hide *;
    HandleIs(s, r, w);
    TurnFacts(s);
    ApplyKeepsTurn(s.(turn := NextPart(s.turn)), s.turn.id, RunPart(s.conns[s.turn.id], s.turn.revents, s.turn.part, r, w));
    NextIsAfter(s, Handle(r, w), Step(s, Handle(r, w)).s);
  }

  lemma HandleIs(s: Sys, r: ReadResult, w: WriteResult)
    requires Enabled(s, Handle(r, w))
    ensures s.turn.Turn?
    ensures s.turn.id in s.conns ==>
              && (s.turn.part.WritePart? && w.Wrote? ==> w.n <= |s.conns[s.turn.id].out|)
              && Step(s, Handle(r, w))
                 == Apply(s.(turn := NextPart(s.turn)), s.turn.id, RunPart(s.conns[s.turn.id], s.turn.revents, s.turn.part, r, w))
  {
    hide Apply, RunPart, NextPart;
  }

  lemma NextIsAfter(s: Sys, ev: Event, t: Sys)
    requires ev.Handle? && s.turn.Turn? && t.turn == NextPart(s.turn) && t.active == s.active
    ensures TurnMoved(s, ev, t)
  {
  }

  lemma AcceptTurn(s: Sys, ev: Event)
    requires SysInv(s) && Enabled(s, ev) && ev.Accept?
    ensures Step(s, ev).Next? && TurnMoved(s, ev, Step(s, ev).s)
  {
    AcceptOutcome(s, ev.fd, ev.mark, ev.wantsHigh, ev.wantsComplete);
    hide SysInv, Enabled, Step;
  }

  lemma TaskTurn(s: Sys)
    requires SysInv(s) && Enabled(s, RunTask) && Step(s, RunTask).Next?
    ensures TurnMoved(s, RunTask, Step(s, RunTask).s)
  {
    hide *;
    TaskReady(s);
    TaskOwner(s);
    var at, s1 := s.batch[0].id, s.(batch := s.batch[1..]);
    ApplyKeepsTurn(s1, at, ForceCloseInLoop(s.conns[at]));
    ApplyKeepsTurn(s1, at, ConnectDestroyed(s.conns[at]));
    TaskIs(s);
  }

  lemma TaskIs(s: Sys)
    requires Enabled(s, RunTask) && s.batch != [] && s.batch[0].id in s.conns && Step(s, RunTask).Next?
    requires var at, s1 := s.batch[0].id, s.(batch := s.batch[1..]);
             && (Apply(s1, at, ForceCloseInLoop(s.conns[at])).Next? ==>
                   var t := Apply(s1, at, ForceCloseInLoop(s.conns[at])).s; t.turn == s.turn && t.active == s.active)
             && (Apply(s1, at, ConnectDestroyed(s.conns[at])).Next? ==>
                   var t := Apply(s1, at, ConnectDestroyed(s.conns[at])).s; t.turn == s.turn && t.active == s.active)
    ensures TurnMoved(s, RunTask, Step(s, RunTask).s)
  {
    hide Apply, ForceCloseInLoop, ConnectDestroyed, RemoveChannel;
  }

  lemma PollTurn(s: Sys, events: seq<(nat, Mask)>)
    requires SysInv(s) && Enabled(s, PollReturns(events))
    ensures TurnMoved(s, PollReturns(events), Step(s, PollReturns(events)).s)
  {
    NoTurnWhilePolling(s);
    hide SysInv;
    forall i | 0 <= i < |events| ensures events[i].0 in s.poller.kernel { assert events[i] in events; }
  }

  lemma NoTurnWhilePolling(s: Sys)
    requires SysInv(s)
    ensures s.phase.Polling? ==> s.turn == NoTurn
  {
    hide Matched, Ledger, Lives;
  }

  lemma NextTurn(s: Sys)
    requires Enabled(s, NextChannel) && Step(s, NextChannel).Next?
    ensures TurnMoved(s, NextChannel, Step(s, NextChannel).s)
  {
  }

  lemma SameTurn(s: Sys, ev: Event)
    requires Enabled(s, ev) && Step(s, ev).Next? && (ev.CloseCallback? || ev.EndDispatch? || ev.EndFunctors? || ev.Release?)
    ensures TurnMoved(s, ev, Step(s, ev).s)
  {
    hide Unreferenced, DropChan;
  }

  function Handles(run: seq<Event>): nat {
    if run == [] then 0 else (if run[0].Handle? then 1 else 0) + Handles(run[1..])
  }

  /** An event runs its four tests once each in the order of the source, whatever happens in between. */
  lemma {:induction false} FourTests(s: Sys, run: seq<Event>, id: ConnId, revents: Mask, k: nat)
    requires SysInv(s) && s.turn == After(id, revents, k) && k <= 4 && (forall ev :: ev in run ==> !ev.NextChannel? && !ev.PollReturns?)
    requires Legal(s, run) && Exec(s, run).Next?
    ensures k + Handles(run) <= 4 && Exec(s, run).s.turn == After(id, revents, k + Handles(run))
    decreases |run|
  {
    hide SysInv, Step, Enabled, After;
    if run != [] {
      assert run[0] in run;
      StepInv(s, run[0]);
      TurnStep(s, run[0], id, revents, k);
      FourTests(Step(s, run[0]).s, run[1..], id, revents, if run[0].Handle? then k + 1 else k);
    }
  }

  lemma TurnStep(s: Sys, ev: Event, id: ConnId, revents: Mask, k: nat)
    requires SysInv(s) && s.turn == After(id, revents, k) && k <= 4 && Enabled(s, ev) && Step(s, ev).Next? && !ev.NextChannel? && !ev.PollReturns?
    ensures ev.Handle? ==> k < 4
    ensures Step(s, ev).s.turn == After(id, revents, if ev.Handle? then k + 1 else k)
  {
    TurnMoves(s, ev);
    hide SysInv, Enabled, Step;
  }
}
