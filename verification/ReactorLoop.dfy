/**
 The functor phase of the reactor is the loop machine's: every reactor run is a
 run of LoopSpec with the same batch and the same pending functors, so what holds
 of functors and wakeups there holds of connections' functors here.
 */
module ReactorLoop {
  import opened Kernel
  import opened PollerSpec
  import opened ConnectionSpec
  import opened ChannelSpec
  import opened ReactorSpec
  import opened ReactorInvariant
  import opened ReactorSteps
  import opened ReactorRuns
  import L = LoopSpec
  import LoopRuns

  type TaskLoop = L.Loop<Task>

  function StageOf(phase: Phase): L.Stage {
    match phase case Polling => L.Polling case Dispatching => L.Dispatching case Functors => L.Functors
  }

  ghost predicate Simulates(l: TaskLoop, s: Sys) {
    && l.batch == s.batch && l.pending == s.pending && l.stage == StageOf(s.phase) && !l.reported && l.waking == {}
    && LoopRuns.Inv(l) && LoopRuns.Safe(l)
  }

  /** What a reactor step is in the loop machine; a positive eventfd is reported and read at once. */
  function Moves(s: Sys, ev: Event, t: Sys, l: TaskLoop): seq<L.Event<Task>> {
    match ev
    case PollReturns(_) => if l.counter > 0 then [L.PollReturns(true), L.HandleRead] else [L.PollReturns(false)]
    case EndDispatch => [L.Swap]
    case EndFunctors => [L.EndFunctors]
    case RunTask => [L.RunFunctor] + LoopRuns.Queues(NewTasks(s, t))
    case _ => LoopRuns.Queues(NewTasks(s, t))
  }

  /** How a step moves the functor queue. */
  ghost predicate QueueMoves(s: Sys, ev: Event, t: Sys) {
    && (ev.EndDispatch? ==> t.batch == s.pending && t.pending == [])
    && (!ev.EndDispatch? ==> t.pending == s.pending + NewTasks(s, t))
    && (!ev.EndDispatch? ==> if ev.RunTask? then s.batch != [] && t.batch == s.batch[1..] else t.batch == s.batch)
    && (ev.PollReturns? || ev.EndFunctors? ==> t.pending == s.pending)
    && (NewTasks(s, t) != [] ==> !s.phase.Polling?)
    && t.phase == match ev case PollReturns(_) => Dispatching case EndDispatch => Functors case EndFunctors => Polling case _ => s.phase
  }

  lemma StepQueue(s: Sys, ev: Event)
    requires SysInv(s) && Enabled(s, ev) && Step(s, ev).Next?
    ensures QueueMoves(s, ev, Step(s, ev).s)
  {
    hide SysInv, Apply, Reports, Unreferenced, FdFree, Send, RunPart, TakeInput, Shutdown, ForceClosing, NewTasks, RunTaskStep;
    var t := Step(s, ev).s;
    SamePending(s, t);
    match ev
    case Handle(r, w) =>
      TurnFacts(s);
      ApplyQueue(s.(turn := NextPart(s.turn)), s.turn.id, RunPart(s.conns[s.turn.id], s.turn.revents, s.turn.part, r, w));
      Appended(s, t);
    case CloseCallback =>
      ClosingIsHandled(s);
      assert t.pending == s.pending + [Task(s.closing.id, Destroy)];
      Appended(s, t);
    case Accept(fd, mark, wantsHigh, wantsComplete) => AcceptQueue(s, fd, mark, wantsHigh, wantsComplete); Appended(s, t);
    case UserSend(id, data, w) => ApplyQueue(s, id, Send(s.conns[id], data, w)); Appended(s, t);
    case UserShutdown(id) => ApplyQueue(s, id, Shutdown(s.conns[id])); Appended(s, t);
    case UserForceClose(id) => ApplyQueue(s, id, ForceClosing(s.conns[id])); Appended(s, t);
    case UserRetrieve(id, n) => ApplyQueue(s, id, TakeInput(s.conns[id], n)); Appended(s, t);
    case EndDispatch => EmptyBatch(s);
    case RunTask => RunTaskQueue(s); Appended(s, t);
    case _ =>
  }

  lemma ClosingIsHandled(s: Sys)
    requires SysInv(s) && s.closing.Closing?
    ensures !s.phase.Polling?
  {
  }

  /** The queue grew at its end, or not at all. */
  ghost predicate Grew(s: Sys, t: Sys) {
    exists xs: seq<Task> :: t.pending == s.pending + xs
  }

  lemma Appended(s: Sys, t: Sys)
    requires Grew(s, t)
    ensures t.pending == s.pending + NewTasks(s, t)
  {
    var xs: seq<Task> :| t.pending == s.pending + xs;
    assert t.pending[|s.pending|..] == xs;
  }

  lemma SamePending(s: Sys, t: Sys)
    ensures t.pending == s.pending ==> NewTasks(s, t) == [] && t.pending == s.pending + NewTasks(s, t)
  {
  }

  lemma ApplyQueue(s: Sys, id: ConnId, e: Effect)
    requires Apply(s, id, e).Next?
    ensures var t := Apply(s, id, e).s; t.batch == s.batch && t.phase == s.phase && Grew(s, t)
  {
    hide PushAll;
    assert Apply(s, id, e).s.pending == s.pending + Tasks(id, e.queued);
  }

  lemma AcceptQueue(s: Sys, fd: nat, mark: nat, wantsHigh: bool, wantsComplete: bool)
    requires NewConnection(s, fd, mark, wantsHigh, wantsComplete).Next?
    ensures var t := NewConnection(s, fd, mark, wantsHigh, wantsComplete).s; t.batch == s.batch && t.phase == s.phase && Grew(s, t)
  {
    hide Apply, ConnectEstablished, AddChan;
    var s1 := s.(nextId := s.nextId + 1, server := s.server + {s.nextId}, poller := AddChan(s.poller, s.nextId, fd));
    ApplyQueue(s1, s.nextId, ConnectEstablished(Fresh(mark, wantsHigh, wantsComplete)));
  }

  lemma RunTaskQueue(s: Sys)
    requires s.batch != [] && RunTaskStep(s).Next?
    ensures var t := RunTaskStep(s).s; t.batch == s.batch[1..] && t.phase == s.phase && Grew(s, t)
  {
    hide Apply, ForceCloseInLoop, ConnectDestroyed, RemoveChannel;
    var id, s1 := s.batch[0].id, s.(batch := s.batch[1..]);
    assert s.pending + [] == s.pending;
    if s.batch[0].kind.ForceClose? {
      ApplyQueue(s1, id, ForceCloseInLoop(s.conns[id]));
    } else if s.batch[0].kind.Destroy? {
      ApplyQueue(s1, id, ConnectDestroyed(s.conns[id]));
    }
  }

  lemma One(l: TaskLoop, ev: L.Event<Task>)
    requires L.Enabled(l, ev) && LoopRuns.Inv(l)
    ensures L.Step(l, ev).Next? && LoopRuns.Inv(L.Step(l, ev).s)
    ensures L.Legal(l, [ev]) && L.Exec(l, [ev]) == L.Step(l, ev)
    ensures LoopRuns.Safe(l) ==> LoopRuns.Safe(L.Step(l, ev).s)
  {
    LoopRuns.StepInv(l, ev);
    if LoopRuns.Safe(l) { LoopRuns.StepCovered(l, ev); }
    assert [ev][1..] == [];
    assert L.Legal(L.Step(l, ev).s, []);
  }

  /** Each reactor step is a legal run of the loop machine. */
  lemma StepSimulated(s: Sys, ev: Event, l: TaskLoop)
    requires SysInv(s) && Enabled(s, ev) && Step(s, ev).Next? && Simulates(l, s)
    ensures var t := Step(s, ev).s;
            var run := Moves(s, ev, t, l);
            L.Legal(l, run) && L.Exec(l, run).Next? && Simulates(L.Exec(l, run).s, t)
  {
    StepQueue(s, ev);
    var t := Step(s, ev).s;
    PhaseOf(s, ev);
    hide SysInv, Enabled, Step, LoopRuns.Safe, LoopRuns.Inv, LoopRuns.Fifo;
    MovesSimulate(s, ev, t, l);
  }

  /** Where each event may happen. */
  lemma PhaseOf(s: Sys, ev: Event)
    requires Enabled(s, ev)
    ensures ev.PollReturns? ==> s.phase.Polling?
    ensures ev.EndDispatch? ==> s.phase.Dispatching?
    ensures ev.EndFunctors? ==> s.phase.Functors? && s.batch == []
    ensures ev.RunTask? ==> s.phase.Functors? && s.batch != []
  {
  }

  lemma MovesSimulate(s: Sys, ev: Event, t: Sys, l: TaskLoop)
    requires Simulates(l, s) && QueueMoves(s, ev, t)
    requires ev.PollReturns? ==> s.phase.Polling?
    requires ev.EndDispatch? ==> s.phase.Dispatching?
    requires ev.EndFunctors? ==> s.phase.Functors? && s.batch == []
    requires ev.RunTask? ==> s.phase.Functors? && s.batch != []
    ensures var run := Moves(s, ev, t, l);
            L.Legal(l, run) && L.Exec(l, run).Next? && Simulates(L.Exec(l, run).s, t)
  {
    var fed := NewTasks(s, t);
    hide NewTasks, LoopRuns.Safe, LoopRuns.Fifo;
    match ev
    case PollReturns(_) => PollSimulates(s, t, l);
    case EndDispatch => One(l, L.Swap);
    case EndFunctors => One(l, L.EndFunctors);
    case RunTask =>
      One(l, L.RunFunctor);
      var m := L.Step(l, L.RunFunctor).s;
      LoopRuns.QueueAll(m, fed);
      LoopRuns.Then(l, L.RunFunctor, LoopRuns.Queues(fed));
    case _ => LoopRuns.QueueAll(l, fed);
  }

  lemma PollSimulates(s: Sys, t: Sys, l: TaskLoop)
    requires Simulates(l, s) && s.phase.Polling? && t.batch == s.batch && t.pending == s.pending && t.phase.Dispatching?
    ensures var run := if l.counter > 0 then [L.PollReturns(true), L.HandleRead] else [L.PollReturns(false)];
            L.Legal(l, run) && L.Exec(l, run).Next? && Simulates(L.Exec(l, run).s, t)
  {
    if l.counter > 0 {
      One(l, L.PollReturns(true));
      var m := L.Step(l, L.PollReturns(true)).s;
      One(m, L.HandleRead);
      LoopRuns.Then(l, L.PollReturns(true), [L.HandleRead]);
      var both: seq<L.Event<Task>> := [L.PollReturns(true), L.HandleRead];
      assert both == [L.PollReturns(true)] + [L.HandleRead];
    } else {
      One(l, L.PollReturns(false));
    }
  }

  /** The loop machine's run for a whole reactor run. */
  ghost function LoopRun(s: Sys, run: seq<Event>, l: TaskLoop): seq<L.Event<Task>>
    requires Legal(s, run)
    decreases |run|
  {
    if run == [] || Step(s, run[0]).Died? then []
    else
      var t := Step(s, run[0]).s;
      var moves := Moves(s, run[0], t, l);
      if L.Legal(l, moves) && L.Exec(l, moves).Next? then moves + LoopRun(t, run[1..], L.Exec(l, moves).s) else moves
  }

  lemma {:induction false} RunSimulated(s: Sys, run: seq<Event>, l: TaskLoop)
    requires SysInv(s) && Legal(s, run) && Exec(s, run).Next? && Simulates(l, s)
    ensures var moves := LoopRun(s, run, l);
            L.Legal(l, moves) && L.Exec(l, moves).Next? && Simulates(L.Exec(l, moves).s, Exec(s, run).s)
    decreases |run|
  {
    hide SysInv, Step, Enabled, Simulates, Moves;
    if run != [] {
      var t := Step(s, run[0]).s;
      StepInv(s, run[0]);
      StepSimulated(s, run[0], l);
      var moves := Moves(s, run[0], t, l);
      var m := L.Exec(l, moves).s;
      RunSimulated(t, run[1..], m);
      LoopRuns.Joined(l, moves, LoopRun(t, run[1..], m));
    }
  }

  /**
   From start-up: the functors of the connections are run once each in the order
   they were queued, and the loop never polls over one of them, in particular a
   connectDestroyed queued while functors run, without a positive eventfd.
   */
  lemma FunctorsOfEveryRun(run: seq<Event>)
    requires Legal(BOOT, run) && Exec(BOOT, run).Next?
    ensures var s, moves := Exec(BOOT, run).s, LoopRun(BOOT, run, L.Entry([]));
            && L.Legal(L.Entry([]), moves) && L.Exec(L.Entry([]), moves).Next?
            && var l := L.Exec(L.Entry([]), moves).s;
               && l.executed + s.batch + s.pending == l.queued
               && (s.phase.Polling? && s.pending != [] ==> l.counter > 0)
  {
    BootInv();
    assert Simulates(L.Entry([]), BOOT);
    RunSimulated(BOOT, run, L.Entry([]));
  }
}
