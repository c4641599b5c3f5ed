/** One iteration in which a timer callback sends on a connection accepted in the same iteration. */
module WorldWitness {
  import Kernel
  import PollerSpec
  import opened WorldSpec
  import WorldInvariant
  import WorldRuns
  import R = ReactorSpec
  import ReactorRuns
  import ReactorLoop
  import ReactorWitness
  import ReactorMasks
  import T = TimerSpec
  import L = LoopSpec
  import LoopRuns

  /** A timer for time 1000, at address 7. */
  const QUEUED := T.Queue(map[7 := T.Timer(1, 1000, 0.0)], 1, {}, [T.Entry(1000, 7)], map[1 := 7], {}, T.Idle, T.Round(0, [], [], 0, 0, 0), [], [])
  const TAKEN := QUEUED.(timers := [], active := map[], stage := T.Firing,
                         round := T.Round(1000, [T.Entry(1000, 7)], [T.Timer(1, 1000, 0.0)], 0, 1, 0))
  const FIRED := TAKEN.(fired := [T.Shot(1, 1000, 1000)], round := TAKEN.round.(next := 1))
  const REARMING := FIRED.(stage := T.Rearming, round := FIRED.round.(next := 0))
  const FREED := REARMING.(heap := map[], freed := [1], round := FIRED.round)
  const DONE := FREED.(stage := T.Idle)

  function LoopAt(stage: L.Stage): L.Loop<Item> {
    L.Loop(stage, false, stage.Functors?, [], [], 0, {}, [], [])
  }

  function WorldAt(s: R.Sys, q: T.Queue, stage: L.Stage, time: int, ran: bool): World {
    World(s, q, LoopAt(stage), {}, time, time, ran)
  }

  /** A timer is added, loop() starts, a connection is accepted, and the timer's callback sends on it. */
  const DAY: seq<Event> := [
    Timer(T.Add(7, 1000, 0.0)), Start, Poll([], false, 1000), Conn(R.Accept(5, 1, false, false)),
    Timer(T.Begin(1000)), Timer(T.Trigger), Conn(R.UserSend(1, [0], Kernel.Wrote(0))), Timer(T.EndFiring), Timer(T.Rearm), Timer(T.Finish),
    Swap, EndFunctors]

  /** The worlds before each event of it, and at its end. */
  function Day(k: nat): World
    requires k <= |DAY|
  {
    if k == 0 then BOOT
    else if k == 1 then WorldAt(R.BOOT, QUEUED, L.Starting, 0, false)
    else if k == 2 then WorldAt(R.BOOT, QUEUED, L.Polling, 0, false)
    else if k == 3 then WorldAt(R.BOOT.(phase := R.Dispatching), QUEUED, L.Dispatching, 1000, false)
    else if k == 4 then WorldAt(ReactorWitness.At(R.Dispatching, [], R.NoTurn), QUEUED, L.Dispatching, 1000, false)
    else if k == 5 then WorldAt(ReactorWitness.At(R.Dispatching, [], R.NoTurn), TAKEN, L.Dispatching, 1000, true)
    else if k == 6 then WorldAt(ReactorWitness.At(R.Dispatching, [], R.NoTurn), FIRED, L.Dispatching, 1000, true)
    else if k == 7 then WorldAt(ReactorMasks.With(R.Dispatching, [], R.NoTurn), FIRED, L.Dispatching, 1000, true)
    else if k == 8 then WorldAt(ReactorMasks.With(R.Dispatching, [], R.NoTurn), REARMING, L.Dispatching, 1000, true)
    else if k == 9 then WorldAt(ReactorMasks.With(R.Dispatching, [], R.NoTurn), FREED, L.Dispatching, 1000, true)
    else if k == 10 then WorldAt(ReactorMasks.With(R.Dispatching, [], R.NoTurn), DONE, L.Dispatching, 1000, true)
    else if k == 11 then WorldAt(ReactorMasks.With(R.Functors, [], R.NoTurn), DONE, L.Functors, 1000, true)
    else WorldAt(ReactorMasks.With(R.Polling, [], R.NoTurn), DONE, L.Polling, 1000, true)
  }

  ghost predicate Goes(w: World, ev: Event, t: World) {
    Enabled(w, ev) && Step(w, ev) == Next(t)
  }

  lemma ConnGoes(w: World, e: R.Event, s: R.Sys)
    requires Enabled(w, Conn(e)) && ReactorWitness.Goes(w.sys, e, s) && s.pending == w.sys.pending
    ensures Goes(w, Conn(e), w.(sys := s))
  {
    WorldInvariant.OneStep(w.sys, e);
    ReactorLoop.SamePending(w.sys, s);
    assert LoopMoves(w, Conn(e), s) == [];
    WorldRuns.StepIs(w, Conn(e));
    hide Enabled, Step, R.Enabled, R.Step, R.Legal, R.Exec;
  }

  lemma TimerGoes(w: World, e: T.Event, q: T.Queue)
    requires Enabled(w, Timer(e)) && T.Step(w.timers, e) == T.Ok(q) && !e.Post?
    ensures Goes(w, Timer(e), w.(timers := q, ranTimers := w.ranTimers || e.Begin?))
  {
    WorldInvariant.OneTimerStep(w.timers, e);
    WorldRuns.StepIs(w, Timer(e));
    hide Enabled, Step, T.Enabled, T.Step, T.Legal, T.Exec;
  }

  /** Moves of the loop with nothing queued. */
  lemma LoopGoes(w: World, ev: Event, s: R.Sys, l: L.Event<Item>, stage: L.Stage)
    requires Enabled(w, ev) && w.loop == LoopAt(w.loop.stage) && L.Enabled(w.loop, l) && L.Step(w.loop, l) == L.Next(LoopAt(stage))
    requires LoopMoves(w, ev, s) == [l] && TimerMoves(w, ev) == [] && SameHead(w, ev)
    requires if SysMoves(w, ev) == [] then s == w.sys else |SysMoves(w, ev)| == 1 && ReactorWitness.Goes(w.sys, SysMoves(w, ev)[0], s)
    ensures Goes(w, ev, After(w, ev, s, w.timers, LoopAt(stage)))
  {
    assert [l][1..] == [] && L.Legal(LoopAt(stage), []);
    assert L.Legal(w.loop, [l]) && L.Exec(w.loop, [l]) == L.Step(w.loop, l);
    if SysMoves(w, ev) != [] {
      WorldInvariant.OneStep(w.sys, SysMoves(w, ev)[0]);
      assert SysMoves(w, ev) == [SysMoves(w, ev)[0]];
    }
    WorldRuns.StepIs(w, ev);
    hide Enabled, Step, R.Enabled, R.Step, L.Enabled, L.Step, After, SysMoves, TimerMoves, LoopMoves;
  }

  lemma Adds()
    ensures T.Step(T.EMPTY, T.Add(7, 1000, 0.0)) == T.Ok(QUEUED)
  {
    assert T.Insert([], T.Entry(1000, 7)) == [T.Entry(1000, 7)];
  }

  lemma Begins()
    ensures T.Enabled(QUEUED, T.Begin(1000)) && T.Step(QUEUED, T.Begin(1000)) == T.Ok(TAKEN)
  {
    var e := T.Entry(1000, 7);
    assert T.LowerBound([e], T.Entry(1000, T.SENTINEL)) == 1;
    assert [e][..1] == [e] && [e][1..] == [];
    assert T.Snapshot(QUEUED.heap, [e]) == [T.Timer(1, 1000, 0.0)];
    assert T.IdsOf([T.Timer(1, 1000, 0.0)]) == {1};
    assert map[1 := 7] - {1} == map[];
  }

  lemma Fires()
    ensures T.Enabled(TAKEN, T.Trigger) && T.Step(TAKEN, T.Trigger) == T.Ok(FIRED)
    ensures T.Enabled(FIRED, T.EndFiring) && T.Step(FIRED, T.EndFiring) == T.Ok(REARMING)
    ensures T.Enabled(REARMING, T.Rearm) && T.Step(REARMING, T.Rearm) == T.Ok(FREED)
    ensures T.Enabled(FREED, T.Finish) && T.Step(FREED, T.Finish) == T.Ok(DONE)
  {
    assert map[7 := T.Timer(1, 1000, 0.0)] - {7} == map[];
  }

  /** One step of runTimer. */
  lemma Rings(s: R.Sys, q: T.Queue, e: T.Event, t: T.Queue, ran: bool)
    requires T.Enabled(q, e) && T.Step(q, e) == T.Ok(t) && !e.Arrive? && !e.Add? && !e.Cancel? && !e.Post?
    requires e.Begin? ==> e.now == 1000 && !ran && s.phase.Dispatching? && s.active == [] && s.turn.NoTurn? && s.closing.NoClosing?
    ensures Goes(WorldAt(s, q, L.Dispatching, 1000, ran), Timer(e), WorldAt(s, t, L.Dispatching, 1000, ran || e.Begin?))
  {
    var w := WorldAt(s, q, L.Dispatching, 1000, ran);
    hide T.Step, R.Enabled, R.Step, Goes;
    TimerGoes(w, e, t);
  }

  /** An event of the connections while the loop dispatches. */
  lemma Calls(s: R.Sys, q: T.Queue, e: R.Event, t: R.Sys, ran: bool)
    requires ReactorWitness.Goes(s, e, t) && t.pending == s.pending
    requires (e.UserSend? && q.stage.Firing?) || (e.Accept? && q.stage.Idle? && !ran)
    ensures Goes(WorldAt(s, q, L.Dispatching, 1000, ran), Conn(e), WorldAt(t, q, L.Dispatching, 1000, ran))
  {
    var w := WorldAt(s, q, L.Dispatching, 1000, ran);
    hide R.Enabled, R.Step, Goes;
    assert R.Enabled(s, e);
    ConnGoes(w, e, t);
  }

  lemma Starts()
    ensures Goes(Day(0), DAY[0], Day(1)) && Goes(Day(1), DAY[1], Day(2))
  {
    Adds();
    hide T.Step, R.Enabled, R.Step, Goes;
    TimerGoes(Day(0), T.Add(7, 1000, 0.0), QUEUED);
    LoopGoes(Day(1), DAY[1], R.BOOT, L.Start, L.Polling);
  }

  lemma Polls()
    ensures Goes(Day(2), DAY[2], Day(3))
  {
    ReactorWitness.Accepted();
    hide R.Enabled, R.Step, Goes;
    LoopGoes(Day(2), DAY[2], R.BOOT.(phase := R.Dispatching), L.PollReturns(false), L.Dispatching);
  }

  lemma Dispatches()
    ensures Goes(Day(3), DAY[3], Day(4)) && Goes(Day(6), DAY[6], Day(7))
  {
    ReactorWitness.Accepted();
    ReactorMasks.Sends();
    hide ReactorWitness.Goes, Goes;
    Calls(R.BOOT.(phase := R.Dispatching), QUEUED, R.Accept(5, 1, false, false), ReactorWitness.At(R.Dispatching, [], R.NoTurn), false);
    Calls(ReactorWitness.At(R.Dispatching, [], R.NoTurn), FIRED, R.UserSend(1, [0], Kernel.Wrote(0)), ReactorMasks.With(R.Dispatching, [], R.NoTurn), true);
  }

  lemma RunsTimer()
    ensures Goes(Day(4), DAY[4], Day(5)) && Goes(Day(5), DAY[5], Day(6))
    ensures Goes(Day(7), DAY[7], Day(8)) && Goes(Day(8), DAY[8], Day(9)) && Goes(Day(9), DAY[9], Day(10))
  {
    Begins();
    Fires();
    hide T.Enabled, T.Step, Goes;
    var s, u := ReactorWitness.At(R.Dispatching, [], R.NoTurn), ReactorMasks.With(R.Dispatching, [], R.NoTurn);
    Rings(s, QUEUED, T.Begin(1000), TAKEN, false);
    Rings(s, TAKEN, T.Trigger, FIRED, true);
    Rings(u, FIRED, T.EndFiring, REARMING, true);
    Rings(u, REARMING, T.Rearm, FREED, true);
    Rings(u, FREED, T.Finish, DONE, true);
  }

  lemma Swaps()
    ensures Goes(Day(10), DAY[10], Day(11))
  {
    ReactorMasks.Iterates({PollerSpec.IN});
    hide R.Enabled, R.Step, Goes;
    LoopGoes(Day(10), Swap, ReactorMasks.With(R.Functors, [], R.NoTurn), L.Swap, L.Functors);
  }

  lemma Ends()
    ensures Goes(Day(11), DAY[11], Day(12))
  {
    ReactorMasks.Iterates({PollerSpec.IN});
    hide R.Enabled, R.Step, Goes;
    LoopGoes(Day(11), EndFunctors, ReactorMasks.With(R.Polling, [], R.NoTurn), L.EndFunctors, L.Polling);
  }

  lemma {:induction false} DayGoes(k: nat)
    requires k <= |DAY| && forall i :: 0 <= i < |DAY| ==> Goes(Day(i), DAY[i], Day(i + 1))
    ensures Legal(Day(k), DAY[k..]) && Exec(Day(k), DAY[k..]) == Next(Day(|DAY|))
    decreases |DAY| - k
  {
    hide Enabled, Step, Day;
    if k == |DAY| {
      assert DAY[k..] == [];
    } else {
      DayGoes(k + 1);
      assert DAY[k..][0] == DAY[k] && DAY[k..][1..] == DAY[k + 1..];
      assert Goes(Day(k), DAY[k], Day(k + 1));
    }
  }

  /** The run is legal: the timer has fired and is gone, and its callback's byte waits to be written. */
  lemma CallbackSends()
    ensures Legal(BOOT, DAY) && Exec(BOOT, DAY).Next?
    ensures var w := Exec(BOOT, DAY).w;
            && w.timers.fired == [T.Shot(1, 1000, 1000)] && w.timers.freed == [1]
            && 1 in w.sys.conns && w.sys.conns[1].out == [0] && w.loop.stage.Polling?
  {
    Starts();
    Polls();
    Dispatches();
    RunsTimer();
    Swaps();
    Ends();
    hide Goes, Enabled, Step, Legal, Exec;
    DayGoes(0);
    assert DAY[0..] == DAY;
  }
}
