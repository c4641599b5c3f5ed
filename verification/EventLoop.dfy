/** EventLoop.cpp in its own, imperative form, tied step by step to LoopSpec. */
module EventLoops {
  import opened LoopSpec
  import opened LoopRuns
  import LoopTiming
  import TimerSpec
  import TimerRounds
  import TimerQueues

  /** What a functor of the loop may do to the queue, and other threads meanwhile. */
  predicate QueueOps<F(==)>(ops: seq<Event<F>>) {
    forall ev :: ev in ops ==> ev.Append? || ev.Wake? || ev.Queue?
  }

  /** What happens to the queue while channels are handled. */
  predicate HandlerOps<F(==)>(ops: seq<Event<F>>) {
    forall ev :: ev in ops ==> ev.Append? || ev.Wake? || ev.Queue? || ev.HandleRead?
  }

  /** One turn of loop(): poll, the channels, doPendingFunctors. */
  function Turn<F(==)>(ready: bool, handlers: seq<Event<F>>, scripts: seq<seq<Event<F>>>): seq<Event<F>> {
    [PollReturns(ready)] + (handlers + ([Swap] + Turns(scripts)))
  }

  lemma TurnIs<F>(ready: bool, handlers: seq<Event<F>>, scripts: seq<seq<Event<F>>>)
    ensures Turn(ready, handlers, scripts) == [PollReturns(ready)] + (handlers + ([Swap] + Turns(scripts)))
  {
  }

  /** One doPendingFunctors call whose k-th functor is accompanied by scripts[k]. */
  function Turns<F(==)>(scripts: seq<seq<Event<F>>>): seq<Event<F>> {
    if scripts == [] then [EndFunctors] else [RunFunctor] + (scripts[0] + Turns(scripts[1..]))
  }

  lemma {:induction false} OpsThen<F>(ops: seq<Event<F>>, rest: seq<Event<F>>)
    requires QueueOps(ops) && ToPhaseEnd(rest)
    ensures ToPhaseEnd(ops + rest)
  {
    if ops == [] {
      assert ops + rest == rest;
    } else {
      assert ops[0] in ops;
      forall ev | ev in ops[1..] ensures ev in ops {}
      OpsThen(ops[1..], rest);
      assert (ops + rest)[0] == ops[0] && (ops + rest)[1..] == ops[1..] + rest;
    }
  }

  lemma {:induction false} TurnsEnd<F>(scripts: seq<seq<Event<F>>>)
    requires forall ops :: ops in scripts ==> QueueOps(ops)
    ensures ToPhaseEnd(Turns(scripts))
  {
    if scripts != [] {
      assert scripts[0] in scripts;
      TurnsEnd(scripts[1..]);
      OpsThen(scripts[0], Turns(scripts[1..]));
      var run := Turns(scripts);
      assert run[1..] == scripts[0] + Turns(scripts[1..]);
    }
  }

  lemma RunsConcat<F>(a: seq<Event<F>>, b: seq<Event<F>>)
    ensures Runs(a + b) == Runs(a) + Runs(b)
    ensures Queued(a + b) == Queued(a) + Queued(b)
  {
    if a == [] {
      assert a + b == b;
    } else {
      assert (a + b)[0] == a[0] && (a + b)[1..] == a[1..] + b;
      RunsConcat(a[1..], b);
    }
  }

  lemma NoRuns<F>(ops: seq<Event<F>>)
    requires QueueOps(ops)
    ensures Runs(ops) == 0
  {
    if ops != [] {
      assert ops[0] in ops;
      forall ev | ev in ops[1..] ensures ev in ops {}
      NoRuns(ops[1..]);
    }
  }

  lemma {:induction false} RunsOfTurns<F>(scripts: seq<seq<Event<F>>>)
    requires forall ops :: ops in scripts ==> QueueOps(ops)
    ensures Runs(Turns(scripts)) == |scripts|
  {
    if scripts == [] {
      assert Turns(scripts)[1..] == [];
    } else {
      assert scripts[0] in scripts;
      NoRuns(scripts[0]);
      RunsOfTurns(scripts[1..]);
      var rest := scripts[0] + Turns(scripts[1..]);
      RunsConcat(scripts[0], Turns(scripts[1..]));
      assert Turns(scripts)[1..] == rest;
    }
  }

  /** What dispatching adds to the queue. */
  lemma {:induction false} HandlersQueue<F>(s: Loop<F>, ops: seq<Event<F>>)
    requires Inv(s) && HandlerOps(ops) && Legal(s, ops)
    ensures Exec(s, ops).Next? && Inv(Exec(s, ops).s)
    ensures Exec(s, ops).s.pending == s.pending + Queued(ops) && Exec(s, ops).s.executed == s.executed
    decreases |ops|
  {
    hide HandlerOps, Step, Enabled, QueuedBy, Inv;
    if ops != [] {
      HandlerHead(ops);
      HandlerStep(s, ops[0]);
      HandlersQueue(Step(s, ops[0]).s, ops[1..]);
    }
  }

  lemma HandlerHead<F>(ops: seq<Event<F>>)
    requires HandlerOps(ops) && ops != []
    ensures HandlerOps(ops[1..]) && (ops[0].Append? || ops[0].Wake? || ops[0].Queue? || ops[0].HandleRead?)
  {
    assert ops[0] in ops;
    forall ev | ev in ops[1..] ensures ev in ops {}
  }

  lemma HandlerStep<F>(s: Loop<F>, ev: Event<F>)
    requires Inv(s) && Enabled(s, ev) && (ev.Append? || ev.Wake? || ev.Queue? || ev.HandleRead?)
    ensures Step(s, ev).Next? && Inv(Step(s, ev).s)
    ensures Step(s, ev).s.pending == s.pending + QueuedBy(ev) && Step(s, ev).s.executed == s.executed
  {
    StepInv(s, ev);
  }

  lemma TakeOne<F>(s: Loop<F>, ev: Event<F>, rest: seq<Event<F>>)
    requires Legal(s, [ev] + rest)
    ensures Enabled(s, ev)
    ensures Step(s, ev).Next? ==> Legal(Step(s, ev).s, rest) && Exec(s, [ev] + rest) == Exec(Step(s, ev).s, rest)
  {
    assert ([ev] + rest)[0] == ev && ([ev] + rest)[1..] == rest;
  }

  lemma AppendAndWake<F>(s: Loop<F>, p: Producer, f: F)
    requires Inv(s) && p !in s.waking
    ensures Legal(s, [Append(p, f), Wake(p)])
    ensures Exec(s, [Append(p, f), Wake(p)])
            == Next(s.(pending := s.pending + [f], queued := s.queued + [f], counter := s.counter + 1))
    ensures Inv(Exec(s, [Append(p, f), Wake(p)]).s)
  {
    var s1 := s.(pending := s.pending + [f], queued := s.queued + [f], waking := s.waking + {p});
    StepInv(s, Append(p, f));
    StepInv(s1, Wake(p));
    ExecTwo(s, Append(p, f), Wake(p));
    assert s1.waking - {p} == s.waking;
  }

  lemma ExecTwo<F>(s: Loop<F>, a: Event<F>, b: Event<F>)
    requires Enabled(s, a) && Step(s, a).Next? && Enabled(Step(s, a).s, b) && Step(Step(s, a).s, b).Next?
    ensures Legal(s, [a, b]) && Exec(s, [a, b]) == Step(Step(s, a).s, b)
  {
    hide Enabled, Step;
    assert [a, b][1..] == [b] && [b][1..] == [];
    var t := Step(s, a).s;
    assert Legal(Step(t, b).s, []);
    assert Legal(t, [b]) && Exec(t, [b]) == Step(t, b);
  }

  lemma SwapNext<F>(s: Loop<F>, scripts: seq<seq<Event<F>>>)
    requires Legal(s, [Swap] + Turns(scripts))
    ensures Enabled(s, Swap)
  {
    TakeOne(s, Swap, Turns(scripts));
  }

  lemma NearestIs(timers: seq<TimerSpec.Entry>, when: int)
    requires timers == [] ==> when == 0
    requires timers != [] ==> (exists e :: e in timers && e.when == when) && forall e :: e in timers ==> when <= e.when
    requires TimerSpec.Sorted(timers)
    ensures LoopTiming.Nearest(timers) == when
  {
    if timers != [] {
      assert timers[0] in timers;
      var e :| e in timers && e.when == when;
      LoopTiming.NearestIsMinimum(timers, e);
    }
  }

  /** The thread a call is made on. */
  datatype Caller = LoopThread | Other(p: Producer)

  class EventLoop<F(==)> {
    var pendingFunctors: seq<F>
    var callingPendingFunctors: bool
    var eventfd: nat                    // the kernel's counter behind wakeupFd_
    var now: int

    ghost var stage: Stage
    ghost var reported: bool
    ghost var batch: seq<F>
    ghost var waking: set<Producer>
    ghost var executed: seq<F>
    ghost var queued: seq<F>
    ghost var ranHere: seq<F>           // history: what runInLoop executed on the spot

    ghost function View(): Loop<F>
      reads this
    {
      Loop(stage, reported, callingPendingFunctors, batch, pendingFunctors, eventfd, waking, executed, queued)
    }

    ghost predicate Valid()
      reads this
    {
      Inv(View())
    }

    /** A loop whose thread queued nothing yet. */
    constructor ()
      ensures Valid() && View() == Boot() && now == 0
    {
      pendingFunctors, callingPendingFunctors, eventfd, now := [], false, 0, 0;
      stage, reported, batch, waking, executed, queued, ranHere := Starting, false, [], {}, [], [], [];
    }

    /** loop() is called; its thread may have queued before. */
    method Start()
      requires Valid() && stage.Starting?
      modifies this`stage
      ensures Valid() && Step(old(View()), Event<F>.Start) == Next(View())
    {
      stage := Polling;
    }

    method Wakeup()
      modifies this`eventfd
      ensures eventfd == old(eventfd) + 1
    {
      eventfd := eventfd + 1;
    }

    /** queueInLoop; on another thread the append and the wakeup are two steps of the machine. */
    method QueueInLoop(cb: F, caller: Caller)
      requires Valid() && (caller.LoopThread? ==> !stage.Polling?) && (caller.Other? ==> caller.p !in waking)
      modifies this
      ensures Valid() && now == old(now) && ranHere == old(ranHere)
      ensures caller.LoopThread? ==> Step(old(View()), Queue(cb)) == Next(View())
      ensures caller.Other? ==> Next(View()) == Exec(old(View()), [Append(caller.p, cb), Wake(caller.p)])
    {
      if caller.LoopThread? { StepInv(View(), Queue(cb)); } else { AppendAndWake(View(), caller.p, cb); }
      pendingFunctors := pendingFunctors + [cb];
      queued := queued + [cb];
      if caller.Other? || callingPendingFunctors {
        Wakeup();
      }
    }

    /**
     runInLoop: on the loop thread the callback runs before the call returns, ahead
     of everything queued; `script` is what it, and other threads meanwhile, queue.
     */
    method RunInLoop(cb: F, caller: Caller, script: seq<Event<F>>)
      requires Valid() && (caller.Other? ==> caller.p !in waking)
      requires caller.LoopThread? ==> QueueOps(script) && Legal(View(), script)
      modifies this
      ensures Valid() && now == old(now)
      ensures caller.LoopThread? ==> ranHere == old(ranHere) + [cb] && Next(View()) == Exec(old(View()), script)
      ensures caller.Other? ==> ranHere == old(ranHere) && Next(View()) == Exec(old(View()), [Append(caller.p, cb), Wake(caller.p)])
    {
      if caller.LoopThread? {
        ranHere := ranHere + [cb];
        assert script + [] == script;
        PerformAll(script, []);
      } else {
        QueueInLoop(cb, caller);
      }
    }

    /** The wakeup channel's read callback; it never finds the eventfd empty. */
    method HandleRead()
      requires Valid() && Enabled(View(), Event<F>.HandleRead)
      modifies this
      ensures Valid() && Step(old(View()), Event<F>.HandleRead) == Next(View())
      ensures old(eventfd) > 0 && eventfd == 0 && now == old(now) && ranHere == old(ranHere)
    {
      StepInv(View(), Event<F>.HandleRead);
      eventfd := 0;
      reported := false;
    }

    /** One move of a producer, of a callback on the loop thread, or of the wakeup channel. */
    method Perform(ev: Event<F>)
      requires Valid() && Enabled(View(), ev) && (ev.Append? || ev.Wake? || ev.Queue? || ev.HandleRead?)
      modifies this
      ensures Valid() && Step(old(View()), ev) == Next(View())
      ensures stage == old(stage) && batch == old(batch) && now == old(now) && ranHere == old(ranHere)
    {
      StepInv(View(), ev);
      match ev {
        case Append(p, f) =>
          pendingFunctors, queued, waking := pendingFunctors + [f], queued + [f], waking + {p};
        case Wake(p) =>
          Wakeup();
          waking := waking - {p};
        case Queue(f) => QueueInLoop(f, LoopThread);
        case HandleRead => HandleRead();
      }
    }

    method PerformAll(ops: seq<Event<F>>, ghost rest: seq<Event<F>>)
      requires Valid() && HandlerOps(ops) && Legal(View(), ops + rest)
      modifies this
      ensures Legal(old(View()), ops) && Exec(old(View()), ops) == Next(View())
      ensures Valid() && Legal(View(), rest) && Exec(View(), rest) == Exec(old(View()), ops + rest)
      ensures stage == old(stage) && batch == old(batch) && now == old(now) && ranHere == old(ranHere)
    {
      var k := 0;
      assert ops[0..] == ops;
      ExecConcat(View(), ops, rest);
      while k < |ops|
        invariant 0 <= k <= |ops| && Valid() && Legal(View(), ops[k..] + rest)
        invariant Legal(View(), ops[k..]) && Exec(View(), ops[k..]) == Exec(old(View()), ops)
        invariant Exec(View(), ops[k..] + rest) == Exec(old(View()), ops + rest)
        invariant stage == old(stage) && batch == old(batch) && now == old(now) && ranHere == old(ranHere)
      {
        assert ops[k..] + rest == [ops[k]] + (ops[k + 1..] + rest);
        TakeOne(View(), ops[k], ops[k + 1..] + rest);
        assert ops[k..] == [ops[k]] + ops[k + 1..];
        TakeOne(View(), ops[k], ops[k + 1..]);
        assert ops[k] in ops;
        Perform(ops[k]);
        k := k + 1;
      }
      assert ops[k..] + rest == rest;
    }

    /**
     doPendingFunctors: the functors pending at the swap run once each in order;
     what they and other threads queue meanwhile waits, with a wakeup written.
     */
    method DoPendingFunctors(scripts: seq<seq<Event<F>>>)
      requires Valid() && Enabled(View(), Swap)
      requires (forall ops :: ops in scripts ==> QueueOps(ops)) && Legal(View(), [Swap] + Turns(scripts))
      modifies this
      ensures Valid() && now == old(now) && Exec(old(View()), [Swap] + Turns(scripts)) == Next(View())
      ensures executed == old(executed) + old(pendingFunctors) && pendingFunctors == Queued(Turns(scripts))
      ensures pendingFunctors != [] ==> eventfd > 0 || waking != {}
    {
      ghost var s0 := View();
      TurnsEnd(scripts);
      OnePhase(s0, Turns(scripts));
      RunsOfTurns(scripts);
      TakeOne(s0, Swap, Turns(scripts));
      var functors := SwapFunctors();
      var k := 0;
      assert scripts[0..] == scripts;
      while k < |functors|
        invariant 0 <= k <= |functors| == |scripts| && Valid() && stage.Functors? && batch == functors[k..]
        invariant now == old(now)
        invariant Legal(View(), Turns(scripts[k..]))
        invariant Exec(View(), Turns(scripts[k..])) == Exec(s0, [Swap] + Turns(scripts))
      {
        RunOne(functors, scripts, k);
        k := k + 1;
      }
      assert scripts[k..] == [] && Turns<F>([]) == [EndFunctors] + [];
      TakeOne(View(), EndFunctors, []);
      FunctorsDone();
    }

    /** The top of doPendingFunctors: swap the vectors. */
    method SwapFunctors() returns (functors: seq<F>)
      requires Valid() && Enabled(View(), Swap)
      modifies this`callingPendingFunctors, this`pendingFunctors, this`stage, this`batch
      ensures Valid() && Step(old(View()), Swap) == Next(View()) && functors == old(pendingFunctors) == batch
    {
      StepInv(View(), Swap);
      callingPendingFunctors := true;
      functors := pendingFunctors;
      pendingFunctors := [];
      stage, batch := Functors, functors;
    }

    /** The loop of doPendingFunctors moves to its next functor. */
    method NextFunctor(f: F)
      requires Valid() && stage.Functors? && batch != [] && f == batch[0]
      modifies this`executed, this`batch
      ensures Valid() && Step(old(View()), RunFunctor) == Next(View())
    {
      StepInv(View(), Event<F>.RunFunctor);
      executed := executed + [f];
      batch := batch[1..];
    }

    /** The bottom of doPendingFunctors. */
    method FunctorsDone()
      requires Valid() && stage.Functors? && batch == []
      modifies this`callingPendingFunctors, this`stage
      ensures Valid() && Step(old(View()), Event<F>.EndFunctors) == Next(View())
    {
      StepInv(View(), Event<F>.EndFunctors);
      callingPendingFunctors := false;
      stage := Polling;
    }

    /** epoll_wait returns; `ready` when it reports the wakeup channel. */
    method PollReturned(ready: bool)
      requires Valid() && Enabled(View(), PollReturns(ready))
      modifies this`stage, this`reported
      ensures Valid() && Step(old(View()), PollReturns(ready)) == Next(View())
    {
      StepInv(View(), PollReturns(ready));
      stage, reported := Dispatching, ready;
    }

    /** One turn of the loop over `functors`. */
    method RunOne(functors: seq<F>, scripts: seq<seq<Event<F>>>, k: nat)
      requires Valid() && stage.Functors? && k < |functors| == |scripts| && batch == functors[k..]
      requires forall ops :: ops in scripts ==> QueueOps(ops)
      requires Legal(View(), Turns(scripts[k..]))
      modifies this
      ensures Valid() && stage.Functors? && batch == functors[k + 1..] && now == old(now)
      ensures Legal(View(), Turns(scripts[k + 1..])) && Exec(View(), Turns(scripts[k + 1..])) == Exec(old(View()), Turns(scripts[k..]))
    {
      var ops := scripts[k];
      assert ops in scripts && scripts[k..][1..] == scripts[k + 1..];
      var tail := Turns(scripts[k + 1..]);
      assert Turns(scripts[k..]) == [RunFunctor] + (ops + tail);
      TakeOne(View(), RunFunctor, ops + tail);
      NextFunctor(functors[k]);
      PerformAll(ops, tail);
    }

    /** The top of an iteration: the clock is read only when a timer is queued. */
    method ComputeTimeout(timers: TimerQueues.TimerQueue, clock: int) returns (timeoutMs: int)
      requires Valid() && timers.Valid()
      modifies this`now
      ensures Valid() && View() == old(View())
      ensures timeoutMs == LoopTiming.TimeoutMs(LoopTiming.Nearest(timers.timers), clock)
      ensures now == LoopTiming.SampledNow(LoopTiming.Nearest(timers.timers), old(now), clock)
    {
      timeoutMs := 0;
      var nextExpired := timers.GetNearestExpiration();
      NearestIs(timers.timers, nextExpired);
      if nextExpired > 0 {
        now := clock;
        timeoutMs := if nextExpired - now <= 0 then 0 else (nextExpired - now) / 1000;
      }
    }

    /**
     One turn of loop().  `handlers` is what happens to the functor queue and
     `timerOps` what happens to the timer queue while channels are handled,
     `callbacks` what the timer callbacks do to the timer queue.  Everything queued
     before the swap has run at the end; `ok` is false when an assert of the timer
     queue ended the process.
     */
    method Iterate(timers: TimerQueues.TimerQueue, clock: int, ready: bool, handlers: seq<Event<F>>, timerOps: seq<TimerSpec.Event>,
                   callbacks: seq<seq<TimerSpec.Event>>, scripts: seq<seq<Event<F>>>) returns (ok: bool, timeoutMs: int)
      requires Valid() && timers.Valid() && timers.stage.Idle?
      requires HandlerOps(handlers) && (forall ops :: ops in scripts ==> QueueOps(ops))
      requires Legal(View(), Turn(ready, handlers, scripts))
      requires TimerRounds.LoopOps(timerOps) && (forall ops :: ops in callbacks ==> TimerQueues.CallbackOps(ops))
      requires TimerSpec.Legal(timers.View(), timerOps)
      requires var due := LoopTiming.SampledNow(LoopTiming.Nearest(timers.timers), now, clock);
               var o := TimerSpec.Exec(timers.View(), timerOps);
               o.Ok? ==> TimerSpec.Legal(o.q, TimerQueues.CallRun(o.q, due, callbacks))
      modifies this, timers
      ensures now == LoopTiming.SampledNow(LoopTiming.Nearest(old(timers.timers)), old(now), clock)
      ensures timeoutMs == LoopTiming.TimeoutMs(LoopTiming.Nearest(old(timers.timers)), clock)
      ensures var o := TimerSpec.Exec(old(timers.View()), timerOps);
              && o.Ok?
              && var t := TimerSpec.Exec(o.q, TimerQueues.CallRun(o.q, now, callbacks));
              && (ok <==> t.Ok?) && (ok ==> timers.Valid() && t == TimerSpec.Ok(timers.View()))
      ensures ok ==> Valid() && Exec(old(View()), Turn(ready, handlers, scripts)) == Next(View())
      ensures ok ==> executed == old(executed) + old(pendingFunctors) + Queued(handlers) && pendingFunctors == Queued(Turns(scripts))
      ensures ok ==> (pendingFunctors != [] ==> eventfd > 0 || waking != {})
    {
      hide *;
      TurnIs(ready, handlers, scripts);
      timeoutMs := ComputeTimeout(timers, clock);
      PollAndHandle(ready, handlers, [Swap] + Turns(scripts));
      timers.Handlers(timerOps);
      ok := timers.RunTimer(now, callbacks);
      if ok {
        SwapNext(View(), scripts);
        DoPendingFunctors(scripts);
      }
    }

    /** epoll_wait returns, and the channels are handled. */
    method PollAndHandle(ready: bool, handlers: seq<Event<F>>, ghost tail: seq<Event<F>>)
      requires Valid() && HandlerOps(handlers) && Legal(View(), [PollReturns(ready)] + (handlers + tail))
      modifies this
      ensures Valid() && now == old(now) && Legal(View(), tail)
      ensures Exec(View(), tail) == Exec(old(View()), [PollReturns(ready)] + (handlers + tail))
      ensures pendingFunctors == old(pendingFunctors) + Queued(handlers) && executed == old(executed)
    {
      TakeOne(View(), PollReturns(ready), handlers + tail);
      PollReturned(ready);
      ExecConcat(View(), handlers, tail);
      HandlersQueue(View(), handlers);
      PerformAll(handlers, tail);
    }
  }

  /** The loop thread queues, and then enters loop(). */
  method QueueThenStart<F>(pre: seq<F>) returns (loop: EventLoop<F>)
    ensures fresh(loop) && loop.Valid() && loop.View() == Entry(pre)
  {
    loop := new EventLoop();
    var k := 0;
    while k < |pre|
      invariant 0 <= k <= |pre| && loop.Valid() && fresh(loop)
      invariant loop.View() == Entry(pre[..k]).(stage := Starting)
    {
      loop.QueueInLoop(pre[k], LoopThread);
      assert pre[..k] + [pre[k]] == pre[..k + 1];
      k := k + 1;
    }
    assert pre[..k] == pre;
    loop.Start();
  }
}
