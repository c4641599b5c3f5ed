/** Every interleaving of the loop thread with its producers. */
module LoopRuns {
  import opened LoopSpec

  /** Functors are executed once each, in the order they were queued. */
  predicate Fifo<F>(s: Loop<F>) {
    s.executed + s.batch + s.pending == s.queued
  }

  predicate Inv<F>(s: Loop<F>) {
    && Fifo(s)
    && (s.calling <==> s.stage.Functors?) && (s.batch != [] ==> s.stage.Functors?)
    && (s.reported ==> s.stage.Dispatching? && s.counter > 0)
  }

  /** Waiting functors have a wakeup in the eventfd, or one is about to be written. */
  predicate Covered<F>(s: Loop<F>) {
    s.pending != [] ==> s.counter > 0 || s.waking != {}
  }

  lemma StepInv<F>(s: Loop<F>, ev: Event<F>)
    requires Inv(s) && Enabled(s, ev)
    ensures Step(s, ev).Next? && Inv(Step(s, ev).s)
  {
    if ev.RunFunctor? {
      assert s.batch == [s.batch[0]] + s.batch[1..];
    }
  }

  /** Within an iteration only dispatching may leave a functor without a wakeup, and the swap follows it. */
  ghost predicate Safe<F>(s: Loop<F>) {
    !s.stage.Starting? && (Covered(s) || s.stage.Dispatching?)
  }

  lemma StepCovered<F>(s: Loop<F>, ev: Event<F>)
    requires Inv(s) && Enabled(s, ev) && Safe(s)
    ensures Safe(Step(s, ev).s)
  {
    if ev.Append? { assert ev.p in Step(s, ev).s.waking; }
  }

  lemma {:induction false} ExecInv<F>(s: Loop<F>, run: seq<Event<F>>)
    requires Inv(s) && Legal(s, run)
    ensures Exec(s, run).Next? && Inv(Exec(s, run).s)
    ensures Safe(s) ==> Safe(Exec(s, run).s)
    decreases |run|
  {
    if run != [] {
      StepInv(s, run[0]);
      if Safe(s) { StepCovered(s, run[0]); }
      ExecInv(Step(s, run[0]).s, run[1..]);
    }
  }

  function Runs<F>(run: seq<Event<F>>): nat {
    if run == [] then 0 else (if run[0].RunFunctor? then 1 else 0) + Runs(run[1..])
  }

  function QueuedBy<F>(ev: Event<F>): seq<F> {
    match ev case Append(_, f) => [f] case Queue(f) => [f] case _ => []
  }

  /** What is queued during a run, by anybody. */
  function Queued<F>(run: seq<Event<F>>): seq<F> {
    if run == [] then [] else QueuedBy(run[0]) + Queued(run[1..])
  }

  /** queueInLoop on the loop thread writes the eventfd exactly while functors run; no other event but a wakeup does. */
  lemma WakesExactly<F>(s: Loop<F>, ev: Event<F>)
    requires Inv(s) && Enabled(s, ev) && !ev.HandleRead?
    ensures Step(s, ev).Next? && Step(s, ev).s.counter == s.counter + if ev.Wake? || (ev.Queue? && s.stage.Functors?) then 1 else 0
  {
  }

  lemma StepLine<F>(s: Loop<F>, ev: Event<F>)
    requires Inv(s) && Enabled(s, ev) && Step(s, ev).Next?
    ensures var t := Step(s, ev).s;
            && t.executed + t.batch + t.pending == s.executed + s.batch + s.pending + QueuedBy(ev)
            && |t.executed| == |s.executed| + if ev.RunFunctor? then 1 else 0
  {
    if ev.RunFunctor? { assert s.batch == [s.batch[0]] + s.batch[1..]; }
  }

  lemma {:induction false} RunLine<F>(s: Loop<F>, run: seq<Event<F>>)
    requires Inv(s) && Legal(s, run)
    ensures Exec(s, run).Next?
    ensures var t := Exec(s, run).s;
            && t.executed + t.batch + t.pending == s.executed + s.batch + s.pending + Queued(run)
            && |t.executed| == |s.executed| + Runs(run)
    decreases |run|
  {
    hide Inv, Step, Enabled, QueuedBy;
    if run == [] {
      assert s.executed + s.batch + s.pending + [] == s.executed + s.batch + s.pending;
    } else {
      StepInv(s, run[0]);
      StepLine(s, run[0]);
      var t := Step(s, run[0]).s;
      RunLine(t, run[1..]);
      var line, a, b := s.executed + s.batch + s.pending, QueuedBy(run[0]), Queued(run[1..]);
      assert line + (a + b) == (line + a) + b;
    }
  }

  /**
   In every run the functors executed, those left of the swapped batch and those
   pending are, in this order, exactly the functors the run's queueInLoop calls
   queued; as many were executed as had a turn; and the wakeup channel never reads
   an empty eventfd.
   */
  lemma ExactlyOnceFifo<F>(run: seq<Event<F>>)
    requires Legal(Boot(), run)
    ensures Exec(Boot(), run).Next?
    ensures var t := Exec(Boot(), run).s;
            && t.executed + t.batch + t.pending == Queued(run) && t.queued == Queued(run)
            && |t.executed| == Runs(run) && t.executed <= Queued(run)
  {
    RunLine(Boot(), run);
    ExecInv(Boot(), run);
    hide Legal, Exec, Queued, Runs;
    assert [] + Queued(run) == Queued(run);
  }

  ghost predicate NeverLost<F(!new)>(s: Loop<F>) {
    forall run :: Legal(s, run) && Exec(s, run).Next? && Exec(s, run).s.stage.Polling? ==> Covered(Exec(s, run).s)
  }

  /** At any poll: wakeups are safe for ever exactly if what waits now is covered. */
  lemma NeverLostIffCovered<F(!new)>(s: Loop<F>)
    requires Inv(s) && s.stage.Polling?
    ensures NeverLost(s) <==> Covered(s)
  {
    if Covered(s) {
      forall run | Legal(s, run) && Exec(s, run).Next? && Exec(s, run).s.stage.Polling?
        ensures Covered(Exec(s, run).s)
      {
        ExecInv(s, run);
      }
    } else {
      assert Legal(s, []) && Exec(s, []) == Next(s);
    }
  }

  function Queues<F>(fs: seq<F>): seq<Event<F>> {
    if fs == [] then [] else [Queue(fs[0])] + Queues(fs[1..])
  }

  lemma Then<F>(s: Loop<F>, ev: Event<F>, rest: seq<Event<F>>)
    requires Enabled(s, ev) && Step(s, ev).Next? && Legal(Step(s, ev).s, rest)
    ensures Legal(s, [ev] + rest) && Exec(s, [ev] + rest) == Exec(Step(s, ev).s, rest)
  {
    assert ([ev] + rest)[0] == ev && ([ev] + rest)[1..] == rest;
  }

  /** A series of queueInLoop calls on the loop thread. */
  lemma {:induction false} QueueAll<F>(s: Loop<F>, fs: seq<F>)
    requires Inv(s) && (fs != [] ==> !s.stage.Polling?)
    ensures Legal(s, Queues(fs))
    ensures Exec(s, Queues(fs)) == Next(s.(pending := s.pending + fs, queued := s.queued + fs,
                                           counter := if s.calling then s.counter + |fs| else s.counter))
    ensures Inv(Exec(s, Queues(fs)).s) && (Safe(s) ==> Safe(Exec(s, Queues(fs)).s))
    decreases |fs|
  {
    if fs == [] {
      assert s.pending + fs == s.pending && s.queued + fs == s.queued;
    } else {
      StepInv(s, Queue(fs[0]));
      if Safe(s) { StepCovered(s, Queue(fs[0])); }
      var t := s.(pending := s.pending + [fs[0]], queued := s.queued + [fs[0]], counter := if s.calling then s.counter + 1 else s.counter);
      assert Step(s, Queue(fs[0])) == Next(t);
      hide Inv, Safe;
      QueueAll(t, fs[1..]);
      Then(s, Queue(fs[0]), Queues(fs[1..]));
      Regroup(s.pending, fs);
      Regroup(s.queued, fs);
    }
  }

  lemma Regroup<F>(a: seq<F>, fs: seq<F>)
    requires fs != []
    ensures a + [fs[0]] + fs[1..] == a + fs
  {
  }

  /**
   What the loop thread queues before loop() is there when loop() starts; from
   then on no interleaving polls over a waiting functor without a wakeup, exactly
   when there is nothing of the kind.
   */
  lemma NoLostWakeupIff<F(!new)>(pre: seq<F>)
    ensures Legal(Boot(), Queues(pre) + [Start]) && Exec(Boot(), Queues(pre) + [Start]) == Next(Entry(pre))
    ensures NeverLost(Entry(pre)) <==> pre == []
  {
    var s, start: seq<Event<F>> := Entry(pre).(stage := Starting), [Start];
    QueueAll(Boot(), pre);
    assert [] + pre == pre;
    assert start[1..] == [] && Legal(Entry(pre), start[1..]);
    assert Legal(s, start) && Exec(s, start) == Next(Entry(pre));
    Joined(Boot(), Queues(pre), start);
    NeverLostIffCovered(Entry(pre));
  }

  lemma {:induction false} Joined<F>(s: Loop<F>, a: seq<Event<F>>, b: seq<Event<F>>)
    requires Legal(s, a) && Exec(s, a).Next? && Legal(Exec(s, a).s, b)
    ensures Legal(s, a + b) && Exec(s, a + b) == Exec(Exec(s, a).s, b)
    decreases |a|
  {
    if a == [] {
      assert a + b == b;
    } else {
      assert (a + b)[0] == a[0] && (a + b)[1..] == a[1..] + b;
      Joined(Step(s, a[0]).s, a[1..], b);
    }
  }

  // ----- one doPendingFunctors call -----

  /** The rest of one functor phase. */
  predicate ToPhaseEnd<F>(run: seq<Event<F>>)
    decreases |run|
  {
    run != [] && if |run| == 1 then run[0].EndFunctors? else !run[0].EndFunctors? && ToPhaseEnd(run[1..])
  }

  lemma PhaseStep<F>(s: Loop<F>, ev: Event<F>)
    requires Inv(s) && s.stage.Functors? && Enabled(s, ev)
    ensures Step(s, ev).Next? && Inv(Step(s, ev).s)
    ensures var t := Step(s, ev).s;
            && (if ev.EndFunctors? then t.stage.Polling? && s.batch == [] else t.stage.Functors?)
            && t.executed + t.batch == s.executed + s.batch && t.pending == s.pending + QueuedBy(ev)
            && |s.batch| == |t.batch| + if ev.RunFunctor? then 1 else 0
  {
    StepInv(s, ev);
    if ev.RunFunctor? { assert s.batch == [s.batch[0]] + s.batch[1..]; }
  }

  lemma {:induction false} PhaseRuns<F>(s: Loop<F>, run: seq<Event<F>>)
    requires Inv(s) && s.stage.Functors? && Legal(s, run) && ToPhaseEnd(run)
    ensures Exec(s, run).Next? && Runs(run) == |s.batch|
    ensures var t := Exec(s, run).s;
            t.stage.Polling? && t.executed == s.executed + s.batch && t.pending == s.pending + Queued(run)
    decreases |run|
  {
    hide Step, Enabled, Inv, QueuedBy;
    PhaseStep(s, run[0]);
    var t := Step(s, run[0]).s;
    if |run| == 1 {
      assert run[1..] == [];
      assert Exec(t, run[1..]) == Next(t);
      assert t.batch == [];
    } else {
      PhaseRuns(t, run[1..]);
    }
  }

  /**
   One doPendingFunctors call executes exactly what was pending when it swapped:
   that many turns, however much is queued meanwhile, and the rest waits for the
   next iteration with a wakeup already written.
   */
  lemma OnePhase<F>(s: Loop<F>, run: seq<Event<F>>)
    requires Inv(s) && Enabled(s, Swap) && Legal(s, [Swap] + run) && ToPhaseEnd(run)
    ensures Exec(s, [Swap] + run).Next? && Runs(run) == |s.pending|
    ensures var t := Exec(s, [Swap] + run).s;
            && t.executed == s.executed + s.pending && t.pending == Queued(run) && t.batch == []
            && (t.pending != [] ==> t.counter > 0 || t.waking != {})
  {
    var s1 := Step(s, Swap).s;
    assert ([Swap] + run)[1..] == run;
    StepInv(s, Swap);
    PhaseRuns(s1, run);
    ExecInv(s1, run);
  }

  lemma {:induction false} ExecConcat<F>(s: Loop<F>, a: seq<Event<F>>, b: seq<Event<F>>)
    requires Legal(s, a + b)
    ensures Legal(s, a)
    ensures Exec(s, a).Next? ==> Legal(Exec(s, a).s, b) && Exec(s, a + b) == Exec(Exec(s, a).s, b)
    decreases |a|
  {
    if a == [] {
      assert a + b == b;
    } else {
      assert (a + b)[0] == a[0] && (a + b)[1..] == a[1..] + b;
      if Step(s, a[0]).Next? { ExecConcat(Step(s, a[0]).s, a[1..], b); }
    }
  }
}
