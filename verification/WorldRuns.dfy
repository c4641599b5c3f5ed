/** Every run of the whole loop. */
module WorldRuns {
  import PollerSpec
  import opened WorldSpec
  import opened WorldInvariant
  import R = ReactorSpec
  import ReactorInvariant
  import ReactorRuns
  import ReactorLoop
  import T = TimerSpec
  import TimerInvariant
  import TimerRuns
  import L = LoopSpec
  import LoopRuns
  import LoopTiming

  /** The three ways of dying that are left: of the connections, a socket error; of the timers, the assert on the pivot. */
  ghost predicate Survives(o: Outcome) {
    match o
    case Next(w) => Inv(w)
    case Died(why) => why == OfConnections(R.SocketError) || why == OfTimers(T.Assert120)
  }

  /** No machine meets an event it has no step for, and only those two deaths are left. */
  lemma StepInv(w: World, ev: Event)
    requires Inv(w) && Enabled(w, ev)
    ensures Survives(Step(w, ev))
  {
    hide *;
    SysStep(w, ev);
    TimerStep(w, ev);
    StepIs(w, ev);
    var s, q := R.Exec(w.sys, SysMoves(w, ev)), T.Exec(w.timers, TimerMoves(w, ev));
    if s.Next? && q.Ok? {
      LoopStep(w, ev, s.s);
      TiesKept(w, ev, s.s, q.q, L.Exec(w.loop, LoopMoves(w, ev, s.s)).s);
    }
    Survival(Step(w, ev));
  }

  lemma Survival(o: Outcome)
    ensures o.Next? && Inv(o.w) ==> Survives(o)
    ensures o == Died(OfConnections(R.SocketError)) || o == Died(OfTimers(T.Assert120)) ==> Survives(o)
  {
    hide Inv;
  }

  lemma StepIs(w: World, ev: Event)
    requires Enabled(w, ev) && SameHead(w, ev) && R.Legal(w.sys, SysMoves(w, ev)) && T.Legal(w.timers, TimerMoves(w, ev))
    ensures var s, q := R.Exec(w.sys, SysMoves(w, ev)), T.Exec(w.timers, TimerMoves(w, ev));
            && (s.Died? ==> Step(w, ev) == Died(OfConnections(s.why)))
            && (s.Next? && q.Crash? ==> Step(w, ev) == Died(OfTimers(q.why)))
            && (s.Next? && q.Ok? && L.Legal(w.loop, LoopMoves(w, ev, s.s)) && L.Exec(w.loop, LoopMoves(w, ev, s.s)).Next? ==>
                  Step(w, ev) == Next(After(w, ev, s.s, q.q, L.Exec(w.loop, LoopMoves(w, ev, s.s)).s)))
  {
    hide Enabled, SameHead, R.Legal, T.Legal, L.Legal, R.Exec, T.Exec, L.Exec, SysMoves, TimerMoves, LoopMoves, After;
  }

  lemma TiesKept(w: World, ev: Event, t: R.Sys, q: T.Queue, l: L.Loop<Item>)
    requires Inv(w) && Enabled(w, ev) && SameHead(w, ev)
    requires SysMoved(w, ev, t) && TimersMoved(w, ev, q) && LoopMoved(w, ev, t, l)
    requires ReactorInvariant.SysInv(t) && TimerInvariant.Inv(q) && LoopRuns.Inv(l)
    ensures Inv(After(w, ev, t, q, l))
  {
    TiedStep(w, ev, t, q, l);
    DeliveringStep(w, ev, t, q, l);
    TimelyStep(w, ev, t, q, l);
    hide Enabled, SysMoved, TimersMoved, LoopMoved, Tied, Delivering, Timely, ReactorInvariant.SysInv, TimerInvariant.Inv, LoopRuns.Inv;
  }

  lemma {:induction false} ExecInv(w: World, run: seq<Event>)
    requires Inv(w) && Legal(w, run)
    ensures Survives(Exec(w, run))
    decreases |run|
  {
    hide Inv, Step, Enabled;
    if run != [] {
      StepInv(w, run[0]);
      if Step(w, run[0]).Next? { ExecInv(Step(w, run[0]).w, run[1..]); }
    }
  }

  /**
   Handlers, timer callbacks, functors and other threads together: a run ends only
   by a failing socket call or by the assert on the batch pivot.
   */
  lemma RunsAreSafe(run: seq<Event>)
    requires Legal(BOOT, run)
    ensures Exec(BOOT, run).Next? ==> Inv(Exec(BOOT, run).w)
    ensures Exec(BOOT, run).Died? ==> Exec(BOOT, run).why in {OfConnections(R.SocketError), OfTimers(T.Assert120)}
  {
    BootInv();
    ExecInv(BOOT, run);
    hide Legal, Exec, Inv;
  }

  // ----- with an allocator that stays below the sentinel -----

  predicate LowAddress(ev: Event) {
    ev.Timer? && (ev.t.Add? || ev.t.Post?) ==> ev.t.addr < T.SENTINEL
  }

  lemma LowMoves(w: World, ev: Event)
    requires LowAddress(ev)
    ensures TimerRuns.LowAddresses(TimerMoves(w, ev))
  {
  }

  lemma StepLow(w: World, ev: Event)
    requires Inv(w) && Enabled(w, ev) && TimerRuns.LowHeap(w.timers) && LowAddress(ev)
    ensures Step(w, ev).Died? ==> Step(w, ev).why == OfConnections(R.SocketError)
    ensures Step(w, ev).Next? ==> Inv(Step(w, ev).w) && TimerRuns.LowHeap(Step(w, ev).w.timers)
  {
    hide *;
    SysStep(w, ev);
    TimerStep(w, ev);
    LowMoves(w, ev);
    TimersFit(w);
    TimerRuns.LowAddressRunsNeverAbort(w.timers, TimerMoves(w, ev));
    StepIs(w, ev);
    var s, q := R.Exec(w.sys, SysMoves(w, ev)), T.Exec(w.timers, TimerMoves(w, ev));
    if s.Next? {
      LoopStep(w, ev, s.s);
      var l := L.Exec(w.loop, LoopMoves(w, ev, s.s)).s;
      TiesKept(w, ev, s.s, q.q, l);
      AfterTimers(w, ev, s.s, q.q, l);
    }
  }

  lemma TimersFit(w: World)
    requires Inv(w)
    ensures TimerInvariant.Inv(w.timers)
  {
    hide TimerInvariant.Inv;
  }

  lemma {:induction false} ExecLow(w: World, run: seq<Event>)
    requires Inv(w) && TimerRuns.LowHeap(w.timers) && Legal(w, run) && forall ev :: ev in run ==> LowAddress(ev)
    ensures Exec(w, run).Died? ==> Exec(w, run).why == OfConnections(R.SocketError)
    decreases |run|
  {
    hide Inv, Step, Enabled, TimerRuns.LowHeap, LowAddress;
    if run != [] {
      assert run[0] in run;
      StepLow(w, run[0]);
      if Step(w, run[0]).Next? { ExecLow(Step(w, run[0]).w, run[1..]); }
    }
  }

  /** Then only a failing socket call ends a run. */
  lemma LowRunsEndBySocketErrors(run: seq<Event>)
    requires Legal(BOOT, run) && forall ev :: ev in run ==> LowAddress(ev)
    ensures Exec(BOOT, run).Died? ==> Exec(BOOT, run).why == OfConnections(R.SocketError)
  {
    BootInv();
    ExecLow(BOOT, run);
    hide Legal, Exec, Inv, LowAddress;
  }

  // ----- the machines' own runs -----

  ghost function SysRun(w: World, run: seq<Event>): seq<R.Event>
    requires Legal(w, run)
    decreases |run|
  {
    if run == [] then [] else SysMoves(w, run[0]) + if Step(w, run[0]).Next? then SysRun(Step(w, run[0]).w, run[1..]) else []
  }

  ghost function TimerRun(w: World, run: seq<Event>): seq<T.Event>
    requires Legal(w, run)
    decreases |run|
  {
    if run == [] then [] else TimerMoves(w, run[0]) + if Step(w, run[0]).Next? then TimerRun(Step(w, run[0]).w, run[1..]) else []
  }

  ghost function LoopRun(w: World, run: seq<Event>): seq<L.Event<Item>>
    requires Legal(w, run)
    decreases |run|
  {
    if run == [] || Step(w, run[0]).Died? then []
    else LoopMoves(w, run[0], Step(w, run[0]).w.sys) + LoopRun(Step(w, run[0]).w, run[1..])
  }

  lemma {:induction false} SysJoined(s: R.Sys, a: seq<R.Event>, b: seq<R.Event>)
    requires R.Legal(s, a) && R.Exec(s, a).Next? && R.Legal(R.Exec(s, a).s, b)
    ensures R.Legal(s, a + b) && R.Exec(s, a + b) == R.Exec(R.Exec(s, a).s, b)
    decreases |a|
  {
    hide R.Enabled, R.Step;
    if a == [] {
      assert a + b == b;
    } else {
      assert (a + b)[0] == a[0] && (a + b)[1..] == a[1..] + b;
      SysJoined(R.Step(s, a[0]).s, a[1..], b);
    }
  }

  lemma {:induction false} TimersJoined(q: T.Queue, a: seq<T.Event>, b: seq<T.Event>)
    requires T.Legal(q, a) && T.Exec(q, a).Ok? && T.Legal(T.Exec(q, a).q, b)
    ensures T.Legal(q, a + b) && T.Exec(q, a + b) == T.Exec(T.Exec(q, a).q, b)
    decreases |a|
  {
    hide T.Enabled, T.Step;
    if a == [] {
      assert a + b == b;
    } else {
      assert (a + b)[0] == a[0] && (a + b)[1..] == a[1..] + b;
      TimersJoined(T.Step(q, a[0]).q, a[1..], b);
    }
  }

  ghost predicate StepsApart(w: World, ev: Event, t: World) {
    && R.Legal(w.sys, SysMoves(w, ev)) && R.Exec(w.sys, SysMoves(w, ev)) == R.Next(t.sys)
    && T.Legal(w.timers, TimerMoves(w, ev)) && T.Exec(w.timers, TimerMoves(w, ev)) == T.Ok(t.timers)
    && L.Legal(w.loop, LoopMoves(w, ev, t.sys)) && L.Exec(w.loop, LoopMoves(w, ev, t.sys)) == L.Next(t.loop)
  }

  lemma StepApart(w: World, ev: Event)
    requires Enabled(w, ev) && Step(w, ev).Next?
    ensures StepsApart(w, ev, Step(w, ev).w)
    ensures Step(w, ev).w == After(w, ev, Step(w, ev).w.sys, Step(w, ev).w.timers, Step(w, ev).w.loop)
  {
    hide Enabled, SameHead, R.Legal, T.Legal, L.Legal, R.Exec, T.Exec, L.Exec, SysMoves, TimerMoves, LoopMoves, PostedAfter, NowAfter;
  }

  /** What a run of the whole loop does to each machine is a legal run of that machine. */
  lemma {:induction false} RunsApart(w: World, run: seq<Event>)
    requires Legal(w, run) && Exec(w, run).Next?
    ensures var t := Exec(w, run).w;
            && R.Legal(w.sys, SysRun(w, run)) && R.Exec(w.sys, SysRun(w, run)) == R.Next(t.sys)
            && T.Legal(w.timers, TimerRun(w, run)) && T.Exec(w.timers, TimerRun(w, run)) == T.Ok(t.timers)
            && L.Legal(w.loop, LoopRun(w, run)) && L.Exec(w.loop, LoopRun(w, run)) == L.Next(t.loop)
    decreases |run|
  {
    if run != [] {
      var ev, t := run[0], Step(w, run[0]).w;
      StepApart(w, ev);
      RunsApart(t, run[1..]);
      SysJoined(w.sys, SysMoves(w, ev), SysRun(t, run[1..]));
      TimersJoined(w.timers, TimerMoves(w, ev), TimerRun(t, run[1..]));
      LoopRuns.Joined(w.loop, LoopMoves(w, ev, t.sys), LoopRun(t, run[1..]));
      hide Enabled, Step, R.Legal, T.Legal, L.Legal, R.Exec, T.Exec, L.Exec, SysMoves, TimerMoves, LoopMoves;
    }
  }

  /**
   In every run from start-up: whatever holds of the connections in every
   reachable state holds here; a timer whose functor is still to come is either
   in its thread's hands or queued once; and no shot came before its deadline by
   the clock.
   */
  lemma EveryWorld(run: seq<Event>)
    requires Legal(BOOT, run) && Exec(BOOT, run).Next?
    ensures var w := Exec(BOOT, run).w;
            && ReactorRuns.Reachable(w.sys)
            && (forall a :: a in w.timers.inbox <==> a in w.posted || Copies(w.loop, Arrival(a)) == 1)
            && (forall a :: Copies(w.loop, Arrival(a)) <= 1 && (a in w.posted ==> Copies(w.loop, Arrival(a)) == 0))
            && (forall x :: x in w.timers.fired ==> x.due <= x.now <= w.clock)
  {
    RunsAreSafe(run);
    RunsApart(BOOT, run);
    var w := Exec(BOOT, run).w;
    assert R.Legal(R.BOOT, SysRun(BOOT, run)) && R.Exec(R.BOOT, SysRun(BOOT, run)) == R.Next(w.sys);
    hide Legal, Exec, R.Legal, R.Exec, Tied, ReactorInvariant.SysInv, LoopRuns.Inv;
  }

  /** The time runTimer is given is the clock's if a timer with a valid deadline was first in the queue at the poll, and the last one otherwise. */
  lemma PollSamples(w: World, ev: Event)
    requires Inv(w) && Enabled(w, ev) && Step(w, ev).Next?
    ensures var t := Step(w, ev).w;
            t.now == if ev.Poll? && w.timers.timers != [] && (forall e :: e in w.timers.timers ==> e.when > 0) then ev.clock else w.now
    ensures ev.Timer? && ev.t.Begin? ==> ev.t.now == w.now && !w.ranTimers && Step(w, ev).w.ranTimers
  {
    hide *;
    StepApart(w, ev);
    FirstIsLeast(w);
    Sampled(w, ev, Step(w, ev).w.sys, Step(w, ev).w.timers, Step(w, ev).w.loop);
  }

  lemma FirstIsLeast(w: World)
    requires Inv(w)
    ensures T.Sorted(w.timers.timers)
  {
    hide Tied, Delivering, Timely, ReactorInvariant.SysInv, LoopRuns.Inv;
  }

  lemma Sampled(w: World, ev: Event, s: R.Sys, q: T.Queue, l: L.Loop<Item>)
    requires Enabled(w, ev) && T.Sorted(w.timers.timers)
    ensures var t := After(w, ev, s, q, l);
            t.now == if ev.Poll? && w.timers.timers != [] && (forall e :: e in w.timers.timers ==> e.when > 0) then ev.clock else w.now
    ensures ev.Timer? && ev.t.Begin? ==> ev.t.now == w.now && !w.ranTimers && After(w, ev, s, q, l).ranTimers
  {
    var timers := w.timers.timers;
    hide R.Enabled, R.Reports;
    if timers != [] {
      assert timers[0] in timers;
      forall e | e in timers ensures timers[0].when <= e.when { LoopTiming.NearestIsMinimum(timers, e); }
    }
  }

  // ----- cancelling from other threads -----

  /** pendingFunctors_ behind what is left of the batch. */
  function Line(w: World): seq<Item> {
    w.loop.batch + w.loop.pending
  }

  /** The timer at this address is number `id`. */
  predicate Names(q: T.Queue, a: T.Addr, id: nat) {
    a in q.heap && q.heap[a].id == id
  }

  /** addTimer has returned: the timer's functor is queued, or has run. */
  ghost predicate HasReturned(w: World, id: nat) {
    1 <= id <= w.timers.lastId && forall a :: a in w.posted ==> !Names(w.timers, a, id)
  }

  /** No cancel is queued ahead of the add. */
  ghost predicate AddFirst(w: World, id: nat) {
    forall i, j :: 0 <= i < j < |Line(w)| && Line(w)[i] == Cancelling(id) && Line(w)[j].Arrival? ==> !Names(w.timers, Line(w)[j].addr, id)
  }

  lemma CancelNames(q: T.Queue, id: nat)
    requires T.CancelStep(q, id).Ok?
    ensures var t := T.CancelStep(q, id).q; t.lastId == q.lastId && forall a :: a in t.heap ==> a in q.heap && t.heap[a] == q.heap[a]
  {
    hide T.Erase, T.Found;
  }

  lemma BeginNames(q: T.Queue, now: int)
    requires T.BeginStep(q, now).Ok?
    ensures var t := T.BeginStep(q, now).q; t.lastId == q.lastId && t.heap == q.heap
  {
    hide T.LowerBound, T.Snapshot, T.IdsOf;
  }

  lemma RearmNames(q: T.Queue)
    requires T.Enabled(q, T.Rearm) && T.RearmStep(q).Ok?
    ensures var t := T.RearmStep(q).q; t.lastId == q.lastId && forall a :: a in t.heap ==> a in q.heap && t.heap[a].id == q.heap[a].id
  {
    hide T.Insert;
  }

  lemma TriggerNames(q: T.Queue)
    requires T.Enabled(q, T.Trigger) && T.TriggerStep(q).Ok?
    ensures var t := T.TriggerStep(q).q; t.lastId == q.lastId && t.heap == q.heap
  {
  }

  /** Ids are not given out again. */
  lemma NamesBefore(q: T.Queue, e: T.Event, a: T.Addr, id: nat)
    requires T.Enabled(q, e) && T.Step(q, e).Ok? && 1 <= id <= q.lastId
    ensures q.lastId <= T.Step(q, e).q.lastId && (Names(T.Step(q, e).q, a, id) ==> Names(q, a, id))
  {
    match e
    case Cancel(k) => CancelNames(q, k); hide T.CancelStep;
    case Begin(now) => BeginNames(q, now); hide T.BeginStep;
    case Trigger => TriggerNames(q); hide T.TriggerStep;
    case Rearm => RearmNames(q); hide T.RearmStep;
    case _ => hide T.Insert;
  }

  lemma Moved(w: World, ev: Event)
    requires Inv(w) && Enabled(w, ev) && Step(w, ev).Next?
    ensures var t := Step(w, ev).w;
            && Inv(t) && SysMoved(w, ev, t.sys) && LoopMoved(w, ev, t.sys, t.loop) && t.posted == PostedAfter(w, ev)
  {
    hide *;
    StepApart(w, ev);
    SysStep(w, ev);
    Parted(w, ev, Step(w, ev).w);
    LoopStep(w, ev, Step(w, ev).w.sys);
    StepInv(w, ev);
    Survived(Step(w, ev));
  }

  lemma Parted(w: World, ev: Event, t: World)
    requires StepsApart(w, ev, t)
    ensures R.Legal(w.sys, SysMoves(w, ev)) && R.Exec(w.sys, SysMoves(w, ev)) == R.Next(t.sys)
    ensures L.Legal(w.loop, LoopMoves(w, ev, t.sys)) && L.Exec(w.loop, LoopMoves(w, ev, t.sys)) == L.Next(t.loop)
    ensures T.Legal(w.timers, TimerMoves(w, ev)) && T.Exec(w.timers, TimerMoves(w, ev)) == T.Ok(t.timers)
    ensures After(w, ev, t.sys, t.timers, t.loop).posted == PostedAfter(w, ev)
  {
    hide SysMoves, TimerMoves, LoopMoves, R.Legal, R.Exec, L.Legal, L.Exec, T.Legal, T.Exec, PostedAfter, NowAfter;
  }

  lemma Survived(o: Outcome)
    requires Survives(o) && o.Next?
    ensures Inv(o.w)
  {
    hide Inv;
  }

  lemma TimersKnow(w: World, ev: Event, a: T.Addr, id: nat)
    requires Inv(w) && Enabled(w, ev) && Step(w, ev).Next? && 1 <= id <= w.timers.lastId
    ensures var t := Step(w, ev).w; w.timers.lastId <= t.timers.lastId && (Names(t.timers, a, id) ==> Names(w.timers, a, id))
  {
    StepApart(w, ev);
    TimerReady(w, ev);
    hide Enabled, Step, Tied, Delivering, Timely, ReactorInvariant.SysInv, LoopRuns.Inv, TimerInvariant.Inv, TimerMoves, SysMoves, LoopMoves;
    var moves := TimerMoves(w, ev);
    if moves != [] {
      assert moves[0] in moves;
      OneTimerStep(w.timers, moves[0]);
      NamesBefore(w.timers, moves[0], a, id);
    }
  }

  lemma LineStep(w: World, ev: Event, t: World)
    requires Inv(w) && Enabled(w, ev) && LoopMoved(w, ev, t.sys, t.loop)
    ensures ev.RunItem? ==> Line(w) != []
    ensures Line(t) == (if ev.RunItem? then Line(w)[1..] else Line(w)) + Added(w, ev, t.sys)
  {
    if ev.Swap? { SwapsAll(w); }
    LineMoves(w, ev, t);
  }

  lemma LineMoves(w: World, ev: Event, t: World)
    requires LoopMoved(w, ev, t.sys, t.loop) && (ev.Swap? ==> w.loop.batch == []) && (ev.RunItem? ==> w.loop.batch != [])
    ensures Line(t) == (if ev.RunItem? then Line(w)[1..] else Line(w)) + Added(w, ev, t.sys)
  {
    hide ReactorRuns.NewTasks;
    if ev.Swap? {
      assert Added(w, ev, t.sys) == [];
    }
    hide Added;
    if ev.RunItem? { assert Line(w)[1..] == w.loop.batch[1..] + w.loop.pending; }
  }

  /** The only add ever queued is one its thread still had in hand. */
  lemma AddedArrivals(w: World, ev: Event, t: World, j: nat)
    requires Enabled(w, ev) && j < |Added(w, ev, t.sys)| && Added(w, ev, t.sys)[j].Arrival?
    ensures Added(w, ev, t.sys)[j].addr in w.posted
  {
    OwnsMine(ReactorRuns.NewTasks(w.sys, t.sys));
    assert Added(w, ev, t.sys)[j] in Added(w, ev, t.sys);
    hide R.Enabled, R.Reports;
  }

  lemma ReturnedStep(w: World, ev: Event, id: nat)
    requires Inv(w) && Enabled(w, ev) && Step(w, ev).Next? && HasReturned(w, id)
    ensures HasReturned(Step(w, ev).w, id)
  {
    var t := Step(w, ev).w;
    Moved(w, ev);
    TimersKnow(w, ev, 0, id);
    forall a | a in t.posted ensures !Names(t.timers, a, id) {
      TimersKnow(w, ev, a, id);
      PostedOnes(w, ev, a);
      hide Inv, Enabled, Step, SysMoved, LoopMoved, PostedAfter;
    }
  }

  lemma PostedOnes(w: World, ev: Event, a: T.Addr)
    requires Enabled(w, ev) && a in PostedAfter(w, ev)
    ensures a in w.posted || a !in w.timers.heap
  {
    hide R.Enabled, R.Reports;
  }

  ghost predicate CancelAhead(w: World, id: nat, i: nat, j: nat) {
    i < j < |Line(w)| && Line(w)[i] == Cancelling(id) && Line(w)[j].Arrival? && Names(w.timers, Line(w)[j].addr, id)
  }

  lemma AddFirstStep(w: World, ev: Event, id: nat)
    requires Inv(w) && Enabled(w, ev) && Step(w, ev).Next? && HasReturned(w, id) && AddFirst(w, id)
    ensures AddFirst(Step(w, ev).w, id)
  {
    hide *;
    Moved(w, ev);
    LineStep(w, ev, Step(w, ev).w);
    forall i: nat, j: nat ensures !CancelAhead(Step(w, ev).w, id, i, j) {
      if CancelAhead(Step(w, ev).w, id, i, j) { PairKept(w, ev, Step(w, ev).w, id, i, j); }
    }
    NoneAhead(Step(w, ev).w, id);
  }

  lemma NoneAhead(w: World, id: nat)
    requires forall i: nat, j: nat :: !CancelAhead(w, id, i, j)
    ensures AddFirst(w, id)
  {
    hide Names, Line;
    forall i, j | 0 <= i < j < |Line(w)| && Line(w)[i] == Cancelling(id) && Line(w)[j].Arrival? ensures !Names(w.timers, Line(w)[j].addr, id) {
      assert !CancelAhead(w, id, i, j);
    }
  }

  lemma PairKept(w: World, ev: Event, t: World, id: nat, i: nat, j: nat)
    requires Inv(w) && Enabled(w, ev) && Step(w, ev) == Next(t) && HasReturned(w, id) && AddFirst(w, id)
    requires ev.RunItem? ==> Line(w) != []
    requires Line(t) == (if ev.RunItem? then Line(w)[1..] else Line(w)) + Added(w, ev, t.sys)
    ensures !CancelAhead(t, id, i, j)
  {
    hide *;
    ghost var d, line, added := if ev.RunItem? then 1 else 0, Line(w), Added(w, ev, t.sys);
    assert line[0..] == line;
    if CancelAhead(t, id, i, j) {
      AheadIs(t, id, i, j);
      var a := Line(t)[j].addr;
      KnownId(w, id);
      TimersKnow(w, ev, a, id);
      Places(line, d, added, i, j);
      if j >= |line| - d {
        AddedArrivals(w, ev, t, j - (|line| - d));
        NotNamed(w, id, a);
      } else {
        NotAhead(w, id, i + d, j + d);
      }
    }
  }

  lemma AheadIs(w: World, id: nat, i: nat, j: nat)
    requires CancelAhead(w, id, i, j)
    ensures i < j < |Line(w)| && Line(w)[i] == Cancelling(id) && Line(w)[j].Arrival? && Names(w.timers, Line(w)[j].addr, id)
  {
  }

  lemma KnownId(w: World, id: nat)
    requires HasReturned(w, id)
    ensures 1 <= id <= w.timers.lastId
  {
  }

  lemma NotNamed(w: World, id: nat, a: T.Addr)
    requires HasReturned(w, id) && a in w.posted
    ensures !Names(w.timers, a, id)
  {
  }

  lemma NotAhead(w: World, id: nat, i: nat, j: nat)
    requires AddFirst(w, id) && i < j < |Line(w)| && Line(w)[i] == Cancelling(id) && Line(w)[j].Arrival?
    ensures !Names(w.timers, Line(w)[j].addr, id)
  {
  }

  /** What stands where when the line moves up by `d` and grows. */
  lemma Places(line: seq<Item>, d: nat, added: seq<Item>, i: nat, j: nat)
    requires d <= |line| && i < j < |line[d..] + added|
    ensures j < |line| - d ==> (line[d..] + added)[i] == line[i + d] && (line[d..] + added)[j] == line[j + d]
    ensures j >= |line| - d ==> (line[d..] + added)[j] == added[j - (|line| - d)]
  {
  }

  lemma {:induction false} RunKeepsOrder(w: World, run: seq<Event>, id: nat)
    requires Inv(w) && HasReturned(w, id) && AddFirst(w, id) && Legal(w, run) && Exec(w, run).Next?
    ensures var v := Exec(w, run).w; Inv(v) && HasReturned(v, id) && AddFirst(v, id)
    decreases |run|
  {
    hide Inv, Enabled, Step, HasReturned, AddFirst;
    if run != [] {
      Moved(w, run[0]);
      ReturnedStep(w, run[0], id);
      AddFirstStep(w, run[0], id);
      RunKeepsOrder(Step(w, run[0]).w, run[1..], id);
    }
  }

  /** By the time a cancel queued behind the add runs, the add has run. */
  lemma HasArrived(v: World, id: nat)
    requires Inv(v) && HasReturned(v, id) && AddFirst(v, id) && v.loop.batch != [] && v.loop.batch[0] == Cancelling(id)
    ensures !TimerRuns.InInbox(v.timers, id)
  {
    hide Tied, Timely, ReactorInvariant.SysInv, TimerInvariant.Inv, LoopRuns.Inv;
    if TimerRuns.InInbox(v.timers, id) {
      var a :| a in v.timers.inbox && a in v.timers.heap && v.timers.heap[a].id == id;
      NotWaiting(v, id, a);
    }
  }

  lemma NotWaiting(v: World, id: nat, a: T.Addr)
    requires Delivering(v) && a in v.timers.inbox && Names(v.timers, a, id) && HasReturned(v, id)
    requires v.loop.batch != [] && v.loop.batch[0] == Cancelling(id)
    ensures !AddFirst(v, id)
  {
    assert a !in v.posted && Copies(v.loop, Arrival(a)) == 1;
    assert multiset(Line(v)) == multiset(v.loop.batch) + multiset(v.loop.pending);
    assert Arrival(a) in Line(v);
    var j :| 0 <= j < |Line(v)| && Line(v)[j] == Arrival(a);
    assert Line(v)[0] == Cancelling(id);
  }

  /** The timer is gone, and no continuation fires or indexes it. */
  ghost predicate NeverAgain(u: World, id: nat) {
    && id in u.timers.freed
    && forall rest :: Legal(u, rest) && Exec(u, rest).Next? ==> StillGone(u.timers, Exec(u, rest).w.timers, id)
  }

  ghost predicate StillGone(q: T.Queue, t: T.Queue, id: nat) {
    TimerRuns.Times(t.fired, id) <= TimerRuns.Times(q.fired, id) && id !in t.active
  }

  ghost predicate CancelIsNext(v: World, id: nat) {
    v.loop.batch != [] && v.loop.batch[0] == Cancelling(id) && Enabled(v, RunItem)
  }

  ghost predicate CancelsForGood(v: World, id: nat)
    requires CancelIsNext(v, id)
  {
    Step(v, RunItem).Next? && NeverAgain(Step(v, RunItem).w, id)
  }

  /**
   addTimer on any thread has returned `id`, and no cancel was queued ahead of it.
   Then whenever cancelTimerInLoop(id), queued by whatever thread, is run, the
   timer is freed, and never fires again.
   */
  lemma CancelTakesHold(w: World, run: seq<Event>, v: World, id: nat)
    requires Inv(w) && HasReturned(w, id) && AddFirst(w, id) && Legal(w, run) && Exec(w, run) == Next(v)
    requires CancelIsNext(v, id)
    ensures CancelsForGood(v, id)
  {
    hide *;
    RunKeepsOrder(w, run, id);
    IsNext(v, id);
    HasArrived(v, id);
    KnownId(v, id);
    CancelRuns(v, id);
    var u := Step(v, RunItem).w;
    forall rest | Legal(u, rest) && Exec(u, rest).Next? ensures StillGone(u.timers, Exec(u, rest).w.timers, id) {
      RunsApart(u, rest);
      FreedStaysGone(u.timers, TimerRun(u, rest), id);
    }
    GoneForGood(u, id);
    ForGood(v, id);
  }

  lemma ForGood(v: World, id: nat)
    requires CancelIsNext(v, id) && Step(v, RunItem).Next? && NeverAgain(Step(v, RunItem).w, id)
    ensures CancelsForGood(v, id)
  {
    hide Enabled, Step, NeverAgain;
  }

  lemma GoneForGood(u: World, id: nat)
    requires id in u.timers.freed
    requires forall rest :: Legal(u, rest) && Exec(u, rest).Next? ==> StillGone(u.timers, Exec(u, rest).w.timers, id)
    ensures NeverAgain(u, id)
  {
    hide Legal, Exec, StillGone;
  }

  lemma IsNext(v: World, id: nat)
    requires CancelIsNext(v, id)
    ensures v.loop.batch != [] && v.loop.batch[0] == Cancelling(id) && Enabled(v, RunItem)
  {
    hide Enabled;
  }

  /** The functor cancelTimerInLoop. */
  lemma CancelRuns(v: World, id: nat)
    requires Inv(v) && CancelIsNext(v, id)
    requires 1 <= id <= v.timers.lastId && !TimerRuns.InInbox(v.timers, id)
    ensures Step(v, RunItem).Next?
    ensures var q := Step(v, RunItem).w.timers; TimerInvariant.Inv(q) && q.stage.Idle? && id in q.freed
  {
    hide *;
    IsNext(v, id);
    CancelMoves(v, id);
    SysStep(v, RunItem);
    TimerReady(v, RunItem);
    assert TimerMoves(v, RunItem)[0] in TimerMoves(v, RunItem);
    OneTimerStep(v.timers, T.Cancel(id));
    CancelFrees(v.timers, id);
    StepIs(v, RunItem);
    LoopStep(v, RunItem, v.sys);
    AfterTimers(v, RunItem, v.sys, T.CancelStep(v.timers, id).q, L.Exec(v.loop, LoopMoves(v, RunItem, v.sys)).s);
  }

  lemma AfterTimers(w: World, ev: Event, s: R.Sys, q: T.Queue, l: L.Loop<Item>)
    ensures After(w, ev, s, q, l).timers == q
  {
    hide PostedAfter, NowAfter;
  }

  lemma CancelMoves(v: World, id: nat)
    requires Inv(v) && CancelIsNext(v, id)
    ensures SysMoves(v, RunItem) == [] && R.Exec(v.sys, []) == R.Next(v.sys) && TimerMoves(v, RunItem) == [T.Cancel(id)]
    ensures TimerInvariant.Inv(v.timers) && v.timers.stage.Idle?
  {
    hide Delivering, Timely, ReactorInvariant.SysInv, TimerInvariant.Inv, LoopRuns.Inv, Owns;
  }

  lemma CancelFrees(q: T.Queue, id: nat)
    requires TimerInvariant.Inv(q) && q.stage.Idle? && 1 <= id <= q.lastId && !TimerRuns.InInbox(q, id)
    ensures T.Enabled(q, T.Cancel(id)) && T.Step(q, T.Cancel(id)) == T.CancelStep(q, id)
    ensures T.CancelStep(q, id).Ok?
    ensures var t := T.CancelStep(q, id).q; TimerInvariant.Inv(t) && t.stage.Idle? && id in t.freed
  {
    TimerRuns.CancelHoldsIff(q, id);
    TimerRuns.StepInv(q, T.Cancel(id));
    TimerRuns.QuietStep(q, T.Cancel(id));
    hide TimerInvariant.Inv, T.CancelStep;
  }

  lemma FreedStaysGone(q: T.Queue, run: seq<T.Event>, id: nat)
    requires TimerInvariant.Inv(q) && q.stage.Idle? && id in q.freed && T.Legal(q, run) && T.Exec(q, run).Ok?
    ensures StillGone(q, T.Exec(q, run).q, id)
  {
    hide TimerInvariant.Inv, T.Legal, T.Exec, TimerRuns.Times;
    TimerRuns.DoomedRun(q, run, id);
    TimerRuns.DoomedIsInactive(T.Exec(q, run).q, id);
  }
}
