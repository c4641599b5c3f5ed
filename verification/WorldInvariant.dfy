/** What every step of the whole loop keeps. */
module WorldInvariant {
  import PollerSpec
  import opened WorldSpec
  import R = ReactorSpec
  import ReactorInvariant
  import ReactorRuns
  import ReactorLoop
  import T = TimerSpec
  import TimerInvariant
  import TimerRuns
  import L = LoopSpec
  import LoopRuns

  function Owns(items: seq<Item>): seq<R.Task> {
    if items == [] then [] else (if items[0].Own? then [items[0].task] else []) + Owns(items[1..])
  }

  /** The machines are at the same point of the loop, and agree on the connections' functors. */
  ghost predicate Tied(w: World) {
    && Owns(w.loop.batch) == w.sys.batch && Owns(w.loop.pending) == w.sys.pending
    && (if w.loop.stage.Starting? then w.sys.phase.Polling? else w.loop.stage == ReactorLoop.StageOf(w.sys.phase))
    && (!w.timers.stage.Idle? ==> w.sys.phase.Dispatching?)
  }

  /** How often a functor is queued. */
  function Copies(l: L.Loop<Item>, x: Item): nat {
    multiset(l.batch)[x] + multiset(l.pending)[x]
  }

  /** A timer another thread allocated is in that thread's hands or in the queue, once, until it arrives. */
  ghost predicate Delivering(w: World) {
    forall a :: Copies(w.loop, Arrival(a)) + (if a in w.posted then 1 else 0) == if a in w.timers.inbox then 1 else 0
  }

  /** No shot lies in the clock's future. */
  ghost predicate Timely(w: World) {
    && w.now <= w.clock && (forall x :: x in w.timers.fired ==> x.now <= w.clock)
    && (!w.timers.stage.Idle? ==> w.timers.round.now <= w.clock)
  }

  ghost predicate Inv(w: World) {
    && ReactorInvariant.SysInv(w.sys) && TimerInvariant.Inv(w.timers) && LoopRuns.Inv(w.loop)
    && Tied(w) && Delivering(w) && Timely(w)
  }

  lemma BootInv()
    ensures Inv(BOOT)
  {
    ReactorInvariant.BootInv();
    TimerInvariant.EmptyInv();
  }

  // ----- the reactor's part -----

  /** How an event moves the reactor through the loop, and its functors. */
  ghost predicate SysMoved(w: World, ev: Event, t: R.Sys) {
    var s := w.sys;
    var fed := ReactorRuns.NewTasks(s, t);
    && (fed != [] ==> !s.phase.Polling?)
    && t.phase == (if ev.Poll? then R.Dispatching else if ev.Swap? then R.Functors else if ev.EndFunctors? then R.Polling else s.phase)
    && (ev.Swap? ==> t.batch == s.pending && t.pending == [])
    && (ev.RunItem? && w.loop.batch != [] && w.loop.batch[0].Own? ==> s.batch != [] && t.batch == s.batch[1..] && t.pending == s.pending + fed)
    && (!ev.Swap? && !(ev.RunItem? && w.loop.batch != [] && w.loop.batch[0].Own?) ==> t.batch == s.batch && t.pending == s.pending + fed)
    && (!ev.Conn? && !ev.RunItem? ==> fed == [] || ev.Swap?)
  }

  lemma OneStep(s: R.Sys, ev: R.Event)
    requires R.Enabled(s, ev)
    ensures R.Legal(s, [ev]) && R.Exec(s, [ev]) == R.Step(s, ev)
  {
    hide R.Enabled, R.Step;
    assert [ev][1..] == [];
    if R.Step(s, ev).Next? { assert R.Legal(R.Step(s, ev).s, []); }
  }

  lemma OwnsHead(items: seq<Item>)
    requires items != []
    ensures Owns(items) == (if items[0].Own? then [items[0].task] else []) + Owns(items[1..])
    ensures !items[0].Own? ==> Owns(items) == Owns(items[1..])
  {
  }

  lemma SysReady(w: World, ev: Event)
    requires Inv(w) && Enabled(w, ev)
    ensures SameHead(w, ev)
    ensures forall e :: e in SysMoves(w, ev) ==> SysMoves(w, ev) == [e] && R.Enabled(w.sys, e)
  {
    hide TimerInvariant.Inv, Delivering, Timely, ReactorInvariant.SysInv, R.Reports, R.Unreferenced;
    if ev.RunItem? && w.loop.batch[0].Own? { OwnsHead(w.loop.batch); }
  }

  lemma SysStep(w: World, ev: Event)
    requires Inv(w) && Enabled(w, ev)
    ensures SameHead(w, ev) && R.Legal(w.sys, SysMoves(w, ev))
    ensures var o := R.Exec(w.sys, SysMoves(w, ev));
            && (o.Died? ==> o.why == R.SocketError)
            && (o.Next? ==> ReactorInvariant.SysInv(o.s) && SysMoved(w, ev, o.s))
  {
    SysReady(w, ev);
    var moves := SysMoves(w, ev);
    if moves == [] {
      SysStays(w, ev);
    } else {
      var e := moves[0];
      OneStep(w.sys, e);
      ReactorRuns.StepInv(w.sys, e);
      if R.Step(w.sys, e).Next? {
        ReactorLoop.StepQueue(w.sys, e);
        SysGoes(w, ev, e, R.Step(w.sys, e).s);
      }
    }
  }

  lemma SysStays(w: World, ev: Event)
    requires SysMoves(w, ev) == []
    ensures SysMoved(w, ev, w.sys)
  {
    ReactorLoop.SamePending(w.sys, w.sys);
  }

  lemma SysGoes(w: World, ev: Event, e: R.Event, t: R.Sys)
    requires Enabled(w, ev) && SysMoves(w, ev) == [e] && ReactorLoop.QueueMoves(w.sys, e, t)
    ensures SysMoved(w, ev, t)
  {
    hide ReactorRuns.NewTasks, R.Enabled, R.Reports;
    assert [e][0] == e;
  }

  // ----- the timers' part -----

  /** How a timer event moves inbox, stage and shots. */
  ghost predicate TimerMoved(q: T.Queue, e: T.Event, t: T.Queue) {
    && t.inbox == (if e.Post? then q.inbox + {e.addr} else if e.Arrive? then q.inbox - {e.addr} else q.inbox)
    && (e.Post? ==> e.addr !in q.inbox) && (e.Arrive? ==> e.addr in q.inbox)
    && (!t.stage.Idle? ==> e.Begin? || !q.stage.Idle?)
    && (forall x :: x in t.fired ==> x in q.fired || (!q.stage.Idle? && x.now == q.round.now))
    && (!t.stage.Idle? ==> t.round.now == if e.Begin? then e.now else q.round.now)
  }

  ghost predicate TimersMoved(w: World, ev: Event, q: T.Queue) {
    if TimerMoves(w, ev) == [] then q == w.timers else TimerMoved(w.timers, TimerMoves(w, ev)[0], q)
  }

  lemma TimerGoes(q: T.Queue, e: T.Event)
    requires TimerInvariant.Inv(q) && T.Enabled(q, e) && T.Step(q, e).Ok?
    ensures TimerMoved(q, e, T.Step(q, e).q)
  {
    InboxLives(q);
    if e.Cancel? { CancelGoes(q, e.id); }
    if e.Begin? { BeginGoes(q, e.now); }
    if e.Trigger? { TriggerGoes(q); }
    if e.Rearm? { RearmGoes(q); }
    hide TimerInvariant.Inv, T.Insert, T.Found, T.CancelStep, T.BeginStep, T.TriggerStep, T.RearmStep;
  }

  lemma CancelGoes(q: T.Queue, id: nat)
    requires T.CancelStep(q, id).Ok?
    ensures var t := T.CancelStep(q, id).q; t.inbox == q.inbox && t.stage == q.stage && t.fired == q.fired && t.round == q.round
  {
    hide T.Erase, T.Found;
  }

  lemma BeginGoes(q: T.Queue, now: int)
    requires T.BeginStep(q, now).Ok?
    ensures var t := T.BeginStep(q, now).q;
            t.inbox == q.inbox && t.fired == q.fired && (t == q || t.round.now == now)
  {
    hide T.LowerBound, T.Snapshot, T.IdsOf;
  }

  lemma TriggerGoes(q: T.Queue)
    requires T.Enabled(q, T.Trigger) && T.TriggerStep(q).Ok?
    ensures var t := T.TriggerStep(q).q; t.inbox == q.inbox && t.stage == q.stage && t.round.now == q.round.now
    ensures forall x :: x in T.TriggerStep(q).q.fired ==> x in q.fired || x.now == q.round.now
  {
  }

  lemma RearmGoes(q: T.Queue)
    requires T.Enabled(q, T.Rearm) && T.RearmStep(q).Ok?
    ensures var t := T.RearmStep(q).q; t.inbox == q.inbox && t.stage == q.stage && t.round.now == q.round.now && t.fired == q.fired
  {
    hide T.Insert;
  }

  lemma InboxLives(q: T.Queue)
    requires TimerInvariant.Inv(q)
    ensures forall a :: a in q.inbox ==> a in q.heap
  {
  }

  lemma OneTimerStep(q: T.Queue, e: T.Event)
    requires T.Enabled(q, e)
    ensures T.Legal(q, [e]) && T.Exec(q, [e]) == T.Step(q, e)
  {
    hide T.Enabled, T.Step;
    assert [e][1..] == [];
    if T.Step(q, e).Ok? { assert T.Legal(T.Step(q, e).q, []); }
  }

  /** A timer whose functor is at the head of the queue is waiting for it, and runTimer is not running. */
  lemma TimerReady(w: World, ev: Event)
    requires Inv(w) && Enabled(w, ev)
    ensures forall e :: e in TimerMoves(w, ev) ==> TimerMoves(w, ev) == [e] && T.Enabled(w.timers, e)
    ensures forall e :: e in TimerMoves(w, ev) && e.Begin? ==> e.now == w.now && w.sys.phase.Dispatching?
  {
    hide TimerInvariant.Inv, ReactorInvariant.SysInv, Timely, R.Enabled;
    if ev.RunItem? {
      assert w.loop.batch[0] in multiset(w.loop.batch);
    }
  }

  lemma TimerStep(w: World, ev: Event)
    requires Inv(w) && Enabled(w, ev)
    ensures T.Legal(w.timers, TimerMoves(w, ev))
    ensures var o := T.Exec(w.timers, TimerMoves(w, ev));
            && (o.Crash? ==> o.why == T.Assert120)
            && (o.Ok? ==> TimerInvariant.Inv(o.q) && TimersMoved(w, ev, o.q))
  {
    TimerReady(w, ev);
    var moves := TimerMoves(w, ev);
    if moves != [] {
      var e := moves[0];
      assert e in moves;
      OneTimerStep(w.timers, e);
      TimerRuns.StepInv(w.timers, e);
      if T.Step(w.timers, e).Ok? { TimerGoes(w.timers, e); }
    }
  }

  // ----- the functor queue's part -----

  function Added(w: World, ev: Event, t: R.Sys): seq<Item> {
    match ev
    case Conn(_) => Mine(ReactorRuns.NewTasks(w.sys, t))
    case RunItem => Mine(ReactorRuns.NewTasks(w.sys, t))
    case Queue(n) => [Foreign(n)]
    case Append(_, item) => [item]
    case _ => []
  }

  ghost predicate LoopMoved(w: World, ev: Event, t: R.Sys, l: L.Loop<Item>) {
    && (if ev.Swap? then l.batch == w.loop.pending && l.pending == []
        else l.batch == (if ev.RunItem? && w.loop.batch != [] then w.loop.batch[1..] else w.loop.batch) && l.pending == w.loop.pending + Added(w, ev, t))
    && l.stage == (match ev case Start => L.Polling case Poll(_, _, _) => L.Dispatching case Swap => L.Functors case EndFunctors => L.Polling case _ => w.loop.stage)
  }

  lemma OneLoopStep(l: L.Loop<Item>, e: L.Event<Item>)
    requires L.Enabled(l, e) && LoopRuns.Inv(l)
    ensures L.Legal(l, [e]) && L.Exec(l, [e]) == L.Step(l, e) && L.Step(l, e).Next? && LoopRuns.Inv(L.Step(l, e).s)
  {
    LoopRuns.StepInv(l, e);
    hide L.Enabled, L.Step;
    assert [e][1..] == [];
    assert L.Legal(L.Step(l, e).s, []);
  }

  lemma LoopStep(w: World, ev: Event, t: R.Sys)
    requires Inv(w) && Enabled(w, ev) && SysMoved(w, ev, t)
    ensures L.Legal(w.loop, LoopMoves(w, ev, t))
    ensures var o := L.Exec(w.loop, LoopMoves(w, ev, t)); o.Next? && LoopRuns.Inv(o.s) && LoopMoved(w, ev, t, o.s)
  {
    var fed := Mine(ReactorRuns.NewTasks(w.sys, t));
    hide TimerInvariant.Inv, ReactorInvariant.SysInv, Timely, Delivering, R.Enabled, ReactorRuns.NewTasks, Owns;
    match ev
    case Conn(e) => LoopRuns.QueueAll(w.loop, fed);
    case RunItem =>
      OneLoopStep(w.loop, L.RunFunctor);
      var m := L.Step(w.loop, L.RunFunctor).s;
      LoopRuns.QueueAll(m, fed);
      LoopRuns.Then(w.loop, L.RunFunctor, LoopRuns.Queues(fed));
    case Timer(e) =>
    case _ =>
      OneLoopStep(w.loop, LoopMoves(w, ev, t)[0]);
      assert LoopMoves(w, ev, t) == [LoopMoves(w, ev, t)[0]];
  }

  // ----- the ties -----

  lemma OwnsConcat(a: seq<Item>, b: seq<Item>)
    ensures Owns(a + b) == Owns(a) + Owns(b)
  {
    if a == [] {
      assert a + b == b;
    } else {
      assert (a + b)[0] == a[0] && (a + b)[1..] == a[1..] + b;
      OwnsConcat(a[1..], b);
    }
  }

  lemma OwnsMine(ts: seq<R.Task>)
    ensures Owns(Mine(ts)) == ts && (forall x :: x in Mine(ts) ==> x.Own?)
  {
    if ts != [] {
      OwnsMine(ts[1..]);
      OwnsConcat([Own(ts[0])], Mine(ts[1..]));
    }
  }

  lemma TiedStep(w: World, ev: Event, t: R.Sys, q: T.Queue, l: L.Loop<Item>)
    requires Tied(w) && Enabled(w, ev) && SameHead(w, ev)
    requires SysMoved(w, ev, t) && TimersMoved(w, ev, q) && LoopMoved(w, ev, t, l)
    ensures Tied(After(w, ev, t, q, l))
  {
    TiedBatch(w, ev, t, l);
    TiedPending(w, ev, t, l);
    TiedPhase(w, ev, t, q, l);
    hide Enabled, SameHead, SysMoved, TimersMoved, LoopMoved, Owns;
  }

  lemma TiedBatch(w: World, ev: Event, t: R.Sys, l: L.Loop<Item>)
    requires Tied(w) && Enabled(w, ev) && SameHead(w, ev) && SysMoved(w, ev, t) && LoopMoved(w, ev, t, l)
    ensures Owns(l.batch) == t.batch
  {
    hide Added, ReactorRuns.NewTasks, R.Enabled, R.Reports;
    if ev.RunItem? { OwnsHead(w.loop.batch); }
    hide Owns;
  }

  lemma TiedPending(w: World, ev: Event, t: R.Sys, l: L.Loop<Item>)
    requires Tied(w) && Enabled(w, ev) && SysMoved(w, ev, t) && LoopMoved(w, ev, t, l)
    ensures Owns(l.pending) == t.pending
  {
    AddedOwns(w, ev, t);
    OwnsConcat(w.loop.pending, Added(w, ev, t));
    assert w.sys.pending + [] == w.sys.pending;
    assert Owns([]) == [];
    SysFed(w, ev, t);
    hide Added, ReactorRuns.NewTasks, Enabled, Owns, SysMoved;
  }

  lemma SysFed(w: World, ev: Event, t: R.Sys)
    requires Enabled(w, ev) && SysMoved(w, ev, t)
    ensures !ev.Swap? ==> t.pending == w.sys.pending + if ev.Conn? || ev.RunItem? then ReactorRuns.NewTasks(w.sys, t) else []
    ensures ev.Swap? ==> t.pending == []
  {
    hide ReactorRuns.NewTasks, R.Enabled, R.Reports;
  }

  lemma TiedPhase(w: World, ev: Event, t: R.Sys, q: T.Queue, l: L.Loop<Item>)
    requires Tied(w) && Enabled(w, ev) && SysMoved(w, ev, t) && TimersMoved(w, ev, q) && LoopMoved(w, ev, t, l)
    ensures if l.stage.Starting? then t.phase.Polling? else l.stage == ReactorLoop.StageOf(t.phase)
    ensures !q.stage.Idle? ==> t.phase.Dispatching?
  {
    hide R.Enabled, R.Reports, Added, ReactorRuns.NewTasks, Owns;
  }

  lemma AddedOwns(w: World, ev: Event, t: R.Sys)
    requires Enabled(w, ev)
    ensures Owns(Added(w, ev, t)) == if ev.Conn? || ev.RunItem? then ReactorRuns.NewTasks(w.sys, t) else []
  {
    OwnsMine(ReactorRuns.NewTasks(w.sys, t));
    hide R.Enabled, R.Reports, ReactorRuns.NewTasks;
  }

  lemma AddedCopies(w: World, ev: Event, t: R.Sys, x: Item)
    requires !x.Own? && !x.Foreign?
    ensures multiset(Added(w, ev, t))[x] == if ev.Append? && ev.item == x then 1 else 0
  {
    OwnsMine(ReactorRuns.NewTasks(w.sys, t));
    assert x !in multiset(Mine(ReactorRuns.NewTasks(w.sys, t)));
  }

  lemma SwapsAll(w: World)
    requires LoopRuns.Inv(w.loop) && Tied(w) && Enabled(w, Swap)
    ensures w.loop.batch == []
  {
  }

  lemma HeadCopies(items: seq<Item>, x: Item)
    requires items != []
    ensures multiset(items)[x] == multiset(items[1..])[x] + if items[0] == x then 1 else 0
  {
    assert items == [items[0]] + items[1..];
  }

  /** The number of copies of a functor after an event. */
  lemma CopiesStep(w: World, ev: Event, t: R.Sys, l: L.Loop<Item>, x: Item)
    requires LoopRuns.Inv(w.loop) && Tied(w) && Enabled(w, ev) && LoopMoved(w, ev, t, l) && !x.Own? && !x.Foreign?
    ensures Copies(l, x) + (if ev.RunItem? && w.loop.batch[0] == x then 1 else 0)
            == Copies(w.loop, x) + if ev.Append? && ev.item == x then 1 else 0
  {
    AddedCopies(w, ev, t, x);
    if ev.Swap? { SwapsAll(w); }
    if ev.RunItem? { HeadCopies(w.loop.batch, x); }
    hide Tied, LoopRuns.Inv, Added, R.Enabled, R.Reports;
    if !ev.Swap? {
      assert multiset(l.pending) == multiset(w.loop.pending) + multiset(Added(w, ev, t));
    }
  }

  lemma DeliveringStep(w: World, ev: Event, t: R.Sys, q: T.Queue, l: L.Loop<Item>)
    requires Delivering(w) && LoopRuns.Inv(w.loop) && Tied(w) && Enabled(w, ev) && TimersMoved(w, ev, q) && LoopMoved(w, ev, t, l)
    ensures Delivering(After(w, ev, t, q, l))
  {
    forall a ensures Copies(l, Arrival(a)) + (if a in PostedAfter(w, ev) then 1 else 0) == if a in q.inbox then 1 else 0 {
      CopiesStep(w, ev, t, l, Arrival(a));
      Delivered(w, ev, q, a);
      hide Copies, LoopMoved, TimersMoved, Enabled, Tied;
    }
  }

  lemma Delivered(w: World, ev: Event, q: T.Queue, a: T.Addr)
    requires Delivering(w) && Enabled(w, ev) && TimersMoved(w, ev, q)
    ensures (if a in PostedAfter(w, ev) then 1 else 0) + (if ev.Append? && ev.item == Arrival(a) then 1 else 0) + (if a in w.timers.inbox then 1 else 0)
         == (if a in w.posted then 1 else 0) + (if ev.RunItem? && w.loop.batch[0] == Arrival(a) then 1 else 0) + (if a in q.inbox then 1 else 0)
  {
  }

  lemma TimelyStep(w: World, ev: Event, t: R.Sys, q: T.Queue, l: L.Loop<Item>)
    requires Timely(w) && Enabled(w, ev) && TimersMoved(w, ev, q)
    ensures Timely(After(w, ev, t, q, l))
  {
    hide R.Enabled, R.Reports;
  }
}
