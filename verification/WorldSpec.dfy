/**
 One loop thread with everything it does: connections, timers, and functors of its
 own and of other threads, as EventLoop::loop in EventLoop.cpp runs them.  The
 three machines of ReactorSpec, TimerSpec and LoopSpec move together; what ties
 them is the order of the loop, and that their functors share one queue.
 */
module WorldSpec {
  import PollerSpec
  import R = ReactorSpec
  import T = TimerSpec
  import L = LoopSpec
  import LoopRuns
  import ReactorRuns
  import LoopTiming

  /** An entry of pendingFunctors_. */
  datatype Item =
    | Own(task: R.Task)       // bound to a connection
    | Arrival(addr: T.Addr)   // addTimerInLoop
    | Cancelling(id: nat)     // cancelTimerInLoop
    | Foreign(n: nat)         // anything else

  datatype World = World(
    sys: R.Sys,
    timers: T.Queue,
    loop: L.Loop<Item>,
    posted: set<T.Addr>,   // timers other threads have allocated, and not yet queued
    now: int,              // loop()'s local
    clock: int,            // the last reading of the clock
    ranTimers: bool)       // runTimer was called in this iteration

  const BOOT := World(R.BOOT, T.EMPTY, L.Boot(), {}, 0, 0, false)

  datatype Event =
    | Start                                                    // loop() is called
    | Poll(events: seq<(nat, PollerSpec.Mask)>, ready: bool, clock: int)  // `ready`: the wakeup channel too
    | Wakeup                                                   // its read callback
    | Conn(r: R.Event)                                         // accept, handlers, user calls, releases
    | Timer(t: T.Event)                                        // the steps of runTimer; adds and cancels
    | Queue(n: nat)                                            // queueInLoop on the loop thread
    | Append(p: L.Producer, item: Item)                        // queueInLoop on another thread
    | Wake(p: L.Producer)                                      // its wakeup()
    | Swap
    | RunItem                                                  // one functor
    | EndFunctors

  /** No handler is running, and none is waiting. */
  predicate Dispatched(w: World) {
    && w.sys.phase.Dispatching? && w.sys.active == [] && w.sys.turn.NoTurn? && w.sys.closing.NoClosing?
    && !w.loop.reported && w.timers.stage.Idle?
  }

  predicate ByUser(ev: R.Event) {
    ev.UserSend? || ev.UserShutdown? || ev.UserForceClose? || ev.UserRetrieve?
  }

  /**
   What the loop, its callbacks and other threads may do when.  Handlers run
   before timers, timers once in an iteration and before functors; user calls
   come from handlers, timer callbacks and functors; the second loop of runTimer
   runs no user code.
   */
  ghost predicate Enabled(w: World, ev: Event) {
    match ev
    case Start => w.loop.stage.Starting?
    case Poll(events, ready, clock) =>
      w.loop.stage.Polling? && R.Reports(w.sys.poller, events) && (ready ==> w.loop.counter > 0) && w.clock <= clock
    case Wakeup => w.loop.stage.Dispatching? && w.loop.reported && w.sys.turn.NoTurn? && w.sys.closing.NoClosing?
    case Conn(e) =>
      && R.Enabled(w.sys, e) && !e.PollReturns? && !e.EndDispatch? && !e.RunTask? && !e.EndFunctors?
      && (ByUser(e) ==> !w.timers.stage.Rearming?)
      && (!ByUser(e) && !e.Release? ==> w.timers.stage.Idle?)
      && (e.NextChannel? || e.Accept? ==> !w.ranTimers)
    case Timer(e) =>
      && T.Enabled(w.timers, e) && !e.Arrive?
      && (e.Begin? ==> Dispatched(w) && !w.ranTimers && e.now == w.now)
      && (e.Add? || e.Cancel? ==> !w.loop.stage.Polling?)
    case Queue(_) => !w.loop.stage.Polling? && !w.timers.stage.Rearming?
    case Append(p, item) => p !in w.loop.waking && !item.Own? && (item.Arrival? ==> item.addr in w.posted)
    case Wake(p) => p in w.loop.waking
    case Swap => Dispatched(w) && w.ranTimers
    case RunItem => w.loop.stage.Functors? && w.loop.batch != [] && w.sys.closing.NoClosing?
    case EndFunctors => w.loop.stage.Functors? && w.loop.batch == [] && w.sys.closing.NoClosing?
  }

  // ----- what the machines do -----

  function SysMoves(w: World, ev: Event): seq<R.Event> {
    match ev
    case Poll(events, _, _) => [R.PollReturns(events)]
    case Conn(e) => [e]
    case Swap => [R.EndDispatch]
    case RunItem => if w.loop.batch != [] && w.loop.batch[0].Own? then [R.RunTask] else []
    case EndFunctors => [R.EndFunctors]
    case _ => []
  }

  function TimerMoves(w: World, ev: Event): seq<T.Event> {
    match ev
    case Timer(e) => [e]
    case RunItem =>
      if w.loop.batch == [] then [] else
      (match w.loop.batch[0]
       case Arrival(a) => [T.Arrive(a)]
       case Cancelling(id) => [T.Cancel(id)]
       case _ => [])
    case _ => []
  }

  function Mine(ts: seq<R.Task>): seq<Item> {
    if ts == [] then [] else [Own(ts[0])] + Mine(ts[1..])
  }

  /** `t` is the reactor afterwards: the functors it queued come after what the step itself does. */
  function LoopMoves(w: World, ev: Event, t: R.Sys): seq<L.Event<Item>> {
    match ev
    case Start => [L.Start]
    case Poll(_, ready, _) => [L.PollReturns(ready)]
    case Wakeup => [L.HandleRead]
    case Conn(_) => LoopRuns.Queues(Mine(ReactorRuns.NewTasks(w.sys, t)))
    case Timer(_) => []
    case Queue(n) => [L.Queue(Foreign(n))]
    case Append(p, item) => [L.Append(p, item)]
    case Wake(p) => [L.Wake(p)]
    case Swap => [L.Swap]
    case RunItem => [L.RunFunctor] + LoopRuns.Queues(Mine(ReactorRuns.NewTasks(w.sys, t)))
    case EndFunctors => [L.EndFunctors]
  }

  function PostedAfter(w: World, ev: Event): set<T.Addr> {
    match ev
    case Timer(e) => if e.Post? then w.posted + {e.addr} else w.posted
    case Append(_, item) => if item.Arrival? then w.posted - {item.addr} else w.posted
    case _ => w.posted
  }

  function NowAfter(w: World, ev: Event): int {
    if ev.Poll? then LoopTiming.SampledNow(LoopTiming.Nearest(w.timers.timers), w.now, ev.clock) else w.now
  }

  function After(w: World, ev: Event, s: R.Sys, q: T.Queue, l: L.Loop<Item>): World {
    World(s, q, l, PostedAfter(w, ev), NowAfter(w, ev), if ev.Poll? then ev.clock else w.clock,
          if ev.Poll? then false else w.ranTimers || (ev.Timer? && ev.t.Begin?))
  }

  /** A machine met an event it has no step for, or died of its own. */
  datatype Death = Astray | OfConnections(r: R.Death) | OfTimers(t: T.Fault) | OfFunctors

  datatype Outcome = Next(w: World) | Died(why: Death)

  /** The functor taken off the queue is the one the reactor runs. */
  predicate SameHead(w: World, ev: Event) {
    ev.RunItem? && w.loop.batch != [] && w.loop.batch[0].Own? ==> w.sys.batch != [] && w.sys.batch[0] == w.loop.batch[0].task
  }

  ghost function Step(w: World, ev: Event): Outcome
    requires Enabled(w, ev)
  {
    if !SameHead(w, ev) || !R.Legal(w.sys, SysMoves(w, ev)) || !T.Legal(w.timers, TimerMoves(w, ev)) then Died(Astray) else
    var s := R.Exec(w.sys, SysMoves(w, ev));
    var q := T.Exec(w.timers, TimerMoves(w, ev));
    if s.Died? then Died(OfConnections(s.why)) else
    if q.Crash? then Died(OfTimers(q.why)) else
    if !L.Legal(w.loop, LoopMoves(w, ev, s.s)) then Died(Astray) else
    var l := L.Exec(w.loop, LoopMoves(w, ev, s.s));
    if l.EmptyRead? then Died(OfFunctors) else
    Next(After(w, ev, s.s, q.q, l.s))
  }

  ghost predicate Legal(w: World, run: seq<Event>)
    decreases |run|
  {
    run == [] || (Enabled(w, run[0]) && (Step(w, run[0]).Next? ==> Legal(Step(w, run[0]).w, run[1..])))
  }

  ghost function Exec(w: World, run: seq<Event>): Outcome
    requires Legal(w, run)
    decreases |run|
  {
    if run == [] then Next(w)
    else if Step(w, run[0]).Next? then Exec(Step(w, run[0]).w, run[1..])
    else Step(w, run[0])
  }
}
