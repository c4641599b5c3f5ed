/**
 EventLoop.cpp as a state machine: the loop thread, any number of producer
 threads, the functor queue and the eventfd that wakes the loop.  Each append to
 pendingFunctors_ is atomic; a producer appends and then writes the eventfd in
 two separate steps, so everybody else may move in between.
 */
module LoopSpec {

  type Producer = nat

  /** Where loop() stands: not entered yet, or in an iteration; timer callbacks queue as channels' do. */
  datatype Stage = Starting | Polling | Dispatching | Functors

  datatype Loop<F(==)> = Loop(
    stage: Stage,
    reported: bool,          // the wakeup channel is still in activeChannels_
    calling: bool,           // callingPendingFunctors_
    batch: seq<F>,           // what is left of `functors` in doPendingFunctors
    pending: seq<F>,         // pendingFunctors_
    counter: nat,            // the eventfd
    waking: set<Producer>,   // threads between their append and their wakeup()
    executed: seq<F>,        // history
    queued: seq<F>)          // history: every functor ever queued

  /** A new loop. */
  function Boot<F>(): Loop<F> {
    Loop(Starting, false, false, [], [], 0, {}, [], [])
  }

  /** loop() starts with what the loop thread itself queued before, without any wakeup. */
  function Entry<F>(pre: seq<F>): Loop<F> {
    Loop(Polling, false, false, [], pre, 0, {}, [], pre)
  }

  datatype Event<F> =
    | Append(p: Producer, f: F)       // queueInLoop on another thread, first half
    | Wake(p: Producer)               // its wakeup()
    | Queue(f: F)                     // queueInLoop on the loop thread, from a callback or before loop()
    | Start                           // loop() is called
    | PollReturns(reported: bool)
    | HandleRead                      // the wakeup channel's read callback
    | Swap                            // all channels and timers done; doPendingFunctors up to its loop
    | RunFunctor
    | EndFunctors

  predicate Enabled<F>(s: Loop<F>, ev: Event<F>) {
    match ev
    case Append(p, _) => p !in s.waking
    case Wake(p) => p in s.waking
    case Queue(_) => !s.stage.Polling?
    case Start => s.stage.Starting?
    case PollReturns(reported) => s.stage.Polling? && (reported ==> s.counter > 0)
    case HandleRead => s.stage.Dispatching? && s.reported
    case Swap => s.stage.Dispatching? && !s.reported
    case RunFunctor => s.stage.Functors? && s.batch != []
    case EndFunctors => s.stage.Functors? && s.batch == []
  }

  /** Reading an eventfd at zero fails (it does not block), and LOG_ERROR aborts. */
  datatype Outcome<F(==)> = Next(s: Loop<F>) | EmptyRead

  function Step<F>(s: Loop<F>, ev: Event<F>): Outcome<F>
    requires Enabled(s, ev)
  {
    match ev
    case Append(p, f) => Next(s.(pending := s.pending + [f], queued := s.queued + [f], waking := s.waking + {p}))
    case Wake(p) => Next(s.(counter := s.counter + 1, waking := s.waking - {p}))
    case Queue(f) =>
      Next(s.(pending := s.pending + [f], queued := s.queued + [f], counter := if s.calling then s.counter + 1 else s.counter))
    case Start => Next(s.(stage := Polling))
    case PollReturns(reported) => Next(s.(stage := Dispatching, reported := reported))
    case HandleRead => if s.counter == 0 then EmptyRead else Next(s.(counter := 0, reported := false))
    case Swap => Next(s.(stage := Functors, calling := true, batch := s.pending, pending := []))
    case RunFunctor => Next(s.(batch := s.batch[1..], executed := s.executed + [s.batch[0]]))
    case EndFunctors => Next(s.(stage := Polling, calling := false))
  }

  predicate Legal<F>(s: Loop<F>, run: seq<Event<F>>)
    decreases |run|
  {
    run == [] || (Enabled(s, run[0]) && (Step(s, run[0]).Next? ==> Legal(Step(s, run[0]).s, run[1..])))
  }

  function Exec<F>(s: Loop<F>, run: seq<Event<F>>): Outcome<F>
    requires Legal(s, run)
    decreases |run|
  {
    if run == [] then Next(s)
    else if Step(s, run[0]).Next? then Exec(Step(s, run[0]).s, run[1..])
    else Step(s, run[0])
  }
}
