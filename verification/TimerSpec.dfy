/**
 Timer.h and TimerQueue.cpp as a state machine.

 The C++ heap is explicit: `heap` maps the address of every live Timer to its
 fields, `new` adds an address that is not live and `delete` removes one.  The
 ordered set `timers_` compares addresses and addresses are reused after
 `delete`, so neither can be expressed with Dafny references.
 */
module TimerSpec {

  type Addr = nat

  /** `reinterpret_cast<Timer*>(INT_MAX)`, the address in the batch pivot. */
  const SENTINEL: Addr := 0x7fff_ffff

  /** Seconds to microseconds, truncating toward zero as the C++ cast does. */
  function Micros(seconds: real): int {
    if seconds >= 0.0 then (seconds * 1000000.0).Floor else -(-seconds * 1000000.0).Floor
  }

  datatype Timer = Timer(id: nat, when: int, interval: real) {
    predicate Repeat() {
      interval > 0.0
    }

    function Restart(now: int): Timer {
      this.(when := if Repeat() then now + Micros(interval) else 0)
    }
  }

  // ----- std::set<pair<Timestamp, Timer*>> as a strictly sorted sequence -----

  datatype Entry = Entry(when: int, addr: Addr)

  predicate Less(a: Entry, b: Entry) {
    a.when < b.when || (a.when == b.when && a.addr < b.addr)
  }

  ghost predicate Sorted(s: seq<Entry>) {
    forall i, j :: 0 <= i < j < |s| ==> Less(s[i], s[j])
  }

  /** `lower_bound`: the first position that is not less than `e`. */
  function LowerBound(s: seq<Entry>, e: Entry): (i: nat)
    ensures i <= |s|
    ensures forall k :: 0 <= k < i ==> Less(s[k], e)
    ensures i < |s| ==> !Less(s[i], e)
  {
    if s == [] || !Less(s[0], e) then 0 else 1 + LowerBound(s[1..], e)
  }

  predicate Found(s: seq<Entry>, e: Entry) {
    var i := LowerBound(s, e);
    i < |s| && s[i] == e
  }

  function Insert(s: seq<Entry>, e: Entry): seq<Entry> {
    var i := LowerBound(s, e);
    if Found(s, e) then s else s[..i] + [e] + s[i..]
  }

  function Erase(s: seq<Entry>, e: Entry): seq<Entry>
    requires Found(s, e)
  {
    var i := LowerBound(s, e);
    s[..i] + s[i + 1..]
  }

  lemma FoundIffMember(s: seq<Entry>, e: Entry)
    requires Sorted(s)
    ensures Found(s, e) <==> e in s
  {
  }

  lemma SpliceMembers(s: seq<Entry>, i: nat, e: Entry)
    requires i <= |s|
    ensures forall x :: x in s[..i] + [e] + s[i..] <==> x in s || x == e
  {
    assert s == s[..i] + s[i..];
  }

  lemma InsertKeepsOrder(s: seq<Entry>, e: Entry)
    requires Sorted(s)
    ensures Sorted(Insert(s, e))
    ensures forall x :: x in Insert(s, e) <==> x in s || x == e
    ensures |Insert(s, e)| == if e in s then |s| else |s| + 1
  {
    FoundIffMember(s, e);
    var i := LowerBound(s, e);
    if !Found(s, e) {
      SpliceMembers(s, i, e);
      var r := s[..i] + [e] + s[i..];
      forall j, k | 0 <= j < k < |r|
        ensures Less(r[j], r[k])
      {
        var sk := if k < i then k else k - 1;
        if k != i { assert r[k] == s[sk] && s[sk] in s; }
      }
    }
  }

  lemma EraseKeepsOrder(s: seq<Entry>, e: Entry)
    requires Sorted(s) && e in s
    ensures Found(s, e)
    ensures Sorted(Erase(s, e))
    ensures forall x :: x in Erase(s, e) <==> x in s && x != e
    ensures |Erase(s, e)| == |s| - 1
  {
    FoundIffMember(s, e);
    var i := LowerBound(s, e);
    assert s == s[..i] + [s[i]] + s[i + 1..];
  }

  // ----- the queue -----

  datatype Shot = Shot(id: nat, due: int, now: int)

  /** Where `runTimer` stands: outside, in its first loop, in its second. */
  datatype Stage = Idle | Firing | Rearming

  /**
   The locals of `runTimer`: `batch` is the vector `expired` and `next` the
   iterator.  `snap` (the batch members as they were when taken), `base` (the
   length of `fired` then) and `floor` (`atomic_` then) are history.
   */
  datatype Round = Round(now: int, batch: seq<Entry>, snap: seq<Timer>, base: nat, floor: nat, next: nat)

  datatype Queue = Queue(
    heap: map<Addr, Timer>,    // live Timer objects
    lastId: nat,               // atomic_
    inbox: set<Addr>,          // allocated, addTimerInLoop still queued in the loop
    timers: seq<Entry>,        // timers_
    active: map<nat, Addr>,    // activeTimers_
    cancelled: set<nat>,       // cancelTimers_
    stage: Stage,              // callingTimesFunctor_ is stage.Firing?
    round: Round,
    fired: seq<Shot>,          // history: every trigger()
    freed: seq<nat>)           // history: the id of every deleted Timer

  const EMPTY := Queue(map[], 0, {}, [], map[], {}, Idle, Round(0, [], [], 0, 0, 0), [], [])

  datatype Event =
    | Add(addr: Addr, when: int, interval: real)   // addTimer on the loop thread
    | Post(addr: Addr, when: int, interval: real)  // addTimer on another thread
    | Arrive(addr: Addr)                           // its addTimerInLoop functor
    | Cancel(id: nat)                              // cancelTimerInLoop
    | Begin(now: int)                              // runTimer up to the first loop
    | Trigger                                      // one turn of the first loop
    | EndFiring
    | Rearm                                        // one turn of the second loop
    | Finish

  /**
   What the environment may do when: `new` returns a free address, functors and
   `runTimer` calls do not nest, and the second loop of `runTimer` runs no user
   code.  A callback is any run of Add and Cancel events between two Triggers.
   */
  predicate Enabled(q: Queue, ev: Event) {
    match ev
    case Add(a, _, _) => a !in q.heap && !q.stage.Rearming?
    case Post(a, _, _) => a !in q.heap
    case Arrive(a) => q.stage.Idle? && a in q.inbox
    case Cancel(_) => !q.stage.Rearming?
    case Begin(_) => q.stage.Idle?
    case Trigger => q.stage.Firing? && q.round.next < |q.round.batch|
    case EndFiring => q.stage.Firing? && q.round.next == |q.round.batch|
    case Rearm => q.stage.Rearming? && q.round.next < |q.round.batch|
    case Finish => q.stage.Rearming? && q.round.next == |q.round.batch|
  }

  /** The ways the C++ code can stop: a dangling pointer, or an assert by line. */
  datatype Fault = UseAfterFree | Assert53 | Assert66 | Assert111 | Assert120

  datatype Outcome = Ok(q: Queue) | Crash(why: Fault)

  function Alloc(q: Queue, a: Addr, when: int, interval: real): Queue {
    q.(lastId := q.lastId + 1, heap := q.heap[a := Timer(q.lastId + 1, when, interval)])
  }

  /** addTimer(Timer*): both inserts; neither overwrites. */
  function Index(q: Queue, a: Addr): Queue
    requires a in q.heap
  {
    var t := q.heap[a];
    q.(timers := Insert(q.timers, Entry(t.when, a)),
       active := if t.id in q.active then q.active else q.active[t.id := a])
  }

  function Free(q: Queue, a: Addr): Queue
    requires a in q.heap
  {
    q.(heap := q.heap - {a}, freed := q.freed + [q.heap[a].id])
  }

  function CancelStep(q: Queue, id: nat): Outcome {
    if id in q.active then
      var a := q.active[id];
      if a !in q.heap then Crash(UseAfterFree) else
      var e := Entry(q.heap[a].when, a);
      if !Found(q.timers, e) then Crash(Assert53) else
      CheckSizes(Free(q, a).(active := q.active - {id}, timers := Erase(q.timers, e)), Assert66)
    else
      CheckSizes(if q.stage.Firing? then q.(cancelled := q.cancelled + {id}) else q, Assert66)
  }

  function CheckSizes(q: Queue, fault: Fault): Outcome {
    if |q.timers| == |q.active| then Ok(q) else Crash(fault)
  }

  function Snapshot(heap: map<Addr, Timer>, batch: seq<Entry>): (ts: seq<Timer>)
    requires forall e :: e in batch ==> e.addr in heap
    ensures |ts| == |batch|
    ensures forall i :: 0 <= i < |ts| ==> ts[i] == heap[batch[i].addr]
  {
    seq(|batch|, i requires 0 <= i < |batch| => assert batch[i] in batch; heap[batch[i].addr])
  }

  function IdsOf(ts: seq<Timer>): set<nat> {
    set t | t in ts :: t.id
  }

  function BeginStep(q: Queue, now: int): Outcome {
    if q.timers == [] then Ok(q) else
    var n := LowerBound(q.timers, Entry(now, SENTINEL));
    var batch := q.timers[..n];
    if n < |q.timers| && q.timers[n].when <= now then Crash(Assert120) else
    if exists e :: e in batch && e.addr !in q.heap then Crash(UseAfterFree) else
    var snap := Snapshot(q.heap, batch);
    Ok(q.(timers := q.timers[n..],
          active := q.active - IdsOf(snap),
          cancelled := {},
          stage := Firing,
          round := Round(now, batch, snap, |q.fired|, q.lastId, 0)))
  }

  function TriggerStep(q: Queue): Outcome
    requires Enabled(q, Trigger)
  {
    var a := q.round.batch[q.round.next].addr;
    if a !in q.heap then Crash(UseAfterFree) else
    Ok(q.(fired := q.fired + [Shot(q.heap[a].id, q.heap[a].when, q.round.now)],
          round := q.round.(next := q.round.next + 1)))
  }

  function RearmStep(q: Queue): Outcome
    requires Enabled(q, Rearm)
  {
    var a := q.round.batch[q.round.next].addr;
    if a !in q.heap then Crash(UseAfterFree) else
    var t := q.heap[a];
    var q' := q.(round := q.round.(next := q.round.next + 1));
    if t.Repeat() && t.id !in q.cancelled then
      Ok(Index(q'.(heap := q.heap[a := t.Restart(q.round.now)]), a))
    else
      Ok(Free(q', a))
  }

  function Step(q: Queue, ev: Event): Outcome
    requires Enabled(q, ev)
  {
    match ev
    case Add(a, when, interval) => Ok(Index(Alloc(q, a, when, interval), a))
    case Post(a, when, interval) => Ok(Alloc(q, a, when, interval).(inbox := q.inbox + {a}))
    case Arrive(a) => if a !in q.heap then Crash(UseAfterFree) else Ok(Index(q, a).(inbox := q.inbox - {a}))
    case Cancel(id) => CancelStep(q, id)
    case Begin(now) => BeginStep(q, now)
    case Trigger => TriggerStep(q)
    case EndFiring =>
      Ok(q.(stage := Rearming, round := q.round.(next := 0)))
    case Rearm => RearmStep(q)
    case Finish => CheckSizes(q.(stage := Idle), Assert111)
  }

  // ----- runs -----

  predicate Legal(q: Queue, run: seq<Event>)
    decreases |run|
  {
    run == [] ||
    (Enabled(q, run[0]) && (Step(q, run[0]).Ok? ==> Legal(Step(q, run[0]).q, run[1..])))
  }

  function Exec(q: Queue, run: seq<Event>): Outcome
    requires Legal(q, run)
    decreases |run|
  {
    if run == [] then Ok(q)
    else if Step(q, run[0]).Ok? then Exec(Step(q, run[0]).q, run[1..])
    else Step(q, run[0])
  }
}
