/**
 TimerQueue.cpp in its own, imperative form: the fields are reassigned step by
 step, callbacks re-enter AddTimer and CancelTimerInLoop from inside the first
 loop of RunTimer, and every method is tied to the state machine of TimerSpec.
 */
module TimerQueues {
  import opened TimerSpec
  import opened TimerInvariant
  import opened TimerRuns
  import opened TimerRounds

  /** What a callback may do to the queue, and what other threads may do meanwhile. */
  predicate CallbackOps(ops: seq<Event>) {
    forall ev :: ev in ops ==> ev.Add? || ev.Post? || ev.Cancel?
  }

  function Firings(callbacks: seq<seq<Event>>): seq<Event> {
    if callbacks == [] then [] else [Trigger] + (callbacks[0] + Firings(callbacks[1..]))
  }

  function Rearms(n: nat): seq<Event> {
    if n == 0 then [] else [Rearm] + Rearms(n - 1)
  }

  /** The events of one runTimer(now) call whose k-th callback performs callbacks[k]. */
  function CallRun(q: Queue, now: int, callbacks: seq<seq<Event>>): seq<Event> {
    if q.timers == [] then [Begin(now)]
    else [Begin(now)] + (Firings(callbacks) + ([EndFiring] + (Rearms(|callbacks|) + [Finish])))
  }

  lemma TakeOne(q: Queue, ev: Event, rest: seq<Event>)
    requires Legal(q, [ev] + rest)
    ensures Enabled(q, ev)
    ensures Step(q, ev).Ok? ==> Legal(Step(q, ev).q, rest) && Exec(q, [ev] + rest) == Exec(Step(q, ev).q, rest)
    ensures Step(q, ev).Crash? ==> Exec(q, [ev] + rest) == Step(q, ev)
  {
    assert ([ev] + rest)[0] == ev && ([ev] + rest)[1..] == rest;
  }

  lemma FreshId(q: Queue)
    requires Inv(q)
    ensures q.lastId + 1 !in q.active && !Live(q, q.lastId + 1)
  {
  }

  /** What the asserts of cancelTimerInLoop need, and the state it leaves. */
  lemma CancelAsserts(q: Queue, id: nat)
    requires Inv(q) && Enabled(q, Cancel(id))
    ensures id in q.active ==> q.active[id] in q.heap && Found(q.timers, Entry(q.heap[q.active[id]].when, q.active[id]))
    ensures CancelStep(q, id).Ok? && Inv(CancelStep(q, id).q)
    ensures |CancelStep(q, id).q.timers| == |CancelStep(q, id).q.active|
  {
    CancelInv(q, id);
  }

  lemma BeginPieces(q: Queue, now: int)
    requires Inv(q) && q.stage.Idle? && q.timers != []
    ensures forall e :: e in q.timers ==> e.addr in q.heap
    ensures BeginStep(q, now).Ok? ==> Inv(BeginStep(q, now).q)
  {
    BeginInv(q, now);
  }

  /** While batch members are left there is a script for the next, and none after the last. */
  lemma StillFiring(q: Queue, callbacks: seq<seq<Event>>, tail: seq<Event>)
    requires q.stage.Firing? && q.round.next <= |q.round.batch| && Legal(q, Firings(callbacks) + ([EndFiring] + tail))
    ensures callbacks == [] <==> q.round.next == |q.round.batch|
  {
    var run := Firings(callbacks) + ([EndFiring] + tail);
    if callbacks == [] {
      assert run == [EndFiring] + tail;
      TakeOne(q, EndFiring, tail);
    } else {
      var rest := callbacks[0] + (Firings(callbacks[1..]) + ([EndFiring] + tail));
      assert run == [Trigger] + rest;
      TakeOne(q, Trigger, rest);
    }
  }

  lemma EmptyCall(q: Queue, now: int)
    requires q.stage.Idle? && q.timers == []
    ensures Legal(q, [Begin(now)]) && Exec(q, [Begin(now)]) == Ok(q)
  {
    assert [Begin(now)][1..] == [];
  }

  lemma FiringEvents(callbacks: seq<seq<Event>>, ev: Event)
    ensures ev in Firings(callbacks) <==> (ev == Trigger && callbacks != []) || exists ops :: ops in callbacks && ev in ops
  {
    if callbacks != [] {
      FiringEvents(callbacks[1..], ev);
      assert callbacks == [callbacks[0]] + callbacks[1..];
    }
  }

  lemma RearmEvents(n: nat, ev: Event)
    ensures ev in Rearms(n) ==> ev == Rearm
  {
    if n > 0 { RearmEvents(n - 1, ev); }
  }

  /** What a call from `q` to `t` did. */
  ghost predicate CallDone(q: Queue, t: Queue, now: int, callbacks: seq<seq<Event>>)
  {
    && BatchExact(q, t, now)
    && t.fired == q.fired + Shots(t.round.snap, |t.round.snap|, now)
    && NothingOldLeft(t, now, q.lastId)
    && forall k :: 0 <= k < |t.round.snap| ==>
         MemberOutcome(t, t.round.snap[k], now, exists ops :: ops in callbacks && Cancel(t.round.snap[k].id) in ops)
  }

  /**
   The outcome of a runTimer call in terms of its callbacks: the due timers fire
   in deadline order, each once; a repeating one is queued again, one interval
   after `now`, unless some callback of the call cancelled it; every other one
   has been freed.
   */
  lemma CallOutcome(q: Queue, now: int, callbacks: seq<seq<Event>>)
    requires Inv(q) && q.stage.Idle? && q.timers != [] && forall ops :: ops in callbacks ==> CallbackOps(ops)
    requires Legal(q, CallRun(q, now, callbacks)) && Exec(q, CallRun(q, now, callbacks)).Ok?
    ensures var t := Exec(q, CallRun(q, now, callbacks)).q; Inv(t) && t.stage.Idle? && CallDone(q, t, now, callbacks)
  {
    hide Inv;
    var mid := Firings(callbacks) + ([EndFiring] + Rearms(|callbacks|));
    assert CallRun(q, now, callbacks) == [Begin(now)] + mid + [Finish];
    FiringEvents(callbacks, Finish);
    RearmEvents(|callbacks|, Finish);
    RoundOutcome(q, now, mid);
    var t := Exec(q, CallRun(q, now, callbacks)).q;
    forall k | 0 <= k < |t.round.snap|
      ensures MemberOutcome(t, t.round.snap[k], now, exists ops :: ops in callbacks && Cancel(t.round.snap[k].id) in ops)
    {
      FiringEvents(callbacks, Cancel(t.round.snap[k].id));
      RearmEvents(|callbacks|, Cancel(t.round.snap[k].id));
    }
  }

  class TimerQueue {
    var heap: map<Addr, Timer>          // the allocator's live Timer objects
    var atomic: nat                     // atomic_
    var timers: seq<Entry>              // timers_
    var activeTimers: map<nat, Addr>    // activeTimers_
    var cancelTimers: set<nat>          // cancelTimers_
    var callingTimesFunctor: bool       // callingTimesFunctor_

    ghost var inbox: set<Addr>
    ghost var stage: Stage
    ghost var round: Round
    ghost var fired: seq<Shot>
    ghost var freed: seq<nat>

    ghost function View(): Queue
      reads this
    {
      Queue(heap, atomic, inbox, timers, activeTimers, cancelTimers, stage, round, fired, freed)
    }

    ghost predicate Valid()
      reads this
    {
      Inv(View()) && (callingTimesFunctor <==> stage.Firing?)
    }

    constructor ()
      ensures Valid() && View() == EMPTY
    {
      heap, atomic, timers, activeTimers, cancelTimers := map[], 0, [], map[], {};
      callingTimesFunctor := false;
      inbox, stage, round, fired, freed := {}, Idle, Round(0, [], [], 0, 0, 0), [], [];
    }

    /** The earliest deadline, or the invalid timestamp 0 when there is none. */
    method GetNearestExpiration() returns (when: int)
      requires Valid()
      ensures timers == [] ==> when == 0
      ensures timers != [] ==> (exists e :: e in timers && e.when == when) && forall e :: e in timers ==> when <= e.when
    {
      if timers == [] { return 0; }
      when := timers[0].when;
      assert timers[0] in timers;
      forall e | e in timers ensures when <= e.when {
        var k :| 0 <= k < |timers| && timers[k] == e;
        assert 0 < k ==> Less(timers[0], timers[k]);
      }
    }

    /** addTimer(Timer*): both inserts. */
    method Insert2(addr: Addr)
      requires addr in heap
      modifies this`timers, this`activeTimers
      ensures View() == Index(old(View()), addr)
    {
      var t := heap[addr];
      timers := Insert(timers, Entry(t.when, addr));
      if t.id !in activeTimers { activeTimers := activeTimers[t.id := addr]; }
    }

    /** `new Timer(id, cb, when, interval)` at the block `addr`. */
    method NewTimer(addr: Addr, when: int, interval: real) returns (id: nat)
      requires addr !in heap
      modifies this`atomic, this`heap
      ensures View() == Alloc(old(View()), addr, when, interval) && id == atomic
    {
      atomic := atomic + 1;
      id := atomic;
      heap := heap[addr := Timer(id, when, interval)];
    }

    /** addTimer(cb, when, interval); `addr` is the block `new` returned. */
    method AddTimer(addr: Addr, when: int, interval: real, inLoopThread: bool) returns (id: nat)
      requires Valid() && addr !in heap && (inLoopThread ==> !stage.Rearming?)
      modifies this
      ensures Valid()
      ensures Step(old(View()), if inLoopThread then Add(addr, when, interval) else Post(addr, when, interval)) == Ok(View())
      ensures id == View().lastId && id !in old(activeTimers) && !Live(old(View()), id)
      ensures addr in heap && heap[addr] == Timer(id, when, interval)
    {
      hide Inv;
      ghost var q := View();
      FreshId(q);
      StepInv(q, if inLoopThread then Add(addr, when, interval) else Post(addr, when, interval));
      id := NewTimer(addr, when, interval);
      if inLoopThread {
        Insert2(addr);
      } else {
        inbox := inbox + {addr};
      }
    }

    /** The functor addTimer queued from another thread. */
    method AddTimerInLoop(addr: Addr)
      requires Valid() && Enabled(View(), Arrive(addr))
      modifies this
      ensures Valid() && Step(old(View()), Arrive(addr)) == Ok(View())
    {
      ArriveInv(View(), addr);
      hide Inv;
      Insert2(addr);
      inbox := inbox - {addr};
    }

    method CancelTimerInLoop(id: nat)
      requires Valid() && Enabled(View(), Cancel(id))
      modifies this
      ensures Valid() && Step(old(View()), Cancel(id)) == Ok(View())
      ensures id !in activeTimers && |timers| == |activeTimers|
    {
      hide Inv;
      ghost var q := View();
      CancelAsserts(q, id);
      if id in activeTimers {
        var addr := activeTimers[id];
        var key := Entry(heap[addr].when, addr);
        assert Found(timers, key);                   // line 53
        freed := freed + [heap[addr].id];
        heap := heap - {addr};
        activeTimers := activeTimers - {id};
        timers := Erase(timers, key);
      } else if callingTimesFunctor {
        cancelTimers := cancelTimers + {id};
      }
      assert |timers| == |activeTimers|;             // line 66
    }

    /** What handlers of the loop do to the queue before runTimer. */
    method Handlers(ops: seq<Event>)
      requires Valid() && stage.Idle? && LoopOps(ops) && Legal(View(), ops)
      modifies this
      ensures Valid() && stage.Idle? && Exec(old(View()), ops) == Ok(View())
    {
      hide Inv;
      assert ops + [] == ops;
      Callback(ops, []);
    }

    /** One user callback, or handler of the loop: it enters the queue again. */
    method Callback(ops: seq<Event>, ghost rest: seq<Event>)
      requires Valid() && !stage.Rearming? && LoopOps(ops) && Legal(View(), ops + rest)
      modifies this
      ensures Valid() && stage == old(stage) && round == old(round)
      ensures Legal(View(), rest) && Exec(old(View()), ops + rest) == Exec(View(), rest)
    {
      hide Inv, BeginStep, RearmStep, CancelStep, TriggerStep;
      ghost var q := View();
      var i := 0;
      assert ops[0..] == ops;
      while i < |ops|
        invariant 0 <= i <= |ops| && Valid() && stage == q.stage && round == q.round
        invariant Legal(View(), ops[i..] + rest)
        invariant Exec(q, ops + rest) == Exec(View(), ops[i..] + rest)
      {
        var ev := ops[i];
        assert ops[i..] + rest == [ev] + (ops[i + 1..] + rest);
        ghost var q1 := View();
        TakeOne(q1, ev, ops[i + 1..] + rest);
        StepInv(q1, ev);
        QuietStep(q1, ev);
        match ev {
          case Add(addr, when, interval) => var _ := AddTimer(addr, when, interval, true);
          case Post(addr, when, interval) => var _ := AddTimer(addr, when, interval, false);
          case Arrive(addr) => AddTimerInLoop(addr);
          case Cancel(id) => CancelTimerInLoop(id);
        }
        i := i + 1;
      }
      assert ops[i..] + rest == rest;
    }

    /** The erase loop of getExpiredTimers. */
    method EraseActive(expired: seq<Entry>)
      requires forall e :: e in expired ==> e.addr in heap
      modifies this`activeTimers
      ensures activeTimers == old(activeTimers) - IdsOf(Snapshot(heap, expired))
    {
      ghost var snap := Snapshot(heap, expired);
      ghost var active := activeTimers;
      var i := 0;
      while i < |expired|
        invariant 0 <= i <= |expired|
        invariant activeTimers == active - IdsOf(snap[..i])
      {
        assert expired[i] in expired && snap[i] == heap[expired[i].addr];
        activeTimers := activeTimers - {heap[expired[i].addr].id};
        assert snap[..i + 1] == snap[..i] + [snap[i]];
        assert IdsOf(snap[..i + 1]) == IdsOf(snap[..i]) + {snap[i].id};
        i := i + 1;
      }
      assert snap[..i] == snap;
    }

    /**
     getExpiredTimers: the cut at the pivot.  `ok` is false when the assert of
     line 120 fails; otherwise the entries leave both indexes.
     */
    method GetExpiredTimers(now: int) returns (ok: bool, expired: seq<Entry>)
      requires timers != [] && forall e :: e in timers ==> e.addr in heap
      modifies this`timers, this`activeTimers
      ensures expired == old(timers)[..LowerBound(old(timers), Entry(now, SENTINEL))]
      ensures ok <==> |expired| == |old(timers)| || now < old(timers)[|expired|].when
      ensures forall e :: e in expired ==> e.addr in heap
      ensures ok ==> timers == old(timers)[|expired|..] && activeTimers == old(activeTimers) - IdsOf(Snapshot(heap, expired))
    {
      var end := LowerBound(timers, Entry(now, SENTINEL));
      ok := end == |timers| || now < timers[end].when;   // line 120
      expired := timers[..end];
      assert forall e :: e in expired ==> e in timers;
      if !ok { return; }
      timers := timers[end..];
      EraseActive(expired);
    }

    /** runTimer up to its first loop. */
    method BeginBatch(now: int) returns (ok: bool, expired: seq<Entry>)
      requires Valid() && stage.Idle? && timers != []
      modifies this
      ensures ok <==> BeginStep(old(View()), now).Ok?
      ensures ok ==> Valid() && BeginStep(old(View()), now) == Ok(View()) && expired == round.batch
      ensures ok ==> stage.Firing? && round.next == 0 && round.now == now
    {
      hide Inv;
      ghost var q := View();
      BeginPieces(q, now);
      callingTimesFunctor := true;
      cancelTimers := {};
      ok, expired := GetExpiredTimers(now);
      stage := Firing;
      if ok { round := BeginStep(q, now).q.round; }
    }

    /** One turn of the first loop: trigger() runs the callback. */
    method Trigger(addr: Addr, ops: seq<Event>, ghost rest: seq<Event>)
      requires Valid() && stage.Firing? && round.next < |round.batch| && addr == round.batch[round.next].addr
      requires CallbackOps(ops) && Legal(View(), [Event.Trigger] + (ops + rest))
      modifies this
      ensures Valid() && stage.Firing? && round == old(round).(next := old(round).next + 1)
      ensures Legal(View(), rest)
      ensures Exec(old(View()), [Event.Trigger] + (ops + rest)) == Exec(View(), rest)
    {
      hide Inv;
      ghost var q := View();
      TakeOne(q, Event.Trigger, ops + rest);
      TriggerInv(q);
      assert addr in heap;
      fired := fired + [Shot(heap[addr].id, heap[addr].when, round.now)];
      round := round.(next := round.next + 1);
      Callback(ops, rest);
    }

    /** One turn of the second loop: re-arm or delete. */
    method Settle(addr: Addr, now: int, ghost rest: seq<Event>)
      requires Valid() && stage.Rearming? && round.next < |round.batch| && addr == round.batch[round.next].addr
      requires now == round.now && Legal(View(), [Rearm] + rest)
      modifies this
      ensures Valid() && stage.Rearming? && round == old(round).(next := old(round).next + 1)
      ensures Legal(View(), rest) && Exec(old(View()), [Rearm] + rest) == Exec(View(), rest)
    {
      hide Inv;
      ghost var q := View();
      TakeOne(q, Rearm, rest);
      RearmInv(q);
      assert addr in heap;
      round := round.(next := round.next + 1);
      var timer := heap[addr];
      if timer.Repeat() && timer.id !in cancelTimers {
        heap := heap[addr := timer.Restart(now)];
        Insert2(addr);
      } else {
        freed := freed + [timer.id];
        heap := heap - {addr};
      }
    }

    /** The first loop of runTimer. */
    method FireAll(expired: seq<Entry>, callbacks: seq<seq<Event>>, ghost tail: seq<Event>)
      requires Valid() && stage.Firing? && round.batch == expired && round.next == 0
      requires forall ops :: ops in callbacks ==> CallbackOps(ops)
      requires Legal(View(), Firings(callbacks) + ([EndFiring] + tail))
      modifies this
      ensures Valid() && stage.Firing? && round == old(round).(next := |expired|) && |callbacks| == |expired|
      ensures Legal(View(), [EndFiring] + tail)
      ensures Exec(old(View()), Firings(callbacks) + ([EndFiring] + tail)) == Exec(View(), [EndFiring] + tail)
    {
      hide Inv, Step;
      ghost var q := View();
      var i := 0;
      assert callbacks[0..] == callbacks;
      StillFiring(View(), callbacks, tail);
      while i < |expired|
        invariant 0 <= i <= |expired| && i <= |callbacks|
        invariant i == |callbacks| <==> i == |expired|
        invariant Valid() && stage.Firing? && round == q.round.(next := i)
        invariant Legal(View(), Firings(callbacks[i..]) + ([EndFiring] + tail))
        invariant Exec(q, Firings(callbacks) + ([EndFiring] + tail)) == Exec(View(), Firings(callbacks[i..]) + ([EndFiring] + tail))
      {
        assert callbacks[i..][0] == callbacks[i] && callbacks[i..][1..] == callbacks[i + 1..];
        assert Firings(callbacks[i..]) + ([EndFiring] + tail)
            == [Event.Trigger] + (callbacks[i] + (Firings(callbacks[i + 1..]) + ([EndFiring] + tail)));
        Trigger(expired[i].addr, callbacks[i], Firings(callbacks[i + 1..]) + ([EndFiring] + tail));
        StillFiring(View(), callbacks[i + 1..], tail);
        i := i + 1;
      }
      assert Firings(callbacks[i..]) + ([EndFiring] + tail) == [EndFiring] + tail;
    }

    /** The second loop of runTimer. */
    method SettleAll(expired: seq<Entry>, now: int)
      requires Valid() && stage.Rearming? && round.batch == expired && round.now == now && round.next == 0
      requires Legal(View(), Rearms(|expired|) + [Finish])
      modifies this
      ensures Valid() && stage.Rearming? && Legal(View(), [Finish])
      ensures Exec(old(View()), Rearms(|expired|) + [Finish]) == Exec(View(), [Finish])
    {
      hide Inv, Step;
      ghost var q := View();
      var i := 0;
      while i < |expired|
        invariant 0 <= i <= |expired|
        invariant Valid() && stage.Rearming? && round == q.round.(next := i)
        invariant Legal(View(), Rearms(|expired| - i) + [Finish])
        invariant Exec(q, Rearms(|expired|) + [Finish]) == Exec(View(), Rearms(|expired| - i) + [Finish])
      {
        assert Rearms(|expired| - i) + [Finish] == [Rearm] + (Rearms(|expired| - i - 1) + [Finish]);
        Settle(expired[i].addr, now, Rearms(|expired| - i - 1) + [Finish]);
        i := i + 1;
      }
      assert Rearms(0) + [Finish] == [Finish];
    }

    /**
     runTimer(now), where the k-th callback performs callbacks[k].  The result is
     the run CallRun of the state machine, so RoundOutcome, CancelIsFinal and
     OwnedExactlyOnce speak about this method.  `ok` is false when the program
     aborts at line 120.
     */
    method RunTimer(now: int, callbacks: seq<seq<Event>>) returns (ok: bool)
      requires Valid() && stage.Idle? && forall ops :: ops in callbacks ==> CallbackOps(ops)
      requires Legal(View(), CallRun(View(), now, callbacks))
      modifies this
      ensures ok <==> Exec(old(View()), CallRun(old(View()), now, callbacks)).Ok?
      ensures ok ==> Valid() && Exec(old(View()), CallRun(old(View()), now, callbacks)) == Ok(View())
      ensures ok ==> if old(timers) == [] then View() == old(View()) else CallDone(old(View()), View(), now, callbacks)
    {
      hide Inv, CallDone, BeginStep, RearmStep, CancelStep, TriggerStep, Firings, Rearms;
      ghost var q := View();
      if timers == [] {
        EmptyCall(q, now);
        return true;
      }
      ghost var tail := Rearms(|callbacks|) + [Finish];
      TakeOne(q, Begin(now), Firings(callbacks) + ([EndFiring] + tail));
      var expired;
      ok, expired := BeginBatch(now);
      if !ok { return; }
      FireAll(expired, callbacks, tail);
      StopFiring(tail);
      SettleAll(expired, now);
      RoundDone();
      CallOutcome(q, now, callbacks);
    }

    /** Between the two loops. */
    method StopFiring(ghost tail: seq<Event>)
      requires Valid() && stage.Firing? && Legal(View(), [EndFiring] + tail)
      modifies this`callingTimesFunctor, this`stage, this`round
      ensures Valid() && stage.Rearming? && round == old(round).(next := 0)
      ensures Legal(View(), tail) && Exec(View(), tail) == Exec(old(View()), [EndFiring] + tail)
    {
      hide Inv;
      TakeOne(View(), EndFiring, tail);
      StepInv(View(), EndFiring);
      callingTimesFunctor := false;
      stage, round := Rearming, round.(next := 0);
    }

    /** After the second loop. */
    method RoundDone()
      requires Valid() && stage.Rearming? && Legal(View(), [Finish])
      modifies this`stage
      ensures Valid() && stage.Idle? && Exec(old(View()), [Finish]) == Ok(View())
    {
      hide Inv;
      assert [Finish] == [Finish] + [];
      TakeOne(View(), Finish, []);
      StepInv(View(), Finish);
      stage := Idle;
      assert |timers| == |activeTimers|;             // line 111
    }
  }
}
