/** What timers are there, and when they are due, told by the calls that were made. */
module TimerHistory {
  import opened TimerSpec
  import opened TimerInvariant
  import opened TimerRuns
  import opened TimerRounds

  // ----- one call -----

  /** The other timers and their entries are left alone. */
  ghost predicate OthersStay(q: Queue, t: Queue, a: Addr) {
    && (forall b :: b != a ==> (b in t.heap <==> b in q.heap) && (b in q.heap ==> t.heap[b] == q.heap[b]))
    && (forall e :: e in t.timers && e.addr != a <==> e in q.timers && e.addr != a)
    && (forall b :: b != a ==> (b in t.inbox <==> b in q.inbox))
    && t.fired == q.fired
  }

  /** addTimer on the loop thread: the timer is queued for the deadline it was given. */
  lemma AddOutcome(q: Queue, a: Addr, when: int, interval: real)
    requires Inv(q) && Enabled(q, Add(a, when, interval))
    ensures Step(q, Add(a, when, interval)).Ok?
    ensures var t, id := Step(q, Add(a, when, interval)).q, q.lastId + 1;
            && t.lastId == id && a in t.heap && t.heap[a] == Timer(id, when, interval)
            && Entry(when, a) in t.timers && id in t.active && t.active[id] == a && a !in t.inbox
            && OthersStay(q, t, a)
  {
    hide *;
    AddShape(q, a, when, interval);
    Unused(q, a, when, interval);
    InsertKeepsOrder(q.timers, Entry(when, a));
    PutIn(q, Step(q, Add(a, when, interval)).q, a, Entry(when, a));
  }

  lemma AddShape(q: Queue, a: Addr, when: int, interval: real)
    requires Inv(q) && Enabled(q, Add(a, when, interval))
    ensures Step(q, Add(a, when, interval)).Ok?
    ensures var t, id := Step(q, Add(a, when, interval)).q, q.lastId + 1;
            && t.heap == q.heap[a := Timer(id, when, interval)] && t.timers == Insert(q.timers, Entry(when, a))
            && t.active == q.active[id := a] && t.inbox == q.inbox && t.fired == q.fired && t.lastId == id
  {
    NewId(q);
    hide Inv, Insert;
  }

  lemma NewId(q: Queue)
    requires Inv(q)
    ensures q.lastId + 1 !in q.active
  {
    hide InRound, FreedOnce, NeverEarly, Sorted;
  }

  lemma Unused(q: Queue, a: Addr, when: int, interval: real)
    requires Inv(q) && Enabled(q, Add(a, when, interval))
    ensures Sorted(q.timers) && a !in q.inbox
  {
    hide InRound, FreedOnce, NeverEarly, Sorted;
  }

  lemma PutIn(q: Queue, t: Queue, a: Addr, e: Entry)
    requires e.addr == a && (forall b :: b != a ==> (b in t.heap <==> b in q.heap) && (b in q.heap ==> t.heap[b] == q.heap[b]))
    requires (forall x :: x in t.timers <==> x in q.timers || x == e) && t.inbox == q.inbox && t.fired == q.fired
    ensures OthersStay(q, t, a)
  {
  }

  /** On another thread: it is allocated, and not queued yet. */
  lemma PostOutcome(q: Queue, a: Addr, when: int, interval: real)
    requires Inv(q) && Enabled(q, Post(a, when, interval))
    ensures Step(q, Post(a, when, interval)).Ok?
    ensures var t, id := Step(q, Post(a, when, interval)).q, q.lastId + 1;
            && t.lastId == id && a in t.heap && t.heap[a] == Timer(id, when, interval)
            && a in t.inbox && t.timers == q.timers && t.active == q.active
            && OthersStay(q, t, a)
  {
  }

  /** Its functor queues it for the deadline it was given. */
  lemma ArriveOutcome(q: Queue, a: Addr)
    requires Inv(q) && Enabled(q, Arrive(a))
    ensures Step(q, Arrive(a)).Ok? && a in q.heap
    ensures var t, w := Step(q, Arrive(a)).q, q.heap[a];
            && t.heap == q.heap && t.lastId == q.lastId
            && Entry(w.when, a) in t.timers && w.id in t.active && t.active[w.id] == a && a !in t.inbox
            && OthersStay(q, t, a)
  {
    hide *;
    InInbox(q, a);
    Waiting(q, a);
    ArriveShape(q, a);
    InsertKeepsOrder(q.timers, Entry(q.heap[a].when, a));
    PutBack(q, Step(q, Arrive(a)).q, a, Entry(q.heap[a].when, a));
  }

  lemma InInbox(q: Queue, a: Addr)
    requires Enabled(q, Arrive(a))
    ensures a in q.inbox
  {
  }

  lemma PutBack(q: Queue, t: Queue, a: Addr, e: Entry)
    requires e.addr == a && t.heap == q.heap && t.inbox == q.inbox - {a} && t.fired == q.fired
    requires forall x :: x in t.timers <==> x in q.timers || x == e
    ensures OthersStay(q, t, a)
  {
  }

  lemma ArriveShape(q: Queue, a: Addr)
    requires Enabled(q, Arrive(a)) && a in q.heap && q.heap[a].id !in q.active
    ensures Step(q, Arrive(a)).Ok?
    ensures var t, w := Step(q, Arrive(a)).q, q.heap[a];
            t == q.(timers := Insert(q.timers, Entry(w.when, a)), active := q.active[w.id := a], inbox := q.inbox - {a})
  {
    hide Insert;
  }

  lemma Waiting(q: Queue, a: Addr)
    requires Inv(q) && a in q.inbox
    ensures a in q.heap && q.heap[a].id !in q.active && Sorted(q.timers)
  {
    hide Sorted, InRound, FreedOnce, NeverEarly;
  }

  /** cancelTimerInLoop of a queued timer takes out that timer and no other. */
  lemma CancelOutcome(q: Queue, id: nat)
    requires Inv(q) && Enabled(q, Cancel(id))
    ensures Step(q, Cancel(id)).Ok?
    ensures var t := Step(q, Cancel(id)).q;
            if id in q.active
            then q.active[id] !in t.heap && id in t.freed && id !in t.active && OthersStay(q, t, q.active[id])
            else t == q.(cancelled := t.cancelled)
  {
    hide *;
    CancelInv(q, id);
    CancelIs(q, id);
    if id in q.active {
      Queued(q, id);
      CancelShape(q, id);
      var a := q.active[id];
      TakenOut(q, CancelStep(q, id).q, a, Entry(q.heap[a].when, a));
    }
  }

  lemma CancelIs(q: Queue, id: nat)
    requires Enabled(q, Cancel(id))
    ensures Step(q, Cancel(id)) == CancelStep(q, id)
    ensures id !in q.active && CancelStep(q, id).Ok? ==> CancelStep(q, id).q == q.(cancelled := CancelStep(q, id).q.cancelled)
  {
    hide Erase, Found, Free;
  }

  lemma CancelShape(q: Queue, id: nat)
    requires Enabled(q, Cancel(id)) && Step(q, Cancel(id)).Ok?
    requires id in q.active && q.active[id] in q.heap && q.heap[q.active[id]].id == id
    ensures Step(q, Cancel(id)) == CancelStep(q, id)
    ensures var a := q.active[id];
            var t, e := CancelStep(q, id).q, Entry(q.heap[a].when, a);
            && Found(q.timers, e) && id in t.freed && id !in t.active && a !in t.heap
            && t.heap == q.heap - {a} && t.timers == Erase(q.timers, e) && t.inbox == q.inbox && t.fired == q.fired
  {
    hide Erase, Found;
  }

  lemma TakenOut(q: Queue, t: Queue, a: Addr, e: Entry)
    requires Sorted(q.timers) && e in q.timers && forall x :: x in q.timers && x.addr == a <==> x == e
    requires Found(q.timers, e) && t.heap == q.heap - {a} && t.timers == Erase(q.timers, e) && t.inbox == q.inbox && t.fired == q.fired
    ensures OthersStay(q, t, a)
  {
    EraseKeepsOrder(q.timers, e);
    hide Erase, Sorted, Found;
  }

  /** A queued timer has one entry. */
  lemma Queued(q: Queue, id: nat)
    requires Inv(q) && id in q.active
    ensures Sorted(q.timers) && q.active[id] in q.heap && q.heap[q.active[id]].id == id
    ensures forall e :: e in q.timers && e.addr == q.active[id] <==> e == Entry(q.heap[q.active[id]].when, q.active[id])
  {
    hide Sorted, InRound, FreedOnce, NeverEarly;
  }

  // ----- whole runs -----

  datatype Call = Call(when: int, interval: real)

  /** The addTimer calls of a run, in the order of their ids. */
  function Calls(run: seq<Event>): seq<Call> {
    if run == [] then []
    else (match run[0] case Add(_, when, interval) => [Call(when, interval)] case Post(_, when, interval) => [Call(when, interval)] case _ => [])
         + Calls(run[1..])
  }

  predicate HasFired(fired: seq<Shot>, id: nat) {
    exists x :: x in fired && x.id == id
  }

  /** Every timer has the interval of its call, and until it fires the deadline of its call. */
  ghost predicate AsCalled(q: Queue, calls: seq<Call>) {
    && q.lastId == |calls|
    && (forall a :: a in q.heap ==> 1 <= q.heap[a].id <= |calls|)
    && (forall a :: a in q.heap ==> q.heap[a].interval == calls[q.heap[a].id - 1].interval)
    && (forall a :: a in q.heap && !HasFired(q.fired, q.heap[a].id) ==> q.heap[a].when == calls[q.heap[a].id - 1].when)
  }

  /** The i-th shot is the first of its timer. */
  predicate IsFirst(fired: seq<Shot>, i: nat)
    requires i < |fired|
  {
    forall j :: 0 <= j < i ==> fired[j].id != fired[i].id
  }

  /** The first shot of every timer is for the deadline of its call. */
  ghost predicate FirstShots(fired: seq<Shot>, calls: seq<Call>) {
    forall i :: 0 <= i < |fired| && IsFirst(fired, i) ==> 1 <= fired[i].id <= |calls| && fired[i].due == calls[fired[i].id - 1].when
  }

  lemma AddAsCalled(q: Queue, ev: Event, calls: seq<Call>)
    requires Inv(q) && AsCalled(q, calls) && Enabled(q, ev) && (ev.Add? || ev.Post?)
    ensures Step(q, ev).Ok? && AsCalled(Step(q, ev).q, calls + Calls([ev])) && Step(q, ev).q.fired == q.fired
  {
    assert Calls([ev]) == [Call(ev.when, ev.interval)];
    hide *;
    if ev.Add? { AddOutcome(q, ev.addr, ev.when, ev.interval); } else { PostOutcome(q, ev.addr, ev.when, ev.interval); }
    MadeAsCalled(q, Step(q, ev).q, ev.addr, calls, Call(ev.when, ev.interval));
  }

  lemma MadeAsCalled(q: Queue, t: Queue, a: Addr, calls: seq<Call>, call: Call)
    requires AsCalled(q, calls) && OthersStay(q, t, a) && t.lastId == q.lastId + 1
    requires a in t.heap && t.heap[a] == Timer(q.lastId + 1, call.when, call.interval)
    ensures AsCalled(t, calls + [call]) && t.fired == q.fired
  {
    hide HasFired;
    forall b | b in t.heap && b != a ensures b in q.heap && t.heap[b] == q.heap[b] {}
  }

  /** No timer changes, but that some may go. */
  ghost predicate Fewer(q: Queue, t: Queue) {
    t.lastId == q.lastId && (forall a :: a in t.heap ==> a in q.heap && t.heap[a] == q.heap[a]) && q.fired <= t.fired
  }

  lemma FewerAsCalled(q: Queue, t: Queue, calls: seq<Call>)
    requires AsCalled(q, calls) && Fewer(q, t)
    ensures AsCalled(t, calls)
  {
    forall id ensures HasFired(q.fired, id) ==> HasFired(t.fired, id) {
      if x :| x in q.fired && x.id == id { assert x in t.fired; }
    }
    hide HasFired;
  }

  lemma StepFewer(q: Queue, ev: Event)
    requires Inv(q) && Enabled(q, ev) && Step(q, ev).Ok? && !ev.Add? && !ev.Post? && !ev.Rearm?
    ensures Fewer(q, Step(q, ev).q)
  {
    if ev.Arrive? {
      ArriveOutcome(q, ev.addr);
      hide Inv, Enabled, Step;
    } else if ev.Cancel? {
      CancelFewer(q, ev.id);
      hide Inv, CancelStep;
    } else if ev.Begin? {
      BeginFewer(q, ev.now);
      hide Inv, BeginStep;
    } else {
      if ev.Trigger? { TriggerKeeps(q); }
      hide Inv;
    }
  }

  lemma CancelFewer(q: Queue, id: nat)
    requires CancelStep(q, id).Ok?
    ensures Fewer(q, CancelStep(q, id).q)
  {
    hide Erase, Found;
  }

  lemma BeginFewer(q: Queue, now: int)
    requires BeginStep(q, now).Ok?
    ensures Fewer(q, BeginStep(q, now).q)
  {
    hide LowerBound, Snapshot, IdsOf;
  }

  /** Re-arming touches only a timer that has fired. */
  lemma RearmAsCalled(q: Queue, calls: seq<Call>)
    requires Inv(q) && AsCalled(q, calls) && Enabled(q, Rearm) && RearmStep(q).Ok?
    ensures AsCalled(RearmStep(q).q, calls) && RearmStep(q).q.fired == q.fired
  {
    hide *;
    BatchHasFired(q);
    RearmShape(q);
    RearmHead(q);
    OneChanged(q, RearmStep(q).q, q.round.batch[q.round.next].addr, calls);
  }

  lemma RearmHead(q: Queue)
    requires Enabled(q, Rearm)
    ensures q.round.next < |q.round.batch|
  {
  }

  lemma OneChanged(q: Queue, t: Queue, a: Addr, calls: seq<Call>)
    requires AsCalled(q, calls) && t.fired == q.fired && t.lastId == q.lastId && a in q.heap && HasFired(q.fired, q.heap[a].id)
    requires forall b :: b in t.heap ==> b in q.heap && (b != a ==> t.heap[b] == q.heap[b])
    requires a in t.heap ==> t.heap[a].id == q.heap[a].id && t.heap[a].interval == q.heap[a].interval
    ensures AsCalled(t, calls)
  {
    hide HasFired;
  }

  lemma RearmShape(q: Queue)
    requires Enabled(q, Rearm) && RearmStep(q).Ok?
    ensures var t, a := RearmStep(q).q, q.round.batch[q.round.next].addr;
            && a in q.heap && t.fired == q.fired && t.lastId == q.lastId
            && (forall b :: b in t.heap ==> b in q.heap && (b != a ==> t.heap[b] == q.heap[b]))
            && (a in t.heap ==> t.heap[a].id == q.heap[a].id && t.heap[a].interval == q.heap[a].interval)
  {
    hide Insert;
  }

  lemma BatchHasFired(q: Queue)
    requires Inv(q) && Enabled(q, Rearm)
    ensures var a := q.round.batch[q.round.next].addr; a in q.heap ==> HasFired(q.fired, q.heap[a].id)
  {
    BatchIsHeld(q, q.round.next);
    hide Indexed, UniqueIds, OnePlace, FreedOnce, NeverEarly;
    var shots := q.fired[q.round.base..];
    assert shots[q.round.next] in q.fired;
  }

  /** What the next shot will be. */
  lemma NextIsKnown(q: Queue, calls: seq<Call>)
    requires AsCalled(q, calls) && Enabled(q, Trigger) && TriggerStep(q).Ok?
    ensures var t := TriggerStep(q).q;
            && |t.fired| == |q.fired| + 1 && t.fired[..|q.fired|] == q.fired
            && var x := t.fired[|q.fired|];
               1 <= x.id <= |calls| && (!HasFired(q.fired, x.id) ==> x.due == calls[x.id - 1].when)
  {
    hide HasFired;
  }

  lemma FirstIsNew(fired: seq<Shot>, more: seq<Shot>)
    requires |more| == |fired| + 1 && more[..|fired|] == fired
    ensures IsFirst(more, |fired|) ==> !HasFired(fired, more[|fired|].id)
  {
    if !(forall i :: 0 <= i < |fired| ==> fired[i].id != more[|fired|].id) {
      var j :| 0 <= j < |fired| && fired[j].id == more[|fired|].id;
      assert more[j] == fired[j];
    }
  }

  lemma ShotsGrow(fired: seq<Shot>, more: seq<Shot>, calls: seq<Call>)
    requires FirstShots(fired, calls) && |more| == |fired| + 1 && more[..|fired|] == fired
    requires var x := more[|fired|]; 1 <= x.id <= |calls| && (!HasFired(fired, x.id) ==> x.due == calls[x.id - 1].when)
    ensures FirstShots(more, calls)
  {
    forall i | 0 <= i < |more| && IsFirst(more, i) ensures 1 <= more[i].id <= |calls| && more[i].due == calls[more[i].id - 1].when {
      if i < |fired| {
        assert fired[i] == more[i] && IsFirst(fired, i);
      } else {
        FirstIsNew(fired, more);
      }
    }
  }

  lemma TriggerFirst(q: Queue, calls: seq<Call>)
    requires AsCalled(q, calls) && FirstShots(q.fired, calls) && Enabled(q, Trigger) && TriggerStep(q).Ok?
    ensures FirstShots(TriggerStep(q).q.fired, calls)
  {
    NextIsKnown(q, calls);
    hide *;
    ShotsGrow(q.fired, TriggerStep(q).q.fired, calls);
  }

  lemma MoreCalls(fired: seq<Shot>, calls: seq<Call>, more: seq<Call>)
    requires FirstShots(fired, calls)
    ensures FirstShots(fired, calls + more)
  {
    hide IsFirst;
  }

  lemma StepAsCalled(q: Queue, ev: Event, calls: seq<Call>)
    requires Inv(q) && AsCalled(q, calls) && FirstShots(q.fired, calls) && Enabled(q, ev) && Step(q, ev).Ok?
    ensures AsCalled(Step(q, ev).q, calls + Calls([ev])) && FirstShots(Step(q, ev).q.fired, calls + Calls([ev]))
  {
    hide *;
    var t := Step(q, ev).q;
    NoCalls(ev);
    StepOf(q, ev);
    MoreCalls(q.fired, calls, Calls([ev]));
    assert calls + [] == calls;
    if ev.Add? || ev.Post? {
      AddAsCalled(q, ev, calls);
    } else {
      if ev.Rearm? { RearmAsCalled(q, calls); } else { StepFewer(q, ev); FewerAsCalled(q, t, calls); }
      if ev.Trigger? { TriggerFirst(q, calls); } else { SameShots(q, ev); }
    }
  }

  lemma StepOf(q: Queue, ev: Event)
    requires Enabled(q, ev)
    ensures ev.Rearm? ==> Step(q, ev) == RearmStep(q)
    ensures ev.Trigger? ==> Step(q, ev) == TriggerStep(q)
  {
    hide RearmStep, TriggerStep;
  }

  lemma NoCalls(ev: Event)
    ensures !ev.Add? && !ev.Post? ==> Calls([ev]) == []
  {
    assert [ev][1..] == [];
  }

  lemma SameShots(q: Queue, ev: Event)
    requires Enabled(q, ev) && Step(q, ev).Ok? && !ev.Trigger?
    ensures Step(q, ev).q.fired == q.fired
  {
    hide Insert, Erase, LowerBound, Found, Snapshot, IdsOf;
  }

  lemma {:induction false} RunAsCalled(q: Queue, run: seq<Event>, calls: seq<Call>)
    requires Inv(q) && AsCalled(q, calls) && FirstShots(q.fired, calls) && Legal(q, run) && Exec(q, run).Ok?
    ensures var t := Exec(q, run).q; AsCalled(t, calls + Calls(run)) && FirstShots(t.fired, calls + Calls(run))
    decreases |run|
  {
    hide Inv, AsCalled, FirstShots, Step, Enabled;
    if run == [] {
      assert calls + Calls(run) == calls;
    } else {
      StepInv(q, run[0]);
      StepAsCalled(q, run[0], calls);
      RunAsCalled(Step(q, run[0]).q, run[1..], calls + Calls([run[0]]));
      CallsHead(run);
      assert calls + Calls([run[0]]) + Calls(run[1..]) == calls + Calls(run);
    }
  }

  lemma CallsHead(run: seq<Event>)
    requires run != []
    ensures Calls(run) == Calls([run[0]]) + Calls(run[1..])
  {
    assert [run[0]][1..] == [];
  }

  /**
   After any run: as many timers were created as there were addTimer calls, the
   k-th with the interval of the k-th call; a timer that has not fired waits for
   the deadline of its call, and the first shot of every timer was for it.
   */
  lemma TimersAreThoseAdded(run: seq<Event>)
    requires Legal(EMPTY, run) && Exec(EMPTY, run).Ok?
    ensures AsCalled(Exec(EMPTY, run).q, Calls(run)) && FirstShots(Exec(EMPTY, run).q.fired, Calls(run))
  {
    EmptyInv();
    RunAsCalled(EMPTY, run, []);
    assert [] + Calls(run) == Calls(run);
  }
}
