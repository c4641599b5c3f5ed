/** Whole-run theorems about the timer queue. */
module TimerRuns {
  import opened TimerSpec
  import opened Seqs
  import opened TimerInvariant

  /** The only assert an enabled event can trip is the one on the batch pivot. */
  lemma StepInv(q: Queue, ev: Event)
    requires Inv(q) && Enabled(q, ev)
    ensures Step(q, ev).Ok? ==> Inv(Step(q, ev).q)
    ensures Step(q, ev).Crash? ==> Step(q, ev).why == Assert120 && ev.Begin?
  {
    hide Inv;
    match ev
    case Add(a, when, interval) => AddInv(q, a, when, interval);
    case Post(a, when, interval) => PostInv(q, a, when, interval);
    case Arrive(a) => ArriveInv(q, a);
    case Cancel(id) => CancelInv(q, id);
    case Begin(now) => BeginInv(q, now);
    case Trigger => TriggerInv(q);
    case EndFiring => EndFiringInv(q);
    case Rearm => RearmInv(q);
    case Finish => FinishInv(q);
  }

  /**
   For every run and every callback behaviour: no dangling Timer*, the asserts
   of lines 53, 66 and 111 hold, and the invariant holds in the last state.
   */
  lemma {:induction false} RunsAreSafe(q: Queue, run: seq<Event>)
    requires Inv(q) && Legal(q, run)
    ensures Exec(q, run).Ok? ==> Inv(Exec(q, run).q)
    ensures Exec(q, run).Crash? ==> Exec(q, run).why == Assert120
    decreases |run|
  {
    if run != [] {
      StepInv(q, run[0]);
      if Step(q, run[0]).Ok? { RunsAreSafe(Step(q, run[0]).q, run[1..]); }
    }
  }

  // ----- the pivot -----

  /** The assert of line 120 fails exactly for a timer due at `now` that lies at or above the sentinel. */
  lemma PivotAssert(q: Queue, now: int)
    requires Inv(q) && Enabled(q, Begin(now))
    ensures Step(q, Begin(now)).Crash? <==> exists e :: e in q.timers && e.when == now && e.addr >= SENTINEL
  {
    if q.timers != [] {
      BeginTook(q, now);
      PivotCut(q.timers, now);
    }
  }

  lemma PivotCut(s: seq<Entry>, now: int)
    requires Sorted(s)
    ensures var n := LowerBound(s, Entry(now, SENTINEL));
            n < |s| && s[n].when <= now <==> exists e :: e in s && e.when == now && e.addr >= SENTINEL
  {
    var n := LowerBound(s, Entry(now, SENTINEL));
    if e :| e in s && e.when == now && e.addr >= SENTINEL {
      var k :| 0 <= k < |s| && s[k] == e;
      assert n <= k;
      assert n < k ==> Less(s[n], s[k]);
    }
    if n < |s| && s[n].when <= now {
      assert s[n] in s;
    }
  }

  predicate LowAddresses(run: seq<Event>) {
    forall ev :: ev in run && (ev.Add? || ev.Post?) ==> ev.addr < SENTINEL
  }

  ghost predicate LowHeap(q: Queue) {
    forall a :: a in q.heap ==> a < SENTINEL
  }

  /** With an allocator that stays below the sentinel no run aborts. */
  lemma {:induction false} LowAddressRunsNeverAbort(q: Queue, run: seq<Event>)
    requires Inv(q) && LowHeap(q) && Legal(q, run) && LowAddresses(run)
    ensures Exec(q, run).Ok? && Inv(Exec(q, run).q) && LowHeap(Exec(q, run).q)
    decreases |run|
  {
    if run != [] {
      var ev := run[0];
      StepInv(q, ev);
      if ev.Begin? { PivotAssert(q, ev.now); }
      assert ev in run;
      var q' := Step(q, ev).q;
      LowHeapStep(q, ev);
      LowAddressRunsNeverAbort(q', run[1..]);
    }
  }

  lemma LowHeapStep(q: Queue, ev: Event)
    requires LowHeap(q) && Enabled(q, ev) && Step(q, ev).Ok?
    requires ev.Add? || ev.Post? ==> ev.addr < SENTINEL
    ensures LowHeap(Step(q, ev).q)
  {
    hide Insert, Erase, LowerBound, Found, Snapshot, IdsOf, CancelStep, BeginStep, TriggerStep, RearmStep;
    HeapOf(q, ev);
  }

  /** Only Add and Post allocate. */
  lemma HeapOf(q: Queue, ev: Event)
    requires Enabled(q, ev) && Step(q, ev).Ok?
    ensures forall a :: a in Step(q, ev).q.heap ==> a in q.heap || ((ev.Add? || ev.Post?) && a == ev.addr)
  {
    hide Insert, Erase, LowerBound, Found, Snapshot, IdsOf;
  }

  /** A one-shot timer due exactly at `now`, allocated where 64-bit heaps lie, aborts the loop. */
  lemma HighAddressAborts()
    ensures var run := [Add(0x5555_5576_aeb0, 1000, 0.0), Begin(1000)];
            Legal(EMPTY, run) && Exec(EMPTY, run) == Crash(Assert120)
  {
    EmptyInv();
    var ev := Add(0x5555_5576_aeb0, 1000, 0.0);
    var q := Step(EMPTY, ev).q;
    assert q.timers == [Entry(1000, 0x5555_5576_aeb0)];
    assert q.timers[0] in q.timers;
    StepInv(EMPTY, ev);
    PivotAssert(q, 1000);
    StepInv(q, Begin(1000));
    var run := [ev, Begin(1000)];
    assert run[1..] == [Begin(1000)] && run[1..][1..] == [];
    assert Legal(q, run[1..]);
  }

  // ----- conservation -----

  ghost predicate InInbox(q: Queue, id: nat) {
    exists a :: a in q.inbox && a in q.heap && q.heap[a].id == id
  }

  ghost predicate InBatch(q: Queue, id: nat) {
    exists e :: e in Held(q) && e.addr in q.heap && q.heap[e.addr].id == id
  }

  ghost function Places(q: Queue, id: nat): nat {
    (if InInbox(q, id) then 1 else 0) + (if id in q.active then 1 else 0)
    + (if InBatch(q, id) then 1 else 0) + multiset(q.freed)[id]
  }

  lemma CountOfDistinct<T>(s: seq<T>, x: T)
    requires NoRepeats(s)
    ensures multiset(s)[x] == if x in s then 1 else 0
  {
    if s != [] {
      var n := |s| - 1;
      CountOfDistinct(s[..n], x);
      assert s == s[..n] + [s[n]];
    }
  }

  /**
   Every timer ever created is in exactly one place, counting each `delete`:
   waiting to be added, in both indexes, in the batch being run, or freed.
   */
  lemma OwnedExactlyOnce(q: Queue, id: nat)
    requires Inv(q) && 1 <= id <= q.lastId
    ensures Places(q, id) == 1
  {
    CountOfDistinct(q.freed, id);
    if id in q.freed {
      assert !Live(q, id);
    } else {
      assert Live(q, id);
      var a :| a in q.heap && q.heap[a].id == id;
      if a in q.inbox {
        assert InInbox(q, id);
      } else if id !in q.active {
        assert Entry(q.heap[a].when, a) in Held(q);
        assert InBatch(q, id);
      }
    }
  }

  lemma ConservedInEveryRun(run: seq<Event>, id: nat)
    requires Legal(EMPTY, run) && Exec(EMPTY, run).Ok?
    ensures var t := Exec(EMPTY, run).q;
            && (1 <= id <= t.lastId ==> Places(t, id) == 1)
            && |t.timers| == |t.active|
            && (forall s :: s in t.fired ==> s.due <= s.now)
  {
    EmptyInv();
    RunsAreSafe(EMPTY, run);
    var t := Exec(EMPTY, run).q;
    if 1 <= id <= t.lastId { OwnedExactlyOnce(t, id); }
  }

  // ----- cancellation -----

  function Times(fired: seq<Shot>, id: nat): nat {
    if fired == [] then 0
    else Times(fired[..|fired| - 1], id) + if fired[|fired| - 1].id == id then 1 else 0
  }

  /** Shots still to come for `id` in the batch being fired. */
  function Remaining(q: Queue, id: nat): (n: nat)
    ensures n <= 1
  {
    if q.stage.Firing? && q.round.next <= |q.round.snap| && id in IdsOf(q.round.snap[q.round.next..]) then 1 else 0
  }

  /** Cancelled for good: freed, or in the batch with its id in cancelTimers_. */
  ghost predicate Doomed(q: Queue, id: nat) {
    || id in q.freed
    || (id in q.cancelled && q.stage.Firing? && id in IdsOf(q.round.snap))
    || (id in q.cancelled && q.stage.Rearming? && q.round.next <= |q.round.snap| && id in IdsOf(q.round.snap[q.round.next..]))
  }

  lemma BatchIsHeld(q: Queue, k: nat)
    requires Inv(q) && !q.stage.Idle? && k < |q.round.snap| && (q.stage.Rearming? ==> q.round.next <= k)
    ensures q.round.snap[k].id !in q.active && Live(q, q.round.snap[k].id) && !InInbox(q, q.round.snap[k].id)
    ensures q.round.batch[k].addr in q.heap && q.heap[q.round.batch[k].addr] == q.round.snap[k]
  {
    hide Indexed, FreedOnce, NeverEarly, ShotsSoFar, Leftovers, AllSettled;
    var i := if q.stage.Firing? then k else k - q.round.next;
    assert Held(q)[i] == q.round.batch[k];
    assert q.round.batch[k] in Held(q);
  }

  lemma DoomedIsInactive(q: Queue, id: nat)
    requires Inv(q) && Doomed(q, id)
    ensures id !in q.active && (id in q.freed ==> Remaining(q, id) == 0)
    ensures !InInbox(q, id)
  {
    if id in q.freed {
      assert !Live(q, id);
      forall k | 0 <= k < |q.round.snap| && q.stage.Firing? ensures q.round.snap[k].id != id { BatchIsHeld(q, k); }
    } else {
      var k :| 0 <= k < |q.round.snap| && q.round.snap[k].id == id && (q.stage.Rearming? ==> q.round.next <= k);
      BatchIsHeld(q, k);
    }
  }

  /** Events that leave the round alone. */
  lemma QuietStep(q: Queue, ev: Event)
    requires Enabled(q, ev) && Step(q, ev).Ok? && (ev.Add? || ev.Post? || ev.Arrive? || ev.Cancel?)
    ensures var q' := Step(q, ev).q;
            && q'.stage == q.stage && q'.round == q.round && q'.fired == q.fired
            && q'.cancelled == (if ev.Cancel? && ev.id !in q.active && q.stage.Firing? then q.cancelled + {ev.id} else q.cancelled)
            && (q'.freed == q.freed || (ev.Cancel? && ev.id in q.active && q'.freed == q.freed + [q.heap[q.active[ev.id]].id]))
  {
  }

  lemma DoomedStep(q: Queue, ev: Event, id: nat)
    requires Inv(q) && Enabled(q, ev) && Step(q, ev).Ok? && Doomed(q, id)
    ensures var q' := Step(q, ev).q;
            Doomed(q', id) && Times(q'.fired, id) + Remaining(q', id) == Times(q.fired, id) + Remaining(q, id)
  {
    match ev
    case Trigger => TriggerDoomed(q, id);
    case Rearm => RearmDoomed(q, id);
    case Begin(now) => BeginDoomed(q, now, id);
    case EndFiring => assert q.round.snap[0..] == q.round.snap; EndDoomed(q, id);
    case Add(_, _, _) => QuietStep(q, ev);
    case Post(_, _, _) => QuietStep(q, ev);
    case Arrive(_) => QuietStep(q, ev);
    case Cancel(_) => QuietStep(q, ev);
    case Finish => EndDoomed(q, id);
  }

  lemma EndDoomed(q: Queue, id: nat)
    requires Inv(q) && !q.stage.Idle? && q.round.next == |q.round.batch|
    ensures Remaining(q, id) == 0 && (q.stage.Rearming? && Doomed(q, id) ==> id in q.freed)
  {
    assert q.round.snap[q.round.next..] == [];
  }

  lemma BeginDoomed(q: Queue, now: int, id: nat)
    requires Inv(q) && Enabled(q, Begin(now)) && BeginStep(q, now).Ok? && id in q.freed
    ensures var q' := BeginStep(q, now).q;
            Doomed(q', id) && Times(q'.fired, id) + Remaining(q', id) == Times(q.fired, id) + Remaining(q, id)
  {
    BeginInv(q, now);
    DoomedIsInactive(BeginStep(q, now).q, id);
  }

  lemma TriggerDoomed(q: Queue, id: nat)
    requires Inv(q) && Enabled(q, Trigger) && Doomed(q, id)
    ensures var q' := TriggerStep(q).q;
            && TriggerStep(q).Ok?
            && Doomed(q', id) && Times(q'.fired, id) + Remaining(q', id) == Times(q.fired, id) + Remaining(q, id)
  {
    hide Inv, TriggerStep, IdsOf, Times, Enabled;
    NextShot(q);
    TriggerShape(q);
    TailIds(q.round.snap, q.round.next);
    TimesSnoc(q.fired, Shot(q.round.snap[q.round.next].id, q.round.snap[q.round.next].when, q.round.now), id);
  }

  lemma TriggerShape(q: Queue)
    requires Enabled(q, Trigger) && TriggerStep(q).Ok? && q.round.next < |q.round.snap| == |q.round.batch|
    requires q.round.batch[q.round.next].addr in q.heap && q.heap[q.round.batch[q.round.next].addr] == q.round.snap[q.round.next]
    ensures q.stage.Firing?
    ensures var q', t := TriggerStep(q).q, q.round.snap[q.round.next];
            && q'.fired == q.fired + [Shot(t.id, t.when, q.round.now)] && q'.round == q.round.(next := q.round.next + 1)
            && q'.stage == q.stage && q'.cancelled == q.cancelled && q'.freed == q.freed
  {
  }

  lemma TimesSnoc(fired: seq<Shot>, shot: Shot, id: nat)
    ensures Times(fired + [shot], id) == Times(fired, id) + if shot.id == id then 1 else 0
  {
    assert (fired + [shot])[..|fired|] == fired;
  }

  /** The member about to fire, and that no later member has its id. */
  lemma NextShot(q: Queue)
    requires Inv(q) && Enabled(q, Trigger)
    ensures TriggerStep(q).Ok? && q.round.next < |q.round.snap| == |q.round.batch|
    ensures var t := q.round.snap[q.round.next];
            && q.round.batch[q.round.next].addr in q.heap && q.heap[q.round.batch[q.round.next].addr] == t
            && t.id !in IdsOf(q.round.snap[q.round.next + 1..])
  {
    TriggerInv(q);
    BatchIsHeld(q, q.round.next);
  }

  lemma RearmDoomed(q: Queue, id: nat)
    requires Inv(q) && Enabled(q, Rearm) && Doomed(q, id)
    ensures RearmStep(q).Ok? && Doomed(RearmStep(q).q, id)
    ensures RearmStep(q).q.fired == q.fired && RearmStep(q).q.stage == q.stage
  {
    var n := q.round.next;
    BatchIsHeld(q, n);
    var t := q.round.snap[n];
    RearmShape(q, t);
    hide Inv, RearmStep;
    TailIds(q.round.snap, n);
  }

  lemma RearmShape(q: Queue, t: Timer)
    requires Enabled(q, Rearm) && q.round.batch[q.round.next].addr in q.heap && q.heap[q.round.batch[q.round.next].addr] == t
    ensures RearmStep(q).Ok?
    ensures var q' := RearmStep(q).q;
            && q'.round == q.round.(next := q.round.next + 1) && q'.cancelled == q.cancelled
            && q'.fired == q.fired && q'.stage == q.stage
            && q'.freed == if t.Repeat() && t.id !in q.cancelled then q.freed else q.freed + [t.id]
  {
  }

  lemma TailIds(ts: seq<Timer>, n: nat)
    requires n < |ts|
    ensures IdsOf(ts[n..]) == {ts[n].id} + IdsOf(ts[n + 1..])
  {
    assert ts[n..] == [ts[n]] + ts[n + 1..];
  }

  lemma {:induction false} DoomedRun(q: Queue, run: seq<Event>, id: nat)
    requires Inv(q) && Doomed(q, id) && Legal(q, run) && Exec(q, run).Ok?
    ensures var t := Exec(q, run).q;
            Inv(t) && Doomed(t, id) && Times(t.fired, id) + Remaining(t, id) == Times(q.fired, id) + Remaining(q, id)
    decreases |run|
  {
    if run != [] {
      StepInv(q, run[0]);
      DoomedStep(q, run[0], id);
      DoomedRun(Step(q, run[0]).q, run[1..], id);
    }
  }

  /**
   Once cancelTimer(id) has run on the loop thread, for a timer whose add has
   reached the queue, every continuation fires it exactly as often as the batch
   being fired still owes it (at most once, and never outside a batch), never
   indexes it again, and has freed it by the time no batch is running.
   */
  lemma CancelIsFinal(q: Queue, id: nat, run: seq<Event>)
    requires Inv(q) && 1 <= id <= q.lastId && !InInbox(q, id)
    requires Legal(q, [Cancel(id)] + run) && Exec(q, [Cancel(id)] + run).Ok?
    ensures var t := Exec(q, [Cancel(id)] + run).q;
            && Times(t.fired, id) + Remaining(t, id) == Times(q.fired, id) + Remaining(q, id)
            && id !in t.active && !InInbox(t, id)
            && (t.stage.Idle? ==> id in t.freed)
  {
    assert ([Cancel(id)] + run)[0] == Cancel(id) && ([Cancel(id)] + run)[1..] == run;
    CancelInv(q, id);
    var q' := CancelStep(q, id).q;
    CancelDooms(q, id);
    DoomedRun(q', run, id);
    DoomedIsInactive(Exec(q', run).q, id);
  }

  lemma CancelDooms(q: Queue, id: nat)
    requires Inv(q) && Enabled(q, Cancel(id)) && 1 <= id <= q.lastId && !InInbox(q, id)
    ensures CancelStep(q, id).Ok? && Doomed(CancelStep(q, id).q, id)
    ensures CancelStep(q, id).q.fired == q.fired && Remaining(CancelStep(q, id).q, id) == Remaining(q, id)
  {
    CancelInv(q, id);
    QuietStep(q, Cancel(id));
    if id !in q.active && id !in q.freed { UnfreedIsInBatch(q, id); }
  }

  /** A cancel takes hold exactly when the timer's add has reached the queue; before that it is lost. */
  lemma CancelHoldsIff(q: Queue, id: nat)
    requires Inv(q) && Enabled(q, Cancel(id)) && 1 <= id <= q.lastId
    ensures CancelStep(q, id).Ok?
    ensures Doomed(CancelStep(q, id).q, id) <==> !InInbox(q, id)
    ensures InInbox(q, id) ==> CancelStep(q, id).q == q.(cancelled := if q.stage.Firing? then q.cancelled + {id} else q.cancelled)
  {
    CancelInv(q, id);
    if InInbox(q, id) {
      InboxIsElsewhere(q, id);
    } else {
      CancelDooms(q, id);
    }
  }

  lemma InboxIsElsewhere(q: Queue, id: nat)
    requires Inv(q) && InInbox(q, id)
    ensures id !in q.active && id !in q.freed && (q.stage.Firing? ==> id !in IdsOf(q.round.snap))
  {
    var a :| a in q.inbox && a in q.heap && q.heap[a].id == id;
    if q.stage.Firing? && id in IdsOf(q.round.snap) {
      var k :| 0 <= k < |q.round.snap| && q.round.snap[k].id == id;
      BatchIsHeld(q, k);
    }
  }

  lemma UnfreedIsInBatch(q: Queue, id: nat)
    requires Inv(q) && 1 <= id <= q.lastId && !q.stage.Rearming?
    requires id !in q.active && id !in q.freed && !InInbox(q, id)
    ensures q.stage.Firing? && id in IdsOf(q.round.snap)
  {
    assert Live(q, id);
    var a :| a in q.heap && q.heap[a].id == id;
    assert a !in q.inbox;
    var e := Entry(q.heap[a].when, a);
    assert e in Held(q);
    var k :| 0 <= k < |q.round.batch| && q.round.batch[k] == e;
    assert q.round.snap[k] in q.round.snap;
  }
}
