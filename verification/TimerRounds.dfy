/** What one complete `runTimer` call does, whatever its callbacks do. */
module TimerRounds {
  import opened TimerSpec
  import opened TimerInvariant
  import opened TimerRuns

  lemma {:induction false} ExecConcat(q: Queue, a: seq<Event>, b: seq<Event>)
    requires Legal(q, a + b)
    ensures Legal(q, a)
    ensures match Exec(q, a)
            case Ok(m) => Legal(m, b) && Exec(q, a + b) == Exec(m, b)
            case Crash(why) => Exec(q, a + b) == Crash(why)
    decreases |a|
  {
    if a == [] {
      assert a + b == b;
    } else {
      assert (a + b)[0] == a[0] && (a + b)[1..] == a[1..] + b;
      if Step(q, a[0]).Ok? { ExecConcat(Step(q, a[0]).q, a[1..], b); }
    }
  }

  lemma {:induction false} LegalConcat(q: Queue, a: seq<Event>, b: seq<Event>)
    requires Legal(q, a) && (Exec(q, a).Ok? ==> Legal(Exec(q, a).q, b))
    ensures Legal(q, a + b)
    decreases |a|
  {
    if a == [] {
      assert a + b == b;
    } else {
      assert (a + b)[0] == a[0] && (a + b)[1..] == a[1..] + b;
      if Step(q, a[0]).Ok? { LegalConcat(Step(q, a[0]).q, a[1..], b); }
    }
  }

  /** Inside a round everything but the iterator stays; cancelTimers_ records the cancels. */
  ghost predicate SameRound(q: Queue, t: Queue, mid: seq<Event>) {
    && !t.stage.Idle? && t.round.(next := 0) == q.round.(next := 0)
    && |q.fired| <= |t.fired| && t.fired[..|q.fired|] == q.fired
    && (forall id :: id in IdsOf(q.round.snap) ==>
          (id in t.cancelled <==> id in q.cancelled || Cancel(id) in mid))
  }

  lemma HeldIsInactive(q: Queue, id: nat)
    requires Inv(q) && q.stage.Firing?
    ensures id in IdsOf(q.round.snap) ==> id !in q.active
  {
    if id in IdsOf(q.round.snap) {
      var k :| 0 <= k < |q.round.snap| && q.round.snap[k].id == id;
      BatchIsHeld(q, k);
    }
  }

  lemma RoundStep(q: Queue, ev: Event)
    requires Inv(q) && !q.stage.Idle? && Enabled(q, ev) && Step(q, ev).Ok? && !ev.Finish?
    ensures SameRound(q, Step(q, ev).q, [ev]) && !Step(q, ev).q.stage.Idle?
  {
    hide Inv;
    if ev.Cancel? {
      QuietStep(q, ev);
      HeldIsInactive(q, ev.id);
    } else if ev.Add? || ev.Post? || ev.Arrive? {
      QuietStep(q, ev);
    } else if ev.Trigger? {
      TriggerKeeps(q);
    } else if ev.Rearm? {
      RearmKeeps(q);
    }
  }

  lemma TriggerKeeps(q: Queue)
    requires Enabled(q, Trigger) && TriggerStep(q).Ok?
    ensures var t := TriggerStep(q).q;
            && t.stage == q.stage && t.round == q.round.(next := q.round.next + 1) && t.cancelled == q.cancelled
            && |t.fired| == |q.fired| + 1 && t.fired[..|q.fired|] == q.fired
  {
  }

  lemma RearmKeeps(q: Queue)
    requires Enabled(q, Rearm) && RearmStep(q).Ok?
    ensures var t := RearmStep(q).q;
            && t.stage == q.stage && t.round == q.round.(next := q.round.next + 1) && t.cancelled == q.cancelled
            && t.fired == q.fired
  {
  }

  lemma {:induction false} RoundRun(q: Queue, mid: seq<Event>)
    requires Inv(q) && !q.stage.Idle? && Legal(q, mid) && Exec(q, mid).Ok? && Finish !in mid
    ensures Inv(Exec(q, mid).q) && SameRound(q, Exec(q, mid).q, mid)
    decreases |mid|
  {
    hide Inv, Step;
    if mid != [] {
      var ev, rest := mid[0], mid[1..];
      assert mid == [ev] + rest;
      assert ev in mid && Finish !in rest;
      var q1 := RoundHead(q, ev, rest);
      hide SameRound;
      RoundRun(q1, rest);
      SameRoundTransitive(q, q1, Exec(q1, rest).q, ev, rest);
    }
  }

  lemma RoundHead(q: Queue, ev: Event, rest: seq<Event>) returns (q1: Queue)
    requires Inv(q) && !q.stage.Idle? && !ev.Finish? && Legal(q, [ev] + rest) && Exec(q, [ev] + rest).Ok?
    ensures Inv(q1) && !q1.stage.Idle? && SameRound(q, q1, [ev])
    ensures Legal(q1, rest) && Exec(q1, rest) == Exec(q, [ev] + rest)
  {
    hide Inv;
    assert ([ev] + rest)[0] == ev && ([ev] + rest)[1..] == rest;
    StepInv(q, ev);
    RoundStep(q, ev);
    q1 := Step(q, ev).q;
  }

  lemma SameRoundTransitive(q: Queue, q1: Queue, t: Queue, ev: Event, rest: seq<Event>)
    requires SameRound(q, q1, [ev]) && SameRound(q1, t, rest)
    ensures SameRound(q, t, [ev] + rest)
  {
    assert t.fired[..|q.fired|] == t.fired[..|q1.fired|][..|q.fired|];
  }

  /**
   One runTimer(now) call with any callbacks.  The batch is exactly the entries
   with deadline <= now, in deadline order; its members fire in that order, each
   once, and nothing else fires; afterwards a repeating member that nobody
   cancelled meanwhile is indexed again with deadline now + interval, every
   other member has been freed; and an entry still due was created by a
   callback, or repeats with an interval below one microsecond.
   */
  lemma RoundOutcome(q: Queue, now: int, mid: seq<Event>)
    requires Inv(q) && q.timers != [] && Finish !in mid
    requires Legal(q, [Begin(now)] + mid + [Finish]) && Exec(q, [Begin(now)] + mid + [Finish]).Ok?
    ensures var t := Exec(q, [Begin(now)] + mid + [Finish]).q;
            && Inv(t) && t.stage.Idle?
            && BatchExact(q, t, now)
            && t.fired == q.fired + Shots(t.round.snap, |t.round.snap|, now)
            && MembersSettled(t, now, mid)
            && NothingOldLeft(t, now, q.lastId)
  {
    var q1, s := SplitRound(q, now, mid);
    FinishKeeps(s, now, q.lastId, mid);
    BatchIsExact(q, q1, now);
  }

  lemma FinishKeeps(s: Queue, now: int, floor: nat, mid: seq<Event>)
    requires MembersSettled(s, now, mid) && NothingOldLeft(s, now, floor)
    ensures MembersSettled(s.(stage := Idle), now, mid) && NothingOldLeft(s.(stage := Idle), now, floor)
  {
  }

  lemma ShotsOfRound(q1: Queue, s: Queue, mid: seq<Event>)
    requires Inv(s) && SameRound(q1, s, mid) && Enabled(s, Finish) && q1.round.base == |q1.fired|
    ensures s.fired == q1.fired + Shots(s.round.snap, |s.round.snap|, s.round.now)
  {
    RoundEnds(q1, s, mid);
    assert s.fired == s.fired[..|q1.fired|] + s.fired[|q1.fired|..];
  }

  lemma MembersAreSettled(q1: Queue, s: Queue, mid: seq<Event>)
    requires Inv(s) && SameRound(q1, s, mid) && Enabled(s, Finish) && q1.cancelled == {}
    ensures MembersSettled(s, s.round.now, mid)
  {
    RoundEnds(q1, s, mid);
    forall k | 0 <= k < |s.round.snap|
      ensures MemberOutcome(s, s.round.snap[k], s.round.now, Cancel(s.round.snap[k].id) in mid)
    {
      MemberSettled(q1, s, mid, k);
    }
  }

  /** The batch is the prefix of timers_ with deadline <= now; `snap` is what it held. */
  ghost predicate BatchExact(q: Queue, t: Queue, now: int) {
    var batch := t.round.batch;
    && batch <= q.timers && |t.round.snap| == |batch|
    && (forall e :: e in q.timers ==> (e in batch <==> e.when <= now))
    && (forall k :: 0 <= k < |batch| ==> batch[k].addr in q.heap && t.round.snap[k] == q.heap[batch[k].addr])
  }

  ghost predicate MembersSettled(t: Queue, now: int, mid: seq<Event>) {
    forall k :: 0 <= k < |t.round.snap| ==> MemberOutcome(t, t.round.snap[k], now, Cancel(t.round.snap[k].id) in mid)
  }

  ghost predicate NothingOldLeft(t: Queue, now: int, floor: nat) {
    forall e :: e in t.timers && e.addr in t.heap && e.when <= now ==>
      || t.heap[e.addr].id > floor
      || exists k :: 0 <= k < |t.round.snap| && t.round.snap[k].id == t.heap[e.addr].id && 0.0 < t.round.snap[k].interval < 0.000001
  }

  lemma BatchIsExact(q: Queue, q1: Queue, now: int)
    requires Indexed(q) && UniqueIds(q) && Took(q, q1)
    requires (forall e :: e in q1.round.batch ==> e.when <= now) && (forall e :: e in q1.timers ==> e.when > now)
    ensures BatchExact(q, q1, now)
  {
    BatchIds(q, q1.round.batch, q1.timers);
    forall k | 0 <= k < |q1.round.batch|
      ensures q1.round.batch[k].addr in q.heap && q1.round.snap[k] == q.heap[q1.round.batch[k].addr]
    {
      assert q1.round.batch[k] in q1.round.batch;
    }
  }

  lemma LeftoversAreNew(s: Queue)
    requires Inv(s) && Enabled(s, Finish)
    ensures NothingOldLeft(s, s.round.now, s.round.floor)
  {
    forall e | e in s.timers && e.addr in s.heap && e.when <= s.round.now && s.heap[e.addr].id <= s.round.floor
      ensures exists k :: 0 <= k < |s.round.snap| && s.round.snap[k].id == s.heap[e.addr].id && 0.0 < s.round.snap[k].interval < 0.000001
    {
      assert Leftover(s, e);
      var k :| 0 <= k < s.round.next && k < |s.round.snap| && s.round.snap[k].id == s.heap[e.addr].id && Micros(s.round.snap[k].interval) == 0;
      ShortInterval(s.round.snap[k]);
      LeftIsRepeating(s, e, k);
    }
  }

  lemma LeftIsRepeating(s: Queue, e: Entry, k: nat)
    requires Inv(s) && Enabled(s, Finish) && e in s.timers && e.addr in s.heap
    requires k < |s.round.snap| && k < s.round.next && s.round.snap[k].id == s.heap[e.addr].id
    ensures s.round.snap[k].Repeat()
  {
    assert Settled(s, k);
    assert Live(s, s.round.snap[k].id);
  }

  /** The timer `m` waits again, one interval after `now`; what is left of a microsecond is cut off. */
  ghost predicate Rearmed(t: Queue, m: Timer, now: int) {
    && m.id in t.active && t.active[m.id] in t.heap
    && var w := t.heap[t.active[m.id]];
       && w.id == m.id && w.interval == m.interval && Entry(w.when, t.active[m.id]) in t.timers
       && now as real + m.interval * 1000000.0 - 1.0 < w.when as real <= now as real + m.interval * 1000000.0
  }

  /** A batch member after the round. */
  ghost predicate MemberOutcome(t: Queue, m: Timer, now: int, cancelled: bool) {
    if m.interval > 0.0 && !cancelled then Rearmed(t, m, now) && m.id !in t.freed
    else m.id in t.freed && m.id !in t.active
  }

  lemma RestartIsNowPlusInterval(m: Timer, now: int)
    requires m.Repeat()
    ensures var w := m.Restart(now);
            && w.id == m.id && w.interval == m.interval
            && now as real + m.interval * 1000000.0 - 1.0 < w.when as real <= now as real + m.interval * 1000000.0
  {
  }

  lemma ShortInterval(m: Timer)
    ensures m.Repeat() <==> m.interval > 0.0
    ensures m.Repeat() && Micros(m.interval) == 0 ==> 0.0 < m.interval < 0.000001
  {
  }

  lemma SplitRound(q: Queue, now: int, mid: seq<Event>) returns (q1: Queue, s: Queue)
    requires Inv(q) && q.timers != [] && Finish !in mid
    requires Legal(q, [Begin(now)] + mid + [Finish]) && Exec(q, [Begin(now)] + mid + [Finish]).Ok?
    ensures Took(q, q1)
    ensures (forall e :: e in q1.round.batch ==> e.when <= now) && (forall e :: e in q1.timers ==> e.when > now)
    ensures s.round.batch == q1.round.batch && s.round.snap == q1.round.snap
    ensures s.fired == q.fired + Shots(s.round.snap, |s.round.snap|, now)
    ensures MembersSettled(s, now, mid) && NothingOldLeft(s, now, q.lastId)
    ensures Exec(q, [Begin(now)] + mid + [Finish]) == Ok(s.(stage := Idle)) && Inv(s.(stage := Idle))
  {
    q1, s := RunRound(q, now, mid);
    ShotsOfRound(q1, s, mid);
    MembersAreSettled(q1, s, mid);
    LeftoversAreNew(s);
  }

  lemma RunRound(q: Queue, now: int, mid: seq<Event>) returns (q1: Queue, s: Queue)
    requires Inv(q) && q.timers != [] && Finish !in mid
    requires Legal(q, [Begin(now)] + mid + [Finish]) && Exec(q, [Begin(now)] + mid + [Finish]).Ok?
    ensures Took(q, q1) && q1.round.now == now && q1.round.base == |q.fired| && q1.round.floor == q.lastId
    ensures (forall e :: e in q1.round.batch ==> e.when <= now) && (forall e :: e in q1.timers ==> e.when > now)
    ensures Inv(s) && SameRound(q1, s, mid) && Enabled(s, Finish)
    ensures Exec(q, [Begin(now)] + mid + [Finish]) == Ok(s.(stage := Idle)) && Inv(s.(stage := Idle))
  {
    q1, s := CutRun(q, now, mid);
    BeginTaken(q, q1, now);
    RoundRun(q1, mid);
    FinishInv(s);
  }

  /** Cut the run of one call after its first and before its last event. */
  lemma CutRun(q: Queue, now: int, mid: seq<Event>) returns (q1: Queue, s: Queue)
    requires Legal(q, [Begin(now)] + mid + [Finish]) && Exec(q, [Begin(now)] + mid + [Finish]).Ok?
    ensures Enabled(q, Begin(now)) && BeginStep(q, now) == Ok(q1)
    ensures Legal(q1, mid) && Exec(q1, mid) == Ok(s) && Enabled(s, Finish)
    ensures Exec(q, [Begin(now)] + mid + [Finish]) == Step(s, Finish)
  {
    ExecConcat(q, [Begin(now)] + mid, [Finish]);
    ExecConcat(q, [Begin(now)], mid);
    q1 := BeginStep(q, now).q;
    assert Exec(q, [Begin(now)]) == Ok(q1);
    s := Exec(q1, mid).q;
    assert Exec(s, [Finish]) == Step(s, Finish);
  }

  lemma BeginTaken(q: Queue, q1: Queue, now: int)
    requires Inv(q) && q.timers != [] && Enabled(q, Begin(now)) && BeginStep(q, now) == Ok(q1)
    ensures Took(q, q1) && q1.round.now == now && q1.round.base == |q.fired| && q1.round.floor == q.lastId
    ensures (forall e :: e in q1.round.batch ==> e.when <= now) && (forall e :: e in q1.timers ==> e.when > now)
    ensures Inv(q1)
  {
    BeginTook(q, now);
    BeginTakes(q, now);
    BeginInv(q, now);
  }

  lemma MemberSettled(q1: Queue, s: Queue, mid: seq<Event>, k: nat)
    requires Inv(s) && SameRound(q1, s, mid) && Enabled(s, Finish) && q1.cancelled == {} && k < |q1.round.snap|
    ensures MemberOutcome(s, s.round.snap[k], s.round.now, Cancel(s.round.snap[k].id) in mid)
  {
    var m := s.round.snap[k];
    assert Settled(s, k);
    assert m in q1.round.snap;
    ShortInterval(m);
    hide InRound, NeverEarly;
    if m.Repeat() && m.id !in s.cancelled {
      RestartIsNowPlusInterval(m, s.round.now);
      assert Live(s, m.id);
    }
  }

  lemma RoundEnds(q1: Queue, s: Queue, mid: seq<Event>)
    requires Inv(s) && SameRound(q1, s, mid) && Enabled(s, Finish)
    ensures s.round.next == |s.round.batch| == |s.round.snap| && s.round.snap == q1.round.snap && s.round.batch == q1.round.batch
    ensures s.fired[s.round.base..] == Shots(s.round.snap, |s.round.snap|, s.round.now)
    ensures s.fired[..|q1.fired|] == q1.fired
  {
  }

  // ----- one turn of the event loop -----

  predicate LoopOps(run: seq<Event>) {
    forall ev :: ev in run ==> ev.Add? || ev.Post? || ev.Arrive? || ev.Cancel?
  }

  lemma {:induction false} QueuedUnlessCancelled(q: Queue, pre: seq<Event>, e: Entry)
    requires Inv(q) && q.stage.Idle? && e in q.timers && LoopOps(pre)
    requires Legal(q, pre) && Exec(q, pre).Ok?
    ensures var t := Exec(q, pre).q;
            && Inv(t) && t.stage.Idle? && t.fired == q.fired
            && (Cancel(q.heap[e.addr].id) in pre ||
                (e in t.timers && e.addr in t.heap && t.heap[e.addr] == q.heap[e.addr]))
    decreases |pre|
  {
    if pre != [] {
      var ev := pre[0];
      assert ev in pre;
      StepInv(q, ev);
      QuietStep(q, ev);
      var q1 := Step(q, ev).q;
      if ev == Cancel(q.heap[e.addr].id) {
        OpsStayIdle(q1, pre[1..]);
      } else {
        EntrySurvives(q, ev, e);
        QueuedUnlessCancelled(q1, pre[1..], e);
      }
    }
  }

  lemma {:induction false} OpsStayIdle(q: Queue, pre: seq<Event>)
    requires Inv(q) && q.stage.Idle? && LoopOps(pre) && Legal(q, pre) && Exec(q, pre).Ok?
    ensures var t := Exec(q, pre).q; Inv(t) && t.stage.Idle? && t.fired == q.fired
    decreases |pre|
  {
    if pre != [] {
      assert pre[0] in pre;
      StepInv(q, pre[0]);
      QuietStep(q, pre[0]);
      OpsStayIdle(Step(q, pre[0]).q, pre[1..]);
    }
  }

  lemma EntrySurvives(q: Queue, ev: Event, e: Entry)
    requires Inv(q) && q.stage.Idle? && e in q.timers && Enabled(q, ev) && Step(q, ev).Ok?
    requires ev.Add? || ev.Post? || ev.Arrive? || (ev.Cancel? && ev.id != q.heap[e.addr].id)
    ensures var t := Step(q, ev).q; e in t.timers && e.addr in t.heap && t.heap[e.addr] == q.heap[e.addr]
  {
    hide UniqueIds, OnePlace, FreedOnce, NeverEarly, InRound;
    match ev
    case Add(a, when, interval) => InsertKeepsOrder(q.timers, Entry(when, a));
    case Arrive(a) => InsertKeepsOrder(q.timers, Entry(q.heap[a].when, a));
    case Cancel(id) => if id in q.active { CancelSparesOthers(q, id, e); }
    case Post(_, _, _) =>
  }

  lemma CancelSparesOthers(q: Queue, id: nat, e: Entry)
    requires Indexed(q) && id in q.active && e in q.timers && id != q.heap[e.addr].id && CancelStep(q, id).Ok?
    ensures var t := CancelStep(q, id).q; e in t.timers && e.addr in t.heap && t.heap[e.addr] == q.heap[e.addr]
  {
    EraseKeepsOrder(q.timers, Entry(q.heap[q.active[id]].when, q.active[id]));
  }

  /**
   A timer due at the `now` sampled at the top of a loop iteration fires in that
   iteration unless an event handled before runTimer cancels it.
   */
  lemma DueTimersFire(q: Queue, pre: seq<Event>, now: int, mid: seq<Event>, e: Entry)
    requires Inv(q) && q.stage.Idle? && e in q.timers && e.when <= now && LoopOps(pre) && Finish !in mid
    requires Legal(q, pre + ([Begin(now)] + mid + [Finish])) && Exec(q, pre + ([Begin(now)] + mid + [Finish])).Ok?
    ensures var t := Exec(q, pre + ([Begin(now)] + mid + [Finish])).q;
            var id := q.heap[e.addr].id;
            Cancel(id) in pre || (q.fired <= t.fired && Shot(id, e.when, now) in t.fired[|q.fired|..])
  {
    ExecConcat(q, pre, [Begin(now)] + mid + [Finish]);
    QueuedUnlessCancelled(q, pre, e);
    assert q.heap[e.addr].when == e.when;
    hide Inv;
    if Cancel(q.heap[e.addr].id) !in pre { DueInRound(Exec(q, pre).q, now, mid, e); }
  }

  lemma DueInRound(s: Queue, now: int, mid: seq<Event>, e: Entry)
    requires Inv(s) && e in s.timers && e.addr in s.heap && s.heap[e.addr].when == e.when <= now && Finish !in mid
    requires Legal(s, [Begin(now)] + mid + [Finish]) && Exec(s, [Begin(now)] + mid + [Finish]).Ok?
    ensures var t := Exec(s, [Begin(now)] + mid + [Finish]).q;
            s.fired <= t.fired && Shot(s.heap[e.addr].id, e.when, now) in t.fired[|s.fired|..]
  {
    hide Inv, Legal, Exec, MembersSettled, NothingOldLeft;
    RoundOutcome(s, now, mid);
    var t := Exec(s, [Begin(now)] + mid + [Finish]).q;
    var k :| 0 <= k < |t.round.batch| && t.round.batch[k] == e;
    assert t.fired[|s.fired|..] == Shots(t.round.snap, |t.round.batch|, now);
    assert t.fired[|s.fired|..][k] == Shot(s.heap[e.addr].id, e.when, now);
  }
}
