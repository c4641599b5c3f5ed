/** EventLoop::loop's clock: the poll timeout, and the `now` it hands to runTimer. */
module LoopTiming {
  import opened TimerSpec
  import opened TimerInvariant
  import opened TimerRuns
  import opened TimerRounds

  /** Timestamp::valid(). */
  predicate ValidTime(when: int) {
    when > 0
  }

  /** getNearestExpiration(): the first key of timers_, or the invalid timestamp. */
  function Nearest(timers: seq<Entry>): int {
    if timers == [] then 0 else timers[0].when
  }

  /** timeDiff in exact seconds times 1000, cut to whole milliseconds. */
  function TimeoutMs(nearest: int, now: int): int {
    if !ValidTime(nearest) || nearest - now <= 0 then 0 else (nearest - now) / 1000
  }

  /** loop() reads the clock only when some timer is queued; otherwise `now` keeps its last value. */
  function SampledNow(nearest: int, lastNow: int, clock: int): int {
    if ValidTime(nearest) then clock else lastNow
  }

  lemma NearestIsMinimum(timers: seq<Entry>, e: Entry)
    requires Sorted(timers) && e in timers
    ensures Nearest(timers) <= e.when
  {
    var k :| 0 <= k < |timers| && timers[k] == e;
    assert 0 < k ==> Less(timers[0], timers[k]);
  }

  /**
   The timeout never passes a deadline, is the longest whole number of
   milliseconds that does not, and is zero when something is due.
   */
  lemma TimeoutMeetsDeadlines(q: Queue, clock: int)
    requires Inv(q) && q.timers != [] && clock > 0
    ensures var ms := TimeoutMs(Nearest(q.timers), clock);
            && 0 <= ms
            && (ms > 0 ==> forall e :: e in q.timers ==> clock + 1000 * ms <= e.when)
            && (exists e :: e in q.timers && e.when < clock + 1000 * (ms + 1))
            && ((exists e :: e in q.timers && e.when <= clock) ==> ms == 0)
  {
    assert q.timers[0] in q.timers;
    forall e | e in q.timers ensures Nearest(q.timers) <= e.when { NearestIsMinimum(q.timers, e); }
    assert q.timers[0].when < clock + 1000 * (TimeoutMs(Nearest(q.timers), clock) + 1);
  }

  // ----- one iteration -----

  /** What an iteration does to the timer queue: handlers, then runTimer with callbacks inside. */
  function IterationRun(pre: seq<Event>, now: int, mid: seq<Event>): seq<Event> {
    pre + ([Begin(now)] + mid + [Finish])
  }

  /**
   Whatever handlers and callbacks do, a timer queued at the top of an iteration
   and due by its `now` fires in it unless a handler cancels it first.
   */
  lemma IterationFires(q: Queue, lastNow: int, clock: int, pre: seq<Event>, mid: seq<Event>, e: Entry)
    requires Inv(q) && q.stage.Idle? && LoopOps(pre) && Finish !in mid
    requires e in q.timers && e.when <= SampledNow(Nearest(q.timers), lastNow, clock)
    requires var run := IterationRun(pre, SampledNow(Nearest(q.timers), lastNow, clock), mid);
             Legal(q, run) && Exec(q, run).Ok?
    ensures var now := SampledNow(Nearest(q.timers), lastNow, clock);
            var t, id := Exec(q, IterationRun(pre, now, mid)).q, q.heap[e.addr].id;
            Cancel(id) in pre || (q.fired <= t.fired && Shot(id, e.when, now) in t.fired[|q.fired|..])
  {
    DueTimersFire(q, pre, SampledNow(Nearest(q.timers), lastNow, clock), mid, e);
  }

  /**
   A timer in the queue when runTimer starts, whether it was there at the top or
   a handler added it, fires in this iteration exactly when it is due by `now`:
   by the clock if some valid deadline was queued at the top, else by the value
   `now` kept from an earlier iteration.
   */
  lemma FiresIffDue(q: Queue, lastNow: int, clock: int, pre: seq<Event>, mid: seq<Event>, e: Entry)
    requires Inv(q) && q.stage.Idle? && LoopOps(pre) && Finish !in mid
    requires var run := IterationRun(pre, SampledNow(Nearest(q.timers), lastNow, clock), mid);
             Legal(q, run) && Exec(q, run).Ok?
    requires Legal(q, pre) && Exec(q, pre).Ok? && e in Exec(q, pre).q.timers
    ensures var now := SampledNow(Nearest(q.timers), lastNow, clock);
            var s, t := Exec(q, pre).q, Exec(q, IterationRun(pre, now, mid)).q;
            && e.addr in s.heap && s.fired <= t.fired
            && (Shot(s.heap[e.addr].id, e.when, now) in t.fired[|s.fired|..] <==>
                  e.when <= if ValidTime(Nearest(q.timers)) then clock else lastNow)
  {
    var now := SampledNow(Nearest(q.timers), lastNow, clock);
    ExecConcat(q, pre, [Begin(now)] + mid + [Finish]);
    OpsStayIdle(q, pre);
    RoundFires(Exec(q, pre).q, now, mid, e);
  }

  lemma RoundFires(s: Queue, now: int, mid: seq<Event>, e: Entry)
    requires Inv(s) && s.stage.Idle? && e in s.timers && Finish !in mid
    requires Legal(s, [Begin(now)] + mid + [Finish]) && Exec(s, [Begin(now)] + mid + [Finish]).Ok?
    ensures var t := Exec(s, [Begin(now)] + mid + [Finish]).q;
            && e.addr in s.heap && s.fired <= t.fired
            && (Shot(s.heap[e.addr].id, e.when, now) in t.fired[|s.fired|..] <==> e.when <= now)
  {
    EntryIsCurrent(s, e);
    RoundShots(s, now, mid);
    if e.when <= now { DueInRound(s, now, mid, e); }
  }

  lemma EntryIsCurrent(s: Queue, e: Entry)
    requires Inv(s) && e in s.timers
    ensures e.addr in s.heap && s.heap[e.addr].when == e.when
  {
  }

  /** Every shot of a round is due by its `now`. */
  lemma RoundShots(s: Queue, now: int, mid: seq<Event>)
    requires Inv(s) && s.stage.Idle? && s.timers != [] && Finish !in mid
    requires Legal(s, [Begin(now)] + mid + [Finish]) && Exec(s, [Begin(now)] + mid + [Finish]).Ok?
    ensures var t := Exec(s, [Begin(now)] + mid + [Finish]).q;
            && Inv(t) && t.stage.Idle? && s.fired <= t.fired
            && forall x :: x in t.fired[|s.fired|..] ==> x.now == now && x.due <= now
  {
    hide Inv, Legal, Exec, MembersSettled, NothingOldLeft, BatchExact;
    RoundOutcome(s, now, mid);
    var t := Exec(s, [Begin(now)] + mid + [Finish]).q;
    var shots := Shots(t.round.snap, |t.round.snap|, now);
    assert t.fired[|s.fired|..] == shots;
    NeverEarlyOf(t);
    forall x | x in shots ensures x.now == now && x.due <= now { assert x in t.fired; }
  }

  lemma NeverEarlyOf(t: Queue)
    requires Inv(t)
    ensures forall x :: x in t.fired ==> x.due <= x.now
  {
  }

  /** An instance: nothing queued at the top, and a timer a handler adds for the present moment waits. */
  lemma StaleNow(lastNow: int, clock: int, addr: Addr)
    requires 0 < lastNow < clock && addr < SENTINEL
    ensures var q := Step(EMPTY, Add(addr, clock, 0.0)).q;
            var now := SampledNow(Nearest(EMPTY.timers), lastNow, clock);
            && now == lastNow
            && BeginStep(q, now).Ok? && BeginStep(q, now).q.round.batch == []
  {
    var q := Step(EMPTY, Add(addr, clock, 0.0)).q;
    assert q.timers == [Entry(clock, addr)];
    assert LowerBound(q.timers, Entry(lastNow, SENTINEL)) == 0;
    assert q.timers[..0] == [];
  }

  // ----- all iterations, with a clock that never runs backwards -----

  /** One iteration: the clock at its top, what handlers do, what the timer callbacks do. */
  datatype Turn = Turn(clock: int, pre: seq<Event>, mid: seq<Event>)

  /** The events of one iteration; runTimer returns at once when nothing is queued. */
  function TurnRun(q: Queue, now: int, turn: Turn): seq<Event>
    requires Legal(q, turn.pre)
  {
    if Exec(q, turn.pre).Ok? && Exec(q, turn.pre).q.timers == [] then turn.pre else IterationRun(turn.pre, now, turn.mid)
  }

  ghost predicate TurnLegal(q: Queue, lastNow: int, turn: Turn) {
    && lastNow <= turn.clock && LoopOps(turn.pre) && Finish !in turn.mid && Legal(q, turn.pre)
    && Legal(q, TurnRun(q, SampledNow(Nearest(q.timers), lastNow, turn.clock), turn))
  }

  /** The queue after an iteration. */
  function AfterTurn(q: Queue, lastNow: int, turn: Turn): Outcome
    requires Legal(q, turn.pre) && Legal(q, TurnRun(q, SampledNow(Nearest(q.timers), lastNow, turn.clock), turn))
  {
    Exec(q, TurnRun(q, SampledNow(Nearest(q.timers), lastNow, turn.clock), turn))
  }

  /** `now` is threaded from iteration to iteration, and no clock reading is below the one before. */
  ghost predicate TurnsLegal(q: Queue, lastNow: int, turns: seq<Turn>)
    decreases |turns|
  {
    turns == [] ||
    (TurnLegal(q, lastNow, turns[0]) &&
     (AfterTurn(q, lastNow, turns[0]).Ok? ==>
        && (|turns| > 1 ==> turns[0].clock <= turns[1].clock)
        && TurnsLegal(AfterTurn(q, lastNow, turns[0]).q, SampledNow(Nearest(q.timers), lastNow, turns[0].clock), turns[1..])))
  }

  /** Every timer fired in an iteration was due by the clock read at its top. */
  ghost predicate OnTime(q: Queue, lastNow: int, turns: seq<Turn>)
    requires TurnsLegal(q, lastNow, turns)
    decreases |turns|
  {
    turns == [] || AfterTurn(q, lastNow, turns[0]).Crash? ||
    (var t := AfterTurn(q, lastNow, turns[0]).q;
     && q.fired <= t.fired
     && (forall x :: x in t.fired[|q.fired|..] ==> x.due <= x.now <= turns[0].clock)
     && OnTime(t, SampledNow(Nearest(q.timers), lastNow, turns[0].clock), turns[1..]))
  }

  lemma TurnOnTime(q: Queue, lastNow: int, turn: Turn)
    requires Inv(q) && q.stage.Idle? && TurnLegal(q, lastNow, turn) && AfterTurn(q, lastNow, turn).Ok?
    ensures var t := AfterTurn(q, lastNow, turn).q;
            && Inv(t) && t.stage.Idle? && q.fired <= t.fired
            && forall x :: x in t.fired[|q.fired|..] ==> x.due <= x.now <= turn.clock
  {
    hide Inv;
    var now := SampledNow(Nearest(q.timers), lastNow, turn.clock);
    if Exec(q, turn.pre).Ok? && Exec(q, turn.pre).q.timers == [] {
      OpsStayIdle(q, turn.pre);
    } else {
      ExecConcat(q, turn.pre, [Begin(now)] + turn.mid + [Finish]);
      OpsStayIdle(q, turn.pre);
      RoundShots(Exec(q, turn.pre).q, now, turn.mid);
    }
  }

  /** No timer fires before its deadline by the real clock, over any number of iterations. */
  lemma {:induction false} NothingFiresEarly(q: Queue, lastNow: int, turns: seq<Turn>)
    requires Inv(q) && q.stage.Idle? && TurnsLegal(q, lastNow, turns)
    ensures OnTime(q, lastNow, turns)
    decreases |turns|
  {
    hide Inv, TurnRun;
    if turns != [] && AfterTurn(q, lastNow, turns[0]).Ok? {
      TurnOnTime(q, lastNow, turns[0]);
      NothingFiresEarly(AfterTurn(q, lastNow, turns[0]).q, SampledNow(Nearest(q.timers), lastNow, turns[0].clock), turns[1..]);
    }
  }
}
