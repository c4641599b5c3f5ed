/** What every step of the timer queue keeps, for any callbacks and any run. */
module TimerInvariant {
  import opened TimerSpec
  import opened Seqs

  /** timers_ and activeTimers_ are in bijection, and every key is current. */
  ghost predicate Indexed(q: Queue) {
    && Sorted(q.timers)
    && |q.timers| == |q.active|
    && (forall e :: e in q.timers ==>
          && e.addr in q.heap && q.heap[e.addr].when == e.when
          && q.heap[e.addr].id in q.active && q.active[q.heap[e.addr].id] == e.addr)
    && (forall id :: id in q.active ==>
          && q.active[id] in q.heap && q.heap[q.active[id]].id == id
          && Entry(q.heap[q.active[id]].when, q.active[id]) in q.timers)
  }

  ghost predicate UniqueIds(q: Queue) {
    && (forall a :: a in q.heap ==> 1 <= q.heap[a].id <= q.lastId)
    && (forall a, b :: a in q.heap && b in q.heap && q.heap[a].id == q.heap[b].id ==> a == b)
  }

  /** Batch members that `runTimer` still owns. */
  function Held(q: Queue): seq<Entry> {
    if q.stage.Firing? then q.round.batch
    else if q.stage.Rearming? && q.round.next <= |q.round.batch| then q.round.batch[q.round.next..]
    else []
  }

  /** Every live Timer is queued for adding, or indexed, or held: exactly one. */
  ghost predicate OnePlace(q: Queue) {
    && (forall a :: a in q.inbox ==> a in q.heap && q.heap[a].id !in q.active)
    && (forall e :: e in Held(q) ==>
          && e.addr in q.heap && q.heap[e.addr].when == e.when
          && q.heap[e.addr].id !in q.active && e.addr !in q.inbox)
    && (forall a :: a in q.heap ==>
          a in q.inbox || q.heap[a].id in q.active || Entry(q.heap[a].when, a) in Held(q))
  }

  ghost predicate Live(q: Queue, id: nat) {
    exists a :: a in q.heap && q.heap[a].id == id
  }

  /** Every id ever handed out is either live or was freed exactly once. */
  ghost predicate FreedOnce(q: Queue) {
    && NoRepeats(q.freed)
    && (forall id :: id in q.freed ==> 1 <= id <= q.lastId && !Live(q, id))
    && (forall id :: 1 <= id <= q.lastId ==> id in q.freed || Live(q, id))
  }

  /** The shots that firing the first `n` batch members produces. */
  function Shots(snap: seq<Timer>, n: nat, now: int): (r: seq<Shot>)
    requires n <= |snap|
    ensures |r| == n
    ensures forall i :: 0 <= i < n ==> r[i] == Shot(snap[i].id, snap[i].when, now)
  {
    seq(n, i requires 0 <= i < n => Shot(snap[i].id, snap[i].when, now))
  }

  /** What the second loop owes the k-th batch member. */
  ghost predicate Settled(q: Queue, k: nat)
    requires k < |q.round.snap| && k < |q.round.batch|
  {
    var t, a := q.round.snap[k], q.round.batch[k].addr;
    if t.Repeat() && t.id !in q.cancelled
    then t.id in q.active && q.active[t.id] == a && a in q.heap && q.heap[a] == t.Restart(q.round.now)
    else t.id in q.freed
  }

  /**
   An entry still due belongs to a timer created after the batch was taken, or
   to a batch member re-armed with an interval that truncates to zero.
   */
  ghost predicate Leftover(q: Queue, e: Entry)
    requires e.addr in q.heap
  {
    || q.heap[e.addr].id > q.round.floor
    || (q.stage.Rearming? && exists k ::
          0 <= k < q.round.next && k < |q.round.snap| && q.round.snap[k].id == q.heap[e.addr].id
          && Micros(q.round.snap[k].interval) == 0)
  }

  ghost predicate RoundShape(q: Queue) {
    var r := q.round;
    && |r.snap| == |r.batch| && r.next <= |r.batch| && r.floor <= q.lastId
    && Sorted(r.batch)
    && (forall i :: 0 <= i < |r.snap| ==>
          r.snap[i].when == r.batch[i].when <= r.now && 1 <= r.snap[i].id <= r.floor)
    && (forall i, j :: 0 <= i < j < |r.snap| ==> r.snap[i].id != r.snap[j].id)
  }

  ghost predicate HeldIntact(q: Queue)
    requires RoundShape(q)
  {
    forall i :: (if q.stage.Firing? then 0 else q.round.next) <= i < |q.round.batch| ==>
      q.round.batch[i].addr in q.heap && q.heap[q.round.batch[i].addr] == q.round.snap[i]
  }

  /** This round fired the first batch members in order, each once. */
  ghost predicate ShotsSoFar(q: Queue)
    requires RoundShape(q)
  {
    var r := q.round;
    && r.base <= |q.fired|
    && q.fired[r.base..] == Shots(r.snap, if q.stage.Firing? then r.next else |r.snap|, r.now)
  }

  ghost predicate Leftovers(q: Queue) {
    forall e :: e in q.timers && e.addr in q.heap && e.when <= q.round.now ==> Leftover(q, e)
  }

  ghost predicate AllSettled(q: Queue)
    requires RoundShape(q)
  {
    q.stage.Rearming? ==> forall k :: 0 <= k < q.round.next ==> Settled(q, k)
  }

  ghost predicate InRound(q: Queue) {
    RoundShape(q) && HeldIntact(q) && ShotsSoFar(q) && Leftovers(q) && AllSettled(q)
  }

  /** No shot before its deadline. */
  ghost predicate NeverEarly(q: Queue) {
    forall s :: s in q.fired ==> s.due <= s.now && 1 <= s.id <= q.lastId
  }

  ghost predicate Inv(q: Queue) {
    && Indexed(q) && UniqueIds(q) && OnePlace(q) && FreedOnce(q) && NeverEarly(q)
    && (!q.stage.Idle? ==> InRound(q))
  }

  lemma EmptyInv()
    ensures Inv(EMPTY)
  {
  }

  lemma MapGrows<K, V>(m: map<K, V>, k: K, v: V)
    requires k !in m
    ensures |m[k := v]| == |m| + 1
  {
    assert m[k := v].Keys == m.Keys + {k};
  }

  lemma MapShrinks<K, V>(m: map<K, V>, k: K)
    requires k in m
    ensures |m - {k}| == |m| - 1
  {
    assert (m - {k}).Keys == m.Keys - {k};
  }

  // ----- what a step must leave alone, predicate by predicate -----

  lemma LedgerSame(q: Queue, q': Queue)
    requires FreedOnce(q) && q'.freed == q.freed && q'.lastId == q.lastId
    requires forall a :: a in q.heap ==> a in q'.heap && q'.heap[a].id == q.heap[a].id
    requires q'.heap.Keys <= q.heap.Keys
    ensures FreedOnce(q')
  {
    forall id ensures Live(q', id) <==> Live(q, id) {
      if Live(q, id) {
        var a :| a in q.heap && q.heap[a].id == id;
        assert q'.heap[a].id == id;
      }
      if Live(q', id) {
        var a :| a in q'.heap && q'.heap[a].id == id;
        assert a in q.heap;
      }
    }
  }

  lemma LedgerGrows(q: Queue, q': Queue, a: Addr)
    requires FreedOnce(q) && q'.freed == q.freed && q'.lastId == q.lastId + 1
    requires a !in q.heap && a in q'.heap && q'.heap == q.heap[a := q'.heap[a]] && q'.heap[a].id == q'.lastId
    ensures FreedOnce(q')
  {
    forall id ensures Live(q', id) <==> Live(q, id) || id == q'.lastId {
      if Live(q, id) {
        var b :| b in q.heap && q.heap[b].id == id;
        assert q'.heap[b].id == id;
      }
      if id == q'.lastId { assert q'.heap[a].id == id; }
    }
  }

  lemma LedgerShrinks(q: Queue, q': Queue, a: Addr)
    requires UniqueIds(q) && FreedOnce(q) && a in q.heap
    requires q'.heap == q.heap - {a} && q'.freed == q.freed + [q.heap[a].id] && q'.lastId == q.lastId
    ensures UniqueIds(q') && FreedOnce(q')
  {
    var id := q.heap[a].id;
    assert Live(q, id);
    forall other ensures Live(q', other) <==> Live(q, other) && other != id {
      if Live(q, other) && other != id {
        var b :| b in q.heap && q.heap[b].id == other;
        assert b in q'.heap && q'.heap[b].id == other;
      }
    }
  }

  lemma LeftoversSame(q: Queue, q': Queue)
    requires Leftovers(q) && Indexed(q) && q'.round == q.round && q'.stage == q.stage
    requires forall e :: e in q'.timers && e.addr in q'.heap ==>
               (e in q.timers && q'.heap[e.addr].id == q.heap[e.addr].id) || q'.heap[e.addr].id > q.round.floor
    ensures Leftovers(q')
  {
    forall e | e in q'.timers && e.addr in q'.heap && e.when <= q.round.now
      ensures Leftover(q', e)
    {
      if e in q.timers { assert Leftover(q, e); }
    }
  }

  lemma SettledSame(q: Queue, q': Queue)
    requires RoundShape(q) && AllSettled(q) && q'.round == q.round && q'.stage == q.stage && RoundShape(q')
    requires q'.cancelled == q.cancelled && q'.active == q.active && q'.freed == q.freed
    requires forall a :: a in q.heap ==> a in q'.heap && q'.heap[a] == q.heap[a]
    ensures AllSettled(q')
  {
    if q.stage.Rearming? {
      forall k | 0 <= k < q.round.next ensures Settled(q', k) { assert Settled(q, k); }
    }
  }

  // ----- one lemma per event -----

  lemma IndexKeepsBijection(q: Queue, a: Addr)
    requires Indexed(q) && UniqueIds(q) && a in q.heap && q.heap[a].id !in q.active
    ensures Indexed(Index(q, a)) && UniqueIds(Index(q, a))
    ensures forall x :: x in Index(q, a).timers <==> x in q.timers || x == Entry(q.heap[a].when, a)
  {
    var t := q.heap[a];
    var e := Entry(t.when, a);
    assert e !in q.timers;
    InsertKeepsOrder(q.timers, e);
    MapGrows(q.active, t.id, a);
  }

  lemma AllocKeepsPlaces(q: Queue, a: Addr, when: int, interval: real)
    requires Indexed(q) && UniqueIds(q) && a !in q.heap
    ensures var q1 := Alloc(q, a, when, interval);
            Indexed(q1) && UniqueIds(q1) && q1.lastId !in q1.active
  {
  }

  lemma AddInv(q: Queue, a: Addr, when: int, interval: real)
    requires Inv(q) && Enabled(q, Add(a, when, interval))
    ensures Inv(Step(q, Add(a, when, interval)).q)
  {
    hide Indexed, UniqueIds, OnePlace, FreedOnce, InRound;
    AllocKeepsPlaces(q, a, when, interval);
    var q1 := Alloc(q, a, when, interval);
    IndexKeepsBijection(q1, a);
    var q' := Index(q1, a);
    LedgerGrows(q, q', a);
    AddOnePlace(q, q', a);
    if q.stage.Firing? { GrowInRound(q, q', a); }
  }

  lemma GrowInRound(q: Queue, q': Queue, a: Addr)
    requires Indexed(q) && InRound(q) && q.stage.Firing? && a !in q.heap
    requires q'.stage == q.stage && q'.round == q.round && q'.fired == q.fired && q'.lastId == q.lastId + 1
    requires a in q'.heap && q'.heap == q.heap[a := q'.heap[a]] && q'.heap[a].id == q'.lastId
    requires forall e :: e in q'.timers ==> e in q.timers || e.addr == a
    ensures InRound(q')
  {
    LeftoversSame(q, q');
  }

  lemma AddOnePlace(q: Queue, q': Queue, a: Addr)
    requires OnePlace(q) && UniqueIds(q) && a !in q.heap && Held(q') == Held(q) && q'.inbox == q.inbox
    requires a in q'.heap && q'.heap == q.heap[a := q'.heap[a]] && q'.heap[a].id == q.lastId + 1
    requires q'.active == q.active[q'.heap[a].id := a]
    ensures OnePlace(q')
  {
  }

  lemma PostInv(q: Queue, a: Addr, when: int, interval: real)
    requires Inv(q) && Enabled(q, Post(a, when, interval))
    ensures Inv(Step(q, Post(a, when, interval)).q)
  {
    hide Indexed, UniqueIds, OnePlace, FreedOnce, InRound;
    var q' := Alloc(q, a, when, interval).(inbox := q.inbox + {a});
    PostPlaces(q, a, when, interval);
    LedgerGrows(q, q', a);
    if !q.stage.Idle? { PostInRound(q, q', a); }
  }

  lemma PostInRound(q: Queue, q': Queue, a: Addr)
    requires Indexed(q) && InRound(q) && a !in q.heap
    requires q'.stage == q.stage && q'.round == q.round && q'.fired == q.fired && q'.lastId == q.lastId + 1
    requires a in q'.heap && q'.heap == q.heap[a := q'.heap[a]]
    requires q'.timers == q.timers && q'.active == q.active && q'.cancelled == q.cancelled && q'.freed == q.freed
    ensures InRound(q')
  {
    LeftoversSame(q, q');
    SettledSame(q, q');
  }

  lemma PostPlaces(q: Queue, a: Addr, when: int, interval: real)
    requires Indexed(q) && UniqueIds(q) && OnePlace(q) && a !in q.heap
    ensures var q' := Alloc(q, a, when, interval).(inbox := q.inbox + {a});
            Indexed(q') && UniqueIds(q') && OnePlace(q')
  {
    hide Indexed, OnePlace, UniqueIds;
    AllocKeepsPlaces(q, a, when, interval);
    var q1 := Alloc(q, a, when, interval);
    var q' := q1.(inbox := q.inbox + {a});
    SameIndexes(q1, q');
    PostOnePlace(q, q', a);
  }

  lemma PostOnePlace(q: Queue, q': Queue, a: Addr)
    requires OnePlace(q) && a !in q.heap && Held(q') == Held(q) && q'.active == q.active && q'.inbox == q.inbox + {a}
    requires a in q'.heap && q'.heap == q.heap[a := q'.heap[a]] && q'.heap[a].id !in q.active
    ensures OnePlace(q')
  {
  }

  lemma ArriveInv(q: Queue, a: Addr)
    requires Inv(q) && Enabled(q, Arrive(a))
    ensures Step(q, Arrive(a)).Ok? && Inv(Step(q, Arrive(a)).q)
  {
    hide Indexed, UniqueIds, OnePlace, FreedOnce, InRound;
    ArrivePlaces(q, a);
    var q' := Index(q, a).(inbox := q.inbox - {a});
    LedgerSame(q, q');
  }

  lemma ArrivePlaces(q: Queue, a: Addr)
    requires Indexed(q) && UniqueIds(q) && OnePlace(q) && q.stage.Idle? && a in q.inbox
    ensures a in q.heap
    ensures var q' := Index(q, a).(inbox := q.inbox - {a});
            Indexed(q') && UniqueIds(q') && OnePlace(q')
  {
    IndexKeepsBijection(q, a);
    var q' := Index(q, a).(inbox := q.inbox - {a});
    SameIndexes(Index(q, a), q');
    ArriveOnePlace(q, q', a);
  }

  lemma SameIndexes(q: Queue, q': Queue)
    requires Indexed(q) && UniqueIds(q)
    requires q'.heap == q.heap && q'.timers == q.timers && q'.active == q.active && q'.lastId == q.lastId
    ensures Indexed(q') && UniqueIds(q')
  {
  }

  lemma ArriveOnePlace(q: Queue, q': Queue, a: Addr)
    requires UniqueIds(q) && OnePlace(q) && q.stage.Idle? && q'.stage.Idle? && a in q.inbox
    requires q'.heap == q.heap && q'.inbox == q.inbox - {a} && q'.active == q.active[q.heap[a].id := a]
    ensures OnePlace(q')
  {
  }

  lemma CancelInv(q: Queue, id: nat)
    requires Inv(q) && Enabled(q, Cancel(id))
    ensures CancelStep(q, id).Ok? && Inv(CancelStep(q, id).q)
  {
    hide Indexed, UniqueIds, OnePlace, FreedOnce, InRound;
    if id in q.active {
      CancelActiveIndexed(q, id);
      var q' := CancelStep(q, id).q;
      CancelActiveOnePlace(q, q', id);
      LedgerShrinks(q, q', q.active[id]);
      if q.stage.Firing? { CancelInRound(q, q', id); }
    } else {
      SizesAgree(q);
      var q' := CancelStep(q, id).q;
      SameIndexes(q, q');
      SameOnePlace(q, q');
      LedgerSame(q, q');
      if q.stage.Firing? { NoteInRound(q, q'); }
    }
  }

  lemma SizesAgree(q: Queue)
    requires Indexed(q)
    ensures |q.timers| == |q.active|
  {
  }

  lemma SameOnePlace(q: Queue, q': Queue)
    requires OnePlace(q) && Held(q') == Held(q)
    requires q'.heap == q.heap && q'.inbox == q.inbox && q'.active == q.active
    ensures OnePlace(q')
  {
  }

  lemma CancelInRound(q: Queue, q': Queue, id: nat)
    requires Indexed(q) && OnePlace(q) && InRound(q) && q.stage.Firing? && id in q.active
    requires q'.stage == q.stage && q'.round == q.round && q'.fired == q.fired && q'.lastId == q.lastId
    requires q'.heap == q.heap - {q.active[id]} && forall e :: e in q'.timers ==> e in q.timers
    ensures InRound(q')
  {
    LeftoversSame(q, q');
    assert forall i :: 0 <= i < |q.round.batch| ==> q.round.batch[i] in Held(q);
  }

  lemma NoteInRound(q: Queue, q': Queue)
    requires Indexed(q) && InRound(q) && q.stage.Firing?
    requires q'.stage == q.stage && q'.round == q.round && q'.fired == q.fired && q'.lastId == q.lastId
    requires q'.heap == q.heap && q'.timers == q.timers
    ensures InRound(q')
  {
    LeftoversSame(q, q');
  }

  lemma CancelActiveIndexed(q: Queue, id: nat)
    requires Indexed(q) && UniqueIds(q) && id in q.active
    ensures CancelStep(q, id).Ok? && Indexed(CancelStep(q, id).q)
    ensures q.active[id] in q.heap && CancelStep(q, id).q.heap == q.heap - {q.active[id]}
    ensures CancelStep(q, id).q.freed == q.freed + [q.heap[q.active[id]].id]
    ensures CancelStep(q, id).q.active == q.active - {id}
    ensures q.heap[q.active[id]].id == id && forall a :: a in q.heap && q.heap[a].id == id ==> a == q.active[id]
    ensures forall e :: e in CancelStep(q, id).q.timers ==> e in q.timers && e.addr != q.active[id]
  {
    var a := q.active[id];
    var e := Entry(q.heap[a].when, a);
    EraseKeepsOrder(q.timers, e);
    UnindexKeepsBijection(q, id, Erase(q.timers, e));
  }

  lemma UnindexKeepsBijection(q: Queue, id: nat, ts: seq<Entry>)
    requires Indexed(q) && UniqueIds(q) && id in q.active
    requires Sorted(ts) && |ts| == |q.timers| - 1
    requires forall x :: x in ts <==> x in q.timers && x != Entry(q.heap[q.active[id]].when, q.active[id])
    ensures Indexed(Free(q, q.active[id]).(active := q.active - {id}, timers := ts))
    ensures forall x :: x in ts ==> x.addr != q.active[id]
  {
    MapShrinks(q.active, id);
  }

  lemma CancelActiveOnePlace(q: Queue, q': Queue, id: nat)
    requires OnePlace(q) && id in q.active && Held(q') == Held(q) && q'.inbox == q.inbox
    requires q.active[id] in q.heap && q.heap[q.active[id]].id == id
    requires forall a :: a in q.heap && q.heap[a].id == id ==> a == q.active[id]
    requires q'.heap == q.heap - {q.active[id]} && q'.active == q.active - {id}
    ensures OnePlace(q')
  {
    forall e | e in Held(q) ensures e.addr != q.active[id] {}
  }

  /** The cut: with the assert of line 120 passed, exactly the due entries leave. */
  lemma BeginTakes(q: Queue, now: int)
    requires Sorted(q.timers) && q.timers != [] && BeginStep(q, now).Ok?
    ensures var q' := BeginStep(q, now).q;
            && q'.round.batch + q'.timers == q.timers
            && (forall e :: e in q'.round.batch ==> e.when <= now)
            && (forall e :: e in q'.timers ==> e.when > now)
  {
    var n := LowerBound(q.timers, Entry(now, SENTINEL));
    BeginCuts(q, now, n);
    hide BeginStep;
    assert q.timers[..n] + q.timers[n..] == q.timers;
    CutByTime(q.timers, n, now);
  }

  lemma BeginCuts(q: Queue, now: int, n: nat)
    requires q.timers != [] && BeginStep(q, now).Ok? && n == LowerBound(q.timers, Entry(now, SENTINEL))
    ensures n < |q.timers| ==> q.timers[n].when > now
    ensures BeginStep(q, now).q.round.batch == q.timers[..n] && BeginStep(q, now).q.timers == q.timers[n..]
  {
    hide Snapshot, IdsOf;
  }

  lemma CutByTime(s: seq<Entry>, n: nat, now: int)
    requires Sorted(s) && n == LowerBound(s, Entry(now, SENTINEL)) && (n < |s| ==> s[n].when > now)
    ensures forall e :: e in s[..n] ==> e.when <= now
    ensures forall e :: e in s[n..] ==> e.when > now
  {
    forall e | e in s[n..] ensures e.when > now {
      var k :| n <= k < |s| && s[k] == e;
      if n < k { assert Less(s[n], s[k]); }
    }
  }

  lemma MapShrinksBy<V>(m: map<nat, V>, ids: set<nat>)
    requires ids <= m.Keys
    ensures |m - ids| == |m| - |ids|
  {
    assert (m - ids).Keys == m.Keys - ids;
  }

  lemma DistinctIds(ts: seq<Timer>)
    requires forall i, j :: 0 <= i < j < |ts| ==> ts[i].id != ts[j].id
    ensures |IdsOf(ts)| == |ts|
  {
    if ts != [] {
      var n := |ts| - 1;
      DistinctIds(ts[..n]);
      assert IdsOf(ts) == IdsOf(ts[..n]) + {ts[n].id};
    }
  }

  /** Snapshot ids of a prefix of timers_ are distinct and active. */
  lemma BatchIds(q: Queue, batch: seq<Entry>, rest: seq<Entry>)
    requires Indexed(q) && UniqueIds(q) && q.timers == batch + rest
    ensures forall e :: e in batch ==> e in q.timers && e.addr in q.heap
    ensures var snap := Snapshot(q.heap, batch);
            && (forall i, j :: 0 <= i < j < |snap| ==> snap[i].id != snap[j].id)
            && IdsOf(snap) <= q.active.Keys
            && (forall e :: e in q.timers ==> (q.heap[e.addr].id in IdsOf(snap) <==> e in batch))
  {
    assert forall e :: e in batch ==> e in q.timers;
    var snap := Snapshot(q.heap, batch);
    forall i | 0 <= i < |snap|
      ensures batch[i] in q.timers && snap[i] == q.heap[batch[i].addr] && snap[i].id in q.active && snap[i].id in IdsOf(snap)
    {
      assert batch[i] in batch && snap[i] in snap;
    }
    forall i, j | 0 <= i < j < |snap|
      ensures snap[i].id != snap[j].id
    {
      assert Less(q.timers[i], q.timers[j]);
    }
    forall e | e in q.timers && q.heap[e.addr].id in IdsOf(snap)
      ensures e in batch
    {
      var i :| 0 <= i < |snap| && snap[i].id == q.heap[e.addr].id;
    }
  }

  ghost predicate Took(q: Queue, q': Queue)
    requires Indexed(q)
  {
    && q.timers == q'.round.batch + q'.timers
    && (forall e :: e in q'.round.batch ==> e in q.timers && e.addr in q.heap)
    && q'.round.snap == Snapshot(q.heap, q'.round.batch)
    && q' == q.(timers := q'.timers, active := q.active - IdsOf(q'.round.snap), cancelled := {}, stage := Firing, round := q'.round)
  }

  lemma BeginIndexed(q: Queue, q': Queue)
    requires Indexed(q) && UniqueIds(q) && Took(q, q')
    ensures Indexed(q') && UniqueIds(q')
  {
    var n := |q'.round.batch|;
    assert q'.round.batch == q.timers[..n] && q'.timers == q.timers[n..];
    BatchIds(q, q'.round.batch, q'.timers);
    MapShrinksBy(q.active, IdsOf(q'.round.snap));
    DistinctIds(q'.round.snap);
    SplitDisjoint(q.timers, n);
    assert forall e :: e in q.timers <==> e in q'.round.batch || e in q'.timers;
    TailIndexed(q, q', IdsOf(q'.round.snap));
  }

  lemma TailIndexed(q: Queue, q': Queue, ids: set<nat>)
    requires Indexed(q) && UniqueIds(q) && q'.heap == q.heap && q'.lastId == q.lastId && q'.active == q.active - ids
    requires Sorted(q'.timers) && |q'.timers| == |q'.active|
    requires forall e :: e in q'.timers <==> e in q.timers && q.heap[e.addr].id !in ids
    ensures Indexed(q') && UniqueIds(q')
  {
  }

  lemma SplitDisjoint(s: seq<Entry>, n: nat)
    requires Sorted(s) && n <= |s|
    ensures Sorted(s[..n]) && Sorted(s[n..])
    ensures forall e :: e in s[..n] ==> e !in s[n..]
  {
    forall i, j | 0 <= i < n <= j < |s| ensures s[i] != s[j] { assert Less(s[i], s[j]); }
  }

  lemma BeginOnePlace(q: Queue, q': Queue)
    requires Indexed(q) && UniqueIds(q) && OnePlace(q) && q.stage.Idle? && Took(q, q')
    ensures OnePlace(q')
  {
    BatchIds(q, q'.round.batch, q'.timers);
    assert Held(q') == q'.round.batch;
    forall a | a in q'.heap && a !in q'.inbox && q'.heap[a].id !in q'.active
      ensures Entry(q'.heap[a].when, a) in Held(q')
    {
      assert Entry(q.heap[a].when, a) in q.timers;
    }
  }

  lemma BeginInRound(q: Queue, q': Queue, now: int)
    requires Indexed(q) && UniqueIds(q) && NeverEarly(q) && Took(q, q')
    requires q'.round.now == now && q'.round.base == |q.fired| && q'.round.floor == q.lastId && q'.round.next == 0
    requires forall e :: e in q'.round.batch ==> e.when <= now
    requires forall e :: e in q'.timers ==> e.when > now
    ensures InRound(q')
  {
    BatchHolds(q, q', now);
    hide Indexed, UniqueIds, NeverEarly, Took, Snapshot, Sorted, InRound;
    BegunInRound(q');
  }

  lemma BegunInRound(t: Queue)
    requires t.stage.Firing? && t.round.next == 0 && t.round.base == |t.fired| && t.round.floor == t.lastId
    requires |t.round.snap| == |t.round.batch| && Sorted(t.round.batch)
    requires forall i :: 0 <= i < |t.round.batch| ==>
               && t.round.batch[i].addr in t.heap && t.round.snap[i] == t.heap[t.round.batch[i].addr]
               && t.round.snap[i].when == t.round.batch[i].when <= t.round.now && 1 <= t.round.snap[i].id <= t.lastId
    requires forall i, j :: 0 <= i < j < |t.round.snap| ==> t.round.snap[i].id != t.round.snap[j].id
    requires forall e :: e in t.timers ==> e.when > t.round.now
    ensures InRound(t)
  {
    hide Sorted;
  }

  /** The members of the batch, one by one. */
  lemma BatchHolds(q: Queue, q': Queue, now: int)
    requires Indexed(q) && UniqueIds(q) && Took(q, q') && forall e :: e in q'.round.batch ==> e.when <= now
    ensures var r := q'.round;
            && |r.snap| == |r.batch| && Sorted(r.batch) && q'.heap == q.heap && q'.stage.Firing?
            && q'.fired == q.fired && q'.lastId == q.lastId
            && (forall i :: 0 <= i < |r.batch| ==>
                  && r.batch[i].addr in q.heap && r.snap[i] == q.heap[r.batch[i].addr]
                  && r.snap[i].when == r.batch[i].when <= now && 1 <= r.snap[i].id <= q.lastId)
            && (forall i, j :: 0 <= i < j < |r.snap| ==> r.snap[i].id != r.snap[j].id)
  {
    var r := q'.round;
    BatchIds(q, r.batch, q'.timers);
    SplitDisjoint(q.timers, |r.batch|);
    assert r.batch == q.timers[..|r.batch|];
    forall i | 0 <= i < |r.batch|
      ensures r.batch[i] in q.timers && r.batch[i].when <= now && r.snap[i] == q.heap[r.batch[i].addr]
    {
      assert r.batch[i] in r.batch;
    }
  }

  lemma BeginTook(q: Queue, now: int)
    requires Indexed(q) && UniqueIds(q) && q.timers != []
    ensures match BeginStep(q, now)
            case Ok(q') =>
              && Took(q, q')
              && q'.round.now == now && q'.round.base == |q.fired| && q'.round.floor == q.lastId && q'.round.next == 0
            case Crash(why) => why == Assert120
  {
    var n := LowerBound(q.timers, Entry(now, SENTINEL));
    PrefixLives(q, n);
    BeginShape(q, now, n);
    hide BeginStep, Indexed, UniqueIds, Sorted, LowerBound, Snapshot, IdsOf;
  }

  /** The batch taken below position `n`. */
  function Taking(q: Queue, now: int, n: nat): Queue
    requires n <= |q.timers| && forall e :: e in q.timers[..n] ==> e.addr in q.heap
  {
    var snap := Snapshot(q.heap, q.timers[..n]);
    q.(timers := q.timers[n..], active := q.active - IdsOf(snap), cancelled := {}, stage := Firing,
       round := Round(now, q.timers[..n], snap, |q.fired|, q.lastId, 0))
  }

  lemma BeginShape(q: Queue, now: int, n: nat)
    requires q.timers != [] && n == LowerBound(q.timers, Entry(now, SENTINEL)) && forall e :: e in q.timers[..n] ==> e.addr in q.heap
    ensures BeginStep(q, now)
            == if n < |q.timers| && q.timers[n].when <= now then Crash(Assert120) else Ok(Taking(q, now, n))
  {
    hide LowerBound, Snapshot, IdsOf;
  }

  lemma PrefixLives(q: Queue, n: nat)
    requires Indexed(q) && n <= |q.timers|
    ensures q.timers == q.timers[..n] + q.timers[n..]
    ensures forall e :: e in q.timers[..n] ==> e in q.timers && e.addr in q.heap
  {
  }

  lemma BeginInv(q: Queue, now: int)
    requires Inv(q) && Enabled(q, Begin(now))
    ensures match BeginStep(q, now)
            case Ok(q') => Inv(q')
            case Crash(why) => why == Assert120
  {
    if q.timers != [] {
      BeginTook(q, now);
      if BeginStep(q, now).Ok? {
        BeginTakes(q, now);
        TookInv(q, BeginStep(q, now).q, now);
      }
    }
  }

  lemma TookInv(q: Queue, q': Queue, now: int)
    requires Inv(q) && q.stage.Idle? && Took(q, q')
    requires q'.round.now == now && q'.round.base == |q.fired| && q'.round.floor == q.lastId && q'.round.next == 0
    requires forall e :: e in q'.round.batch ==> e.when <= now
    requires forall e :: e in q'.timers ==> e.when > now
    ensures Inv(q')
  {
    hide Indexed, UniqueIds, OnePlace, FreedOnce, InRound;
    BeginIndexed(q, q');
    LedgerSame(q, q');
    BeginOnePlace(q, q');
    BeginInRound(q, q', now);
  }

  lemma TriggerInv(q: Queue)
    requires Inv(q) && Enabled(q, Trigger)
    ensures TriggerStep(q).Ok? && Inv(TriggerStep(q).q)
  {
    hide Indexed, UniqueIds, OnePlace, FreedOnce, InRound;
    TriggerInRound(q);
    var q' := TriggerStep(q).q;
    SameIndexes(q, q');
    SameOnePlace(q, q');
    LedgerSame(q, q');
  }

  lemma TriggerInRound(q: Queue)
    requires Indexed(q) && InRound(q) && Enabled(q, Trigger)
    ensures q.round.batch[q.round.next].addr in q.heap
    ensures var t := q.heap[q.round.batch[q.round.next].addr]; t.when <= q.round.now && 1 <= t.id <= q.lastId
    ensures InRound(TriggerStep(q).q)
  {
    var n := q.round.next;
    assert q.heap[q.round.batch[n].addr] == q.round.snap[n];
    var q' := TriggerStep(q).q;
    assert q'.fired[q.round.base..] == q.fired[q.round.base..] + [Shot(q.round.snap[n].id, q.round.snap[n].when, q.round.now)];
    forall e | e in q'.timers && e.addr in q'.heap && e.when <= q.round.now ensures Leftover(q', e) { assert Leftover(q, e); }
  }

  lemma EndFiringInv(q: Queue)
    requires Inv(q) && Enabled(q, EndFiring)
    ensures Inv(Step(q, EndFiring).q)
  {
    hide Indexed, UniqueIds, OnePlace, FreedOnce, InRound;
    var q' := Step(q, EndFiring).q;
    assert Held(q') == Held(q);
    SameIndexes(q, q');
    SameOnePlace(q, q');
    LedgerSame(q, q');
    EndFiringInRound(q);
  }

  lemma EndFiringInRound(q: Queue)
    requires InRound(q) && Enabled(q, EndFiring)
    ensures InRound(Step(q, EndFiring).q)
  {
    var q' := Step(q, EndFiring).q;
    forall e | e in q'.timers && e.addr in q'.heap && e.when <= q.round.now ensures Leftover(q', e) { assert Leftover(q, e); }
  }

  lemma RearmInv(q: Queue)
    requires Inv(q) && Enabled(q, Rearm)
    ensures RearmStep(q).Ok? && Inv(RearmStep(q).q)
  {
    hide Inv;
    AtHand(q);
    var t := q.round.snap[q.round.next];
    if t.Repeat() && t.id !in q.cancelled { RestartInv(q); } else { DropInv(q); }
  }

  /** The batch member at hand is indexed nowhere and held nowhere else. */
  lemma AtHand(q: Queue)
    requires Inv(q) && Enabled(q, Rearm)
    ensures var r := q.round;
            var e := r.batch[r.next];
            && r.next < |r.snap| && e.addr in q.heap && q.heap[e.addr] == r.snap[r.next] && q.heap[e.addr].id !in q.active && e.addr !in q.inbox
            && (forall x :: x in q.timers ==> x.addr != e.addr)
            && (forall x :: x in r.batch[r.next + 1..] ==> x.addr != e.addr)
            && Held(q) == [e] + r.batch[r.next + 1..]
  {
    hide FreedOnce, NeverEarly, ShotsSoFar, Leftovers, AllSettled;
    var r := q.round;
    var e := r.batch[r.next];
    assert Held(q) == [e] + r.batch[r.next + 1..];
    assert e in Held(q);
    forall x | x in r.batch[r.next + 1..]
      ensures x.addr != e.addr
    {
      var k :| r.next + 1 <= k < |r.batch| && r.batch[k] == x;
      assert q.heap[x.addr] == r.snap[k];
    }
  }

  lemma RestartInv(q: Queue)
    requires Inv(q) && Enabled(q, Rearm)
    requires q.round.next < |q.round.snap|
    requires var t := q.round.snap[q.round.next]; t.Repeat() && t.id !in q.cancelled
    ensures RearmStep(q).Ok? && Inv(RearmStep(q).q)
  {
    hide Indexed, UniqueIds, OnePlace, FreedOnce, InRound;
    AtHand(q);
    var e := q.round.batch[q.round.next];
    var q' := RearmStep(q).q;
    RestartFields(q, e.addr);
    hide RearmStep;
    RestartIndexed(q, q', e.addr);
    LedgerSame(q, q');
    RestartOnePlace(q, q', e.addr, e, q.round.batch[q.round.next + 1..]);
    RestartInRound(q, q', e.addr);
  }

  lemma RestartFields(q: Queue, a: Addr)
    requires Enabled(q, Rearm) && a == q.round.batch[q.round.next].addr && a in q.heap
    requires q.heap[a].Repeat() && q.heap[a].id !in q.cancelled && q.heap[a].id !in q.active
    ensures RearmStep(q).Ok?
    ensures var q', t := RearmStep(q).q, q.heap[a].Restart(q.round.now);
            && q' == Index(q.(round := q'.round, heap := q.heap[a := t]), a)
            && q'.heap == q.heap[a := t] && q'.active == q.active[t.id := a]
            && q'.round == q.round.(next := q.round.next + 1) && q'.stage == q.stage && q'.fired == q.fired
            && q'.lastId == q.lastId && q'.cancelled == q.cancelled && q'.freed == q.freed && q'.inbox == q.inbox
            && Held(q') == q.round.batch[q.round.next + 1..]
  {
  }

  lemma RestartIndexed(q: Queue, q': Queue, a: Addr)
    requires Indexed(q) && UniqueIds(q) && a in q.heap && q.heap[a].id !in q.active
    requires forall x :: x in q.timers ==> x.addr != a
    requires var t := q.heap[a].Restart(q.round.now);
             q' == Index(q.(round := q'.round, heap := q.heap[a := t]), a)
    ensures Indexed(q') && UniqueIds(q')
    ensures forall x :: x in q'.timers <==> x in q.timers || x == Entry(q'.heap[a].when, a)
  {
    IndexKeepsBijection(q.(round := q'.round, heap := q.heap[a := q.heap[a].Restart(q.round.now)]), a);
  }

  lemma RestartOnePlace(q: Queue, q': Queue, a: Addr, e: Entry, rest: seq<Entry>)
    requires OnePlace(q) && UniqueIds(q) && a in q.heap && q.stage.Rearming? && a !in q.inbox && q.heap[a].id !in q.active
    requires Held(q) == [e] + rest && Held(q') == rest && e.addr == a && forall x :: x in rest ==> x.addr != a
    requires a in q'.heap && q'.heap == q.heap[a := q'.heap[a]] && q'.heap[a].id == q.heap[a].id
    requires q'.active == q.active[q.heap[a].id := a] && q'.inbox == q.inbox
    ensures OnePlace(q')
  {
    assert forall x :: x in Held(q) <==> x == e || x in rest;
  }

  lemma MicrosOfPositive(seconds: real)
    requires seconds > 0.0
    ensures Micros(seconds) >= 0
  {
  }

  lemma RestartInRound(q: Queue, q': Queue, a: Addr)
    requires InRound(q) && Indexed(q) && UniqueIds(q) && q.stage.Rearming? && q.round.next < |q.round.batch|
    requires a == q.round.batch[q.round.next].addr && a in q.heap && q.heap[a] == q.round.snap[q.round.next]
    requires q.heap[a].id !in q.active && q.heap[a].Repeat() && q.heap[a].id !in q.cancelled
    requires forall x :: x in q.round.batch[q.round.next + 1..] ==> x.addr != a
    requires var t := q.heap[a].Restart(q.round.now);
             && q'.heap == q.heap[a := t] && q'.active == q.active[t.id := a]
             && (forall x :: x in q'.timers <==> x in q.timers || x == Entry(t.when, a))
    requires q'.round == q.round.(next := q.round.next + 1) && q'.stage == q.stage && q'.fired == q.fired
    requires q'.lastId == q.lastId && q'.cancelled == q.cancelled && q'.freed == q.freed
    ensures InRound(q')
  {
    var n := q.round.next;
    assert forall i :: n + 1 <= i < |q.round.batch| ==> q.round.batch[i] in q.round.batch[n + 1..];
    RestartLeftovers(q, q', a);
    forall k | 0 <= k < n + 1 ensures Settled(q', k) { RestartSettled(q, q', a, k); }
  }

  lemma RestartLeftovers(q: Queue, q': Queue, a: Addr)
    requires RoundShape(q) && Leftovers(q) && Indexed(q) && q.stage.Rearming? && q.round.next < |q.round.batch|
    requires a in q.heap && q.heap[a] == q.round.snap[q.round.next] && q.heap[a].Repeat()
    requires var t := q.heap[a].Restart(q.round.now);
             && q'.heap == q.heap[a := t]
             && (forall x :: x in q'.timers <==> x in q.timers || x == Entry(t.when, a))
    requires q'.round == q.round.(next := q.round.next + 1) && q'.stage == q.stage
    ensures Leftovers(q')
  {
    MicrosOfPositive(q.heap[a].interval);
    forall e | e in q'.timers && e.addr in q'.heap && e.when <= q.round.now
      ensures Leftover(q', e)
    {
      if e in q.timers { assert Leftover(q, e); } else { assert q'.round.snap[q.round.next].id == q'.heap[e.addr].id; }
    }
  }

  lemma RestartSettled(q: Queue, q': Queue, a: Addr, k: nat)
    requires Indexed(q) && a in q.heap && q.heap[a].id !in q.active
    requires k <= q.round.next < |q.round.batch| && |q.round.batch| == |q.round.snap|
    requires var t := q.heap[a].Restart(q.round.now); q'.heap == q.heap[a := t] && q'.active == q.active[t.id := a]
    requires q'.round == q.round.(next := q.round.next + 1)
    requires q'.cancelled == q.cancelled && q'.freed == q.freed
    requires if k < q.round.next then Settled(q, k)
             else q.heap[a] == q.round.snap[k] && q.round.batch[k].addr == a && q.heap[a].Repeat() && q.heap[a].id !in q.cancelled
    ensures Settled(q', k)
  {
  }

  lemma DropInv(q: Queue)
    requires Inv(q) && Enabled(q, Rearm)
    requires q.round.next < |q.round.snap|
    requires var t := q.round.snap[q.round.next]; !(t.Repeat() && t.id !in q.cancelled)
    ensures RearmStep(q).Ok? && Inv(RearmStep(q).q)
  {
    hide Indexed, UniqueIds, OnePlace, FreedOnce, InRound;
    AtHand(q);
    var a := q.round.batch[q.round.next].addr;
    var q' := RearmStep(q).q;
    LedgerShrinks(q, q', a);
    DropIndexed(q, q', a);
    DropOnePlace(q, q', a, q.round.batch[q.round.next], q.round.batch[q.round.next + 1..]);
    DropInRound(q, q', a);
  }

  lemma DropIndexed(q: Queue, q': Queue, a: Addr)
    requires Indexed(q) && a in q.heap && q.heap[a].id !in q.active
    requires q'.heap == q.heap - {a} && q'.timers == q.timers && q'.active == q.active
    ensures Indexed(q')
  {
  }

  lemma DropOnePlace(q: Queue, q': Queue, a: Addr, e: Entry, rest: seq<Entry>)
    requires OnePlace(q) && q.stage.Rearming? && a in q.heap && a !in q.inbox && q.heap[a].id !in q.active
    requires Held(q) == [e] + rest && Held(q') == rest && e.addr == a && forall x :: x in rest ==> x.addr != a
    requires q'.heap == q.heap - {a} && q'.active == q.active && q'.inbox == q.inbox
    ensures OnePlace(q')
  {
    assert forall x :: x in Held(q) <==> x == e || x in rest;
  }

  lemma DropInRound(q: Queue, q': Queue, a: Addr)
    requires InRound(q) && Indexed(q) && q.stage.Rearming? && q.round.next < |q.round.batch|
    requires a == q.round.batch[q.round.next].addr && a in q.heap && q.heap[a] == q.round.snap[q.round.next]
    requires q.heap[a].id !in q.active && !(q.heap[a].Repeat() && q.heap[a].id !in q.cancelled)
    requires forall x :: x in q.round.batch[q.round.next + 1..] ==> x.addr != a
    requires q'.heap == q.heap - {a} && q'.active == q.active && q'.timers == q.timers
    requires q'.round == q.round.(next := q.round.next + 1) && q'.stage == q.stage && q'.fired == q.fired
    requires q'.lastId == q.lastId && q'.cancelled == q.cancelled && q'.freed == q.freed + [q.heap[a].id]
    ensures InRound(q')
  {
    var n := q.round.next;
    DropHeld(q, q', a);
    DropLeftovers(q, q');
    forall k | 0 <= k < n + 1 ensures Settled(q', k) { DropSettled(q, q', a, k); }
    hide Indexed, Sorted, HeldIntact, Leftovers, Settled;
  }

  lemma DropHeld(q: Queue, q': Queue, a: Addr)
    requires RoundShape(q) && HeldIntact(q) && q.stage.Rearming? && q.round.next < |q.round.batch|
    requires forall x :: x in q.round.batch[q.round.next + 1..] ==> x.addr != a
    requires q'.heap == q.heap - {a} && q'.round == q.round.(next := q.round.next + 1) && q'.stage == q.stage && q'.lastId == q.lastId
    ensures RoundShape(q') && HeldIntact(q')
  {
    var n := q.round.next;
    assert forall i :: n + 1 <= i < |q.round.batch| ==> q.round.batch[i] in q.round.batch[n + 1..];
    hide Sorted;
  }

  lemma DropLeftovers(q: Queue, q': Queue)
    requires Leftovers(q) && q'.stage == q.stage && q'.round == q.round.(next := q.round.next + 1)
    requires q'.timers == q.timers && forall a :: a in q'.heap ==> a in q.heap && q'.heap[a] == q.heap[a]
    ensures Leftovers(q')
  {
    forall e | e in q'.timers && e.addr in q'.heap && e.when <= q.round.now ensures Leftover(q', e) { assert Leftover(q, e); }
  }

  lemma DropSettled(q: Queue, q': Queue, a: Addr, k: nat)
    requires Indexed(q) && a in q.heap && q.heap[a].id !in q.active
    requires k <= q.round.next < |q.round.batch| && |q.round.batch| == |q.round.snap|
    requires q'.heap == q.heap - {a} && q'.active == q.active
    requires q'.round == q.round.(next := q.round.next + 1)
    requires q'.cancelled == q.cancelled && q'.freed == q.freed + [q.heap[a].id]
    requires if k < q.round.next then Settled(q, k)
             else q.heap[a] == q.round.snap[k] && !(q.heap[a].Repeat() && q.heap[a].id !in q.cancelled)
    ensures Settled(q', k)
  {
  }

  lemma FinishInv(q: Queue)
    requires Inv(q) && Enabled(q, Finish)
    ensures Step(q, Finish).Ok? && Inv(Step(q, Finish).q)
  {
    hide Indexed, UniqueIds, OnePlace, FreedOnce, InRound;
    SizesAgree(q);
    var q' := Step(q, Finish).q;
    assert Held(q') == Held(q);
    SameIndexes(q, q');
    SameOnePlace(q, q');
    LedgerSame(q, q');
  }
}
