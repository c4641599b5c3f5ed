/** Which functors every connection queues over a run, told by its account. */
module ReactorFunctors {
  import opened Kernel
  import opened PollerSpec
  import opened ConnectionSpec
  import opened ChannelSpec
  import opened ConnectionCalls
  import opened ReactorSpec
  import opened ReactorInvariant
  import opened ReactorSteps
  import opened ReactorRuns
  import opened ReactorAccounts
  import ReactorLoop

  /** What connection `id` must queue with an event that takes its account from `a` to `b`. */
  function Due(s: Sys, ev: Event, id: ConnId, a: Account, b: Account): seq<Kind> {
    match ev
    case UserSend(at, data, w) =>
      if at != id || a.state != Connected then []
      else
        (if a.wantsComplete && Waiting(a) == 0 && w.Wrote? && Waiting(b) == 0 then [WriteComplete] else [])
        + (if a.wantsHigh && Waiting(a) < a.mark <= Waiting(b) then [HighWater(Waiting(b))] else [])
    case UserForceClose(at) => if at == id && IsOpen(a) then [ForceClose] else []
    case Handle(_, _) => if s.turn.Turn? && s.turn.id == id && a.wantsComplete && Waiting(a) > 0 && Waiting(b) == 0 then [WriteComplete] else []
    case CloseCallback => if s.closing == Closing(id) then [Destroy] else []
    case _ => []
  }

  ghost function FunctorsOf(s: Sys, run: seq<Event>, id: ConnId, a: Account): seq<Kind>
    requires Legal(s, run)
    decreases |run|
  {
    if run == [] || Step(s, run[0]).Died? then []
    else
      var b := Booked(s, run[0], id, a);
      Due(s, run[0], id, a, b) + FunctorsOf(Step(s, run[0]).s, run[1..], id, b)
  }

  /** The functors of one connection among others. */
  function KindsOf(ts: seq<Task>, id: ConnId): seq<Kind> {
    if ts == [] then [] else (if ts[0].id == id then [ts[0].kind] else []) + KindsOf(ts[1..], id)
  }

  /** The functors a run has executed. */
  ghost function Done(s: Sys, run: seq<Event>): seq<Task>
    requires Legal(s, run)
    decreases |run|
  {
    if run == [] || Step(s, run[0]).Died? then []
    else (if run[0].RunTask? && s.batch != [] then [s.batch[0]] else []) + Done(Step(s, run[0]).s, run[1..])
  }

  lemma {:induction false} KindsConcat(a: seq<Task>, b: seq<Task>, id: ConnId)
    ensures KindsOf(a + b, id) == KindsOf(a, id) + KindsOf(b, id)
    decreases |a|
  {
    if a == [] {
      assert a + b == b;
    } else {
      assert (a + b)[0] == a[0] && (a + b)[1..] == a[1..] + b;
      KindsConcat(a[1..], b, id);
      var head, x, y := if a[0].id == id then [a[0].kind] else [], KindsOf(a[1..], id), KindsOf(b, id);
      assert head + (x + y) == (head + x) + y;
    }
  }

  lemma KindsOfTasks(at: ConnId, kinds: seq<Kind>, id: ConnId)
    ensures KindsOf(Tasks(at, kinds), id) == if at == id then kinds else []
    decreases |kinds|
  {
    if kinds == [] {
      assert Tasks(at, kinds) == [];
    } else {
      assert Tasks(at, kinds) == [Task(at, kinds[0])] + Tasks(at, kinds[1..]);
      KindsOfTasks(at, kinds[1..], id);
    }
  }

  /** A handler's functors are all it adds to the queue. */
  lemma ApplyAdds(s: Sys, at: ConnId, e: Effect, id: ConnId)
    requires Apply(s, at, e).Next?
    ensures KindsOf(NewTasks(s, Apply(s, at, e).s), id) == if at == id then e.queued else []
  {
    hide PushAll;
    KindsOfTasks(at, e.queued, id);
    assert NewTasks(s, Apply(s, at, e).s) == Tasks(at, e.queued);
  }

  lemma SendDue(s: Sys, at: ConnId, data: Bytes, w: WriteResult, id: ConnId, a: Account)
    requires SysInv(s) && Enabled(s, UserSend(at, data, w)) && Step(s, UserSend(at, data, w)).Next? && Holds(s, id, a)
    ensures var ev := UserSend(at, data, w);
            KindsOf(NewTasks(s, Step(s, ev).s), id) == Due(s, ev, id, a, Booked(s, ev, id, a))
  {
    hide *;
    SendStep(s, at, data, w);
    ConnFacts(s, at);
    Unaborted(s, at, Send(s.conns[at], data, w));
    ApplyAdds(s, at, Send(s.conns[at], data, w), id);
    SendsDue(s, at, data, w, id, a);
    HoldsMatches(s, id, a);
    if at == id { SendQueues(s.conns[at], a, data, w); }
  }

  lemma SendQueues(c: Conn, a: Account, data: Bytes, w: WriteResult)
    requires ConnInv(c) && Matches(c, a) && (w.Wrote? ==> w.n <= |data|) && !Send(c, data, w).aborted
    ensures var b := Sends(a, data, w);
            Send(c, data, w).queued ==
            if a.state != Connected then []
            else (if a.wantsComplete && Waiting(a) == 0 && w.Wrote? && Waiting(b) == 0 then [WriteComplete] else [])
                 + (if a.wantsHigh && Waiting(a) < a.mark <= Waiting(b) then [HighWater(Waiting(b))] else [])
  {
    SendOutcome(c, data, w);
    SendMatches(c, a, data, w);
    LengthIsWaiting(c, a);
    LengthIsWaiting(Send(c, data, w).conn, Sends(a, data, w));
    hide Send, ConnInv, Matches, Written, LengthsFollow, Sends;
  }

  lemma LengthIsWaiting(c: Conn, a: Account)
    requires Matches(c, a)
    ensures Waiting(a) == |c.out| && (c.out == [] <==> Waiting(a) == 0)
    ensures c.state == a.state && c.wantsComplete == a.wantsComplete && c.wantsHigh == a.wantsHigh && c.mark == a.mark
  {
    hide SentFin, InputMatches;
  }

  lemma UserDue(s: Sys, ev: Event, id: ConnId, a: Account)
    requires SysInv(s) && Enabled(s, ev) && Step(s, ev).Next? && Holds(s, id, a)
    requires ev.UserShutdown? || ev.UserForceClose? || ev.UserRetrieve?
    ensures KindsOf(NewTasks(s, Step(s, ev).s), id) == Due(s, ev, id, a, Booked(s, ev, id, a))
  {
    var c, at := s.conns[ev.id], ev.id;
    ConnFacts(s, at);
    ShutdownOutcome(c, [], Wrote(0));
    ForceCloseOutcome(c);
    if ev.UserRetrieve? { TakeOutcome(c, ev.n); }
    if at == id { LengthIsWaiting(c, a); }
    hide SysInv, Shutdown, ForceClosing, TakeInput, Apply, Matches, ConnInv, NewTasks, KindsOf, Booked;
    var e := if ev.UserShutdown? then Shutdown(c) else if ev.UserForceClose? then ForceClosing(c) else TakeInput(c, ev.n);
    ApplyAdds(s, at, e, id);
  }

  lemma HandleDue(s: Sys, r: ReadResult, w: WriteResult, id: ConnId, a: Account)
    requires SysInv(s) && Enabled(s, Handle(r, w)) && Step(s, Handle(r, w)).Next? && Holds(s, id, a)
    ensures var ev := Handle(r, w);
            KindsOf(NewTasks(s, Step(s, ev).s), id) == Due(s, ev, id, a, Booked(s, ev, id, a))
  {
    TurnFacts(s);
    var t := s.turn;
    var c, s1 := s.conns[t.id], s.(turn := NextPart(t));
    var e := RunPart(c, t.revents, t.part, r, w);
    hide SysInv, RunPart, Apply, Matches, ConnInv, Tests, TurnOk, NewTasks, KindsOf;
    Unaborted(s1, t.id, e);
    ApplyAdds(s1, t.id, e, id);
    SameTasks(s, s1, Apply(s1, t.id, e).s);
    if t.id == id { PartQueues(c, a, t.revents, t.part, r, w); }
  }

  lemma SameTasks(s: Sys, s1: Sys, t: Sys)
    requires s1.pending == s.pending
    ensures NewTasks(s, t) == NewTasks(s1, t)
  {
  }

  lemma PartQueues(c: Conn, a: Account, revents: Mask, part: Part, r: ReadResult, w: WriteResult)
    requires ConnInv(c) && Matches(c, a) && (part.WritePart? && w.Wrote? ==> w.n <= |c.out|)
    requires !RunPart(c, revents, part, r, w).aborted
    ensures var b := Tests(a, revents, part, r, w);
            RunPart(c, revents, part, r, w).queued == if a.wantsComplete && Waiting(a) > 0 && Waiting(b) == 0 then [WriteComplete] else []
  {
    PartOutcome(c, revents, part, r, w);
    PartMatches(c, a, revents, part, r, w);
    LengthIsWaiting(c, a);
    LengthIsWaiting(RunPart(c, revents, part, r, w).conn, Tests(a, revents, part, r, w));
    hide RunPart, ConnInv, Matches, Written, LengthsFollow, Tests;
  }

  lemma QuietDue(s: Sys, ev: Event, id: ConnId, a: Account)
    requires SysInv(s) && Enabled(s, ev) && Step(s, ev).Next?
    requires ev.PollReturns? || ev.NextChannel? || ev.CloseCallback? || ev.EndDispatch? || ev.EndFunctors? || ev.Release?
    ensures !ev.EndDispatch? ==> KindsOf(NewTasks(s, Step(s, ev).s), id) == Due(s, ev, id, a, Booked(s, ev, id, a))
    ensures ev.EndDispatch? ==> Due(s, ev, id, a, Booked(s, ev, id, a)) == []
  {
    hide Reports, Unreferenced, DropChan, FillActive, SysInv;
    if ev.CloseCallback? {
      assert NewTasks(s, Step(s, ev).s) == [Task(s.closing.id, Destroy)];
    }
  }

  lemma AcceptDue(s: Sys, ev: Event, id: ConnId, a: Account)
    requires SysInv(s) && Enabled(s, ev) && ev.Accept?
    ensures Step(s, ev).Next? && KindsOf(NewTasks(s, Step(s, ev).s), id) == []
  {
    AcceptOutcome(s, ev.fd, ev.mark, ev.wantsHigh, ev.wantsComplete);
    hide SysInv, Step, Enabled;
  }

  /** A functor of the reactor's own queues no further one. */
  lemma TaskDue(s: Sys, id: ConnId)
    requires SysInv(s) && Enabled(s, RunTask) && Step(s, RunTask).Next?
    ensures NewTasks(s, Step(s, RunTask).s) == []
  {
    TaskReady(s);
    TaskOwner(s);
    var at := s.batch[0].id;
    if s.batch[0].kind.Destroy? { OwedIsClosed(s, at); DestroyedIsPlain(s.conns[at]); }
    hide SysInv, Enabled, Step, ConnectDestroyed;
    TaskQuiet(s);
  }

  lemma TaskQuiet(s: Sys)
    requires Enabled(s, RunTask) && Step(s, RunTask).Next? && s.batch != [] && s.batch[0].id in s.conns
    requires s.batch[0].kind.Destroy? ==> ConnectDestroyed(s.conns[s.batch[0].id]) == Plain(s.conns[s.batch[0].id])
    ensures NewTasks(s, Step(s, RunTask).s) == []
  {
    var at, s1 := s.batch[0].id, s.(batch := s.batch[1..]);
    ForceCloseOutcome(s.conns[at]);
    ApplyAddsNone(s1, at, ForceCloseInLoop(s.conns[at]));
    ApplyAddsNone(s1, at, ConnectDestroyed(s.conns[at]));
    hide Apply, ForceCloseInLoop, ConnectDestroyed, RemoveChannel;
  }

  lemma ApplyAddsNone(s: Sys, at: ConnId, e: Effect)
    ensures Apply(s, at, e).Next? && e.queued == [] ==> Apply(s, at, e).s.pending == s.pending
  {
    hide PushAll;
    assert s.pending + Tasks(at, []) == s.pending;
  }

  lemma StepDue(s: Sys, ev: Event, id: ConnId, a: Account)
    requires SysInv(s) && Enabled(s, ev) && Step(s, ev).Next? && Holds(s, id, a)
    ensures !ev.EndDispatch? ==> KindsOf(NewTasks(s, Step(s, ev).s), id) == Due(s, ev, id, a, Booked(s, ev, id, a))
    ensures ev.EndDispatch? ==> Due(s, ev, id, a, Booked(s, ev, id, a)) == []
  {
    NoneDue(s, ev, id, a);
    hide *;
    match ev
    case Handle(r, w) => HandleDue(s, r, w, id, a);
    case Accept(fd, mark, wantsHigh, wantsComplete) => AcceptDue(s, ev, id, a);
    case UserSend(at, data, w) => SendDue(s, at, data, w, id, a);
    case UserShutdown(at) => UserDue(s, ev, id, a);
    case UserRetrieve(at, n) => UserDue(s, ev, id, a);
    case UserForceClose(at) => UserDue(s, ev, id, a);
    case RunTask => TaskDue(s, id);
    case _ => QuietDue(s, ev, id, a);
  }

  lemma NoneDue(s: Sys, ev: Event, id: ConnId, a: Account)
    ensures ev.Accept? || ev.RunTask? ==> Due(s, ev, id, a, Booked(s, ev, id, a)) == []
    ensures KindsOf([], id) == []
  {
  }

  // ----- runs -----

  /** The queue moves: what was executed, then the batch, then the pending functors, grows at its end. */
  lemma QueueGrows(s: Sys, ev: Event)
    requires SysInv(s) && Enabled(s, ev) && Step(s, ev).Next?
    ensures var t := Step(s, ev).s;
            (if ev.RunTask? && s.batch != [] then [s.batch[0]] else []) + t.batch + t.pending
            == s.batch + s.pending + if ev.EndDispatch? then [] else NewTasks(s, t)
  {
    ReactorLoop.StepQueue(s, ev);
    if ev.EndDispatch? { SwapsAll(s); }
    hide *;
    QueueLine(s, ev, Step(s, ev).s);
  }

  lemma QueueLine(s: Sys, ev: Event, t: Sys)
    requires ReactorLoop.QueueMoves(s, ev, t) && (ev.EndDispatch? ==> s.batch == [])
    ensures (if ev.RunTask? && s.batch != [] then [s.batch[0]] else []) + t.batch + t.pending
            == s.batch + s.pending + if ev.EndDispatch? then [] else NewTasks(s, t)
  {
    var fed := NewTasks(s, t);
    hide NewTasks;
    if ev.RunTask? {
      assert s.batch == [s.batch[0]] + s.batch[1..];
      assert [s.batch[0]] + t.batch + t.pending == s.batch + s.pending + fed;
    }
  }

  lemma SwapsAll(s: Sys)
    requires SysInv(s) && Enabled(s, EndDispatch)
    ensures s.batch == []
  {
  }

  /** Kinds queued before a step, and by it. */
  lemma StepKinds(s: Sys, ev: Event, id: ConnId, a: Account)
    requires SysInv(s) && Enabled(s, ev) && Step(s, ev).Next? && Holds(s, id, a)
    ensures var t := Step(s, ev).s;
            KindsOf(if ev.RunTask? && s.batch != [] then [s.batch[0]] else [], id) + KindsOf(t.batch + t.pending, id)
            == KindsOf(s.batch + s.pending, id) + Due(s, ev, id, a, Booked(s, ev, id, a))
  {
    QueueGrows(s, ev);
    StepDue(s, ev, id, a);
    hide *;
    NoKinds(id);
    var t := Step(s, ev).s;
    Regroup(if ev.RunTask? && s.batch != [] then [s.batch[0]] else [], t.batch, t.pending, s.batch + s.pending,
            if ev.EndDispatch? then [] else NewTasks(s, t), id);
  }

  lemma Regroup(head: seq<Task>, batch: seq<Task>, pending: seq<Task>, line: seq<Task>, fed: seq<Task>, id: ConnId)
    requires head + batch + pending == line + fed
    ensures KindsOf(head, id) + KindsOf(batch + pending, id) == KindsOf(line, id) + KindsOf(fed, id)
  {
    assert head + batch + pending == head + (batch + pending);
    KindsConcat(head, batch + pending, id);
    KindsConcat(line, fed, id);
  }

  /** Two steps make one. */
  lemma Telescope<T>(head: seq<T>, done: seq<T>, q0: seq<T>, q1: seq<T>, q2: seq<T>, due: seq<T>, rest: seq<T>)
    requires head + q1 == q0 + due && done + q2 == q1 + rest
    ensures (head + done) + q2 == q0 + (due + rest)
  {
    assert (head + done) + q2 == head + (done + q2) == head + (q1 + rest) == (head + q1) + rest;
    assert (q0 + due) + rest == q0 + (due + rest);
  }

  lemma NoKinds(id: ConnId)
    ensures KindsOf([], id) == []
  {
  }

  lemma {:induction false} RunKinds(s: Sys, run: seq<Event>, id: ConnId, a: Account)
    requires SysInv(s) && Legal(s, run) && Exec(s, run).Next? && Holds(s, id, a)
    ensures var t := Exec(s, run).s;
            KindsOf(Done(s, run), id) + KindsOf(t.batch + t.pending, id) == KindsOf(s.batch + s.pending, id) + FunctorsOf(s, run, id, a)
    decreases |run|
  {
    hide SysInv, Step, Enabled, Holds, Booked, KindsOf, Due;
    NoKinds(id);
    if run != [] {
      var t, b := Step(s, run[0]).s, Booked(s, run[0], id, a);
      StepInv(s, run[0]);
      StepHolds(s, run[0], id, a);
      StepKinds(s, run[0], id, a);
      RunKinds(t, run[1..], id, b);
      var head := if run[0].RunTask? && s.batch != [] then [s.batch[0]] else [];
      KindsConcat(head, Done(t, run[1..]), id);
      var end := Exec(s, run).s;
      Telescope(KindsOf(head, id), KindsOf(Done(t, run[1..]), id), KindsOf(s.batch + s.pending, id), KindsOf(t.batch + t.pending, id),
                KindsOf(end.batch + end.pending, id), Due(s, run[0], id, a, b), FunctorsOf(t, run[1..], id, b));
    } else {
      assert [] + KindsOf(s.batch + s.pending, id) == KindsOf(s.batch + s.pending, id) + [];
    }
  }

  /**
   After any run from start-up: the functors of a connection that were executed,
   that are left of the batch and that are pending are, in this order, exactly
   those its account calls for: a write-complete when the last byte goes, a
   high-water for every crossing with the length then, a forced close for every
   forceClose() on an open connection, a destroy for every close.
   */
  lemma FunctorsAreThoseDue(run: seq<Event>, id: ConnId)
    requires Legal(BOOT, run) && Exec(BOOT, run).Next?
    ensures var t := Exec(BOOT, run).s;
            KindsOf(Done(BOOT, run) + t.batch + t.pending, id) == FunctorsOf(BOOT, run, id, UNBORN)
  {
    BootInv();
    hide *;
    BootIsEmpty(id);
    RunKinds(BOOT, run, id, UNBORN);
    var t := Exec(BOOT, run).s;
    var line, due := Done(BOOT, run) + t.batch + t.pending, FunctorsOf(BOOT, run, id, UNBORN);
    NoKinds(id);
    assert line + [] == line && KindsOf(line, id) + [] == KindsOf(line, id) && [] + due == due;
    Regroup(Done(BOOT, run), t.batch, t.pending, line, [], id);
  }

  lemma BootIsEmpty(id: ConnId)
    ensures BOOT.batch + BOOT.pending == [] && Holds(BOOT, id, UNBORN)
  {
  }

  // ----- high-water callbacks -----

  function HighCount(kinds: seq<Kind>): nat {
    if kinds == [] then 0 else (if kinds[0].HighWater? then 1 else 0) + HighCount(kinds[1..])
  }

  lemma {:induction false} HighsConcat(a: seq<Kind>, b: seq<Kind>)
    ensures HighCount(a + b) == HighCount(a) + HighCount(b)
    decreases |a|
  {
    if a == [] {
      assert a + b == b;
    } else {
      assert (a + b)[0] == a[0] && (a + b)[1..] == a[1..] + b;
      HighsConcat(a[1..], b);
    }
  }

  /** `highs` counts the callbacks that were due so far. */
  ghost predicate Counted(s: Sys, id: ConnId, n: nat) {
    (id in s.conns ==> s.conns[id].highs == n) && (id >= s.nextId ==> n == 0)
  }

  lemma SendCounts(c: Conn, a: Account, data: Bytes, w: WriteResult)
    requires ConnInv(c) && Matches(c, a) && (w.Wrote? ==> w.n <= |data|) && !Send(c, data, w).aborted
    ensures Send(c, data, w).conn.highs == c.highs + HighCount(Send(c, data, w).queued)
  {
    SendOutcome(c, data, w);
    hide Send, ConnInv, Matches, Written;
    HighsOfSend(c, data, w, Send(c, data, w));
  }

  lemma HighsOfSend(c: Conn, data: Bytes, w: WriteResult, e: Effect)
    requires (w.Wrote? ==> w.n <= |data|) && if c.state.Connected? then SendDone(c, data, w, e) else e == Plain(c)
    ensures e.conn.highs == c.highs + HighCount(e.queued)
  {
    if c.state.Connected? {
      var first := if c.wantsComplete && c.out == [] && w.Wrote? && e.conn.out == [] then [WriteComplete] else [];
      var highs := HighWaters(c, e.conn);
      assert e.queued == first + highs && e.conn.highs == c.highs + |highs|;
      hide SendDone, Written;
      HighsConcat(first, highs);
      assert HighCount(first) == 0 && HighCount(highs) == |highs|;
    }
  }

  lemma PartCounts(c: Conn, revents: Mask, part: Part, r: ReadResult, w: WriteResult)
    requires ConnInv(c) && (part.WritePart? && w.Wrote? ==> w.n <= |c.out|) && !RunPart(c, revents, part, r, w).aborted
    ensures RunPart(c, revents, part, r, w).conn.highs == c.highs
  {
    PartOutcome(c, revents, part, r, w);
    hide RunPart, ConnInv, Written;
  }

  lemma UserCounts(c: Conn, n: nat)
    requires ConnInv(c)
    ensures Shutdown(c).conn.highs == c.highs && ForceClosing(c).conn.highs == c.highs && ForceCloseInLoop(c).conn.highs == c.highs
    ensures TakeInput(c, n).conn.highs == c.highs
  {
    ShutdownOutcome(c, [], Wrote(0));
    ForceCloseOutcome(c);
    TakeOutcome(c, n);
    hide ConnInv, Shutdown, ForceClosing, ForceCloseInLoop, TakeInput;
  }

  lemma ApplyCounts(s: Sys, o: Sys, at: ConnId, e: Effect, id: ConnId, n: nat, m: nat)
    requires Apply(s, at, e) == Next(o) && at in s.conns && at < s.nextId && Counted(s, id, n)
    requires if at == id then e.conn.highs == s.conns[at].highs + m - n && n <= m else m == n
    ensures Counted(o, id, m)
  {
    hide PushAll;
  }

  lemma HandedCounts(s: Sys, t: Sys, id: ConnId, n: nat)
    requires Counted(s, id, n) && t.nextId == s.nextId && t.conns == s.conns
    ensures Counted(t, id, n)
  {
  }

  lemma SendStepCounts(s: Sys, at: ConnId, data: Bytes, w: WriteResult, id: ConnId, a: Account, n: nat)
    requires SysInv(s) && Enabled(s, UserSend(at, data, w)) && Step(s, UserSend(at, data, w)).Next? && Holds(s, id, a) && Counted(s, id, n)
    ensures var ev := UserSend(at, data, w);
            Counted(Step(s, ev).s, id, n + HighCount(Due(s, ev, id, a, Booked(s, ev, id, a))))
  {
    hide *;
    SendStep(s, at, data, w);
    ConnFacts(s, at);
    IdBound(s, at);
    Unaborted(s, at, Send(s.conns[at], data, w));
    NoHighs();
    SendsDue(s, at, data, w, id, a);
    HoldsMatches(s, id, a);
    if at == id { SendQueues(s.conns[id], a, data, w); SendCounts(s.conns[id], a, data, w); }
    ApplyCounts(s, Step(s, UserSend(at, data, w)).s, at, Send(s.conns[at], data, w), id, n, if at == id then n + HighCount(Send(s.conns[id], data, w).queued) else n);
  }

  lemma SendsDue(s: Sys, at: ConnId, data: Bytes, w: WriteResult, id: ConnId, a: Account)
    requires (w.Wrote? ==> w.n <= |data|)
    ensures var ev, b := UserSend(at, data, w), Sends(a, data, w);
            Due(s, ev, id, a, Booked(s, ev, id, a)) ==
            if at != id || a.state != Connected then []
            else (if a.wantsComplete && Waiting(a) == 0 && w.Wrote? && Waiting(b) == 0 then [WriteComplete] else [])
                 + (if a.wantsHigh && Waiting(a) < a.mark <= Waiting(b) then [HighWater(Waiting(b))] else [])
  {
    hide Sends, Waiting;
  }

  lemma NoHighs()
    ensures HighCount([]) == 0 && HighCount([WriteComplete]) == 0 && HighCount([ForceClose]) == 0 && HighCount([Destroy]) == 0
  {
  }

  lemma UserStepCounts(s: Sys, ev: Event, id: ConnId, n: nat)
    requires SysInv(s) && Enabled(s, ev) && Step(s, ev).Next? && Counted(s, id, n)
    requires ev.UserShutdown? || ev.UserForceClose? || ev.UserRetrieve?
    ensures Counted(Step(s, ev).s, id, n)
  {
    var c, at := s.conns[ev.id], ev.id;
    ConnFacts(s, at);
    IdBound(s, at);
    UserCounts(c, if ev.UserRetrieve? then ev.n else 0);
    hide SysInv, Shutdown, ForceClosing, TakeInput, Apply, ConnInv, Counted;
    var e := if ev.UserShutdown? then Shutdown(c) else if ev.UserForceClose? then ForceClosing(c) else TakeInput(c, ev.n);
    ApplyCounts(s, Apply(s, at, e).s, at, e, id, n, n);
  }

  lemma HandleStepCounts(s: Sys, r: ReadResult, w: WriteResult, id: ConnId, n: nat)
    requires SysInv(s) && Enabled(s, Handle(r, w)) && Step(s, Handle(r, w)).Next? && Counted(s, id, n)
    ensures Counted(Step(s, Handle(r, w)).s, id, n)
  {
    TurnFacts(s);
    var t := s.turn;
    IdBound(s, t.id);
    var c, s1 := s.conns[t.id], s.(turn := NextPart(t));
    var e := RunPart(c, t.revents, t.part, r, w);
    hide SysInv, RunPart, Apply, ConnInv, TurnOk, Counted;
    Unaborted(s1, t.id, e);
    PartCounts(c, t.revents, t.part, r, w);
    HandedCounts(s, s1, id, n);
    ApplyCounts(s1, Apply(s1, t.id, e).s, t.id, e, id, n, n);
  }

  lemma TaskStepCounts(s: Sys, id: ConnId, n: nat)
    requires SysInv(s) && Enabled(s, RunTask) && Step(s, RunTask).Next? && Counted(s, id, n)
    ensures Counted(Step(s, RunTask).s, id, n)
  {
    hide *;
    TaskReady(s);
    TaskOwner(s);
    var t := s.batch[0];
    ConnFacts(s, t.id);
    if t.kind.Destroy? { OwedIsClosed(s, t.id); DestroyedIsPlain(s.conns[t.id]); }
    UserCounts(s.conns[t.id], 0);
    TaskConns(s);
    TaskIds(s);
    TaskCounted(s, Step(s, RunTask).s, id, n);
  }

  lemma TaskIds(s: Sys)
    requires Enabled(s, RunTask) && Step(s, RunTask).Next?
    ensures Step(s, RunTask).s.nextId == s.nextId
  {
    hide PushAll, ForceCloseInLoop, ConnectDestroyed, RemoveChannel;
  }

  lemma TaskCounted(s: Sys, t: Sys, id: ConnId, n: nat)
    requires s.batch != [] && s.batch[0].id in s.conns && Counted(s, id, n) && t.nextId == s.nextId
    requires var at := s.batch[0].id;
             && ForceCloseInLoop(s.conns[at]).conn.highs == s.conns[at].highs
             && t.conns == if s.batch[0].kind.ForceClose? then s.conns[at := ForceCloseInLoop(s.conns[at]).conn] else s.conns
    ensures Counted(t, id, n)
  {
    hide ForceCloseInLoop;
  }

  lemma AcceptStepCounts(s: Sys, ev: Event, id: ConnId, n: nat)
    requires SysInv(s) && Enabled(s, ev) && ev.Accept? && Counted(s, id, n)
    ensures Step(s, ev).Next? && Counted(Step(s, ev).s, id, n)
  {
    AcceptOutcome(s, ev.fd, ev.mark, ev.wantsHigh, ev.wantsComplete);
    hide SysInv, Step, Enabled;
  }

  lemma OtherStepCounts(s: Sys, ev: Event, id: ConnId, n: nat)
    requires Enabled(s, ev) && Step(s, ev).Next? && Counted(s, id, n)
    requires ev.PollReturns? || ev.NextChannel? || ev.CloseCallback? || ev.EndDispatch? || ev.EndFunctors? || ev.Release?
    ensures Counted(Step(s, ev).s, id, n)
  {
    hide Reports, Unreferenced, DropChan, FillActive;
  }

  lemma DueHighs(s: Sys, ev: Event, id: ConnId, a: Account)
    ensures !ev.UserSend? ==> HighCount(Due(s, ev, id, a, Booked(s, ev, id, a))) == 0
  {
    NoHighs();
    hide Booked, HighCount;
  }

  lemma StepCounts(s: Sys, ev: Event, id: ConnId, a: Account, n: nat)
    requires SysInv(s) && Enabled(s, ev) && Step(s, ev).Next? && Holds(s, id, a) && Counted(s, id, n)
    ensures Counted(Step(s, ev).s, id, n + HighCount(Due(s, ev, id, a, Booked(s, ev, id, a))))
  {
    DueHighs(s, ev, id, a);
    hide *;
    match ev
    case UserSend(at, data, w) => SendStepCounts(s, at, data, w, id, a, n);
    case Handle(r, w) => HandleStepCounts(s, r, w, id, n);
    case Accept(_, _, _, _) => AcceptStepCounts(s, ev, id, n);
    case UserShutdown(_) => UserStepCounts(s, ev, id, n);
    case UserRetrieve(_, _) => UserStepCounts(s, ev, id, n);
    case UserForceClose(_) => UserStepCounts(s, ev, id, n);
    case RunTask => TaskStepCounts(s, id, n);
    case _ => OtherStepCounts(s, ev, id, n);
  }

  lemma {:induction false} RunCounts(s: Sys, run: seq<Event>, id: ConnId, a: Account, n: nat)
    requires SysInv(s) && Legal(s, run) && Exec(s, run).Next? && Holds(s, id, a) && Counted(s, id, n)
    ensures Counted(Exec(s, run).s, id, n + HighCount(FunctorsOf(s, run, id, a)))
    decreases |run|
  {
    hide SysInv, Step, Enabled, Holds, Booked, Due, Counted, HighCount;
    NoHighs();
    if run != [] {
      var t, b := Step(s, run[0]).s, Booked(s, run[0], id, a);
      StepInv(s, run[0]);
      StepHolds(s, run[0], id, a);
      StepCounts(s, run[0], id, a, n);
      RunCounts(t, run[1..], id, b, n + HighCount(Due(s, run[0], id, a, b)));
      HighsConcat(Due(s, run[0], id, a, b), FunctorsOf(t, run[1..], id, b));
    }
  }

  /**
   Over any run: the high-water callbacks a connection has in the queue or had
   executed are as many as the upward crossings of the mark by its output length.
   */
  lemma HighWatersAreCrossings(run: seq<Event>, id: ConnId)
    requires Legal(BOOT, run) && Exec(BOOT, run).Next? && id in Exec(BOOT, run).s.conns
    ensures var t := Exec(BOOT, run).s;
            var c := t.conns[id];
            HighCount(KindsOf(Done(BOOT, run) + t.batch + t.pending, id)) == c.highs
            && (c.wantsHigh ==> c.highs == Crossings(c.lengths, c.mark))
            && c.lengths != [] && c.lengths[|c.lengths| - 1] == |c.out|
  {
    BootInv();
    hide *;
    BootIsEmpty(id);
    BootCounted(id);
    FunctorsAreThoseDue(run, id);
    RunCounts(BOOT, run, id, UNBORN, 0);
    RunsAreSafe(run);
    LastCount(Exec(BOOT, run).s, id, HighCount(FunctorsOf(BOOT, run, id, UNBORN)));
    SurvivesIs(Exec(BOOT, run));
    ConnFacts(Exec(BOOT, run).s, id);
    CrossingsCounted(Exec(BOOT, run).s.conns[id]);
  }

  lemma BootCounted(id: ConnId)
    ensures Counted(BOOT, id, 0)
  {
  }

  lemma LastCount(s: Sys, id: ConnId, n: nat)
    requires Counted(s, id, n) && id in s.conns
    ensures s.conns[id].highs == n
  {
  }

  lemma SurvivesIs(o: Outcome)
    requires Survives(o) && o.Next?
    ensures SysInv(o.s)
  {
    hide SysInv;
  }

  lemma CrossingsCounted(c: Conn)
    requires ConnInv(c)
    ensures (c.wantsHigh ==> c.highs == Crossings(c.lengths, c.mark)) && c.lengths != [] && c.lengths[|c.lengths| - 1] == |c.out|
  {
    hide Crossings;
  }
}
