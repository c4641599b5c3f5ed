/** The reactor when the kernel may report exactly the masks of some set, double closing ones among them. */
module ReactorMasks {
  import opened Kernel
  import opened PollerSpec
  import opened ConnectionSpec
  import opened ChannelSpec
  import opened ReactorSpec
  import opened ReactorRuns
  import opened ReactorWitness

  /** What epoll_wait may report: registered descriptors, each once, with an allowed mask of bits asked for or ERR, HUP. */
  ghost predicate MayReport(p: Poller<ConnId>, events: seq<(nat, Mask)>, masks: set<Mask>) {
    && (forall i, j :: 0 <= i < j < |events| ==> events[i].0 != events[j].0)
    && (forall e :: e in events ==> e.0 in p.kernel && e.1 != {} && e.1 <= p.kernel[e.0].mask + {ERR, HUP} && e.1 in masks)
  }

  ghost predicate May(s: Sys, ev: Event, masks: set<Mask>) {
    if ev.PollReturns? then s.phase.Polling? && MayReport(s.poller, ev.events, masks) else Enabled(s, ev)
  }

  ghost function Move(s: Sys, ev: Event, masks: set<Mask>): Outcome
    requires May(s, ev, masks)
  {
    if ev.PollReturns? then Next(PollStep(s, ev.events)) else Step(s, ev)
  }

  ghost predicate Allowed(s: Sys, run: seq<Event>, masks: set<Mask>)
    decreases |run|
  {
    run == [] || (May(s, run[0], masks) && (Move(s, run[0], masks).Next? ==> Allowed(Move(s, run[0], masks).s, run[1..], masks)))
  }

  ghost function Result(s: Sys, run: seq<Event>, masks: set<Mask>): Outcome
    requires Allowed(s, run, masks)
    decreases |run|
  {
    if run == [] then Next(s)
    else if Move(s, run[0], masks).Next? then Result(Move(s, run[0], masks).s, run[1..], masks)
    else Move(s, run[0], masks)
  }

  ghost predicate Reaches(s: Sys, masks: set<Mask>) {
    exists run :: Allowed(BOOT, run, masks) && Result(BOOT, run, masks) == Next(s)
  }

  /** No connection is ever closed twice. */
  ghost predicate ClosesOnce(masks: set<Mask>) {
    forall s, id :: Reaches(s, masks) && id in s.conns ==> s.conns[id].closes <= 1
  }

  // ----- without double closing masks the two machines are the same -----

  lemma MoveIsStep(s: Sys, ev: Event, masks: set<Mask>)
    requires May(s, ev, masks) && forall m :: m in masks ==> !ClosesTwice(m)
    ensures Enabled(s, ev) && Step(s, ev) == Move(s, ev, masks)
  {
    hide PollStep;
  }

  lemma {:induction false} AllowedIsLegal(s: Sys, run: seq<Event>, masks: set<Mask>)
    requires Allowed(s, run, masks) && forall m :: m in masks ==> !ClosesTwice(m)
    ensures Legal(s, run) && Exec(s, run) == Result(s, run, masks)
    decreases |run|
  {
    hide May, Move, Enabled, Step, ClosesTwice;
    if run != [] {
      MoveIsStep(s, run[0], masks);
      if Move(s, run[0], masks).Next? { AllowedIsLegal(Move(s, run[0], masks).s, run[1..], masks); }
    }
  }

  // ----- with one, a run that closes twice -----

  lemma {:induction false} Snoc(s: Sys, run: seq<Event>, ev: Event, masks: set<Mask>)
    requires Allowed(s, run, masks) && Result(s, run, masks).Next? && May(Result(s, run, masks).s, ev, masks)
    ensures Allowed(s, run + [ev], masks) && Result(s, run + [ev], masks) == Move(Result(s, run, masks).s, ev, masks)
    decreases |run|
  {
    hide May, Move;
    if run == [] {
      assert run + [ev] == [ev] && [ev][1..] == [];
      if Move(s, ev, masks).Next? { assert Allowed(Move(s, ev, masks).s, [], masks); }
    } else {
      assert (run + [ev])[0] == run[0] && (run + [ev])[1..] == run[1..] + [ev];
      Snoc(Move(s, run[0], masks).s, run[1..], ev, masks);
    }
  }

  lemma Onwards(s: Sys, ev: Event, t: Sys, masks: set<Mask>)
    requires Reaches(s, masks) && May(s, ev, masks) && Move(s, ev, masks) == Next(t)
    ensures Reaches(t, masks)
  {
    var run :| Allowed(BOOT, run, masks) && Result(BOOT, run, masks) == Next(s);
    hide May, Move;
    Snoc(BOOT, run, ev, masks);
  }

  /** Any event but a poll is as before. */
  lemma Then(s: Sys, ev: Event, t: Sys, masks: set<Mask>)
    requires Reaches(s, masks) && Goes(s, ev, t) && !ev.PollReturns?
    ensures Reaches(t, masks)
  {
    hide Enabled, Step, Reaches;
    Onwards(s, ev, t, masks);
  }

  const BOTH: Mask := {IN, PRI, OUT}
  const SENT := OPEN.(accepted := [0], out := [0], calls := [Write([])], lengths := [0, 1], events := BOTH)
  const CUT := SENT.(state := Disconnected, events := NONE_EVENT, closes := 1)
  const WRITING: Poller<ConnId> := Poller(map[1 := Chan(5, BOTH, Added)], map[5 := 1], map[5 := Interest(BOTH, 1)])

  /** An open connection with a byte waiting to be written. */
  function With(phase: Phase, active: seq<Ready>, turn: Turn): Sys {
    At(phase, active, turn).(poller := WRITING, conns := map[1 := SENT])
  }

  function Closed(turn: Turn): Sys {
    With(Dispatching, [], turn).(poller := DELETED, conns := map[1 := CUT])
  }

  function Removed(turn: Turn): Sys {
    Closed(turn).(server := {}, removed := [1], pending := [Task(1, Destroy)])
  }

  lemma Sends()
    ensures Goes(At(Dispatching, [], NoTurn), UserSend(1, [0], Wrote(0)), With(Dispatching, [], NoTurn))
  {
    var data: Bytes := [0];
    var e := Send(OPEN, data, Wrote(0));
    assert READ_EVENT + WRITE_EVENT == BOTH;
    assert data[..0] == [] && data[0..] == data;
    assert e == Effect(SENT, [BOTH], [], 0, false);
    PushOne(ADDED, 1, BOTH);
    assert SetEvents(ADDED, 1, BOTH) == Ok(WRITING);
  }

  lemma Iterates(m: Mask)
    ensures Goes(With(Dispatching, [], NoTurn), EndDispatch, With(Functors, [], NoTurn))
    ensures Goes(With(Functors, [], NoTurn), EndFunctors, With(Polling, [], NoTurn))
    ensures Goes(With(Dispatching, [Ready(1, m)], NoTurn), NextChannel, With(Dispatching, [], Turn(1, m, ClosePart)))
  {
  }

  lemma Polls(m: Mask, masks: set<Mask>)
    requires m in masks && ClosesTwice(m)
    ensures May(With(Polling, [], NoTurn), PollReturns([(5, m)]), masks)
    ensures Move(With(Polling, [], NoTurn), PollReturns([(5, m)]), masks) == Next(With(Dispatching, [Ready(1, m)], NoTurn))
  {
    forall b | b in m ensures b in BOTH + {ERR, HUP} { match b case IN => case PRI => case OUT => case ERR => case HUP => }
    var events := [(5, m)];
    assert events[0] in events && WRITING.kernel[5] == Interest(BOTH, 1);
    assert MayReport(WRITING, events, masks);
    assert FillActive(WRITING, events) == [Ready(1, m)];
  }

  lemma Cuts(m: Mask)
    requires ClosesTwice(m)
    ensures Goes(With(Dispatching, [], Turn(1, m, ClosePart)), EOF, Closed(Turn(1, m, ErrorPart)).(closing := Closing(1)))
  {
    PushOne(WRITING, 1, NONE_EVENT);
    assert SetEvents(WRITING, 1, NONE_EVENT) == Ok(DELETED);
  }

  lemma Removes(m: Mask)
    requires ClosesTwice(m)
    ensures Goes(Closed(Turn(1, m, ErrorPart)).(closing := Closing(1)), CloseCallback, Removed(Turn(1, m, ErrorPart)))
    ensures Goes(Removed(Turn(1, m, ErrorPart)), EOF, Removed(Turn(1, m, ReadPart)))
  {
    assert {1} - {1} == {};
    assert map[1 := CUT][1 := CUT] == map[1 := CUT];
  }

  /** The read test finds the end of file, and closes what is closed. */
  lemma CutsAgain(m: Mask)
    requires ClosesTwice(m)
    ensures var s := Removed(Turn(1, m, ReadPart));
            && Enabled(s, EOF) && Step(s, EOF).Next? && 1 in Step(s, EOF).s.conns && Step(s, EOF).s.conns[1].closes == 2
  {
    PushOne(DELETED, 1, NONE_EVENT);
    assert SetEvents(DELETED, 1, NONE_EVENT).Ok?;
  }

  lemma DoubleClose(m: Mask, masks: set<Mask>)
    requires m in masks && ClosesTwice(m)
    ensures !ClosesOnce(masks)
  {
    ReactorWitness.Accepted();
    Sends();
    Iterates(m);
    Polls(m, masks);
    Cuts(m);
    Removes(m);
    CutsAgain(m);
    hide *;
    Begins(masks);
    Then(BOOT.(phase := Dispatching), Accept(5, 1, false, false), At(Dispatching, [], NoTurn), masks);
    Then(At(Dispatching, [], NoTurn), UserSend(1, [0], Wrote(0)), With(Dispatching, [], NoTurn), masks);
    Then(With(Dispatching, [], NoTurn), EndDispatch, With(Functors, [], NoTurn), masks);
    Then(With(Functors, [], NoTurn), EndFunctors, With(Polling, [], NoTurn), masks);
    Onwards(With(Polling, [], NoTurn), PollReturns([(5, m)]), With(Dispatching, [Ready(1, m)], NoTurn), masks);
    Then(With(Dispatching, [Ready(1, m)], NoTurn), NextChannel, With(Dispatching, [], Turn(1, m, ClosePart)), masks);
    Tests(With(Dispatching, [], Turn(1, m, ClosePart)), Closed(Turn(1, m, ErrorPart)).(closing := Closing(1)), masks);
    Then(Closed(Turn(1, m, ErrorPart)).(closing := Closing(1)), CloseCallback, Removed(Turn(1, m, ErrorPart)), masks);
    Tests(Removed(Turn(1, m, ErrorPart)), Removed(Turn(1, m, ReadPart)), masks);
    TwiceReached(Removed(Turn(1, m, ReadPart)), masks);
  }

  lemma Begins(masks: set<Mask>)
    ensures Reaches(BOOT.(phase := Dispatching), masks)
  {
    assert Allowed(BOOT, [], masks) && Result(BOOT, [], masks) == Next(BOOT);
    assert May(BOOT, PollReturns([]), masks) && Move(BOOT, PollReturns([]), masks) == Next(BOOT.(phase := Dispatching));
    hide May, Move;
    Onwards(BOOT, PollReturns([]), BOOT.(phase := Dispatching), masks);
  }

  lemma Tests(s: Sys, t: Sys, masks: set<Mask>)
    requires Reaches(s, masks) && Goes(s, EOF, t)
    ensures Reaches(t, masks)
  {
    hide Enabled, Step, Reaches;
    Then(s, EOF, t, masks);
  }

  lemma TwiceReached(s: Sys, masks: set<Mask>)
    requires Reaches(s, masks) && Enabled(s, EOF) && Step(s, EOF).Next?
    requires 1 in Step(s, EOF).s.conns && Step(s, EOF).s.conns[1].closes == 2
    ensures !ClosesOnce(masks)
  {
    var t := Step(s, EOF).s;
    assert Goes(s, EOF, t);
    hide Enabled, Step, Reaches;
    Then(s, EOF, t, masks);
  }

  /**
   Whatever connections, callbacks and system calls do: no run closes a connection
   twice, if and only if the kernel never reports HUP with PRI but without IN and
   ERR.
   */
  lemma ClosesOnceIff(masks: set<Mask>)
    ensures ClosesOnce(masks) <==> forall m :: m in masks ==> !ClosesTwice(m)
  {
    if m :| m in masks && ClosesTwice(m) {
      DoubleClose(m, masks);
    } else {
      forall s, id | Reaches(s, masks) && id in s.conns ensures s.conns[id].closes <= 1 {
        BenignIsReachable(s, masks);
        EveryConnection(s, id);
      }
    }
  }

  lemma BenignIsReachable(s: Sys, masks: set<Mask>)
    requires Reaches(s, masks) && forall m :: m in masks ==> !ClosesTwice(m)
    ensures Reachable(s)
  {
    var run :| Allowed(BOOT, run, masks) && Result(BOOT, run, masks) == Next(s);
    AllowedIsLegal(BOOT, run, masks);
  }
}
