/** One connection from accept() to its release: the rules of the reactor admit whole lives. */
module ReactorWitness {
  import opened Kernel
  import opened PollerSpec
  import opened ConnectionSpec
  import opened ChannelSpec
  import opened ReactorSpec

  const OPEN := Fresh(1, false, false).(state := Connected, events := READ_EVENT)
  const CLOSED := OPEN.(state := Disconnected, events := NONE_EVENT, closes := 1)

  const ADDED: Poller<ConnId> := Poller(map[1 := Chan(5, READ_EVENT, Added)], map[5 := 1], map[5 := Interest(READ_EVENT, 1)])
  const DELETED: Poller<ConnId> := Poller(map[1 := Chan(5, NONE_EVENT, Deleted)], map[5 := 1], map[])
  const REMOVED: Poller<ConnId> := Poller(map[1 := Chan(5, NONE_EVENT, New)], map[], map[])
  const EMPTY: Poller<ConnId> := Poller(map[], map[], map[])

  const EOF := Handle(Arrived([]), Wrote(0))

  /** accept, then end of file, and what follows in one iteration each. */
  const LIFE: seq<Event> := [
    PollReturns([]), Accept(5, 1, false, false), EndDispatch, EndFunctors,
    PollReturns([(5, {IN})]), NextChannel, EOF, EOF, EOF, CloseCallback, EOF,
    EndDispatch, RunTask, EndFunctors, Release(1)]

  function At(phase: Phase, active: seq<Ready>, turn: Turn): Sys {
    Sys(ADDED, map[1 := OPEN], {1}, 2, phase, active, turn, NoClosing, [], [], [], [])
  }

  const LEAVING := At(Dispatching, [], Turn(1, {IN}, WritePart)).(poller := DELETED, conns := map[1 := CLOSED], closing := Closing(1))
  const LEFT := LEAVING.(server := {}, removed := [1], pending := [Task(1, Destroy)], closing := NoClosing)
  const GONE := LEFT.(phase := Functors, turn := NoTurn, poller := REMOVED, pending := [], destroyed := [1])

  ghost predicate Goes(s: Sys, ev: Event, t: Sys) {
    Enabled(s, ev) && Step(s, ev) == Next(t)
  }

  lemma Accepted()
    ensures Goes(BOOT, PollReturns([]), BOOT.(phase := Dispatching))
    ensures Goes(BOOT.(phase := Dispatching), Accept(5, 1, false, false), At(Dispatching, [], NoTurn))
  {
    var s := BOOT.(phase := Dispatching);
    var p := AddChan(s.poller, 1, 5);
    var e := ConnectEstablished(Fresh(1, false, false));
    assert NONE_EVENT + READ_EVENT == READ_EVENT;
    assert e.pushes == [READ_EVENT];
    PushOne(p, 1, READ_EVENT);
    assert SetEvents(p, 1, READ_EVENT) == Ok(ADDED);
    assert e.conn == OPEN && Tasks(1, []) == [];
  }

  lemma Iterated()
    ensures Goes(At(Dispatching, [], NoTurn), EndDispatch, At(Functors, [], NoTurn))
    ensures Goes(At(Functors, [], NoTurn), EndFunctors, At(Polling, [], NoTurn))
    ensures Goes(At(Polling, [], NoTurn), PollReturns([(5, {IN})]), At(Dispatching, [Ready(1, {IN})], NoTurn))
    ensures Goes(At(Dispatching, [Ready(1, {IN})], NoTurn), NextChannel, At(Dispatching, [], Turn(1, {IN}, ClosePart)))
  {
  }

  lemma Handled()
    ensures Goes(At(Dispatching, [], Turn(1, {IN}, ClosePart)), EOF, At(Dispatching, [], Turn(1, {IN}, ErrorPart)))
    ensures Goes(At(Dispatching, [], Turn(1, {IN}, ErrorPart)), EOF, At(Dispatching, [], Turn(1, {IN}, ReadPart)))
    ensures Goes(At(Dispatching, [], Turn(1, {IN}, ReadPart)), EOF, LEAVING)
  {
    PushOne(ADDED, 1, NONE_EVENT);
    assert SetEvents(ADDED, 1, NONE_EVENT) == Ok(DELETED);
    assert map[1 := OPEN][1 := OPEN] == map[1 := OPEN];
  }

  lemma Left()
    ensures Goes(LEAVING, CloseCallback, LEFT)
    ensures Goes(LEFT, EOF, LEFT.(turn := NoTurn))
    ensures Goes(LEFT.(turn := NoTurn), EndDispatch, LEFT.(turn := NoTurn, phase := Functors, batch := [Task(1, Destroy)], pending := []))
  {
    assert {1} - {1} == {};
    assert map[1 := CLOSED][1 := CLOSED] == map[1 := CLOSED];
  }

  lemma Ended()
    ensures Goes(LEFT.(turn := NoTurn, phase := Functors, batch := [Task(1, Destroy)], pending := []), RunTask, GONE)
    ensures Goes(GONE, EndFunctors, GONE.(phase := Polling))
    ensures Goes(GONE.(phase := Polling), Release(1), GONE.(phase := Polling, conns := map[], poller := EMPTY))
  {
    assert RemoveChannel(DELETED, 1) == Ok(REMOVED);
    assert map[1 := CLOSED][1 := CLOSED] == map[1 := CLOSED];
    assert DropChan(REMOVED, 1) == EMPTY;
    assert map[1 := CLOSED] - {1} == map[];
  }

  lemma Chain(s: Sys, k: nat, t: Sys)
    requires k < |LIFE| && Goes(s, LIFE[k], t) && Legal(t, LIFE[k + 1..])
    ensures Legal(s, LIFE[k..]) && Exec(s, LIFE[k..]) == Exec(t, LIFE[k + 1..])
  {
    hide Enabled, Step;
    assert LIFE[k..][0] == LIFE[k] && LIFE[k..][1..] == LIFE[k + 1..];
  }

  /** The run is legal; at its end connection 1 was removed once, destroyed once, and nothing of it is left. */
  lemma WholeLife()
    ensures Legal(BOOT, LIFE)
    ensures Exec(BOOT, LIFE) == Next(GONE.(phase := Polling, conns := map[], poller := EMPTY))
  {
    Accepted();
    Iterated();
    Handled();
    Left();
    Ended();
    hide Goes, Legal, Exec, At;
    var end := GONE.(phase := Polling, conns := map[], poller := EMPTY);
    LifeEnds(end);
    Chain(GONE.(phase := Polling), 14, end);
    Chain(GONE, 13, GONE.(phase := Polling));
    Chain(LEFT.(turn := NoTurn, phase := Functors, batch := [Task(1, Destroy)], pending := []), 12, GONE);
    Chain(LEFT.(turn := NoTurn), 11, LEFT.(turn := NoTurn, phase := Functors, batch := [Task(1, Destroy)], pending := []));
    Chain(LEFT, 10, LEFT.(turn := NoTurn));
    Chain(LEAVING, 9, LEFT);
    Chain(At(Dispatching, [], Turn(1, {IN}, ReadPart)), 8, LEAVING);
    Chain(At(Dispatching, [], Turn(1, {IN}, ErrorPart)), 7, At(Dispatching, [], Turn(1, {IN}, ReadPart)));
    Chain(At(Dispatching, [], Turn(1, {IN}, ClosePart)), 6, At(Dispatching, [], Turn(1, {IN}, ErrorPart)));
    Chain(At(Dispatching, [Ready(1, {IN})], NoTurn), 5, At(Dispatching, [], Turn(1, {IN}, ClosePart)));
    Chain(At(Polling, [], NoTurn), 4, At(Dispatching, [Ready(1, {IN})], NoTurn));
    Chain(At(Functors, [], NoTurn), 3, At(Polling, [], NoTurn));
    Chain(At(Dispatching, [], NoTurn), 2, At(Functors, [], NoTurn));
    Chain(BOOT.(phase := Dispatching), 1, At(Dispatching, [], NoTurn));
    Chain(BOOT, 0, BOOT.(phase := Dispatching));
    assert LIFE[0..] == LIFE;
  }

  lemma LifeEnds(s: Sys)
    ensures Legal(s, LIFE[15..]) && Exec(s, LIFE[15..]) == Next(s)
  {
    assert LIFE[15..] == [];
  }
}
