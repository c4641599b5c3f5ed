/** A caller of class Reactor: the life of ReactorWitness, on the objects. */
module ReactorClient {
  import opened Kernel
  import opened PollerSpec
  import opened ConnectionSpec
  import opened ChannelSpec
  import opened ReactorSpec
  import opened ReactorWitness
  import ReactorRuns
  import LoopRuns
  import opened Pollers
  import opened TcpConnections
  import opened Reactors

  const DOOMED := LEFT.(turn := NoTurn, phase := Functors, batch := [Task(1, Destroy)], pending := [])
  const END := GONE.(phase := Polling, conns := map[], poller := EMPTY)

  lemma Does(s: Sys, ev: Event, t: Sys)
    requires Goes(s, ev, t)
    ensures Enabled(s, ev) && Step(s, ev) == Next(t)
  {
  }

  lemma Tests(s: Sys, t: Sys)
    requires Goes(s, EOF, t)
    ensures Enabled(s, Event.Handle(Arrived([]), Wrote(0))) && Step(s, Event.Handle(Arrived([]), Wrote(0))) == Next(t)
  {
  }

  /** accept a connection, read its end of file, remove, destroy and release it. */
  method OneLife() returns (r: Reactor)
    ensures fresh(r) && r.Valid() && r.objects == map[]
    ensures Legal(BOOT, LIFE) && Exec(BOOT, LIFE) == Next(r.sys) && r.sys.conns == map[]
  {
    hide *;
    var conn;
    r, conn := Born();
    Called(r, conn);
    Closed(r, conn);
    Left(r, conn);
    WholeLife();
    Doomed();
  }

  /** The first iteration: accept. */
  method Born() returns (r: Reactor, conn: TcpConnection)
    ensures fresh(r) && fresh(r.loop) && fresh(r.poller) && fresh(r.poller.events) && fresh(r.server)
    ensures fresh(conn) && fresh(conn.channel) && fresh(conn.inputBuffer) && fresh(conn.inputBuffer.data) && fresh(conn.outputBuffer) && fresh(conn.outputBuffer.data)
    ensures r.Valid() && r.sys == At(Polling, [], NoTurn) && r.objects == map[1 := conn]
  {
    hide *;
    ReactorWitness.Accepted();
    Iterated();
    r := new Reactor(false);
    Does(BOOT, PollReturns([]), BOOT.(phase := Dispatching));
    r.Poll([]);
    Does(BOOT.(phase := Dispatching), Event.Accept(5, 1, false, false), At(Dispatching, [], NoTurn));
    ghost var objects := r.objects;
    conn := r.Accept(5, 1, false);
    First(objects, conn);
    Does(At(Dispatching, [], NoTurn), EndDispatch, At(Functors, [], NoTurn));
    r.EndDispatch();
    Does(At(Functors, [], NoTurn), EndFunctors, At(Polling, [], NoTurn));
    r.EndFunctors();
  }

  lemma First(objects: Objects, conn: TcpConnection)
    requires objects == map[] && conn.id == BOOT.(phase := Dispatching).nextId
    ensures objects[conn.id := conn] == map[1 := conn]
  {
  }

  /** The second iteration: the peer has closed, and the connection gets its turn. */
  method Called(r: Reactor, conn: TcpConnection)
    requires r.Valid() && r.sys == At(Polling, [], NoTurn) && r.objects == map[1 := conn]
    modifies r`sys, r`active, r`handling, r`part, r.loop, r.poller`events, r.poller.events, conn.channel`revents
    ensures fresh(r.poller.events) || r.poller.events == old(r.poller.events)
    ensures r.Valid() && r.sys == At(Dispatching, [], Turn(1, {IN}, ClosePart))
  {
    hide *;
    Iterated();
    Alone(r, conn);
    Does(At(Polling, [], NoTurn), PollReturns([(5, {IN})]), At(Dispatching, [ReactorSpec.Ready.Ready(1, {IN})], NoTurn));
    r.Poll([(5, {IN})]);
    Does(At(Dispatching, [ReactorSpec.Ready.Ready(1, {IN})], NoTurn), NextChannel, At(Dispatching, [], Turn(1, {IN}, ClosePart)));
    r.NextChannel();
  }

  /** One test of handleEventWithGuard, finding nothing but the end of file. */
  method TestOnce(r: Reactor, conn: TcpConnection, ghost t: Sys)
    requires r.Valid() && r.objects == map[1 := conn] && r.handling == conn && r.closing == null
    requires r.ActFits(r.sys, conn, Test(r.part, Arrived([]), Wrote(0))) && Goes(r.sys, EOF, t)
    modifies r`sys, r`handling, r`part, r`closing
    modifies r.loop, r.poller, conn, conn.channel, conn.inputBuffer, conn.inputBuffer.data, conn.outputBuffer, conn.outputBuffer.data
    ensures fresh(conn.inputBuffer.data) || conn.inputBuffer.data == old(conn.inputBuffer.data)
    ensures fresh(conn.outputBuffer.data) || conn.outputBuffer.data == old(conn.outputBuffer.data)
    ensures r.Valid() && r.sys == t && r.poller.events == old(r.poller.events)
  {
    hide *;
    Alone(r, conn);
    Tests(r.sys, t);
    var died := r.Handle(Arrived([]), Wrote(0));
  }

  /** Its handleEvent call: end of file, and the server forgets the connection. */
  method Closed(r: Reactor, conn: TcpConnection)
    requires r.Valid() && r.sys == At(Dispatching, [], Turn(1, {IN}, ClosePart)) && r.objects == map[1 := conn]
    modifies r`sys, r`handling, r`part, r`closing, r.loop, r.poller, r.server
    modifies conn, conn.channel, conn.inputBuffer, conn.inputBuffer.data, conn.outputBuffer, conn.outputBuffer.data
    ensures fresh(conn.inputBuffer.data) || conn.inputBuffer.data == old(conn.inputBuffer.data)
    ensures fresh(conn.outputBuffer.data) || conn.outputBuffer.data == old(conn.outputBuffer.data)
    ensures r.Valid() && r.sys == LEFT.(turn := NoTurn)
  {
    hide *;
    Handled();
    ReactorWitness.Left();
    Turns(r, conn, ClosePart);
    TestOnce(r, conn, At(Dispatching, [], Turn(1, {IN}, ErrorPart)));
    Turns(r, conn, ErrorPart);
    TestOnce(r, conn, At(Dispatching, [], Turn(1, {IN}, ReadPart)));
    Turns(r, conn, ReadPart);
    TestOnce(r, conn, LEAVING);
    Closes(r);
    Does(LEAVING, CloseCallback, LEFT);
    r.CloseCallback();
    LastTest(r, conn);
    TestOnce(r, conn, LEFT.(turn := NoTurn));
  }

  /** The functor phase destroys it, and nobody holds it any more. */
  method Left(r: Reactor, conn: TcpConnection)
    requires r.Valid() && r.sys == LEFT.(turn := NoTurn) && r.objects == map[1 := conn]
    modifies r`sys, r`functors, r`closing, r`objects, r`owner, r.loop, r.poller
    modifies conn, conn.channel, conn.inputBuffer, conn.inputBuffer.data, conn.outputBuffer, conn.outputBuffer.data
    ensures r.Valid() && r.sys == END && r.objects == map[]
  {
    hide *;
    ReactorWitness.Left();
    Ended();
    Doomed();
    Alone(r, conn);
    Does(LEFT.(turn := NoTurn), EndDispatch, DOOMED);
    r.EndDispatch();
    Does(DOOMED, RunTask, GONE);
    OneFunctor(r, conn);
    r.RunTask(r.functors[0]);
    Does(GONE, EndFunctors, GONE.(phase := Polling));
    r.EndFunctors();
    Does(GONE.(phase := Polling), Release(1), END);
    r.Release(conn);
  }

  lemma Doomed()
    ensures DOOMED == LEFT.(turn := NoTurn, phase := Functors, batch := [Task(1, Destroy)], pending := [])
    ensures END == GONE.(phase := Polling, conns := map[], poller := EMPTY)
  {
  }

  /** The reactor's only connection. */
  lemma Alone(r: Reactor, conn: TcpConnection)
    requires r.Valid() && r.objects == map[1 := conn]
    ensures r.poller.chans.Keys == {conn.channel} && conn.channel.poller == r.poller && conn.loop == r.loop && conn.id == 1
    ensures r.poller.events.Length > 0 && |[(5, {IN})]| == 1 && r.Holds(conn)
  {
    hide ReactorRuns.Reachable, Reactor.Placed, Reactor.Alive, Reactor.ArraysApart, LoopRuns.Inv, Consistent, Bound;
    NameOfOne(conn);
  }

  lemma NameOfOne(conn: TcpConnection)
    ensures Names(map[1 := conn]) == map[1 := conn.channel] && Names(map[1 := conn]).Values == {conn.channel}
  {
    assert map[1 := conn.channel][1] == conn.channel;
  }

  /** Its channel has the turn. */
  lemma Turns(r: Reactor, conn: TcpConnection, part: Part)
    requires r.Valid() && r.objects == map[1 := conn] && r.sys == At(Dispatching, [], Turn(1, {IN}, part))
    ensures r.handling == conn && r.part == part && r.closing == null
    ensures r.ActFits(r.sys, conn, Test(part, Arrived([]), Wrote(0)))
  {
    hide ReactorRuns.Reachable, Reactor.Settled, Reactor.Alive, Reactor.ArraysApart, Reactor.Hooked, Bound;
  }

  lemma Closes(r: Reactor)
    requires r.Valid() && r.sys == LEAVING
    ensures r.closing != null
  {
    hide ReactorRuns.Reachable, Reactor.Settled, Reactor.Alive, Reactor.ArraysApart, Reactor.Hooked, Bound;
  }

  /** The test for output is still to come. */
  lemma LastTest(r: Reactor, conn: TcpConnection)
    requires r.Valid() && r.objects == map[1 := conn] && r.sys == LEFT
    ensures r.handling == conn && r.part == WritePart && r.closing == null
    ensures r.ActFits(r.sys, conn, Test(WritePart, Arrived([]), Wrote(0)))
  {
    hide ReactorRuns.Reachable, Reactor.Settled, Reactor.Alive, Reactor.ArraysApart, Reactor.Hooked, Bound;
  }

  lemma OneFunctor(r: Reactor, conn: TcpConnection)
    requires r.Valid() && r.objects == map[1 := conn] && r.sys == DOOMED
    ensures |r.functors| == 1 && r.functors[0] == Functor(conn, Destroy)
  {
    hide ReactorRuns.Reachable, Reactor.Settled, Reactor.Alive, Reactor.ArraysApart, Reactor.Hooked;
  }
}
