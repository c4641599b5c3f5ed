/**
 One loop thread at work: EventLoop::loop over the EPollPoller, the TcpServer and
 its connections, with every callback interleaved as the source allows.  Each
 method does one event of ReactorSpec, so whatever holds of all its runs holds
 of these objects.
 */
module Reactors {
  import opened Kernel
  import opened PollerSpec
  import opened PollerLinks
  import opened ConnectionSpec
  import opened ChannelSpec
  import opened ReactorSpec
  import opened ReactorInvariant
  import opened ReactorSteps
  import opened ReactorRuns
  import ReactorAccounts
  import ReactorFunctors
  import LoopSpec
  import LoopRuns
  import opened Pollers
  import opened Buffers
  import opened EventLoops
  import opened TcpConnections
  import opened TcpServers

  type Objects = map<ConnId, TcpConnection>

  function Names(objects: Objects): map<ConnId, Channel> {
    map id | id in objects :: objects[id].channel
  }

  /** Functors over live connections, and the same as tasks. */
  ghost predicate Bound(objects: Objects, fs: seq<Functor>, ts: seq<Task>) {
    && |fs| == |ts|
    && forall i :: 0 <= i < |fs| ==>
         fs[i].conn.id in objects && objects[fs[i].conn.id] == fs[i].conn && ts[i] == Task(fs[i].conn.id, fs[i].kind)
  }

  /** Each channel's callbacks are bound to its connection. */
  ghost predicate Owned(objects: Objects, owner: map<Channel, TcpConnection>) {
    && owner.Keys == Names(objects).Values
    && (forall id :: id in objects ==> objects[id].channel in owner && owner[objects[id].channel] == objects[id])
  }

  /** connections_ and nextConnId_. */
  ghost predicate Files(connections: Objects, nextConnId: nat, objects: Objects, s: Sys) {
    && nextConnId == s.nextId && connections.Keys == s.server
    && (forall id :: id in connections ==> id in objects && connections[id] == objects[id])
  }

  /** Every connection is filed under its number, hangs on this loop, and shares nothing with another. */
  ghost predicate Wired(objects: Objects, loop: EventLoop<Functor>, poller: EPollPoller) {
    && (forall id :: id in objects ==> objects[id].id == id && objects[id].loop == loop && objects[id].channel.poller == poller)
    && (forall i, j :: i in objects && j in objects && i != j ==>
          && objects[i].channel != objects[j].channel
          && {objects[i].inputBuffer, objects[i].outputBuffer} !! {objects[j].inputBuffer, objects[j].outputBuffer})
  }

  ghost predicate Apart(arrays: map<ConnId, (array<Byte>, array<Byte>)>) {
    forall i, j :: i in arrays && j in arrays && i != j ==> {arrays[i].0, arrays[i].1} !! {arrays[j].0, arrays[j].1}
  }

  /** None of the other connections' arrays belongs to `conn`. */
  ghost predicate Clear(arrays: map<ConnId, (array<Byte>, array<Byte>)>, conn: TcpConnection)
    reads conn.inputBuffer`data, conn.outputBuffer`data
  {
    forall id :: id in arrays && id != conn.id ==>
      && arrays[id].0 != conn.inputBuffer.data && arrays[id].0 != conn.outputBuffer.data
      && arrays[id].1 != conn.inputBuffer.data && arrays[id].1 != conn.outputBuffer.data
  }

  /** `conn` shares no channel or buffer with any of the connections. */
  ghost predicate Newcomer(objects: Objects, conn: TcpConnection) {
    forall id :: id in objects ==>
      && objects[id].channel != conn.channel
      && objects[id].inputBuffer != conn.inputBuffer && objects[id].inputBuffer != conn.outputBuffer
      && objects[id].outputBuffer != conn.inputBuffer && objects[id].outputBuffer != conn.outputBuffer
  }

  lemma ClearApart(arrays: map<ConnId, (array<Byte>, array<Byte>)>, conn: TcpConnection)
    requires Apart(arrays) && Clear(arrays, conn)
    ensures Apart(arrays[conn.id := (conn.inputBuffer.data, conn.outputBuffer.data)])
  {
  }

  // ----- handlers of a connection -----

  /** What callbacks, events and functors make a connection do. */
  datatype Act =
    | Sending(data: Bytes, w: WriteResult)
    | ShuttingDown
    | ForceClosing
    | Retrieving(n: nat)
    | ForceClosingInLoop
    | Test(part: Part, r: ReadResult, w: WriteResult)   // one test of handleEventWithGuard

  predicate Fits(c: Conn, act: Act) {
    match act
    case Sending(data, w) => w.Wrote? ==> w.n <= |data|
    case Test(part, r, w) => part.WritePart? && w.Wrote? ==> w.n <= |c.out|
    case _ => true
  }

  /** The kernel writes no more than it is given, and reads no more than there is room for. */
  ghost predicate CanRun(conn: TcpConnection, act: Act)
    reads conn, conn.channel, conn.channel.poller, conn.channel.poller.chans.Keys, conn.loop
    reads conn.inputBuffer, conn.inputBuffer.data, conn.outputBuffer, conn.outputBuffer.data
    requires conn.Shaped()
  {
    Fits(conn.View(), act) && (act.Test? && act.part.ReadPart? && act.r.Arrived? ==> |act.r.data| <= conn.inputBuffer.ReadRoom())
  }

  function EffectOf(c: Conn, revents: Mask, act: Act): Effect
    requires Fits(c, act)
  {
    match act
    case Sending(data, w) => ConnectionSpec.Send(c, data, w)
    case ShuttingDown => ConnectionSpec.Shutdown(c)
    case ForceClosing => ConnectionSpec.ForceClosing(c)
    case Retrieving(n) => TakeInput(c, n)
    case ForceClosingInLoop => ConnectionSpec.ForceCloseInLoop(c)
    case Test(part, r, w) => ChannelSpec.RunPart(c, revents, part, r, w)
  }

  lemma EffectIs(c: Conn, revents: Mask, act: Act)
    requires Fits(c, act)
    ensures var e := EffectOf(c, revents, act);
            && (act.Sending? ==> e == ConnectionSpec.Send(c, act.data, act.w) && e.closed == 0)
            && (act.ShuttingDown? ==> e == ConnectionSpec.Shutdown(c) && e.closed == 0 && !e.aborted)
            && (act.ForceClosing? ==> e == ConnectionSpec.ForceClosing(c) && e.closed == 0 && !e.aborted)
            && (act.Retrieving? ==> e == TakeInput(c, act.n) && e.closed == 0 && !e.aborted)
            && (act.ForceClosingInLoop? ==> e == ConnectionSpec.ForceCloseInLoop(c) && !e.aborted)
            && (act.Test? ==> e == ChannelSpec.RunPart(c, revents, act.part, act.r, act.w))
            && e.closed <= 1
            && (act.Test? ==> (act.part.WritePart? && act.w.Wrote? ==> act.w.n <= |c.out|))
  {
    match act
    case Sending(data, w) => SendQuiet(c, data, w); hide ConnectionSpec.Send;
    case Test(part, r, w) => TestQuiet(c, revents, part, r, w); hide ChannelSpec.RunPart;
    case _ =>
  }

  lemma SendQuiet(c: Conn, data: Bytes, w: WriteResult)
    requires w.Wrote? ==> w.n <= |data|
    ensures ConnectionSpec.Send(c, data, w).closed == 0
  {
  }

  lemma TestQuiet(c: Conn, revents: Mask, part: Part, r: ReadResult, w: WriteResult)
    requires part.WritePart? && w.Wrote? ==> w.n <= |c.out|
    ensures ChannelSpec.RunPart(c, revents, part, r, w).closed <= 1
  {
    if part.WritePart? { WriteIsQuiet(c, w); }
    hide ConnectionSpec.HandleWrite;
  }

  lemma TestedFacts(h: Host, conn: TcpConnection, e: Effect, t: Host, aborted: bool, closes: nat)
    requires Tested(h, conn, e, t, aborted, closes)
    ensures aborted == e.aborted && (!aborted ==> Took(h, conn, e, t) && closes == e.closed)
  {
  }

  /** Run the handler; `closed` when it ends in the close callback. */
  method Call(conn: TcpConnection, act: Act) returns (aborted: bool, closed: bool)
    requires conn.Valid() && CanRun(conn, act)
    modifies conn, conn.inputBuffer, conn.inputBuffer.data, conn.outputBuffer, conn.outputBuffer.data
    modifies conn.loop, conn.channel`events, conn.channel`index, conn.channel.poller`channels, conn.channel.poller`kernel, conn.channel.poller`chans
    ensures aborted == EffectOf(old(conn.View()), conn.channel.revents, act).aborted
    ensures !aborted ==> conn.Shaped() && Took(old(conn.Snapshot()), conn, EffectOf(old(conn.View()), conn.channel.revents, act), conn.Snapshot())
    ensures !aborted ==> closed == (EffectOf(old(conn.View()), conn.channel.revents, act).closed > 0)
    ensures !aborted ==> fresh(conn.inputBuffer.data) || conn.inputBuffer.data == old(conn.inputBuffer.data)
    ensures !aborted ==> fresh(conn.outputBuffer.data) || conn.outputBuffer.data == old(conn.outputBuffer.data)
  {
    ghost var h, e := conn.Snapshot(), EffectOf(conn.View(), conn.channel.revents, act);
    EffectIs(conn.View(), conn.channel.revents, act);
    ConnParts(conn);
    aborted, closed := false, false;
    hide *;
    match act {
      case Sending(data, w) =>
        aborted := conn.Send(data, w);
        if !aborted { ConnParts(conn); }
      case ShuttingDown =>
        conn.Shutdown();
        ConnParts(conn);
      case ForceClosing =>
        conn.ForceClose();
        ConnParts(conn);
      case Retrieving(n) =>
        conn.RetrieveInput(n);
        ConnParts(conn);
      case ForceClosingInLoop =>
        closed := conn.ForceCloseInLoop();
        ConnParts(conn);
      case Test(part, r, w) =>
        aborted, closed := CallTest(conn, part, r, w);
    }
  }

  lemma ConnParts(conn: TcpConnection)
    requires conn.Valid()
    ensures conn.Shaped()
  {
    hide TcpConnection.Shaped;
  }

  method CallTest(conn: TcpConnection, part: Part, r: ReadResult, w: WriteResult) returns (aborted: bool, closed: bool)
    requires conn.Shaped() && (part.WritePart? && w.Wrote? ==> w.n <= |conn.View().out|) && (part.ReadPart? && r.Arrived? ==> |r.data| <= conn.inputBuffer.ReadRoom())
    modifies conn, conn.inputBuffer, conn.inputBuffer.data, conn.outputBuffer, conn.outputBuffer.data
    modifies conn.loop, conn.channel`events, conn.channel`index, conn.channel.poller`channels, conn.channel.poller`kernel, conn.channel.poller`chans
    ensures aborted == ChannelSpec.RunPart(old(conn.View()), conn.channel.revents, part, r, w).aborted
    ensures !aborted ==> conn.Shaped() && Took(old(conn.Snapshot()), conn, ChannelSpec.RunPart(old(conn.View()), conn.channel.revents, part, r, w), conn.Snapshot())
    ensures !aborted ==> closed == (ChannelSpec.RunPart(old(conn.View()), conn.channel.revents, part, r, w).closed > 0)
    ensures fresh(conn.inputBuffer.data) || conn.inputBuffer.data == old(conn.inputBuffer.data)
    ensures fresh(conn.outputBuffer.data) || conn.outputBuffer.data == old(conn.outputBuffer.data)
  {
    ghost var h, e := conn.Snapshot(), ChannelSpec.RunPart(conn.View(), conn.channel.revents, part, r, w);
    TestIs(conn.View(), conn.channel.revents, part, r, w);
    aborted, closed := false, false;
    hide *;
    match part {
      case ClosePart => closed := conn.CloseTest();
      case ErrorPart => aborted := conn.ErrorTest();
      case ReadPart => aborted, closed := conn.ReadTest(r);
      case WritePart => conn.WriteTest(w);
    }
    TestedFacts(h, conn, e, conn.Snapshot(), aborted, if closed then 1 else 0);
  }

  lemma TestIs(c: Conn, revents: Mask, part: Part, r: ReadResult, w: WriteResult)
    requires part.WritePart? && w.Wrote? ==> w.n <= |c.out|
    ensures var e := ChannelSpec.RunPart(c, revents, part, r, w);
            && (part.ClosePart? || part.ErrorPart? ==> e == PartEffect(c, revents, part))
            && (part.ReadPart? ==> e == ReadEffect(c, revents, r))
            && (part.WritePart? ==> e == WriteEffect(c, revents, w))
  {
  }

  /** The same, for a connection whose arrays are its own. */
  method CallClear(conn: TcpConnection, act: Act, ghost arrays: map<ConnId, (array<Byte>, array<Byte>)>) returns (aborted: bool, closed: bool)
    requires conn.Valid() && CanRun(conn, act) && Clear(arrays, conn)
    modifies conn, conn.inputBuffer, conn.inputBuffer.data, conn.outputBuffer, conn.outputBuffer.data
    modifies conn.loop, conn.channel`events, conn.channel`index, conn.channel.poller`channels, conn.channel.poller`kernel, conn.channel.poller`chans
    ensures aborted == EffectOf(old(conn.View()), conn.channel.revents, act).aborted
    ensures !aborted ==> conn.Shaped() && Took(old(conn.Snapshot()), conn, EffectOf(old(conn.View()), conn.channel.revents, act), conn.Snapshot())
    ensures !aborted ==> closed == (EffectOf(old(conn.View()), conn.channel.revents, act).closed > 0)
    ensures !aborted ==> fresh(conn.inputBuffer.data) || conn.inputBuffer.data == old(conn.inputBuffer.data)
    ensures !aborted ==> fresh(conn.outputBuffer.data) || conn.outputBuffer.data == old(conn.outputBuffer.data)
    ensures !aborted ==> Clear(arrays, conn)
  {
    hide EffectOf, Fits, Took;
    hide TcpConnection.Valid, TcpConnection.Shaped, TcpConnection.View, TcpConnection.Snapshot;
    aborted, closed := Call(conn, act);
  }

  /** The connections but some of them are those of `s`. */
  ghost predicate AllAlive(objects: Objects, s: Sys, but: set<ConnId>)
    reads objects.Values, (set id | id in objects :: objects[id].channel)`events
    reads (set id | id in objects :: objects[id].inputBuffer), (set id | id in objects :: objects[id].outputBuffer)
    reads (set id | id in objects :: objects[id].inputBuffer.data), (set id | id in objects :: objects[id].outputBuffer.data)
  {
    forall id :: id in objects && id !in but ==> id in s.conns && objects[id].Plumbed() && objects[id].Value() == s.conns[id]
  }

  ghost function ArraysIn(objects: Objects): map<ConnId, (array<Byte>, array<Byte>)>
    reads (set id | id in objects :: objects[id].inputBuffer)`data, (set id | id in objects :: objects[id].outputBuffer)`data
  {
    map id | id in objects :: (objects[id].inputBuffer.data, objects[id].outputBuffer.data)
  }

  ghost predicate Listed(objects: Objects, channels: seq<Channel>, entries: seq<Ready>)
    reads (set id | id in objects :: objects[id].channel)`revents
  {
    && |channels| == |entries|
    && (forall i :: 0 <= i < |channels| ==>
          entries[i].id in objects && channels[i] == objects[entries[i].id].channel && channels[i].revents == entries[i].revents)
  }

  class Reactor {
    const loop: EventLoop<Functor>
    const poller: EPollPoller
    const server: TcpServer
    var objects: Objects                     // connections some shared_ptr still holds
    var owner: map<Channel, TcpConnection>   // whose handlers a channel's callbacks are bound to
    var active: seq<Channel>                 // what is left of activeChannels_
    var functors: seq<Functor>               // what is left of `functors` in doPendingFunctors
    var handling: TcpConnection?             // the guard in handleEvent
    var part: Part                           // the test it is at
    var closing: TcpConnection?              // connPtr in handleClose
    ghost var sys: Sys

    /** The connections but some of them are those of `s`. */
    ghost predicate Alive(s: Sys, but: set<ConnId>)
      reads this`objects, objects.Values, (set id | id in objects :: objects[id].channel)`events, (set id | id in objects :: objects[id].inputBuffer), (set id | id in objects :: objects[id].outputBuffer)
      reads (set id | id in objects :: objects[id].inputBuffer.data), (set id | id in objects :: objects[id].outputBuffer.data)
    {
      AllAlive(objects, s, but)
    }

    /** The byte arrays of each connection. */
    ghost function ArraysOf(): map<ConnId, (array<Byte>, array<Byte>)>
      reads this`objects, (set id | id in objects :: objects[id].inputBuffer)`data, (set id | id in objects :: objects[id].outputBuffer)`data
    {
      ArraysIn(objects)
    }

    ghost predicate ArraysApart()
      reads this`objects, (set id | id in objects :: objects[id].inputBuffer)`data, (set id | id in objects :: objects[id].outputBuffer)`data
    {
      Apart(ArraysOf())
    }

    /** The objects hang together, and the server's map is that of `s`. */
    ghost predicate Settled(s: Sys)
      reads this`objects, this`owner, server`connections, server`nextConnId
    {
      ObjectsAre(s) && Files(server.connections, server.nextConnId, objects, s)
    }

    ghost predicate ObjectsAre(s: Sys)
      reads this`objects, this`owner
    {
      && Wired(objects, loop, poller) && objects.Keys == s.conns.Keys && server.loop == loop && server.poller == poller
      && Owned(objects, owner)
    }

    ghost predicate ActiveIs(s: Sys)
      reads this`objects, this`active, (set id | id in objects :: objects[id].channel)`revents
    {
      ListIs(active, s.active)
    }

    ghost predicate ListIs(channels: seq<Channel>, entries: seq<Ready>)
      reads this`objects, (set id | id in objects :: objects[id].channel)`revents
    {
      Listed(objects, channels, entries)
    }

    ghost predicate TurnIs(s: Sys)
      reads this`objects, this`handling, this`part, (set id | id in objects :: objects[id].channel)`revents
    {
      if handling == null then s.turn == NoTurn
      else Holds(handling) && s.turn == ReactorSpec.Turn(handling.id, handling.channel.revents, part)
    }

    ghost predicate BatchIs(s: Sys)
      reads this`objects, this`functors
    {
      Bound(objects, functors, s.batch)
    }

    /** Where the loop is in its lists. */
    ghost predicate Placed(s: Sys)
      reads this`objects, this`active, this`handling, this`part, this`functors, this`closing
      reads (set id | id in objects :: objects[id].channel)`revents
    {
      ActiveIs(s) && TurnIs(s) && BatchIs(s) && ClosingIs(s)
    }

    ghost predicate Holds(conn: TcpConnection)
      reads this`objects
    {
      conn.id in objects && objects[conn.id] == conn
    }

    ghost predicate ClosingIs(s: Sys)
      reads this`objects, this`closing
    {
      if closing == null then s.closing == NoClosing else Holds(closing) && s.closing == ReactorSpec.Closing(closing.id)
    }

    function StageOf(phase: Phase): LoopSpec.Stage {
      match phase case Polling => LoopSpec.Polling case Dispatching => LoopSpec.Dispatching case Functors => LoopSpec.Functors
    }

    /** Poller and functor queue are those of `s`. */
    ghost predicate Hooked(s: Sys)
      reads this`objects, this`functors, loop, poller, poller.chans.Keys
    {
      && loop.Valid() && poller.Valid() && loop.stage == StageOf(s.phase) && loop.batch == functors && !loop.reported
      && Linked(poller.View(), s.poller, Names(objects)) && Bound(objects, loop.pendingFunctors, s.pending)
    }

    ghost predicate Valid()
      reads this, server, loop, poller, poller.chans.Keys, objects.Values, (set id | id in objects :: objects[id].channel), (set id | id in objects :: objects[id].inputBuffer), (set id | id in objects :: objects[id].outputBuffer)
      reads (set id | id in objects :: objects[id].inputBuffer.data), (set id | id in objects :: objects[id].outputBuffer.data)
    {
      Reachable(sys) && Settled(sys) && Placed(sys) && Alive(sys, {}) && ArraysApart() && Hooked(sys)
    }

    constructor (wantsComplete: bool)
      ensures Valid() && sys == BOOT && server.wantsComplete == wantsComplete
      ensures fresh(loop) && fresh(poller) && fresh(poller.events) && fresh(server)
      ensures poller.chans == map[] && objects == map[] && poller.events.Length == INIT_EVENT_LIST_SIZE
    {
      var theLoop := new EventLoop<Functor>();
      theLoop.Start();
      var thePoller := new EPollPoller();
      loop, poller := theLoop, thePoller;
      server := new TcpServer(theLoop, thePoller, wantsComplete);
      objects, owner, active, functors, handling, part, closing := map[], map[], [], [], null, ClosePart, null;
      sys := BOOT;
      new;
      hide *;
      EmptyLoop(theLoop);
      EmptyPoller(thePoller);
      Empty();
    }

    lemma EmptyLoop(l: EventLoop<Functor>)
      requires l.View() == LoopSpec.Entry([])
      ensures l.pendingFunctors == [] && l.batch == [] && !l.reported && l.stage == LoopSpec.Polling
    {
    }

    lemma EmptyPoller(p: EPollPoller)
      requires p.View() == Poller(map[], map[], map[])
      ensures p.View() == Poller(map[], map[], map[]) && p.chans == map[]
    {
    }

    lemma Empty()
      requires sys == BOOT && objects == map[] && owner == map[] && active == [] && functors == [] && handling == null && closing == null
      requires server.loop == loop && server.poller == poller && server.connections == map[] && server.nextConnId == 1
      requires loop.Valid() && poller.Valid() && poller.View() == Poller(map[], map[], map[])
      requires loop.pendingFunctors == [] && loop.batch == [] && !loop.reported && loop.stage == LoopSpec.Polling
      ensures Valid()
    {
      BootReachable();
      hide Reachable, LoopRuns.Inv, Consistent;
    }

    /** The pieces of Valid(). */
    lemma Pieces()
      requires Valid()
      ensures Reachable(sys) && SysInv(sys) && Settled(sys) && Placed(sys) && Alive(sys, {}) && ArraysApart() && Hooked(sys)
    {
      hide SysInv, Reachable, Settled, Placed, Alive, ArraysApart, Hooked;
      ReachableInv(sys);
    }

    /** The step from `s` is complete. */
    lemma Together(s: Sys, ev: Event)
      requires Reachable(s) && Enabled(s, ev) && Step(s, ev) == Next(sys)
      requires Settled(sys) && Placed(sys) && Alive(sys, {}) && ArraysApart() && Hooked(sys)
      ensures Valid()
    {
      hide SysInv, Reachable, Enabled, Step, Settled, Placed, Alive, ArraysApart, Hooked;
      ReachableStep(s, ev, sys);
    }

    /** A connection's place in the wiring. */
    lemma Owns(conn: TcpConnection)
      requires Settled(sys) && Hooked(sys) && Holds(conn)
      ensures conn.loop == loop && conn.channel.poller == poller && conn.channel in poller.chans && conn.id in sys.conns
      ensures loop.Valid() && poller.Valid() && loop.stage == StageOf(sys.phase)
    {
      assert Names(objects)[conn.id] == conn.channel;
      assert conn.channel in Names(objects).Values;
    }

    /** What one of the connections can count on when a callback or handler runs. */
    lemma ConnReady(conn: TcpConnection)
      requires Valid() && Holds(conn) && InCallbacks(sys)
      ensures conn.Valid() && conn.Shaped() && conn.View() == sys.conns[conn.id] && conn.loop == loop && conn.channel.poller == poller && conn.id in sys.conns
      ensures conn.Snapshot() == Host(sys.conns[conn.id], loop.pendingFunctors, poller.View(), loop.stage, loop.batch, loop.reported)
    {
      hide SysInv, Reachable, Settled, Placed, Alive, ArraysApart, Hooked, ConnInv, Life, Consistent, LoopRuns.Inv;
      Pieces();
      Owns(conn);
      ConnFacts(sys, conn.id);
      IsAlive(conn);
    }

    lemma IsAlive(conn: TcpConnection)
      requires Alive(sys, {}) && Holds(conn)
      ensures conn.Plumbed() && conn.Value() == sys.conns[conn.id]
    {
    }

    /** Another connection shares nothing with `conn`. */
    lemma Strangers(conn: TcpConnection)
      requires Settled(sys) && ArraysApart() && Holds(conn)
      ensures forall id :: id in objects && id != conn.id ==>
                && objects[id] != conn && objects[id].channel != conn.channel
                && objects[id].inputBuffer != conn.inputBuffer && objects[id].inputBuffer != conn.outputBuffer
                && objects[id].outputBuffer != conn.inputBuffer && objects[id].outputBuffer != conn.outputBuffer
                && objects[id].inputBuffer.data != conn.inputBuffer.data && objects[id].inputBuffer.data != conn.outputBuffer.data
                && objects[id].outputBuffer.data != conn.inputBuffer.data && objects[id].outputBuffer.data != conn.outputBuffer.data
    {
      hide Bound;
    }

    // ----- what a handler leaves alone -----

    /** The queue and the poller of `s` as the handlers see them. */
    ghost predicate HostOf(s: Sys, conn: TcpConnection, h: Host)
      reads this`objects, this`functors
    {
      && h.stage == StageOf(s.phase) && h.batch == functors && !h.reported && conn.id in s.conns && h.conn == s.conns[conn.id]
      && Linked(h.poller, s.poller, Names(objects)) && Bound(objects, h.pending, s.pending)
    }

    lemma HostReady(conn: TcpConnection)
      requires Valid() && Holds(conn) && InCallbacks(sys)
      ensures conn.Shaped() && HostOf(sys, conn, conn.Snapshot())
    {
      hide SysInv, Settled, Placed, Alive, ArraysApart, Linked, Bound, LoopRuns.Inv, Consistent, ConnInv;
      Pieces();
      ConnReady(conn);
    }

    // ----- one handler each -----

    /** A connection that is as recorded. */
    ghost predicate Kept(o: TcpConnection, c: Conn, arrays: (array<Byte>, array<Byte>))
      reads o, o.channel`events, o.inputBuffer, o.inputBuffer.data, o.outputBuffer, o.outputBuffer.data
    {
      o.Plumbed() && o.Value() == c && o.inputBuffer.data == arrays.0 && o.outputBuffer.data == arrays.1
    }

    /** All connections but one are. */
    ghost predicate OthersKept(s: Sys, arrays: map<ConnId, (array<Byte>, array<Byte>)>, but: ConnId)
      reads this`objects, objects.Values, (set id | id in objects :: objects[id].channel)`events, (set id | id in objects :: objects[id].inputBuffer), (set id | id in objects :: objects[id].outputBuffer)
      reads (set id | id in objects :: objects[id].inputBuffer.data), (set id | id in objects :: objects[id].outputBuffer.data)
    {
      arrays.Keys == objects.Keys == s.conns.Keys &&
      forall id :: id in objects && id != but ==> Kept(objects[id], s.conns[id], arrays[id])
    }

    lemma KeptNow(conn: TcpConnection)
      requires Settled(sys) && Alive(sys, {})
      ensures OthersKept(sys, ArraysOf(), conn.id)
    {
      hide Bound, Wired, TcpConnection.Value, TcpConnection.Plumbed;
    }

    /** The same, for one connection among the others. */
    method CallApart(conn: TcpConnection, act: Act) returns (aborted: bool, closed: bool)
      requires Settled(sys) && ArraysApart() && Alive(sys, {}) && Holds(conn) && conn.loop == loop && conn.channel.poller == poller
      requires conn.Valid() && CanRun(conn, act) && Clear(ArraysOf(), conn)
      modifies conn, conn.inputBuffer, conn.inputBuffer.data, conn.outputBuffer, conn.outputBuffer.data
      modifies conn.loop, conn.channel`events, conn.channel`index, conn.channel.poller`channels, conn.channel.poller`kernel, conn.channel.poller`chans
      ensures aborted == EffectOf(old(conn.View()), conn.channel.revents, act).aborted
      ensures !aborted ==> conn.Shaped() && Took(old(conn.Snapshot()), conn, EffectOf(old(conn.View()), conn.channel.revents, act), conn.Snapshot())
      ensures !aborted ==> closed == (EffectOf(old(conn.View()), conn.channel.revents, act).closed > 0)
      ensures OthersKept(sys, old(ArraysOf()), conn.id)
      ensures !aborted ==> Clear(old(ArraysOf()), conn)
      ensures !aborted ==> fresh(conn.inputBuffer.data) || conn.inputBuffer.data == old(conn.inputBuffer.data)
      ensures !aborted ==> fresh(conn.outputBuffer.data) || conn.outputBuffer.data == old(conn.outputBuffer.data)
    {
      hide Settled, Alive, ArraysOf, Kept, Clear, Apart, ArraysApart, ConnInv, Consistent, LoopRuns.Inv, Took, EffectOf, Fits, CanRun;
      hide TcpConnection.Valid, TcpConnection.Shaped, TcpConnection.View, TcpConnection.Snapshot, TcpConnection.Value, TcpConnection.Plumbed;
      Strangers(conn);
      KeptNow(conn);
      aborted, closed := CallClear(conn, act, ArraysOf());
    }

    // ----- taking an effect over -----

    lemma KeptApart(conn: TcpConnection, s: Sys, arrays: map<ConnId, (array<Byte>, array<Byte>)>)
      requires OthersKept(s, arrays, conn.id) && Apart(arrays) && Holds(conn)
      requires Clear(arrays, conn)
      ensures ArraysApart()
    {
      hide OthersKept, ArraysOf, Apart, Clear;
      ArraysAre(conn, s, arrays);
      ClearApart(arrays, conn);
    }

    lemma ArraysAre(conn: TcpConnection, s: Sys, arrays: map<ConnId, (array<Byte>, array<Byte>)>)
      requires OthersKept(s, arrays, conn.id) && Holds(conn)
      ensures ArraysOf() == arrays[conn.id := (conn.inputBuffer.data, conn.outputBuffer.data)]
    {
      hide TcpConnection.Value, TcpConnection.Plumbed;
      forall id | id in objects && id != conn.id ensures ArraysOf()[id] == arrays[id] { assert Kept(objects[id], s.conns[id], arrays[id]); }
    }

    lemma KeptAlive(conn: TcpConnection, s: Sys, t: Sys, arrays: map<ConnId, (array<Byte>, array<Byte>)>)
      requires OthersKept(s, arrays, conn.id) && Holds(conn) && conn.Plumbed() && t.conns == s.conns[conn.id := conn.Value()]
      ensures Alive(t, {})
    {
      hide TcpConnection.Value, TcpConnection.Plumbed;
      forall id | id in objects ensures id in t.conns && objects[id].Plumbed() && objects[id].Value() == t.conns[id] {
        if id != conn.id { assert Kept(objects[id], s.conns[id], arrays[id]); }
      }
    }

    lemma SettledOn(s: Sys, t: Sys)
      requires Settled(s) && t.conns.Keys == s.conns.Keys && t.nextId == s.nextId && t.server == s.server
      ensures Settled(t)
    {
      hide Wired;
    }

    lemma HookedOn(conn: TcpConnection, t: Sys, u: Host)
      requires conn.Shaped() && conn.loop == loop && conn.channel.poller == poller && u == conn.Snapshot() && u.stage == StageOf(t.phase)
      requires u.batch == functors && !u.reported && Linked(u.poller, t.poller, Names(objects)) && Bound(objects, u.pending, t.pending)
      ensures Hooked(t)
    {
      hide Linked, Bound, LoopRuns.Inv, Consistent;
    }

    /** The handler of `conn` had the effect `e`; the machine takes it over. */
    ghost method TakeOver(conn: TcpConnection, e: Effect, h: Host, arrays: map<ConnId, (array<Byte>, array<Byte>)>)
      requires Settled(sys) && OthersKept(sys, arrays, conn.id) && Apart(arrays) && Holds(conn)
      requires Clear(arrays, conn)
      requires conn.Shaped() && conn.loop == loop && conn.channel.poller == poller
      requires HostOf(sys, conn, h) && Took(h, conn, e, conn.Snapshot()) && !e.aborted
      modifies this`sys
      ensures Apply(old(sys), conn.id, e) == Next(sys)
      ensures Settled(sys) && Alive(sys, {}) && ArraysApart() && Hooked(sys)
      ensures sys.closing == if e.closed > 0 then ReactorSpec.Closing(conn.id) else old(sys).closing
    {
      hide Settled, OthersKept, Apart, Alive, ArraysApart, Hooked, Linked, Bound, SysInv, Took, Apply, TcpConnection.Shaped;
      EffectOk(objects, sys, conn, e, h, conn.Snapshot());
      var s, u := sys, conn.Snapshot();
      TookKeeps(h, conn, e, u);
      KeptApart(conn, s, arrays);
      ShapedFacts(conn);
      sys := Apply(s, conn.id, e).s;
      KeptAlive(conn, s, sys, arrays);
      SettledOn(s, sys);
      HookedOn(conn, sys, u);
    }

    lemma ArraysFacts(conn: TcpConnection)
      requires ArraysApart() && Holds(conn)
      ensures Apart(ArraysOf()) && ArraysOf().Keys == objects.Keys
      ensures forall id :: id in objects ==> ArraysOf()[id] == (objects[id].inputBuffer.data, objects[id].outputBuffer.data)
      ensures Clear(ArraysOf(), conn)
    {
    }

    lemma ShapedFacts(conn: TcpConnection)
      requires conn.Shaped()
      ensures conn.Plumbed() && conn.Snapshot().conn == conn.Value()
    {
    }

    /** A handler runs, and the machine with it. */
    method Handled(conn: TcpConnection, act: Act) returns (aborted: bool, closed: bool)
      requires Valid() && Holds(conn) && InCallbacks(sys) && ActFits(sys, conn, act)
      modifies this`sys
      modifies conn, conn.inputBuffer, conn.inputBuffer.data, conn.outputBuffer, conn.outputBuffer.data
      modifies conn.loop, conn.channel`events, conn.channel`index, conn.channel.poller`channels, conn.channel.poller`kernel, conn.channel.poller`chans
      ensures aborted == EffectOf(old(sys).conns[conn.id], conn.channel.revents, act).aborted
      ensures !aborted ==> Apply(old(sys), conn.id, EffectOf(old(sys).conns[conn.id], conn.channel.revents, act)) == Next(sys)
      ensures !aborted ==> Settled(sys) && Alive(sys, {}) && ArraysApart() && Hooked(sys) && Placed(old(sys)) && Holds(conn)
      ensures !aborted ==> closed == (EffectOf(old(sys).conns[conn.id], conn.channel.revents, act).closed > 0)
      ensures !aborted ==> fresh(conn.inputBuffer.data) || conn.inputBuffer.data == old(conn.inputBuffer.data)
      ensures !aborted ==> fresh(conn.outputBuffer.data) || conn.outputBuffer.data == old(conn.outputBuffer.data)
    {
      hide *;
      Pieces();
      ConnReady(conn);
      HostReady(conn);
      ArraysFacts(conn);
      ActReady(conn, act);
      ghost var h, e, arrays := conn.Snapshot(), EffectOf(sys.conns[conn.id], conn.channel.revents, act), ArraysOf();
      aborted, closed := CallApart(conn, act);
      if !aborted {
        TakeOver(conn, e, h, arrays);
      }
    }

    ghost predicate ActFits(s: Sys, conn: TcpConnection, act: Act)
      reads conn.inputBuffer
    {
      conn.id in s.conns && Fits(s.conns[conn.id], act)
      && (act.Test? && act.part.ReadPart? && act.r.Arrived? && conn.inputBuffer.Valid() ==> |act.r.data| <= conn.inputBuffer.ReadRoom())
    }

    lemma ActReady(conn: TcpConnection, act: Act)
      requires conn.id in sys.conns && conn.Shaped() && conn.View() == sys.conns[conn.id] && ActFits(sys, conn, act)
      ensures Fits(sys.conns[conn.id], act) && CanRun(conn, act)
    {
    }

    lemma PlacedOn(s: Sys, t: Sys)
      requires Placed(s) && t.active == s.active && t.turn == s.turn && t.batch == s.batch && t.closing == s.closing
      ensures Placed(t)
    {
      hide Bound;
    }

    // ----- the events -----

    /** send, shutdown, forceClose or taking input, from a callback on the loop thread. */
    method UserCall(conn: TcpConnection, act: Act) returns (aborted: bool)
      requires Valid() && Holds(conn) && InCallbacks(sys) && ActFits(sys, conn, act) && ByUser(act)
      modifies this`sys
      modifies conn, conn.inputBuffer, conn.inputBuffer.data, conn.outputBuffer, conn.outputBuffer.data
      modifies conn.loop, conn.channel`events, conn.channel`index, conn.channel.poller`channels, conn.channel.poller`kernel, conn.channel.poller`chans
      ensures Enabled(old(sys), UserEvent(conn.id, act))
      ensures aborted ==> Step(old(sys), UserEvent(conn.id, act)) == Died(SocketError)
      ensures !aborted ==> Valid() && Step(old(sys), UserEvent(conn.id, act)) == Next(sys)
      ensures !aborted ==> fresh(conn.inputBuffer.data) || conn.inputBuffer.data == old(conn.inputBuffer.data)
      ensures !aborted ==> fresh(conn.outputBuffer.data) || conn.outputBuffer.data == old(conn.outputBuffer.data)
    {
      hide *;
      Pieces();
      ActIsFit(conn, act);
      ghost var s := sys;
      UserStep(s, conn.id, conn.channel.revents, act);
      var closed;
      aborted, closed := Handled(conn, act);
      if !aborted {
        PlacedOn(s, sys);
        Together(old(sys), UserEvent(conn.id, act));
      }
    }

    lemma ActIsFit(conn: TcpConnection, act: Act)
      requires ActFits(sys, conn, act)
      ensures conn.id in sys.conns && Fits(sys.conns[conn.id], act)
    {
    }

    /** The next of the four tests of handleEventWithGuard. */
    method Handle(r: ReadResult, w: WriteResult) returns (aborted: bool)
      requires Valid() && handling != null && closing == null && ActFits(sys, handling, Test(part, r, w))
      modifies this`sys, this`handling, this`part, this`closing
      modifies handling, handling.inputBuffer, handling.inputBuffer.data, handling.outputBuffer, handling.outputBuffer.data
      modifies handling.loop, handling.channel`events, handling.channel`index, handling.channel.poller`channels, handling.channel.poller`kernel, handling.channel.poller`chans
      ensures Enabled(old(sys), Event.Handle(r, w))
      ensures aborted ==> Step(old(sys), Event.Handle(r, w)) == Died(SocketError)
      ensures !aborted ==> Valid() && Step(old(sys), Event.Handle(r, w)) == Next(sys)
      ensures !aborted ==> fresh(old(handling).inputBuffer.data) || old(handling).inputBuffer.data == old(handling.inputBuffer.data)
      ensures !aborted ==> fresh(old(handling).outputBuffer.data) || old(handling).outputBuffer.data == old(handling.outputBuffer.data)
    {
      hide *;
      Pieces();
      TurnKnown();
      var conn := handling;
      ActIsFit(conn, Test(part, r, w));
      ghost var s := sys;
      TestStep(s, part, r, w);
      var closed;
      aborted, closed := Handled(conn, Test(part, r, w));
      if !aborted {
        MoveOn(s, conn, closed);
        Together(old(sys), Event.Handle(r, w));
      }
    }

    /** The test is done: on to the next one, or out of handleEvent. */
    method MoveOn(ghost s: Sys, conn: TcpConnection, closed: bool)
      requires Settled(sys) && Alive(sys, {}) && ArraysApart() && Hooked(sys) && Placed(s) && Holds(conn) && closing == null
      requires sys.active == s.active && sys.batch == s.batch && sys.turn == s.turn
      requires s.turn == ReactorSpec.Turn(conn.id, conn.channel.revents, part)
      requires sys.closing == if closed then ReactorSpec.Closing(conn.id) else NoClosing
      modifies this`sys, this`handling, this`part, this`closing
      ensures sys == old(sys).(turn := NextPart(s.turn))
      ensures Settled(sys) && Alive(sys, {}) && ArraysApart() && Hooked(sys) && Placed(sys)
    {
      hide *;
      PlacedParts(s);
      ghost var p := part;
      handling := if part.WritePart? then null else conn;
      part := if part.WritePart? then part else AfterPart(part);
      closing := if closed then conn else null;
      SetTurn(NextPart(s.turn));
      TurnMoved(s, conn, p, closed);
    }

    ghost method SetTurn(turn: ReactorSpec.Turn)
      requires Settled(sys) && Alive(sys, {}) && ArraysApart() && Hooked(sys)
      modifies this`sys
      ensures sys == old(sys).(turn := turn) && Settled(sys) && Alive(sys, {}) && ArraysApart() && Hooked(sys)
    {
      hide *;
      var t := sys;
      sys := sys.(turn := turn);
      SameBodies(t, sys);
    }

    lemma PlacedParts(s: Sys)
      requires Placed(s)
      ensures ActiveIs(s) && TurnIs(s) && BatchIs(s) && ClosingIs(s) && Bound(objects, functors, s.batch)
    {
      hide Bound;
    }

    lemma TurnMoved(s: Sys, conn: TcpConnection, p: Part, closed: bool)
      requires ActiveIs(s) && BatchIs(s) && Holds(conn) && sys.active == s.active && sys.batch == s.batch
      requires s.turn == ReactorSpec.Turn(conn.id, conn.channel.revents, p) && sys.turn == NextPart(s.turn)
      requires handling == (if p.WritePart? then null else conn) && part == (if p.WritePart? then p else AfterPart(p))
      requires sys.closing == (if closed then ReactorSpec.Closing(conn.id) else NoClosing) && closing == (if closed then conn else null)
      ensures Placed(sys)
    {
      hide Bound;
    }

    /** Which list the loop is in does not matter to objects, poller and queue. */
    lemma SameBodies(s: Sys, t: Sys)
      requires Settled(s) && Alive(s, {}) && Hooked(s)
      requires t.conns == s.conns && t.nextId == s.nextId && t.server == s.server && t.poller == s.poller
      requires t.pending == s.pending && StageOf(t.phase) == StageOf(s.phase)
      ensures Settled(t) && Alive(t, {}) && Hooked(t)
    {
      hide Wired, Linked, Bound, LoopRuns.Inv, Consistent, TcpConnection.Value, TcpConnection.Plumbed;
    }

    lemma TurnKnown()
      requires Placed(sys) && SysInv(sys) && handling != null && closing == null
      ensures Holds(handling) && sys.turn == ReactorSpec.Turn(handling.id, handling.channel.revents, part)
      ensures sys.closing == NoClosing && InCallbacks(sys)
    {
      TurnFacts(sys);
    }

    lemma ServerReady()
      requires Valid()
      ensures server.Valid() && server.loop == loop && server.poller == poller && ObjectsAre(sys) && server.nextConnId == sys.nextId
      ensures Files(server.connections, server.nextConnId, objects, sys)
    {
      hide SysInv, Reachable, Placed, Alive, ArraysApart, Hooked;
      ReachableInv(sys);
      FiledInOrder(sys);
    }

    lemma HookedParts(s: Sys)
      requires Hooked(s)
      ensures loop.Valid() && poller.Valid() && loop.stage == StageOf(s.phase) && loop.batch == functors && !loop.reported
      ensures Linked(poller.View(), s.poller, Names(objects)) && Bound(objects, loop.pendingFunctors, s.pending)
    {
      hide Linked, Bound, LoopRuns.Inv, Consistent;
    }

    lemma HookedAgain(t: Sys)
      requires loop.Valid() && poller.Valid() && loop.stage == StageOf(t.phase) && loop.batch == functors && !loop.reported
      requires Linked(poller.View(), t.poller, Names(objects)) && Bound(objects, loop.pendingFunctors, t.pending)
      ensures Hooked(t)
    {
      hide Linked, Bound, LoopRuns.Inv, Consistent;
    }

    lemma ObjectsOn(s: Sys, t: Sys)
      requires ObjectsAre(s) && Alive(s, {}) && t.conns == s.conns
      ensures ObjectsAre(t) && Alive(t, {})
    {
      hide Wired, TcpConnection.Value, TcpConnection.Plumbed;
    }

    lemma SettledAs(t: Sys)
      requires ObjectsAre(t) && Files(server.connections, server.nextConnId, objects, t)
      ensures Settled(t)
    {
      hide Wired, Files;
    }

    /** The close callback, TcpServer::removeConnection. */
    method CloseCallback()
      requires Valid() && closing != null
      modifies this`sys, this`closing, loop, server`connections
      ensures Enabled(old(sys), Event.CloseCallback)
      ensures Valid() && Step(old(sys), Event.CloseCallback) == Next(sys)
    {
      hide *;
      Pieces();
      ServerReady();
      HookedParts(sys);
      ClosingKnown();
      PlacedParts(sys);
      var conn := closing;
      ghost var s := sys;
      CloseStep(s);
      server.RemoveConnection(conn);
      closing := null;
      sys := ReactorSpec.RemoveConnection(s);
      CloseLinks(objects, conn, s, old(server.connections), server.nextConnId, old(loop.pendingFunctors));
      ObjectsOn(s, sys);
      SettledAs(sys);
      HookedAgain(sys);
      ClosedPlaced(s);
      Together(old(sys), Event.CloseCallback);
    }

    lemma ClosingKnown()
      requires Placed(sys) && SysInv(sys) && closing != null
      ensures Holds(closing) && closing.id in objects && objects[closing.id] == closing
      ensures sys.closing == ReactorSpec.Closing(closing.id) && InCallbacks(sys) && StageOf(sys.phase) != LoopSpec.Polling
    {
      hide Bound;
    }

    lemma ClosedPlaced(s: Sys)
      requires ActiveIs(s) && TurnIs(s) && BatchIs(s) && closing == null && s.closing.Closing? && sys == ReactorSpec.RemoveConnection(s)
      ensures Placed(sys)
    {
      hide Bound;
    }

    /** The next channel of activeChannels_ gets its handleEvent call. */
    method NextChannel()
      requires Valid() && Enabled(sys, Event.NextChannel)
      modifies this`sys, this`active, this`handling, this`part
      ensures Valid() && Step(old(sys), Event.NextChannel) == Next(sys)
    {
      hide *;
      Pieces();
      PlacedParts(sys);
      NextStep(sys);
      NotClosing();
      ListOf(sys);
      FirstActive();
      ghost var s := sys;
      var channel := active[0];
      handling := owner[channel];
      part := ClosePart;
      active := active[1..];
      sys := NextChannelStep(s).s;
      SameBodies(s, sys);
      TurnBegun(s, old(active));
      Together(old(sys), Event.NextChannel);
    }

    lemma FirstActive()
      requires ActiveIs(sys) && Settled(sys) && sys.active != []
      ensures active != [] && active[0] in owner && Holds(owner[active[0]]) && owner[active[0]].id == sys.active[0].id
      ensures owner[active[0]].channel == active[0] && active[0].revents == sys.active[0].revents
    {
      hide Files;
    }

    lemma TurnBegun(s: Sys, was: seq<Channel>)
      requires ListIs(was, s.active) && was != [] && active == was[1..] && BatchIs(s) && closing == null && s.closing == NoClosing
      requires handling != null && Holds(handling) && handling.id == s.active[0].id && part == ClosePart
      requires sys == s.(active := s.active[1..], turn := ReactorSpec.Turn(s.active[0].id, s.active[0].revents, ClosePart))
      ensures Placed(sys)
    {
      hide Bound;
      assert was[0] == objects[s.active[0].id].channel && was[0].revents == s.active[0].revents;
    }

    lemma NotClosing()
      requires ClosingIs(sys) && sys.closing == NoClosing
      ensures closing == null
    {
    }

    lemma NotHandling()
      requires TurnIs(sys) && sys.turn == NoTurn
      ensures handling == null
    {
    }

    lemma ListOf(s: Sys)
      requires ActiveIs(s)
      ensures ListIs(active, s.active)
    {
    }

    /** The top of doPendingFunctors. */
    method EndDispatch()
      requires Valid() && Enabled(sys, Event.EndDispatch)
      modifies this`sys, this`functors, loop
      ensures Valid() && Step(old(sys), Event.EndDispatch) == Next(sys)
    {
      hide *;
      Pieces();
      PlacedParts(sys);
      HookedParts(sys);
      SwapStep(sys);
      SettledParts(sys);
      ghost var s, l := sys, loop.View();
      LoopCan(l);
      functors := loop.SwapFunctors();
      sys := s.(phase := Functors, batch := s.pending, pending := []);
      Swapped(l);
      ObjectsOn(s, sys);
      FiledOn(s, sys);
      NoneBound();
      HookedAgain(sys);
      SwapPlaced(s);
      Together(old(sys), Event.EndDispatch);
    }

    /** What the loop's own state allows. */
    lemma LoopCan(l: LoopSpec.Loop<Functor>)
      requires l == loop.View() && !loop.reported
      ensures !l.reported && l.pending == loop.pendingFunctors && l.batch == loop.batch
      ensures StageOf(Phase.Polling) == LoopSpec.Polling && StageOf(Phase.Dispatching) == LoopSpec.Dispatching && StageOf(Phase.Functors) == LoopSpec.Functors
      ensures loop.stage.Dispatching? ==> LoopSpec.Enabled(l, LoopSpec.Swap)
      ensures loop.stage.Functors? && loop.batch == [] ==> LoopSpec.Enabled(l, LoopSpec.EndFunctors)
      ensures loop.stage.Functors? && loop.batch != [] ==> LoopSpec.Enabled(l, LoopSpec.RunFunctor)
      ensures l.stage == loop.stage
      ensures loop.stage.Polling? ==> LoopSpec.Enabled(l, LoopSpec.PollReturns(loop.eventfd > 0))
    {
    }

    lemma Swapped(l: LoopSpec.Loop<Functor>)
      requires !l.reported && LoopSpec.Enabled(l, LoopSpec.Swap) && LoopSpec.Step(l, LoopSpec.Swap) == LoopSpec.Next(loop.View())
      ensures loop.pendingFunctors == [] && loop.stage == LoopSpec.Functors && !loop.reported
    {
    }

    lemma NoneBound()
      ensures Bound(objects, [], [])
    {
    }

    lemma FiledOn(s: Sys, t: Sys)
      requires Settled(s) && ObjectsAre(t) && t.nextId == s.nextId && t.server == s.server
      ensures Settled(t)
    {
      hide Wired;
    }

    lemma SwapPlaced(s: Sys)
      requires ActiveIs(s) && TurnIs(s) && ClosingIs(s) && Bound(objects, functors, s.pending)
      requires sys == s.(phase := Functors, batch := s.pending, pending := [])
      ensures Placed(sys)
    {
      hide Bound;
    }

    /** The bottom of doPendingFunctors. */
    method EndFunctors()
      requires Valid() && Enabled(sys, Event.EndFunctors)
      modifies this`sys, loop
      ensures Valid() && Step(old(sys), Event.EndFunctors) == Next(sys)
    {
      hide *;
      Pieces();
      PlacedParts(sys);
      HookedParts(sys);
      DoneStep(sys);
      NoBatch();
      SettledParts(sys);
      ghost var s, l := sys, loop.View();
      LoopCan(l);
      loop.FunctorsDone();
      sys := s.(phase := Polling);
      Done(l);
      ObjectsOn(s, sys);
      FiledOn(s, sys);
      HookedAgain(sys);
      PollPlaced(s);
      Together(old(sys), Event.EndFunctors);
    }

    lemma NoBatch()
      requires BatchIs(sys) && sys.batch == []
      ensures functors == []
    {
    }

    lemma Done(l: LoopSpec.Loop<Functor>)
      requires LoopSpec.Enabled(l, LoopSpec.EndFunctors) && LoopSpec.Step(l, LoopSpec.EndFunctors) == LoopSpec.Next(loop.View())
      ensures loop.pendingFunctors == l.pending && loop.batch == l.batch && loop.stage == LoopSpec.Polling && loop.reported == l.reported
    {
    }

    lemma PollPlaced(s: Sys)
      requires ActiveIs(s) && TurnIs(s) && BatchIs(s) && ClosingIs(s) && sys == s.(phase := Polling)
      ensures Placed(sys)
    {
      hide Bound;
    }

    lemma SettledParts(s: Sys)
      requires Settled(s)
      ensures ObjectsAre(s) && Files(server.connections, server.nextConnId, objects, s)
    {
      hide ObjectsAre, Files;
    }

    /** epoll_wait returns: activeChannels_ is filled, and the wakeup channel is served if it is ready. */
    method Poll(ready: seq<(nat, Mask)>)
      requires Valid() && Enabled(sys, Event.PollReturns(ready)) && |ready| <= poller.events.Length
      modifies this`sys, this`active, loop, poller`events, poller.events, poller.chans.Keys`revents
      ensures Valid() && Step(old(sys), Event.PollReturns(ready)) == Next(sys)
      ensures fresh(poller.events) || poller.events == old(poller.events)
    {
      hide *;
      Pieces();
      PlacedParts(sys);
      SettledParts(sys);
      HookedParts(sys);
      PollReady(ready);
      NotHandling();
      LoopCan(loop.View());
      ghost var s := sys;
      GatherActive(ready);
      WakeUp();
      BeginDispatch(ready);
      Together(s, Event.PollReturns(ready));
    }

    /** On to the channels that are ready. */
    ghost method BeginDispatch(ready: seq<(nat, Mask)>)
      requires Settled(sys) && ObjectsAre(sys) && Alive(sys, {}) && BatchIs(sys) && ClosingIs(sys) && handling == null && sys.turn == NoTurn
      requires forall e :: e in ready ==> e.0 in sys.poller.kernel
      requires ListIs(active, Entries(sys, ready))
      requires loop.Valid() && poller.Valid() && loop.stage == StageOf(Phase.Dispatching) && loop.batch == functors && !loop.reported
      requires Linked(poller.View(), sys.poller, Names(objects)) && Bound(objects, loop.pendingFunctors, sys.pending)
      modifies this`sys
      ensures sys == PollStep(old(sys), ready)
      ensures Settled(sys) && Alive(sys, {}) && Hooked(sys) && Placed(sys)
    {
      hide *;
      var s := sys;
      sys := PollStep(s, ready);
      Polled(s, ready);
      ObjectsOn(s, sys);
      FiledOn(s, sys);
      HookedAgain(sys);
      PolledPlaced(s, ready);
    }

    /** activeChannels_ after the poll. */
    method GatherActive(ready: seq<(nat, Mask)>)
      requires poller.Valid() && poller.Reported(ready) && Linked(poller.View(), sys.poller, Names(objects))
      requires forall e :: e in ready ==> e.0 in sys.poller.kernel
      modifies this`active, poller`events, poller.events, poller.chans.Keys`revents
      ensures poller.Valid() && poller.View() == old(poller.View())
      ensures ListIs(active, Entries(sys, ready))
      ensures fresh(poller.events) || poller.events == old(poller.events)
    {
      hide *;
      ghost var p := poller.View();
      ViewIs(p);
      var aborted;
      aborted, active := poller.Poll(PollResult.Ready(ready));
      ActiveFilled(sys, p, ready);
    }

    method WakeUp()
      requires loop.Valid() && loop.stage.Polling? && !loop.reported
      modifies loop
      ensures loop.Valid() && loop.stage == StageOf(Phase.Dispatching) && !loop.reported
      ensures loop.pendingFunctors == old(loop.pendingFunctors) && loop.batch == old(loop.batch)
    {
      var woken := loop.eventfd > 0;
      loop.PollReturned(woken);
      if woken {
        loop.HandleRead();
      }
    }

    lemma PollReady(ready: seq<(nat, Mask)>)
      requires SysInv(sys) && Enabled(sys, Event.PollReturns(ready)) && |ready| <= poller.events.Length
      requires Linked(poller.View(), sys.poller, Names(objects))
      ensures poller.Reported(ready) && (forall e :: e in ready ==> e.0 in sys.poller.kernel)
      ensures sys.turn == NoTurn && StageOf(sys.phase) == LoopSpec.Polling
      ensures Step(sys, Event.PollReturns(ready)) == Next(PollStep(sys, ready)) && SysInv(PollStep(sys, ready))
    {
      PollEvent(sys, ready);
      hide SysInv, Step, PollStep;
      forall i | 0 <= i < |ready| ensures ready[i].0 in poller.kernel { assert ready[i] in ready; }
    }

    lemma ActiveFilled(s: Sys, p: Poller<Channel>, ready: seq<(nat, Mask)>)
      requires Linked(p, s.poller, Names(objects)) && poller.kernel == p.kernel && |active| == |ready|
      requires forall e :: e in ready ==> e.0 in s.poller.kernel
      requires forall i :: 0 <= i < |active| ==> active[i] in poller.chans && poller.Reports(active[i], ready[i])
      ensures ListIs(active, Entries(s, ready))
    {
      var entries := Entries(s, ready);
      forall i | 0 <= i < |active|
        ensures entries[i].id in objects && active[i] == objects[entries[i].id].channel && active[i].revents == entries[i].revents
      {
        assert ready[i] in ready;
        assert poller.Reports(active[i], ready[i]);
        assert entries[i] == ReactorSpec.Ready.Ready(s.poller.kernel[ready[i].0].ptr, ready[i].1);
      }
    }

    lemma PolledPlaced(s: Sys, ready: seq<(nat, Mask)>)
      requires forall e :: e in ready ==> e.0 in s.poller.kernel
      requires sys == PollStep(s, ready) && ListIs(active, sys.active) && BatchIs(s) && handling == null && s.turn == NoTurn && ClosingIs(s)
      ensures Placed(sys)
    {
      hide Bound;
    }

    lemma ViewIs(p: Poller<Channel>)
      requires p == poller.View()
      ensures p.kernel == poller.kernel
    {
    }

    /** connectDestroyed for one connection among the others. */
    method CallDestroy(conn: TcpConnection) returns (ghost mid: Host)
      requires Settled(sys) && ArraysApart() && Alive(sys, {}) && Holds(conn) && conn.loop == loop && conn.channel.poller == poller
      requires conn.Valid()
      modifies conn`state, conn.channel`events, conn.channel`index, conn.channel.poller`channels, conn.channel.poller`kernel, conn.channel.poller`chans
      ensures conn.Valid() && OthersKept(sys, old(ArraysOf()), conn.id)
      ensures Took(old(conn.Snapshot()), conn, ConnectionSpec.ConnectDestroyed(old(conn.View())), mid)
      ensures conn.Shaped() && conn.channel in mid.poller.chans
      ensures RemoveChannel(mid.poller, conn.channel) == PollerSpec.Ok(conn.Snapshot().poller)
      ensures conn.Snapshot() == mid.(poller := conn.Snapshot().poller)
    {
      hide Settled, Alive, ArraysOf, Kept, Clear, Apart, ArraysApart, ConnInv, Consistent, LoopRuns.Inv, Took, RemoveChannel, ConnectionSpec.ConnectDestroyed;
      hide TcpConnection.Valid, TcpConnection.Shaped, TcpConnection.View, TcpConnection.Snapshot, TcpConnection.Value, TcpConnection.Plumbed;
      Strangers(conn);
      KeptNow(conn);
      mid := conn.ConnectDestroyed();
      ConnParts(conn);
      PollerOf(conn);
    }

    lemma PollerOf(conn: TcpConnection)
      requires conn.Shaped()
      ensures conn.Snapshot().poller == conn.channel.poller.View()
    {
    }

    /** The connectDestroyed functor; the batch still holds it. */
    method Destroyed(conn: TcpConnection)
      requires Valid() && Holds(conn) && InCallbacks(sys)
      modifies this`sys
      modifies conn`state, conn.channel`events, conn.channel`index, conn.channel.poller`channels, conn.channel.poller`kernel, conn.channel.poller`chans
      ensures DestroyStep(old(sys), conn.id) == Next(sys)
      ensures Settled(sys) && Alive(sys, {}) && ArraysApart() && Hooked(sys) && Placed(old(sys)) && Holds(conn)
    {
      hide *;
      Pieces();
      ConnReady(conn);
      HostReady(conn);
      ArraysFacts(conn);
      ghost var s, h, arrays := sys, conn.Snapshot(), ArraysOf();
      ghost var mid := CallDestroy(conn);
      TakeDestroy(conn, h, mid, arrays);
    }

    /** The machine takes connectDestroyed over. */
    ghost method TakeDestroy(conn: TcpConnection, h: Host, mid: Host, arrays: map<ConnId, (array<Byte>, array<Byte>)>)
      requires Settled(sys) && OthersKept(sys, arrays, conn.id) && Apart(arrays) && Holds(conn) && Clear(arrays, conn)
      requires conn.Shaped() && conn.loop == loop && conn.channel.poller == poller && HostOf(sys, conn, h)
      requires Took(h, conn, ConnectionSpec.ConnectDestroyed(h.conn), mid) && conn.channel in mid.poller.chans
      requires RemoveChannel(mid.poller, conn.channel) == PollerSpec.Ok(conn.Snapshot().poller)
      requires conn.Snapshot() == mid.(poller := conn.Snapshot().poller)
      modifies this`sys
      ensures DestroyStep(old(sys), conn.id) == Next(sys)
      ensures Settled(sys) && Alive(sys, {}) && ArraysApart() && Hooked(sys)
    {
      hide Settled, OthersKept, Apart, Clear, Alive, ArraysApart, Hooked, Linked, Bound, Took, DestroyStep, RemoveChannel, ConnectDestroyed, TcpConnection.Shaped;
      var s, u := sys, conn.Snapshot();
      DestroyOk(objects, s, conn, h, mid, u);
      KeptApart(conn, s, arrays);
      ShapedFacts(conn);
      sys := DestroyStep(s, conn.id).s;
      KeptAlive(conn, s, sys, arrays);
      SettledOn(s, sys);
      HookedOn(conn, sys, u);
    }

    /** doPendingFunctors runs its next functor. */
    method RunTask(f: Functor)
      requires Valid() && Enabled(sys, Event.RunTask) && functors != [] && f == functors[0]
      modifies this`sys, this`functors, this`closing, loop
      modifies f.conn, f.conn.inputBuffer, f.conn.inputBuffer.data, f.conn.outputBuffer, f.conn.outputBuffer.data
      modifies f.conn.loop, f.conn.channel`events, f.conn.channel`index, f.conn.channel.poller`channels, f.conn.channel.poller`kernel, f.conn.channel.poller`chans
      ensures Valid() && Step(old(sys), Event.RunTask) == Next(sys)
      ensures fresh(f.conn.inputBuffer.data) || f.conn.inputBuffer.data == old(f.conn.inputBuffer.data)
      ensures fresh(f.conn.outputBuffer.data) || f.conn.outputBuffer.data == old(f.conn.outputBuffer.data)
    {
      hide *;
      Pieces();
      PlacedParts(sys);
      FirstFunctor(f);
      RunKnown(sys);
      NotClosing();
      ForceFits(f.conn);
      ghost var s := sys;
      BodyStep(s, f.conn.channel.revents);
      var aborted, closed := false, false;
      if f.kind.Destroy? {
        Destroyed(f.conn);
      } else if f.kind.ForceClose? {
        aborted, closed := Handled(f.conn, ForceClosingInLoop);
      }
      PopFunctor(s, f, closed);
      Together(old(sys), Event.RunTask);
    }

    lemma FirstFunctor(f: Functor)
      requires BatchIs(sys) && functors != [] && f == functors[0]
      ensures Holds(f.conn) && sys.batch != [] && sys.batch[0] == Task(f.conn.id, f.kind)
    {
    }

    lemma ForceFits(conn: TcpConnection)
      requires conn.id in sys.conns
      ensures ActFits(sys, conn, ForceClosingInLoop)
    {
    }

    /** The functor has returned. */
    method PopFunctor(ghost s: Sys, f: Functor, closed: bool)
      requires Settled(sys) && Alive(sys, {}) && ArraysApart() && Hooked(sys) && Placed(s) && Holds(f.conn)
      requires functors != [] && f == functors[0] && closing == null && s.phase == Phase.Functors && s.batch != []
      requires sys.active == s.active && sys.turn == s.turn && sys.batch == s.batch && sys.phase == s.phase
      requires sys.closing == if closed then ReactorSpec.Closing(f.conn.id) else NoClosing
      modifies this`sys, this`functors, this`closing, loop
      ensures sys == old(sys).(batch := s.batch[1..])
      ensures Settled(sys) && Alive(sys, {}) && ArraysApart() && Hooked(sys) && Placed(sys)
    {
      hide *;
      PlacedParts(s);
      HookedParts(sys);
      SettledParts(sys);
      ghost var t, l := sys, loop.View();
      LoopCan(l);
      loop.NextFunctor(f);
      functors := functors[1..];
      closing := if closed then f.conn else null;
      sys := t.(batch := s.batch[1..]);
      Popped(l);
      ObjectsOn(t, sys);
      FiledOn(t, sys);
      HookedAgain(sys);
      PoppedPlaced(s, f, old(functors), closed);
    }

    lemma Popped(l: LoopSpec.Loop<Functor>)
      requires LoopSpec.Enabled(l, LoopSpec.RunFunctor) && LoopSpec.Step(l, LoopSpec.RunFunctor) == LoopSpec.Next(loop.View())
      ensures loop.pendingFunctors == l.pending && loop.batch == l.batch[1..] && loop.stage == l.stage && loop.reported == l.reported
    {
    }

    lemma PoppedPlaced(s: Sys, f: Functor, was: seq<Functor>, closed: bool)
      requires ActiveIs(s) && TurnIs(s) && Bound(objects, was, s.batch) && was != [] && functors == was[1..] && Holds(f.conn)
      requires sys.active == s.active && sys.turn == s.turn && sys.batch == s.batch[1..]
      requires sys.closing == (if closed then ReactorSpec.Closing(f.conn.id) else NoClosing) && closing == (if closed then f.conn else null)
      ensures Placed(sys)
    {
    }

    /** A new connection shares nothing with those there are. */
    method NewClear(sockfd: nat, mark: nat, wantsHigh: bool, ghost arrays: map<ConnId, (array<Byte>, array<Byte>)>) returns (conn: TcpConnection)
      requires server.Valid() && server.loop == loop && server.poller == poller && loop.Valid() && !loop.stage.Polling?
      requires poller.Valid() && FdFree(poller.View(), sockfd)
      modifies server`connections, server`nextConnId, poller`channels, poller`kernel, poller`chans
      ensures server.Valid() && fresh(conn) && conn.id == old(server.nextConnId) && conn.loop == loop && conn.channel.poller == poller
      ensures server.connections == old(server.connections)[conn.id := conn] && server.nextConnId == old(server.nextConnId) + 1
      ensures conn.Shaped() && conn.View() == ConnectEstablished(Fresh(mark, wantsHigh, server.wantsComplete)).conn
      ensures SetEvents(AddChan(old(poller.View()), conn.channel, sockfd), conn.channel, READ_EVENT) == PollerSpec.Ok(poller.View())
      ensures Newcomer(objects, conn) && Clear(arrays, conn) && conn.channel !in old(poller.chans) && poller.Valid()
      ensures fresh(conn.channel) && fresh(conn.inputBuffer) && fresh(conn.inputBuffer.data) && fresh(conn.outputBuffer) && fresh(conn.outputBuffer.data)
    {
      hide Consistent, LoopRuns.Inv, ConnInv, SetEvents, AddChan, ConnectEstablished;
      hide TcpConnection.Valid, TcpConnection.Shaped, TcpConnection.View;
      conn := server.NewConnection(sockfd, mark, wantsHigh);
      PollerLive(conn);
    }

    lemma PollerLive(conn: TcpConnection)
      requires conn.Shaped()
      ensures conn.channel.poller.Valid() && conn.loop.Valid()
    {
      hide Consistent, LoopRuns.Inv;
    }

    /** The acceptor's callback: TcpServer::newConnection on a descriptor accept() returned. */
    method Accept(sockfd: nat, mark: nat, wantsHigh: bool) returns (conn: TcpConnection)
      requires Valid() && Enabled(sys, Event.Accept(sockfd, mark, wantsHigh, server.wantsComplete))
      modifies this`sys, this`objects, this`owner, server`connections, server`nextConnId, poller`channels, poller`kernel, poller`chans
      ensures Valid() && Step(old(sys), Event.Accept(sockfd, mark, wantsHigh, server.wantsComplete)) == Next(sys)
      ensures fresh(conn) && conn.id == old(sys).nextId && objects == old(objects)[conn.id := conn]
      ensures fresh(conn.channel) && fresh(conn.inputBuffer) && fresh(conn.inputBuffer.data) && fresh(conn.outputBuffer) && fresh(conn.outputBuffer.data)
    {
      hide *;
      Pieces();
      ServerReady();
      PlacedParts(sys);
      HookedParts(sys);
      AcceptStep(sys, sockfd, mark, wantsHigh, server.wantsComplete);
      LoopCan(loop.View());
      FreeLinked(poller.View(), sys.poller, Names(objects), sockfd);
      NotHandling();
      NotClosing();
      ModuleViews(sys);
      ObjectParts(sys);
      ViewChans();
      ghost var s, o, p := sys, objects, poller.View();
      conn := NewClear(sockfd, mark, wantsHigh, ArraysIn(o));
      Adopt(sockfd, mark, wantsHigh, conn);
      AcceptedLinks(o, conn, s, sockfd, mark, wantsHigh, server.wantsComplete, p, poller.View(), old(server.connections), loop.pendingFunctors, functors);
      AcceptedFields(s, sockfd, mark, wantsHigh, server.wantsComplete);
      AcceptedPlaced(s, o, conn);
      SettledAs(sys);
      HookedAgain(sys);
      Together(s, Event.Accept(sockfd, mark, wantsHigh, server.wantsComplete));
    }

    /** The connection the server filed joins the others. */
    method Adopt(sockfd: nat, mark: nat, wantsHigh: bool, conn: TcpConnection)
      requires ObjectsAre(sys) && AllAlive(objects, sys, {}) && Apart(ArraysIn(objects)) && Clear(ArraysIn(objects), conn)
      requires conn.id == sys.nextId && conn.id !in sys.conns && Newcomer(objects, conn) && server.loop == loop && server.poller == poller
      requires conn.Shaped() && conn.loop == loop && conn.channel.poller == poller
      requires conn.View() == ConnectEstablished(Fresh(mark, wantsHigh, server.wantsComplete)).conn
      modifies this`sys, this`objects, this`owner
      ensures sys == Accepted(old(sys), sockfd, mark, wantsHigh, server.wantsComplete) && objects == old(objects)[conn.id := conn]
      ensures ObjectsAre(sys) && Alive(sys, {}) && ArraysApart()
    {
      hide *;
      ObjectParts(sys);
      ghost var s, o := sys, objects;
      objects, owner := objects[conn.id := conn], owner[conn.channel := conn];
      sys := Accepted(s, sockfd, mark, wantsHigh, server.wantsComplete);
      AcceptedFields(s, sockfd, mark, wantsHigh, server.wantsComplete);
      AcceptedObjects(s, o, conn, old(owner));
      ShapedFacts(conn);
      AcceptedAlive(s, o, conn);
    }

    lemma ModuleViews(s: Sys)
      requires Alive(s, {}) && ArraysApart() && ActiveIs(s)
      ensures AllAlive(objects, s, {}) && Apart(ArraysIn(objects)) && Listed(objects, active, s.active)
    {
      hide Apart;
    }

    lemma ObjectParts(s: Sys)
      requires ObjectsAre(s)
      ensures Wired(objects, loop, poller) && objects.Keys == s.conns.Keys && Owned(objects, owner)
    {
      hide Wired, Owned;
    }

    lemma ViewChans()
      ensures poller.View().chans == poller.chans
    {
    }

    lemma AcceptedObjects(s: Sys, o: Objects, conn: TcpConnection, owners: map<Channel, TcpConnection>)
      requires Wired(o, loop, poller) && o.Keys == s.conns.Keys && Owned(o, owners)
      requires server.loop == loop && server.poller == poller && conn.id !in o && Newcomer(o, conn)
      requires conn.loop == loop && conn.channel.poller == poller && sys.conns.Keys == s.conns.Keys + {conn.id}
      requires objects == o[conn.id := conn] && owner == owners[conn.channel := conn]
      ensures ObjectsAre(sys)
    {
      hide Wired, Owned, Newcomer;
      WiredMore(o, conn, loop, poller);
      OwnedMore(o, conn, owners);
    }

    lemma AcceptedAlive(s: Sys, o: Objects, conn: TcpConnection)
      requires AllAlive(o, s, {}) && Apart(ArraysIn(o)) && Clear(ArraysIn(o), conn) && o.Keys == s.conns.Keys && conn.id !in o
      requires objects == o[conn.id := conn] && conn.Plumbed() && sys.conns == s.conns[conn.id := conn.Value()]
      ensures Alive(sys, {}) && ArraysApart()
    {
      hide TcpConnection.Value, TcpConnection.Plumbed;
      ArraysMore(o, conn);
      ClearApart(ArraysIn(o), conn);
      hide ArraysIn, Apart, Clear;
    }

    lemma ArraysMore(o: Objects, conn: TcpConnection)
      ensures ArraysIn(o[conn.id := conn]) == ArraysIn(o)[conn.id := (conn.inputBuffer.data, conn.outputBuffer.data)]
    {
    }

    lemma AcceptedPlaced(s: Sys, o: Objects, conn: TcpConnection)
      requires Listed(o, active, s.active) && conn.id !in o && objects == o[conn.id := conn]
      requires handling == null && closing == null && s.turn == NoTurn && s.closing == NoClosing
      requires sys.active == s.active && sys.turn == s.turn && sys.closing == s.closing && Bound(objects, functors, sys.batch)
      ensures Placed(sys)
    {
      hide Bound;
    }

    /** The last shared_ptr is gone: ~TcpConnection, and with it the channel. */
    method Release(conn: TcpConnection)
      requires Valid() && Holds(conn) && Enabled(sys, Event.Release(conn.id))
      modifies this`sys, this`objects, this`owner, poller`chans
      ensures Valid() && Step(old(sys), Event.Release(conn.id)) == Next(sys) && objects == old(objects) - {conn.id}
    {
      hide *;
      Pieces();
      SettledParts(sys);
      PlacedParts(sys);
      HookedParts(sys);
      ReleaseStepOk(sys, conn.id);
      ObjectParts(sys);
      ModuleViews(sys);
      HeldOnes(conn);
      Unregistered(conn);
      ServerReady();
      SysParts(sys);
      ghost var s, o, p := sys, objects, poller.View();
      LinkLess(o, conn, p, s.poller);
      conn.channel.Forget();
      objects, owner := objects - {conn.id}, owner - {conn.channel};
      sys := s.(conns := s.conns - {conn.id}, poller := DropChan(s.poller, conn.id));
      ReleasedObjects(s, o, conn, old(owner));
      ReleasedAlive(s, o, conn);
      BoundLess(o, conn, loop.pendingFunctors, s.pending);
      BoundLess(o, conn, functors, s.batch);
      FilesLess(server.connections, server.nextConnId, o, conn, s, sys);
      SettledAs(sys);
      HookedAgain(sys);
      ReleasedPlaced(s, o, conn);
      Together(old(sys), Event.Release(conn.id));
    }

    /** Its channel is new again for the poller. */
    lemma Unregistered(conn: TcpConnection)
      requires poller.Valid() && Linked(poller.View(), sys.poller, Names(objects)) && Holds(conn) && Wired(objects, loop, poller)
      requires conn.id in sys.poller.chans && sys.poller.chans[conn.id].index.New?
      ensures conn.channel.poller == poller && conn.channel.Valid() && conn.channel.index.New? && conn.id in objects && objects[conn.id] == conn
    {
      hide Consistent;
      assert Names(objects)[conn.id] == conn.channel;
      InBoth(poller.View(), sys.poller, Names(objects), conn.id);
      hide Linked;
      assert poller.chans[conn.channel] == conn.channel.Value();
    }

    /** Where handling and closing point. */
    lemma HeldOnes(conn: TcpConnection)
      requires TurnIs(sys) && ClosingIs(sys)
      requires sys.turn.Turn? ==> sys.turn.id != conn.id
      requires sys.closing.Closing? ==> sys.closing.id != conn.id
      ensures handling != null ==> handling.id != conn.id && handling.id in objects && objects[handling.id] == handling
      ensures closing != null ==> closing.id != conn.id && closing.id in objects && objects[closing.id] == closing
      ensures sys.turn == if handling == null then NoTurn else ReactorSpec.Turn(handling.id, handling.channel.revents, part)
      ensures sys.closing == if closing == null then NoClosing else ReactorSpec.Closing(closing.id)
    {
    }

    lemma ReleasedObjects(s: Sys, o: Objects, conn: TcpConnection, owners: map<Channel, TcpConnection>)
      requires Wired(o, loop, poller) && o.Keys == s.conns.Keys && Owned(o, owners) && conn.id in o && o[conn.id] == conn
      requires server.loop == loop && server.poller == poller && objects == o - {conn.id} && owner == owners - {conn.channel}
      requires sys.conns.Keys == s.conns.Keys - {conn.id}
      ensures ObjectsAre(sys)
    {
      hide Owned;
      WiredLess(o, conn, loop, poller);
      OwnedLess(o, conn, owners, loop, poller);
      hide Wired;
    }

    lemma ReleasedAlive(s: Sys, o: Objects, conn: TcpConnection)
      requires AllAlive(o, s, {}) && Apart(ArraysIn(o)) && objects == o - {conn.id} && sys.conns == s.conns - {conn.id}
      ensures Alive(sys, {}) && ArraysApart()
    {
      hide TcpConnection.Value, TcpConnection.Plumbed;
      assert ArraysIn(objects) == ArraysIn(o) - {conn.id};
    }

    lemma ReleasedPlaced(s: Sys, o: Objects, conn: TcpConnection)
      requires Listed(o, active, s.active) && objects == o - {conn.id} && (forall a :: a in s.active ==> a.id != conn.id)
      requires handling != null ==> handling.id != conn.id && handling.id in o && o[handling.id] == handling
      requires closing != null ==> closing.id != conn.id && closing.id in o && o[closing.id] == closing
      requires sys.turn == if handling == null then NoTurn else ReactorSpec.Turn(handling.id, handling.channel.revents, part)
      requires sys.closing == if closing == null then NoClosing else ReactorSpec.Closing(closing.id)
      requires sys.active == s.active && Bound(objects, functors, sys.batch)
      ensures Placed(sys)
    {
      hide Bound;
      forall i | 0 <= i < |active| ensures s.active[i].id in objects { assert s.active[i] in s.active; }
    }

    // ----- what holds of the objects after any calls -----

    /**
     Whatever was called before: the bytes this connection handed to the kernel and
     those in its output buffer are those send() accepted; what callbacks took and
     what is in its input buffer is what arrived; FIN is last; it is closed at most
     once; and the kernel watches it exactly while it is open.
     */
    lemma ConnectionPromise(conn: TcpConnection)
      requires Valid() && Holds(conn)
      ensures conn.inputBuffer.Valid() && conn.outputBuffer.Valid()
      ensures Written(conn.calls) + conn.outputBuffer.Contents() == conn.accepted
      ensures conn.consumed + conn.inputBuffer.Contents() == conn.received
      ensures forall i :: 0 <= i < |conn.calls| && conn.calls[i].Fin? ==> i == |conn.calls| - 1 && Written(conn.calls) == conn.accepted
      ensures conn.closes <= 1 && (conn.closes == 1 <==> conn.state.Disconnected?) && (conn.state.Disconnected? ==> conn.channel.events == NONE_EVENT)
      ensures conn.wantsHigh ==> conn.highs == Crossings(conn.lengths, conn.highWaterMark)
      ensures conn.channel.fd in poller.kernel <==> conn.state.Connected? || conn.state.Disconnecting?
    {
      hide SysInv, Reachable, Settled, Placed, Alive, ArraysApart, Hooked, Linked, Consistent, Written, Crossings, LoopRuns.Inv;
      Pieces();
      Owns(conn);
      IsAlive(conn);
      HookedParts(sys);
      EveryConnection(sys, conn.id);
      KernelWatchesOpen(sys, conn.id);
      FdKnown(conn);
      assert conn.Plumbed();
    }

    /**
     Whatever events the calls made: the state, the bytes in both buffers and those
     handed on are as the account of these events says, and so are the connection's
     functors, high-water callbacks among them.
     */
    lemma AccountPromise(conn: TcpConnection, run: seq<Event>)
      requires Valid() && Holds(conn) && Legal(BOOT, run) && Exec(BOOT, run) == Next(sys)
      ensures conn.inputBuffer.Valid() && conn.outputBuffer.Valid()
      ensures var a := ReactorAccounts.AccountOf(BOOT, run, conn.id, ReactorAccounts.UNBORN);
              && conn.state == a.state && a.gone <= |a.sent| && a.taken <= |a.got|
              && conn.accepted == a.sent && conn.outputBuffer.Contents() == a.sent[a.gone..]
              && conn.received == a.got && conn.inputBuffer.Contents() == a.got[a.taken..]
              && (a.fin <==> conn.calls != [] && conn.calls[|conn.calls| - 1].Fin?)
      ensures ReactorFunctors.KindsOf(ReactorFunctors.Done(BOOT, run) + sys.batch + sys.pending, conn.id)
              == ReactorFunctors.FunctorsOf(BOOT, run, conn.id, ReactorAccounts.UNBORN)
      ensures conn.wantsHigh ==>
                ReactorFunctors.HighCount(ReactorFunctors.FunctorsOf(BOOT, run, conn.id, ReactorAccounts.UNBORN)) == Crossings(conn.lengths, conn.highWaterMark)
      ensures |functors| == |sys.batch| && forall i :: 0 <= i < |functors| ==> sys.batch[i] == Task(functors[i].conn.id, functors[i].kind)
      ensures |loop.pendingFunctors| == |sys.pending|
      ensures forall i :: 0 <= i < |loop.pendingFunctors| ==> sys.pending[i] == Task(loop.pendingFunctors[i].conn.id, loop.pendingFunctors[i].kind)
    {
      hide *;
      Pieces();
      Owns(conn);
      IsAlive(conn);
      HookedParts(sys);
      PlacedParts(sys);
      ReactorAccounts.AccountsHold(run, conn.id);
      ReactorFunctors.FunctorsAreThoseDue(run, conn.id);
      ReactorFunctors.HighWatersAreCrossings(run, conn.id);
      AccountOnObject(conn, ReactorAccounts.AccountOf(BOOT, run, conn.id, ReactorAccounts.UNBORN));
      BoundIs(functors, sys.batch);
      BoundIs(loop.pendingFunctors, sys.pending);
    }

    lemma AccountOnObject(conn: TcpConnection, a: ReactorAccounts.Account)
      requires conn.Plumbed() && ReactorAccounts.Matches(conn.Value(), a)
      ensures conn.inputBuffer.Valid() && conn.outputBuffer.Valid()
      ensures && conn.state == a.state && a.gone <= |a.sent| && a.taken <= |a.got|
              && conn.accepted == a.sent && conn.outputBuffer.Contents() == a.sent[a.gone..]
              && conn.received == a.got && conn.inputBuffer.Contents() == a.got[a.taken..]
              && (a.fin <==> conn.calls != [] && conn.calls[|conn.calls| - 1].Fin?)
      ensures conn.Value().wantsHigh == conn.wantsHigh && conn.Value().lengths == conn.lengths && conn.Value().mark == conn.highWaterMark
    {
    }

    lemma BoundIs(fs: seq<Functor>, ts: seq<Task>)
      requires Bound(objects, fs, ts)
      ensures |fs| == |ts| && forall i :: 0 <= i < |fs| ==> ts[i] == Task(fs[i].conn.id, fs[i].kind)
    {
    }

    lemma FdKnown(conn: TcpConnection)
      requires poller.Valid() && Linked(poller.View(), sys.poller, Names(objects)) && Holds(conn) && conn.id in sys.poller.chans
      ensures conn.channel.fd == sys.poller.chans[conn.id].fd && poller.kernel.Keys == sys.poller.kernel.Keys
    {
      NameOf(objects, conn);
      InBoth(poller.View(), sys.poller, Names(objects), conn.id);
      assert poller.chans[conn.channel] == conn.channel.Value();
    }

    /** connections_ is what was created minus what was removed, and each removed connection is destroyed or about to be, once. */
    lemma ServerPromise(id: ConnId)
      requires Valid()
      ensures id in server.connections <==> 1 <= id < server.nextConnId && id !in sys.removed
      ensures id in sys.removed <==> id in sys.destroyed || Owed(sys, id) == 1
      ensures id in sys.destroyed && id in objects ==>
                objects[id].channel.fd !in poller.channels && objects[id].channel.fd !in poller.kernel
    {
      hide SysInv, Reachable, Settled, Placed, Alive, ArraysApart, Hooked, Linked, Consistent, Owed, LoopRuns.Inv;
      Pieces();
      ServerReady();
      HookedParts(sys);
      ServerMap(sys, id);
      DestroyedOnce(sys, id);
      if id in sys.destroyed && id in objects {
        Owns(objects[id]);
        DestroyedIsForgotten(sys, id, 0);
        FdKnown(objects[id]);
        SameChannels();
      }
    }

    lemma SameChannels()
      requires Linked(poller.View(), sys.poller, Names(objects))
      ensures poller.channels.Keys == sys.poller.channels.Keys
    {
    }
  }

  lemma BoundConcat(objects: Objects, fs: seq<Functor>, ts: seq<Task>, conn: TcpConnection, kinds: seq<Kind>)
    requires Bound(objects, fs, ts) && conn.id in objects && objects[conn.id] == conn
    ensures Bound(objects, fs + Bind(conn, kinds), ts + Tasks(conn.id, kinds))
  {
  }

  /** What a handler did to its connection, the functor queue and the poller is what the machine does. */
  lemma EffectOk(objects: Objects, s: Sys, conn: TcpConnection, e: Effect, h: Host, u: Host)
    requires conn.id in objects && objects[conn.id] == conn && conn.id in s.conns && !e.aborted && Took(h, conn, e, u)
    requires Linked(h.poller, s.poller, Names(objects)) && Bound(objects, h.pending, s.pending)
    ensures Apply(s, conn.id, e).Next?
    ensures var t := Apply(s, conn.id, e).s;
            && Linked(u.poller, t.poller, Names(objects)) && Bound(objects, u.pending, t.pending)
            && t == s.(poller := t.poller, conns := s.conns[conn.id := u.conn], pending := t.pending,
                       closing := if e.closed > 0 then ReactorSpec.Closing(conn.id) else s.closing)
  {
    assert Names(objects)[conn.id] == conn.channel;
    PushLinked(h.poller, s.poller, Names(objects), conn.id, e.pushes);
    BoundConcat(objects, h.pending, s.pending, conn, e.queued);
    hide PushAll, Linked, Bound;
  }

  lemma TookKeeps(h: Host, conn: TcpConnection, e: Effect, u: Host)
    requires Took(h, conn, e, u)
    ensures u.conn == e.conn && u.stage == h.stage && u.batch == h.batch && u.reported == h.reported
  {
  }

  predicate ByUser(act: Act) {
    act.Sending? || act.ShuttingDown? || act.ForceClosing? || act.Retrieving?
  }

  function UserEvent(id: ConnId, act: Act): Event
    requires ByUser(act)
  {
    match act
    case Sending(data, w) => Event.UserSend(id, data, w)
    case ShuttingDown => Event.UserShutdown(id)
    case ForceClosing => Event.UserForceClose(id)
    case Retrieving(n) => Event.UserRetrieve(id, n)
  }

  lemma UserStep(s: Sys, id: ConnId, revents: Mask, act: Act)
    requires SysInv(s) && InCallbacks(s) && id in s.conns && Fits(s.conns[id], act) && ByUser(act)
    ensures var ev, e := UserEvent(id, act), EffectOf(s.conns[id], revents, act);
            && Enabled(s, ev) && Step(s, ev) == Apply(s, id, e) && (e.aborted ==> Step(s, ev) == Died(SocketError))
    ensures var o := Apply(s, id, EffectOf(s.conns[id], revents, act));
            o.Next? ==> SysInv(o.s) && o.s.active == s.active && o.s.turn == s.turn && o.s.batch == s.batch && o.s.closing == s.closing
  {
    EffectIs(s.conns[id], revents, act);
    UserEnabled(s, id, act);
    ApplyFields(s, id, EffectOf(s.conns[id], revents, act));
    hide SysInv, Apply, EffectOf, Enabled;
    StepInv(s, UserEvent(id, act));
  }

  lemma UserEnabled(s: Sys, id: ConnId, act: Act)
    requires InCallbacks(s) && id in s.conns && Fits(s.conns[id], act) && ByUser(act)
    ensures Enabled(s, UserEvent(id, act))
  {
  }

  lemma ApplyFields(s: Sys, id: ConnId, e: Effect)
    ensures e.aborted ==> Apply(s, id, e) == Died(SocketError)
    ensures Apply(s, id, e).Next? ==>
              var t := Apply(s, id, e).s;
              && t.active == s.active && t.turn == s.turn && t.batch == s.batch && t.phase == s.phase
              && t.closing == if e.closed > 0 then ReactorSpec.Closing(id) else s.closing
  {
    hide PushAll;
  }

  lemma TestStep(s: Sys, part: Part, r: ReadResult, w: WriteResult)
    requires SysInv(s) && s.turn.Turn? && s.turn.part == part && s.closing == NoClosing && s.turn.id in s.conns
    requires Fits(s.conns[s.turn.id], Test(part, r, w))
    ensures var ev, id := Event.Handle(r, w), s.turn.id;
            var e := EffectOf(s.conns[id], s.turn.revents, Test(part, r, w));
            && Enabled(s, ev) && (e.aborted ==> Step(s, ev) == Died(SocketError))
            && (Apply(s, id, e).Next? ==>
                  var t := Apply(s, id, e).s;
                  && Step(s, ev) == Next(t.(turn := NextPart(s.turn))) && SysInv(t.(turn := NextPart(s.turn)))
                  && t.active == s.active && t.turn == s.turn && t.batch == s.batch
                  && t.closing == if e.closed > 0 then ReactorSpec.Closing(id) else s.closing)
  {
    var e := EffectOf(s.conns[s.turn.id], s.turn.revents, Test(part, r, w));
    EffectIs(s.conns[s.turn.id], s.turn.revents, Test(part, r, w));
    ApplyFields(s, s.turn.id, e);
    ApplyTurn(s, s.turn.id, e, NextPart(s.turn));
    HandleEnabled(s, r, w);
    hide SysInv, Apply, EffectOf, Enabled, ChannelSpec.RunPart;
    StepInv(s, Event.Handle(r, w));
  }

  lemma HandleEnabled(s: Sys, r: ReadResult, w: WriteResult)
    requires s.turn.Turn? && s.closing == NoClosing && s.turn.id in s.conns && Fits(s.conns[s.turn.id], Test(s.turn.part, r, w))
    ensures Enabled(s, Event.Handle(r, w))
  {
  }

  /** A handler does not see the turn. */
  lemma ApplyTurn(s: Sys, id: ConnId, e: Effect, turn: ReactorSpec.Turn)
    ensures Apply(s, id, e).Died? ==> Apply(s.(turn := turn), id, e) == Apply(s, id, e)
    ensures Apply(s, id, e).Next? ==> Apply(s.(turn := turn), id, e) == Next(Apply(s, id, e).s.(turn := turn))
  {
    hide PushAll;
  }

  lemma FiledInOrder(s: Sys)
    requires SysInv(s)
    ensures forall id :: id in s.server ==> id < s.nextId
  {
  }

  lemma CloseStep(s: Sys)
    requires SysInv(s) && s.closing.Closing? && InCallbacks(s)
    ensures Enabled(s, Event.CloseCallback) && Step(s, Event.CloseCallback) == Next(ReactorSpec.RemoveConnection(s))
    ensures SysInv(ReactorSpec.RemoveConnection(s))
  {
    hide SysInv;
    RemoveConnectionInv(s);
  }

  lemma CloseLinks(objects: Objects, conn: TcpConnection, s: Sys, connections: Objects, nextConnId: nat, pending: seq<Functor>)
    requires s.closing == ReactorSpec.Closing(conn.id) && conn.id in objects && objects[conn.id] == conn
    requires Files(connections, nextConnId, objects, s) && Bound(objects, pending, s.pending)
    ensures var t := ReactorSpec.RemoveConnection(s);
            && Files(connections - {conn.id}, nextConnId, objects, t) && Bound(objects, pending + [Functor(conn, Destroy)], t.pending)
            && t.conns == s.conns && t.poller == s.poller && t.phase == s.phase
  {
  }

  lemma NextStep(s: Sys)
    requires SysInv(s) && Enabled(s, Event.NextChannel)
    ensures s.active != [] && s.closing == NoClosing && Step(s, Event.NextChannel) == NextChannelStep(s) && NextChannelStep(s).Next?
    ensures var t := NextChannelStep(s).s;
            && SysInv(t)
            && t == s.(active := s.active[1..], turn := ReactorSpec.Turn(s.active[0].id, s.active[0].revents, ClosePart))
  {
    NextChannelInv(s);
    hide SysInv;
  }

  lemma DoneStep(s: Sys)
    requires SysInv(s) && Enabled(s, Event.EndFunctors)
    ensures Step(s, Event.EndFunctors) == Next(s.(phase := Polling)) && SysInv(s.(phase := Polling))
    ensures s.phase.Functors? && s.batch == []
  {
    EndFunctorsInv(s);
    hide SysInv;
  }

  lemma SwapStep(s: Sys)
    requires SysInv(s) && Enabled(s, Event.EndDispatch)
    ensures Step(s, Event.EndDispatch) == Next(s.(phase := Functors, batch := s.pending, pending := []))
    ensures SysInv(s.(phase := Functors, batch := s.pending, pending := []))
    ensures s.phase.Dispatching?
  {
    EndDispatchInv(s);
    hide SysInv;
  }

  lemma PollEvent(s: Sys, ready: seq<(nat, Mask)>)
    requires SysInv(s) && Enabled(s, Event.PollReturns(ready))
    ensures (forall e :: e in ready ==> e.0 in s.poller.kernel) && (forall i, j :: 0 <= i < j < |ready| ==> ready[i].0 != ready[j].0)
    ensures s.turn == NoTurn && s.phase == Phase.Polling
    ensures Step(s, Event.PollReturns(ready)) == Next(PollStep(s, ready)) && SysInv(PollStep(s, ready))
  {
    PollInv(s, ready);
  }

  lemma Polled(s: Sys, ready: seq<(nat, Mask)>)
    requires forall e :: e in ready ==> e.0 in s.poller.kernel
    ensures var t := PollStep(s, ready);
            && t.conns == s.conns && t.nextId == s.nextId && t.server == s.server && t.poller == s.poller
            && t.pending == s.pending && t.phase == Phase.Dispatching && t.active == Entries(s, ready)
  {
  }

  /** connectDestroyed in the machine. */
  lemma DestroyOk(objects: Objects, s: Sys, conn: TcpConnection, h: Host, mid: Host, u: Host)
    requires conn.id in objects && objects[conn.id] == conn && conn.id in s.conns && h.conn == s.conns[conn.id]
    requires Took(h, conn, ConnectDestroyed(h.conn), mid) && conn.channel in mid.poller.chans
    requires RemoveChannel(mid.poller, conn.channel) == PollerSpec.Ok(u.poller) && u == mid.(poller := u.poller)
    requires Linked(h.poller, s.poller, Names(objects)) && Bound(objects, h.pending, s.pending)
    ensures DestroyStep(s, conn.id).Next?
    ensures var t := DestroyStep(s, conn.id).s;
            && Linked(u.poller, t.poller, Names(objects)) && Bound(objects, u.pending, t.pending)
            && t == s.(poller := t.poller, conns := s.conns[conn.id := u.conn], pending := t.pending, destroyed := s.destroyed + [conn.id])
            && u.stage == h.stage && u.batch == h.batch && u.reported == h.reported
  {
    var e := ConnectDestroyed(h.conn);
    QuietEffects(h.conn);
    hide Took, Apply, ConnectDestroyed, Linked, Bound, RemoveChannel, Names;
    EffectOk(objects, s, conn, e, h, mid);
    TookKeeps(h, conn, e, mid);
    NameOf(objects, conn);
    var t := Apply(s, conn.id, e).s;
    InBoth(mid.poller, t.poller, Names(objects), conn.id);
    RemoveLinked(mid.poller, t.poller, Names(objects), conn.id);
  }

  lemma NameOf(objects: Objects, conn: TcpConnection)
    requires conn.id in objects && objects[conn.id] == conn
    ensures conn.id in Names(objects) && Names(objects)[conn.id] == conn.channel
  {
  }

  /** What a functor does, the batch apart. */
  function Body(s: Sys): Outcome
    requires s.batch != [] && s.batch[0].id in s.conns
  {
    var t := s.batch[0];
    match t.kind
    case Destroy => DestroyStep(s, t.id)
    case ForceClose => Apply(s, t.id, ConnectionSpec.ForceCloseInLoop(s.conns[t.id]))
    case _ => Next(s)
  }

  lemma BodyStep(s: Sys, revents: Mask)
    requires SysInv(s) && Enabled(s, Event.RunTask) && s.batch != [] && s.batch[0].id in s.conns
    ensures Body(s).Next?
    ensures var t := Body(s).s;
            && Step(s, Event.RunTask) == Next(t.(batch := s.batch[1..])) && SysInv(t.(batch := s.batch[1..]))
            && t.active == s.active && t.turn == s.turn && t.batch == s.batch && t.phase == s.phase
    ensures var id, kind := s.batch[0].id, s.batch[0].kind;
            var e := EffectOf(s.conns[id], revents, ForceClosingInLoop);
            && (kind.Destroy? ==> Body(s) == DestroyStep(s, id) && Body(s).s.closing == s.closing)
            && (kind.ForceClose? ==>
                  && Body(s) == Apply(s, id, e) && !e.aborted
                  && Body(s).s.closing == if e.closed > 0 then ReactorSpec.Closing(id) else s.closing)
            && (!kind.Destroy? && !kind.ForceClose? ==> Body(s) == Next(s))
    ensures s.phase == Phase.Functors
  {
    BodyPops(s);
    EffectIs(s.conns[s.batch[0].id], revents, ForceClosingInLoop);
    hide SysInv, Apply, EffectOf, DestroyStep, Enabled;
    RunPhase(s);
    StepInv(s, Event.RunTask);
  }

  lemma RunPhase(s: Sys)
    requires Enabled(s, Event.RunTask)
    ensures s.phase == Phase.Functors && Step(s, Event.RunTask) == RunTaskStep(s)
  {
    hide RunTaskStep;
  }

  /** Handlers do not see the batch. */
  lemma BodyPops(s: Sys)
    requires s.batch != [] && s.batch[0].id in s.conns
    ensures Body(s).Died? ==> RunTaskStep(s) == Body(s) && Body(s).why != SocketError
    ensures Body(s).Next? ==>
              var t := Body(s).s;
              && RunTaskStep(s) == Next(t.(batch := s.batch[1..]))
              && t.active == s.active && t.turn == s.turn && t.batch == s.batch && t.phase == s.phase
    ensures Body(s).Next? && s.batch[0].kind.ForceClose? ==>
              var e := ConnectionSpec.ForceCloseInLoop(s.conns[s.batch[0].id]);
              !e.aborted && Body(s).s.closing == if e.closed > 0 then ReactorSpec.Closing(s.batch[0].id) else s.closing
    ensures Body(s).Next? && s.batch[0].kind.Destroy? ==> Body(s).s.closing == s.closing
  {
    var id, c, rest := s.batch[0].id, s.conns[s.batch[0].id], s.batch[1..];
    QuietEffects(c);
    ApplyBatch(s, id, ConnectionSpec.ForceCloseInLoop(c), rest);
    ApplyBatch(s, id, ConnectDestroyed(c), rest);
    ApplyFields(s, id, ConnectionSpec.ForceCloseInLoop(c));
    ApplyFields(s, id, ConnectDestroyed(c));
    hide Apply, ConnectDestroyed, ConnectionSpec.ForceCloseInLoop, RemoveChannel;
  }

  lemma QuietEffects(c: Conn)
    ensures !ConnectionSpec.ForceCloseInLoop(c).aborted && !ConnectDestroyed(c).aborted && ConnectDestroyed(c).closed == 0
  {
  }

  lemma ApplyBatch(s: Sys, id: ConnId, e: Effect, batch: seq<Task>)
    ensures Apply(s, id, e).Died? ==> Apply(s.(batch := batch), id, e) == Apply(s, id, e) && (!e.aborted ==> Apply(s, id, e).why != SocketError)
    ensures Apply(s, id, e).Next? ==> Apply(s.(batch := batch), id, e) == Next(Apply(s, id, e).s.(batch := batch))
  {
    hide PushAll;
  }

  lemma RunKnown(s: Sys)
    requires SysInv(s) && Enabled(s, Event.RunTask)
    ensures s.batch != [] && s.batch[0].id in s.conns && s.closing == NoClosing && InCallbacks(s)
  {
    TaskOwner(s);
    hide SysInv;
  }

  lemma NamesMore(o: Objects, conn: TcpConnection)
    requires conn.id !in o
    ensures Names(o[conn.id := conn]) == Names(o)[conn.id := conn.channel]
    ensures Names(o[conn.id := conn]).Values == Names(o).Values + {conn.channel}
  {
    var names := Names(o)[conn.id := conn.channel];
    assert Names(o[conn.id := conn]) == names;
    forall x | x in Names(o).Values ensures x in names.Values {
      var id :| id in Names(o) && Names(o)[id] == x;
      assert names[id] == x;
    }
    assert names[conn.id] == conn.channel;
  }

  /** The machine after accept(). */
  function Accepted(s: Sys, fd: nat, mark: nat, wantsHigh: bool, wantsComplete: bool): Sys {
    var e := ConnectEstablished(Fresh(mark, wantsHigh, wantsComplete));
    s.(nextId := s.nextId + 1, server := s.server + {s.nextId}, conns := s.conns[s.nextId := e.conn],
       poller := var r := SetEvents(AddChan(s.poller, s.nextId, fd), s.nextId, READ_EVENT); if r.Ok? then r.p else s.poller)
  }

  lemma AcceptStep(s: Sys, fd: nat, mark: nat, wantsHigh: bool, wantsComplete: bool)
    requires SysInv(s) && Enabled(s, Event.Accept(fd, mark, wantsHigh, wantsComplete))
    ensures Step(s, Event.Accept(fd, mark, wantsHigh, wantsComplete)) == Next(Accepted(s, fd, mark, wantsHigh, wantsComplete))
    ensures SysInv(Accepted(s, fd, mark, wantsHigh, wantsComplete))
    ensures s.turn == NoTurn && s.closing == NoClosing && s.phase == Phase.Dispatching && FdFree(s.poller, fd) && s.nextId !in s.conns
  {
    var newborn := Fresh(mark, wantsHigh, wantsComplete);
    AcceptEnabled(s, fd, mark, wantsHigh, wantsComplete);
    NextIdIsNew(s);
    SysParts(s);
    NewbornServes(newborn, mark, wantsHigh, wantsComplete);
    assert ConnectEstablished(newborn).pushes == [READ_EVENT] by { assert NONE_EVENT + READ_EVENT == READ_EVENT; }
    hide SysInv, Consistent, ConnInv, PushAll, SetEvents, FdFree, Enabled;
    NewConnectionInv(s, fd, mark, wantsHigh, wantsComplete);
    NewChannel(s.poller, s.nextId, fd, READ_EVENT);
    NewConnectionApplied(s, fd, mark, wantsHigh, wantsComplete);
    hide ConnectEstablished, NewConnection;
    AddedChan(s.poller, s.nextId, fd);
    PushOne(AddChan(s.poller, s.nextId, fd), s.nextId, READ_EVENT);
  }

  lemma AddedChan(p: Poller<ConnId>, id: ConnId, fd: nat)
    ensures id in AddChan(p, id, fd).chans
  {
  }

  lemma AcceptEnabled(s: Sys, fd: nat, mark: nat, wantsHigh: bool, wantsComplete: bool)
    requires Enabled(s, Event.Accept(fd, mark, wantsHigh, wantsComplete))
    ensures s.turn == NoTurn && s.closing == NoClosing && s.phase == Phase.Dispatching && FdFree(s.poller, fd)
    ensures Step(s, Event.Accept(fd, mark, wantsHigh, wantsComplete)) == NewConnection(s, fd, mark, wantsHigh, wantsComplete)
  {
    hide FdFree, NewConnection;
  }

  lemma AcceptedLinks(o: Objects, conn: TcpConnection, s: Sys, fd: nat, mark: nat, wantsHigh: bool, wantsComplete: bool, p: Poller<Channel>, q: Poller<Channel>,
                      connections: Objects, pending: seq<Functor>, functors: seq<Functor>)
    requires Linked(p, s.poller, Names(o)) && conn.id == s.nextId && conn.id !in o && conn.channel !in p.chans
    requires SetEvents(AddChan(p, conn.channel, fd), conn.channel, READ_EVENT) == PollerSpec.Ok(q)
    requires Files(connections, s.nextId, o, s) && Bound(o, pending, s.pending) && Bound(o, functors, s.batch)
    ensures var t, o1 := Accepted(s, fd, mark, wantsHigh, wantsComplete), o[conn.id := conn];
            && Linked(q, t.poller, Names(o1)) && Files(connections[conn.id := conn], s.nextId + 1, o1, t)
            && Bound(o1, pending, t.pending) && Bound(o1, functors, t.batch)
  {
    LinkMore(o, conn, s.poller, fd, p, q);
    BoundMore(o, conn, pending, s.pending);
    BoundMore(o, conn, functors, s.batch);
    FilesMore(connections, o, conn, s, Accepted(s, fd, mark, wantsHigh, wantsComplete));
    AcceptedFields(s, fd, mark, wantsHigh, wantsComplete);
    hide Linked, Bound, Files, SetEvents, AddChan, Accepted;
  }

  lemma BoundMore(o: Objects, conn: TcpConnection, fs: seq<Functor>, ts: seq<Task>)
    requires Bound(o, fs, ts) && conn.id !in o
    ensures Bound(o[conn.id := conn], fs, ts)
  {
  }

  lemma FilesMore(connections: Objects, o: Objects, conn: TcpConnection, s: Sys, t: Sys)
    requires Files(connections, s.nextId, o, s) && conn.id == s.nextId && conn.id !in o
    requires t.nextId == s.nextId + 1 && t.server == s.server + {s.nextId}
    ensures Files(connections[conn.id := conn], s.nextId + 1, o[conn.id := conn], t)
  {
  }

  lemma LinkMore(o: Objects, conn: TcpConnection, r: Poller<ConnId>, fd: nat, p: Poller<Channel>, q: Poller<Channel>)
    requires Linked(p, r, Names(o)) && conn.id !in o && conn.channel !in p.chans
    requires SetEvents(AddChan(p, conn.channel, fd), conn.channel, READ_EVENT) == PollerSpec.Ok(q)
    ensures SetEvents(AddChan(r, conn.id, fd), conn.id, READ_EVENT).Ok?
    ensures Linked(q, SetEvents(AddChan(r, conn.id, fd), conn.id, READ_EVENT).p, Names(o[conn.id := conn]))
  {
    NamesMore(o, conn);
    AddLinked(p, r, Names(o), conn.channel, conn.id, fd);
    hide Linked, SetEvents, AddChan;
    SetLinked(AddChan(p, conn.channel, fd), AddChan(r, conn.id, fd), Names(o[conn.id := conn]), conn.id, READ_EVENT);
  }

  lemma AcceptedFields(s: Sys, fd: nat, mark: nat, wantsHigh: bool, wantsComplete: bool)
    ensures var t, c := Accepted(s, fd, mark, wantsHigh, wantsComplete), ConnectEstablished(Fresh(mark, wantsHigh, wantsComplete)).conn;
            && t.conns == s.conns[s.nextId := c] && t.conns.Keys == s.conns.Keys + {s.nextId} && t.phase == s.phase && t.pending == s.pending
            && t.active == s.active && t.turn == s.turn && t.closing == s.closing && t.batch == s.batch
            && t.nextId == s.nextId + 1 && t.server == s.server + {s.nextId}
            && (SetEvents(AddChan(s.poller, s.nextId, fd), s.nextId, READ_EVENT).Ok? ==>
                  t.poller == SetEvents(AddChan(s.poller, s.nextId, fd), s.nextId, READ_EVENT).p)
  {
    hide ConnectEstablished, SetEvents, AddChan;
  }

  lemma WiredMore(o: Objects, conn: TcpConnection, loop: EventLoop<Functor>, poller: EPollPoller)
    requires Wired(o, loop, poller) && Newcomer(o, conn) && conn.loop == loop && conn.channel.poller == poller
    ensures Wired(o[conn.id := conn], loop, poller)
  {
  }

  lemma OwnedMore(o: Objects, conn: TcpConnection, owner: map<Channel, TcpConnection>)
    requires Owned(o, owner) && Newcomer(o, conn) && conn.id !in o
    ensures Owned(o[conn.id := conn], owner[conn.channel := conn])
  {
    NamesMore(o, conn);
  }

  lemma ReleaseStepOk(s: Sys, id: ConnId)
    requires SysInv(s) && Enabled(s, Event.Release(id))
    ensures Step(s, Event.Release(id)) == Next(s.(conns := s.conns - {id}, poller := DropChan(s.poller, id)))
    ensures SysInv(s.(conns := s.conns - {id}, poller := DropChan(s.poller, id)))
    ensures id in s.poller.chans && s.poller.chans[id].index.New? && id !in s.server
    ensures (forall t :: t in s.batch || t in s.pending ==> t.id != id) && (forall a :: a in s.active ==> a.id != id)
    ensures (s.turn.Turn? ==> s.turn.id != id) && (s.closing.Closing? ==> s.closing.id != id)
  {
    hide SysInv, DropChan, Unreferenced, Gone;
    ReleaseIs(s, id);
    ReleaseInv(s, id);
    UnreferencedIsGone(s, id);
    GoneIsIdle(s, id);
  }

  lemma ReleaseIs(s: Sys, id: ConnId)
    requires Enabled(s, Event.Release(id))
    ensures id in s.conns && Unreferenced(s, id) && Step(s, Event.Release(id)) == ReleaseStep(s, id)
  {
    hide Unreferenced, ReleaseStep;
  }

  lemma GoneIsIdle(s: Sys, id: ConnId)
    requires SysInv(s) && id in s.conns && id in s.poller.chans && Gone(s, id) && Unreferenced(s, id)
    ensures (forall t :: t in s.batch || t in s.pending ==> t.id != id) && (forall a :: a in s.active ==> a.id != id)
    ensures s.poller.chans[id].index.New? && id !in s.server
    ensures (s.turn.Turn? ==> s.turn.id != id) && (s.closing.Closing? ==> s.closing.id != id)
  {
    forall t | t in s.batch || t in s.pending ensures t.id != id { assert t in Queue(s); }
    forall a | a in s.active ensures a.id != id { assert Open(s.conns[a.id]); }
  }

  lemma NamesLess(o: Objects, conn: TcpConnection)
    requires conn.id in o && o[conn.id] == conn
    ensures Names(o - {conn.id}) == Names(o) - {conn.id}
  {
  }

  lemma LinkLess(o: Objects, conn: TcpConnection, p: Poller<Channel>, q: Poller<ConnId>)
    requires Linked(p, q, Names(o)) && Consistent(q) && conn.id in o && o[conn.id] == conn && conn.id in q.chans && q.chans[conn.id].index.New?
    ensures Linked(DropChan(p, conn.channel), DropChan(q, conn.id), Names(o - {conn.id}))
  {
    NamesLess(o, conn);
    NewIsAbsent(q, conn.id);
    assert Names(o)[conn.id] == conn.channel;
    hide Linked, Consistent, DropChan;
    DropLinked(p, q, Names(o), conn.id);
  }

  lemma NewIsAbsent(q: Poller<ConnId>, id: ConnId)
    requires Consistent(q) && id in q.chans && q.chans[id].index.New?
    ensures forall fd :: fd in q.channels ==> q.channels[fd] != id
    ensures forall fd :: fd in q.kernel ==> q.kernel[fd].ptr != id
  {
    assert Tracks(q, id);
  }

  lemma WiredLess(o: Objects, conn: TcpConnection, loop: EventLoop<Functor>, poller: EPollPoller)
    requires Wired(o, loop, poller)
    ensures Wired(o - {conn.id}, loop, poller)
  {
  }

  lemma OwnedLess(o: Objects, conn: TcpConnection, owner: map<Channel, TcpConnection>, loop: EventLoop<Functor>, poller: EPollPoller)
    requires Owned(o, owner) && Wired(o, loop, poller) && conn.id in o && o[conn.id] == conn
    ensures Owned(o - {conn.id}, owner - {conn.channel})
  {
    NamesLess(o, conn);
    assert (Names(o) - {conn.id}).Values == Names(o).Values - {conn.channel} by {
      forall x | x in Names(o).Values && x != conn.channel ensures x in (Names(o) - {conn.id}).Values {
        var id :| id in Names(o) && Names(o)[id] == x;
        assert (Names(o) - {conn.id})[id] == x;
      }
    }
  }

  lemma BoundLess(o: Objects, conn: TcpConnection, fs: seq<Functor>, ts: seq<Task>)
    requires Bound(o, fs, ts) && forall t :: t in ts ==> t.id != conn.id
    ensures Bound(o - {conn.id}, fs, ts)
  {
    forall i | 0 <= i < |fs| ensures fs[i].conn.id != conn.id { assert ts[i] in ts; }
  }

  lemma FilesLess(connections: Objects, nextConnId: nat, o: Objects, conn: TcpConnection, s: Sys, t: Sys)
    requires Files(connections, nextConnId, o, s) && conn.id !in s.server && t.nextId == s.nextId && t.server == s.server
    ensures Files(connections, nextConnId, o - {conn.id}, t)
  {
  }

  /** activeChannels_ as epoll_wait fills it. */
  function Entries(s: Sys, ready: seq<(nat, Mask)>): seq<Ready> {
    if forall e :: e in ready ==> e.0 in s.poller.kernel then FillActive(s.poller, ready) else []
  }
}
