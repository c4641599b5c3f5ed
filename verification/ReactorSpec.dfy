/**
 One event loop with its poller, the TCP server and all its connections, as a
 state machine: Channel.cpp, EPollPoller.cpp, TcpConnection.cpp, TcpServer.cpp
 and the phases of EventLoop::loop in EventLoop.cpp.  User callbacks are runs of
 User* events wherever the loop thread executes callbacks.
 */
module ReactorSpec {
  import opened Kernel
  import opened PollerSpec
  import opened ConnectionSpec
  import opened ChannelSpec

  type ConnId = nat   // the number in a connection's name

  /** A functor bound to a connection; it holds a shared_ptr. */
  datatype Task = Task(id: ConnId, kind: Kind)

  /** An entry of activeChannels_ with its revents_. */
  datatype Ready = Ready(id: ConnId, revents: Mask)

  /** The channel whose handleEvent is running, and the test it is at. */
  datatype Turn = NoTurn | Turn(id: ConnId, revents: Mask, part: Part)

  /** A handleClose between its connectionCallback_ and its closeCallback_. */
  datatype Closing = NoClosing | Closing(id: ConnId)

  datatype Phase = Polling | Dispatching | Functors

  datatype Sys = Sys(
    poller: Poller<ConnId>,
    conns: map<ConnId, Conn>,     // TcpConnection objects still referenced
    server: set<ConnId>,          // connections_
    nextId: nat,                  // nextConnId_
    phase: Phase,
    active: seq<Ready>,           // what is left of activeChannels_
    turn: Turn,
    closing: Closing,
    batch: seq<Task>,             // what is left of `functors` in doPendingFunctors
    pending: seq<Task>,           // pendingFunctors_
    removed: seq<ConnId>,         // history: removeConnectionInLoop calls
    destroyed: seq<ConnId>)       // history: connectDestroyed calls

  const BOOT := Sys(Poller(map[], map[], map[]), map[], {}, 1, Polling, [], NoTurn, NoClosing, [], [], [], [])

  datatype Event =
    | PollReturns(events: seq<(nat, Mask)>)           // epoll_wait: descriptors and revents
    | NextChannel
    | Handle(r: ReadResult, w: WriteResult)           // the next test of handleEventWithGuard
    | CloseCallback                                   // TcpServer::removeConnection
    | Accept(fd: nat, mark: nat, wantsHigh: bool, wantsComplete: bool)   // TcpServer::newConnection
    | UserSend(id: ConnId, data: Bytes, w: WriteResult)
    | UserShutdown(id: ConnId)
    | UserForceClose(id: ConnId)
    | UserRetrieve(id: ConnId, n: nat)                // inputBuffer_, as handed to messageCallback_
    | EndDispatch                                     // doPendingFunctors: swap
    | RunTask                                         // one functor
    | EndFunctors
    | Release(id: ConnId)                             // the last shared_ptr is gone

  /** LOG_ERROR on a socket call; epoll_ctl failed; a destroyed object was used. */
  datatype Death = SocketError | CtlError | Dangling

  datatype Outcome = Next(s: Sys) | Died(why: Death)

  function Queue(s: Sys): seq<Task> {
    s.batch + s.pending
  }

  /** Reference counting: nobody holds the connection any more. */
  predicate Unreferenced(s: Sys, id: ConnId) {
    && id !in s.server
    && (forall t :: t in Queue(s) ==> t.id != id)
    && (s.turn.Turn? ==> s.turn.id != id) && (s.closing.Closing? ==> s.closing.id != id)
  }

  /** What epoll_wait may report: registered descriptors, each once, with bits asked for or ERR, HUP. */
  ghost predicate Reports(p: Poller<ConnId>, events: seq<(nat, Mask)>) {
    && (forall i, j :: 0 <= i < j < |events| ==> events[i].0 != events[j].0)
    && (forall e :: e in events ==>
          && e.0 in p.kernel && e.1 != {} && e.1 <= p.kernel[e.0].mask + {ERR, HUP}
          && !ClosesTwice(e.1))
  }

  predicate InCallbacks(s: Sys) {
    !s.phase.Polling?
  }

  ghost predicate Enabled(s: Sys, ev: Event) {
    match ev
    case PollReturns(events) => s.phase.Polling? && Reports(s.poller, events)
    case NextChannel => s.phase.Dispatching? && s.turn.NoTurn? && s.closing.NoClosing? && s.active != []
    case Handle(r, w) =>
      && s.turn.Turn? && s.closing.NoClosing?
      && (s.turn.part.WritePart? && w.Wrote? && s.turn.id in s.conns ==> w.n <= |s.conns[s.turn.id].out|)
    case CloseCallback => s.closing.Closing?
    case Accept(fd, _, _, _) =>
      s.phase.Dispatching? && s.turn.NoTurn? && s.closing.NoClosing? && FdFree(s.poller, fd)
    case UserSend(id, data, w) => InCallbacks(s) && id in s.conns && (w.Wrote? ==> w.n <= |data|)
    case UserShutdown(id) => InCallbacks(s) && id in s.conns
    case UserForceClose(id) => InCallbacks(s) && id in s.conns
    case UserRetrieve(id, n) => InCallbacks(s) && id in s.conns
    case EndDispatch => s.phase.Dispatching? && s.active == [] && s.turn.NoTurn? && s.closing.NoClosing?
    case RunTask => s.phase.Functors? && s.batch != [] && s.closing.NoClosing?
    case EndFunctors => s.phase.Functors? && s.batch == [] && s.closing.NoClosing?
    case Release(id) => id in s.conns && Unreferenced(s, id)
  }

  function Tasks(id: ConnId, kinds: seq<Kind>): (ts: seq<Task>)
    ensures |ts| == |kinds| && forall i :: 0 <= i < |ts| ==> ts[i] == Task(id, kinds[i])
  {
    seq(|kinds|, i requires 0 <= i < |kinds| => Task(id, kinds[i]))
  }

  /** Carry out what a handler asked for. */
  function Apply(s: Sys, id: ConnId, e: Effect): Outcome {
    if e.aborted then Died(SocketError) else
    var r := PushAll(s.poller, id, e.pushes);
    if r.Failed? then Died(CtlError) else
    Next(s.(poller := r.p, conns := s.conns[id := e.conn],
            pending := s.pending + Tasks(id, e.queued),
            closing := if e.closed > 0 then Closing(id) else s.closing))
  }

  function NextPart(t: Turn): Turn
    requires t.Turn?
  {
    match t.part
    case ClosePart => t.(part := ErrorPart)
    case ErrorPart => t.(part := ReadPart)
    case ReadPart => t.(part := WritePart)
    case WritePart => NoTurn
  }

  function FillActive(p: Poller<ConnId>, events: seq<(nat, Mask)>): (active: seq<Ready>)
    requires forall e :: e in events ==> e.0 in p.kernel
    ensures |active| == |events|
    ensures forall i :: 0 <= i < |events| ==> active[i] == Ready(p.kernel[events[i].0].ptr, events[i].1)
  {
    seq(|events|, i requires 0 <= i < |events| => assert events[i] in events; Ready(p.kernel[events[i].0].ptr, events[i].1))
  }

  /** connectDestroyed: the state change, then channel_->remove(). */
  function DestroyStep(s: Sys, id: ConnId): Outcome
    requires id in s.conns
  {
    var o := Apply(s, id, ConnectDestroyed(s.conns[id]));
    if o.Died? || id !in o.s.poller.chans then o else
    var r := RemoveChannel(o.s.poller, id);
    if r.Failed? then Died(CtlError) else
    Next(o.s.(poller := r.p, destroyed := s.destroyed + [id]))
  }

  function RunTaskStep(s: Sys): Outcome
    requires s.batch != []
  {
    var t := s.batch[0];
    var s1 := s.(batch := s.batch[1..]);
    if t.id !in s.conns then Died(Dangling) else
    match t.kind
    case Destroy => DestroyStep(s1, t.id)
    case ForceClose => Apply(s1, t.id, ForceCloseInLoop(s.conns[t.id]))
    case WriteComplete => Next(s1)
    case HighWater(_) => Next(s1)
  }

  function PollStep(s: Sys, events: seq<(nat, Mask)>): Sys
    requires forall e :: e in events ==> e.0 in s.poller.kernel
  {
    s.(phase := Dispatching, active := FillActive(s.poller, events))
  }

  function NextChannelStep(s: Sys): Outcome
    requires s.active != []
  {
    var a := s.active[0];
    if a.id !in s.conns then Died(Dangling)
    else Next(s.(active := s.active[1..], turn := Turn(a.id, a.revents, ClosePart)))
  }

  function HandleStep(s: Sys, r: ReadResult, w: WriteResult): Outcome
    requires s.turn.Turn? && (s.turn.part.WritePart? && w.Wrote? && s.turn.id in s.conns ==> w.n <= |s.conns[s.turn.id].out|)
  {
    var t := s.turn;
    if t.id !in s.conns then Died(Dangling)
    else Apply(s.(turn := NextPart(t)), t.id, RunPart(s.conns[t.id], t.revents, t.part, r, w))
  }

  /** removeConnection and removeConnectionInLoop, on the loop thread. */
  function RemoveConnection(s: Sys): Sys
    requires s.closing.Closing?
  {
    var id := s.closing.id;
    s.(server := s.server - {id}, removed := s.removed + [id],
       pending := s.pending + [Task(id, Destroy)], closing := NoClosing)
  }

  /** newConnection, with connectEstablished run at once on the loop thread. */
  function NewConnection(s: Sys, fd: nat, mark: nat, wantsHigh: bool, wantsComplete: bool): Outcome {
    var id := s.nextId;
    Apply(s.(nextId := id + 1, server := s.server + {id}, poller := AddChan(s.poller, id, fd)),
          id, ConnectEstablished(Fresh(mark, wantsHigh, wantsComplete)))
  }

  function ReleaseStep(s: Sys, id: ConnId): Outcome {
    if id in s.poller.chans && !s.poller.chans[id].index.New? then Died(Dangling)
    else Next(s.(conns := s.conns - {id}, poller := DropChan(s.poller, id)))
  }

  ghost function Step(s: Sys, ev: Event): Outcome
    requires Enabled(s, ev)
  {
    match ev
    case PollReturns(events) => Next(PollStep(s, events))
    case NextChannel => NextChannelStep(s)
    case Handle(r, w) => HandleStep(s, r, w)
    case CloseCallback => Next(RemoveConnection(s))
    case Accept(fd, mark, wantsHigh, wantsComplete) => NewConnection(s, fd, mark, wantsHigh, wantsComplete)
    case UserSend(id, data, w) => Apply(s, id, Send(s.conns[id], data, w))
    case UserShutdown(id) => Apply(s, id, Shutdown(s.conns[id]))
    case UserForceClose(id) => Apply(s, id, ForceClosing(s.conns[id]))
    case UserRetrieve(id, n) => Apply(s, id, TakeInput(s.conns[id], n))
    case EndDispatch => Next(s.(phase := Functors, batch := s.pending, pending := []))
    case RunTask => RunTaskStep(s)
    case EndFunctors => Next(s.(phase := Polling))
    case Release(id) => ReleaseStep(s, id)
  }

  ghost predicate Legal(s: Sys, run: seq<Event>)
    decreases |run|
  {
    run == [] || (Enabled(s, run[0]) && (Step(s, run[0]).Next? ==> Legal(Step(s, run[0]).s, run[1..])))
  }

  ghost function Exec(s: Sys, run: seq<Event>): Outcome
    requires Legal(s, run)
    decreases |run|
  {
    if run == [] then Next(s)
    else if Step(s, run[0]).Next? then Exec(Step(s, run[0]).s, run[1..])
    else Step(s, run[0])
  }
}
