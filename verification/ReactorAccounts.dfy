/**
 What every connection must look like after a run, told by the run alone.  An
 account knows no buffer, mask or system call: it is kept from what users asked
 for, what the kernel answered, and which channel had its turn.
 */
module ReactorAccounts {
  import opened Kernel
  import opened PollerSpec
  import opened ConnectionSpec
  import opened ChannelSpec
  import opened ConnectionCalls
  import opened ReactorSpec
  import opened ReactorInvariant
  import opened ReactorSteps
  import opened ReactorRuns

  datatype Account = Account(
    state: ConnState,
    mark: nat, wantsHigh: bool, wantsComplete: bool,
    sent: Bytes,     // payloads of the sends that found it connected
    gone: nat,       // how many of these bytes the kernel took
    got: Bytes,      // what readv delivered
    taken: nat,      // how many of these bytes callbacks took
    fin: bool)       // the write side was shut down

  const UNBORN := Account(Connecting, 0, false, false, [], 0, [], 0, false)

  function Waiting(a: Account): int {
    |a.sent| - a.gone
  }

  predicate IsOpen(a: Account) {
    a.state == Connected || a.state == Disconnecting
  }

  /** FIN is due when nobody may send any more and everything is out. */
  function Finish(a: Account): Account {
    if a.state == Disconnecting && Waiting(a) == 0 then a.(fin := true) else a
  }

  /** The kernel is offered the bytes of a send at once only if none wait. */
  function Sends(a: Account, data: Bytes, w: WriteResult): Account {
    if a.state != Connected then a
    else a.(sent := a.sent + data, gone := if Waiting(a) == 0 && w.Wrote? then a.gone + w.n else a.gone)
  }

  function Shuts(a: Account): Account {
    if a.state == Connected then Finish(a.(state := Disconnecting)) else a
  }

  function ForceCloses(a: Account): Account {
    if IsOpen(a) then a.(state := Disconnecting) else a
  }

  function Closes(a: Account): Account {
    a.(state := Disconnected)
  }

  function Takes(a: Account, n: nat): Account {
    a.(taken := if a.taken + n < |a.got| then a.taken + n else |a.got|)
  }

  function Reads(a: Account, r: ReadResult): Account {
    if r.ReadFailed? then a else if r.data == [] then Closes(a) else a.(got := a.got + r.data)
  }

  function Writes(a: Account, w: WriteResult): Account {
    if IsOpen(a) && Waiting(a) > 0 && w.Wrote? && w.n > 0 then Finish(a.(gone := a.gone + w.n)) else a
  }

  /** One of the four tests of an event. */
  function Tests(a: Account, revents: Mask, part: Part, r: ReadResult, w: WriteResult): Account {
    match part
    case ClosePart => if HUP in revents && IN !in revents then Closes(a) else a
    case ErrorPart => a
    case ReadPart => if IN in revents || PRI in revents then Reads(a, r) else a
    case WritePart => if OUT in revents then Writes(a, w) else a
  }

  /** The account of connection `id` after an event; of the reactor it sees where the loop stands. */
  function Booked(s: Sys, ev: Event, id: ConnId, a: Account): Account {
    match ev
    case Accept(_, mark, wantsHigh, wantsComplete) =>
      if s.nextId == id then UNBORN.(state := Connected, mark := mark, wantsHigh := wantsHigh, wantsComplete := wantsComplete) else a
    case UserSend(at, data, w) => if at == id then Sends(a, data, w) else a
    case UserShutdown(at) => if at == id then Shuts(a) else a
    case UserForceClose(at) => if at == id then ForceCloses(a) else a
    case UserRetrieve(at, n) => if at == id then Takes(a, n) else a
    case Handle(r, w) => if s.turn.Turn? && s.turn.id == id then Tests(a, s.turn.revents, s.turn.part, r, w) else a
    case RunTask => if s.batch != [] && s.batch[0] == Task(id, ForceClose) && IsOpen(a) then Closes(a) else a
    case _ => a
  }

  ghost function AccountOf(s: Sys, run: seq<Event>, id: ConnId, a: Account): Account
    requires Legal(s, run)
    decreases |run|
  {
    if run == [] || Step(s, run[0]).Died? then a
    else AccountOf(Step(s, run[0]).s, run[1..], id, Booked(s, run[0], id, a))
  }

  /** The output side. */
  ghost predicate OutputMatches(c: Conn, a: Account) {
    a.gone <= |a.sent| && c.accepted == a.sent && c.out == a.sent[a.gone..]
  }

  ghost predicate InputMatches(c: Conn, a: Account) {
    a.taken <= |a.got| && c.received == a.got && c.consumed == a.got[..a.taken] && c.inp == a.got[a.taken..]
  }

  /** The connection is as its account says. */
  ghost predicate Matches(c: Conn, a: Account) {
    && c.state == a.state && c.mark == a.mark && c.wantsHigh == a.wantsHigh && c.wantsComplete == a.wantsComplete
    && OutputMatches(c, a) && InputMatches(c, a)
    && (SentFin(c) <==> a.fin)
  }

  lemma SameInputMatches(c: Conn, a: Account, d: Conn, b: Account)
    requires InputMatches(c, a) && SameInput(c, d) && b.got == a.got && b.taken == a.taken
    ensures InputMatches(d, b)
  {
  }

  // ----- one call -----

  lemma SendMatches(c: Conn, a: Account, data: Bytes, w: WriteResult)
    requires ConnInv(c) && Matches(c, a) && (w.Wrote? ==> w.n <= |data|) && !Send(c, data, w).aborted
    ensures Matches(Send(c, data, w).conn, Sends(a, data, w))
  {
    SendOutcome(c, data, w);
    hide Send;
    if c.state.Connected? { SentMatches(c, a, data, w, Send(c, data, w)); }
  }

  lemma SentMatches(c: Conn, a: Account, data: Bytes, w: WriteResult, e: Effect)
    requires ConnInv(c) && Matches(c, a) && c.state == Connected && (w.Wrote? ==> w.n <= |data|) && SendDone(c, data, w, e)
    ensures Matches(e.conn, Sends(a, data, w))
  {
    NoFinYet(c);
    SendFin(c, data, w, e);
    SendFields(c, data, w, e);
    OutputSent(c, a, data, w, e.conn);
    hide ConnInv, SendDone, SentFin, OutputMatches;
    SameInputMatches(c, a, e.conn, Sends(a, data, w));
    hide InputMatches, SameInput, Sends;
  }

  lemma SendFin(c: Conn, data: Bytes, w: WriteResult, e: Effect)
    requires (w.Wrote? ==> w.n <= |data|) && SendDone(c, data, w, e) && !SentFin(c)
    ensures !SentFin(e.conn)
  {
    var call := Write(data[..TakenAtOnce(c, w)]);
    assert e.conn.calls == c.calls + (if c.out == [] then [call] else []);
    hide Written, SendDone, HighWaters, LengthsFollow;
    NotFin(c, call, e.conn);
  }

  lemma NotFin(c: Conn, call: Call, d: Conn)
    requires call.Write? && !SentFin(c) && d.calls == c.calls + (if c.out == [] then [call] else [])
    ensures !SentFin(d)
  {
  }

  lemma SendFields(c: Conn, data: Bytes, w: WriteResult, e: Effect)
    requires (w.Wrote? ==> w.n <= |data|) && SendDone(c, data, w, e)
    ensures var d := e.conn;
            && d.out == c.out + data[TakenAtOnce(c, w)..] && d.state == c.state && d.accepted == c.accepted + data
            && SameInput(c, d) && SameSettings(c, d)
  {
    hide Written;
  }

  lemma OutputSent(c: Conn, a: Account, data: Bytes, w: WriteResult, d: Conn)
    requires OutputMatches(c, a) && a.state == Connected && (w.Wrote? ==> w.n <= |data|)
    requires d.out == c.out + data[TakenAtOnce(c, w)..] && d.accepted == c.accepted + data
    ensures OutputMatches(d, Sends(a, data, w))
    ensures Sends(a, data, w) == a.(sent := Sends(a, data, w).sent, gone := Sends(a, data, w).gone)
  {
    var took := TakenAtOnce(c, w);
    assert c.out == [] <==> Waiting(a) == 0;
    assert Sends(a, data, w).gone == a.gone + took;
    Lengthened(a.sent, a.gone, c.out, data, took);
  }

  lemma Lengthened(sent: Bytes, gone: nat, out: Bytes, data: Bytes, took: nat)
    requires gone <= |sent| && out == sent[gone..] && took <= |data| && (took > 0 ==> out == [])
    ensures (sent + data)[gone + took..] == out + data[took..]
  {
    if took == 0 {
      assert data[0..] == data;
    } else {
      assert gone == |sent|;
    }
  }

  lemma NoFinYet(c: Conn)
    requires ConnInv(c)
    ensures c.state == Connected || c.out != [] ==> !SentFin(c)
  {
  }

  lemma ShutMatches(c: Conn, a: Account)
    requires ConnInv(c) && Matches(c, a)
    ensures Matches(Shutdown(c).conn, Shuts(a))
  {
    ShutdownOutcome(c, [], Wrote(0));
    NoFinYet(c);
    hide Shutdown, ConnInv;
  }

  lemma StateMatches(c: Conn, a: Account)
    requires ConnInv(c) && Matches(c, a)
    ensures Matches(ForceClosing(c).conn, ForceCloses(a))
    ensures Matches(ForceCloseInLoop(c).conn, if IsOpen(a) then Closes(a) else a)
  {
    ForceCloseOutcome(c);
    hide ForceClosing, ForceCloseInLoop, ConnInv;
  }

  lemma TakeMatches(c: Conn, a: Account, n: nat)
    requires Matches(c, a)
    ensures Matches(TakeInput(c, n).conn, Takes(a, n))
  {
    TakeOutcome(c, n);
    var d := TakeInput(c, n).conn;
    hide TakeInput;
    TookBytes(a.got, a.taken, c.consumed, c.inp, n, d.consumed, d.inp);
  }

  lemma TookBytes(got: Bytes, taken: nat, consumed: Bytes, inp: Bytes, n: nat, consumed': Bytes, inp': Bytes)
    requires taken <= |got| && consumed == got[..taken] && inp == got[taken..] && consumed <= consumed'
    requires var front := consumed'[|consumed|..]; inp == front + inp' && (|front| == n || (|front| < n && inp' == []))
    ensures var k := if taken + n < |got| then taken + n else |got|;
            consumed' == got[..k] && inp' == got[k..]
  {
    var front := consumed'[|consumed|..];
    var k := taken + |front|;
    assert got == consumed + front + inp';
    assert consumed' == consumed + front;
    assert got[..k] == consumed + front && got[k..] == inp';
  }

  lemma CloseMatches(c: Conn, a: Account, e: Effect)
    requires Matches(c, a) && CloseDone(c, e)
    ensures Matches(e.conn, Closes(a))
  {
  }

  lemma ReadMatches(c: Conn, a: Account, r: ReadResult, e: Effect)
    requires Matches(c, a) && ReadDone(c, r, e) && !e.aborted
    ensures Matches(e.conn, Reads(a, r))
  {
    if r.Arrived? && r.data == [] { CloseMatches(c, a, e); }
  }

  lemma WriteMatches(c: Conn, a: Account, w: WriteResult, e: Effect)
    requires ConnInv(c) && Matches(c, a) && IsOpen(a) && c.out != [] && (w.Wrote? ==> w.n <= |c.out|) && WriteDone(c, w, e)
    ensures Matches(e.conn, Writes(a, w))
  {
    NoFinYet(c);
    WriteFin(c, w, e);
    WriteFields(c, w, e);
    OutputWritten(c, a, w, e.conn);
    hide ConnInv, Written, WriteDone, SentFin, OutputMatches;
    SameInputMatches(c, a, e.conn, Writes(a, w));
    hide InputMatches, SameInput, Writes;
  }

  lemma OutputWritten(c: Conn, a: Account, w: WriteResult, d: Conn)
    requires OutputMatches(c, a) && IsOpen(a) && c.out != [] && (w.Wrote? ==> w.n <= |c.out|)
    requires d.out == c.out[Taken(w)..] && d.accepted == c.accepted
    ensures OutputMatches(d, Writes(a, w))
    ensures Writes(a, w).fin == (a.fin || (d.out == [] && a.state == Disconnecting))
    ensures Writes(a, w) == a.(gone := Writes(a, w).gone, fin := Writes(a, w).fin)
  {
    Dropped(a.sent, a.gone, c.out, Taken(w));
  }

  lemma Dropped(xs: Bytes, n: nat, rest: Bytes, k: nat)
    requires n <= |xs| && rest == xs[n..] && k <= |rest|
    ensures n + k <= |xs| && rest[k..] == xs[n + k..] && (rest[k..] == [] <==> n + k == |xs|)
  {
  }

  lemma WriteFin(c: Conn, w: WriteResult, e: Effect)
    requires (w.Wrote? ==> w.n <= |c.out|) && WriteDone(c, w, e)
    ensures SentFin(e.conn) <==> e.conn.out == [] && c.state == Disconnecting
  {
    hide Written;
    var written := c.calls + [Write(c.out[..Taken(w)])];
    assert e.conn.calls == written + (if e.conn.out == [] && c.state == Disconnecting then [Fin] else []);
  }

  lemma WriteFields(c: Conn, w: WriteResult, e: Effect)
    requires (w.Wrote? ==> w.n <= |c.out|) && WriteDone(c, w, e)
    ensures var d := e.conn;
            && d.out == c.out[Taken(w)..] && d.state == c.state && d.accepted == c.accepted && SameInput(c, d) && SameSettings(c, d)
  {
    hide Written;
  }

  lemma PartMatches(c: Conn, a: Account, revents: Mask, part: Part, r: ReadResult, w: WriteResult)
    requires ConnInv(c) && Matches(c, a) && (part.WritePart? && w.Wrote? ==> w.n <= |c.out|)
    requires !RunPart(c, revents, part, r, w).aborted
    ensures Matches(RunPart(c, revents, part, r, w).conn, Tests(a, revents, part, r, w))
  {
    PartOutcome(c, revents, part, r, w);
    var e := RunPart(c, revents, part, r, w);
    hide ConnInv, RunPart, CloseDone, ReadDone, WriteDone;
    match part
    case ClosePart => if HUP in revents && IN !in revents { CloseMatches(c, a, e); }
    case ErrorPart =>
    case ReadPart => if IN in revents || PRI in revents { ReadMatches(c, a, r, e); }
    case WritePart => if OUT in revents && Open(c) && c.out != [] { WriteMatches(c, a, w, e); }
  }

  // ----- one step of the reactor -----

  /** The connection, if it is there, is as its account says. */
  ghost predicate Holds(s: Sys, id: ConnId, a: Account) {
    id in s.conns ==> Matches(s.conns[id], a)
  }

  lemma ApplyHolds(s: Sys, o: Sys, at: ConnId, e: Effect, id: ConnId, a: Account, b: Account)
    requires at in s.conns && Apply(s, at, e) == Next(o) && Holds(s, id, a)
    requires if at == id then Matches(s.conns[id], a) && !e.aborted ==> Matches(e.conn, b) else b == a
    ensures Holds(o, id, b)
  {
    hide Matches, PushAll;
  }

  lemma SendHolds(s: Sys, at: ConnId, data: Bytes, w: WriteResult, id: ConnId, a: Account)
    requires SysInv(s) && Enabled(s, UserSend(at, data, w)) && Step(s, UserSend(at, data, w)).Next? && Holds(s, id, a)
    ensures Holds(Step(s, UserSend(at, data, w)).s, id, Booked(s, UserSend(at, data, w), id, a))
  {
    hide *;
    SendStep(s, at, data, w);
    ConnFacts(s, at);
    Unaborted(s, at, Send(s.conns[at], data, w));
    SendBooked(s, at, data, w, id, a);
    HoldsMatches(s, id, a);
    if at == id { SendMatches(s.conns[at], a, data, w); }
    ApplyHolds(s, Apply(s, at, Send(s.conns[at], data, w)).s, at, Send(s.conns[at], data, w), id, a, if at == id then Sends(a, data, w) else a);
  }

  lemma SendBooked(s: Sys, at: ConnId, data: Bytes, w: WriteResult, id: ConnId, a: Account)
    ensures Booked(s, UserSend(at, data, w), id, a) == if at == id then Sends(a, data, w) else a
  {
    hide Sends;
  }

  lemma SendStep(s: Sys, at: ConnId, data: Bytes, w: WriteResult)
    requires Enabled(s, UserSend(at, data, w))
    ensures at in s.conns && (w.Wrote? ==> w.n <= |data|) && Step(s, UserSend(at, data, w)) == Apply(s, at, Send(s.conns[at], data, w))
  {
    hide Send, Apply;
  }

  lemma HoldsMatches(s: Sys, id: ConnId, a: Account)
    requires Holds(s, id, a)
    ensures id in s.conns ==> Matches(s.conns[id], a)
  {
  }

  lemma UserHolds(s: Sys, ev: Event, id: ConnId, a: Account)
    requires SysInv(s) && Enabled(s, ev) && Step(s, ev).Next? && Holds(s, id, a)
    requires ev.UserShutdown? || ev.UserForceClose? || ev.UserRetrieve?
    ensures Holds(Step(s, ev).s, id, Booked(s, ev, id, a))
  {
    ConnFacts(s, ev.id);
    var c, at := s.conns[ev.id], ev.id;
    hide SysInv, Shutdown, ForceClosing, TakeInput, Apply, Matches, ConnInv, Shuts, ForceCloses, Takes;
    if at == id {
      ShutMatches(c, a);
      StateMatches(c, a);
      if ev.UserRetrieve? { TakeMatches(c, a, ev.n); }
    }
    var e := if ev.UserShutdown? then Shutdown(c) else if ev.UserForceClose? then ForceClosing(c) else TakeInput(c, ev.n);
    ApplyHolds(s, Apply(s, at, e).s, at, e, id, a, Booked(s, ev, id, a));
  }

  lemma HandleHolds(s: Sys, r: ReadResult, w: WriteResult, id: ConnId, a: Account)
    requires SysInv(s) && Enabled(s, Handle(r, w)) && Step(s, Handle(r, w)).Next? && Holds(s, id, a)
    ensures Holds(Step(s, Handle(r, w)).s, id, Booked(s, Handle(r, w), id, a))
  {
    TurnFacts(s);
    var t := s.turn;
    var c, s1 := s.conns[t.id], s.(turn := NextPart(t));
    var e := RunPart(c, t.revents, t.part, r, w);
    hide SysInv, RunPart, Apply, Matches, ConnInv, Tests, TurnOk;
    Unaborted(s1, t.id, e);
    if t.id == id { PartMatches(c, a, t.revents, t.part, r, w); }
    ApplyHolds(s1, Apply(s1, t.id, e).s, t.id, e, id, a, if t.id == id then Tests(a, t.revents, t.part, r, w) else a);
  }

  lemma TaskHolds(s: Sys, id: ConnId, a: Account)
    requires SysInv(s) && Enabled(s, RunTask) && Step(s, RunTask).Next? && Holds(s, id, a)
    ensures Holds(Step(s, RunTask).s, id, Booked(s, RunTask, id, a))
  {
    hide *;
    TaskReady(s);
    TaskOwner(s);
    var t := s.batch[0];
    ConnFacts(s, t.id);
    if t.kind.Destroy? { OwedIsClosed(s, t.id); DestroyedIsPlain(s.conns[t.id]); }
    TaskConns(s);
    TaskBooked(s, Step(s, RunTask).s, id, a);
  }

  lemma TaskReady(s: Sys)
    requires Enabled(s, RunTask)
    ensures s.batch != [] && (s.batch[0].kind.Destroy? ==> Task(s.batch[0].id, Destroy) in s.batch)
  {
    assert s.batch[0] in s.batch;
  }

  lemma TaskBooked(s: Sys, t: Sys, id: ConnId, a: Account)
    requires s.batch != [] && s.batch[0].id in s.conns && ConnInv(s.conns[s.batch[0].id]) && Holds(s, id, a)
    requires var at := s.batch[0].id;
             t.conns == if s.batch[0].kind.ForceClose? then s.conns[at := ForceCloseInLoop(s.conns[at]).conn] else s.conns
    ensures Holds(t, id, Booked(s, RunTask, id, a))
  {
    hide ConnInv, Matches, ForceCloseInLoop, IsOpen, Closes;
    if s.batch[0] == Task(id, ForceClose) { StateMatches(s.conns[id], a); }
  }

  /** The connections after a functor. */
  lemma TaskConns(s: Sys)
    requires Enabled(s, RunTask) && s.batch != [] && Step(s, RunTask).Next? && s.batch[0].id in s.conns
    requires s.batch[0].kind.Destroy? ==> ConnectDestroyed(s.conns[s.batch[0].id]) == Plain(s.conns[s.batch[0].id])
    ensures var at := s.batch[0].id;
            Step(s, RunTask).s.conns == if s.batch[0].kind.ForceClose? then s.conns[at := ForceCloseInLoop(s.conns[at]).conn] else s.conns
  {
    var at, s1 := s.batch[0].id, s.(batch := s.batch[1..]);
    ApplyConns(s1, at, ForceCloseInLoop(s.conns[at]));
    ApplyConns(s1, at, ConnectDestroyed(s.conns[at]));
    assert s.conns[at := s.conns[at]] == s.conns;
    hide Apply, ForceCloseInLoop, ConnectDestroyed, RemoveChannel;
  }

  lemma ApplyConns(s: Sys, at: ConnId, e: Effect)
    ensures Apply(s, at, e).Next? ==> Apply(s, at, e).s.conns == s.conns[at := e.conn]
  {
    hide PushAll;
  }

  lemma DestroyedIsPlain(c: Conn)
    requires c.state.Disconnected?
    ensures ConnectDestroyed(c) == Plain(c)
  {
  }

  /** accept(): one new connection, connected, empty, and registered for reading on its descriptor; nothing else changes. */
  lemma AcceptOutcome(s: Sys, fd: nat, mark: nat, wantsHigh: bool, wantsComplete: bool)
    requires SysInv(s) && Enabled(s, Accept(fd, mark, wantsHigh, wantsComplete))
    ensures Step(s, Accept(fd, mark, wantsHigh, wantsComplete)).Next? && s.nextId !in s.conns
    ensures var id := s.nextId;
            Step(s, Accept(fd, mark, wantsHigh, wantsComplete)).s
            == s.(nextId := id + 1, server := s.server + {id},
                  conns := s.conns[id := Fresh(mark, wantsHigh, wantsComplete).(state := Connected, events := READ_EVENT)],
                  poller := Poller(s.poller.chans[id := Chan(fd, READ_EVENT, Added)], s.poller.channels[fd := id],
                                   s.poller.kernel[fd := Interest(READ_EVENT, id)]))
  {
    hide *;
    NextIdIsNew(s);
    SysParts(s);
    FreshInv(mark, wantsHigh, wantsComplete);
    FreshState(mark, wantsHigh, wantsComplete);
    EstablishedOutcome(Fresh(mark, wantsHigh, wantsComplete));
    AcceptReady(s, fd, mark, wantsHigh, wantsComplete);
    RegisteredAnew(s.poller, s.nextId, fd);
    NewConnectionApplied(s, fd, mark, wantsHigh, wantsComplete);
  }

  lemma FreshState(mark: nat, wantsHigh: bool, wantsComplete: bool)
    ensures Fresh(mark, wantsHigh, wantsComplete).state == Connecting
  {
  }

  lemma RegisteredAnew(p: Poller<ConnId>, id: ConnId, fd: nat)
    requires Consistent(p) && id !in p.chans && FdFree(p, fd)
    ensures PushAll(AddChan(p, id, fd), id, [READ_EVENT])
         == Ok(Poller(p.chans[id := Chan(fd, READ_EVENT, Added)], p.channels[fd := id], p.kernel[fd := Interest(READ_EVENT, id)]))
  {
    assert IN in READ_EVENT;
    NewChannel(p, id, fd, READ_EVENT);
    PushOne(AddChan(p, id, fd), id, READ_EVENT);
    hide Consistent, SetEvents, PushAll, FdFree;
    SetEventsEffect(AddChan(p, id, fd), id, READ_EVENT);
    assert AddChan(p, id, fd).chans[id := Chan(fd, READ_EVENT, Added)] == p.chans[id := Chan(fd, READ_EVENT, Added)];
  }

  lemma AcceptReady(s: Sys, fd: nat, mark: nat, wantsHigh: bool, wantsComplete: bool)
    requires Enabled(s, Accept(fd, mark, wantsHigh, wantsComplete))
    ensures FdFree(s.poller, fd)
    ensures Step(s, Accept(fd, mark, wantsHigh, wantsComplete)) == NewConnection(s, fd, mark, wantsHigh, wantsComplete)
  {
    hide FdFree, NewConnection;
  }

  lemma AcceptHolds(s: Sys, fd: nat, mark: nat, wantsHigh: bool, wantsComplete: bool, id: ConnId, a: Account)
    requires SysInv(s) && Enabled(s, Accept(fd, mark, wantsHigh, wantsComplete)) && Step(s, Accept(fd, mark, wantsHigh, wantsComplete)).Next?
    requires Holds(s, id, a)
    ensures Holds(Step(s, Accept(fd, mark, wantsHigh, wantsComplete)).s, id, Booked(s, Accept(fd, mark, wantsHigh, wantsComplete), id, a))
  {
    AcceptOutcome(s, fd, mark, wantsHigh, wantsComplete);
    NewbornMatches(mark, wantsHigh, wantsComplete);
    hide SysInv, Enabled, Step, Matches;
  }

  lemma NewbornMatches(mark: nat, wantsHigh: bool, wantsComplete: bool)
    ensures Matches(Fresh(mark, wantsHigh, wantsComplete).(state := Connected, events := READ_EVENT),
                    UNBORN.(state := Connected, mark := mark, wantsHigh := wantsHigh, wantsComplete := wantsComplete))
  {
  }

  lemma StepHolds(s: Sys, ev: Event, id: ConnId, a: Account)
    requires SysInv(s) && Enabled(s, ev) && Step(s, ev).Next? && Holds(s, id, a)
    ensures Holds(Step(s, ev).s, id, Booked(s, ev, id, a))
  {
    hide *;
    match ev
    case Handle(r, w) => HandleHolds(s, r, w, id, a);
    case Accept(fd, mark, wantsHigh, wantsComplete) => AcceptHolds(s, fd, mark, wantsHigh, wantsComplete, id, a);
    case UserSend(at, data, w) => SendHolds(s, at, data, w, id, a);
    case UserShutdown(at) => UserHolds(s, ev, id, a);
    case UserRetrieve(at, n) => UserHolds(s, ev, id, a);
    case UserForceClose(at) => UserHolds(s, ev, id, a);
    case RunTask => TaskHolds(s, id, a);
    case _ => OtherHolds(s, ev, id, a);
  }

  lemma OtherHolds(s: Sys, ev: Event, id: ConnId, a: Account)
    requires Enabled(s, ev) && Step(s, ev).Next? && Holds(s, id, a)
    requires ev.PollReturns? || ev.NextChannel? || ev.CloseCallback? || ev.EndDispatch? || ev.EndFunctors? || ev.Release?
    ensures Holds(Step(s, ev).s, id, Booked(s, ev, id, a))
  {
    hide Reports, Unreferenced, DropChan, FillActive, Matches;
  }

  lemma {:induction false} RunHolds(s: Sys, run: seq<Event>, id: ConnId, a: Account)
    requires SysInv(s) && Legal(s, run) && Exec(s, run).Next? && Holds(s, id, a)
    ensures Holds(Exec(s, run).s, id, AccountOf(s, run, id, a))
    decreases |run|
  {
    hide SysInv, Step, Enabled, Holds, Booked;
    if run != [] {
      StepInv(s, run[0]);
      StepHolds(s, run[0], id, a);
      RunHolds(Step(s, run[0]).s, run[1..], id, Booked(s, run[0], id, a));
    }
  }

  /**
   After any run from start-up every connection is as its account says: its state;
   the bytes it accepted, which of them the kernel took and which wait; the bytes
   that arrived, which of them callbacks took and which wait; and whether FIN is out.
   */
  lemma AccountsHold(run: seq<Event>, id: ConnId)
    requires Legal(BOOT, run) && Exec(BOOT, run).Next? && id in Exec(BOOT, run).s.conns
    ensures Matches(Exec(BOOT, run).s.conns[id], AccountOf(BOOT, run, id, UNBORN))
  {
    BootInv();
    RunHolds(BOOT, run, id, UNBORN);
    hide Legal, Exec, Matches;
  }

  // ----- the two streams -----

  /** The payload of a send() that found the connection connected. */
  function Payload(s: Sys, ev: Event, id: ConnId): Bytes {
    if ev.UserSend? && ev.id == id && id in s.conns && s.conns[id].state == Connected then ev.data else []
  }

  /** What readv delivered at a read test of the connection. */
  function Arrival(s: Sys, ev: Event, id: ConnId): Bytes {
    if ev.Handle? && s.turn.Turn? && s.turn.id == id && s.turn.part.ReadPart? && (IN in s.turn.revents || PRI in s.turn.revents) && ev.r.Arrived?
    then ev.r.data else []
  }

  ghost function Payloads(s: Sys, run: seq<Event>, id: ConnId): Bytes
    requires Legal(s, run)
    decreases |run|
  {
    if run == [] || Step(s, run[0]).Died? then [] else Payload(s, run[0], id) + Payloads(Step(s, run[0]).s, run[1..], id)
  }

  ghost function Arrivals(s: Sys, run: seq<Event>, id: ConnId): Bytes
    requires Legal(s, run)
    decreases |run|
  {
    if run == [] || Step(s, run[0]).Died? then [] else Arrival(s, run[0], id) + Arrivals(Step(s, run[0]).s, run[1..], id)
  }

  predicate Unused(s: Sys, id: ConnId, a: Account) {
    id >= s.nextId ==> a.sent == [] && a.got == []
  }

  lemma StepStreams(s: Sys, ev: Event, id: ConnId, a: Account)
    requires SysInv(s) && Enabled(s, ev) && Step(s, ev).Next? && Holds(s, id, a) && Unused(s, id, a)
    ensures var b := Booked(s, ev, id, a);
            b.sent == a.sent + Payload(s, ev, id) && b.got == a.got + Arrival(s, ev, id) && Unused(Step(s, ev).s, id, b)
  {
    hide *;
    StepIds(s, ev);
    OnlyKnown(s, ev, id);
    HoldsMatches(s, id, a);
    BookedStreams(s, ev, id, a);
    StillUnused(s, ev, id, a, Step(s, ev).s);
  }

  /** Only a connection that is there is sent to or read from. */
  lemma OnlyKnown(s: Sys, ev: Event, id: ConnId)
    requires SysInv(s) && Enabled(s, ev)
    ensures ev.UserSend? && ev.id == id ==> id in s.conns && id < s.nextId
    ensures ev.Handle? && s.turn.Turn? && s.turn.id == id ==> id in s.conns && id < s.nextId
  {
    if ev.Handle? { TurnFacts(s); }
    if id in s.conns { IdBound(s, id); }
    hide SysInv, Reports, Unreferenced, FdFree;
  }

  lemma BookedStreams(s: Sys, ev: Event, id: ConnId, a: Account)
    requires (id in s.conns ==> Matches(s.conns[id], a)) && Unused(s, id, a)
    requires ev.UserSend? && ev.id == id ==> id in s.conns
    ensures var b := Booked(s, ev, id, a); b.sent == a.sent + Payload(s, ev, id) && b.got == a.got + Arrival(s, ev, id)
  {
    assert a.sent + [] == a.sent && a.got + [] == a.got;
    hide OutputMatches, InputMatches, SentFin;
  }

  lemma StillUnused(s: Sys, ev: Event, id: ConnId, a: Account, t: Sys)
    requires Unused(s, id, a) && s.nextId <= t.nextId
    requires ev.UserSend? && ev.id == id ==> id < s.nextId
    requires ev.Handle? && s.turn.Turn? && s.turn.id == id ==> id < s.nextId
    ensures Unused(t, id, Booked(s, ev, id, a))
  {
  }

  lemma {:induction false} RunStreams(s: Sys, run: seq<Event>, id: ConnId, a: Account)
    requires SysInv(s) && Legal(s, run) && Exec(s, run).Next? && Holds(s, id, a) && Unused(s, id, a)
    ensures var b := AccountOf(s, run, id, a); b.sent == a.sent + Payloads(s, run, id) && b.got == a.got + Arrivals(s, run, id)
    decreases |run|
  {
    hide SysInv, Step, Enabled, Holds, Booked, Unused, Payload, Arrival;
    if run == [] {
      assert a.sent + [] == a.sent && a.got + [] == a.got;
    } else {
      var t, b := Step(s, run[0]).s, Booked(s, run[0], id, a);
      StepInv(s, run[0]);
      StepHolds(s, run[0], id, a);
      StepStreams(s, run[0], id, a);
      RunStreams(t, run[1..], id, b);
      Regrouped(a.sent, Payload(s, run[0], id), Payloads(t, run[1..], id));
      Regrouped(a.got, Arrival(s, run[0], id), Arrivals(t, run[1..], id));
    }
  }

  lemma Regrouped(a: Bytes, b: Bytes, c: Bytes)
    ensures (a + b) + c == a + (b + c)
  {
  }

  /**
   After any run a connection has accepted the payloads of the sends that found it
   connected, in order, and received what readv delivered at its read tests.
   */
  lemma StreamsOfRun(run: seq<Event>, id: ConnId)
    requires Legal(BOOT, run) && Exec(BOOT, run).Next? && id in Exec(BOOT, run).s.conns
    ensures var c := Exec(BOOT, run).s.conns[id];
            && c.accepted == Payloads(BOOT, run, id) && Written(c.calls) + c.out == Payloads(BOOT, run, id)
            && c.received == Arrivals(BOOT, run, id) && c.consumed + c.inp == Arrivals(BOOT, run, id)
  {
    BootInv();
    hide *;
    BootUnused(id);
    RunStreams(BOOT, run, id, UNBORN);
    AccountsHold(run, id);
    RunsAreSafe(run);
    Streamed(id, Exec(BOOT, run), AccountOf(BOOT, run, id, UNBORN), Payloads(BOOT, run, id), Arrivals(BOOT, run, id));
  }

  lemma BootUnused(id: ConnId)
    ensures Holds(BOOT, id, UNBORN) && Unused(BOOT, id, UNBORN)
  {
  }

  lemma Streamed(id: ConnId, o: Outcome, a: Account, payloads: Bytes, arrivals: Bytes)
    requires o.Next? && Survives(o) && id in o.s.conns && Matches(o.s.conns[id], a)
    requires a.sent == UNBORN.sent + payloads && a.got == UNBORN.got + arrivals
    ensures var c := o.s.conns[id];
            && c.accepted == payloads && Written(c.calls) + c.out == payloads
            && c.received == arrivals && c.consumed + c.inp == arrivals
  {
    ConnFacts(o.s, id);
    assert [] + payloads == payloads && [] + arrivals == arrivals;
    hide SysInv, Written, MaskFollows, FinLast, HighWaterCounted, Life;
  }
}
