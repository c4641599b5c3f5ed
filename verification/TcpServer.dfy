/** TcpServer.cpp on one loop: connections_ and deferred destruction. */
module TcpServers {
  import opened PollerSpec
  import opened ConnectionSpec
  import LoopRuns
  import opened Pollers
  import opened EventLoops
  import opened TcpConnections

  lemma EstablishedTook(h: Host, conn: TcpConnection, t: Host)
    requires h.conn.events == NONE_EVENT && conn.channel in h.poller.chans && Took(h, conn, ConnectEstablished(h.conn), t)
    ensures SetEvents(h.poller, conn.channel, READ_EVENT) == Result.Ok(t.poller) && t == h.(conn := t.conn, poller := t.poller)
    ensures t.conn == ConnectEstablished(h.conn).conn
  {
    assert NONE_EVENT + READ_EVENT == READ_EVENT;
    PushOne(h.poller, conn.channel, READ_EVENT);
  }

  class TcpServer {
    const loop: EventLoop<Functor>
    const poller: EPollPoller
    const wantsComplete: bool                  // writeCompleteCallback_ is set
    var connections: map<nat, TcpConnection>   // connections_, by the number in the name
    var nextConnId: nat

    /** Names are used once, and every entry is filed under its own. */
    ghost predicate Valid()
      reads this
    {
      forall id :: id in connections ==>
        id < nextConnId && connections[id].id == id && connections[id].loop == loop && connections[id].channel.poller == poller
    }

    constructor (loop: EventLoop<Functor>, poller: EPollPoller, wantsComplete: bool)
      ensures Valid() && connections == map[] && nextConnId == 1 && this.loop == loop && this.poller == poller
      ensures this.wantsComplete == wantsComplete
    {
      this.loop, this.poller, this.wantsComplete := loop, poller, wantsComplete;
      connections, nextConnId := map[], 1;
    }

    /** The acceptor's callback: file the connection, and establish it at once. */
    method NewConnection(sockfd: nat, mark: nat, wantsHigh: bool) returns (conn: TcpConnection)
      requires Valid() && loop.Valid() && !loop.stage.Polling? && poller.Valid() && FdFree(poller.View(), sockfd)
      modifies this`connections, this`nextConnId, poller`channels, poller`kernel, poller`chans
      ensures Valid() && fresh(conn) && fresh(conn.channel) && conn.loop == loop && conn.channel.poller == poller && conn.id == old(nextConnId) && conn.id !in old(connections)
      ensures connections == old(connections)[conn.id := conn] && nextConnId == old(nextConnId) + 1
      ensures conn.Valid() && conn.Shaped() && conn.View() == ConnectEstablished(Fresh(mark, wantsHigh, wantsComplete)).conn
      ensures loop.pendingFunctors == old(loop.pendingFunctors) && loop.stage == old(loop.stage) && loop.batch == old(loop.batch)
      ensures SetEvents(AddChan(old(poller.View()), conn.channel, sockfd), conn.channel, READ_EVENT) == Result.Ok(poller.View())
      ensures fresh(conn.inputBuffer) && fresh(conn.inputBuffer.data) && fresh(conn.outputBuffer) && fresh(conn.outputBuffer.data)
    {
      conn := FileConnection(sockfd, mark, wantsHigh);
      ghost var h := conn.Snapshot();
      hide Consistent, LoopRuns.Inv, SetEvents, ConnInv, AddChan, Took;
      conn.ConnectEstablished();
      EstablishedTook(h, conn, conn.Snapshot());
    }

    /** The new connection under the next number, not yet established. */
    method FileConnection(sockfd: nat, mark: nat, wantsHigh: bool) returns (conn: TcpConnection)
      requires Valid() && loop.Valid() && !loop.stage.Polling? && poller.Valid() && FdFree(poller.View(), sockfd)
      modifies this`connections, this`nextConnId, poller`chans
      ensures Valid() && fresh(conn) && fresh(conn.channel) && conn.id == old(nextConnId) && conn.id !in old(connections)
      ensures connections == old(connections)[conn.id := conn] && nextConnId == old(nextConnId) + 1
      ensures conn.loop == loop && conn.channel.poller == poller && conn.channel in poller.chans
      ensures conn.Valid() && conn.View() == Fresh(mark, wantsHigh, wantsComplete)
      ensures poller.View() == AddChan(old(poller.View()), conn.channel, sockfd)
      ensures fresh(conn.inputBuffer) && fresh(conn.inputBuffer.data) && fresh(conn.outputBuffer) && fresh(conn.outputBuffer.data)
    {
      FreshInv(mark, wantsHigh, wantsComplete);
      hide Consistent, LoopRuns.Inv, ConnInv, AddChan;
      conn := new TcpConnection(nextConnId, loop, poller, sockfd, mark, wantsHigh, wantsComplete);
      nextConnId := nextConnId + 1;
      connections := connections[conn.id := conn];
    }

    /** removeConnection runs at once on the loop thread; the connection lives on in the functor. */
    method RemoveConnection(conn: TcpConnection)
      requires Valid() && loop.Valid() && !loop.stage.Polling?
      modifies this`connections, loop
      ensures Valid() && loop.Valid() && !loop.stage.Polling?
      ensures connections == old(connections) - {conn.id}
      ensures loop.pendingFunctors == old(loop.pendingFunctors) + [Functor(conn, Destroy)]
      ensures loop.stage == old(loop.stage) && loop.batch == old(loop.batch) && loop.reported == old(loop.reported)
    {
      RemoveConnectionInLoop(conn);
    }

    method RemoveConnectionInLoop(conn: TcpConnection)
      requires Valid() && loop.Valid() && !loop.stage.Polling?
      modifies this`connections, loop
      ensures Valid() && loop.Valid() && !loop.stage.Polling?
      ensures connections == old(connections) - {conn.id}
      ensures loop.pendingFunctors == old(loop.pendingFunctors) + [Functor(conn, Destroy)]
      ensures loop.stage == old(loop.stage) && loop.batch == old(loop.batch) && loop.reported == old(loop.reported)
    {
      hide LoopRuns.Inv;
      connections := connections - {conn.id};
      loop.QueueInLoop(Functor(conn, Destroy), LoopThread);
    }
  }
}
