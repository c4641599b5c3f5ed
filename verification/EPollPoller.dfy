/** Channel.h and EPollPoller.cpp in their own, imperative form, tied to PollerSpec. */
module Pollers {
  import opened Kernel
  import opened PollerSpec

  const INIT_EVENT_LIST_SIZE: nat := 16   // kInitEventListSize

  /** epoll_wait: ready descriptors with their events, or -1 with errno. */
  datatype PollResult = Ready(events: seq<(nat, Mask)>) | PollFailed(errno: int)

  /** struct epoll_event. */
  datatype EpollEvent = EpollEvent(events: Mask, ptr: Channel?)

  class Channel {
    const poller: EPollPoller   // the poller of loop_
    const fd: nat
    var events: Mask
    var revents: Mask
    var index: Index

    ghost function Value(): Chan
      reads this
    {
      Chan(fd, events, index)
    }

    /** A live channel of its loop. */
    ghost predicate Valid()
      reads this, poller, poller.chans.Keys
    {
      this in poller.chans && poller.Valid()
    }

    /** A new channel on a descriptor no live channel uses. */
    constructor (poller: EPollPoller, fd: nat)
      requires poller.Valid() && FdFree(poller.View(), fd)
      modifies poller`chans
      ensures Valid() && this.poller == poller
      ensures poller.View() == AddChan(old(poller.View()), this, fd)
    {
      this.poller, this.fd := poller, fd;
      events, revents, index := NONE_EVENT, {}, New;
      new;
      AddChanConsistent(poller.View(), this, fd);
      hide Consistent;
      poller.chans := poller.chans[this := Value()];
    }

    /** ~Channel(), which demands that remove() came before. */
    ghost method Forget()
      requires Valid() && index.New?
      modifies poller`chans
      ensures poller.Valid() && poller.View() == DropChan(old(poller.View()), this)
    {
      DropChanConsistent(poller.View(), this);
      hide Consistent;
      poller.chans := poller.chans - {this};
    }

    predicate IsWriting()
      reads this
    {
      events * WRITE_EVENT != {}
    }

    predicate IsNoneEvent()
      reads this
    {
      events == NONE_EVENT
    }

    /** update(), after `events` was changed in the state `p`. */
    method Update(ghost p: Poller<Channel>)
      requires this in poller.chans && Consistent(p) && p == poller.View() && poller.events.Length > 0
      requires p.chans[this] == Chan(fd, p.chans[this].events, index)
      requires forall c :: c in poller.chans && c != this ==> poller.chans[c] == c.Value()
      modifies this`index, poller`channels, poller`kernel, poller`chans
      ensures Valid() && SetEvents(p, this, events) == Ok(poller.View())
    {
      hide Consistent, SetEvents;
      ghost var q := poller.Planned(p, this, events);
      poller.UpdateChannel(this);
      poller.chans := poller.chans[this := Value()];
      assert poller.View() == q;
    }

    method EnableReading()
      requires Valid()
      modifies this`events, this`index, poller`channels, poller`kernel, poller`chans
      ensures Valid() && SetEvents(old(poller.View()), this, old(events) + READ_EVENT) == Ok(poller.View())
      ensures events == old(events) + READ_EVENT
    {
      events := events + READ_EVENT;
      Update(poller.View());
    }

    method EnableWriting()
      requires Valid()
      modifies this`events, this`index, poller`channels, poller`kernel, poller`chans
      ensures Valid() && SetEvents(old(poller.View()), this, old(events) + WRITE_EVENT) == Ok(poller.View())
      ensures events == old(events) + WRITE_EVENT
    {
      events := events + WRITE_EVENT;
      Update(poller.View());
    }

    method DisableWriting()
      requires Valid()
      modifies this`events, this`index, poller`channels, poller`kernel, poller`chans
      ensures Valid() && SetEvents(old(poller.View()), this, old(events) - WRITE_EVENT) == Ok(poller.View())
      ensures events == old(events) - WRITE_EVENT
    {
      events := events - WRITE_EVENT;
      Update(poller.View());
    }

    method DisableAll()
      requires Valid()
      modifies this`events, this`index, poller`channels, poller`kernel, poller`chans
      ensures Valid() && SetEvents(old(poller.View()), this, NONE_EVENT) == Ok(poller.View()) && events == NONE_EVENT
    {
      events := NONE_EVENT;
      Update(poller.View());
    }

    method Remove()
      requires Valid()
      modifies this`index, poller`channels, poller`kernel, poller`chans
      ensures Valid() && RemoveChannel(old(poller.View()), this) == Ok(poller.View())
    {
      ghost var p := poller.View();
      RemoveConsistent(p, this);
      RemoveEffect(p, this);
      poller.CtlAccepted(p, this);
      hide Consistent, RemoveChannel, OnlyTouches;
      poller.RemoveChannel(this);
      poller.chans := poller.chans[this := Value()];
      assert poller.View() == RemoveChannel(p, this).p;
    }
  }

  class EPollPoller {
    var channels: map<nat, Channel>            // channels_
    var kernel: map<nat, Interest<Channel>>    // the interest set behind epollfd_
    var events: array<EpollEvent>              // events_
    ghost var chans: map<Channel, Chan>        // every channel of this loop, and its fields

    ghost function View(): Poller<Channel>
      reads this
    {
      Poller(chans, channels, kernel)
    }

    /** `chans` is up to date. */
    ghost predicate Agrees()
      reads this, chans.Keys
    {
      forall c :: c in chans ==> chans[c] == c.Value()
    }

    ghost predicate Valid()
      reads this, chans.Keys
    {
      Agrees() && Consistent(View()) && events.Length > 0
    }

    constructor ()
      ensures Valid() && View() == Poller(map[], map[], map[]) && fresh(events) && events.Length == INIT_EVENT_LIST_SIZE
    {
      channels, kernel, chans := map[], map[], map[];
      events := new EpollEvent[INIT_EVENT_LIST_SIZE](_ => EpollEvent({}, null));
    }

    /** update(): one epoll_ctl call, which the caller must know to succeed. */
    method Update(operation: Ctl, channel: Channel)
      requires Accepts(kernel, operation, channel.fd)
      modifies this`kernel
      ensures kernel == if operation.CtlDel? then old(kernel) - {channel.fd} else old(kernel)[channel.fd := Interest(channel.events, channel)]
    {
      if operation.CtlDel? {
        kernel := kernel - {channel.fd};
      } else {
        kernel := kernel[channel.fd := Interest(channel.events, channel)];
      }
    }

    /** The state a mask change leads to, in closed form. */
    lemma Planned(p: Poller<Channel>, channel: Channel, mask: Mask) returns (q: Poller<Channel>)
      requires Consistent(p) && channel in p.chans
      ensures SetEvents(p, channel, mask) == Ok(q) && Consistent(q)
      ensures var c := p.chans[channel];
              && (c.fd in p.kernel <==> c.index.Added?)
              && q.channels == (if c.index.New? then p.channels[c.fd := channel] else p.channels)
              && (c.index.Added? && mask == NONE_EVENT ==>
                    q.kernel == p.kernel - {c.fd} && q.chans == p.chans[channel := Chan(c.fd, mask, Deleted)])
              && (!(c.index.Added? && mask == NONE_EVENT) ==>
                    q.kernel == p.kernel[c.fd := Interest(mask, channel)] && q.chans == p.chans[channel := Chan(c.fd, mask, Added)])
    {
      SetEventsConsistent(p, channel, mask);
      SetEventsEffect(p, channel, mask);
      assert Tracks(p, channel);
      hide *;
      q := SetEvents(p, channel, mask).p;
    }

    lemma CtlAccepted(p: Poller<Channel>, channel: Channel)
      requires Consistent(p) && channel in p.chans && p.chans[channel].fd == channel.fd
      ensures channel.fd in p.kernel <==> p.chans[channel].index.Added?
    {
      assert Tracks(p, channel);
    }

    /** Adds, changes or deletes; each epoll_ctl call is one the kernel accepts. */
    method UpdateChannel(channel: Channel)
      requires channel.fd in kernel <==> channel.index.Added?
      modifies this`channels, this`kernel, channel`index
      ensures channels == if old(channel.index).New? then old(channels)[channel.fd := channel] else old(channels)
      ensures if old(channel.index).Added? && channel.events == NONE_EVENT
              then channel.index == Deleted && kernel == old(kernel) - {channel.fd}
              else channel.index == Added && kernel == old(kernel)[channel.fd := Interest(channel.events, channel)]
    {
      if !channel.index.Added? {
        if channel.index.New? {
          channels := channels[channel.fd := channel];
        }
        channel.index := Added;
        Update(CtlAdd, channel);
      } else if channel.IsNoneEvent() {
        Update(CtlDel, channel);
        channel.index := Deleted;
      } else {
        Update(CtlMod, channel);
      }
    }

    method RemoveChannel(channel: Channel)
      requires channel.fd in kernel <==> channel.index.Added?
      modifies this`channels, this`kernel, channel`index
      ensures channels == old(channels) - {channel.fd} && channel.index == New && channel.fd !in kernel
      ensures kernel == if old(channel.index).Added? then old(kernel) - {channel.fd} else old(kernel)
    {
      channels := channels - {channel.fd};
      if channel.index.Added? {
        Update(CtlDel, channel);
      }
      channel.index := New;
    }

    /** What epoll_wait may leave in `events_`: each registered descriptor at most once. */
    ghost predicate Reported(ready: seq<(nat, Mask)>)
      reads this
    {
      && |ready| <= events.Length
      && (forall i :: 0 <= i < |ready| ==> ready[i].0 in kernel)
      && (forall i, j :: 0 <= i < j < |ready| ==> ready[i].0 != ready[j].0)
    }

    /** epoll_wait, which returns what the kernel reports for the registered descriptors. */
    method EpollWait(ready: seq<(nat, Mask)>) returns (numEvents: nat)
      requires Valid() && Reported(ready)
      modifies events
      ensures Valid() && numEvents == |ready|
      ensures forall i :: 0 <= i < numEvents ==> events[i] == EpollEvent(ready[i].1, kernel[ready[i].0].ptr)
    {
      numEvents := 0;
      while numEvents < |ready|
        invariant 0 <= numEvents <= |ready|
        invariant forall i :: 0 <= i < numEvents ==> events[i] == EpollEvent(ready[i].1, kernel[ready[i].0].ptr)
      {
        var e := ready[numEvents];
        events[numEvents] := EpollEvent(e.1, kernel[e.0].ptr);
        numEvents := numEvents + 1;
      }
    }

    method FillActiveChannels(numEvents: nat) returns (active: seq<Channel>)
      requires Valid() && numEvents <= events.Length
      requires forall i :: 0 <= i < numEvents ==> events[i].ptr != null && events[i].ptr in chans
      requires forall i, j :: 0 <= i < j < numEvents ==> events[i].ptr != events[j].ptr
      modifies chans.Keys`revents
      ensures Valid() && |active| == numEvents
      ensures forall i :: 0 <= i < numEvents ==> active[i] == events[i].ptr && active[i].revents == events[i].events
      ensures forall c :: c in chans && c !in active ==> c.revents == old(c.revents)
    {
      active := [];
      while |active| < numEvents
        invariant |active| <= numEvents
        invariant forall i :: 0 <= i < |active| ==> active[i] == events[i].ptr && active[i].revents == events[i].events
        invariant forall c :: c in chans && c !in active ==> c.revents == old(c.revents)
      {
        var e := events[|active|];
        e.ptr.revents := e.events;
        active := active + [e.ptr];
      }
    }

    /**
     poll(): one entry per ready descriptor, and a full event list is doubled.  A
     failing epoll_wait reports nothing; but for EINTR, LOG_ERROR ends the process.
     */
    method Poll(result: PollResult) returns (aborted: bool, active: seq<Channel>)
      requires Valid() && (result.Ready? ==> Reported(result.events))
      modifies this`events, events, chans.Keys`revents
      ensures Valid() && View() == old(View())
      ensures aborted <==> result.PollFailed? && result.errno != EINTR
      ensures |active| == if result.Ready? then |result.events| else 0
      ensures result.Ready? ==> forall i :: 0 <= i < |active| ==> active[i] in chans && Reports(active[i], result.events[i])
      ensures forall c :: c in chans && c !in active ==> c.revents == old(c.revents)
      ensures events.Length == if result.Ready? && |active| == old(events.Length) then 2 * old(events.Length) else old(events.Length)
      ensures fresh(events) || events == old(events)
    {
      aborted, active := false, [];
      match result {
        case Ready(ready) =>
          active := Gather(ready);
        case PollFailed(errno) =>
          aborted := errno != EINTR;
      }
    }

    /** The channel the kernel holds for a descriptor, carrying what was reported for it. */
    ghost predicate Reports(c: Channel, e: (nat, Mask))
      reads this, c
    {
      e.0 in kernel && c == kernel[e.0].ptr && c.fd == e.0 && c.index.Added? && c.revents == e.1
    }

    method Gather(ready: seq<(nat, Mask)>) returns (active: seq<Channel>)
      requires Valid() && Reported(ready)
      modifies this`events, events, chans.Keys`revents
      ensures Valid() && View() == old(View()) && |active| == |ready|
      ensures forall i :: 0 <= i < |ready| ==> active[i] in chans && Reports(active[i], ready[i])
      ensures forall c :: c in chans && c !in active ==> c.revents == old(c.revents)
      ensures events.Length == if |ready| == old(events.Length) then 2 * old(events.Length) else old(events.Length)
      ensures fresh(events) || events == old(events)
    {
      EventsAreLive(ready);
      hide Consistent, Reported;
      var numEvents := EpollWait(ready);
      assert forall i, j :: 0 <= i < j < numEvents ==> events[i].ptr != events[j].ptr;
      active := FillActiveChannels(numEvents);
      Widen(numEvents);
    }

    /** A full event list is replaced by one twice as long. */
    method Widen(numEvents: nat)
      requires Valid() && numEvents <= events.Length
      modifies this`events
      ensures Valid()
      ensures events.Length == if numEvents == old(events.Length) then 2 * old(events.Length) else old(events.Length)
      ensures fresh(events) || events == old(events)
    {
      if numEvents == events.Length {
        events := new EpollEvent[2 * events.Length](_ => EpollEvent({}, null));
      }
    }

    lemma EventsAreLive(ready: seq<(nat, Mask)>)
      requires Valid() && Reported(ready)
      ensures forall i :: 0 <= i < |ready| ==>
                kernel[ready[i].0].ptr in chans && kernel[ready[i].0].ptr.fd == ready[i].0 && kernel[ready[i].0].ptr.index.Added?
      ensures forall i, j :: 0 <= i < j < |ready| ==> kernel[ready[i].0].ptr != kernel[ready[j].0].ptr
    {
      forall i | 0 <= i < |ready|
        ensures kernel[ready[i].0].ptr in chans && kernel[ready[i].0].ptr.fd == ready[i].0 && kernel[ready[i].0].ptr.index.Added?
      {
        assert Tracks(View(), kernel[ready[i].0].ptr);
      }
    }
  }
}
