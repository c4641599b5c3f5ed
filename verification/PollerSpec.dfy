/**
 Channel.h and EPollPoller.cpp as functions on values: the three-state index of
 every channel against the interest set the kernel keeps.  Channels are named
 by any type K (an id in the reactor model, an object reference in the classes).
 */
module PollerSpec {

  /** The epoll bits in use; a mask is a set of them. */
  datatype Bit = IN | PRI | OUT | ERR | HUP

  type Mask = set<Bit>

  const NONE_EVENT: Mask := {}
  const READ_EVENT: Mask := {IN, PRI}
  const WRITE_EVENT: Mask := {OUT}

  datatype Index = New | Added | Deleted

  datatype Chan = Chan(fd: nat, events: Mask, index: Index)

  /** What the kernel holds for one descriptor: `event.events` and `event.data.ptr`. */
  datatype Interest<K> = Interest(mask: Mask, ptr: K)

  datatype Poller<K(==)> = Poller(
    chans: map<K, Chan>,              // every live channel of the loop
    channels: map<nat, K>,            // channels_
    kernel: map<nat, Interest<K>>)    // the epoll interest set

  datatype Ctl = CtlAdd | CtlMod | CtlDel

  /** `epoll_ctl` on a wrong descriptor fails, and LOG_ERROR then aborts. */
  datatype Result<K(==)> = Ok(p: Poller<K>) | Failed(ctl: Ctl)

  /** EPOLL_CTL_ADD wants an absent descriptor; MOD and DEL want a present one. */
  predicate Accepts<K>(kernel: map<nat, Interest<K>>, ctl: Ctl, fd: nat) {
    if ctl.CtlAdd? then fd !in kernel else fd in kernel
  }

  function Update<K>(p: Poller<K>, ctl: Ctl, k: K): Result<K>
    requires k in p.chans
  {
    var c := p.chans[k];
    if !Accepts(p.kernel, ctl, c.fd) then Failed(ctl)
    else if ctl.CtlDel? then Ok(p.(kernel := p.kernel - {c.fd}))
    else Ok(p.(kernel := p.kernel[c.fd := Interest(c.events, k)]))
  }

  function SetIndex<K>(p: Poller<K>, k: K, index: Index): Poller<K>
    requires k in p.chans
  {
    p.(chans := p.chans[k := p.chans[k].(index := index)])
  }

  function UpdateChannel<K>(p: Poller<K>, k: K): Result<K>
    requires k in p.chans
  {
    var c := p.chans[k];
    if !c.index.Added? then
      var p1 := if c.index.New? then p.(channels := p.channels[c.fd := k]) else p;
      Update(SetIndex(p1, k, Added), CtlAdd, k)
    else if c.events == NONE_EVENT then
      var r := Update(p, CtlDel, k);
      if r.Ok? then Ok(SetIndex(r.p, k, Deleted)) else r
    else
      Update(p, CtlMod, k)
  }

  function RemoveChannel<K>(p: Poller<K>, k: K): Result<K>
    requires k in p.chans
  {
    var c := p.chans[k];
    var p1 := p.(channels := p.channels - {c.fd});
    var r := if c.index.Added? then Update(p1, CtlDel, k) else Ok(p1);
    if r.Ok? then Ok(SetIndex(r.p, k, New)) else r
  }

  /** enableReading, enableWriting, disableWriting, disableAll: change the mask, push it. */
  function SetEvents<K>(p: Poller<K>, k: K, events: Mask): Result<K>
    requires k in p.chans
  {
    UpdateChannel(p.(chans := p.chans[k := p.chans[k].(events := events)]), k)
  }

  /** Push a series of masks. */
  function PushAll<K>(p: Poller<K>, k: K, masks: seq<Mask>): Result<K>
    decreases |masks|
  {
    if masks == [] then Ok(p)
    else if k !in p.chans then Failed(CtlMod)
    else
      var r := SetEvents(p, k, masks[0]);
      if r.Ok? then PushAll(r.p, k, masks[1..]) else r
  }

  lemma PushOne<K>(p: Poller<K>, k: K, mask: Mask)
    requires k in p.chans
    ensures PushAll(p, k, [mask]) == SetEvents(p, k, mask)
  {
    var r := SetEvents(p, k, mask);
    assert [mask][1..] == [];
    if r.Ok? { assert PushAll(r.p, k, []) == r; }
  }

  lemma {:induction false} PushAllConcat<K>(p: Poller<K>, k: K, a: seq<Mask>, b: seq<Mask>)
    requires PushAll(p, k, a).Ok?
    ensures PushAll(p, k, a + b) == PushAll(PushAll(p, k, a).p, k, b)
    decreases |a|
  {
    hide SetEvents;
    if a == [] {
      assert a + b == b;
    } else {
      assert (a + b)[0] == a[0] && (a + b)[1..] == a[1..] + b;
      PushAllConcat(SetEvents(p, k, a[0]).p, k, a[1..], b);
    }
  }

  // ----- the refinement -----

  /** No two live channels share a descriptor. */
  ghost predicate DistinctFds<K>(p: Poller<K>) {
    forall k, l :: k in p.chans && l in p.chans && p.chans[k].fd == p.chans[l].fd ==> k == l
  }

  /** One channel's index tells exactly what channels_ and the kernel hold for it. */
  ghost predicate Tracks<K>(p: Poller<K>, k: K)
    requires k in p.chans
  {
    var c := p.chans[k];
    && (c.fd in p.kernel <==> c.index.Added?)
    && (c.index.Added? ==> p.kernel[c.fd] == Interest(c.events, k))
    && (c.fd in p.channels <==> !c.index.New?)
    && (!c.index.New? ==> p.channels[c.fd] == k)
    && (c.index.Deleted? ==> c.events == NONE_EVENT)
  }

  ghost predicate Consistent<K>(p: Poller<K>) {
    && DistinctFds(p)
    && (forall k :: k in p.chans ==> Tracks(p, k))
    && (forall fd :: fd in p.kernel ==> p.kernel[fd].ptr in p.chans && p.chans[p.kernel[fd].ptr].fd == fd)
    && (forall fd :: fd in p.channels ==> p.channels[fd] in p.chans && p.chans[p.channels[fd]].fd == fd)
  }

  /** Only channel k differs. */
  ghost predicate OnlyTouches<K>(p: Poller<K>, q: Poller<K>, k: K)
    requires k in p.chans
  {
    && q.chans.Keys == p.chans.Keys && q.chans[k].fd == p.chans[k].fd
    && (forall l :: l in p.chans && l != k ==> q.chans[l] == p.chans[l])
    && (forall fd :: fd != p.chans[k].fd ==>
          && (fd in q.kernel <==> fd in p.kernel) && (fd in p.kernel ==> q.kernel[fd] == p.kernel[fd])
          && (fd in q.channels <==> fd in p.channels) && (fd in p.channels ==> q.channels[fd] == p.channels[fd]))
  }

  lemma TouchKeepsConsistent<K>(p: Poller<K>, q: Poller<K>, k: K)
    requires Consistent(p) && k in p.chans && OnlyTouches(p, q, k) && Tracks(q, k)
    ensures Consistent(q)
  {
    forall l | l in q.chans ensures Tracks(q, l) {
      if l != k { assert Tracks(p, l); }
    }
    forall fd | fd in q.kernel ensures q.kernel[fd].ptr in q.chans && q.chans[q.kernel[fd].ptr].fd == fd {}
    forall fd | fd in q.channels ensures q.channels[fd] in q.chans && q.chans[q.channels[fd]].fd == fd {}
  }

  /** The state after a mask change: registered unless it went from added to empty. */
  lemma SetEventsConsistent<K>(p: Poller<K>, k: K, events: Mask)
    requires Consistent(p) && k in p.chans
    ensures SetEvents(p, k, events).Ok?
    ensures var q := SetEvents(p, k, events).p;
            && Consistent(q) && OnlyTouches(p, q, k) && q.chans[k].events == events
            && q.chans[k].index == (if p.chans[k].index.Added? && events == NONE_EVENT then Deleted else Added)
  {
    assert Tracks(p, k);
    var q := SetEvents(p, k, events).p;
    assert Tracks(q, k);
    TouchKeepsConsistent(p, q, k);
  }

  lemma RemoveConsistent<K>(p: Poller<K>, k: K)
    requires Consistent(p) && k in p.chans
    ensures RemoveChannel(p, k).Ok?
    ensures var q := RemoveChannel(p, k).p;
            && Consistent(q) && OnlyTouches(p, q, k)
            && q.chans[k] == p.chans[k].(index := New)
            && p.chans[k].fd !in q.channels && p.chans[k].fd !in q.kernel
  {
    assert Tracks(p, k);
    var q := RemoveChannel(p, k).p;
    assert Tracks(q, k);
    TouchKeepsConsistent(p, q, k);
  }

  /** Both calls in closed form. */
  lemma SetEventsEffect<K>(p: Poller<K>, k: K, events: Mask)
    requires k in p.chans && SetEvents(p, k, events).Ok?
    ensures var c := p.chans[k];
            var off := c.index.Added? && events == NONE_EVENT;
            SetEvents(p, k, events).p == Poller(
              p.chans[k := Chan(c.fd, events, if off then Deleted else Added)],
              if c.index.New? then p.channels[c.fd := k] else p.channels,
              if off then p.kernel - {c.fd} else p.kernel[c.fd := Interest(events, k)])
  {
  }

  lemma RemoveEffect<K>(p: Poller<K>, k: K)
    requires k in p.chans && RemoveChannel(p, k).Ok?
    ensures var c := p.chans[k];
            RemoveChannel(p, k).p == Poller(
              p.chans[k := c.(index := New)],
              p.channels - {c.fd},
              if c.index.Added? then p.kernel - {c.fd} else p.kernel)
  {
  }

  /** A new channel on a descriptor no live channel uses. */
  function AddChan<K>(p: Poller<K>, k: K, fd: nat): Poller<K> {
    p.(chans := p.chans[k := Chan(fd, NONE_EVENT, New)])
  }

  function DropChan<K>(p: Poller<K>, k: K): Poller<K> {
    p.(chans := p.chans - {k})
  }

  ghost predicate FdFree<K>(p: Poller<K>, fd: nat) {
    forall k :: k in p.chans ==> p.chans[k].fd != fd
  }

  lemma AddChanConsistent<K>(p: Poller<K>, k: K, fd: nat)
    requires Consistent(p) && k !in p.chans && FdFree(p, fd)
    ensures Consistent(AddChan(p, k, fd))
  {
    var q := AddChan(p, k, fd);
    forall l | l in q.chans ensures Tracks(q, l) {
      if l != k { assert Tracks(p, l); }
    }
  }

  lemma DropChanConsistent<K>(p: Poller<K>, k: K)
    requires Consistent(p) && k in p.chans && p.chans[k].index.New?
    ensures Consistent(DropChan(p, k))
  {
    var q := DropChan(p, k);
    assert Tracks(p, k);
    forall l | l in q.chans ensures Tracks(q, l) { assert Tracks(p, l); }
    forall fd | fd in q.kernel ensures q.kernel[fd].ptr in q.chans { assert Tracks(p, p.kernel[fd].ptr); }
    forall fd | fd in q.channels ensures q.channels[fd] in q.chans { assert Tracks(p, p.channels[fd]); }
  }

  /** Without distinct descriptors the property fails: the second registration is an ADD of a present fd. */
  lemma SharedFdAborts(fd: nat)
    ensures var empty: Poller<nat> := Poller(map[], map[], map[]);
            var p := AddChan(AddChan(empty, 1, fd), 2, fd);
            && SetEvents(p, 1, READ_EVENT).Ok?
            && SetEvents(SetEvents(p, 1, READ_EVENT).p, 2, READ_EVENT) == Failed(CtlAdd)
  {
  }

  /** Disabling everything twice puts the descriptor back into the kernel set, with an empty mask. */
  lemma DisableTwiceRegistersAgain<K>(p: Poller<K>, k: K)
    requires Consistent(p) && k in p.chans && p.chans[k].index.Added?
    ensures SetEvents(p, k, NONE_EVENT).Ok? && SetEvents(SetEvents(p, k, NONE_EVENT).p, k, NONE_EVENT).Ok?
    ensures var once := SetEvents(p, k, NONE_EVENT).p;
            var twice := SetEvents(once, k, NONE_EVENT).p;
            && p.chans[k].fd !in once.kernel
            && p.chans[k].fd in twice.kernel && twice.kernel[p.chans[k].fd] == Interest(NONE_EVENT, k)
  {
    SetEventsConsistent(p, k, NONE_EVENT);
    var once := SetEvents(p, k, NONE_EVENT).p;
    assert Tracks(once, k);
    SetEventsConsistent(once, k, NONE_EVENT);
    assert Tracks(SetEvents(once, k, NONE_EVENT).p, k);
  }
}
